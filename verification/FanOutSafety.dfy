/** What every reachable state of the fan-out/fan-in satisfies: results are written in
    item order, nothing written refers to a missing object, the number of live workers is
    bounded, and a clean return means that everything was read, written and reported. */
module FanOutSafety {
  import opened Prelude
  import opened FanOut

  /* ---------- order ---------- */

  ghost predicate Iota(ns: seq<nat>) {
    forall j :: 0 <= j < |ns| ==> ns[j] == j
  }

  ghost predicate Increasing(ns: seq<nat>) {
    forall j, k :: 0 <= j < k < |ns| ==> ns[j] < ns[k]
  }

  ghost predicate Below(ns: seq<nat>, bound: nat) {
    forall j :: 0 <= j < |ns| ==> ns[j] < bound
  }

  /** How many of the items read have left the producer's send select. */
  function Passed(s: State): nat
    requires s.producer.Sending? ==> s.items != []
  {
    if s.producer.Sending? then |s.items| - 1 else |s.items|
  }

  ghost predicate InOrder(c: Config, s: State) {
    && (s.producer.Sending? ==> s.items != [] && s.producer.item == |s.items| - 1)
    && (s.producer.Spawning? ==> s.sent != [] && s.sent[|s.sent| - 1] == |s.items| - 1)
    && s.sent == s.delivered + Current(s) + s.queue
    && |Current(s)| <= 1
    && Increasing(s.sent)
    && Below(s.sent, Passed(s))
    && (s.dropped || s.skipped ==> Done(s))
    && (!s.dropped ==> |s.sent| == Passed(s))
    && (!s.dropped || c.mode.Download? ==> Iota(s.sent))
    && (!s.cancelled || c.mode.Download? ==> Iota(s.delivered))
    && (s.dropped && c.mode.Download? ==> s.producer.Closing? || s.producer.Stopped?)
    && |s.queue| + (if s.broken then 1 else 0) <= c.concurrency
  }

  /** A read error is not forgotten while the context is live. */
  ghost predicate ErrorPending(s: State) {
    && (s.broken || s.producer.SendingError? ==> s.readFailed)
    && (s.broken ==> s.producer.Closing? || s.producer.Stopped?)
    && (s.readFailed ==> s.producer.SendingError? || s.producer.Closing? || s.producer.Stopped?)
    && (s.readFailed && !s.producer.SendingError? && !Done(s) ==> s.broken)
  }

  ghost predicate CleanReturn(s: State) {
    && (s.fanIn.Returned? && !s.fanIn.failed && !s.fanIn.clean ==> s.cancelled)
    && (s.fanIn.Returned? && s.fanIn.clean ==>
      && !s.fanIn.failed && s.fanIn.held == [] && s.queue == [] && !s.broken
      && s.producer.Stopped? && !s.dropped && !s.skipped && !s.readFailed)
  }

  /* ---------- workers and objects ---------- */

  ghost predicate WellKeyed(c: Config, store: map<Bytes, Bytes>) {
    forall k :: k in store ==> c.hash(store[k]) == k
  }

  /** Item i's result may be handed to the fan-in: its object is in the store (upload),
      or bytes with its key have been fetched (download). */
  ghost predicate Ready(c: Config, s: State, i: nat) {
    && i < |s.items|
    && (c.mode.Upload? ==> c.hash(s.items[i]) in s.store)
    && (c.mode.Download? ==> i in s.fetched && c.hash(s.fetched[i]) == s.items[i])
  }

  ghost predicate HasResult(pc: WorkerPc) {
    pc == Reporting || pc == Offering(true)
  }

  ghost predicate WorkersMatch(s: State) {
    && (forall i :: i in s.workers ==>
          i in s.sent && (s.producer.Spawning? ==> i != |s.items| - 1))
    && (forall i :: i in s.sent ==>
          i in s.workers || (s.producer.Spawning? && i == |s.items| - 1))
    && (forall i :: i in s.delivered ==> i in s.workers && s.workers[i] == Exited)
    && (s.fanIn.Writing? ==> s.fanIn.item in s.workers && s.workers[s.fanIn.item] == Exited)
    && (!Done(s) ==>
          forall i :: i in s.workers && s.workers[i] == Exited ==>
            i in s.delivered || (s.fanIn.Writing? && s.fanIn.item == i))
  }

  ghost predicate ObjectsMatch(c: Config, s: State) {
    && WellKeyed(c, s.store)
    && (forall i :: i in s.workers && s.workers[i].Checking? ==> c.mode.Upload?)
    && (forall i :: i in s.workers && HasResult(s.workers[i]) ==> Ready(c, s, i))
    && (forall i :: i in s.delivered ==> Ready(c, s, i))
    && (s.fanIn.Writing? ==> Ready(c, s, s.fanIn.item))
    && |s.out| == |s.delivered|
    && (forall j :: 0 <= j < |s.out| ==>
          s.delivered[j] < |s.items| && s.out[j] == ResultOf(c, s, s.delivered[j]))
  }

  /* ---------- progress ---------- */

  function Reported(c: Config, s: State, n: nat): nat
    requires n <= |s.items|
  {
    if n == 0 then 0
    else Reported(c, s, n - 1) + (if n - 1 in s.reported then SizeOf(c, s, n - 1) else 0)
  }

  ghost predicate ProgressMatches(c: Config, s: State) {
    && (forall i :: i in s.reported ==>
          i in s.workers && (s.workers[i] == Offering(true) || s.workers[i] == Exited))
    && (c.reporting && !s.skipped ==>
          && (forall i :: i in s.workers && s.workers[i] == Offering(true) ==> i in s.reported)
          && (forall i :: i in s.delivered ==> i in s.reported)
          && (s.fanIn.Writing? ==> s.fanIn.item in s.reported))
    && Sum(s.progress) == Reported(c, s, |s.items|)
  }

  ghost predicate Inv(c: Config, s: State) {
    && InOrder(c, s)
    && ErrorPending(s)
    && CleanReturn(s)
    && WorkersMatch(s)
    && ObjectsMatch(c, s)
    && ProgressMatches(c, s)
  }

  /* ---------- each step keeps the order ---------- */

  ghost predicate Order(c: Config, s: State) {
    InOrder(c, s) && ErrorPending(s) && CleanReturn(s)
  }

  lemma ProducerKeepsInOrder(c: Config, s: State, p: ProducerStep)
    requires InOrder(c, s) && ProducerCan(c, s, p) && !p.SendItem? && !p.HandItem?
    ensures InOrder(c, ProducerStepped(c, s, p))
  {
    hide Increasing, Iota;
  }

  lemma ProducerKeepsEnds(c: Config, s: State, p: ProducerStep)
    requires ErrorPending(s) && CleanReturn(s) && ProducerCan(c, s, p)
    ensures ErrorPending(ProducerStepped(c, s, p)) && CleanReturn(ProducerStepped(c, s, p))
  {
    match p
    case ReadItem(_) =>
    case SpawnWorker =>
    case HandItem =>
    case HandFailure =>
    case _ =>
  }

  lemma ProducerKeepsOrder(c: Config, s: State, p: ProducerStep)
    requires Order(c, s) && ProducerCan(c, s, p) && !p.SendItem? && !p.HandItem?
    ensures Order(c, ProducerStepped(c, s, p))
  {
    ProducerKeepsInOrder(c, s, p);
    ProducerKeepsEnds(c, s, p);
    hide ProducerStepped, InOrder, ErrorPending, CleanReturn;
  }

  /** What holds of the numbers sent so far holds with the next one. */
  lemma SentGrows(ns: seq<nat>, x: nat)
    requires Increasing(ns) && Below(ns, x)
    ensures Increasing(ns + [x]) && Below(ns + [x], x + 1)
    ensures Iota(ns) && x == |ns| ==> Iota(ns + [x])
  {
  }

  lemma SendingKeepsInOrder(c: Config, s: State)
    requires InOrder(c, s) && ProducerCan(c, s, SendItem)
    ensures InOrder(c, ProducerStepped(c, s, SendItem))
  {
    SentGrows(s.sent, s.producer.item);
    hide Increasing, Below, Iota;
    Assoc(s.delivered + Current(s), s.queue, [s.producer.item]);
  }

  lemma HandingKeepsInOrder(c: Config, s: State)
    requires InOrder(c, s) && ProducerCan(c, s, HandItem)
    ensures InOrder(c, ProducerStepped(c, s, HandItem))
  {
    SentGrows(s.sent, s.producer.item);
    hide Increasing, Below, Iota;
    assert s.queue == [] && Current(s) == [];
    var t := ProducerStepped(c, s, HandItem);
    assert t.sent == t.delivered + Current(t) + t.queue;
  }

  lemma SendingKeepsOrder(c: Config, s: State, p: ProducerStep)
    requires Order(c, s) && ProducerCan(c, s, p) && (p.SendItem? || p.HandItem?)
    ensures Order(c, ProducerStepped(c, s, p))
  {
    if p.SendItem? {
      SendingKeepsInOrder(c, s);
    } else {
      HandingKeepsInOrder(c, s);
    }
    ProducerKeepsEnds(c, s, p);
    hide ProducerStepped, InOrder, ErrorPending, CleanReturn;
  }

  lemma IotaPrefix(left: seq<nat>, right: seq<nat>)
    requires Iota(left + right)
    ensures Iota(left)
  {
    assert forall j :: 0 <= j < |left| ==> (left + right)[j] == left[j];
  }

  lemma TakeShiftsPipeline(delivered: seq<nat>, queue: seq<nat>)
    requires queue != []
    ensures delivered + [] + queue == delivered + [queue[0]] + queue[1..]
  {
    assert queue == [queue[0]] + queue[1..];
    Assoc(delivered, [queue[0]], queue[1..]);
    assert delivered + [] == delivered;
  }

  lemma TakeItemKeepsOrder(c: Config, s: State)
    requires Order(c, s) && FanInCan(c, s, TakeItem)
    ensures Order(c, FanInStepped(c, s, TakeItem))
  {
    hide Increasing, Iota, Below;
    TakeShiftsPipeline(s.delivered, s.queue);
  }

  lemma WriteResultKeepsOrder(c: Config, s: State)
    requires Order(c, s) && FanInCan(c, s, WriteResult)
    ensures Order(c, FanInStepped(c, s, WriteResult))
  {
    hide Increasing, Iota, Below;
    var written := s.delivered + [s.fanIn.item];
    assert written + [] == written;
    if Iota(s.sent) {
      IotaPrefix(written, s.queue);
    }
  }

  lemma FanInKeepsInOrder(c: Config, s: State, f: FanInStep)
    requires InOrder(c, s) && FanInCan(c, s, f) && !f.TakeItem? && !f.WriteResult?
    ensures InOrder(c, FanInStepped(c, s, f))
  {
    hide Increasing, Iota, Below;
  }

  lemma FanInKeepsEnds(c: Config, s: State, f: FanInStep)
    requires InOrder(c, s) && ErrorPending(s) && CleanReturn(s) && FanInCan(c, s, f)
    ensures ErrorPending(FanInStepped(c, s, f)) && CleanReturn(FanInStepped(c, s, f))
  {
    hide Increasing, Iota, Below;
  }

  lemma FanInKeepsOrder(c: Config, s: State, f: FanInStep)
    requires Order(c, s) && FanInCan(c, s, f) && !f.TakeItem? && !f.WriteResult?
    ensures Order(c, FanInStepped(c, s, f))
  {
    FanInKeepsInOrder(c, s, f);
    FanInKeepsEnds(c, s, f);
    hide FanInStepped, FanInCan, InOrder, ErrorPending, CleanReturn;
  }

  /** All that a worker's step touches. */
  lemma WorkerTouches(c: Config, s: State, i: nat, w: WorkerStep)
    requires WorkerCan(c, s, i, w)
    ensures
      var t := WorkerStepped(c, s, i, w);
      && i in t.workers && s.workers[i] != Exited
      && t == s.(workers := s.workers[i := t.workers[i]], store := t.store, fetched := t.fetched,
                 reported := t.reported, progress := t.progress, skipped := t.skipped)
      && (s.skipped ==> t.skipped) && (t.skipped ==> s.skipped || Done(s))
  {
  }

  lemma WorkerKeepsOrder(c: Config, s: State, i: nat, w: WorkerStep)
    requires Order(c, s) && WorkerCan(c, s, i, w)
    requires s.fanIn.Returned? && s.fanIn.clean ==> s.workers[i] == Exited
    ensures Order(c, WorkerStepped(c, s, i, w))
  {
    WorkerTouches(c, s, i, w);
    hide Increasing, Iota, Below, WorkerStepped, WorkerCan;
  }

  lemma EnvironmentKeepsOrder(c: Config, s: State, a: Action)
    requires Order(c, s) && Enabled(c, s, a) && (a.Cancel? || a.ForeignUpload?)
    ensures Order(c, Apply(c, s, a))
  {
    hide Increasing, Iota, Below;
  }

  /* ---------- each step keeps items and workers together ---------- */

  lemma ProducerKeepsWorkers(c: Config, s: State, p: ProducerStep)
    requires WorkersMatch(s) && ProducerCan(c, s, p) && !p.SendItem? && !p.HandItem?
    requires p.SpawnWorker? ==> |s.items| - 1 in s.sent
    ensures WorkersMatch(ProducerStepped(c, s, p))
  {
  }

  lemma SendingKeepsWorkers(c: Config, s: State, p: ProducerStep)
    requires WorkersMatch(s) && ProducerCan(c, s, p) && (p.SendItem? || p.HandItem?)
    requires s.producer.item == |s.items| - 1 && s.producer.item !in s.sent
    ensures WorkersMatch(ProducerStepped(c, s, p))
  {
  }

  /** A worker moves on, and only a done context makes it leave. */
  lemma WorkersFrame(s: State, t: State, i: nat)
    requires WorkersMatch(s) && i in s.workers && s.workers[i] != Exited
    requires i in t.workers && t.workers == s.workers[i := t.workers[i]]
    requires t.sent == s.sent && t.producer == s.producer && |t.items| == |s.items|
    requires t.delivered == s.delivered && t.fanIn == s.fanIn && Done(t) == Done(s)
    requires t.workers[i] == Exited ==> Done(s)
    ensures WorkersMatch(t)
  {
    hide Done;
  }

  lemma WorkerKeepsWorkers(c: Config, s: State, i: nat, w: WorkerStep)
    requires WorkersMatch(s) && WorkerCan(c, s, i, w)
    ensures WorkersMatch(WorkerStepped(c, s, i, w))
  {
    hide WorkersMatch;
    WorkersFrame(s, WorkerStepped(c, s, i, w), i);
  }

  lemma TakeResultKeepsWorkers(c: Config, s: State)
    requires WorkersMatch(s) && FanInCan(c, s, TakeResult)
    ensures WorkersMatch(FanInStepped(c, s, TakeResult))
  {
  }

  lemma WriteResultKeepsWorkers(c: Config, s: State)
    requires WorkersMatch(s) && FanInCan(c, s, WriteResult)
    ensures WorkersMatch(FanInStepped(c, s, WriteResult))
  {
  }

  lemma FanInKeepsWorkers(c: Config, s: State, f: FanInStep)
    requires WorkersMatch(s) && FanInCan(c, s, f)
    ensures WorkersMatch(FanInStepped(c, s, f))
  {
    match f
    case TakeResult => TakeResultKeepsWorkers(c, s);
    case WriteResult => WriteResultKeepsWorkers(c, s);
    case _ =>
  }

  /* ---------- each step keeps results and objects together ---------- */

  lemma ObjectsFrame(c: Config, s: State, t: State)
    requires ObjectsMatch(c, s)
    requires s.items <= t.items && t.store == s.store && t.fetched == s.fetched
    requires t.delivered == s.delivered && t.out == s.out && (t.fanIn.Writing? ==> t.fanIn == s.fanIn)
    requires forall i :: i in t.workers ==>
      (i in s.workers && t.workers[i] == s.workers[i]) || t.workers[i] == FirstPc(c)
    ensures ObjectsMatch(c, t)
  {
    hide WellKeyed;
    forall i | Ready(c, s, i) ensures Ready(c, t, i) {
    }
  }

  /** The fields of an object that the producer never writes, and its one new worker. */
  predicate ObjectsUntouched(c: Config, s: State, t: State) {
    && t.store == s.store && t.fetched == s.fetched && t.delivered == s.delivered && t.out == s.out
    && s.items <= t.items && (t.fanIn.Writing? ==> t.fanIn == s.fanIn)
    && (t.workers == s.workers || (s.items != [] && t.workers == s.workers[|s.items| - 1 := FirstPc(c)]))
  }

  lemma ProducerTouchesNoObjects(c: Config, s: State, p: ProducerStep)
    requires ProducerCan(c, s, p)
    ensures ObjectsUntouched(c, s, ProducerStepped(c, s, p))
  {
    match p
    case ReadItem(item) =>
    case SpawnWorker =>
    case HandItem =>
    case HandFailure =>
    case _ =>
  }

  lemma ProducerKeepsObjects(c: Config, s: State, p: ProducerStep)
    requires ObjectsMatch(c, s) && ProducerCan(c, s, p)
    ensures ObjectsMatch(c, ProducerStepped(c, s, p))
  {
    ProducerTouchesNoObjects(c, s, p);
    hide ProducerStepped, ObjectsMatch, FirstPc;
    ObjectsFrame(c, s, ProducerStepped(c, s, p));
  }

  lemma WorkerKeepsStore(c: Config, s: State, i: nat, w: WorkerStep)
    requires WellKeyed(c, s.store) && WorkerCan(c, s, i, w)
    ensures WellKeyed(c, WorkerStepped(c, s, i, w).store)
  {
  }

  lemma WorkerKeepsReady(c: Config, s: State, i: nat, w: WorkerStep, j: nat)
    requires WellKeyed(c, s.store) && WorkerCan(c, s, i, w) && Ready(c, s, j)
    ensures Ready(c, WorkerStepped(c, s, i, w), j)
    ensures i != j ==> ResultOf(c, WorkerStepped(c, s, i, w), j) == ResultOf(c, s, j)
  {
  }

  /** Only a stored or fetched object gives a result. */
  lemma ResultIsReady(c: Config, s: State, i: nat, w: WorkerStep)
    requires ObjectsMatch(c, s) && WorkerCan(c, s, i, w)
    ensures HasResult(WorkerStepped(c, s, i, w).workers[i]) ==> Ready(c, WorkerStepped(c, s, i, w), i)
    ensures !WorkerStepped(c, s, i, w).workers[i].Checking?
  {
  }

  lemma WorkerKeepsObjects(c: Config, s: State, i: nat, w: WorkerStep)
    requires ObjectsMatch(c, s) && WorkersMatch(s) && WorkerCan(c, s, i, w)
    ensures ObjectsMatch(c, WorkerStepped(c, s, i, w))
  {
    var t := WorkerStepped(c, s, i, w);
    WorkerKeepsStore(c, s, i, w);
    ResultIsReady(c, s, i, w);
    assert i !in s.delivered && (s.fanIn.Writing? ==> s.fanIn.item != i);
    WorkerTouches(c, s, i, w);
    forall j | Ready(c, s, j) ensures Ready(c, t, j) && (i != j ==> ResultOf(c, t, j) == ResultOf(c, s, j)) {
      WorkerKeepsReady(c, s, i, w, j);
    }
    hide WellKeyed, Ready, ResultOf, HasResult, WorkersMatch, WorkerStepped, WorkerCan;
    assert forall j :: 0 <= j < |s.out| ==> s.delivered[j] in s.delivered;
  }

  lemma TakeResultKeepsObjects(c: Config, s: State)
    requires ObjectsMatch(c, s) && FanInCan(c, s, TakeResult)
    ensures ObjectsMatch(c, FanInStepped(c, s, TakeResult))
  {
    hide WellKeyed;
    var t := FanInStepped(c, s, TakeResult);
    forall i | Ready(c, s, i) ensures Ready(c, t, i) {
    }
  }

  lemma WriteResultKeepsObjects(c: Config, s: State)
    requires ObjectsMatch(c, s) && FanInCan(c, s, WriteResult)
    ensures ObjectsMatch(c, FanInStepped(c, s, WriteResult))
  {
    hide WellKeyed;
    var t := FanInStepped(c, s, WriteResult);
    forall i | Ready(c, s, i) ensures Ready(c, t, i) {
    }
  }

  lemma FanInKeepsObjects(c: Config, s: State, f: FanInStep)
    requires ObjectsMatch(c, s) && FanInCan(c, s, f)
    ensures ObjectsMatch(c, FanInStepped(c, s, f))
  {
    match f
    case TakeResult => TakeResultKeepsObjects(c, s);
    case WriteResult => WriteResultKeepsObjects(c, s);
    case _ =>
      hide ObjectsMatch;
      ObjectsFrame(c, s, FanInStepped(c, s, f));
  }

  lemma ForeignUploadKeepsObjects(c: Config, s: State, data: Bytes)
    requires ObjectsMatch(c, s)
    ensures ObjectsMatch(c, Apply(c, s, ForeignUpload(data)))
  {
  }

  /* ---------- each step keeps the progress ---------- */

  lemma {:induction false} ReportedUnchanged(c: Config, s: State, t: State, n: nat)
    requires n <= |s.items| && n <= |t.items|
    requires forall j :: 0 <= j < n ==> (j in s.reported <==> j in t.reported)
    requires forall j :: 0 <= j < n && j in s.reported ==> SizeOf(c, s, j) == SizeOf(c, t, j)
    ensures Reported(c, s, n) == Reported(c, t, n)
  {
    if n > 0 {
      ReportedUnchanged(c, s, t, n - 1);
    }
  }

  lemma {:induction false} ReportedAdds(c: Config, s: State, t: State, i: nat, n: nat)
    requires t.items == s.items && t.fetched == s.fetched
    requires i !in s.reported && t.reported == s.reported + {i} && i < n <= |s.items|
    ensures Reported(c, t, n) == Reported(c, s, n) + SizeOf(c, s, i)
  {
    if n == i + 1 {
      ReportedUnchanged(c, s, t, i);
    } else {
      ReportedAdds(c, s, t, i, n - 1);
    }
  }

  lemma ReadingKeepsProgress(c: Config, s: State, p: ProducerStep)
    requires ProgressMatches(c, s) && ProducerCan(c, s, p) && p.ReadItem? && |s.items| !in s.workers
    ensures ProgressMatches(c, ProducerStepped(c, s, p))
  {
    hide Sum;
    ReportedUnchanged(c, s, ProducerStepped(c, s, p), |s.items|);
  }

  lemma ProgressFrame(c: Config, s: State, t: State)
    requires ProgressMatches(c, s)
    requires t.items == s.items && t.fetched == s.fetched && t.delivered == s.delivered
    requires t.reported == s.reported && t.progress == s.progress && t.skipped == s.skipped
    requires forall i :: i in s.workers ==> i in t.workers && t.workers[i] == s.workers[i]
    requires forall i :: i in t.workers ==> i in s.workers || t.workers[i] != Offering(true)
    requires t.fanIn.Writing? ==> t.fanIn == s.fanIn
    ensures ProgressMatches(c, t)
  {
    hide Sum, Reported;
    ReportedUnchanged(c, s, t, |s.items|);
  }

  lemma SpawningKeepsProgress(c: Config, s: State)
    requires ProgressMatches(c, s) && ProducerCan(c, s, SpawnWorker) && |s.items| - 1 !in s.workers
    ensures ProgressMatches(c, ProducerStepped(c, s, SpawnWorker))
  {
    hide ProgressMatches;
    ProgressFrame(c, s, ProducerStepped(c, s, SpawnWorker));
  }

  lemma ProducerKeepsProgress(c: Config, s: State, p: ProducerStep)
    requires ProgressMatches(c, s) && ProducerCan(c, s, p) && !p.ReadItem? && !p.SpawnWorker?
    ensures ProgressMatches(c, ProducerStepped(c, s, p))
  {
    hide ProgressMatches;
    var t := ProducerStepped(c, s, p);
    SameProgress(s, p, c);
    hide ProducerStepped;
    ProgressFrame(c, s, t);
  }

  lemma SameProgress(s: State, p: ProducerStep, c: Config)
    requires ProducerCan(c, s, p) && !p.ReadItem? && !p.SpawnWorker?
    ensures
      var t := ProducerStepped(c, s, p);
      && t.items == s.items && t.fetched == s.fetched && t.delivered == s.delivered
      && t.reported == s.reported && t.progress == s.progress && t.skipped == s.skipped
      && t.workers == s.workers && (t.fanIn.Writing? ==> t.fanIn == s.fanIn)
  {
    match p
    case HandItem =>
    case HandFailure =>
    case _ =>
  }

  lemma WorkerKeepsProgress(c: Config, s: State, i: nat, w: WorkerStep)
    requires ProgressMatches(c, s) && WorkersMatch(s) && WorkerCan(c, s, i, w)
    ensures ProgressMatches(c, WorkerStepped(c, s, i, w))
  {
    var t := WorkerStepped(c, s, i, w);
    if w.SendReport? {
      ReportedAdds(c, s, t, i, |s.items|);
      SumSnoc(s.progress, SizeOf(c, s, i));
    } else {
      ReportedUnchanged(c, s, t, |s.items|);
    }
  }

  lemma FanInKeepsProgress(c: Config, s: State, f: FanInStep)
    requires ProgressMatches(c, s) && FanInCan(c, s, f)
    ensures ProgressMatches(c, FanInStepped(c, s, f))
  {
    ReportedUnchanged(c, s, FanInStepped(c, s, f), |s.items|);
  }

  /* ---------- every run keeps all of it ---------- */

  lemma AllDelivered(s: State)
    requires WorkersMatch(s) && s.fanIn.Returned? && s.fanIn.held == [] && s.queue == []
    requires s.sent == s.delivered + Current(s) + s.queue
    ensures s.sent == s.delivered
    ensures forall i :: i in s.workers ==> s.workers[i] == Exited
  {
    assert s.delivered + [] + [] == s.delivered;
  }

  lemma NewItemsAreFresh(c: Config, s: State)
    requires InOrder(c, s) && WorkersMatch(s)
    ensures |s.items| !in s.sent && |s.items| !in s.workers
    ensures s.producer.Sending? ==>
      s.producer.item == |s.items| - 1 && |s.items| - 1 !in s.sent
    ensures s.producer.Spawning? && s.items != [] ==>
      |s.items| - 1 in s.sent && |s.items| - 1 !in s.workers
  {
  }

  lemma ProducerKeepsInv(c: Config, s: State, p: ProducerStep)
    requires Inv(c, s) && ProducerCan(c, s, p)
    ensures Inv(c, ProducerStepped(c, s, p))
  {
    NewItemsAreFresh(c, s);
    hide InOrder, ErrorPending, CleanReturn, WorkersMatch, ObjectsMatch, ProgressMatches, ProducerStepped;
    if p.SendItem? || p.HandItem? {
      SendingKeepsOrder(c, s, p);
      SendingKeepsWorkers(c, s, p);
    } else {
      ProducerKeepsOrder(c, s, p);
      ProducerKeepsWorkers(c, s, p);
    }
    ProducerKeepsObjects(c, s, p);
    if p.ReadItem? {
      ReadingKeepsProgress(c, s, p);
    } else if p.SpawnWorker? {
      SpawningKeepsProgress(c, s);
    } else {
      ProducerKeepsProgress(c, s, p);
    }
  }

  lemma WorkerKeepsInv(c: Config, s: State, i: nat, w: WorkerStep)
    requires Inv(c, s) && WorkerCan(c, s, i, w)
    ensures Inv(c, WorkerStepped(c, s, i, w))
  {
    if s.fanIn.Returned? && s.fanIn.clean {
      AllDelivered(s);
    }
    WorkerKeepsOrder(c, s, i, w);
    WorkerKeepsWorkers(c, s, i, w);
    WorkerKeepsObjects(c, s, i, w);
    WorkerKeepsProgress(c, s, i, w);
  }

  lemma FanInKeepsInv(c: Config, s: State, f: FanInStep)
    requires Inv(c, s) && FanInCan(c, s, f)
    ensures Inv(c, FanInStepped(c, s, f))
  {
    if f.TakeItem? {
      TakeItemKeepsOrder(c, s);
    } else if f.WriteResult? {
      WriteResultKeepsOrder(c, s);
    } else {
      FanInKeepsOrder(c, s, f);
    }
    FanInKeepsWorkers(c, s, f);
    FanInKeepsObjects(c, s, f);
    FanInKeepsProgress(c, s, f);
  }

  lemma EnvironmentKeepsWorkers(c: Config, s: State, a: Action)
    requires WorkersMatch(s) && Enabled(c, s, a) && (a.Cancel? || a.ForeignUpload?)
    ensures WorkersMatch(Apply(c, s, a))
  {
  }

  lemma CancelKeepsObjects(c: Config, s: State)
    requires ObjectsMatch(c, s) && Enabled(c, s, Cancel)
    ensures ObjectsMatch(c, Apply(c, s, Cancel))
  {
    hide WellKeyed;
  }

  lemma EnvironmentKeepsProgress(c: Config, s: State, a: Action)
    requires ProgressMatches(c, s) && Enabled(c, s, a) && (a.Cancel? || a.ForeignUpload?)
    ensures ProgressMatches(c, Apply(c, s, a))
  {
    hide ProgressMatches;
    ProgressFrame(c, s, Apply(c, s, a));
  }

  lemma EnvironmentKeepsInv(c: Config, s: State, a: Action)
    requires Inv(c, s) && Enabled(c, s, a) && (a.Cancel? || a.ForeignUpload?)
    ensures Inv(c, Apply(c, s, a))
  {
    hide InOrder, ErrorPending, CleanReturn, WorkersMatch, ObjectsMatch, ProgressMatches, Apply;
    EnvironmentKeepsOrder(c, s, a);
    EnvironmentKeepsWorkers(c, s, a);
    EnvironmentKeepsProgress(c, s, a);
    if a.ForeignUpload? {
      ForeignUploadKeepsObjects(c, s, a.data);
    } else {
      CancelKeepsObjects(c, s);
    }
  }

  lemma StepKeepsInv(c: Config, s: State, a: Action)
    requires Inv(c, s) && Enabled(c, s, a)
    ensures Inv(c, Apply(c, s, a))
  {
    hide Inv;
    match a {
      case Produce(p) => ProducerKeepsInv(c, s, p);
      case Work(i, w) => WorkerKeepsInv(c, s, i, w);
      case Collect(f) => FanInKeepsInv(c, s, f);
      case Cancel => EnvironmentKeepsInv(c, s, a);
      case ForeignUpload(_) => EnvironmentKeepsInv(c, s, a);
    }
  }

  lemma InitInv(c: Config, store: map<Bytes, Bytes>)
    requires WellKeyed(c, store)
    ensures Inv(c, Init(store))
  {
    InitOrder(c, store);
    hide InOrder, ErrorPending, CleanReturn, WellKeyed;
    assert WorkersMatch(Init(store));
    assert ObjectsMatch(c, Init(store));
  }

  lemma InitOrder(c: Config, store: map<Bytes, Bytes>)
    ensures Order(c, Init(store))
  {
  }

  lemma {:induction false} RunKeepsInv(c: Config, s: State, acts: seq<Action>)
    requires Inv(c, s) && Valid(c, s, acts)
    ensures Inv(c, Run(c, s, acts))
    decreases |acts|
  {
    hide Inv;
    if acts != [] {
      StepKeepsInv(c, s, acts[0]);
      RunKeepsInv(c, Apply(c, s, acts[0]), acts[1..]);
    }
  }

  ghost predicate Starts(c: Config, store: map<Bytes, Bytes>, acts: seq<Action>) {
    WellKeyed(c, store) && Valid(c, Init(store), acts)
  }

  /** `s` is met by some run, from some store whose objects are filed under their hashes. */
  ghost predicate Reachable(c: Config, s: State) {
    exists store, acts :: Starts(c, store, acts) && s == Run(c, Init(store), acts)
  }

  lemma ReachableInv(c: Config, s: State)
    requires Reachable(c, s)
    ensures Inv(c, s)
  {
    hide Inv;
    var store, acts :| Starts(c, store, acts) && s == Run(c, Init(store), acts);
    InitInv(c, store);
    RunKeepsInv(c, Init(store), acts);
  }

  lemma {:induction false} RunExtends(c: Config, s: State, acts: seq<Action>, a: Action)
    requires Valid(c, s, acts) && Enabled(c, Run(c, s, acts), a)
    ensures Valid(c, s, acts + [a])
    ensures Run(c, s, acts + [a]) == Apply(c, Run(c, s, acts), a)
    decreases |acts|
  {
    hide Apply, Enabled;
    var more := acts + [a];
    if acts == [] {
      assert more[1..] == [];
    } else {
      assert more[1..] == acts[1..] + [a];
      RunExtends(c, Apply(c, s, acts[0]), acts[1..], a);
    }
  }

  lemma ReachableStep(c: Config, s: State, a: Action)
    requires Reachable(c, s) && Enabled(c, s, a)
    ensures Reachable(c, Apply(c, s, a))
  {
    hide Apply, Enabled;
    var store, acts :| Starts(c, store, acts) && s == Run(c, Init(store), acts);
    RunExtends(c, Init(store), acts, a);
    assert Starts(c, store, acts + [a]);
  }

  lemma ReachableInit(c: Config, store: map<Bytes, Bytes>)
    requires WellKeyed(c, store)
    ensures Reachable(c, Init(store))
  {
    assert Starts(c, store, []);
  }

  /* ---------- what that means ---------- */

  predicate Ending(s: State) {
    s.producer.Closing? || s.producer.Stopped?
  }

  /** What no step changes, for the networks around this machine: only reading adds items,
      only writing adds output, a read failure and the end of the source have their own
      steps, and a return is final. */
  ghost predicate Frame(c: Config, s: State, t: State, a: Action) {
    && (!(a.Produce? && a.p.ReadItem?) ==> t.items == s.items)
    && (!(a.Collect? && a.f.WriteResult?) ==> t.out == s.out && t.delivered == s.delivered)
    && (t.readFailed == (s.readFailed || (a.Produce? && a.p.ReadError?)))
    && (t.cancelled == (s.cancelled || a.Cancel?))
    && (Ending(t) && !Ending(s) ==>
          (a.Produce? && a.p.ReadEof?) || s.producer.SendingError? || (t.dropped && c.mode.Download?))
    && (s.dropped ==> t.dropped)
    && (Ending(s) ==> Ending(t))
    && (s.producer.SendingError? ==> t.producer.SendingError? || Ending(t))
    && (s.fanIn.Returned? ==> t.fanIn == s.fanIn)
  }

  lemma ProducerFrame(c: Config, s: State, p: ProducerStep)
    requires ProducerCan(c, s, p)
    ensures Frame(c, s, ProducerStepped(c, s, p), Produce(p))
  {
    match p
    case ReadItem(_) =>
    case SpawnWorker =>
    case HandItem =>
    case HandFailure =>
    case _ =>
  }

  lemma FanInFrame(c: Config, s: State, f: FanInStep)
    requires FanInCan(c, s, f)
    ensures Frame(c, s, FanInStepped(c, s, f), Collect(f))
  {
    match f
    case TakeItem =>
    case TakeResult =>
    case WriteResult =>
    case _ =>
  }

  lemma StepFrame(c: Config, s: State, a: Action)
    requires Enabled(c, s, a)
    ensures Frame(c, s, Apply(c, s, a), a)
  {
    match a {
      case Produce(p) => ProducerFrame(c, s, p);
      case Work(i, w) =>
      case Collect(f) => FanInFrame(c, s, f);
      case Cancel =>
      case ForeignUpload(_) =>
    }
  }

  /** Which steps move a worker. */
  predicate WorkersMoved(c: Config, s: State, a: Action, t: State)
    requires Enabled(c, s, a)
  {
    match a
    case Produce(p) => t.workers == if p.SpawnWorker? then s.workers[|s.items| - 1 := FirstPc(c)] else s.workers
    case Work(i, w) => t.workers == s.workers[i := WorkerMoves(c, s.workers[i], w)]
    case Collect(f) => t.workers == if f.TakeResult? then s.workers[s.fanIn.item := Exited] else s.workers
    case _ => t.workers == s.workers
  }

  lemma WorkersTouched(c: Config, s: State, a: Action)
    requires Enabled(c, s, a)
    ensures WorkersMoved(c, s, a, Apply(c, s, a))
  {
    match a
    case Produce(p) => ProducerTouchesWorkers(c, s, p);
    case Collect(f) => FanInTouchesWorkers(c, s, f);
    case _ =>
  }

  lemma ProducerTouchesWorkers(c: Config, s: State, p: ProducerStep)
    requires ProducerCan(c, s, p)
    ensures WorkersMoved(c, s, Produce(p), ProducerStepped(c, s, p))
  {
    match p
    case HandItem =>
    case HandFailure =>
    case _ =>
  }

  lemma FanInTouchesWorkers(c: Config, s: State, f: FanInStep)
    requires FanInCan(c, s, f)
    ensures WorkersMoved(c, s, Collect(f), FanInStepped(c, s, f))
  {
    match f
    case TakeItem =>
    case WriteResult =>
    case _ =>
  }

  lemma CleanReturnEnds(c: Config, s: State)
    requires Reachable(c, s)
    ensures s.fanIn.Returned? && s.fanIn.clean ==> s.producer.Stopped? && !s.dropped && !s.readFailed
  {
    ReachableInv(c, s);
    hide Reachable, InOrder, WorkersMatch, ObjectsMatch, ProgressMatches;
  }

  lemma DirtyReturnIsCancelled(c: Config, s: State)
    requires Reachable(c, s)
    ensures s.fanIn.Returned? && !s.fanIn.failed && !s.fanIn.clean ==> s.cancelled
  {
    ReachableInv(c, s);
    hide Reachable, InOrder, WorkersMatch, ObjectsMatch, ProgressMatches;
  }

  lemma ErrorIsReadFailure(c: Config, s: State)
    requires Reachable(c, s)
    ensures s.producer.SendingError? ==> s.readFailed
  {
    ReachableInv(c, s);
    hide Reachable, InOrder, CleanReturn, WorkersMatch, ObjectsMatch, ProgressMatches;
  }

  lemma WritingHasItem(c: Config, s: State)
    requires Reachable(c, s)
    ensures s.fanIn.Writing? ==> s.fanIn.item < |s.items|
  {
    ReachableInv(c, s);
    assert s.fanIn.Writing? ==> Ready(c, s, s.fanIn.item);
    hide Reachable, InOrder, ErrorPending, CleanReturn, WorkersMatch, ProgressMatches;
  }

  /** The object keys of the items. */
  function Keys(c: Config, items: seq<Bytes>): seq<Bytes> {
    seq(|items|, j requires 0 <= j < |items| => KeyOf(c, items[j]))
  }

  /** `part` is `whole` with some elements left out. */
  ghost predicate Subsequence(part: seq<Bytes>, whole: seq<Bytes>, at: seq<nat>) {
    && |at| == |part| && Increasing(at)
    && forall j :: 0 <= j < |at| ==> at[j] < |whole| && part[j] == whole[at[j]]
  }

  /** Whatever order the upload's workers finish in, the keys written are a subsequence of
      the chunks' keys, and a beginning of it unless the parent context was cancelled. */
  lemma UploadWritesKeysInOrder(c: Config, s: State)
    requires c.mode.Upload? && Reachable(c, s)
    ensures Subsequence(s.out, Keys(c, s.items), s.delivered)
    ensures !s.cancelled ==> |s.out| <= |s.items| && s.out == Keys(c, s.items[..|s.out|])
  {
    ReachableInv(c, s);
    var rest := Current(s) + s.queue;
    Assoc(s.delivered, Current(s), s.queue);
    assert forall j :: 0 <= j < |s.delivered| ==> s.sent[j] == s.delivered[j];
    if !s.cancelled && s.out != [] {
      assert s.delivered[|s.out| - 1] < |s.items|;
    }
  }

  /** Even under cancellation, the download writes the contents of a beginning of its keys. */
  lemma DownloadWritesPrefix(c: Config, s: State)
    requires c.mode.Download? && Reachable(c, s)
    ensures |s.out| <= |s.items|
    ensures forall j :: 0 <= j < |s.out| ==> c.hash(s.out[j]) == s.items[j]
  {
    ReachableInv(c, s);
    if s.out != [] {
      assert s.delivered[|s.out| - 1] < |s.items|;
    }
    forall j | 0 <= j < |s.out| ensures c.hash(s.out[j]) == s.items[j] {
      assert s.delivered[j] == j && j in s.delivered;
      assert Ready(c, s, j);
    }
  }

  /** Every key in the index already has its chunk in the store, in every state, and every
      object in the store hashes to its own key. */
  lemma NoDanglingReferences(c: Config, s: State)
    requires c.mode.Upload? && Reachable(c, s)
    ensures forall k :: k in s.out ==> k in s.store && c.hash(s.store[k]) == k
    ensures WellKeyed(c, s.store)
  {
    ReachableInv(c, s);
    forall k | k in s.out ensures k in s.store {
      var j :| 0 <= j < |s.out| && s.out[j] == k;
      assert s.delivered[j] in s.delivered;
      assert Ready(c, s, s.delivered[j]);
    }
  }

  function Live(s: State): set<nat> {
    set i | i in s.workers && s.workers[i] != Exited
  }

  lemma {:induction false} ElementsBounded(elements: set<nat>, ns: seq<nat>)
    requires forall i :: i in elements ==> i in ns
    ensures |elements| <= |ns|
    decreases |ns|
  {
    if ns != [] {
      ElementsBounded(elements - {ns[0]}, ns[1..]);
    } else {
      assert elements == {};
    }
  }

  /** At most one worker more than the channel's capacity has not handed over its result. */
  lemma WorkersBounded(c: Config, s: State)
    requires Reachable(c, s)
    ensures |Live(s)| <= c.concurrency + 1
  {
    ReachableInv(c, s);
    var waiting := Current(s) + s.queue;
    Assoc(s.delivered, Current(s), s.queue);
    forall i | i in Live(s) ensures i in waiting {
      assert i in s.delivered + waiting;
    }
    ElementsBounded(Live(s), waiting);
  }

  function Sizes(c: Config, s: State, n: nat): nat
    requires n <= |s.items|
  {
    if n == 0 then 0 else Sizes(c, s, n - 1) + SizeOf(c, s, n - 1)
  }

  lemma {:induction false} AllReported(c: Config, s: State, n: nat)
    requires n <= |s.items| && forall i :: 0 <= i < n ==> i in s.reported
    ensures Reported(c, s, n) == Sizes(c, s, n)
  {
    if n > 0 {
      AllReported(c, s, n - 1);
    }
  }

  lemma {:induction false} SizesAreLengths(c: Config, s: State, parts: seq<Bytes>, n: nat)
    requires n <= |s.items| && n <= |parts|
    requires forall i :: 0 <= i < n ==> SizeOf(c, s, i) == |parts[i]|
    ensures Sizes(c, s, n) == |Concat(parts[..n])|
  {
    if n > 0 {
      SizesAreLengths(c, s, parts, n - 1);
      ConcatSnoc(parts[..n - 1], parts[n - 1]);
      assert parts[..n] == parts[..n - 1] + [parts[n - 1]];
    } else {
      assert parts[..0] == [];
    }
  }

  /** A clean return: the source was read to its end, every item's result was written, no
      worker is left (so nothing can be sent on progressCh any more), and the progress
      adds up to the number of bytes uploaded from the chunks, or written from the contents. */
  lemma CleanReturnIsComplete(c: Config, s: State)
    requires Reachable(c, s) && s.fanIn.Returned? && s.fanIn.clean
    ensures !s.readFailed && s.producer.Stopped?
    ensures |s.out| == |s.items|
    ensures forall j :: 0 <= j < |s.items| ==> Ready(c, s, j) && s.out[j] == ResultOf(c, s, j)
    ensures Live(s) == {}
    ensures c.reporting ==> Sum(s.progress) == |Concat(if c.mode.Upload? then s.items else s.out)|
  {
    ReachableInv(c, s);
    AllDelivered(s);
    forall j | 0 <= j < |s.items| ensures j in s.delivered {
      assert s.sent[j] == j;
    }
    if c.reporting {
      AllReported(c, s, |s.items|);
      AllWritten(c, s, if c.mode.Upload? then s.items else s.out);
    }
  }

  lemma AllWritten(c: Config, s: State, parts: seq<Bytes>)
    requires |s.out| == |s.items| && parts == if c.mode.Upload? then s.items else s.out
    requires forall j :: 0 <= j < |s.items| ==> Ready(c, s, j) && s.out[j] == ResultOf(c, s, j)
    ensures Sizes(c, s, |s.items|) == |Concat(parts)|
  {
    forall j | 0 <= j < |s.items| ensures SizeOf(c, s, j) == |parts[j]| {
      assert Ready(c, s, j);
    }
    SizesAreLengths(c, s, parts, |parts|);
    assert parts[..|parts|] == parts;
  }
}
