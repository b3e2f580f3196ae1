/** The fan-out/fan-in does not block: as long as the fan-in has not returned some goroutine
    can move or the source is being read, whatever the channel's capacity. Store calls are
    taken to return and the receiver of progressCh to keep receiving. The runs at the end
    show what a cancelled context does. */
module FanOutLiveness {
  import opened Prelude
  import opened FanOut
  import opened FanOutSafety

  /* ---------- no deadlock ---------- */

  /** A step of the program itself that waits for nothing outside: it reads no source, and
      it is not a failure to write. */
  predicate Own(a: Action) {
    || a.Work?
    || (a.Produce? && !a.p.ReadItem? && !a.p.ReadEof? && !a.p.ReadError?)
    || (a.Collect? && !a.f.WriteFails?)
  }

  ghost predicate CanMove(c: Config, s: State) {
    exists a :: Own(a) && Enabled(c, s, a)
  }

  lemma WorkerCanMove(c: Config, s: State, i: nat)
    requires Inv(c, s) && i in s.workers && s.workers[i] != Exited && !s.workers[i].Offering?
    ensures CanMove(c, s)
  {
    assert i in s.sent && i < |s.items|;
    var w := match s.workers[i]
      case Checking => CheckFails
      case Trying(_) => if Done(s) then TryCancelled else TryStarts
      case Calling(_) => CallFails(false)
      case _ => SendReport;
    assert Enabled(c, s, Work(i, w));
  }

  lemma ProducerCanMove(c: Config, s: State)
    requires Inv(c, s) && s.fanIn.Selecting? && s.queue == [] && !s.broken
    requires !s.producer.Stopped? && !s.producer.Reading?
    ensures CanMove(c, s)
  {
    var p := match s.producer
      case Sending(_) => if c.concurrency == 0 then HandItem else SendItem
      case Spawning => SpawnWorker
      case SendingError => if c.concurrency == 0 then HandFailure else SendFailure
      case _ => CloseItems;
    assert Enabled(c, s, Produce(p));
  }

  lemma AwaitedNotDelivered(c: Config, s: State)
    requires Inv(c, s) && s.fanIn.Awaiting?
    ensures s.fanIn.item in s.sent && s.fanIn.item !in s.delivered
  {
    var n := |s.delivered|;
    assert s.sent[n] == s.fanIn.item;
    forall j | 0 <= j < n ensures s.delivered[j] < s.fanIn.item {
      assert s.sent[j] == s.delivered[j];
    }
  }

  lemma AwaitingCanMove(c: Config, s: State)
    requires Inv(c, s) && s.fanIn.Awaiting?
    ensures CanMove(c, s)
  {
    var i := s.fanIn.item;
    AwaitedNotDelivered(c, s);
    if i !in s.workers {
      assert Enabled(c, s, Produce(SpawnWorker));
    } else if Done(s) {
      assert Enabled(c, s, Collect(StopAwaiting));
    } else if s.workers[i].Offering? {
      assert Enabled(c, s, Collect(TakeResult));
    } else {
      WorkerCanMove(c, s, i);
    }
  }

  lemma SelectingCanMove(c: Config, s: State)
    requires Inv(c, s) && s.fanIn.Selecting? && (s.queue != [] || s.broken || !s.producer.Reading?)
    ensures CanMove(c, s)
  {
    hide Inv;
    if s.queue != [] {
      assert Enabled(c, s, Collect(TakeItem));
    } else if s.broken {
      assert Enabled(c, s, Collect(TakeFailure));
    } else if s.producer.Stopped? {
      assert Enabled(c, s, Collect(TakeClosed));
    } else {
      ProducerCanMove(c, s);
    }
  }

  /** Nothing to do but to wait for the next chunk or key. */
  predicate Idle(s: State) {
    s.producer.Reading? && s.fanIn.Selecting? && s.queue == [] && !s.broken
  }

  /** In every reachable state in which the fan-in has not returned, some goroutine has an
      enabled step, unless all there is to do is reading the source; this includes the moment
      when an item is sent but has no worker yet. */
  lemma NoDeadlock(c: Config, s: State)
    requires Reachable(c, s) && !s.fanIn.Returned? && !Idle(s)
    ensures CanMove(c, s)
  {
    ReachableInv(c, s);
    if s.fanIn.Writing? {
      assert Ready(c, s, s.fanIn.item);
      assert Enabled(c, s, Collect(WriteResult));
    }
    hide Inv, Reachable;
    if s.fanIn.Awaiting? {
      AwaitingCanMove(c, s);
    } else if s.fanIn.Selecting? {
      SelectingCanMove(c, s);
    }
  }

  /* ---------- what cancellation can do ---------- */

  lemma Take(c: Config, s: State, a: Action) returns (t: State)
    requires Reachable(c, s) && Enabled(c, s, a)
    ensures t == Apply(c, s, a) && Reachable(c, t)
  {
    ReachableStep(c, s, a);
    t := Apply(c, s, a);
  }

  /** A nil return alone does not mean that everything was uploaded: after a cancellation
      the producer may drop a chunk and the fan-in may see the closed channel first. */
  lemma CancelledUploadCanReturnNil(c: Config) returns (s: State)
    requires c.mode.Upload?
    ensures Reachable(c, s)
    ensures s.fanIn == Returned(false, false, []) && s.items == [[1]] && s.out == []
  {
    s := Init(map[]);
    ReachableInit(c, map[]);
    hide Reachable;
    s := Take(c, s, Produce(ReadItem([1])));
    s := Take(c, s, Cancel);
    s := Take(c, s, Produce(DropItem));
    s := Take(c, s, Produce(ReadEof));
    s := Take(c, s, Produce(CloseItems));
    s := Take(c, s, Collect(TakeClosed));
  }

  /** After a return that is not clean a worker may still be sending on progressCh, which
      the caller closes next (upload.go:25-27); CleanReturnIsComplete excludes this. */
  lemma ReportCanFollowReturn(c: Config) returns (s: State)
    requires c.mode.Upload? && c.reporting && c.concurrency > 0
    ensures Reachable(c, s) && s.fanIn.Returned? && Enabled(c, s, Work(0, SendReport))
  {
    hide Reachable;
    s := OneWorkerReporting(c);
    s := Take(c, s, Cancel);
    s := Take(c, s, Collect(StopSelecting));
  }

  lemma OneWorkerReporting(c: Config) returns (s: State)
    requires c.mode.Upload? && c.reporting && c.concurrency > 0
    ensures Reachable(c, s) && s.items == [[1]] && s.workers == map[0 := Reporting]
    ensures s.fanIn.Selecting? && !s.cancelled
  {
    hide Reachable;
    s := OneWorkerStarted(c);
    s := Take(c, s, Work(0, CheckMisses));
    s := Take(c, s, Work(0, TryStarts));
    s := Take(c, s, Work(0, CallWorks));
  }

  lemma OneWorkerStarted(c: Config) returns (s: State)
    requires c.mode.Upload? && c.concurrency > 0
    ensures Reachable(c, s) && s.items == [[1]] && s.workers == map[0 := Checking]
    ensures s.fanIn.Selecting? && !s.cancelled
  {
    s := Init(map[]);
    ReachableInit(c, map[]);
    hide Reachable;
    s := Take(c, s, Produce(ReadItem([1])));
    s := Take(c, s, Produce(SendItem));
    s := Take(c, s, Produce(SpawnWorker));
  }

  /** A chunk that was dropped may be followed by one that is not: what the upload writes then
      is no beginning of the chunks' keys, but leaves some out. */
  lemma CancelledUploadCanSkipKeys(c: Config, dropped: Bytes, kept: Bytes) returns (s: State)
    requires c.mode.Upload? && dropped != [] && kept != [] && c.hash(dropped) != c.hash(kept)
    ensures Reachable(c, s) && s.items == [dropped, kept] && s.out == [c.hash(kept)]
    ensures !(s.out <= Keys(c, s.items))
  {
    s := SecondItemAwaited(c, dropped, kept);
    hide Reachable;
    s := Take(c, s, Work(1, CheckFinds));
    if c.reporting {
      s := Take(c, s, Work(1, SendReport));
    }
    s := Take(c, s, Collect(TakeResult));
    s := Take(c, s, Collect(WriteResult));
    assert Keys(c, s.items)[0] == c.hash(dropped);
  }

  /** The item at the producer's send is sent, taken by the fan-in, and given a worker. */
  lemma SendOne(c: Config, s0: State, j: nat) returns (s: State)
    requires Reachable(c, s0) && s0.producer == Sending(j) && |s0.items| == j + 1
    requires s0.fanIn.Selecting? && s0.queue == [] && !s0.broken
    ensures Reachable(c, s)
    ensures s == s0.(producer := Reading, sent := s0.sent + [j], fanIn := Awaiting(j),
                     workers := s0.workers[j := FirstPc(c)])
  {
    hide Reachable;
    if c.concurrency == 0 {
      s := Take(c, s0, Produce(HandItem));
    } else {
      s := Take(c, s0, Produce(SendItem));
      s := Take(c, s, Collect(TakeItem));
      assert s.queue == [];
    }
    s := Take(c, s, Produce(SpawnWorker));
  }

  lemma FirstItemDropped(c: Config, dropped: Bytes, kept: Bytes) returns (s: State)
    requires c.mode.Upload? && dropped != [] && kept != []
    ensures Reachable(c, s) && c.hash(kept) in s.store
    ensures s == Init(s.store).(items := [dropped, kept], producer := Sending(1), dropped := true, cancelled := true)
  {
    var store: map<Bytes, Bytes> := map[c.hash(kept) := kept];
    s := Init(store);
    ReachableInit(c, store);
    hide Reachable;
    s := Take(c, s, Produce(ReadItem(dropped)));
    s := Take(c, s, Cancel);
    s := Take(c, s, Produce(DropItem));
    s := Take(c, s, Produce(ReadItem(kept)));
    assert [dropped] + [kept] == [dropped, kept];
  }

  lemma SecondItemAwaited(c: Config, dropped: Bytes, kept: Bytes) returns (s: State)
    requires c.mode.Upload? && dropped != [] && kept != []
    ensures Reachable(c, s) && s.items == [dropped, kept] && s.workers == map[1 := Checking]
    ensures s.fanIn == Awaiting(1) && c.hash(kept) in s.store && s.out == []
  {
    s := FirstItemDropped(c, dropped, kept);
    hide Reachable;
    s := SendOne(c, s, 1);
  }

  /** A content that arrives broken is not fetched again, but fails the download at once. */
  lemma BrokenBodyFails(c: Config, store: map<Bytes, Bytes>, k: Bytes) returns (s: State)
    requires c.mode.Download? && WellKeyed(c, store) && k in store
    ensures Reachable(c, s) && s.items == [k] && s.fanIn.Returned? && s.fanIn.failed && !s.cancelled
    ensures s.fetched == map[]
  {
    s := FirstItemAwaited(c, store, k);
    hide Reachable, WellKeyed;
    s := Take(c, s, Work(0, TryStarts));
    s := Take(c, s, Work(0, BodyFails));
    s := Take(c, s, Collect(TakeResult));
  }

  lemma FirstItemAwaited(c: Config, store: map<Bytes, Bytes>, item: Bytes) returns (s: State)
    requires WellKeyed(c, store) && (c.mode.Upload? ==> item != [])
    ensures Reachable(c, s)
    ensures s == Init(store).(items := [item], sent := [0], fanIn := Awaiting(0), workers := map[0 := FirstPc(c)])
  {
    s := Init(store);
    ReachableInit(c, store);
    hide Reachable, WellKeyed;
    s := Take(c, s, Produce(ReadItem(item)));
    s := SendOne(c, s, 0);
    assert [] + [0] == [0];
  }

  /* ---------- the bound on workers is reached ---------- */

  /** The first item is awaited, `n` more are in the channel, and none has been worked on. */
  predicate Waiting(s: State, n: nat) {
    && s.producer.Reading? && s.fanIn == Awaiting(0) && |s.queue| == n && !s.broken
    && |s.items| == n + 1 && |Live(s)| == n + 1
    && forall i :: i in s.workers ==> i < n + 1
  }

  lemma SpawnOne(c: Config, s: State) returns (t: State)
    requires Reachable(c, s) && s.producer.Spawning? && s.items != []
    requires forall i :: i in s.workers ==> i < |s.items| - 1
    ensures Reachable(c, t)
    ensures t == s.(workers := s.workers[|s.items| - 1 := FirstPc(c)], producer := Reading)
    ensures |Live(t)| == |Live(s)| + 1 && forall i :: i in t.workers ==> i < |t.items|
  {
    hide Reachable;
    t := Take(c, s, Produce(SpawnWorker));
    OneMoreLive(s, t, |s.items| - 1, FirstPc(c));
  }

  lemma OneMoreLive(s: State, t: State, i: nat, pc: WorkerPc)
    requires i !in s.workers && t.workers == s.workers[i := pc] && pc != Exited
    ensures |Live(t)| == |Live(s)| + 1
  {
    assert Live(t) == Live(s) + {i};
  }

  lemma FirstAwaited(c: Config, item: Bytes) returns (s: State)
    requires item != []
    ensures Reachable(c, s) && Waiting(s, 0)
  {
    s := FirstItemAwaited(c, map[], item);
    hide Reachable;
    assert Live(s) == {0};
  }

  lemma {:induction false} QueueFills(c: Config, item: Bytes, n: nat) returns (s: State)
    requires item != [] && n <= c.concurrency
    ensures Reachable(c, s) && Waiting(s, n)
  {
    if n == 0 {
      s := FirstAwaited(c, item);
    } else {
      s := QueueFills(c, item, n - 1);
      hide Reachable;
      ghost var before := Live(s);
      s := Take(c, s, Produce(ReadItem(item)));
      s := Take(c, s, Produce(SendItem));
      assert Live(s) == before;
      s := SpawnOne(c, s);
    }
  }

  /** WorkersBounded is exact: the channel's whole capacity is used, whatever it is. */
  lemma BoundIsReached(c: Config, item: Bytes) returns (s: State)
    requires item != []
    ensures Reachable(c, s) && |Live(s)| == c.concurrency + 1
  {
    s := QueueFills(c, item, c.concurrency);
  }

  /* ---------- who is left behind ---------- */

  ghost predicate CanExit(c: Config, s: State, i: nat) {
    exists acts :: Valid(c, s, acts)
      && i in Run(c, s, acts).workers && Run(c, s, acts).workers[i] == Exited
  }

  lemma StepThenExit(c: Config, s: State, a: Action, i: nat)
    requires Enabled(c, s, a) && CanExit(c, Apply(c, s, a), i)
    ensures CanExit(c, s, i)
  {
    hide Enabled, Apply;
    var t := Apply(c, s, a);
    var acts :| Valid(c, t, acts) && i in Run(c, t, acts).workers && Run(c, t, acts).workers[i] == Exited;
    var more := [a] + acts;
    assert more[0] == a && more[1..] == acts;
    assert Valid(c, s, more) && Run(c, s, more) == Run(c, t, acts);
  }

  lemma AlreadyExited(c: Config, s: State, i: nat)
    requires i in s.workers && s.workers[i] == Exited
    ensures CanExit(c, s, i)
  {
    assert Valid(c, s, []) && Run(c, s, []) == s;
  }

  lemma OfferEnds(c: Config, s: State, i: nat)
    requires s.fanIn.Returned? && i in s.workers && i < |s.items| && s.workers[i].Offering?
    requires c.mode.Download? || s.workers[i] == Offering(false)
    ensures CanExit(c, s, i)
  {
    AlreadyExited(c, Apply(c, s, Work(i, AbandonOffer)), i);
    hide CanExit;
    StepThenExit(c, s, Work(i, AbandonOffer), i);
  }

  lemma TryEnds(c: Config, s: State, i: nat)
    requires s.fanIn.Returned? && i in s.workers && i < |s.items| && s.workers[i].Trying?
    ensures CanExit(c, s, i)
  {
    OfferEnds(c, Apply(c, s, Work(i, TryCancelled)), i);
    hide CanExit;
    StepThenExit(c, s, Work(i, TryCancelled), i);
  }

  lemma CallEnds(c: Config, s: State, i: nat)
    requires s.fanIn.Returned? && i in s.workers && i < |s.items| && s.workers[i].Calling?
    ensures CanExit(c, s, i)
  {
    var t := Apply(c, s, Work(i, CallFails(false)));
    assert t.fanIn == s.fanIn && t.items == s.items && i in t.workers;
    assert t.workers[i].Trying? || t.workers[i] == Offering(false);
    hide CanExit, Apply;
    if t.workers[i].Trying? {
      TryEnds(c, t, i);
    } else {
      OfferEnds(c, t, i);
    }
    StepThenExit(c, s, Work(i, CallFails(false)), i);
  }

  lemma CheckEnds(c: Config, s: State, i: nat)
    requires s.fanIn.Returned? && i in s.workers && i < |s.items| && s.workers[i].Checking?
    ensures CanExit(c, s, i)
  {
    OfferEnds(c, Apply(c, s, Work(i, CheckFails)), i);
    hide CanExit;
    StepThenExit(c, s, Work(i, CheckFails), i);
  }

  lemma ReportEnds(c: Config, s: State, i: nat)
    requires s.fanIn.Returned? && i in s.workers && i < |s.items| && s.workers[i].Reporting?
    requires c.mode.Download?
    ensures CanExit(c, s, i)
  {
    OfferEnds(c, Apply(c, s, Work(i, SkipReport)), i);
    hide CanExit;
    StepThenExit(c, s, Work(i, SkipReport), i);
  }

  lemma OthersExit(c: Config, s: State, i: nat)
    requires s.fanIn.Returned? && i in s.workers && i < |s.items|
    requires c.mode.Download? || !HasResult(s.workers[i])
    ensures CanExit(c, s, i)
  {
    hide CanExit;
    match s.workers[i] {
      case Checking => CheckEnds(c, s, i);
      case Trying(_) => TryEnds(c, s, i);
      case Calling(_) => CallEnds(c, s, i);
      case Reporting => ReportEnds(c, s, i);
      case Offering(_) => OfferEnds(c, s, i);
      case Exited => AlreadyExited(c, s, i);
    }
  }

  lemma ResultMovesOn(c: Config, pc: WorkerPc, w: WorkerStep)
    requires HasResult(pc) && (w.SendReport? || w.SkipReport?)
    ensures HasResult(WorkerMoves(c, pc, w))
  {
  }

  /** The only steps of a worker of an upload that has its result. */
  lemma ResultSteps(c: Config, s: State, i: nat, w: WorkerStep)
    requires WorkerCan(c, s, i, w) && c.mode.Upload? && HasResult(s.workers[i])
    ensures w.SendReport? || w.SkipReport?
  {
  }

  lemma ResultStaysOffered(c: Config, s: State, a: Action, i: nat)
    requires Reachable(c, s) && Enabled(c, s, a) && c.mode.Upload? && s.fanIn.Returned?
    requires i in s.workers && HasResult(s.workers[i])
    ensures
      var t := Apply(c, s, a);
      t.fanIn.Returned? && i in t.workers && HasResult(t.workers[i])
  {
    ReachableInv(c, s);
    NewItemsAreFresh(c, s);
    StepFrame(c, s, a);
    WorkersTouched(c, s, a);
    hide Reachable, Inv, InOrder, WorkersMatch, Apply, WorkerMoves, HasResult, FirstPc;
    if a.Work? && a.i == i {
      ResultSteps(c, s, i, a.w);
      ResultMovesOn(c, s.workers[i], a.w);
    }
  }

  lemma {:induction false} OfferedForever(c: Config, s: State, acts: seq<Action>, i: nat)
    requires Reachable(c, s) && Valid(c, s, acts) && c.mode.Upload? && s.fanIn.Returned?
    requires i in s.workers && HasResult(s.workers[i])
    ensures
      var t := Run(c, s, acts);
      i in t.workers && HasResult(t.workers[i])
    decreases |acts|
  {
    if acts != [] {
      ResultStaysOffered(c, s, acts[0], i);
      ReachableStep(c, s, acts[0]);
      hide Reachable, Enabled, Apply;
      OfferedForever(c, Apply(c, s, acts[0]), acts[1..], i);
    }
  }

  /** Once the function has returned, a worker can still end, except exactly one of an upload
      that has its result: nobody takes it, and the send has no other way out
      (upload_process.go:157), so that goroutine stays for good. */
  lemma WorkerIsLeakedIff(c: Config, s: State, i: nat)
    requires Reachable(c, s) && s.fanIn.Returned? && i in s.workers
    ensures !CanExit(c, s, i) <==> c.mode.Upload? && HasResult(s.workers[i])
  {
    if c.mode.Upload? && HasResult(s.workers[i]) {
      forall acts | Valid(c, s, acts)
        ensures !(i in Run(c, s, acts).workers && Run(c, s, acts).workers[i] == Exited)
      {
        OfferedForever(c, s, acts, i);
      }
    } else {
      ReachableInv(c, s);
      assert i in s.sent;
      hide Reachable, Inv;
      OthersExit(c, s, i);
    }
  }
}
