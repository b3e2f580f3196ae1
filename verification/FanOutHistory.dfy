/** What the fan-out/fan-in owes to its past: how each worker ends is decided by its own calls,
    what is reported is what was transferred, and the fan-in fails only if something failed. */
module FanOutHistory {
  import opened Prelude
  import opened FanOut
  import opened FanOutSafety

  lemma {:induction false} LastStep(c: Config, s: State, acts: seq<Action>)
    requires Valid(c, s, acts) && acts != []
    ensures
      var init, last := acts[..|acts| - 1], acts[|acts| - 1];
      && Valid(c, s, init) && Enabled(c, Run(c, s, init), last)
      && Run(c, s, acts) == Apply(c, Run(c, s, init), last)
    decreases |acts|
  {
    hide Apply, Enabled;
    if |acts| > 1 {
      LastStep(c, Apply(c, s, acts[0]), acts[1..]);
      assert acts[1..][..|acts| - 2] == acts[..|acts| - 1][1..];
    }
  }

  lemma RunInv(c: Config, store: map<Bytes, Bytes>, acts: seq<Action>)
    requires Starts(c, store, acts)
    ensures Inv(c, Run(c, Init(store), acts))
  {
    InitInv(c, store);
    hide Inv, WellKeyed, Enabled, Apply, Init;
    RunKeepsInv(c, Init(store), acts);
  }

  /** The state before the last step of a run. */
  lemma StepBack(c: Config, store: map<Bytes, Bytes>, acts: seq<Action>)
      returns (before: seq<Action>, a: Action, s: State)
    requires Starts(c, store, acts) && acts != []
    ensures acts == before + [a] && |before| < |acts| && Starts(c, store, before)
    ensures s == Run(c, Init(store), before) && Inv(c, s) && Enabled(c, s, a)
    ensures Run(c, Init(store), acts) == Apply(c, s, a)
  {
    hide Inv, WellKeyed, Enabled, Apply, Init;
    LastStep(c, Init(store), acts);
    before, a := acts[..|acts| - 1], acts[|acts| - 1];
    s := Run(c, Init(store), before);
    RunInv(c, store, before);
  }

  /* ---------- how a worker ends ---------- */

  /** How often a backend call of worker `i` has failed. */
  function Failures(past: seq<Action>, i: nat): nat {
    multiset(past)[Work(i, CallFails(true))] + multiset(past)[Work(i, CallFails(false))]
  }

  predicate Succeeded(past: seq<Action>, i: nat) {
    Work(i, CheckFinds) in past || Work(i, CallWorks) in past
  }

  /** The check or the reading of the body failed, or three calls did. */
  predicate Faulty(past: seq<Action>, i: nat) {
    Work(i, CheckFails) in past || Work(i, BodyFails) in past || Failures(past, i) >= 3
  }

  predicate GaveUp(past: seq<Action>, i: nat) {
    Faulty(past, i) || Work(i, TryCancelled) in past
  }

  predicate Undecided(past: seq<Action>, i: nat) {
    !Succeeded(past, i) && !GaveUp(past, i)
  }

  function PcOf(s: State, i: nat): Option<WorkerPc> {
    if i in s.workers then Some(s.workers[i]) else None
  }

  /** What each point a worker can be at says about its past. */
  predicate WorkerPast(past: seq<Action>, i: nat, pc: Option<WorkerPc>) {
    match pc
    case None => Undecided(past, i) && Failures(past, i) == 0
    case Some(Checking) => Undecided(past, i) && Failures(past, i) == 0
    case Some(Trying(n)) => Undecided(past, i) && Failures(past, i) == n
    case Some(Calling(n)) => Undecided(past, i) && Failures(past, i) == n
    case Some(Reporting) => Succeeded(past, i) && !GaveUp(past, i)
    case Some(Offering(true)) => Succeeded(past, i) && !GaveUp(past, i)
    case Some(Offering(false)) => !Succeeded(past, i) && GaveUp(past, i)
    case Some(Exited) => Succeeded(past, i) <==> !GaveUp(past, i)
  }

  /** A chunk that was found is not uploaded. */
  predicate FoundIsKept(past: seq<Action>, i: nat) {
    Work(i, CheckFinds) in past ==> Failures(past, i) == 0 && Work(i, CallWorks) !in past
  }

  lemma PastGrows(past: seq<Action>, a: Action, i: nat)
    ensures Failures(past + [a], i) == Failures(past, i) + (if a.Work? && a.i == i && a.w.CallFails? then 1 else 0)
    ensures Succeeded(past + [a], i) <==> Succeeded(past, i) || a == Work(i, CheckFinds) || a == Work(i, CallWorks)
    ensures Faulty(past + [a], i) <==>
      || Work(i, CheckFails) in past || Work(i, BodyFails) in past || Failures(past + [a], i) >= 3
      || a == Work(i, CheckFails) || a == Work(i, BodyFails)
    ensures Work(i, TryCancelled) in past + [a] <==> Work(i, TryCancelled) in past || a == Work(i, TryCancelled)
  {
    assert multiset(past + [a]) == multiset(past) + multiset{a};
  }

  lemma OthersKeepWorker(c: Config, s: State, a: Action, i: nat)
    requires Inv(c, s) && Enabled(c, s, a) && !(a.Work? && a.i == i)
    ensures
      var pc, next := PcOf(s, i), PcOf(Apply(c, s, a), i);
      || next == pc || (pc == None && next == Some(FirstPc(c)))
      || (pc.Some? && pc.value.Offering? && next == Some(Exited))
  {
    NewItemsAreFresh(c, s);
    WorkersTouched(c, s, a);
    hide Inv, InOrder, WorkersMatch, Apply, WorkerMoves;
  }

  /** What a worker that does not move itself can come to. */
  predicate Unmoved(pc: Option<WorkerPc>, next: Option<WorkerPc>) {
    || next == pc
    || (pc == None && (next == Some(Checking) || next == Some(Trying(0))))
    || (pc.Some? && pc.value.Offering? && next == Some(Exited))
  }

  lemma UnmovedKeepsPast(past: seq<Action>, a: Action, i: nat, pc: Option<WorkerPc>, next: Option<WorkerPc>)
    requires !(a.Work? && a.i == i) && Unmoved(pc, next) && WorkerPast(past, i, pc) && FoundIsKept(past, i)
    ensures WorkerPast(past + [a], i, next) && FoundIsKept(past + [a], i)
  {
    PastGrows(past, a, i);
    hide Failures;
    assert Succeeded(past + [a], i) == Succeeded(past, i);
    assert GaveUp(past + [a], i) == GaveUp(past, i);
  }

  lemma OthersKeepWorkerPast(c: Config, s: State, past: seq<Action>, a: Action, i: nat)
    requires Inv(c, s) && Enabled(c, s, a) && !(a.Work? && a.i == i)
    requires WorkerPast(past, i, PcOf(s, i)) && FoundIsKept(past, i)
    ensures WorkerPast(past + [a], i, PcOf(Apply(c, s, a), i)) && FoundIsKept(past + [a], i)
  {
    OthersKeepWorker(c, s, a, i);
    hide Inv, Enabled, Apply, PcOf, WorkerPast, FoundIsKept;
    UnmovedKeepsPast(past, a, i, PcOf(s, i), PcOf(Apply(c, s, a), i));
  }

  lemma MoveKeepsWorkerPast(c: Config, s: State, past: seq<Action>, i: nat, w: WorkerStep)
    requires WorkerCan(c, s, i, w) && WorkerPast(past, i, PcOf(s, i)) && FoundIsKept(past, i)
    ensures WorkerPast(past + [Work(i, w)], i, Some(WorkerMoves(c, s.workers[i], w)))
    ensures FoundIsKept(past + [Work(i, w)], i)
  {
    PastGrows(past, Work(i, w), i);
    hide Failures;
  }

  /** Whatever else happens, a worker succeeds exactly if its object was found or a call worked,
      and gives up exactly if its check or its reading failed, three of its calls did, or it
      was cancelled between two of them; never both. */
  lemma {:induction false} WorkerEndsForCause(c: Config, store: map<Bytes, Bytes>, acts: seq<Action>, i: nat)
    requires Starts(c, store, acts)
    ensures WorkerPast(acts, i, PcOf(Run(c, Init(store), acts), i)) && FoundIsKept(acts, i)
    decreases |acts|
  {
    if acts != [] {
      var before, a, s := StepBack(c, store, acts);
      WorkerEndsForCause(c, store, before, i);
      if a.Work? && a.i == i {
        MoveKeepsWorkerPast(c, s, before, i, a.w);
      } else {
        OthersKeepWorkerPast(c, s, before, a, i);
      }
      hide Inv, WorkerPast, FoundIsKept;
    }
  }

  /** Once the function's context is done no worker starts another call. */
  lemma {:induction false} NoCallAfterDone(c: Config, s: State, acts: seq<Action>, i: nat)
    requires Done(s) && Valid(c, s, acts)
    ensures Work(i, TryStarts) !in acts && Done(Run(c, s, acts))
    decreases |acts|
  {
    if acts != [] {
      StepFrame(c, s, acts[0]);
      assert acts[0] != Work(i, TryStarts);
      hide Enabled, Apply;
      NoCallAfterDone(c, Apply(c, s, acts[0]), acts[1..], i);
    }
  }

  /* ---------- why the fan-in fails ---------- */

  ghost predicate SomeFault(past: seq<Action>) {
    Produce(ReadError) in past || Collect(WriteFails) in past || exists i :: Faulty(past, i)
  }

  lemma FaultsStay(past: seq<Action>, a: Action)
    ensures SomeFault(past) ==> SomeFault(past + [a])
  {
    hide Faulty;
    if i :| Faulty(past, i) {
      FaultStays(past, a, i);
    }
  }

  lemma FaultStays(past: seq<Action>, a: Action, i: nat)
    requires Faulty(past, i)
    ensures Faulty(past + [a], i)
  {
    PastGrows(past, a, i);
  }

  lemma {:induction false} EndsArePast(c: Config, store: map<Bytes, Bytes>, acts: seq<Action>)
    requires Starts(c, store, acts)
    ensures
      var s := Run(c, Init(store), acts);
      && (s.cancelled <==> Cancel in acts)
      && (s.readFailed <==> Produce(ReadError) in acts)
    decreases |acts|
  {
    if acts != [] {
      var before, a, s := StepBack(c, store, acts);
      EndsArePast(c, store, before);
      StepFrame(c, s, a);
      hide Inv, Apply, Enabled;
    }
  }

  /** A worker is cancelled, and a write has failed, only once the function's context is done. */
  lemma {:induction false} StopsArePast(c: Config, store: map<Bytes, Bytes>, acts: seq<Action>, i: nat)
    requires Starts(c, store, acts)
    ensures
      var s := Run(c, Init(store), acts);
      && (Work(i, TryCancelled) in acts ==> Done(s))
      && (Collect(WriteFails) in acts ==> s.fanIn.Returned? && s.fanIn.failed)
    decreases |acts|
  {
    if acts != [] {
      var before, a, s := StepBack(c, store, acts);
      StopsArePast(c, store, before, i);
      StepFrame(c, s, a);
      hide Inv;
      if a == Work(i, TryCancelled) || a == Collect(WriteFails) {
      } else {
        hide Apply, Enabled;
      }
    }
  }

  lemma FailedWorkerIsFaulty(c: Config, store: map<Bytes, Bytes>, before: seq<Action>, s: State, i: nat)
    requires Starts(c, store, before) && s == Run(c, Init(store), before) && !Done(s)
    requires i in s.workers && s.workers[i] == Offering(false)
    ensures Faulty(before, i)
  {
    WorkerEndsForCause(c, store, before, i);
    StopsArePast(c, store, before, i);
    hide Starts, Run, Faulty, Done;
  }

  /** What makes the fan-in fail, while its context lives. */
  lemma FailingStep(c: Config, s: State, f: FanInStep)
    requires FanInCan(c, s, f) && !s.cancelled
    ensures
      var t := FanInStepped(c, s, f);
      t.fanIn.Returned? && t.fanIn.failed ==>
        || f.WriteFails? || (f.TakeFailure? && s.broken)
        || (f.TakeResult? && s.workers[s.fanIn.item] == Offering(false))
  {
    match f
    case TakeItem =>
    case WriteResult =>
    case _ =>
  }

  lemma ReturnsForCause(c: Config, store: map<Bytes, Bytes>, before: seq<Action>, s: State, f: FanInStep)
    requires Starts(c, store, before) && s == Run(c, Init(store), before) && Inv(c, s) && FanInCan(c, s, f)
    requires !s.cancelled
    ensures
      var t := FanInStepped(c, s, f);
      t.fanIn.Returned? && t.fanIn.failed ==> SomeFault(before + [Collect(f)])
  {
    EndsArePast(c, store, before);
    FaultsStay(before, Collect(f));
    FailingStep(c, s, f);
    assert s.broken ==> s.readFailed;
    hide Inv, Starts, Run, FanInStepped, Faulty;
    if f.TakeResult? && s.workers[s.fanIn.item] == Offering(false) {
      FailedWorkerIsFaulty(c, store, before, s, s.fanIn.item);
    }
  }

  lemma {:induction false} FailsForCause(c: Config, store: map<Bytes, Bytes>, acts: seq<Action>)
    requires Starts(c, store, acts) && Cancel !in acts
    ensures
      var s := Run(c, Init(store), acts);
      s.fanIn.Returned? && s.fanIn.failed ==> SomeFault(acts)
    decreases |acts|
  {
    if acts != [] {
      var before, a, s := StepBack(c, store, acts);
      FailsForCause(c, store, before);
      EndsArePast(c, store, before);
      StepFrame(c, s, a);
      FaultsStay(before, a);
      if a.Collect? {
        ReturnsForCause(c, store, before, s, a.f);
      }
      assert s.producer.SendingError? ==> s.readFailed;
      hide Inv, SomeFault;
    }
  }

  /** What is written is the result of a worker that succeeded. */
  lemma {:induction false} DeliveredSucceeded(c: Config, store: map<Bytes, Bytes>, acts: seq<Action>, i: nat)
    requires Starts(c, store, acts)
    ensures
      var s := Run(c, Init(store), acts);
      i in s.delivered || s.fanIn == Writing(i) ==> Succeeded(acts, i)
    decreases |acts|
  {
    if acts != [] {
      var before, a, s := StepBack(c, store, acts);
      DeliveredSucceeded(c, store, before, i);
      WorkerEndsForCause(c, store, before, i);
      PastGrows(before, a, i);
      hide Inv, Enabled, Apply, Succeeded, WorkerPast, FoundIsKept;
      if a == Collect(TakeResult) {
        TakenSucceeded(c, s, before, i);
      } else {
        DeliveredTouched(c, s, a);
      }
    }
  }

  lemma TakenSucceeded(c: Config, s: State, past: seq<Action>, i: nat)
    requires Enabled(c, s, Collect(TakeResult)) && WorkerPast(past, i, PcOf(s, i))
    ensures
      var t := Apply(c, s, Collect(TakeResult));
      t.delivered == s.delivered && (t.fanIn == Writing(i) ==> Succeeded(past, i))
  {
    hide Succeeded, GaveUp, Failures;
  }

  predicate ResultsMoved(s: State, t: State) {
    && (t.fanIn.Writing? ==> t.fanIn == s.fanIn)
    && (t.delivered == s.delivered || (s.fanIn.Writing? && t.delivered == s.delivered + [s.fanIn.item]))
  }

  lemma DeliveredTouched(c: Config, s: State, a: Action)
    requires Enabled(c, s, a) && !(a.Collect? && a.f.TakeResult?)
    ensures ResultsMoved(s, Apply(c, s, a))
  {
    match a
    case Produce(p) => ProducerTouchesResults(c, s, p);
    case Collect(f) => FanInTouchesResults(c, s, f);
    case _ =>
  }

  lemma ProducerTouchesResults(c: Config, s: State, p: ProducerStep)
    requires ProducerCan(c, s, p)
    ensures ResultsMoved(s, ProducerStepped(c, s, p))
  {
    match p
    case HandItem =>
    case HandFailure =>
    case SpawnWorker =>
    case _ =>
  }

  lemma FanInTouchesResults(c: Config, s: State, f: FanInStep)
    requires FanInCan(c, s, f) && !f.TakeResult?
    ensures ResultsMoved(s, FanInStepped(c, s, f))
  {
    match f
    case TakeItem =>
    case WriteResult =>
    case _ =>
  }

  /** While its context lives, the fan-in that returns has failed exactly if the source could
      not be read, a write failed, or some worker had a fault: a failed check, a body that could
      not be read, or three failed calls. */
  lemma FailsIffFault(c: Config, store: map<Bytes, Bytes>, acts: seq<Action>)
    requires Starts(c, store, acts) && Cancel !in acts && Run(c, Init(store), acts).fanIn.Returned?
    ensures Run(c, Init(store), acts).fanIn.failed <==> SomeFault(acts)
  {
    FailsForCause(c, store, acts);
    var s := Run(c, Init(store), acts);
    assert Reachable(c, s);
    if !s.fanIn.failed {
      EndsArePast(c, store, acts);
      DirtyReturnIsCancelled(c, s);
      CleanReturnIsComplete(c, s);
      ReachableInv(c, s);
      AllDelivered(s);
      StopsArePast(c, store, acts, 0);
      forall i ensures !Faulty(acts, i) {
        WorkerEndsForCause(c, store, acts, i);
        DeliveredSucceeded(c, store, acts, i);
      }
    }
  }

  /** The function returns nil exactly if it took the end of the closed channel; an error, and so
      a cancellation seen at either select, never passes for that end. */
  lemma {:induction false} ReturnsNilIff(c: Config, store: map<Bytes, Bytes>, acts: seq<Action>)
    requires Starts(c, store, acts)
    ensures
      var s := Run(c, Init(store), acts);
      if s.fanIn.Returned? then s.fanIn.failed <==> Collect(TakeClosed) !in acts
      else Collect(TakeClosed) !in acts
    decreases |acts|
  {
    if acts != [] {
      var before, a, s := StepBack(c, store, acts);
      ReturnsNilIff(c, store, before);
      ReturnTouched(c, s, a);
      hide Inv, Enabled, Apply;
    }
  }

  predicate ReturnMoved(s: State, a: Action, t: State) {
    if s.fanIn.Returned? then t.fanIn == s.fanIn && a != Collect(TakeClosed)
    else
      && (a == Collect(TakeClosed) ==> t.fanIn.Returned? && !t.fanIn.failed)
      && (a != Collect(TakeClosed) && t.fanIn.Returned? ==> t.fanIn.failed)
  }

  lemma ReturnTouched(c: Config, s: State, a: Action)
    requires Enabled(c, s, a)
    ensures ReturnMoved(s, a, Apply(c, s, a))
  {
    match a
    case Produce(p) => ProducerTouchesReturn(c, s, p);
    case Collect(f) => FanInTouchesReturn(c, s, f);
    case _ =>
  }

  lemma ProducerTouchesReturn(c: Config, s: State, p: ProducerStep)
    requires ProducerCan(c, s, p)
    ensures ReturnMoved(s, Produce(p), ProducerStepped(c, s, p))
  {
    match p
    case HandItem =>
    case HandFailure =>
    case SpawnWorker =>
    case _ =>
  }

  lemma FanInTouchesReturn(c: Config, s: State, f: FanInStep)
    requires FanInCan(c, s, f)
    ensures ReturnMoved(s, Collect(f), FanInStepped(c, s, f))
  {
    match f
    case TakeItem =>
    case TakeResult =>
    case WriteResult =>
    case _ =>
  }

  /* ---------- what is reported ---------- */

  /** The workers that reported, in the order of their reports. */
  function Reporters(past: seq<Action>): seq<nat> {
    if past == [] then []
    else
      Reporters(past[..|past| - 1])
      + (match past[|past| - 1] case Work(i, SendReport) => [i] case _ => [])
  }

  /** The length of what worker `i` transferred: its chunk, or the contents it fetched. */
  predicate Measures(c: Config, s: State, i: nat, n: nat) {
    && i < |s.items|
    && (c.mode.Upload? ==> n == |s.items[i]|)
    && (c.mode.Download? ==> i in s.fetched && n == |s.fetched[i]|)
  }

  lemma ReportersGrow(past: seq<Action>, a: Action)
    ensures Reporters(past + [a])
      == if a.Work? && a.w.SendReport? then Reporters(past) + [a.i] else Reporters(past)
  {
    var all := past + [a];
    assert all[..|all| - 1] == past && all[|all| - 1] == a;
  }

  lemma StillMeasures(c: Config, s: State, t: State, a: Action, i: nat, n: nat)
    requires ReportsMoved(c, s, a, t) && i in s.reported && Measures(c, s, i, n)
    ensures Measures(c, t, i, n)
  {
  }

  /** The reports are the lengths of what these workers transferred, each of them once. */
  ghost predicate ReportsFit(c: Config, s: State, who: seq<nat>) {
    && |s.progress| == |who|
    && (forall j :: 0 <= j < |who| ==> who[j] in s.reported && Measures(c, s, who[j], s.progress[j]))
    && (forall j, k :: 0 <= j < k < |who| ==> who[j] != who[k])
  }

  lemma OneMoreReport(c: Config, s: State, t: State, a: Action, who: seq<nat>)
    requires ReportsFit(c, s, who) && ReportsMoved(c, s, a, t)
    ensures ReportsFit(c, t, if a.Work? && a.w.SendReport? then who + [a.i] else who)
  {
    var all := if a.Work? && a.w.SendReport? then who + [a.i] else who;
    forall j | 0 <= j < |all| ensures all[j] in t.reported && Measures(c, t, all[j], t.progress[j]) {
      if j < |who| {
        assert all[j] == who[j] && who[j] in s.reported;
        assert t.progress[j] == s.progress[j] by { assert t.progress[..|s.progress|][j] == s.progress[j]; }
        StillMeasures(c, s, t, a, who[j], s.progress[j]);
      }
    }
    forall j, k | 0 <= j < k < |all| ensures all[j] != all[k] {
      assert who[j] in s.reported;
    }
    hide ReportsMoved, Measures;
  }

  /** Each report is the length of what its worker transferred, and no worker reports twice. */
  lemma {:induction false} ReportsAreLengths(c: Config, store: map<Bytes, Bytes>, acts: seq<Action>)
    requires Starts(c, store, acts)
    ensures ReportsFit(c, Run(c, Init(store), acts), Reporters(acts))
    decreases |acts|
  {
    if acts != [] {
      var before, a, s := StepBack(c, store, acts);
      ReportsAreLengths(c, store, before);
      ReportTouches(c, s, a);
      ReportersGrow(before, a);
      hide Inv, Apply, Enabled, Reporters, ReportsFit, ReportsMoved;
      OneMoreReport(c, s, Run(c, Init(store), acts), a, Reporters(before));
    }
  }

  /** A step adds no report but its own, and changes nothing that was reported on. */
  ghost predicate ReportsMoved(c: Config, s: State, a: Action, t: State) {
    && s.items <= t.items
    && (forall i :: i in s.reported && i in s.fetched ==> i in t.fetched && t.fetched[i] == s.fetched[i])
    && if a.Work? && a.w.SendReport? then
         && a.i !in s.reported && t.reported == s.reported + {a.i}
         && |t.progress| == |s.progress| + 1 && s.progress == t.progress[..|s.progress|]
         && Measures(c, t, a.i, t.progress[|s.progress|])
       else t.reported == s.reported && t.progress == s.progress
  }

  lemma ReportTouches(c: Config, s: State, a: Action)
    requires ObjectsMatch(c, s) && ProgressMatches(c, s) && Enabled(c, s, a)
    ensures ReportsMoved(c, s, a, Apply(c, s, a))
  {
    match a
    case Produce(p) => ProducerTouchesReports(c, s, p);
    case Work(i, w) => WorkerTouchesReports(c, s, i, w);
    case Collect(f) => FanInTouchesReports(c, s, f);
    case _ =>
  }

  lemma ProducerTouchesReports(c: Config, s: State, p: ProducerStep)
    requires ProducerCan(c, s, p)
    ensures ReportsMoved(c, s, Produce(p), ProducerStepped(c, s, p))
  {
    match p
    case ReadItem(_) =>
    case HandItem =>
    case HandFailure =>
    case SpawnWorker =>
    case _ =>
  }

  lemma WorkerTouchesReports(c: Config, s: State, i: nat, w: WorkerStep)
    requires ObjectsMatch(c, s) && ProgressMatches(c, s) && WorkerCan(c, s, i, w)
    ensures ReportsMoved(c, s, Work(i, w), WorkerStepped(c, s, i, w))
  {
    assert i in s.reported ==> s.workers[i] == Offering(true) || s.workers[i] == Exited;
    assert HasResult(s.workers[i]) ==> Ready(c, s, i);
    hide ObjectsMatch, ProgressMatches, WorkerMoves;
  }

  lemma FanInTouchesReports(c: Config, s: State, f: FanInStep)
    requires FanInCan(c, s, f)
    ensures ReportsMoved(c, s, Collect(f), FanInStepped(c, s, f))
  {
    match f
    case TakeItem =>
    case TakeResult =>
    case WriteResult =>
    case _ =>
  }

  /* ---------- what is stored ---------- */

  /** The step puts an object under this key: the chunk of a call that worked, or that failed and
      was stored all the same, or that of another upload. */
  predicate Puts(c: Config, s: State, a: Action, k: Bytes) {
    match a
    case ForeignUpload(data) => c.hash(data) == k
    case Work(i, w) =>
      c.mode.Upload? && (w.CallWorks? || w == CallFails(true)) && i < |s.items| && c.hash(s.items[i]) == k
    case _ => false
  }

  ghost predicate SomePuts(c: Config, s: State, past: seq<Action>, k: Bytes) {
    exists j :: 0 <= j < |past| && Puts(c, s, past[j], k)
  }

  predicate StoreMoved(c: Config, s: State, a: Action, t: State, k: Bytes) {
    s.items <= t.items && (k in t.store <==> k in s.store || Puts(c, s, a, k))
  }

  lemma StoreTouched(c: Config, s: State, a: Action, k: Bytes)
    requires Enabled(c, s, a)
    ensures StoreMoved(c, s, a, Apply(c, s, a), k)
  {
    match a
    case Produce(p) => ProducerTouchesStore(c, s, p, k);
    case Work(i, w) => WorkerTouchesStore(c, s, i, w, k);
    case Collect(f) => FanInTouchesStore(c, s, f, k);
    case _ =>
  }

  lemma ProducerTouchesStore(c: Config, s: State, p: ProducerStep, k: Bytes)
    requires ProducerCan(c, s, p)
    ensures StoreMoved(c, s, Produce(p), ProducerStepped(c, s, p), k)
  {
    match p
    case ReadItem(_) =>
    case HandItem =>
    case HandFailure =>
    case SpawnWorker =>
    case _ =>
  }

  lemma WorkerTouchesStore(c: Config, s: State, i: nat, w: WorkerStep, k: Bytes)
    requires WorkerCan(c, s, i, w)
    ensures StoreMoved(c, s, Work(i, w), WorkerStepped(c, s, i, w), k)
  {
    hide WorkerMoves, SizeOf;
  }

  lemma FanInTouchesStore(c: Config, s: State, f: FanInStep, k: Bytes)
    requires FanInCan(c, s, f)
    ensures StoreMoved(c, s, Collect(f), FanInStepped(c, s, f), k)
  {
    match f
    case TakeItem =>
    case TakeResult =>
    case WriteResult =>
    case _ =>
  }

  /** Where a worker is, its item has been read. */
  lemma {:induction false} ActsHaveItems(c: Config, store: map<Bytes, Bytes>, acts: seq<Action>, j: nat)
    requires Starts(c, store, acts) && j < |acts|
    ensures acts[j].Work? ==> acts[j].i < |Run(c, Init(store), acts).items|
    decreases |acts|
  {
    var before, a, s := StepBack(c, store, acts);
    StoreTouched(c, s, a, []);
    if j < |before| {
      ActsHaveItems(c, store, before, j);
    }
    hide Inv;
  }

  /** The store holds what it held, and beyond that exactly what was put there. */
  lemma {:induction false} StoredIffPut(c: Config, store: map<Bytes, Bytes>, acts: seq<Action>, k: Bytes)
    requires Starts(c, store, acts)
    ensures
      var s := Run(c, Init(store), acts);
      k in s.store <==> k in store || SomePuts(c, s, acts, k)
    decreases |acts|
  {
    if acts != [] {
      var before, a, s := StepBack(c, store, acts);
      StoredIffPut(c, store, before, k);
      StoreTouched(c, s, a, k);
      var t := Run(c, Init(store), acts);
      hide Inv, Apply, Enabled;
      forall j | 0 <= j < |before| ensures Puts(c, t, before[j], k) == Puts(c, s, before[j], k) {
        ActsHaveItems(c, store, before, j);
      }
      ActsHaveItems(c, store, acts, |before|);
      assert forall j :: 0 <= j < |before| ==> acts[j] == before[j];
      assert acts[|before|] == a;
    }
  }
}
