/** What a download owes to its past: when its context ends, how often the index is tried, what
    each stage sends to doneCh, and that start fails exactly for what went wrong. */
module DownloadHistory {
  import opened Prelude
  import Pipes
  import opened DownloadProcess
  import opened DownloadSafety
  import Index
  import F = FanOut
  import FS = FanOutSafety
  import FH = FanOutHistory

  lemma {:induction false} LastStep(c: Config, s: State, acts: seq<Action>)
    requires Valid(c, s, acts) && acts != []
    ensures
      var init, last := acts[..|acts| - 1], acts[|acts| - 1];
      && Valid(c, s, init) && Enabled(c, Run(c, s, init), last)
      && Run(c, s, acts) == Apply(c, Run(c, s, init), last)
    decreases |acts|
  {
    hide Apply, Enabled;
    if |acts| > 1 {
      LastStep(c, Apply(c, s, acts[0]), acts[1..]);
      assert acts[1..][..|acts| - 2] == acts[..|acts| - 1][1..];
    }
  }

  /** The state before the last step of a run. */
  lemma StepBack(c: Config, store: map<Bytes, Bytes>, acts: seq<Action>)
      returns (before: seq<Action>, a: Action, s: State)
    requires Starts(c, store, acts) && acts != []
    ensures acts == before + [a] && acts[..|acts| - 1] == before && Starts(c, store, before)
    ensures s == Run(c, Init(store), before) && Reachable(c, s) && Enabled(c, s, a)
    ensures Run(c, Init(store), acts) == Apply(c, s, a)
  {
    hide Enabled, Apply;
    LastStep(c, Init(store), acts);
    before, a := acts[..|acts| - 1], acts[|acts| - 1];
    s := Run(c, Init(store), before);
  }

  /* ---------- the context ---------- */

  lemma ContextTouched(c: Config, s: State, a: Action)
    requires Enabled(c, s, a)
    ensures
      var t := Apply(c, s, a);
      && (s.main.MainReturned? ==> t.main == s.main)
      && (t.ctxDone <==>
            s.ctxDone || a == ParentCancel || (t.main.MainReturned? && !s.main.MainReturned?))
  {
    hide F.Enabled, F.Apply, Index.NextKey, Index.Unread;
  }

  /** The context is done exactly if the caller cancelled it or start has returned. */
  lemma {:induction false} ContextEndsForCause(c: Config, store: map<Bytes, Bytes>, acts: seq<Action>)
    requires Starts(c, store, acts)
    ensures
      var s := Run(c, Init(store), acts);
      s.ctxDone <==> ParentCancel in acts || s.main.MainReturned?
    decreases |acts|
  {
    if acts != [] {
      var before, a, s := StepBack(c, store, acts);
      ContextEndsForCause(c, store, before);
      ContextTouched(c, s, a);
      hide Enabled, Apply, Reachable;
    }
  }

  /** The entries untar may still get through: the one it is reading, if it is. */
  function EntriesLeft(s: State): nat {
    if s.untar.UntarReading? then 1 else 0
  }

  lemma CancelledUntarStops(c: Config, s: State, a: Action)
    requires s.ctxDone && Enabled(c, s, a)
    ensures a != Fetch(FetchTry)
    ensures EntriesLeft(Apply(c, s, a)) + (if a == Untar(UntarNextEntry) then 1 else 0) <= EntriesLeft(s)
  {
    hide F.Enabled, F.Apply, Index.NextKey, Index.Unread;
  }

  /** Once the context is done no call for the index is started any more, and untar gets through
      at most the entry it is reading, and begins no other. */
  lemma {:induction false} NoCallAfterCancel(c: Config, s: State, acts: seq<Action>)
    requires s.ctxDone && Valid(c, s, acts)
    ensures Fetch(FetchTry) !in acts
    ensures multiset(acts)[Untar(UntarNextEntry)] <= EntriesLeft(s)
    decreases |acts|
  {
    if acts != [] {
      ContextTouched(c, s, acts[0]);
      CancelledUntarStops(c, s, acts[0]);
      hide Enabled, Apply, EntriesLeft;
      NoCallAfterCancel(c, Apply(c, s, acts[0]), acts[1..]);
      assert acts == [acts[0]] + acts[1..];
      assert multiset(acts) == multiset{acts[0]} + multiset(acts[1..]);
    }
  }

  /* ---------- the index download: three calls at most ---------- */

  function FetchFailures(past: seq<Action>): nat {
    multiset(past)[Fetch(FetchCallFails)]
  }

  predicate Fetched(past: seq<Action>) {
    Fetch(FetchCallWorks) in past
  }

  predicate FetchGaveUp(past: seq<Action>) {
    Fetch(FetchStop) in past || Fetch(FetchBodyFails) in past || FetchFailures(past) >= 3
  }

  /** What each point of the index stage says about its past. */
  predicate FetchPast(past: seq<Action>, pc: FetchPc) {
    match pc
    case FetchTrying(n) => !Fetched(past) && !FetchGaveUp(past) && FetchFailures(past) == n
    case FetchCalling(n) => !Fetched(past) && !FetchGaveUp(past) && FetchFailures(past) == n
    case FetchWriting => Fetched(past) && !FetchGaveUp(past)
    case FetchFailing => !Fetched(past) && FetchGaveUp(past)
    case FetchClosing(failed) => (failed <==> FetchGaveUp(past)) && (failed <==> !Fetched(past))
    case FetchClosed(failed) => (failed <==> FetchGaveUp(past)) && (failed <==> !Fetched(past))
  }

  lemma FetchPastGrows(past: seq<Action>, a: Action)
    ensures FetchFailures(past + [a]) == FetchFailures(past) + (if a == Fetch(FetchCallFails) then 1 else 0)
    ensures Fetched(past + [a]) <==> Fetched(past) || a == Fetch(FetchCallWorks)
    ensures FetchGaveUp(past + [a]) <==>
      || Fetch(FetchStop) in past || Fetch(FetchBodyFails) in past || FetchFailures(past + [a]) >= 3
      || a == Fetch(FetchStop) || a == Fetch(FetchBodyFails)
  {
    assert multiset(past + [a]) == multiset(past) + multiset{a};
  }

  lemma FetchKeepsPast(c: Config, s: State, past: seq<Action>, t: FetchStep)
    requires FetchCan(c, s, t) && FetchPast(past, s.fetch)
    ensures FetchPast(past + [Fetch(t)], FetchStepped(c, s, t).fetch)
  {
    FetchPastGrows(past, Fetch(t));
    hide FetchFailures;
  }

  lemma OthersKeepFetchPast(past: seq<Action>, a: Action, pc: FetchPc)
    requires FetchPast(past, pc) && !a.Fetch?
    ensures FetchPast(past + [a], pc)
  {
    FetchPastGrows(past, a);
    hide FetchFailures;
  }

  lemma OthersLeaveFetch(c: Config, s: State, a: Action)
    requires Enabled(c, s, a) && !a.Fetch?
    ensures Apply(c, s, a).fetch == s.fetch
  {
    hide F.Enabled, F.Apply, Index.NextKey, Index.Unread;
  }

  /** The index download fails exactly if the context was done at one of its checks, three of
      its calls failed, or the body could not be read. */
  lemma {:induction false} FetchEndsForCause(c: Config, store: map<Bytes, Bytes>, acts: seq<Action>)
    requires Starts(c, store, acts)
    ensures FetchPast(acts, Run(c, Init(store), acts).fetch)
    decreases |acts|
  {
    if acts != [] {
      var before, a, s := StepBack(c, store, acts);
      FetchEndsForCause(c, store, before);
      hide Reachable, FetchFailures, FetchPast, FetchStepped;
      if a.Fetch? {
        FetchKeepsPast(c, s, before, a.fetch);
      } else {
        OthersLeaveFetch(c, s, a);
        OthersKeepFetchPast(before, a, s.fetch);
        hide Enabled, Apply;
      }
    }
  }

  /* ---------- untar ---------- */

  predicate UntarFailed(past: seq<Action>) {
    Untar(UntarStop) in past || Untar(UntarFail) in past
  }

  predicate UntarEnded(past: seq<Action>) {
    Untar(UntarEof) in past || Untar(UntarEnd) in past
  }

  predicate UntarPast(past: seq<Action>, pc: UntarPc) {
    match pc
    case UntarReporting(failed) => (failed <==> UntarFailed(past)) && (failed <==> !UntarEnded(past))
    case UntarFinished => UntarFailed(past) <==> !UntarEnded(past)
    case _ => !UntarFailed(past) && !UntarEnded(past)
  }

  lemma UntarKeepsPast(c: Config, s: State, past: seq<Action>, t: UntarStep)
    requires UntarCan(c, s, t) && UntarPast(past, s.untar)
    ensures UntarPast(past + [Untar(t)], UntarStepped(c, s, t).untar)
  {
  }

  lemma OthersKeepUntarPast(past: seq<Action>, a: Action, pc: UntarPc)
    requires UntarPast(past, pc) && !a.Untar?
    ensures UntarPast(past + [a], pc)
  {
  }

  lemma OthersLeaveUntar(c: Config, s: State, a: Action)
    requires Enabled(c, s, a) && !a.Untar?
    ensures Apply(c, s, a).untar == s.untar
  {
    hide F.Enabled, F.Apply, Index.NextKey, Index.Unread;
  }

  /** untar fails exactly if the context was done at one of its checks, or an entry could not be
      read or written; and ends well exactly at the end of the archive or of the pipe. */
  lemma {:induction false} UntarEndsForCause(c: Config, store: map<Bytes, Bytes>, acts: seq<Action>)
    requires Starts(c, store, acts)
    ensures UntarPast(acts, Run(c, Init(store), acts).untar)
    decreases |acts|
  {
    if acts != [] {
      var before, a, s := StepBack(c, store, acts);
      UntarEndsForCause(c, store, before);
      hide Reachable, UntarPast, UntarStepped;
      if a.Untar? {
        UntarKeepsPast(c, s, before, a.untar);
      } else {
        OthersLeaveUntar(c, s, a);
        OthersKeepUntarPast(before, a, s.untar);
        hide Enabled, Apply;
      }
    }
  }

  /* ---------- the error channel ---------- */

  /** What each stage has sent to doneCh, in the order of the sends. */
  function Sent(past: seq<Action>): seq<bool> {
    if past == [] then []
    else
      var before := past[..|past| - 1];
      Sent(before)
      + (match past[|past| - 1]
         case Fetch(FetchReport) => [true]
         case Chunk(ChunkReport) => [true]
         case Untar(UntarReport) => [UntarFailed(before)]
         case _ => [])
  }

  lemma DoneTouched(c: Config, s: State, a: Action)
    requires Enabled(c, s, a)
    ensures Apply(c, s, a).doneCh
      == s.doneCh + (if a == Fetch(FetchReport) || a == Chunk(ChunkReport) then [true]
                     else if a == Untar(UntarReport) then [s.untar.failed] else [])
  {
    hide F.Enabled, F.Apply, Index.NextKey, Index.Unread;
  }

  lemma SentGrows(past: seq<Action>, a: Action)
    ensures Sent(past + [a])
      == Sent(past) + (if a == Fetch(FetchReport) || a == Chunk(ChunkReport) then [true]
                       else if a == Untar(UntarReport) then [UntarFailed(past)] else [])
  {
    var all := past + [a];
    assert all[..|all| - 1] == past && all[|all| - 1] == a;
    hide UntarFailed;
  }

  lemma {:induction false} DoneIsSent(c: Config, store: map<Bytes, Bytes>, acts: seq<Action>)
    requires Starts(c, store, acts)
    ensures Run(c, Init(store), acts).doneCh == Sent(acts)
    decreases |acts|
  {
    if acts != [] {
      var before, a, s := StepBack(c, store, acts);
      DoneIsSent(c, store, before);
      UntarEndsForCause(c, store, before);
      DoneTouched(c, s, a);
      SentGrows(before, a);
      assert a == Untar(UntarReport) ==> s.untar.UntarReporting?;
      hide Reachable, Sent, UntarFailed, UntarEnded, Enabled, Apply;
    }
  }

  /** start returns an error exactly if the first value sent to doneCh is one. */
  lemma StartFailsIff(c: Config, store: map<Bytes, Bytes>, acts: seq<Action>)
    requires Starts(c, store, acts) && Run(c, Init(store), acts).main.MainReturned?
    ensures Sent(acts) != [] && (Run(c, Init(store), acts).main.failed <==> Sent(acts)[0])
  {
    DoneIsSent(c, store, acts);
    var s := Run(c, Init(store), acts);
    assert Reachable(c, s);
    ReachableInv(c, s);
    hide Reachable, KeysFlow;
  }

  /* ---------- the error channel's capacity ---------- */

  /** How many of the three stages have sent their value. */
  function StagesSent(s: State): nat {
    (if s.fetch == FetchClosing(true) || s.fetch == FetchClosed(true) then 1 else 0)
    + (if Pipes.Ended(s.chunk) && s.chunk.failed then 1 else 0)
    + (if s.untar.UntarFinished? then 1 else 0)
  }

  predicate StageSends(a: Action) {
    a == Fetch(FetchReport) || a == Chunk(ChunkReport) || a == Untar(UntarReport)
  }

  lemma FetchSends(c: Config, s: State, t: FetchStep)
    requires FetchCan(c, s, t)
    ensures StagesSent(FetchStepped(c, s, t)) == StagesSent(s) + (if t.FetchReport? then 1 else 0)
  {
  }

  lemma ChunkSends(c: Config, s: State, t: ChunkStep)
    requires ChunkCan(c, s, t)
    ensures StagesSent(ChunkStepped(c, s, t)) == StagesSent(s) + (if t.ChunkReport? then 1 else 0)
  {
    hide F.Enabled, F.Apply, Index.NextKey, Index.Unread;
  }

  lemma UntarSends(c: Config, s: State, t: UntarStep)
    requires UntarCan(c, s, t)
    ensures StagesSent(UntarStepped(c, s, t)) == StagesSent(s) + (if t.UntarReport? then 1 else 0)
  {
  }

  lemma SendsAddUp(c: Config, s: State, a: Action)
    requires Enabled(c, s, a)
    ensures StagesSent(Apply(c, s, a)) == StagesSent(s) + (if StageSends(a) then 1 else 0)
  {
    hide FetchStepped, ChunkStepped, UntarStepped;
    match a
    case Fetch(t) => FetchSends(c, s, t);
    case Chunk(t) => ChunkSends(c, s, t);
    case Untar(t) => UntarSends(c, s, t);
    case _ =>
  }

  lemma {:induction false} DoneChCounts(c: Config, store: map<Bytes, Bytes>, acts: seq<Action>)
    requires Starts(c, store, acts)
    ensures
      var s := Run(c, Init(store), acts);
      |s.doneCh| == StagesSent(s)
    decreases |acts|
  {
    if acts != [] {
      var before, a, s := StepBack(c, store, acts);
      DoneChCounts(c, store, before);
      SendsAddUp(c, s, a);
      DoneTouched(c, s, a);
      hide Reachable, Enabled, Apply, StagesSent;
    }
  }

  /** doneCh has room for what every stage sends, so that no stage is ever held up at its end,
      whether start still waits or has long returned. */
  lemma ReportsAreNotHeldUp(c: Config, store: map<Bytes, Bytes>, acts: seq<Action>)
    requires Starts(c, store, acts)
    ensures
      var s := Run(c, Init(store), acts);
      && |s.doneCh| <= 3
      && (s.fetch.FetchFailing? ==> Enabled(c, s, Fetch(FetchReport)))
      && (s.chunk.Failing? ==> Enabled(c, s, Chunk(ChunkReport)))
      && (s.untar.UntarReporting? ==> Enabled(c, s, Untar(UntarReport)))
  {
    DoneChCounts(c, store, acts);
  }

  /* ---------- the chunk stage is a run of the fan-out/fan-in ---------- */

  function FanActs(past: seq<Action>): seq<F.Action> {
    if past == [] then []
    else
      FanActs(past[..|past| - 1])
      + (match past[|past| - 1] case Chunk(ChunkFan(a)) => [a] case _ => [])
  }

  lemma FanTouched(c: Config, s: State, a: Action)
    requires Enabled(c, s, a)
    ensures
      var t := Apply(c, s, a);
      if a.Chunk? && a.chunk.ChunkFan? then
        F.Enabled(c.fan, s.fan, a.chunk.a) && t.fan == F.Apply(c.fan, s.fan, a.chunk.a) && FanMeets(s, a.chunk.a)
      else t.fan == s.fan
  {
    hide F.Enabled, F.Apply, Index.NextKey, Index.Unread;
  }

  lemma {:induction false} FanRuns(c: Config, store: map<Bytes, Bytes>, acts: seq<Action>)
    requires Starts(c, store, acts)
    ensures FS.Starts(c.fan, store, FanActs(acts))
    ensures F.Run(c.fan, F.Init(store), FanActs(acts)) == Run(c, Init(store), acts).fan
    ensures F.Collect(F.WriteFails) !in FanActs(acts)
    decreases |acts|
  {
    if acts != [] {
      var before, a, s := StepBack(c, store, acts);
      FanRuns(c, store, before);
      FanTouched(c, s, a);
      assert acts[|acts| - 1] == a;
      hide Reachable, Enabled, Apply, F.Enabled, F.Apply, Index.NextKey;
      if a.Chunk? && a.chunk.ChunkFan? {
        FS.RunExtends(c.fan, F.Init(store), FanActs(before), a.chunk.a);
      } else {
        assert FanActs(acts) == FanActs(before);
      }
    }
  }

  /* ---------- a run without faults ---------- */

  /** Something went wrong, beyond what is tried again. */
  ghost predicate SomeFault(past: seq<Action>) {
    || ParentCancel in past || Fetch(FetchBodyFails) in past || FetchFailures(past) >= 3
    || Untar(UntarFail) in past || F.Produce(F.ReadError) in FanActs(past)
    || exists i :: FH.Faulty(FanActs(past), i)
  }

  lemma FaultsStay(past: seq<Action>, a: Action)
    requires SomeFault(past)
    ensures SomeFault(past + [a])
  {
    FetchPastGrows(past, a);
    hide FH.Faulty, FetchFailures;
    assert (past + [a])[..|past|] == past;
    if i :| FH.Faulty(FanActs(past), i) {
      if a.Chunk? && a.chunk.ChunkFan? {
        FH.FaultStays(FanActs(past), a.chunk.a, i);
      } else {
        assert FanActs(past) + [] == FanActs(past);
      }
      assert FH.Faulty(FanActs(past + [a]), i);
    }
  }

  /** No stage has failed, and the context lives. */
  predicate Untroubled(s: State) {
    && !s.ctxDone && true !in s.doneCh && s.main.MainWaiting?
    && !s.fetch.FetchFailing?
    && !(s.fan.fanIn.Returned? && s.fan.fanIn.failed)
    && s.untar != UntarReporting(true)
  }

  predicate Healthy(s: State) {
    s.main == MainReturned(false, true) || Untroubled(s)
  }

  lemma FetchStaysUntroubled(c: Config, s: State, t: FetchStep)
    requires Untroubled(s) && FetchCan(c, s, t) && !t.FetchBodyFails?
    requires t.FetchCallFails? ==> s.fetch.attempts < 2
    ensures Untroubled(FetchStepped(c, s, t))
  {
  }

  lemma UntarStaysUntroubled(c: Config, s: State, t: UntarStep)
    requires Untroubled(s) && UntarCan(c, s, t) && !t.UntarFail?
    ensures Untroubled(UntarStepped(c, s, t))
  {
  }

  lemma ChunkStaysUntroubled(c: Config, s: State, t: ChunkStep)
    requires Untroubled(s) && ChunkCan(c, s, t) && !s.chunk.Failing?
    requires t.ChunkFan? ==> var fan := F.Apply(c.fan, s.fan, t.a); !(fan.fanIn.Returned? && fan.fanIn.failed)
    ensures Untroubled(ChunkStepped(c, s, t))
  {
    hide F.Enabled, F.Apply, Index.NextKey, Index.Unread;
  }

  lemma FanFailsForCause(c: Config, store: map<Bytes, Bytes>, acts: seq<Action>)
    requires Starts(c, store, acts) && !Run(c, Init(store), acts).fan.cancelled
    ensures
      var s := Run(c, Init(store), acts);
      s.fan.fanIn.Returned? && s.fan.fanIn.failed ==>
        F.Produce(F.ReadError) in FanActs(acts) || exists i :: FH.Faulty(FanActs(acts), i)
  {
    FanRuns(c, store, acts);
    FH.EndsArePast(c.fan, store, FanActs(acts));
    FH.FailsForCause(c.fan, store, FanActs(acts));
    hide Starts, FH.Faulty;
  }

  lemma FetchCallsLeft(c: Config, store: map<Bytes, Bytes>, before: seq<Action>, s: State, t: FetchStep)
    requires Starts(c, store, before) && s == Run(c, Init(store), before) && FetchCan(c, s, t)
    requires FetchFailures(before + [Fetch(t)]) < 3
    ensures t.FetchCallFails? ==> s.fetch.attempts < 2
  {
    FetchEndsForCause(c, store, before);
    FetchPastGrows(before, Fetch(t));
    hide FetchFailures;
  }

  /** The fan-out/fan-in of a live network has not been cancelled, nor will be by its next step. */
  lemma LiveFanIsUncancelled(c: Config, s: State, t: ChunkStep)
    requires StagesEnd(c, s) && !s.ctxDone && ChunkCan(c, s, t)
    ensures !ChunkStepped(c, s, t).fan.cancelled
  {
    if t.ChunkFan? {
      FS.StepFrame(c.fan, s.fan, t.a);
    }
    hide FS.Reachable, F.Enabled, F.Apply, Index.NextKey, Index.Unread;
  }

  lemma ChunkStaysHealthy(c: Config, store: map<Bytes, Bytes>, before: seq<Action>, s: State, t: ChunkStep)
    requires Starts(c, store, before + [Chunk(t)]) && Reachable(c, s) && ChunkCan(c, s, t)
    requires Run(c, Init(store), before + [Chunk(t)]) == ChunkStepped(c, s, t)
    requires Untroubled(s) && !SomeFault(before + [Chunk(t)])
    ensures Untroubled(ChunkStepped(c, s, t))
  {
    ReachableInv(c, s);
    LiveFanIsUncancelled(c, s, t);
    FanFailsForCause(c, store, before + [Chunk(t)]);
    assert !s.chunk.Failing?;
    assert t.ChunkFan? ==> ChunkStepped(c, s, t).fan == F.Apply(c.fan, s.fan, t.a);
    hide Inv, Reachable, FH.Faulty, F.Enabled, F.Apply, ChunkStepped, ChunkCan;
    ChunkStaysUntroubled(c, s, t);
  }

  lemma StepStaysHealthy(c: Config, store: map<Bytes, Bytes>, before: seq<Action>, s: State, a: Action)
    requires Starts(c, store, before + [a]) && Starts(c, store, before)
    requires s == Run(c, Init(store), before) && Enabled(c, s, a) && Reachable(c, s)
    requires Run(c, Init(store), before + [a]) == Apply(c, s, a)
    requires Untroubled(s) && !SomeFault(before + [a])
    ensures Healthy(Apply(c, s, a))
  {
    hide Reachable, FetchFailures, FH.Faulty, FetchStepped, UntarStepped, ChunkStepped;
    match a {
      case Fetch(t) =>
        FetchCallsLeft(c, store, before, s, t);
        FetchStaysUntroubled(c, s, t);
      case Chunk(t) => ChunkStaysHealthy(c, store, before, s, t);
      case Untar(t) => UntarStaysUntroubled(c, s, t);
      case TakeDone =>
      case ParentCancel =>
    }
  }

  /** start fails only if the caller cancelled, a call failed three times, a body or a line of the
      index could not be read, or untar met something it could not read or write. */
  lemma {:induction false} FailsForCause(c: Config, store: map<Bytes, Bytes>, acts: seq<Action>)
    requires Starts(c, store, acts) && !SomeFault(acts)
    ensures Healthy(Run(c, Init(store), acts))
    decreases |acts|
  {
    if acts != [] {
      var before, a, s := StepBack(c, store, acts);
      if SomeFault(before) {
        FaultsStay(before, a);
      }
      FailsForCause(c, store, before);
      ContextTouched(c, s, a);
      hide SomeFault, Untroubled, Enabled, Apply, Reachable;
      if Untroubled(s) {
        StepStaysHealthy(c, store, before, s, a);
      }
    }
  }

  /** So a run without such a fault in which start has returned has brought everything: untar saw
      the end of the archive, or all contents of all keys of the index. */
  lemma FaultlessDownloadIsComplete(c: Config, store: map<Bytes, Bytes>, acts: seq<Action>)
    requires Starts(c, store, acts) && Run(c, Init(store), acts).main.MainReturned? && !SomeFault(acts)
    ensures
      var s := Run(c, Init(store), acts);
      && s.main == MainReturned(false, true)
      && (!c.ends(s.got) ==>
            && c.index.Some? && ContentsOf(c, s.fan.out) && |s.fan.out| == |Index.Parse(c.index.value).keys|
            && s.got == Concat(s.fan.out))
  {
    FailsForCause(c, store, acts);
    var s := Run(c, Init(store), acts);
    assert Reachable(c, s);
    hide Reachable, SomeFault, ContentsOf, Index.Parse;
    if !c.ends(s.got) {
      LiveNilMeansComplete(c, s);
    }
  }
}
