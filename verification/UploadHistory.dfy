/** What an upload owes to its past: when its context ends, when it can no longer be announced,
    how often a call is tried, and that start fails exactly for what went wrong. */
module UploadHistory {
  import opened Prelude
  import Pipes
  import opened UploadProcess
  import opened UploadSafety
  import F = FanOut
  import FS = FanOutSafety
  import FH = FanOutHistory
  import UL = UploadLiveness

  lemma {:induction false} LastStep(c: Config, s: State, acts: seq<Action>)
    requires Valid(c, s, acts) && acts != []
    ensures
      var init, last := acts[..|acts| - 1], acts[|acts| - 1];
      && Valid(c, s, init) && Enabled(c, Run(c, s, init), last)
      && Run(c, s, acts) == Apply(c, Run(c, s, init), last)
    decreases |acts|
  {
    hide Apply, Enabled;
    if |acts| > 1 {
      LastStep(c, Apply(c, s, acts[0]), acts[1..]);
      assert acts[1..][..|acts| - 2] == acts[..|acts| - 1][1..];
    }
  }

  /** The state before the last step of a run. */
  lemma StepBack(c: Config, store: map<Bytes, Bytes>, acts: seq<Action>)
      returns (before: seq<Action>, a: Action, s: State)
    requires Starts(c, store, acts) && acts != []
    ensures acts == before + [a] && acts[..|acts| - 1] == before && Starts(c, store, before)
    ensures s == Run(c, Init(store), before) && Reachable(c, s) && Enabled(c, s, a)
    ensures Run(c, Init(store), acts) == Apply(c, s, a)
  {
    hide Enabled, Apply;
    LastStep(c, Init(store), acts);
    before, a := acts[..|acts| - 1], acts[|acts| - 1];
    s := Run(c, Init(store), before);
  }

  /* ---------- what each stage leaves alone ---------- */

  lemma TarLeaves(c: Config, s: State, t: TarStep)
    requires TarCan(c, s, t)
    ensures
      var u := TarStepped(c, s, t);
      u == s.(tar := u.tar, written := u.written, tarCount := u.tarCount, doneCh := u.doneCh)
  {
  }

  lemma CountLeaves(s: State, t: CountStep)
    requires CountCan(s, t)
    ensures
      var u := CountStepped(s, t);
      u == s.(count := u.count, total := u.total, countCh := u.countCh, tarCount := u.tarCount,
              countChunks := u.countChunks)
  {
  }

  lemma ChunkLeaves(c: Config, s: State, t: ChunkStep)
    requires ChunkCan(c, s, t)
    ensures
      var u := ChunkStepped(c, s, t);
      u == s.(countChunks := u.countChunks, chunkBuffer := u.chunkBuffer, fan := u.fan, chunk := u.chunk,
              chunksIndex := u.chunksIndex, doneCh := u.doneCh)
  {
    hide F.Enabled, F.Apply;
  }

  lemma IndexLeaves(s: State, t: IndexStep)
    requires IndexCan(s, t)
    ensures
      var u := IndexStepped(s, t);
      u == s.(index := u.index, indexBuffer := u.indexBuffer, chunksIndex := u.chunksIndex,
              indexObject := u.indexObject, doneCh := u.doneCh)
  {
  }

  lemma HeartbeatLeaves(s: State, t: HeartbeatStep)
    requires HeartbeatCan(s, t)
    ensures
      var u := HeartbeatStepped(s, t);
      u == s.(heartbeat := u.heartbeat, doneCh := u.doneCh, ctxDone := u.ctxDone)
  {
  }

  predicate Leaves(s: State, a: Action, u: State) {
    match a
    case Tar(_) => u == s.(tar := u.tar, written := u.written, tarCount := u.tarCount, doneCh := u.doneCh)
    case Count(_) =>
      u == s.(count := u.count, total := u.total, countCh := u.countCh, tarCount := u.tarCount,
              countChunks := u.countChunks)
    case Chunk(_) =>
      u == s.(countChunks := u.countChunks, chunkBuffer := u.chunkBuffer, fan := u.fan, chunk := u.chunk,
              chunksIndex := u.chunksIndex, doneCh := u.doneCh)
    case Index(_) =>
      u == s.(index := u.index, indexBuffer := u.indexBuffer, chunksIndex := u.chunksIndex,
              indexObject := u.indexObject, doneCh := u.doneCh)
    case Heartbeat(_) => u == s.(heartbeat := u.heartbeat, doneCh := u.doneCh, ctxDone := u.ctxDone)
    case Main(_) => OnlyMain(s, u)
    case ParentCancel => u == s.(ctxDone := true)
  }

  lemma StepLeaves(c: Config, s: State, a: Action)
    requires Enabled(c, s, a)
    ensures Leaves(s, a, Apply(c, s, a))
  {
    hide TarStepped, CountStepped, ChunkStepped, IndexStepped, HeartbeatStepped, MainStepped, OnlyMain;
    match a
    case Tar(t) => TarLeaves(c, s, t);
    case Count(t) => CountLeaves(s, t);
    case Chunk(t) => ChunkLeaves(c, s, t);
    case Index(t) => IndexLeaves(s, t);
    case Heartbeat(t) => HeartbeatLeaves(s, t);
    case Main(t) => MainTouchesMain(s, t);
    case ParentCancel =>
  }

  /* ---------- the context ---------- */

  lemma MainEndsContext(s: State, t: MainStep)
    requires MainCan(s, t)
    ensures
      var u := MainStepped(s, t);
      !s.main.MainReturned? && (u.ctxDone <==> s.ctxDone || u.main.MainReturned?)
  {
  }

  lemma ContextTouched(c: Config, s: State, a: Action)
    requires Enabled(c, s, a)
    ensures
      var t := Apply(c, s, a);
      && (s.main.MainReturned? ==> t.main == s.main)
      && (t.ctxDone <==>
            || s.ctxDone || a == ParentCancel || a == Heartbeat(HeartbeatCancel)
            || (t.main.MainReturned? && !s.main.MainReturned?))
  {
    StepLeaves(c, s, a);
    hide TarStepped, CountStepped, ChunkStepped, IndexStepped, MainStepped;
    if a.Main? {
      MainEndsContext(s, a.main);
    }
  }

  /** The context is done exactly if the caller cancelled it, the server had let the upload
      expire, or start has returned. */
  lemma {:induction false} ContextEndsForCause(c: Config, store: map<Bytes, Bytes>, acts: seq<Action>)
    requires Starts(c, store, acts)
    ensures
      var s := Run(c, Init(store), acts);
      s.ctxDone <==> ParentCancel in acts || Heartbeat(HeartbeatCancel) in acts || s.main.MainReturned?
    decreases |acts|
  {
    if acts != [] {
      var before, a, s := StepBack(c, store, acts);
      ContextEndsForCause(c, store, before);
      ContextTouched(c, s, a);
      hide Enabled, Apply, Reachable;
    }
  }

  /* ---------- no announcement after the end of the context ---------- */

  /** The metadata upload has not passed its last check of the context. */
  predicate BeforeMetadata(s: State) {
    s.main.Waiting? || s.main.AwaitingCount? || s.main.MetadataTrying?
  }

  /** Nothing was announced, and start can only return an error from here. */
  predicate Doomed(s: State) {
    !s.announced && s.ctxDone && (BeforeMetadata(s) || s.main == MainReturned(true))
  }

  lemma MainKeepsDoomed(s: State, t: MainStep)
    requires Doomed(s) && MainCan(s, t)
    requires s.main.AwaitingCount? ==> s.countCh.Some? && s.countCh.value.CountOk?
    ensures Doomed(MainStepped(s, t))
  {
  }

  lemma StepKeepsDoomed(c: Config, s: State, a: Action)
    requires Reachable(c, s) && Doomed(s) && Enabled(c, s, a)
    ensures Doomed(Apply(c, s, a))
  {
    if s.main.AwaitingCount? {
      CountFailureNeverReached(c, s);
    }
    hide Reachable, TarStepped, CountStepped, ChunkStepped, IndexStepped, HeartbeatStepped, MainStepped;
    if a.Main? {
      MainKeepsDoomed(s, a.main);
    } else {
      ContextTouched(c, s, a);
      StepLeaves(c, s, a);
    }
  }

  lemma {:induction false} RunKeepsDoomed(c: Config, s: State, acts: seq<Action>)
    requires Reachable(c, s) && Doomed(s) && Valid(c, s, acts)
    ensures Doomed(Run(c, s, acts))
    decreases |acts|
  {
    hide Enabled, Apply, Doomed, Reachable;
    if acts != [] {
      StepKeepsDoomed(c, s, acts[0]);
      var t := UL.TakeStep(c, s, acts[0]);
      RunKeepsDoomed(c, t, acts[1..]);
    }
  }

  ghost predicate CanAnnounce(c: Config, s: State) {
    exists acts :: Valid(c, s, acts) && Run(c, s, acts).announced
  }

  lemma AnnouncingAnnounces(c: Config, s: State)
    requires s.main.Announcing?
    ensures CanAnnounce(c, s)
  {
    var a := Main(AnnounceWorks);
    assert Valid(c, Apply(c, s, a), []) && Run(c, Apply(c, s, a), []).announced;
    assert [a][0] == a && [a][1..] == [];
    assert Valid(c, s, [a]) && Run(c, s, [a]).announced;
  }

  lemma CallingAnnounces(c: Config, s: State)
    requires s.main.MetadataCalling?
    ensures CanAnnounce(c, s)
  {
    var a := Main(MetadataCallWorks);
    var t := Apply(c, s, a);
    AnnouncingAnnounces(c, t);
    hide Enabled, Apply;
    var acts :| Valid(c, t, acts) && Run(c, t, acts).announced;
    var more := [a] + acts;
    assert more[0] == a && more[1..] == acts;
    assert Valid(c, s, more) && Run(c, s, more).announced;
  }

  /** Once the context is done, by the caller or by an expired heartbeat, the upload is announced
      exactly if it has been, or if its metadata were already on their way; and start returns
      an error in every other case. */
  lemma CancelledIsAnnouncedIff(c: Config, s: State)
    requires Reachable(c, s) && s.ctxDone
    ensures CanAnnounce(c, s) <==> s.announced || s.main.MetadataCalling? || s.main.Announcing?
  {
    if s.announced {
      assert Valid(c, s, []) && Run(c, s, []).announced;
    } else if s.main.Announcing? {
      AnnouncingAnnounces(c, s);
    } else if s.main.MetadataCalling? {
      CallingAnnounces(c, s);
    } else {
      ReachableInv(c, s);
      assert Doomed(s);
      hide Reachable, Inv, Enabled, Apply;
      forall acts | Valid(c, s, acts) ensures !Run(c, s, acts).announced {
        RunKeepsDoomed(c, s, acts);
      }
    }
  }

  /** An upload that expired before its metadata were on their way never returns nil. */
  lemma ExpiredNeverReturnsNil(c: Config, store: map<Bytes, Bytes>, acts: seq<Action>, more: seq<Action>)
    requires Starts(c, store, acts) && Heartbeat(HeartbeatCancel) in acts
    requires BeforeMetadata(Run(c, Init(store), acts)) && Valid(c, Run(c, Init(store), acts), more)
    ensures
      var t := Run(c, Run(c, Init(store), acts), more);
      !t.announced && t.main != MainReturned(false)
  {
    var s := Run(c, Init(store), acts);
    assert Reachable(c, s);
    ContextEndsForCause(c, store, acts);
    ReachableInv(c, s);
    hide Reachable, Inv;
    RunKeepsDoomed(c, s, more);
  }

  /** Once the context is done no call for the index or the metadata is started any more. */
  lemma {:induction false} NoCallAfterCancel(c: Config, s: State, acts: seq<Action>)
    requires s.ctxDone && Valid(c, s, acts)
    ensures Action.Index(IndexTry) !in acts && Main(MetadataTry) !in acts
    decreases |acts|
  {
    if acts != [] {
      ContextTouched(c, s, acts[0]);
      assert acts[0] != Action.Index(IndexTry) && acts[0] != Main(MetadataTry);
      hide Enabled, Apply;
      NoCallAfterCancel(c, Apply(c, s, acts[0]), acts[1..]);
    }
  }

  /* ---------- the index upload: three calls at most ---------- */

  function IndexFailures(past: seq<Action>): nat {
    multiset(past)[Action.Index(IndexCallFails(true))] + multiset(past)[Action.Index(IndexCallFails(false))]
  }

  predicate IndexStored(past: seq<Action>) {
    Action.Index(IndexCallWorks) in past
  }

  predicate IndexGaveUp(past: seq<Action>) {
    Action.Index(IndexStop) in past || IndexFailures(past) >= 3
  }

  /** What each point of the index stage says about its past. */
  predicate IndexPast(past: seq<Action>, pc: IndexPc) {
    match pc
    case Gathering => !IndexStored(past) && !IndexGaveUp(past) && IndexFailures(past) == 0
    case IndexTrying(n) => !IndexStored(past) && !IndexGaveUp(past) && IndexFailures(past) == n
    case IndexCalling(n) => !IndexStored(past) && !IndexGaveUp(past) && IndexFailures(past) == n
    case IndexReporting(failed) => (failed <==> IndexGaveUp(past)) && (failed <==> !IndexStored(past))
    case IndexFinished => IndexGaveUp(past) <==> !IndexStored(past)
  }

  lemma IndexPastGrows(past: seq<Action>, a: Action)
    ensures IndexFailures(past + [a]) == IndexFailures(past) + (if a.Index? && a.index.IndexCallFails? then 1 else 0)
    ensures IndexStored(past + [a]) <==> IndexStored(past) || a == Action.Index(IndexCallWorks)
    ensures IndexGaveUp(past + [a]) <==>
      Action.Index(IndexStop) in past || a == Action.Index(IndexStop) || IndexFailures(past + [a]) >= 3
  {
    assert multiset(past + [a]) == multiset(past) + multiset{a};
  }

  lemma OthersLeaveIndex(c: Config, s: State, a: Action)
    requires Enabled(c, s, a) && !a.Index?
    ensures Apply(c, s, a).index == s.index
  {
    StepLeaves(c, s, a);
    hide Enabled, Apply;
  }

  lemma OthersKeepIndexPast(past: seq<Action>, a: Action, pc: IndexPc)
    requires IndexPast(past, pc) && !a.Index?
    ensures IndexPast(past + [a], pc)
  {
    IndexPastGrows(past, a);
    hide IndexFailures;
  }

  lemma IndexKeepsPast(s: State, past: seq<Action>, t: IndexStep)
    requires IndexCan(s, t) && IndexPast(past, s.index)
    ensures IndexPast(past + [Action.Index(t)], IndexStepped(s, t).index)
  {
    IndexPastGrows(past, Action.Index(t));
    hide IndexFailures;
  }

  /** The index upload fails exactly if the context was done at one of its checks, or three of
      its calls failed. */
  lemma {:induction false} IndexEndsForCause(c: Config, store: map<Bytes, Bytes>, acts: seq<Action>)
    requires Starts(c, store, acts)
    ensures IndexPast(acts, Run(c, Init(store), acts).index)
    decreases |acts|
  {
    if acts != [] {
      var before, a, s := StepBack(c, store, acts);
      IndexEndsForCause(c, store, before);
      hide Reachable, IndexFailures, IndexPast, IndexStepped;
      if a.Index? {
        IndexKeepsPast(s, before, a.index);
      } else {
        OthersLeaveIndex(c, s, a);
        OthersKeepIndexPast(before, a, s.index);
        hide Enabled, Apply;
      }
    }
  }

  /* ---------- the metadata upload, and start's own end ---------- */

  function MetadataFailures(past: seq<Action>): nat {
    multiset(past)[Main(MetadataCallFails(true))] + multiset(past)[Main(MetadataCallFails(false))]
  }

  predicate MetadataGaveUp(past: seq<Action>) {
    Main(MetadataStop) in past || MetadataFailures(past) >= 3
  }

  predicate Unannounced(past: seq<Action>) {
    Main(AnnounceFails) !in past && Main(AnnounceWorks) !in past
  }

  /** What each point of start says about its past, `first` being what it takes from doneCh. */
  predicate MainPast(past: seq<Action>, first: bool, pc: MainPc) {
    match pc
    case Waiting => !MetadataGaveUp(past) && MetadataFailures(past) == 0 && Unannounced(past)
    case AwaitingCount => !first && !MetadataGaveUp(past) && MetadataFailures(past) == 0 && Unannounced(past)
    case MetadataTrying(n, _) => !first && !MetadataGaveUp(past) && MetadataFailures(past) == n && Unannounced(past)
    case MetadataCalling(n, _) => !first && !MetadataGaveUp(past) && MetadataFailures(past) == n && Unannounced(past)
    case Announcing => !first && !MetadataGaveUp(past) && Unannounced(past)
    case MainReturned(failed) =>
      && (failed <==> first || MetadataGaveUp(past) || Main(AnnounceFails) in past)
      && (failed <==> Main(AnnounceWorks) !in past)
  }

  lemma MainPastGrows(past: seq<Action>, a: Action)
    ensures MetadataFailures(past + [a])
      == MetadataFailures(past) + (if a.Main? && a.main.MetadataCallFails? then 1 else 0)
    ensures MetadataGaveUp(past + [a]) <==>
      Main(MetadataStop) in past || a == Main(MetadataStop) || MetadataFailures(past + [a]) >= 3
    ensures Main(AnnounceFails) in past + [a] <==> Main(AnnounceFails) in past || a == Main(AnnounceFails)
    ensures Main(AnnounceWorks) in past + [a] <==> Main(AnnounceWorks) in past || a == Main(AnnounceWorks)
  {
    assert multiset(past + [a]) == multiset(past) + multiset{a};
  }

  /** What start takes from doneCh. */
  function First(s: State): bool {
    s.doneCh != [] && s.doneCh[0]
  }

  lemma OthersLeaveMain(c: Config, s: State, a: Action)
    requires Enabled(c, s, a) && !a.Main?
    ensures Apply(c, s, a).main == s.main && s.doneCh <= Apply(c, s, a).doneCh
  {
    StepLeaves(c, s, a);
    DoneTouched(c, s, a);
    hide Enabled, Apply;
  }

  lemma OthersKeepMainPast(past: seq<Action>, a: Action, first: bool, later: bool, pc: MainPc)
    requires MainPast(past, first, pc) && !a.Main? && (pc.Waiting? || later == first)
    ensures MainPast(past + [a], later, pc)
  {
    MainPastGrows(past, a);
    hide MetadataFailures;
  }

  lemma MainKeepsMainPast(c: Config, s: State, past: seq<Action>, t: MainStep)
    requires MainMatches(c, s) && MainCan(s, t) && MainPast(past, First(s), s.main)
    requires s.main.AwaitingCount? ==> s.countCh.Some? && s.countCh.value.CountOk?
    ensures MainPast(past + [Main(t)], First(MainStepped(s, t)), MainStepped(s, t).main)
  {
    MainPastGrows(past, Main(t));
    hide MetadataFailures;
  }

  lemma {:induction false} MainEndsForCause(c: Config, store: map<Bytes, Bytes>, acts: seq<Action>)
    requires Starts(c, store, acts)
    ensures
      var s := Run(c, Init(store), acts);
      MainPast(acts, First(s), s.main)
    decreases |acts|
  {
    if acts != [] {
      var before, a, s := StepBack(c, store, acts);
      MainEndsForCause(c, store, before);
      ReachableInv(c, s);
      if a.Main? {
        if s.main.AwaitingCount? {
          CountFailureNeverReached(c, s);
        }
        MainKeepsMainPast(c, s, before, a.main);
        hide Reachable, MainPast, Inv;
      } else {
        OthersLeaveMain(c, s, a);
        assert !s.main.Waiting? ==> s.doneCh != [];
        hide Reachable, Enabled, Apply, MainPast, Inv;
        OthersKeepMainPast(before, a, First(s), First(Run(c, Init(store), acts)), s.main);
      }
    }
  }

  /* ---------- what is stored ---------- */

  predicate IndexKept(past: seq<Action>) {
    Action.Index(IndexCallWorks) in past || Action.Index(IndexCallFails(true)) in past
  }

  predicate MetadataKept(past: seq<Action>) {
    Main(MetadataCallWorks) in past || Main(MetadataCallFails(true)) in past
  }

  predicate ObjectMoved(s: State, a: Action, t: State) {
    && t.indexObject == (if a == Action.Index(IndexCallWorks) || a == Action.Index(IndexCallFails(true))
                         then Some(s.indexBuffer) else s.indexObject)
    && (!s.index.Gathering? ==> !t.index.Gathering? && t.indexBuffer == s.indexBuffer)
  }

  lemma ObjectsTouched(c: Config, s: State, a: Action)
    requires Enabled(c, s, a)
    ensures ObjectMoved(s, a, Apply(c, s, a))
  {
    StepLeaves(c, s, a);
    hide TarStepped, CountStepped, ChunkStepped, IndexStepped, HeartbeatStepped, MainStepped;
    if a.Index? {
      IndexTouchesObject(s, a.index);
    }
  }

  lemma IndexTouchesObject(s: State, t: IndexStep)
    requires IndexCan(s, t)
    ensures ObjectMoved(s, Action.Index(t), IndexStepped(s, t))
  {
  }

  lemma MainTouchesMetadata(s: State, t: MainStep)
    requires MainCan(s, t)
    ensures MainStepped(s, t).metadataObject
      == if t == MetadataCallWorks || t == MetadataCallFails(true) then Some(s.main.total) else s.metadataObject
  {
  }

  lemma MetadataTouched(c: Config, s: State, a: Action)
    requires Enabled(c, s, a)
    ensures Apply(c, s, a).metadataObject
      == if a == Main(MetadataCallWorks) || a == Main(MetadataCallFails(true)) then Some(s.main.total)
         else s.metadataObject
  {
    StepLeaves(c, s, a);
    hide TarStepped, CountStepped, ChunkStepped, IndexStepped, HeartbeatStepped, MainStepped;
    if a.Main? {
      MainTouchesMetadata(s, a.main);
    }
  }

  lemma KeptGrows(past: seq<Action>, a: Action)
    ensures IndexKept(past + [a]) <==>
      IndexKept(past) || a == Action.Index(IndexCallWorks) || a == Action.Index(IndexCallFails(true))
    ensures MetadataKept(past + [a]) <==>
      MetadataKept(past) || a == Main(MetadataCallWorks) || a == Main(MetadataCallFails(true))
  {
  }

  /** The metadata's length is right whenever it is on its way. */
  lemma MetadataIsRight(c: Config, s: State, t: MainStep)
    requires MainMatches(c, s) && MainCan(s, t)
    ensures t == MetadataCallWorks || t == MetadataCallFails(true) ==> s.main.total == |c.archive|
  {
  }

  lemma IndexIsGathered(s: State, t: IndexStep)
    requires IndexCan(s, t)
    ensures t == IndexCallWorks || t == IndexCallFails(true) ==> !s.index.Gathering?
  {
  }

  /** The index and the metadata are stored exactly if a call for them worked, or failed and was
      carried out all the same; the index is then all that the chunk stage wrote, and the
      metadata hold the archive's length. */
  lemma {:induction false} StoredIffSent(c: Config, store: map<Bytes, Bytes>, acts: seq<Action>)
    requires Starts(c, store, acts)
    ensures
      var s := Run(c, Init(store), acts);
      && (s.indexObject.Some? <==> IndexKept(acts))
      && (s.indexObject.Some? ==> s.indexObject == Some(s.indexBuffer) && !s.index.Gathering?)
      && (s.metadataObject.Some? <==> MetadataKept(acts))
      && (s.metadataObject.Some? ==> s.metadataObject == Some(|c.archive|))
    decreases |acts|
  {
    if acts != [] {
      var before, a, s := StepBack(c, store, acts);
      StoredIffSent(c, store, before);
      ObjectsTouched(c, s, a);
      MetadataTouched(c, s, a);
      KeptGrows(before, a);
      ReachableInv(c, s);
      if a.Main? {
        MetadataIsRight(c, s, a.main);
      } else if a.Index? {
        IndexIsGathered(s, a.index);
      }
      hide Reachable, Enabled, Apply, Inv, IndexKept, MetadataKept;
    }
  }

  /* ---------- the error channel ---------- */

  /** What each stage has sent to doneCh, in the order of the sends. */
  function Sent(past: seq<Action>): seq<bool> {
    if past == [] then []
    else
      var before := past[..|past| - 1];
      Sent(before)
      + (match past[|past| - 1]
         case Tar(TarReport) => [true]
         case Chunk(ChunkReport) => [true]
         case Heartbeat(HeartbeatReport) => [true]
         case Index(IndexReport) => [IndexGaveUp(before)]
         case _ => [])
  }

  predicate ErrorSent(a: Action) {
    a == Tar(TarReport) || a == Chunk(ChunkReport) || a == Heartbeat(HeartbeatReport)
  }

  lemma TarSendsError(c: Config, s: State, t: TarStep)
    requires TarCan(c, s, t)
    ensures TarStepped(c, s, t).doneCh == s.doneCh + (if t.TarReport? then [true] else [])
  {
  }

  lemma ChunkSendsError(c: Config, s: State, t: ChunkStep)
    requires ChunkCan(c, s, t)
    ensures ChunkStepped(c, s, t).doneCh == s.doneCh + (if t.ChunkReport? then [true] else [])
  {
    hide F.Enabled, F.Apply;
  }

  lemma IndexSendsResult(s: State, t: IndexStep)
    requires IndexCan(s, t)
    ensures IndexStepped(s, t).doneCh == s.doneCh + (if t.IndexReport? then [s.index.failed] else [])
  {
  }

  lemma HeartbeatSendsError(s: State, t: HeartbeatStep)
    requires HeartbeatCan(s, t)
    ensures HeartbeatStepped(s, t).doneCh == s.doneCh + (if t.HeartbeatReport? then [true] else [])
  {
  }

  lemma DoneTouched(c: Config, s: State, a: Action)
    requires Enabled(c, s, a)
    ensures Apply(c, s, a).doneCh
      == s.doneCh + (if ErrorSent(a) then [true]
                     else if a == Action.Index(IndexReport) then [s.index.failed] else [])
  {
    StepLeaves(c, s, a);
    hide TarStepped, CountStepped, ChunkStepped, IndexStepped, HeartbeatStepped, MainStepped;
    match a
    case Tar(t) => TarSendsError(c, s, t);
    case Chunk(t) => ChunkSendsError(c, s, t);
    case Index(t) => IndexSendsResult(s, t);
    case Heartbeat(t) => HeartbeatSendsError(s, t);
    case _ =>
  }

  lemma SentGrows(past: seq<Action>, a: Action)
    ensures Sent(past + [a])
      == Sent(past) + (if ErrorSent(a) then [true]
                       else if a == Action.Index(IndexReport) then [IndexGaveUp(past)] else [])
  {
    var all := past + [a];
    assert all[..|all| - 1] == past && all[|all| - 1] == a;
    hide IndexGaveUp;
  }

  lemma {:induction false} DoneIsSent(c: Config, store: map<Bytes, Bytes>, acts: seq<Action>)
    requires Starts(c, store, acts)
    ensures Run(c, Init(store), acts).doneCh == Sent(acts)
    decreases |acts|
  {
    if acts != [] {
      var before, a, s := StepBack(c, store, acts);
      DoneIsSent(c, store, before);
      IndexEndsForCause(c, store, before);
      DoneTouched(c, s, a);
      SentGrows(before, a);
      assert a == Action.Index(IndexReport) ==> s.index.IndexReporting?;
      hide Reachable, Sent, IndexGaveUp, IndexStored, Enabled, Apply;
    }
  }

  /** start returns an error exactly if the first value sent to doneCh is one, the metadata
      upload gave up, or the announcement was not acknowledged; and nil exactly if it was. */
  lemma StartFailsIff(c: Config, store: map<Bytes, Bytes>, acts: seq<Action>)
    requires Starts(c, store, acts) && Run(c, Init(store), acts).main.MainReturned?
    ensures Sent(acts) != []
    ensures
      var s := Run(c, Init(store), acts);
      && (s.main.failed <==> Sent(acts)[0] || MetadataGaveUp(acts) || Main(AnnounceFails) in acts)
      && (!s.main.failed <==> Main(AnnounceWorks) in acts)
  {
    DoneIsSent(c, store, acts);
    MainEndsForCause(c, store, acts);
    var s := Run(c, Init(store), acts);
    assert Reachable(c, s);
    ReachableInv(c, s);
    hide Reachable, MetadataGaveUp;
  }

  /* ---------- the error channel's capacity ---------- */

  function HeartbeatErrors(past: seq<Action>): nat {
    multiset(past)[Heartbeat(HeartbeatReport)]
  }

  /** How many of the three stages that send at most one value have done so. */
  function StagesSent(s: State): nat {
    (if Pipes.Ended(s.tar) && s.tar.failed then 1 else 0)
    + (if Pipes.Ended(s.chunk) && s.chunk.failed then 1 else 0)
    + (if s.index.IndexFinished? then 1 else 0)
  }

  predicate StageSends(a: Action) {
    a == Tar(TarReport) || a == Chunk(ChunkReport) || a == Action.Index(IndexReport)
  }

  lemma TarSends(c: Config, s: State, t: TarStep)
    requires TarCan(c, s, t)
    ensures StagesSent(TarStepped(c, s, t)) == StagesSent(s) + (if t.TarReport? then 1 else 0)
  {
  }

  lemma ChunkSends(c: Config, s: State, t: ChunkStep)
    requires ChunkCan(c, s, t)
    ensures StagesSent(ChunkStepped(c, s, t)) == StagesSent(s) + (if t.ChunkReport? then 1 else 0)
  {
    hide F.Enabled, F.Apply;
  }

  lemma IndexSends(s: State, t: IndexStep)
    requires IndexCan(s, t)
    ensures StagesSent(IndexStepped(s, t)) == StagesSent(s) + (if t.IndexReport? then 1 else 0)
  {
  }

  lemma SendsAddUp(c: Config, s: State, a: Action)
    requires Enabled(c, s, a)
    ensures StagesSent(Apply(c, s, a)) == StagesSent(s) + (if StageSends(a) then 1 else 0)
  {
    StepLeaves(c, s, a);
    hide TarStepped, CountStepped, ChunkStepped, IndexStepped, HeartbeatStepped, MainStepped;
    match a
    case Tar(t) => TarSends(c, s, t);
    case Chunk(t) => ChunkSends(c, s, t);
    case Index(t) => IndexSends(s, t);
    case _ =>
  }

  lemma {:induction false} DoneChCounts(c: Config, store: map<Bytes, Bytes>, acts: seq<Action>)
    requires Starts(c, store, acts)
    ensures
      var s := Run(c, Init(store), acts);
      |s.doneCh| == StagesSent(s) + HeartbeatErrors(acts)
    decreases |acts|
  {
    if acts != [] {
      var before, a, s := StepBack(c, store, acts);
      DoneChCounts(c, store, before);
      SendsAddUp(c, s, a);
      DoneTouched(c, s, a);
      hide Reachable, Enabled, Apply, StagesSent;
      assert multiset(acts) == multiset(before) + multiset{a};
    }
  }

  /** doneCh has room for what every stage sends and one expired heartbeat, so that no stage is
      held up at its end, whether start still waits or has long returned. */
  lemma ReportsAreNotHeldUp(c: Config, store: map<Bytes, Bytes>, acts: seq<Action>)
    requires Starts(c, store, acts) && HeartbeatErrors(acts) <= 1
    ensures
      var s := Run(c, Init(store), acts);
      && (s.tar.Failing? && s.tarCount.pending == [] ==> Enabled(c, s, Tar(TarReport)))
      && (s.chunk.Failing? ==> Enabled(c, s, Chunk(ChunkReport)))
      && (s.index.IndexReporting? ==> Enabled(c, s, Action.Index(IndexReport)))
  {
    DoneChCounts(c, store, acts);
  }

  /** With four of them the channel is full, and a stage that has failed is held up. */
  lemma HeartbeatsCanHoldUp(c: Config, store: map<Bytes, Bytes>) returns (s: State)
    requires c.fan.mode.Upload? && FS.WellKeyed(c.fan, store)
    ensures Reachable(c, s) && s.doneCh == [true, true, true, true] && s.main.Waiting?
    ensures s.tar.Failing? && s.tarCount.pending == [] && !Enabled(c, s, Tar(TarReport))
  {
    s := UL.Begin(c, store);
    hide Reachable;
    s := UL.TakeStep(c, s, Tar(TarFail));
    s := ExpireOnce(c, s);
    s := ExpireOnce(c, s);
    s := ExpireOnce(c, s);
    s := ExpireOnce(c, s);
  }

  lemma ExpireOnce(c: Config, s0: State) returns (s: State)
    requires Reachable(c, s0) && s0.heartbeat.Beating? && s0.main.Waiting? && |s0.doneCh| < 4
    ensures Reachable(c, s) && s == s0.(doneCh := s0.doneCh + [true], ctxDone := true)
  {
    hide Reachable;
    s := UL.TakeStep(c, s0, Heartbeat(Expire));
    s := UL.TakeStep(c, s, Heartbeat(HeartbeatReport));
    s := UL.TakeStep(c, s, Heartbeat(HeartbeatCancel));
  }

  /* ---------- the chunk stage is a run of the fan-out/fan-in ---------- */

  function FanActs(past: seq<Action>): seq<F.Action> {
    if past == [] then []
    else
      FanActs(past[..|past| - 1])
      + (match past[|past| - 1] case Chunk(ChunkFan(a)) => [a] case _ => [])
  }

  lemma ChunkTouchesFan(c: Config, s: State, t: ChunkStep)
    requires ChunkCan(c, s, t)
    ensures
      if t.ChunkFan? then
        F.Enabled(c.fan, s.fan, t.a) && FanMeets(s, t.a) && ChunkStepped(c, s, t).fan == F.Apply(c.fan, s.fan, t.a)
      else ChunkStepped(c, s, t).fan == s.fan
  {
    hide F.Enabled, F.Apply;
  }

  lemma FanTouched(c: Config, s: State, a: Action)
    requires Enabled(c, s, a)
    ensures
      var t := Apply(c, s, a);
      if a.Chunk? && a.chunk.ChunkFan? then
        F.Enabled(c.fan, s.fan, a.chunk.a) && t.fan == F.Apply(c.fan, s.fan, a.chunk.a) && FanMeets(s, a.chunk.a)
      else t.fan == s.fan
  {
    StepLeaves(c, s, a);
    hide TarStepped, CountStepped, ChunkStepped, IndexStepped, HeartbeatStepped, MainStepped, FanMeets;
    hide F.Enabled, F.Apply;
    if a.Chunk? {
      ChunkTouchesFan(c, s, a.chunk);
    }
  }

  lemma {:induction false} FanRuns(c: Config, store: map<Bytes, Bytes>, acts: seq<Action>)
    requires Starts(c, store, acts)
    ensures FS.Starts(c.fan, store, FanActs(acts))
    ensures F.Run(c.fan, F.Init(store), FanActs(acts)) == Run(c, Init(store), acts).fan
    ensures F.Collect(F.WriteFails) !in FanActs(acts)
    decreases |acts|
  {
    if acts != [] {
      var before, a, s := StepBack(c, store, acts);
      FanRuns(c, store, before);
      FanTouched(c, s, a);
      assert acts[|acts| - 1] == a;
      hide Reachable, Enabled, Apply, F.Enabled, F.Apply;
      if a.Chunk? && a.chunk.ChunkFan? {
        FS.RunExtends(c.fan, F.Init(store), FanActs(before), a.chunk.a);
      } else {
        assert FanActs(acts) == FanActs(before);
      }
    }
  }

  /* ---------- a run without faults ---------- */

  /** Something went wrong, beyond what is tried again. */
  ghost predicate SomeFault(past: seq<Action>) {
    || ParentCancel in past || Heartbeat(Expire) in past || Tar(TarFail) in past
    || IndexFailures(past) >= 3 || MetadataFailures(past) >= 3 || Main(AnnounceFails) in past
    || exists i :: FH.Faulty(FanActs(past), i)
  }

  lemma FaultsStay(past: seq<Action>, a: Action)
    requires SomeFault(past)
    ensures SomeFault(past + [a])
  {
    IndexPastGrows(past, a);
    MainPastGrows(past, a);
    hide FH.Faulty, IndexFailures, MetadataFailures;
    assert (past + [a])[..|past|] == past;
    if i :| FH.Faulty(FanActs(past), i) {
      if a.Chunk? && a.chunk.ChunkFan? {
        FH.FaultStays(FanActs(past), a.chunk.a, i);
      } else {
        assert FanActs(past) + [] == FanActs(past);
      }
      assert FH.Faulty(FanActs(past + [a]), i);
    }
  }

  /** No stage has failed, and the context lives. */
  predicate Untroubled(s: State) {
    && !s.ctxDone && true !in s.doneCh && s.heartbeat.Beating?
    && !s.tar.Failing? && (s.tar.Closing? || s.tar.Closed? ==> !s.tar.failed)
    && !(s.fan.fanIn.Returned? && s.fan.fanIn.failed)
    && s.index != IndexReporting(true)
    && s.main != MainReturned(true)
  }

  predicate Healthy(s: State) {
    s.main == MainReturned(false) || Untroubled(s)
  }

  lemma TarStaysUntroubled(c: Config, s: State, t: TarStep)
    requires Untroubled(s) && TarCan(c, s, t) && !t.TarFail?
    ensures Untroubled(TarStepped(c, s, t))
  {
  }

  lemma IndexStaysUntroubled(s: State, t: IndexStep)
    requires Untroubled(s) && IndexCan(s, t)
    requires t.IndexCallFails? ==> s.index.attempts < 2
    ensures Untroubled(IndexStepped(s, t))
  {
  }

  lemma MainStaysHealthy(s: State, t: MainStep)
    requires Untroubled(s) && MainCan(s, t) && !t.AnnounceFails?
    requires t.MetadataCallFails? ==> s.main.attempts < 2
    ensures Healthy(MainStepped(s, t))
  {
  }

  lemma ChunkStaysUntroubled(c: Config, s: State, t: ChunkStep)
    requires Untroubled(s) && ChunkCan(c, s, t) && !s.chunk.Failing?
    requires t.ChunkFan? ==> var fan := F.Apply(c.fan, s.fan, t.a); !(fan.fanIn.Returned? && fan.fanIn.failed)
    ensures Untroubled(ChunkStepped(c, s, t))
  {
    hide F.Enabled, F.Apply;
  }

  lemma FanFailsForCause(c: Config, store: map<Bytes, Bytes>, acts: seq<Action>)
    requires Starts(c, store, acts) && !Run(c, Init(store), acts).fan.cancelled
    ensures
      var s := Run(c, Init(store), acts);
      s.fan.fanIn.Returned? && s.fan.fanIn.failed ==> exists i :: FH.Faulty(FanActs(acts), i)
  {
    FanRuns(c, store, acts);
    FH.EndsArePast(c.fan, store, FanActs(acts));
    FH.FailsForCause(c.fan, store, FanActs(acts));
    assert Reachable(c, Run(c, Init(store), acts));
    ReachableInv(c, Run(c, Init(store), acts));
    hide Reachable, FS.Reachable, FH.Faulty;
  }

  lemma IndexCallsLeft(c: Config, store: map<Bytes, Bytes>, before: seq<Action>, s: State, t: IndexStep)
    requires Starts(c, store, before) && s == Run(c, Init(store), before) && IndexCan(s, t)
    requires IndexFailures(before + [Action.Index(t)]) < 3
    ensures t.IndexCallFails? ==> s.index.attempts < 2
  {
    IndexEndsForCause(c, store, before);
    IndexPastGrows(before, Action.Index(t));
    hide IndexFailures;
  }

  lemma MetadataCallsLeft(c: Config, store: map<Bytes, Bytes>, before: seq<Action>, s: State, t: MainStep)
    requires Starts(c, store, before) && s == Run(c, Init(store), before) && MainCan(s, t)
    requires MetadataFailures(before + [Main(t)]) < 3
    ensures t.MetadataCallFails? ==> s.main.attempts < 2
  {
    MainEndsForCause(c, store, before);
    MainPastGrows(before, Main(t));
    hide MetadataFailures;
  }

  /** The fan-out/fan-in of a live network has not been cancelled, nor will be by its next step. */
  lemma LiveFanIsUncancelled(c: Config, s: State, t: ChunkStep)
    requires StagesEnd(c, s) && !s.ctxDone && ChunkCan(c, s, t)
    ensures !ChunkStepped(c, s, t).fan.cancelled
  {
    if t.ChunkFan? {
      FS.StepFrame(c.fan, s.fan, t.a);
    }
    hide FS.Reachable, F.Enabled, F.Apply;
  }

  lemma ChunkStaysHealthy(c: Config, store: map<Bytes, Bytes>, before: seq<Action>, s: State, t: ChunkStep)
    requires Starts(c, store, before + [Chunk(t)]) && Reachable(c, s) && ChunkCan(c, s, t)
    requires Run(c, Init(store), before + [Chunk(t)]) == ChunkStepped(c, s, t)
    requires Untroubled(s) && !exists i :: FH.Faulty(FanActs(before + [Chunk(t)]), i)
    ensures Untroubled(ChunkStepped(c, s, t))
  {
    ReachableInv(c, s);
    LiveFanIsUncancelled(c, s, t);
    FanFailsForCause(c, store, before + [Chunk(t)]);
    assert !s.chunk.Failing?;
    assert t.ChunkFan? ==> ChunkStepped(c, s, t).fan == F.Apply(c.fan, s.fan, t.a);
    hide Inv, Reachable, FH.Faulty, F.Enabled, F.Apply, ChunkStepped, ChunkCan;
    ChunkStaysUntroubled(c, s, t);
  }

  lemma StepStaysHealthy(c: Config, store: map<Bytes, Bytes>, before: seq<Action>, s: State, a: Action)
    requires Starts(c, store, before + [a]) && Starts(c, store, before)
    requires s == Run(c, Init(store), before) && Enabled(c, s, a) && Reachable(c, s)
    requires Run(c, Init(store), before + [a]) == Apply(c, s, a)
    requires Untroubled(s) && !SomeFault(before + [a])
    ensures Healthy(Apply(c, s, a))
  {
    NoFaultIn(before, a);
    StepLeaves(c, s, a);
    hide Reachable, SomeFault, Healthy, Untroubled, OnlyMain;
    hide TarStepped, CountStepped, ChunkStepped, IndexStepped, HeartbeatStepped, MainStepped;
    match a {
      case Tar(t) => TarStaysUntroubled(c, s, t);
      case Count(t) => CountStaysUntroubled(s, t);
      case Chunk(t) => ChunkStaysHealthy(c, store, before, s, t);
      case Index(t) =>
        IndexCallsLeft(c, store, before, s, t);
        IndexStaysUntroubled(s, t);
      case Heartbeat(t) => HeartbeatOnlyExpires(s, t);
      case Main(t) =>
        MetadataCallsLeft(c, store, before, s, t);
        MainStaysHealthy(s, t);
      case ParentCancel =>
    }
    UntroubledIsHealthy(Apply(c, s, a));
  }

  lemma UntroubledIsHealthy(s: State)
    ensures Untroubled(s) ==> Healthy(s)
  {
  }

  lemma CountStaysUntroubled(s: State, t: CountStep)
    requires Untroubled(s) && CountCan(s, t)
    ensures Untroubled(CountStepped(s, t))
  {
  }

  lemma HeartbeatOnlyExpires(s: State, t: HeartbeatStep)
    requires Untroubled(s) && HeartbeatCan(s, t)
    ensures t == Expire
  {
  }

  /** What a run without a fault cannot contain. */
  lemma NoFaultIn(before: seq<Action>, a: Action)
    requires !SomeFault(before + [a])
    ensures a != ParentCancel && a != Heartbeat(Expire) && a != Tar(TarFail) && a != Main(AnnounceFails)
    ensures IndexFailures(before + [a]) < 3 && MetadataFailures(before + [a]) < 3
    ensures !exists i :: FH.Faulty(FanActs(before + [a]), i)
  {
    hide IndexFailures, MetadataFailures, FH.Faulty, FanActs;
    assert a in before + [a];
  }

  /** start fails only if the caller cancelled, the upload expired, tar failed, the announcement
      was not acknowledged, a call failed three times, or a worker could not check for its chunk. */
  lemma {:induction false} FailsForCause(c: Config, store: map<Bytes, Bytes>, acts: seq<Action>)
    requires Starts(c, store, acts) && !SomeFault(acts)
    ensures Healthy(Run(c, Init(store), acts))
    decreases |acts|
  {
    if acts != [] {
      var before, a, s := StepBack(c, store, acts);
      if SomeFault(before) {
        FaultsStay(before, a);
      }
      FailsForCause(c, store, before);
      ContextTouched(c, s, a);
      hide SomeFault, Untroubled, Enabled, Apply, Reachable;
      if Untroubled(s) {
        StepStaysHealthy(c, store, before, s, a);
      }
    }
  }

  /** So a run without such a fault in which start has returned has committed the dataset, even
      though up to two calls of each kind may have failed. */
  lemma FaultlessUploadCommits(c: Config, store: map<Bytes, Bytes>, acts: seq<Action>)
    requires Starts(c, store, acts) && Run(c, Init(store), acts).main.MainReturned? && !SomeFault(acts)
    ensures
      var s := Run(c, Init(store), acts);
      s.main == MainReturned(false) && s.acknowledged && Committed(c, s)
  {
    FailsForCause(c, store, acts);
    var s := Run(c, Init(store), acts);
    assert Reachable(c, s);
    hide Reachable, SomeFault, Committed;
    NilMeansAcknowledged(c, s);
  }

  /* ---------- who is left behind ---------- */

  /** tar waits in a Write for the count, which has stopped reading. */
  predicate TarStuck(s: State) {
    !s.count.Counting? && s.tarCount.pending != []
  }

  lemma CountKeepsTarStuck(s: State, t: CountStep)
    requires TarStuck(s) && CountCan(s, t)
    ensures TarStuck(CountStepped(s, t)) && CountStepped(s, t).tar == s.tar
  {
  }

  lemma StepKeepsTarStuck(c: Config, s: State, a: Action)
    requires TarStuck(s) && Enabled(c, s, a)
    ensures TarStuck(Apply(c, s, a)) && Apply(c, s, a).tar == s.tar
  {
    StepLeaves(c, s, a);
    hide TarStepped, CountStepped, ChunkStepped, IndexStepped, HeartbeatStepped, MainStepped;
    if a.Count? {
      CountKeepsTarStuck(s, a.count);
    }
  }

  lemma {:induction false} TarStaysStuck(c: Config, s: State, acts: seq<Action>)
    requires TarStuck(s) && Valid(c, s, acts)
    ensures TarStuck(Run(c, s, acts)) && Run(c, s, acts).tar == s.tar
    decreases |acts|
  {
    hide Enabled, Apply;
    if acts != [] {
      StepKeepsTarStuck(c, s, acts[0]);
      TarStaysStuck(c, Apply(c, s, acts[0]), acts[1..]);
    }
  }

  lemma CountIsCancelled(c: Config, store: map<Bytes, Bytes>) returns (s: State)
    requires c.fan.mode.Upload? && FS.WellKeyed(c.fan, store) && c.archive != []
    ensures Reachable(c, s) && TarStuck(s) && s.tar.Working? && s.ctxDone
    ensures s.fan == F.Init(store) && s.chunk.Working? && s.chunksIndex == Pipes.Pipe([], false)
    ensures s.doneCh == [] && s.main.Waiting?
  {
    s := UL.Begin(c, store);
    hide Reachable, FS.WellKeyed;
    s := UL.TakeStep(c, s, Tar(TarWrite(1)));
    s := UL.TakeStep(c, s, ParentCancel);
    s := UL.TakeStep(c, s, Action.Count(CountStop));
  }

  /** It happens: a cancelled count leaves tar in a Write that never returns, in any continuation,
      although start has long returned an error. */
  lemma TarIsLeftBehind(c: Config, store: map<Bytes, Bytes>) returns (s: State)
    requires c.fan.mode.Upload? && FS.WellKeyed(c.fan, store) && c.archive != []
    ensures Reachable(c, s) && s.main == MainReturned(true) && s.tar.Working?
    ensures forall acts :: Valid(c, s, acts) ==> Run(c, s, acts).tar.Working?
  {
    s := CountIsCancelled(c, store);
    hide Reachable, FS.WellKeyed;
    s := UL.TakeStep(c, s, Chunk(ChunkFan(F.Cancel)));
    s := UL.TakeStep(c, s, Chunk(ChunkFan(F.Collect(F.StopSelecting))));
    s := UL.TakeStep(c, s, Chunk(ChunkReturn));
    s := UL.TakeStep(c, s, Chunk(ChunkReport));
    s := UL.TakeStep(c, s, Main(TakeDone));
    forall acts | Valid(c, s, acts) ensures Run(c, s, acts).tar.Working? {
      TarStaysStuck(c, s, acts);
    }
  }
}
