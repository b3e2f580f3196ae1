/** Every run of the upload ends: the number of its steps is bounded by the length of the
    archive, not counting what the outside world does and reads that find nothing. As start is
    never stuck (UploadLiveness.NeverStuck) this means that it returns. */
module UploadBounded {
  import opened Prelude
  import opened Pipes
  import opened UploadProcess
  import opened UploadSafety
  import Ix = Index
  import F = FanOut
  import FS = FanOutSafety
  import FB = FanOutBounded
  import UL = UploadLiveness

  /* ---------- the steps still ahead ---------- */

  function CountRank(pc: CountPc): nat {
    match pc
    case Counting => 2
    case CountClosing => 1
    case CountClosed => 0
  }

  function IndexRank(pc: IndexPc): nat {
    match pc
    case Gathering => 8
    case IndexTrying(n) => 2 * RetriesLeft(n) + 3
    case IndexCalling(n) => 2 * RetriesLeft(n) + 2
    case IndexReporting(_) => 1
    case IndexFinished => 0
  }

  function HeartbeatRank(pc: HeartbeatPc): nat {
    match pc
    case Expired => 2
    case Cancelling => 1
    case Beating => 0
  }

  function MainRank(pc: MainPc): nat {
    match pc
    case Waiting => 9
    case AwaitingCount => 8
    case MetadataTrying(n, _) => 2 * RetriesLeft(n) + 3
    case MetadataCalling(n, _) => 2 * RetriesLeft(n) + 2
    case Announcing => 1
    case MainReturned(_) => 0
  }

  function Ranks(s: State): nat {
    StageRank(s.tar) + CountRank(s.count) + StageRank(s.chunk) + IndexRank(s.index)
    + HeartbeatRank(s.heartbeat) + MainRank(s.main)
  }

  /** Each byte pays for its way through the pipes, and for a chunk of its own. */
  function InFlow(c: Config, s: State): int {
    83 * (|c.archive| - s.written) + 82 * |s.tarCount.pending| + 81 * |s.countChunks.pending| + 80 * |s.chunkBuffer|
  }

  /** The index text that is in the pipe or will be, 65 bytes for each chunk. */
  function IndexAhead(s: State): int {
    |s.chunksIndex.pending| + 65 * (|s.fan.items| - |s.fan.out|)
  }

  function StepsLeft(c: Config, s: State): int {
    InFlow(c, s) + IndexAhead(s) + Ranks(s) + FB.StepsLeft(s.fan)
  }

  /** What is charged to the outside: the caller's cancellation, an expired heartbeat with what
      it sets off, other uploads; and reads of nothing. */
  function Charge(a: Action): nat {
    match a
    case ParentCancel => 1
    case Heartbeat(Expire) => 3
    case Chunk(ChunkFan(ForeignUpload(_))) => 1
    case Chunk(ChunkFill(n)) => if n == 0 then 1 else 0
    case Index(IndexRead(n)) => if n == 0 then 1 else 0
    case _ => 0
  }

  function Charges(acts: seq<Action>): nat {
    if acts == [] then 0 else Charge(acts[0]) + Charges(acts[1..])
  }

  /* ---------- each step uses one up ---------- */

  lemma TarUsesStep(c: Config, s: State, t: TarStep)
    requires TarCan(c, s, t)
    ensures StepsLeft(c, TarStepped(c, s, t)) + 1 <= StepsLeft(c, s)
  {
    hide FB.StepsLeft;
  }

  lemma CountUsesStep(c: Config, s: State, t: CountStep)
    requires CountCan(s, t)
    ensures StepsLeft(c, CountStepped(s, t)) + 1 <= StepsLeft(c, s)
  {
    hide FB.StepsLeft;
  }

  lemma IndexUsesStep(c: Config, s: State, t: IndexStep)
    requires IndexCan(s, t)
    ensures StepsLeft(c, IndexStepped(s, t)) + 1 <= StepsLeft(c, s) + Charge(Action.Index(t))
  {
    hide FB.StepsLeft;
  }

  lemma HeartbeatUsesStep(c: Config, s: State, t: HeartbeatStep)
    requires HeartbeatCan(s, t)
    ensures StepsLeft(c, HeartbeatStepped(s, t)) + 1 <= StepsLeft(c, s) + Charge(Heartbeat(t))
  {
    hide FB.StepsLeft;
  }

  lemma MainMovesOn(s: State, t: MainStep)
    requires MainCan(s, t)
    ensures MainRank(MainStepped(s, t).main) + 1 <= MainRank(s.main)
  {
  }

  lemma MainUsesStep(c: Config, s: State, t: MainStep)
    requires MainCan(s, t)
    ensures StepsLeft(c, MainStepped(s, t)) + 1 <= StepsLeft(c, s)
  {
    MainMovesOn(s, t);
    MainTouchesMain(s, t);
    hide FB.StepsLeft, MainStepped, MainRank, MainCan;
  }

  lemma CutUsesStep(c: Config, s: State, item: Bytes)
    requires ChunkCan(c, s, ChunkFan(F.Produce(F.ReadItem(item)))) && c.fan.mode.Upload?
    requires FB.StepsLeft(F.Apply(c.fan, s.fan, F.Produce(F.ReadItem(item)))) + 1
          <= FB.StepsLeft(s.fan) + FB.STEPS_PER_ITEM
    ensures StepsLeft(c, ChunkStepped(c, s, ChunkFan(F.Produce(F.ReadItem(item))))) + 1 <= StepsLeft(c, s)
  {
    hide FB.StepsLeft, StageRank, CountRank, IndexRank, HeartbeatRank, MainRank;
  }

  lemma WriteUsesStep(c: Config, s: State)
    requires ChunkCan(c, s, ChunkFan(F.Collect(F.WriteResult))) && c.fan.mode.Upload?
    requires FB.StepsLeft(F.Apply(c.fan, s.fan, F.Collect(F.WriteResult))) + 1 <= FB.StepsLeft(s.fan)
    ensures StepsLeft(c, ChunkStepped(c, s, ChunkFan(F.Collect(F.WriteResult)))) + 1 <= StepsLeft(c, s)
  {
    Ix.EncodeShape(F.ResultOf(c.fan, s.fan, s.fan.fanIn.item));
    hide FB.StepsLeft, StageRank, CountRank, IndexRank, HeartbeatRank, MainRank;
  }

  lemma OtherFanUsesStep(c: Config, s: State, a: F.Action)
    requires ChunkCan(c, s, ChunkFan(a)) && a != F.Collect(F.WriteResult) && !(a.Produce? && a.p.ReadItem?)
    requires FB.StepsLeft(F.Apply(c.fan, s.fan, a)) + 1 <= FB.StepsLeft(s.fan) + FB.Allowance(a)
    ensures StepsLeft(c, ChunkStepped(c, s, ChunkFan(a))) + 1 <= StepsLeft(c, s) + Charge(Chunk(ChunkFan(a)))
  {
    FS.StepFrame(c.fan, s.fan, a);
    hide FB.StepsLeft, StageRank, CountRank, IndexRank, HeartbeatRank, MainRank, F.Enabled, F.Apply;
  }

  lemma FanUsesStep(c: Config, s: State, a: F.Action)
    requires FS.Reachable(c.fan, s.fan) && c.fan.mode.Upload? && ChunkCan(c, s, ChunkFan(a))
    ensures StepsLeft(c, ChunkStepped(c, s, ChunkFan(a))) + 1 <= StepsLeft(c, s) + Charge(Chunk(ChunkFan(a)))
  {
    FS.ReachableInv(c.fan, s.fan);
    FB.StepIsPaidFor(c.fan, s.fan, a);
    hide FS.Inv, FS.Reachable, FB.StepsLeft, F.Enabled, F.Apply, StepsLeft, ChunkStepped;
    if a.Produce? && a.p.ReadItem? {
      CutUsesStep(c, s, a.p.item);
    } else if a == F.Collect(F.WriteResult) {
      WriteUsesStep(c, s);
    } else {
      OtherFanUsesStep(c, s, a);
    }
  }

  lemma ChunkUsesStep(c: Config, s: State, t: ChunkStep)
    requires FS.Reachable(c.fan, s.fan) && c.fan.mode.Upload? && ChunkCan(c, s, t)
    ensures StepsLeft(c, ChunkStepped(c, s, t)) + 1 <= StepsLeft(c, s) + Charge(Chunk(t))
  {
    if t.ChunkFan? {
      hide StepsLeft, ChunkStepped, ChunkCan, Charge;
      FanUsesStep(c, s, t.a);
    } else {
      hide FB.StepsLeft, FS.Reachable, CountRank, IndexRank, HeartbeatRank, MainRank;
    }
  }

  lemma StepIsPaidFor(c: Config, s: State, a: Action)
    requires Inv(c, s) && Enabled(c, s, a)
    ensures StepsLeft(c, Apply(c, s, a)) + 1 <= StepsLeft(c, s) + Charge(a)
  {
    match a
    case Tar(t) => TarUsesStep(c, s, t);
    case Count(t) => CountUsesStep(c, s, t);
    case Chunk(t) => ChunkUsesStep(c, s, t);
    case Index(t) => IndexUsesStep(c, s, t);
    case Heartbeat(t) => HeartbeatUsesStep(c, s, t);
    case Main(t) => MainUsesStep(c, s, t);
    case ParentCancel =>
  }

  /* ---------- every run ends ---------- */

  lemma {:induction false} AtLeastItsIndex(ns: seq<nat>, j: nat)
    requires FS.Increasing(ns) && j < |ns|
    ensures ns[j] >= j
  {
    if j > 0 {
      AtLeastItsIndex(ns, j - 1);
    }
  }

  lemma OutWithinItems(c: F.Config, s: F.State)
    requires FS.Reachable(c, s)
    ensures |s.out| <= |s.items|
  {
    FS.ReachableInv(c, s);
    if s.sent != [] {
      AtLeastItsIndex(s.sent, |s.sent| - 1);
    }
    hide FS.Reachable, FS.WorkersMatch, FS.ProgressMatches, FS.WellKeyed;
  }

  lemma NothingOwed(c: Config, s: State)
    requires Inv(c, s)
    ensures StepsLeft(c, s) >= 0
  {
    OutWithinItems(c.fan, s.fan);
    hide FS.Reachable, FB.StepsLeft, Ranks;
  }

  lemma {:induction false} RunIsPaidFor(c: Config, s: State, acts: seq<Action>)
    requires Inv(c, s) && Valid(c, s, acts)
    ensures |acts| <= StepsLeft(c, s) + Charges(acts)
    decreases |acts|
  {
    hide Inv, StepsLeft, Charge, Enabled, Apply;
    if acts == [] {
      NothingOwed(c, s);
    } else {
      StepIsPaidFor(c, s, acts[0]);
      StepKeepsInv(c, s, acts[0]);
      RunIsPaidFor(c, Apply(c, s, acts[0]), acts[1..]);
    }
  }

  /** No run of an upload has more than 83 steps for each byte of the archive and 30 besides,
      apart from what is charged to the outside. */
  lemma RunsAreBounded(c: Config, store: map<Bytes, Bytes>, acts: seq<Action>)
    requires Starts(c, store, acts)
    ensures |acts| <= 83 * |c.archive| + 30 + Charges(acts)
  {
    InitInv(c, store);
    hide Inv;
    RunIsPaidFor(c, Init(store), acts);
  }

  lemma MoveIsFree(a: Action)
    requires UL.Moves(a)
    ensures Charge(a) == 0
  {
  }

  /** From every state of every run the program itself can bring start to return, whatever has
      failed, expired or been cancelled before. */
  lemma {:induction false} StartCanReturn(c: Config, s: State) returns (acts: seq<Action>)
    requires Reachable(c, s)
    ensures Valid(c, s, acts) && Run(c, s, acts).main.MainReturned?
    ensures forall a :: a in acts ==> UL.Moves(a)
    decreases StepsLeft(c, s)
  {
    if s.main.MainReturned? {
      acts := [];
    } else {
      UL.NeverStuck(c, s);
      hide Reachable, UL.Moves, Enabled, Apply, Inv, StepsLeft, Charge;
      var a :| UL.Moves(a) && Enabled(c, s, a);
      var t := UL.TakeStep(c, s, a);
      ReachableInv(c, s);
      ReachableInv(c, t);
      StepIsPaidFor(c, s, a);
      MoveIsFree(a);
      NothingOwed(c, s);
      var rest := StartCanReturn(c, t);
      acts := [a] + rest;
      assert acts[1..] == rest;
    }
  }

  /* ---------- a cancelled upload ---------- */

  /** A step that only winds the upload up: it reads nothing of the archive, no worker moves, and
      no call is started. */
  predicate Winds(a: Action) {
    match a
    case Chunk(ChunkFan(f)) => f.Cancel? || (f.Collect? && !f.f.TakeItem? && !f.f.TakeResult?)
    case Chunk(ChunkFill(_)) => false
    case Index(IndexRead(n)) => n > 0
    case Index(t) => !t.IndexTry?
    case Main(t) => !t.MetadataTry?
    case Chunk(_) => true
    case _ => false
  }

  ghost predicate CanWind(c: Config, s: State) {
    exists a :: Winds(a) && Enabled(c, s, a)
  }

  lemma MainWinds(c: Config, s: State)
    requires Reachable(c, s) && s.ctxDone && !s.main.MainReturned? && (s.main.Waiting? ==> s.doneCh != [])
    ensures CanWind(c, s)
  {
    if s.main.AwaitingCount? {
      CountFailureNeverReached(c, s);
    }
    hide Reachable;
    var t := match s.main
      case Waiting => TakeDone
      case AwaitingCount => TakeCount
      case MetadataTrying(_, _) => MetadataStop
      case MetadataCalling(_, _) => MetadataCallWorks
      case _ => AnnounceWorks;
    assert Enabled(c, s, Main(t)) && Winds(Main(t));
  }

  lemma FanWinds(c: Config, s: State)
    requires StagesEnd(c, s) && s.ctxDone && s.chunksIndex == Pipe([], false) && !s.fan.fanIn.Returned?
    ensures CanWind(c, s)
  {
    FS.WritingHasItem(c.fan, s.fan);
    hide StagesEnd, FS.Reachable;
    var f := if !s.fan.cancelled then F.Cancel
             else match s.fan.fanIn
               case Selecting => F.Collect(F.StopSelecting)
               case Awaiting(_) => F.Collect(F.StopAwaiting)
               case _ => F.Collect(F.WriteResult);
    assert F.Enabled(c.fan, s.fan, f) && FanMeets(s, f);
    assert Enabled(c, s, Chunk(ChunkFan(f))) && Winds(Chunk(ChunkFan(f)));
  }

  lemma ChunkWinds(c: Config, s: State)
    requires Inv(c, s) && s.ctxDone && s.main.Waiting? && s.doneCh == [] && s.chunksIndex == Pipe([], false)
    ensures CanWind(c, s)
  {
    if s.chunk.Working? && !s.fan.fanIn.Returned? {
      FanWinds(c, s);
    } else {
      hide FS.Reachable;
      var t := match s.chunk
        case Working => ChunkReturn
        case Failing => ChunkReport
        case _ => ChunkClose;
      assert Enabled(c, s, Chunk(t)) && Winds(Chunk(t));
    }
  }

  lemma IndexWinds(c: Config, s: State)
    requires s.ctxDone && s.main.Waiting? && s.doneCh == [] && !s.index.IndexFinished?
    requires s.index.Gathering? ==> s.chunksIndex.pending != [] || s.chunksIndex.closed
    ensures CanWind(c, s)
  {
    var t := match s.index
      case Gathering => if s.chunksIndex.pending != [] then IndexRead(|s.chunksIndex.pending|) else IndexEof
      case IndexTrying(_) => IndexStop
      case IndexCalling(_) => IndexCallWorks
      case _ => IndexReport;
    assert Enabled(c, s, Action.Index(t)) && Winds(Action.Index(t));
  }

  lemma CancelledWinds(c: Config, s: State)
    requires Reachable(c, s) && s.ctxDone && !s.main.MainReturned?
    ensures CanWind(c, s)
  {
    if !s.main.Waiting? || s.doneCh != [] {
      MainWinds(c, s);
    } else {
      ReachableInv(c, s);
      assert !s.index.IndexFinished?;
      hide Inv, Reachable;
      if s.index.Gathering? && s.chunksIndex == Pipe([], false) {
        ChunkWinds(c, s);
      } else {
        IndexWinds(c, s);
      }
    }
  }

  lemma WindingIsFree(c: Config, s: State, a: Action)
    requires Winds(a) && Enabled(c, s, a) && s.ctxDone
    ensures Charge(a) == 0 && Apply(c, s, a).ctxDone
  {
    hide F.Enabled, F.Apply;
  }

  /** Once the context is done start can return without a further byte of the archive, a worker's
      help or another call: the end of the context reaches every select it has to. */
  lemma {:induction false} CancelledStartCanReturn(c: Config, s: State) returns (acts: seq<Action>)
    requires Reachable(c, s) && s.ctxDone
    ensures Valid(c, s, acts) && Run(c, s, acts).main.MainReturned?
    ensures forall a :: a in acts ==> Winds(a)
    decreases StepsLeft(c, s)
  {
    if s.main.MainReturned? {
      acts := [];
    } else {
      CancelledWinds(c, s);
      hide Reachable, Winds, Enabled, Apply, Inv, StepsLeft, Charge;
      var a :| Winds(a) && Enabled(c, s, a);
      var t := UL.TakeStep(c, s, a);
      ReachableInv(c, s);
      ReachableInv(c, t);
      StepIsPaidFor(c, s, a);
      WindingIsFree(c, s, a);
      NothingOwed(c, s);
      var rest := CancelledStartCanReturn(c, t);
      acts := [a] + rest;
      assert acts[1..] == rest;
    }
  }
}
