/** Every run of the download ends: the number of its steps is bounded by the lengths of the
    index and of what is handed to untar, not counting what the outside world does, the entries
    of the archive, and reads that find nothing. As start is never stuck
    (DownloadLiveness.NeverStuck) this means that it returns. */
module DownloadBounded {
  import opened Prelude
  import opened Pipes
  import opened DownloadProcess
  import opened DownloadSafety
  import Index
  import F = FanOut
  import FS = FanOutSafety
  import FB = FanOutBounded
  import DL = DownloadLiveness

  /* ---------- the steps still ahead ---------- */

  function FetchRank(pc: FetchPc): nat {
    match pc
    case FetchTrying(n) => 2 * RetriesLeft(n) + 4
    case FetchCalling(n) => 2 * RetriesLeft(n) + 3
    case FetchWriting => 2
    case FetchFailing => 2
    case FetchClosing(_) => 1
    case FetchClosed(_) => 0
  }

  function UntarRank(pc: UntarPc): nat {
    match pc
    case UntarChecking => 3
    case UntarReading => 2
    case UntarReporting(_) => 1
    case UntarFinished => 0
  }

  function MainRank(pc: MainPc): nat {
    if pc.MainWaiting? then 1 else 0
  }

  function Ranks(s: State): nat {
    FetchRank(s.fetch) + StageRank(s.chunk) + UntarRank(s.untar) + MainRank(s.main)
  }

  /** The index text that has not been written to the pipe yet. */
  function Unwritten(c: Config, s: State): nat {
    if c.index.Some? && (s.fetch.FetchTrying? || s.fetch.FetchCalling? || s.fetch.FetchWriting?)
    then |c.index.value| else 0
  }

  /** Each byte of the index pays for its way to the reader, and for a key of its own. */
  function InFlow(c: Config, s: State): nat {
    17 * Unwritten(c, s) + 17 * |s.indexChunks.pending| + 16 * |s.scan|
  }

  function StepsLeft(c: Config, s: State): nat {
    InFlow(c, s) + Ranks(s) + FB.StepsLeft(s.fan)
  }

  /** What is charged to the outside: the caller's cancellation, other uploads, the entries of
      the archive; and reads of nothing. */
  function Charge(s: State, a: Action): nat {
    match a
    case ParentCancel => 1
    case Untar(UntarNextEntry) => 2
    case Untar(UntarRead(n)) => if n == 0 then 1 else 0
    case Chunk(ChunkScan) => if s.indexChunks.pending == [] then 1 else 0
    case Chunk(ChunkFan(ForeignUpload(_))) => 1
    case _ => 0
  }

  function Charges(c: Config, s: State, acts: seq<Action>): nat
    requires Valid(c, s, acts)
    decreases |acts|
  {
    if acts == [] then 0 else Charge(s, acts[0]) + Charges(c, Apply(c, s, acts[0]), acts[1..])
  }

  /** A step uses one up, or moves bytes on to untar. */
  predicate PaidFor(c: Config, s: State, a: Action, t: State) {
    StepsLeft(c, t) + 1 + |s.got| <= StepsLeft(c, s) + |t.got| + Charge(s, a)
  }

  /* ---------- each step uses one up ---------- */

  lemma FetchUsesStep(c: Config, s: State, t: FetchStep)
    requires FetchCan(c, s, t) && (t.FetchWrite? ==> s.indexChunks.pending == [])
    ensures PaidFor(c, s, Fetch(t), FetchStepped(c, s, t))
  {
    hide FB.StepsLeft;
  }

  lemma UntarUsesStep(c: Config, s: State, t: UntarStep)
    requires UntarCan(c, s, t)
    ensures PaidFor(c, s, Untar(t), UntarStepped(c, s, t))
  {
    hide FB.StepsLeft;
  }

  lemma KeyShortensText(text: Bytes)
    requires Index.NextKey(text).GotKey?
    ensures |Index.Unread(text)| < |text|
  {
  }

  lemma FanUsesStep(c: Config, s: State, a: F.Action)
    requires FS.Reachable(c.fan, s.fan) && ChunkCan(c, s, ChunkFan(a))
    ensures PaidFor(c, s, Chunk(ChunkFan(a)), ChunkStepped(c, s, ChunkFan(a)))
  {
    FS.ReachableInv(c.fan, s.fan);
    FB.StepIsPaidFor(c.fan, s.fan, a);
    if a.Produce? && a.p.ReadItem? {
      KeyShortensText(s.scan);
    }
    hide FS.Inv, FS.Reachable, FB.StepsLeft, F.Enabled, F.Apply, Index.NextKey, Index.Unread;
  }

  lemma ChunkUsesStep(c: Config, s: State, t: ChunkStep)
    requires FS.Reachable(c.fan, s.fan) && ChunkCan(c, s, t)
    ensures PaidFor(c, s, Chunk(t), ChunkStepped(c, s, t))
  {
    if t.ChunkFan? {
      FanUsesStep(c, s, t.a);
    } else {
      hide FB.StepsLeft, FS.Reachable;
    }
  }

  lemma NothingBeforeWrite(c: Config, s: State)
    requires Inv(c, s) && s.fetch.FetchWriting?
    ensures s.indexChunks.pending == []
  {
    hide Index.Parse, FS.Reachable;
  }

  lemma TakingUsesStep(c: Config, s: State, a: Action)
    requires Enabled(c, s, a) && (a.TakeDone? || a.ParentCancel?)
    ensures PaidFor(c, s, a, Apply(c, s, a))
  {
    hide FB.StepsLeft, FetchRank, StageRank, UntarRank;
  }

  lemma StepIsPaidFor(c: Config, s: State, a: Action)
    requires Inv(c, s) && Enabled(c, s, a)
    ensures PaidFor(c, s, a, Apply(c, s, a))
  {
    if a.Fetch? && a.fetch.FetchWrite? {
      NothingBeforeWrite(c, s);
    }
    assert FS.Reachable(c.fan, s.fan);
    hide PaidFor, KeysFlow, BytesFlow, StagesEnd, DoneChannel, FS.Reachable;
    hide FetchStepped, ChunkStepped, UntarStepped, FetchCan, UntarCan;
    match a
    case Fetch(t) => FetchUsesStep(c, s, t);
    case Chunk(t) => ChunkUsesStep(c, s, t);
    case Untar(t) => UntarUsesStep(c, s, t);
    case TakeDone => TakingUsesStep(c, s, a);
    case ParentCancel => TakingUsesStep(c, s, a);
  }

  /* ---------- every run ends ---------- */

  lemma {:induction false} RunIsPaidFor(c: Config, s: State, acts: seq<Action>)
    requires Inv(c, s) && Valid(c, s, acts)
    ensures |acts| + |s.got| <= StepsLeft(c, s) + |Run(c, s, acts).got| + Charges(c, s, acts)
    decreases |acts|
  {
    hide Inv, StepsLeft, Charge, Enabled, Apply;
    if acts != [] {
      StepIsPaidFor(c, s, acts[0]);
      StepKeepsInv(c, s, acts[0]);
      RunIsPaidFor(c, Apply(c, s, acts[0]), acts[1..]);
    }
  }

  /** No run of a download has more than 17 steps for each byte of the index, one for each byte
      handed to untar and 20 besides, apart from what is charged to the outside. */
  lemma RunsAreBounded(c: Config, store: map<Bytes, Bytes>, acts: seq<Action>)
    requires Starts(c, store, acts)
    ensures |acts|
      <= 17 * (if c.index.Some? then |c.index.value| else 0) + |Run(c, Init(store), acts).got| + 20
         + Charges(c, Init(store), acts)
  {
    InitInv(c, store);
    hide Inv;
    RunIsPaidFor(c, Init(store), acts);
  }

  lemma MoveIsFree(s: State, a: Action)
    requires DL.Moves(s, a)
    ensures Charge(s, a) == 0
  {
  }

  lemma OtherStepsKeepGot(c: Config, s: State, a: Action)
    requires Enabled(c, s, a) && !(a.Untar? && a.untar.UntarRead?)
    ensures Apply(c, s, a).got == s.got
  {
    hide F.Enabled, F.Apply, Index.NextKey, Index.Unread;
  }

  lemma ReadUsesBytes(c: Config, s: State, n: nat)
    requires UntarCan(c, s, UntarRead(n)) && n > 0
    ensures
      var t := UntarStepped(c, s, UntarRead(n));
      StepsLeft(c, t) == StepsLeft(c, s) && |t.chunksUntar.pending| < |s.chunksUntar.pending|
  {
    hide FB.StepsLeft, FetchRank, StageRank, UntarRank, MainRank;
  }

  lemma MoveUsesStepOrBytes(c: Config, s: State, a: Action)
    requires Inv(c, s) && Enabled(c, s, a) && DL.Moves(s, a)
    ensures
      var t := Apply(c, s, a);
      || StepsLeft(c, t) < StepsLeft(c, s)
      || (StepsLeft(c, t) == StepsLeft(c, s) && |t.chunksUntar.pending| < |s.chunksUntar.pending|)
  {
    if a.Untar? && a.untar.UntarRead? {
      ReadUsesBytes(c, s, a.untar.n);
    } else {
      StepIsPaidFor(c, s, a);
      OtherStepsKeepGot(c, s, a);
      MoveIsFree(s, a);
      hide Inv, Apply, Enabled, DL.Moves, StepsLeft, Charge;
    }
  }

  /** From every state of every run the program itself can bring start to return, whatever has
      failed or been cancelled before. */
  lemma {:induction false} StartCanReturn(c: Config, s: State) returns (acts: seq<Action>)
    requires Reachable(c, s)
    ensures Valid(c, s, acts) && Run(c, s, acts).main.MainReturned?
    ensures ParentCancel !in acts
    decreases StepsLeft(c, s), |s.chunksUntar.pending|
  {
    if s.main.MainReturned? {
      acts := [];
    } else {
      DL.NeverStuck(c, s);
      assert !DL.Moves(s, ParentCancel);
      hide Reachable, DL.Moves, Enabled, Apply, Inv, StepsLeft;
      var a :| DL.Moves(s, a) && Enabled(c, s, a);
      var t := TakeStep(c, s, a);
      ReachableInv(c, s);
      MoveUsesStepOrBytes(c, s, a);
      var rest := StartCanReturn(c, t);
      acts := [a] + rest;
      assert acts[1..] == rest;
    }
  }

  /* ---------- a cancelled download ---------- */

  /** A step that only winds the download up: no key is read, no worker moves, no call is
      started, and untar begins no other entry. */
  predicate Winds(a: Action) {
    match a
    case Chunk(ChunkFan(f)) => f.Cancel? || (f.Collect? && !f.f.TakeItem? && !f.f.TakeResult?)
    case Chunk(ChunkScan) => false
    case Chunk(_) => true
    case Untar(UntarRead(n)) => n > 0
    case Untar(t) => t.UntarStop? || t.UntarEof? || t.UntarReport?
    case TakeDone => true
    case _ => false
  }

  ghost predicate CanWind(c: Config, s: State) {
    exists a :: Winds(a) && Enabled(c, s, a)
  }

  lemma FanWinds(c: Config, s: State)
    requires StagesEnd(c, s) && s.ctxDone && s.chunksUntar == Pipe([], false) && !s.fan.fanIn.Returned?
    ensures CanWind(c, s)
  {
    FS.WritingHasItem(c.fan, s.fan);
    hide StagesEnd, FS.Reachable;
    var f := if !s.fan.cancelled then F.Cancel
             else match s.fan.fanIn
               case Selecting => F.Collect(F.StopSelecting)
               case Awaiting(_) => F.Collect(F.StopAwaiting)
               case _ => F.Collect(F.WriteResult);
    assert F.Enabled(c.fan, s.fan, f) && FanMeets(s, f);
    assert Enabled(c, s, Chunk(ChunkFan(f))) && Winds(Chunk(ChunkFan(f)));
  }

  lemma ChunkWinds(c: Config, s: State)
    requires StagesEnd(c, s) && s.ctxDone && s.main.MainWaiting? && s.doneCh == []
    requires s.chunksUntar == Pipe([], false)
    ensures CanWind(c, s)
  {
    if s.chunk.Working? && !s.fan.fanIn.Returned? {
      FanWinds(c, s);
    } else {
      hide FS.Reachable;
      var t := match s.chunk
        case Working => ChunkReturn
        case Failing => ChunkReport
        case _ => ChunkClose;
      assert Enabled(c, s, Chunk(t)) && Winds(Chunk(t));
    }
  }

  lemma UntarWinds(c: Config, s: State)
    requires s.ctxDone && !s.untar.UntarFinished? && s.main.MainWaiting? && s.doneCh == []
    requires s.untar.UntarReading? ==> s.chunksUntar.pending != [] || s.chunksUntar.closed
    ensures CanWind(c, s)
  {
    var t := match s.untar
      case UntarChecking => UntarStop
      case UntarReading => if s.chunksUntar.pending != [] then UntarRead(|s.chunksUntar.pending|) else UntarEof
      case _ => UntarReport;
    assert Enabled(c, s, Untar(t)) && Winds(Untar(t));
  }

  lemma CancelledWinds(c: Config, s: State)
    requires Reachable(c, s) && s.ctxDone && s.main.MainWaiting?
    ensures CanWind(c, s)
  {
    if s.doneCh != [] {
      assert Enabled(c, s, TakeDone) && Winds(TakeDone);
    } else {
      ReachableInv(c, s);
      hide Reachable, KeysFlow, BytesFlow, DoneChannel;
      assert !s.untar.UntarFinished?;
      if s.untar.UntarReading? && s.chunksUntar == Pipe([], false) {
        ChunkWinds(c, s);
      } else {
        UntarWinds(c, s);
      }
    }
  }

  lemma WindingMoves(c: Config, s: State, a: Action)
    requires Winds(a) && Enabled(c, s, a) && s.ctxDone
    ensures (a.Untar? && a.untar.UntarRead? ==> a.untar.n > 0) && Apply(c, s, a).ctxDone
    ensures Charge(s, a) == 0
  {
    hide F.Enabled, F.Apply, Index.NextKey, Index.Unread;
  }

  lemma WindingUsesStepOrBytes(c: Config, s: State, a: Action)
    requires Inv(c, s) && Enabled(c, s, a) && Winds(a) && s.ctxDone
    ensures
      var t := Apply(c, s, a);
      || StepsLeft(c, t) < StepsLeft(c, s)
      || (StepsLeft(c, t) == StepsLeft(c, s) && |t.chunksUntar.pending| < |s.chunksUntar.pending|)
  {
    WindingMoves(c, s, a);
    if a.Untar? && a.untar.UntarRead? {
      ReadUsesBytes(c, s, a.untar.n);
    } else {
      StepIsPaidFor(c, s, a);
      OtherStepsKeepGot(c, s, a);
      hide Inv, Apply, Enabled, Winds, StepsLeft, Charge;
    }
  }

  /** Once the context is done start can return without a further key, a worker's help, another
      call or another entry: the end of the context reaches every select it has to. */
  lemma {:induction false} CancelledStartCanReturn(c: Config, s: State) returns (acts: seq<Action>)
    requires Reachable(c, s) && s.ctxDone
    ensures Valid(c, s, acts) && Run(c, s, acts).main.MainReturned?
    ensures forall a :: a in acts ==> Winds(a)
    decreases StepsLeft(c, s), |s.chunksUntar.pending|
  {
    if s.main.MainReturned? {
      acts := [];
    } else {
      CancelledWinds(c, s);
      hide Reachable, Winds, Enabled, Apply, Inv, StepsLeft;
      var a :| Winds(a) && Enabled(c, s, a);
      var t := TakeStep(c, s, a);
      ReachableInv(c, s);
      WindingMoves(c, s, a);
      WindingUsesStepOrBytes(c, s, a);
      var rest := CancelledStartCanReturn(c, t);
      acts := [a] + rest;
      assert acts[1..] == rest;
    }
  }
}
