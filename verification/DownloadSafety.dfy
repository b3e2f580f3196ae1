/** Download safety: untar only ever sees a beginning of the dataset's bytes, a failed stage
    is never hidden behind the end of its pipe, and a nil return under a live context means
    that the archive arrived completely. Under a cancelled context this can fail; the run at
    the end shows how. */
module DownloadSafety {
  import opened Prelude
  import opened Pipes
  import opened DownloadProcess
  import Index
  import F = FanOut
  import FS = FanOutSafety

  /* ---------- keys and bytes flow in order ---------- */

  predicate Wrote(c: Config, s: State) {
    && c.index.Some? && s.source == c.index.value
    && (s.fetch == FetchClosing(false) || s.fetch == FetchClosed(false))
  }

  function Rest(s: State): Bytes {
    s.scan + s.indexChunks.pending
  }

  predicate StillReading(s: State) {
    !FS.Ending(s.fan) && !s.fan.producer.SendingError?
  }

  predicate KeysFlow(c: Config, s: State) {
    var all := Index.Parse(s.source);
    && (Wrote(c, s) || (s.source == [] && Rest(s) == []))
    && (s.fetch == FetchClosing(false) || s.fetch == FetchClosed(false) ==> Wrote(c, s))
    && (s.indexChunks.pending != [] ==> s.scan == [])
    && s.fan.items <= all.keys
    && (StillReading(s) ==>
          all == Index.Parsed(s.fan.items + Index.Parse(Rest(s)).keys, Index.Parse(Rest(s)).complete))
    && (FS.Ending(s.fan) && !s.fan.dropped && !s.fan.readFailed ==>
          && s.fan.items == all.keys && all.complete
          && (Wrote(c, s) || s.fetch == FetchClosed(true)))
  }

  predicate BytesFlow(s: State) {
    Concat(s.fan.out) == s.got + s.chunksUntar.pending
  }

  /* ---------- stages end in order ---------- */

  ghost predicate StagesEnd(c: Config, s: State) {
    && c.fan.mode.Download? && FS.Reachable(c.fan, s.fan)
    && (s.fetch.FetchClosed? <==> s.indexChunks.closed)
    && (s.fetch == FetchClosing(true) || s.fetch == FetchClosed(true) ==> true in s.doneCh)
    && (s.fan.cancelled ==> s.ctxDone)
    && (!s.chunk.Working? ==> s.fan.fanIn.Returned?)
    && (s.chunk.Failing? ==> s.fan.fanIn.failed)
    && (Ended(s.chunk) ==> s.chunk.failed == s.fan.fanIn.failed)
    && (Ended(s.chunk) && s.chunk.failed ==> true in s.doneCh)
    && (s.chunk.Closed? <==> s.chunksUntar.closed)
    && (s.untar == UntarReporting(false) ==> c.ends(s.got) || s.chunksUntar == Pipe([], true))
    && (s.untar.UntarFinished? ==> s.doneCh != [])
    && (s.fetch.FetchWriting? ==> c.index.Some?)
  }

  /** What the first nil on doneCh found. */
  predicate Verdict(c: Config, s: State) {
    && s.untar.UntarFinished?
    && (c.ends(s.got)
        || (s.chunk == Closed(false) && s.chunksUntar == Pipe([], true) && s.fan.fanIn.Returned?
            && !s.fan.fanIn.failed && (s.fan.fanIn.clean ==> Wrote(c, s))))
  }

  predicate DoneChannel(c: Config, s: State) {
    && (s.doneCh != [] && !s.doneCh[0] ==> Verdict(c, s))
    && (s.main.MainReturned? ==> s.doneCh != [] && s.main.failed == s.doneCh[0])
    && (s.main == MainReturned(false, true) ==>
          c.ends(s.got) || (s.fan.fanIn.Returned? && s.fan.fanIn.clean))
  }

  ghost predicate Inv(c: Config, s: State) {
    KeysFlow(c, s) && BytesFlow(s) && StagesEnd(c, s) && DoneChannel(c, s)
  }

  /* ---------- index ---------- */

  lemma WriteKeepsKeys(c: Config, s: State)
    requires KeysFlow(c, s) && FetchCan(c, s, FetchWrite)
    ensures KeysFlow(c, FetchStepped(c, s, FetchWrite))
  {
    hide Index.Parse;
    Index.ParseEmpty();
    var t := FetchStepped(c, s, FetchWrite);
    assert s.scan == [] && s.fan.items == [] && Rest(t) == t.source;
    assert s.fan.items + Index.Parse(t.source).keys == Index.Parse(t.source).keys;
  }

  lemma FetchKeepsKeys(c: Config, s: State, t: FetchStep)
    requires KeysFlow(c, s) && FetchCan(c, s, t) && !t.FetchWrite?
    ensures KeysFlow(c, FetchStepped(c, s, t))
  {
    hide Index.Parse;
  }

  lemma FetchKeepsBytes(c: Config, s: State, t: FetchStep)
    requires BytesFlow(s) && FetchCan(c, s, t)
    ensures BytesFlow(FetchStepped(c, s, t))
  {
    hide Concat;
  }

  lemma FetchKeepsInv(c: Config, s: State, t: FetchStep)
    requires Inv(c, s) && FetchCan(c, s, t)
    ensures Inv(c, FetchStepped(c, s, t))
  {
    hide KeysFlow, BytesFlow, StagesEnd, DoneChannel, FetchStepped, FetchCan;
    if t.FetchWrite? {
      WriteKeepsKeys(c, s);
    } else {
      FetchKeepsKeys(c, s, t);
    }
    FetchKeepsBytes(c, s, t);
    FetchKeepsStages(c, s, t);
    FetchKeepsDone(c, s, t);
  }

  lemma FetchKeepsStages(c: Config, s: State, t: FetchStep)
    requires StagesEnd(c, s) && FetchCan(c, s, t)
    ensures StagesEnd(c, FetchStepped(c, s, t))
  {
    hide FS.Reachable;
  }

  lemma FetchKeepsDone(c: Config, s: State, t: FetchStep)
    requires KeysFlow(c, s) && DoneChannel(c, s) && FetchCan(c, s, t)
    ensures DoneChannel(c, FetchStepped(c, s, t))
  {
    hide KeysFlow;
  }

  /* ---------- chunks ---------- */

  lemma ScanKeepsKeys(c: Config, s: State)
    requires KeysFlow(c, s) && ChunkCan(c, s, ChunkScan)
    ensures KeysFlow(c, ChunkStepped(c, s, ChunkScan))
  {
    assert Rest(ChunkStepped(c, s, ChunkScan)) == Rest(s);
    hide Index.Parse;
  }

  lemma LineReadyMeansAllScanned(c: Config, s: State)
    requires KeysFlow(c, s) && LineReady(s)
    ensures s.indexChunks.pending == [] && Rest(s) == s.scan
  {
  }

  lemma KeyIsFirstOfText(text: Bytes, k: Bytes)
    requires |k| == Index.KEY_SIZE && Index.NextKey(text) == Index.GotKey(k)
    ensures
      var rest := Index.Parse(Index.Unread(text));
      text != [] && Index.Parse(text) == Index.Parsed([k] + rest.keys, rest.complete)
  {
  }

  /** What reading a key does to the flow of keys. */
  lemma ReadItemTouches(c: Config, s: State, k: Bytes)
    requires ChunkCan(c, s, ChunkFan(F.Produce(F.ReadItem(k))))
    ensures
      var t := ChunkStepped(c, s, ChunkFan(F.Produce(F.ReadItem(k))));
      && t == s.(scan := Index.Unread(s.scan), fan := t.fan)
      && t.fan == s.fan.(items := s.fan.items + [k], producer := F.Sending(|s.fan.items|))
      && s.fan.producer.Reading?
  {
    hide Index.NextKey, Index.Unread;
  }

  lemma FirstKeyMovesOver(c: Config, s: State, t: State, k: Index.Key)
    requires KeysFlow(c, s) && Rest(s) == s.scan && s.indexChunks.pending == [] && s.fan.producer.Reading?
    requires t == s.(scan := t.scan, fan := t.fan)
    requires t.fan == s.fan.(items := s.fan.items + [k], producer := F.Sending(|s.fan.items|))
    requires s.scan != [] && Index.Parse(s.scan)
          == Index.Parsed([k] + Index.Parse(t.scan).keys, Index.Parse(t.scan).complete)
    ensures KeysFlow(c, t)
  {
    hide Index.Parse;
    assert Rest(t) == t.scan;
    Assoc(s.fan.items, [k], Index.Parse(t.scan).keys);
    var all := Index.Parse(s.source).keys;
    assert all == t.fan.items + Index.Parse(t.scan).keys;
  }

  lemma ReadItemKeepsKeys(c: Config, s: State, k: Bytes)
    requires KeysFlow(c, s) && ChunkCan(c, s, ChunkFan(F.Produce(F.ReadItem(k))))
    ensures KeysFlow(c, ChunkStepped(c, s, ChunkFan(F.Produce(F.ReadItem(k)))))
  {
    LineReadyMeansAllScanned(c, s);
    KeyIsFirstOfText(s.scan, k);
    ReadItemTouches(c, s, k);
    assert |k| == Index.KEY_SIZE;
    hide Index.Parse, Index.NextKey, Index.Unread, ChunkStepped, ChunkCan, KeysFlow, Rest;
    FirstKeyMovesOver(c, s, ChunkStepped(c, s, ChunkFan(F.Produce(F.ReadItem(k)))), k);
  }

  lemma ReadEofKeepsKeys(c: Config, s: State)
    requires KeysFlow(c, s) && (s.fetch.FetchClosed? <==> s.indexChunks.closed)
    requires ChunkCan(c, s, ChunkFan(F.Produce(F.ReadEof)))
    ensures KeysFlow(c, ChunkStepped(c, s, ChunkFan(F.Produce(F.ReadEof))))
  {
    LineReadyMeansAllScanned(c, s);
    assert Index.Parse(s.scan) == Index.Parsed([], true);
    hide Index.Parse;
    assert s.fan.items + [] == s.fan.items;
  }

  lemma FanKeepsKeys(c: Config, s: State, a: F.Action)
    requires KeysFlow(c, s) && StagesEnd(c, s) && ChunkCan(c, s, ChunkFan(a))
    ensures KeysFlow(c, ChunkStepped(c, s, ChunkFan(a)))
  {
    if a.Produce? && a.p.ReadItem? {
      ReadItemKeepsKeys(c, s, a.p.item);
    } else if a.Produce? && a.p.ReadEof? {
      ReadEofKeepsKeys(c, s);
    } else {
      OtherFanStepsKeepKeys(c, s, a);
    }
  }

  lemma OtherFanStepsKeepKeys(c: Config, s: State, a: F.Action)
    requires KeysFlow(c, s) && StagesEnd(c, s) && ChunkCan(c, s, ChunkFan(a))
    requires a.Produce? ==> !a.p.ReadItem? && !a.p.ReadEof?
    ensures KeysFlow(c, ChunkStepped(c, s, ChunkFan(a)))
  {
    FS.ErrorIsReadFailure(c.fan, s.fan);
    FS.StepFrame(c.fan, s.fan, a);
    hide Index.Parse, FS.Reachable, F.Apply, F.Enabled;
  }

  lemma FanKeepsBytes(c: Config, s: State, a: F.Action)
    requires BytesFlow(s) && ChunkCan(c, s, ChunkFan(a))
    ensures BytesFlow(ChunkStepped(c, s, ChunkFan(a)))
  {
    if a == F.Collect(F.WriteResult) {
      ConcatSnoc(s.fan.out, F.ResultOf(c.fan, s.fan, s.fan.fanIn.item));
      assert s.got + [] == s.got;
    } else {
      FS.StepFrame(c.fan, s.fan, a);
      hide F.Apply, F.Enabled, Concat;
    }
  }

  lemma FanKeepsStages(c: Config, s: State, a: F.Action)
    requires StagesEnd(c, s) && DoneChannel(c, s) && ChunkCan(c, s, ChunkFan(a))
    ensures
      var t := ChunkStepped(c, s, ChunkFan(a));
      StagesEnd(c, t) && DoneChannel(c, t)
  {
    FS.ReachableStep(c.fan, s.fan, a);
    FS.StepFrame(c.fan, s.fan, a);
    hide FS.Reachable, F.Apply, F.Enabled;
  }

  lemma ChunkEndsKeepFlow(c: Config, s: State, t: ChunkStep)
    requires KeysFlow(c, s) && BytesFlow(s)
    requires ChunkCan(c, s, t) && (t.ChunkReturn? || t.ChunkReport? || t.ChunkClose?)
    ensures KeysFlow(c, ChunkStepped(c, s, t)) && BytesFlow(ChunkStepped(c, s, t))
  {
    hide Index.Parse, Concat;
  }

  lemma ChunkEndsKeepStages(c: Config, s: State, t: ChunkStep)
    requires StagesEnd(c, s) && ChunkCan(c, s, t) && (t.ChunkReturn? || t.ChunkReport? || t.ChunkClose?)
    ensures StagesEnd(c, ChunkStepped(c, s, t))
  {
    hide FS.Reachable;
  }

  lemma ChunkEndsKeepDone(c: Config, s: State, t: ChunkStep)
    requires StagesEnd(c, s) && DoneChannel(c, s)
    requires ChunkCan(c, s, t) && (t.ChunkReturn? || t.ChunkReport? || t.ChunkClose?)
    ensures DoneChannel(c, ChunkStepped(c, s, t))
  {
    hide FS.Reachable;
  }

  lemma ChunkEndsKeepInv(c: Config, s: State, t: ChunkStep)
    requires Inv(c, s) && ChunkCan(c, s, t) && (t.ChunkReturn? || t.ChunkReport? || t.ChunkClose?)
    ensures Inv(c, ChunkStepped(c, s, t))
  {
    ChunkEndsKeepFlow(c, s, t);
    ChunkEndsKeepStages(c, s, t);
    ChunkEndsKeepDone(c, s, t);
    hide KeysFlow, BytesFlow, StagesEnd, DoneChannel;
  }

  lemma ChunkKeepsInv(c: Config, s: State, t: ChunkStep)
    requires Inv(c, s) && ChunkCan(c, s, t)
    ensures Inv(c, ChunkStepped(c, s, t))
  {
    match t {
      case ChunkScan =>
        ScanKeepsKeys(c, s);
        hide KeysFlow, FS.Reachable;
      case ChunkFan(a) =>
        FanKeepsKeys(c, s, a);
        FanKeepsBytes(c, s, a);
        FanKeepsStages(c, s, a);
        hide KeysFlow, BytesFlow, StagesEnd, DoneChannel;
      case ChunkReturn => ChunkEndsKeepInv(c, s, t);
      case ChunkReport => ChunkEndsKeepInv(c, s, t);
      case ChunkClose => ChunkEndsKeepInv(c, s, t);
    }
  }

  /* ---------- untar ---------- */

  lemma UntarKeepsBytes(c: Config, s: State, t: UntarStep)
    requires BytesFlow(s) && UntarCan(c, s, t)
    ensures BytesFlow(UntarStepped(c, s, t))
  {
    if t.UntarRead? {
      var p := s.chunksUntar.pending;
      assert p == p[..t.n] + p[t.n..];
      Assoc(s.got, p[..t.n], p[t.n..]);
    }
  }

  /** The error of a failed stage is already on doneCh when untar meets the end of the pipe. */
  lemma FirstNilFindsVerdict(c: Config, s: State)
    requires KeysFlow(c, s) && StagesEnd(c, s)
    requires s.doneCh == [] && s.untar == UntarReporting(false)
    ensures Verdict(c, UntarStepped(c, s, UntarReport))
  {
    FS.CleanReturnEnds(c.fan, s.fan);
    EndedKeysWereWritten(c, s);
    hide KeysFlow, FS.Reachable;
  }

  lemma EndedKeysWereWritten(c: Config, s: State)
    requires KeysFlow(c, s)
    ensures FS.Ending(s.fan) && !s.fan.dropped && !s.fan.readFailed ==> Wrote(c, s) || s.fetch == FetchClosed(true)
  {
    hide Index.Parse;
  }

  lemma UntarKeepsStages(c: Config, s: State, t: UntarStep)
    requires StagesEnd(c, s) && UntarCan(c, s, t)
    ensures StagesEnd(c, UntarStepped(c, s, t))
  {
    hide FS.Reachable;
  }

  lemma UntarKeepsKeys(c: Config, s: State, t: UntarStep)
    requires KeysFlow(c, s) && UntarCan(c, s, t)
    ensures KeysFlow(c, UntarStepped(c, s, t))
  {
    hide Index.Parse;
  }

  lemma OtherUntarKeepsDone(c: Config, s: State, t: UntarStep)
    requires DoneChannel(c, s) && UntarCan(c, s, t) && !t.UntarReport?
    ensures DoneChannel(c, UntarStepped(c, s, t))
  {
  }

  lemma ReportKeepsDone(c: Config, s: State)
    requires DoneChannel(c, s) && UntarCan(c, s, UntarReport)
    requires s.doneCh == [] && !s.untar.failed ==> Verdict(c, UntarStepped(c, s, UntarReport))
    ensures DoneChannel(c, UntarStepped(c, s, UntarReport))
  {
  }

  lemma UntarKeepsDone(c: Config, s: State, t: UntarStep)
    requires KeysFlow(c, s) && StagesEnd(c, s) && DoneChannel(c, s) && UntarCan(c, s, t)
    ensures DoneChannel(c, UntarStepped(c, s, t))
  {
    if t.UntarReport? {
      if s.doneCh == [] && !s.untar.failed {
        FirstNilFindsVerdict(c, s);
      }
      hide KeysFlow, StagesEnd, Verdict, UntarStepped;
      ReportKeepsDone(c, s);
    } else {
      OtherUntarKeepsDone(c, s, t);
      hide KeysFlow, StagesEnd, DoneChannel, UntarStepped;
    }
  }

  lemma UntarKeepsInv(c: Config, s: State, t: UntarStep)
    requires Inv(c, s) && UntarCan(c, s, t)
    ensures Inv(c, UntarStepped(c, s, t))
  {
    UntarKeepsBytes(c, s, t);
    UntarKeepsStages(c, s, t);
    UntarKeepsDone(c, s, t);
    UntarKeepsKeys(c, s, t);
    hide KeysFlow, BytesFlow, StagesEnd, DoneChannel;
  }

  /* ---------- start and its caller ---------- */

  lemma CancelKeepsStages(c: Config, s: State, main: MainPc)
    requires KeysFlow(c, s) && BytesFlow(s) && StagesEnd(c, s)
    ensures
      var t := s.(main := main, ctxDone := true);
      KeysFlow(c, t) && BytesFlow(t) && StagesEnd(c, t) && (Verdict(c, s) ==> Verdict(c, t))
  {
    hide Index.Parse, FS.Reachable, Concat;
  }

  /** Under a live context a nil from the chunk stage is a clean one. */
  lemma LiveVerdictIsClean(c: Config, s: State)
    requires StagesEnd(c, s) && Verdict(c, s) && !s.ctxDone
    ensures c.ends(s.got) || (s.fan.fanIn.Returned? && s.fan.fanIn.clean)
  {
    FS.ReachableInv(c.fan, s.fan);
    hide FS.Reachable, FS.InOrder, FS.WorkersMatch, FS.ObjectsMatch, FS.ProgressMatches;
  }

  lemma TakeDoneKeepsInv(c: Config, s: State)
    requires Inv(c, s) && Enabled(c, s, TakeDone)
    ensures Inv(c, Apply(c, s, TakeDone))
  {
    CancelKeepsStages(c, s, MainReturned(s.doneCh[0], !s.ctxDone));
    if !s.doneCh[0] && !s.ctxDone {
      LiveVerdictIsClean(c, s);
    }
    hide KeysFlow, BytesFlow, StagesEnd, Verdict;
  }

  lemma StepKeepsInv(c: Config, s: State, a: Action)
    requires Inv(c, s) && Enabled(c, s, a)
    ensures Inv(c, Apply(c, s, a))
  {
    match a {
      case Fetch(t) => FetchKeepsInv(c, s, t);
      case Chunk(t) => ChunkKeepsInv(c, s, t);
      case Untar(t) => UntarKeepsInv(c, s, t);
      case TakeDone => TakeDoneKeepsInv(c, s);
      case ParentCancel =>
        CancelKeepsStages(c, s, s.main);
        hide KeysFlow, BytesFlow, StagesEnd, Verdict;
    }
  }

  lemma InitInv(c: Config, store: map<Bytes, Bytes>)
    requires c.fan.mode.Download? && FS.WellKeyed(c.fan, store)
    ensures Inv(c, Init(store))
  {
    FS.ReachableInit(c.fan, store);
    Index.ParseEmpty();
  }

  lemma {:induction false} RunKeepsInv(c: Config, s: State, acts: seq<Action>)
    requires Inv(c, s) && Valid(c, s, acts)
    ensures Inv(c, Run(c, s, acts))
    decreases |acts|
  {
    hide Inv;
    if acts != [] {
      StepKeepsInv(c, s, acts[0]);
      RunKeepsInv(c, Apply(c, s, acts[0]), acts[1..]);
    }
  }

  /* ---------- what every run guarantees ---------- */

  ghost predicate Starts(c: Config, store: map<Bytes, Bytes>, acts: seq<Action>) {
    c.fan.mode.Download? && FS.WellKeyed(c.fan, store) && Valid(c, Init(store), acts)
  }

  /** `s` is the state of some run of the download, from some store of well-filed objects. */
  ghost predicate Reachable(c: Config, s: State) {
    exists store, acts :: Starts(c, store, acts) && s == Run(c, Init(store), acts)
  }

  lemma ReachableInv(c: Config, s: State)
    requires Reachable(c, s)
    ensures Inv(c, s)
  {
    hide Inv;
    var store, acts :| Starts(c, store, acts) && s == Run(c, Init(store), acts);
    InitInv(c, store);
    RunKeepsInv(c, Init(store), acts);
  }

  /** `parts` are contents for the first |parts| keys of the index, in order. */
  ghost predicate ContentsOf(c: Config, parts: seq<Bytes>) {
    c.index.Some?
    && var keys := Index.Parse(c.index.value).keys;
       |parts| <= |keys| && forall j :: 0 <= j < |parts| ==> c.fan.hash(parts[j]) == keys[j]
  }

  /** Whatever fails or is cancelled, untar has read a beginning of the contents of a
      beginning of the index's keys. */
  lemma GotIsPrefix(c: Config, s: State)
    requires Reachable(c, s) && c.index.Some?
    ensures ContentsOf(c, s.fan.out) && s.got <= Concat(s.fan.out)
  {
    ReachableInv(c, s);
    FS.DownloadWritesPrefix(c.fan, s.fan);
    Index.ParseEmpty();
    hide FS.Reachable, Index.Parse;
  }

  /** start returned nil, having taken untar's nil under a live context: then untar saw the
      end of the archive, or the index was read up to what the reader takes for its end and
      all contents arrived, and the progress sent adds up to their bytes. That is its real end
      exactly if none of its lines is too long. */
  lemma LiveNilMeansComplete(c: Config, s: State)
    requires Reachable(c, s) && s.main == MainReturned(false, true) && !c.ends(s.got)
    ensures c.index.Some? && Index.Parse(c.index.value).complete
    ensures Index.Left(c.index.value) == [] <==> Index.LinesFit(c.index.value)
    ensures ContentsOf(c, s.fan.out) && |s.fan.out| == |Index.Parse(c.index.value).keys|
    ensures s.got == Concat(s.fan.out)
    ensures c.fan.reporting ==> Sum(s.fan.progress) == |s.got|
  {
    ReachableInv(c, s);
    GotIsPrefixOf(c, s);
    FS.CleanReturnIsComplete(c.fan, s.fan);
    FS.DownloadWritesPrefix(c.fan, s.fan);
    FS.CleanReturnEnds(c.fan, s.fan);
    hide Index.Parse, Index.LinesFit, Index.Left, FS.Reachable;
    Index.ReadToEndIffLinesFit(c.index.value);
  }

  lemma GotIsPrefixOf(c: Config, s: State)
    requires BytesFlow(s)
    ensures s.chunksUntar.pending == [] ==> s.got == Concat(s.fan.out)
  {
    assert s.got + [] == s.got;
  }

  /** As long as the caller does not cancel, the context lives until start returns. */
  predicate LivesUntilReturn(s: State) {
    if s.main.MainWaiting? then !s.ctxDone else s.main.live
  }

  lemma StepKeepsLife(c: Config, s: State, a: Action)
    requires LivesUntilReturn(s) && Enabled(c, s, a) && !a.ParentCancel?
    ensures LivesUntilReturn(Apply(c, s, a))
  {
    hide F.Enabled, F.Apply, Index.NextKey, Index.Unread;
  }

  lemma {:induction false} RunKeepsLife(c: Config, s: State, acts: seq<Action>)
    requires LivesUntilReturn(s) && Valid(c, s, acts) && ParentCancel !in acts
    ensures LivesUntilReturn(Run(c, s, acts))
    decreases |acts|
  {
    hide Enabled, Apply, LivesUntilReturn;
    if acts != [] {
      StepKeepsLife(c, s, acts[0]);
      RunKeepsLife(c, Apply(c, s, acts[0]), acts[1..]);
    }
  }

  lemma FailureAgainstNil(c: Config, s: State)
    requires Reachable(c, s) && LivesUntilReturn(s)
    requires s.fetch == FetchClosed(true) || s.chunk == Closed(true)
    ensures true in s.doneCh
    ensures s.doneCh[0] || c.ends(s.got)
  {
    ReachableInv(c, s);
    FS.DirtyReturnIsCancelled(c.fan, s.fan);
    hide KeysFlow, FS.Reachable;
  }

  /** A failed index or chunk stage has put its error on doneCh before it closes the pipe it
      feeds: unless the caller cancels, no nil is first because of that close. */
  lemma FailureIsNotMasked(c: Config, store: map<Bytes, Bytes>, acts: seq<Action>)
    requires Starts(c, store, acts) && ParentCancel !in acts
    requires
      var s := Run(c, Init(store), acts);
      s.fetch == FetchClosed(true) || s.chunk == Closed(true)
    ensures
      var s := Run(c, Init(store), acts);
      true in s.doneCh && (s.doneCh[0] || c.ends(s.got))
  {
    RunKeepsLife(c, Init(store), acts);
    FailureAgainstNil(c, Run(c, Init(store), acts));
  }

  /* ---------- what cancellation can do ---------- */

  lemma {:induction false} RunExtends(c: Config, s: State, acts: seq<Action>, a: Action)
    requires Valid(c, s, acts) && Enabled(c, Run(c, s, acts), a)
    ensures Valid(c, s, acts + [a])
    ensures Run(c, s, acts + [a]) == Apply(c, Run(c, s, acts), a)
    decreases |acts|
  {
    hide Apply, Enabled;
    var more := acts + [a];
    if acts == [] {
      assert more[1..] == [];
    } else {
      assert more[1..] == acts[1..] + [a];
      RunExtends(c, Apply(c, s, acts[0]), acts[1..], a);
    }
  }

  lemma TakeStep(c: Config, s: State, a: Action) returns (t: State)
    requires Reachable(c, s) && Enabled(c, s, a)
    ensures t == Apply(c, s, a) && Reachable(c, t)
  {
    hide Apply, Enabled;
    var store, acts :| Starts(c, store, acts) && s == Run(c, Init(store), acts);
    RunExtends(c, Init(store), acts, a);
    assert Starts(c, store, acts + [a]);
    t := Apply(c, s, a);
  }

  /** A cancelled download can report success with nothing extracted: the producer drops the
      first key, the fan-in sees the closed channel before the context, and untar, already
      past its own check, takes the end of the pipe for the end of the archive. */
  lemma CancelledDownloadCanReturnNil(c: Config, k: Index.Key) returns (s: State)
    requires c.fan.mode.Download? && c.index == Some(Index.Line(k))
    ensures Reachable(c, s) && s.main == MainReturned(false, false)
    ensures s.fan.items == [k] && s.got == []
  {
    hide Reachable;
    s := DropsItsOnlyKey(c, k);
    s := TakeStep(c, s, Chunk(ChunkFan(F.Collect(F.TakeClosed))));
    s := TakeStep(c, s, Chunk(ChunkReturn));
    s := TakeStep(c, s, Chunk(ChunkClose));
    s := TakeStep(c, s, Untar(UntarEof));
    s := TakeStep(c, s, Untar(UntarReport));
    s := TakeStep(c, s, TakeDone);
  }

  lemma DropsItsOnlyKey(c: Config, k: Index.Key) returns (s: State)
    requires c.fan.mode.Download? && c.index == Some(Index.Line(k))
    ensures Reachable(c, s)
    ensures s.ctxDone && s.untar == UntarReading && s.doneCh == [] && s.main == MainWaiting
    ensures s.chunk == Working && s.chunksUntar == Pipe([], false) && s.got == []
    ensures s.fan.items == [k] && s.fan.producer == F.Stopped && s.fan.fanIn == F.Selecting
    ensures s.fan.queue == [] && !s.fan.broken && s.fan.cancelled
  {
    hide Reachable;
    s := ReadsItsOnlyKey(c, k);
    s := TakeStep(c, s, Untar(UntarCheck));
    s := TakeStep(c, s, ParentCancel);
    s := TakeStep(c, s, Chunk(ChunkFan(F.Cancel)));
    s := TakeStep(c, s, Chunk(ChunkFan(F.Produce(F.DropItem))));
    s := TakeStep(c, s, Chunk(ChunkFan(F.Produce(F.CloseItems))));
  }

  lemma LineIsReady(k: Index.Key)
    ensures Index.NEWLINE in Index.Line(k) && Index.NextKey(Index.Line(k)) == Index.GotKey(k)
  {
    Index.NextFullLine(k, []);
    assert Index.Line(k) + [] == Index.Line(k);
    assert Index.Line(k)[|Index.Line(k)| - 1] == Index.NEWLINE;
  }

  lemma Begin(c: Config, store: map<Bytes, Bytes>) returns (s: State)
    requires c.fan.mode.Download? && FS.WellKeyed(c.fan, store)
    ensures Reachable(c, s) && s == Init(store)
  {
    hide Apply, Enabled;
    s := Init(store);
    assert Starts(c, store, []) && s == Run(c, Init(store), []);
  }

  lemma IndexIsScanned(c: Config, text: Bytes) returns (s: State)
    requires c.fan.mode.Download? && c.index == Some(text)
    ensures Reachable(c, s)
    ensures s == Init(map[]).(fetch := FetchClosing(false), source := text, scan := text)
  {
    s := Begin(c, map[]);
    hide Reachable;
    s := TakeStep(c, s, Fetch(FetchTry));
    s := TakeStep(c, s, Fetch(FetchCallWorks));
    s := TakeStep(c, s, Fetch(FetchWrite));
    s := TakeStep(c, s, Chunk(ChunkScan));
    assert s.scan == text;
  }

  lemma ReadsItsOnlyKey(c: Config, k: Index.Key) returns (s: State)
    requires c.fan.mode.Download? && c.index == Some(Index.Line(k))
    ensures Reachable(c, s)
    ensures !s.ctxDone && s.untar == UntarChecking && s.doneCh == [] && s.main == MainWaiting
    ensures s.chunk == Working && s.chunksUntar == Pipe([], false) && s.got == []
    ensures s.fan == F.Init(map[]).(items := [k], producer := F.Sending(0))
  {
    hide Reachable, Index.NextKey, Index.Unread, Index.Parse, Index.Line;
    s := IndexIsScanned(c, Index.Line(k));
    LineIsReady(k);
    s := TakeStep(c, s, Chunk(ChunkFan(F.Produce(F.ReadItem(k)))));
  }
}
