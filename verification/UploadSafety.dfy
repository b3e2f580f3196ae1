/** Commit safety of the upload: in every interleaving, SendUploadSuccess is called only
    when the stored index lists exactly the chunks of the complete tar stream, every listed
    chunk is in the store, and the metadata holds the stream's length; and start returns
    nil only when that call was acknowledged. */
module UploadSafety {
  import opened Prelude
  import opened Pipes
  import opened UploadProcess
  import Index
  import F = FanOut
  import FS = FanOutSafety

  /* ---------- bytes flow in order ---------- */

  function InChunker(s: State): Bytes {
    Concat(s.fan.items) + s.chunkBuffer
  }

  function Counted(s: State): Bytes {
    InChunker(s) + s.countChunks.pending
  }

  function Written(s: State): Bytes {
    Counted(s) + s.tarCount.pending
  }

  predicate BytesFlow(c: Config, s: State) {
    && s.written <= |c.archive|
    && Written(s) == c.archive[..s.written]
    && s.total == |Counted(s)|
    && Index.Text(s.fan.out) == s.indexBuffer + s.chunksIndex.pending
  }

  /* ---------- stages end in order ---------- */

  ghost predicate StagesEnd(c: Config, s: State) {
    && c.fan.mode.Upload? && FS.Reachable(c.fan, s.fan)
    // tar
    && (s.tar.Closed? <==> s.tarCount.closed)
    && (Ended(s.tar) && !s.tar.failed ==> s.written == |c.archive|)
    && (Ended(s.tar) && s.tar.failed ==> true in s.doneCh)
    // count
    && (s.count.Counting? <==> s.countCh.None?)
    && (s.count.CountClosed? <==> s.countChunks.closed)
    && (s.countCh == Some(CountError) ==> s.ctxDone)
    && (s.countCh.Some? && s.countCh.value.CountOk? ==>
          s.tarCount == Pipe([], true) && s.countCh.value.total == s.total)
    // chunk
    && !s.fan.readFailed
    && (s.fan.producer.Closing? || s.fan.producer.Stopped? ==>
          s.countChunks == Pipe([], true) && s.chunkBuffer == [])
    && (s.fan.cancelled ==> s.ctxDone)
    && (!s.chunk.Working? ==> s.fan.fanIn.Returned?)
    && (s.chunk.Failing? ==> s.fan.fanIn.failed)
    && (Ended(s.chunk) ==> s.chunk.failed == s.fan.fanIn.failed)
    && (Ended(s.chunk) && s.chunk.failed ==> true in s.doneCh)
    && (s.chunk.Closed? <==> s.chunksIndex.closed)
    // index
    && (!s.index.Gathering? ==> s.chunksIndex == Pipe([], true))
  }

  /** The chunk stage saw the whole stream and wrote the whole index. */
  predicate Complete(s: State) {
    && s.chunk.Closed? && s.fan.fanIn.Returned? && s.fan.fanIn.clean
    && s.countCh.Some? && s.countCh.value.CountOk?
  }

  /** Everything the announcement promises, apart from the metadata. */
  predicate Uploaded(c: Config, s: State) {
    && Complete(s)
    && s.tar == Closed(false)
    && s.index.IndexFinished?
    && s.indexObject == Some(Index.Text(s.fan.out))
    && s.countCh == Some(CountOk(|c.archive|))
  }

  /** Passing the context check after the end of the keys rules out every quiet failure. */
  predicate IndexEndorsed(s: State) {
    && (s.index.IndexCalling? || s.index == IndexReporting(false) ==>
          Complete(s) || true in s.doneCh)
    && (s.index == IndexReporting(false) ==> s.indexObject == Some(s.indexBuffer))
    && (s.index.IndexFinished? ==> s.doneCh != [])
  }

  predicate DoneChannel(c: Config, s: State) {
    s.doneCh != [] && !s.doneCh[0] ==> Uploaded(c, s)
  }

  predicate MainMatches(c: Config, s: State) {
    && (!s.main.Waiting? ==> s.doneCh != [])
    && (s.main.AwaitingCount? ==> !s.doneCh[0])
    && (s.main.MetadataTrying? || s.main.MetadataCalling? ==>
          !s.doneCh[0] && s.main.total == |c.archive|)
    && (s.main.Announcing? ==> !s.doneCh[0] && s.metadataObject == Some(|c.archive|))
    && (s.announced ==>
          s.main.MainReturned? && !s.doneCh[0] && s.metadataObject == Some(|c.archive|))
    && (s.main == MainReturned(false) ==> s.acknowledged)
    && (s.acknowledged ==> s.announced)
  }

  ghost predicate Inv(c: Config, s: State) {
    BytesFlow(c, s) && StagesEnd(c, s) && IndexEndorsed(s) && DoneChannel(c, s) && MainMatches(c, s)
  }

  /* ---------- what every run guarantees ---------- */

  /** `s` is the state of some run of the upload, from some store of well-filed objects. */
  ghost predicate Reachable(c: Config, s: State) {
    exists store, acts :: Starts(c, store, acts) && s == Run(c, Init(store), acts)
  }

  ghost predicate Starts(c: Config, store: map<Bytes, Bytes>, acts: seq<Action>) {
    c.fan.mode.Upload? && FS.WellKeyed(c.fan, store) && Valid(c, Init(store), acts)
  }

  lemma ReachableInv(c: Config, s: State)
    requires Reachable(c, s)
    ensures Inv(c, s)
  {
    hide Inv;
    var store, acts :| Starts(c, store, acts) && s == Run(c, Init(store), acts);
    InitInv(c, store);
    RunKeepsInv(c, Init(store), acts);
  }

  /** Once nil was first on doneCh the count cannot have failed, so the branch that would
      return nil without committing (upload_process.go:94-96) is never taken. */
  lemma CountFailureNeverReached(c: Config, s: State)
    requires Reachable(c, s) && s.main.AwaitingCount?
    ensures s.countCh == Some(CountOk(|c.archive|))
  {
    ReachableInv(c, s);
  }

  /** No dangling references at any time: what has been written of the index, stored or on
      its way, names only objects that are in the store under their own hash. */
  lemma IndexNeverDangles(c: Config, s: State)
    requires Reachable(c, s)
    ensures Index.Text(s.fan.out) == s.indexBuffer + s.chunksIndex.pending
    ensures forall k :: k in s.fan.out ==> k in s.fan.store && c.fan.hash(s.fan.store[k]) == k
  {
    ReachableInv(c, s);
    FS.NoDanglingReferences(c.fan, s.fan);
  }

  /** What a committed dataset is: the chunks make up the whole archive, the index lists
      their keys in order, every one of them is in the store, and the metadata has the size. */
  ghost predicate Committed(c: Config, s: State) {
    && Concat(s.fan.items) == c.archive
    && s.indexObject == Some(Index.Text(FS.Keys(c.fan, s.fan.items)))
    && (forall j :: 0 <= j < |s.fan.items| ==>
          var k := c.fan.hash(s.fan.items[j]);
          k in s.fan.store && c.fan.hash(s.fan.store[k]) == k)
    && s.metadataObject == Some(|c.archive|)
  }

  lemma UploadedBytes(c: Config, s: State)
    requires BytesFlow(c, s) && StagesEnd(c, s) && Uploaded(c, s)
    requires s.fan.producer.Stopped?
    ensures Concat(s.fan.items) == c.archive
  {
    hide FS.Reachable, Index.Text;
    var all := Concat(s.fan.items);
    assert all + [] == all;
    assert c.archive[..|c.archive|] == c.archive;
  }

  lemma UploadedIsCommitted(c: Config, s: State)
    requires StagesEnd(c, s) && Complete(s) && Concat(s.fan.items) == c.archive
    requires s.indexObject == Some(Index.Text(s.fan.out)) && s.metadataObject == Some(|c.archive|)
    ensures Committed(c, s)
  {
    FS.CleanReturnIsComplete(c.fan, s.fan);
    FS.NoDanglingReferences(c.fan, s.fan);
    hide FS.Reachable, Concat;
    assert s.fan.out == FS.Keys(c.fan, s.fan.items);
    forall j | 0 <= j < |s.fan.items|
      ensures
        var k := c.fan.hash(s.fan.items[j]);
        k in s.fan.store && c.fan.hash(s.fan.store[k]) == k
    {
      assert s.fan.out[j] in s.fan.out;
    }
  }

  lemma UploadedIsDone(c: Config, s: State)
    requires StagesEnd(c, s) && Complete(s) && Concat(s.fan.items) == c.archive
    ensures FS.Live(s.fan) == {}
    ensures c.fan.reporting ==> Sum(s.fan.progress) == |c.archive|
  {
    FS.CleanReturnIsComplete(c.fan, s.fan);
    hide FS.Reachable, Concat;
  }

  /** Commit safety: whatever happened before, SendUploadSuccess is only called for a
      committed dataset; by then no worker is left and all progress was reported. */
  lemma AnnouncedMeansCommitted(c: Config, s: State)
    requires Reachable(c, s)
    requires s.main.Announcing? || s.announced
    ensures Committed(c, s)
    ensures FS.Live(s.fan) == {}
    ensures c.fan.reporting ==> Sum(s.fan.progress) == |c.archive|
  {
    ReachableInv(c, s);
    FS.CleanReturnIsComplete(c.fan, s.fan);
    UploadedBytes(c, s);
    UploadedIsCommitted(c, s);
    UploadedIsDone(c, s);
  }

  /** start returns nil only after SendUploadSuccess was acknowledged. */
  lemma NilMeansAcknowledged(c: Config, s: State)
    requires Reachable(c, s) && s.main == MainReturned(false)
    ensures s.acknowledged && Committed(c, s)
  {
    ReachableInv(c, s);
    AnnouncedMeansCommitted(c, s);
  }

  lemma AcknowledgedMeansDone(c: Config, s: State)
    requires Reachable(c, s) && s.acknowledged
    ensures FS.Live(s.fan) == {}
    ensures c.fan.reporting ==> Sum(s.fan.progress) == |c.archive|
  {
    ReachableInv(c, s);
    AnnouncedMeansCommitted(c, s);
  }

  /** Once start has returned nil, which is when the caller closes progressCh, no worker can
      send on it any more. */
  lemma NoReportAfterNil(c: Config, s: State, i: nat)
    requires Reachable(c, s) && s.main == MainReturned(false)
    ensures !Enabled(c, s, Chunk(ChunkFan(F.Work(i, F.SendReport))))
  {
    NilMeansAcknowledged(c, s);
    AcknowledgedMeansDone(c, s);
    assert i in s.fan.workers ==> i !in FS.Live(s.fan);
  }

  /* ---------- each step keeps the invariant: tar ---------- */

  lemma TarKeepsBytes(c: Config, s: State, t: TarStep)
    requires BytesFlow(c, s) && TarCan(c, s, t)
    ensures BytesFlow(c, TarStepped(c, s, t))
  {
    if t.TarWrite? {
      assert Counted(s) + [] == Counted(s);
      assert c.archive[..s.written] + c.archive[s.written..s.written + t.n] == c.archive[..s.written + t.n];
    }
  }

  lemma TarKeepsStages(c: Config, s: State, t: TarStep)
    requires StagesEnd(c, s) && TarCan(c, s, t)
    ensures StagesEnd(c, TarStepped(c, s, t))
  {
    hide FS.Reachable;
  }

  lemma TarKeepsDone(c: Config, s: State, t: TarStep)
    requires IndexEndorsed(s) && DoneChannel(c, s) && MainMatches(c, s) && TarCan(c, s, t)
    ensures
      var u := TarStepped(c, s, t);
      IndexEndorsed(u) && DoneChannel(c, u) && MainMatches(c, u)
  {
    hide Index.Text;
  }

  lemma TarKeepsInv(c: Config, s: State, t: TarStep)
    requires Inv(c, s) && TarCan(c, s, t)
    ensures Inv(c, TarStepped(c, s, t))
  {
    TarKeepsBytes(c, s, t);
    TarKeepsStages(c, s, t);
    TarKeepsDone(c, s, t);
    hide BytesFlow, StagesEnd, IndexEndorsed, DoneChannel, MainMatches, TarStepped, TarCan;
  }

  /* ---------- count ---------- */

  lemma CountKeepsBytes(c: Config, s: State, t: CountStep)
    requires BytesFlow(c, s) && CountCan(s, t)
    ensures BytesFlow(c, CountStepped(s, t))
  {
    if t.CountRead? {
      var p := s.tarCount.pending;
      assert p == p[..t.n] + p[t.n..];
      assert InChunker(s) + [] == InChunker(s);
      Assoc(InChunker(s), p[..t.n], p[t.n..]);
    }
  }

  lemma CountKeepsStages(c: Config, s: State, t: CountStep)
    requires BytesFlow(c, s) && StagesEnd(c, s) && CountCan(s, t)
    ensures StagesEnd(c, CountStepped(s, t))
  {
    hide FS.Reachable, BytesFlow;
  }

  lemma CountKeepsDone(c: Config, s: State, t: CountStep)
    requires StagesEnd(c, s) && IndexEndorsed(s) && DoneChannel(c, s) && MainMatches(c, s) && CountCan(s, t)
    ensures
      var u := CountStepped(s, t);
      IndexEndorsed(u) && DoneChannel(c, u) && MainMatches(c, u)
  {
    hide FS.Reachable, Index.Text;
  }

  lemma CountKeepsInv(c: Config, s: State, t: CountStep)
    requires Inv(c, s) && CountCan(s, t)
    ensures Inv(c, CountStepped(s, t))
  {
    CountKeepsBytes(c, s, t);
    CountKeepsStages(c, s, t);
    CountKeepsDone(c, s, t);
    hide BytesFlow, StagesEnd, IndexEndorsed, DoneChannel, MainMatches, CountStepped, CountCan;
  }

  /* ---------- chunk ---------- */

  lemma FillKeepsBytes(c: Config, s: State, n: nat)
    requires BytesFlow(c, s) && ChunkCan(c, s, ChunkFill(n))
    ensures BytesFlow(c, ChunkStepped(c, s, ChunkFill(n)))
  {
    var p := s.countChunks.pending;
    assert p == p[..n] + p[n..];
    Assoc(Concat(s.fan.items), s.chunkBuffer, p[..n]);
    Assoc(InChunker(s), p[..n], p[n..]);
  }

  lemma ReadKeepsBytes(c: Config, s: State, t: State, chunk: Bytes)
    requires BytesFlow(c, s) && s.chunkBuffer == chunk + t.chunkBuffer
    requires t == s.(fan := t.fan, chunkBuffer := t.chunkBuffer)
    requires t.fan.items == s.fan.items + [chunk] && t.fan.out == s.fan.out
    ensures BytesFlow(c, t)
  {
    ConcatSnoc(s.fan.items, chunk);
    Assoc(Concat(s.fan.items), chunk, t.chunkBuffer);
  }

  lemma WriteKeepsBytes(c: Config, s: State, t: State, k: Bytes)
    requires BytesFlow(c, s) && s.chunksIndex.pending == [] && t.chunksIndex.pending == Index.Line(k)
    requires t == s.(fan := t.fan, chunksIndex := t.chunksIndex)
    requires t.fan.items == s.fan.items && t.fan.out == s.fan.out + [k]
    ensures BytesFlow(c, t)
  {
    Index.TextSnoc(s.fan.out, k);
    assert s.indexBuffer + [] == s.indexBuffer;
  }

  // What the fan-out/fan-in moves: a chunk it reads, a key it writes, nothing else.
  predicate FanMoves(s: State, a: F.Action, t: State) {
    if a.Produce? && a.p.ReadItem? then
      && s.chunkBuffer == a.p.item + t.chunkBuffer
      && t == s.(fan := t.fan, chunkBuffer := t.chunkBuffer)
      && t.fan.items == s.fan.items + [a.p.item] && t.fan.out == s.fan.out
    else if a == F.Collect(F.WriteResult) then
      && s.chunksIndex.pending == []
      && t == s.(fan := t.fan, chunksIndex := t.chunksIndex)
      && t.fan.items == s.fan.items
      && |t.fan.out| == |s.fan.out| + 1 && t.fan.out == s.fan.out + [t.fan.out[|s.fan.out|]]
      && t.chunksIndex.pending == Index.Line(t.fan.out[|s.fan.out|])
    else
      t == s.(fan := t.fan) && t.fan.items == s.fan.items && t.fan.out == s.fan.out
  }

  lemma FanMovesOnly(c: Config, s: State, a: F.Action)
    requires ChunkCan(c, s, ChunkFan(a))
    ensures FanMoves(s, a, ChunkStepped(c, s, ChunkFan(a)))
  {
    if !(a.Produce? && a.p.ReadItem?) && a != F.Collect(F.WriteResult) {
      hide F.Apply, F.Enabled;
      FS.StepFrame(c.fan, s.fan, a);
    }
  }

  // What StagesEnd says of the chunk stage while its fan-out/fan-in runs.
  lemma FanKeepsStages(c: Config, s: State, a: F.Action)
    requires StagesEnd(c, s) && ChunkCan(c, s, ChunkFan(a))
    ensures StagesEnd(c, ChunkStepped(c, s, ChunkFan(a)))
  {
    FS.ReachableStep(c.fan, s.fan, a);
    FS.ReachableInv(c.fan, s.fan);
    FS.StepFrame(c.fan, s.fan, a);
    hide FS.Reachable, FS.Inv, F.Apply, F.Enabled;
  }

  lemma FanKeepsDone(c: Config, s: State, a: F.Action)
    requires StagesEnd(c, s) && IndexEndorsed(s) && DoneChannel(c, s) && MainMatches(c, s)
    requires ChunkCan(c, s, ChunkFan(a))
    ensures
      var t := ChunkStepped(c, s, ChunkFan(a));
      IndexEndorsed(t) && DoneChannel(c, t) && MainMatches(c, t)
  {
    FS.StepFrame(c.fan, s.fan, a);
    hide FS.Reachable, F.Apply, F.Enabled, Index.Text;
  }

  lemma FanKeepsInv(c: Config, s: State, a: F.Action)
    requires Inv(c, s) && ChunkCan(c, s, ChunkFan(a))
    ensures Inv(c, ChunkStepped(c, s, ChunkFan(a)))
  {
    var t := ChunkStepped(c, s, ChunkFan(a));
    FanMovesOnly(c, s, a);
    FanKeepsStages(c, s, a);
    FanKeepsDone(c, s, a);
    hide StagesEnd, IndexEndorsed, DoneChannel, MainMatches, ChunkStepped, ChunkCan;
    if a.Produce? && a.p.ReadItem? {
      hide BytesFlow;
      ReadKeepsBytes(c, s, t, a.p.item);
    } else if a == F.Collect(F.WriteResult) {
      hide BytesFlow;
      WriteKeepsBytes(c, s, t, t.fan.out[|s.fan.out|]);
    }
  }

  // The other steps of the stage: what it takes in before, and how it ends.

  lemma ChunkKeepsBytes(c: Config, s: State, t: ChunkStep)
    requires BytesFlow(c, s) && ChunkCan(c, s, t) && !t.ChunkFan?
    ensures BytesFlow(c, ChunkStepped(c, s, t))
  {
    if t.ChunkFill? {
      FillKeepsBytes(c, s, t.n);
    }
  }

  lemma ChunkKeepsStages(c: Config, s: State, t: ChunkStep)
    requires StagesEnd(c, s) && ChunkCan(c, s, t) && !t.ChunkFan?
    ensures StagesEnd(c, ChunkStepped(c, s, t))
  {
    hide FS.Reachable;
  }

  lemma ChunkKeepsDone(c: Config, s: State, t: ChunkStep)
    requires StagesEnd(c, s) && IndexEndorsed(s) && DoneChannel(c, s) && MainMatches(c, s)
    requires ChunkCan(c, s, t) && !t.ChunkFan?
    ensures
      var u := ChunkStepped(c, s, t);
      IndexEndorsed(u) && DoneChannel(c, u) && MainMatches(c, u)
  {
    hide FS.Reachable, Index.Text;
  }

  lemma ChunkKeepsInv(c: Config, s: State, t: ChunkStep)
    requires Inv(c, s) && ChunkCan(c, s, t)
    ensures Inv(c, ChunkStepped(c, s, t))
  {
    if t.ChunkFan? {
      FanKeepsInv(c, s, t.a);
    } else {
      ChunkKeepsBytes(c, s, t);
      ChunkKeepsStages(c, s, t);
      ChunkKeepsDone(c, s, t);
      hide BytesFlow, StagesEnd, IndexEndorsed, DoneChannel, MainMatches, ChunkStepped, ChunkCan;
    }
  }

  /* ---------- index ---------- */

  lemma IndexKeepsBytes(c: Config, s: State, t: IndexStep)
    requires BytesFlow(c, s) && IndexCan(s, t)
    ensures BytesFlow(c, IndexStepped(s, t))
  {
    if t.IndexRead? {
      var p := s.chunksIndex.pending;
      assert p == p[..t.n] + p[t.n..];
      Assoc(s.indexBuffer, p[..t.n], p[t.n..]);
    }
  }

  /** A live context, seen after the end of the keys, means that count and chunk ended well. */
  lemma LiveContextEndorses(c: Config, s: State)
    requires StagesEnd(c, s) && !s.index.Gathering? && !s.ctxDone
    ensures Complete(s) || true in s.doneCh
  {
    FS.ReachableInv(c.fan, s.fan);
    hide FS.Reachable, FS.InOrder, FS.WorkersMatch, FS.ObjectsMatch, FS.ProgressMatches;
  }

  /** The first nil on doneCh finds every stage ended without an error. */
  lemma FirstNilMeansUploaded(c: Config, s: State)
    requires BytesFlow(c, s) && StagesEnd(c, s) && IndexEndorsed(s)
    requires s.doneCh == [] && s.index == IndexReporting(false)
    ensures Uploaded(c, IndexStepped(s, IndexReport))
  {
    hide FS.Reachable;
    assert s.chunksIndex.pending == [] && s.indexBuffer + [] == s.indexBuffer;
    assert Counted(s) + [] == Counted(s);
    assert c.archive[..|c.archive|] == c.archive;
  }

  lemma IndexKeepsStages(c: Config, s: State, t: IndexStep)
    requires StagesEnd(c, s) && IndexCan(s, t)
    ensures StagesEnd(c, IndexStepped(s, t))
  {
    hide FS.Reachable;
  }

  lemma IndexKeepsEndorsement(c: Config, s: State, t: IndexStep)
    requires StagesEnd(c, s) && IndexEndorsed(s) && IndexCan(s, t)
    ensures IndexEndorsed(IndexStepped(s, t))
  {
    if t.IndexTry? {
      LiveContextEndorses(c, s);
    }
    hide StagesEnd;
  }

  lemma IndexKeepsDone(c: Config, s: State, t: IndexStep)
    requires BytesFlow(c, s) && StagesEnd(c, s) && IndexEndorsed(s) && DoneChannel(c, s)
    requires IndexCan(s, t)
    ensures DoneChannel(c, IndexStepped(s, t))
  {
    if t.IndexReport? && s.doneCh == [] && !s.index.failed {
      FirstNilMeansUploaded(c, s);
    }
    hide BytesFlow, StagesEnd, IndexEndorsed, Index.Text;
  }

  lemma IndexKeepsMain(c: Config, s: State, t: IndexStep)
    requires MainMatches(c, s) && IndexCan(s, t)
    ensures MainMatches(c, IndexStepped(s, t))
  {
  }

  lemma IndexKeepsInv(c: Config, s: State, t: IndexStep)
    requires Inv(c, s) && IndexCan(s, t)
    ensures Inv(c, IndexStepped(s, t))
  {
    IndexKeepsBytes(c, s, t);
    IndexKeepsStages(c, s, t);
    IndexKeepsEndorsement(c, s, t);
    IndexKeepsDone(c, s, t);
    IndexKeepsMain(c, s, t);
    hide BytesFlow, StagesEnd, IndexEndorsed, DoneChannel, MainMatches, IndexStepped, IndexCan;
  }

  /* ---------- heartbeat, start, and the caller ---------- */

  /** `t` differs from `s` only in the heartbeat, start itself, and what they touch. */
  ghost predicate SameStages(s: State, t: State) {
    && t == s.(ctxDone := t.ctxDone, heartbeat := t.heartbeat, doneCh := t.doneCh, main := t.main,
               metadataObject := t.metadataObject, announced := t.announced, acknowledged := t.acknowledged)
    && (s.ctxDone ==> t.ctxDone)
    && (t.doneCh == s.doneCh || t.doneCh == s.doneCh + [true])
  }

  lemma OtherStepsKeepStages(c: Config, s: State, t: State)
    requires BytesFlow(c, s) && StagesEnd(c, s) && IndexEndorsed(s) && DoneChannel(c, s)
    requires SameStages(s, t)
    ensures BytesFlow(c, t) && StagesEnd(c, t) && IndexEndorsed(t) && DoneChannel(c, t)
  {
    hide FS.Reachable, Index.Text, Concat;
  }

  lemma HeartbeatLeavesStages(c: Config, s: State, t: HeartbeatStep)
    requires MainMatches(c, s) && HeartbeatCan(s, t)
    ensures SameStages(s, HeartbeatStepped(s, t)) && MainMatches(c, HeartbeatStepped(s, t))
  {
  }

  lemma HeartbeatKeepsInv(c: Config, s: State, t: HeartbeatStep)
    requires Inv(c, s) && HeartbeatCan(s, t)
    ensures Inv(c, HeartbeatStepped(s, t))
  {
    HeartbeatLeavesStages(c, s, t);
    hide BytesFlow, StagesEnd, IndexEndorsed, DoneChannel, MainMatches, SameStages, HeartbeatStepped, HeartbeatCan;
    OtherStepsKeepStages(c, s, HeartbeatStepped(s, t));
  }

  /** `t` differs from `s` only in start itself and what it touches. */
  predicate OnlyMain(s: State, t: State) {
    && t == s.(ctxDone := t.ctxDone, main := t.main, metadataObject := t.metadataObject,
               announced := t.announced, acknowledged := t.acknowledged)
    && (s.ctxDone ==> t.ctxDone)
  }

  lemma TakingTouchesMain(s: State, t: MainStep)
    requires MainCan(s, t) && (t.TakeDone? || t.TakeCount?)
    ensures OnlyMain(s, MainStepped(s, t))
  {
  }

  lemma FailingCallTouchesMain(s: State, kept: bool)
    requires MainCan(s, MetadataCallFails(kept))
    ensures OnlyMain(s, MainStepped(s, MetadataCallFails(kept)))
  {
  }

  lemma MetadataTouchesMain(s: State, t: MainStep)
    requires MainCan(s, t) && (t.MetadataStop? || t.MetadataTry? || t.MetadataCallWorks?)
    ensures OnlyMain(s, MainStepped(s, t))
  {
  }

  lemma AnnouncingTouchesMain(s: State, t: MainStep)
    requires MainCan(s, t) && (t.AnnounceWorks? || t.AnnounceFails?)
    ensures OnlyMain(s, MainStepped(s, t))
  {
  }

  lemma MainTouchesMain(s: State, t: MainStep)
    requires MainCan(s, t)
    ensures OnlyMain(s, MainStepped(s, t))
  {
    hide OnlyMain, MainStepped, MainCan;
    match t
    case TakeDone => TakingTouchesMain(s, t);
    case TakeCount => TakingTouchesMain(s, t);
    case MetadataCallFails(kept) => FailingCallTouchesMain(s, kept);
    case AnnounceWorks => AnnouncingTouchesMain(s, t);
    case AnnounceFails => AnnouncingTouchesMain(s, t);
    case _ => MetadataTouchesMain(s, t);
  }

  lemma MainLeavesStages(s: State, t: MainStep)
    requires MainCan(s, t)
    ensures SameStages(s, MainStepped(s, t))
  {
    MainTouchesMain(s, t);
    hide MainStepped, MainCan;
  }

  lemma MainKeepsMain(c: Config, s: State, t: MainStep)
    requires MainMatches(c, s) && DoneChannel(c, s) && MainCan(s, t)
    ensures MainMatches(c, MainStepped(s, t))
  {
    hide Complete, Index.Text;
  }

  lemma MainKeepsInv(c: Config, s: State, t: MainStep)
    requires Inv(c, s) && MainCan(s, t)
    ensures Inv(c, MainStepped(s, t))
  {
    MainLeavesStages(s, t);
    hide BytesFlow, StagesEnd, IndexEndorsed, DoneChannel, MainMatches, SameStages, MainStepped, MainCan;
    MainKeepsMain(c, s, t);
    OtherStepsKeepStages(c, s, MainStepped(s, t));
  }

  lemma CancelKeepsInv(c: Config, s: State)
    requires Inv(c, s)
    ensures Inv(c, Apply(c, s, ParentCancel))
  {
    OtherStepsKeepStages(c, s, Apply(c, s, ParentCancel));
    hide BytesFlow, StagesEnd, IndexEndorsed, DoneChannel;
  }

  lemma StepKeepsInv(c: Config, s: State, a: Action)
    requires Inv(c, s) && Enabled(c, s, a)
    ensures Inv(c, Apply(c, s, a))
  {
    hide Inv, TarStepped, CountStepped, ChunkStepped, IndexStepped, HeartbeatStepped, MainStepped;
    match a {
      case Tar(t) => TarKeepsInv(c, s, t);
      case Count(t) => CountKeepsInv(c, s, t);
      case Chunk(t) => ChunkKeepsInv(c, s, t);
      case Index(t) => IndexKeepsInv(c, s, t);
      case Heartbeat(t) => HeartbeatKeepsInv(c, s, t);
      case Main(t) => MainKeepsInv(c, s, t);
      case ParentCancel => CancelKeepsInv(c, s);
    }
  }

  /* ---------- so every run does ---------- */

  lemma InitInv(c: Config, store: map<Bytes, Bytes>)
    requires c.fan.mode.Upload? && FS.WellKeyed(c.fan, store)
    ensures Inv(c, Init(store))
  {
    FS.ReachableInit(c.fan, store);
    assert Written(Init(store)) == [];
  }

  lemma {:induction false} RunKeepsInv(c: Config, s: State, acts: seq<Action>)
    requires Inv(c, s) && Valid(c, s, acts)
    ensures Inv(c, Run(c, s, acts))
    decreases |acts|
  {
    hide Inv;
    if acts != [] {
      StepKeepsInv(c, s, acts[0]);
      RunKeepsInv(c, Apply(c, s, acts[0]), acts[1..]);
    }
  }
}
