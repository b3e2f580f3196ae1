/** The upload's start is never stuck, and its safety theorems are not empty: whatever the
    archive, the channel's capacity and the contents of the store, some run commits. */
module UploadLiveness {
  import opened Prelude
  import opened Pipes
  import opened UploadProcess
  import opened UploadSafety
  import Ix = Index
  import F = FanOut
  import FS = FanOutSafety
  import FL = FanOutLiveness

  /* ---------- no deadlock ---------- */

  /** A step of the pipeline that gets something done: not the heartbeat's or the caller's
      doing, and no read of nothing. */
  predicate Moves(a: Action) {
    match a
    case Chunk(ChunkFill(n)) => n > 0
    case Chunk(ChunkFan(f)) => FL.Own(f) || (f.Produce? && (f.p.ReadItem? || f.p.ReadEof?))
    case Index(IndexRead(n)) => n > 0
    case Heartbeat(_) => false
    case ParentCancel => false
    case _ => true
  }

  ghost predicate CanMove(c: Config, s: State) {
    exists a :: Moves(a) && Enabled(c, s, a)
  }

  lemma MainCanMove(c: Config, s: State)
    requires Reachable(c, s) && !s.main.MainReturned? && (s.main.Waiting? ==> s.doneCh != [])
    ensures CanMove(c, s)
  {
    if s.main.AwaitingCount? {
      CountFailureNeverReached(c, s);
    }
    hide Reachable;
    var t := match s.main
      case Waiting => TakeDone
      case AwaitingCount => TakeCount
      case MetadataTrying(_, _) => if s.ctxDone then MetadataStop else MetadataTry
      case MetadataCalling(_, _) => MetadataCallWorks
      case _ => AnnounceWorks;
    assert Enabled(c, s, Main(t)) && Moves(Main(t));
  }

  lemma TarCanMove(c: Config, s: State)
    requires s.tarCount.pending == [] && !s.tar.Closed? && s.main.Waiting? && s.doneCh == []
    requires s.written <= |c.archive|
    ensures CanMove(c, s)
  {
    var t := match s.tar
      case Working => if s.written < |c.archive| then TarWrite(1) else TarFinish
      case Failing => TarReport
      case _ => TarClose;
    assert Enabled(c, s, Tar(t)) && Moves(Tar(t));
  }

  lemma CountCanMove(c: Config, s: State)
    requires s.countChunks.pending == [] && !s.count.CountClosed? && s.main.Waiting? && s.doneCh == []
    requires s.written <= |c.archive| && (s.tar.Closed? <==> s.tarCount.closed)
    ensures CanMove(c, s)
  {
    if s.count.CountClosing? {
      assert Enabled(c, s, Action.Count(CountClose)) && Moves(Action.Count(CountClose));
    } else if s.tarCount.pending != [] {
      var t := CountRead(|s.tarCount.pending|);
      assert Enabled(c, s, Action.Count(t)) && Moves(Action.Count(t));
    } else if s.tarCount.closed {
      assert Enabled(c, s, Action.Count(CountEof)) && Moves(Action.Count(CountEof));
    } else {
      TarCanMove(c, s);
    }
  }

  /** The producer gets its next chunk, or the end, or waits for the stages before it. */
  lemma ReadingCanMove(c: Config, s: State)
    requires s.fan.producer.Reading? && s.main.Waiting? && s.doneCh == [] && s.written <= |c.archive|
    requires (s.tar.Closed? <==> s.tarCount.closed) && (s.count.CountClosed? <==> s.countChunks.closed)
    ensures CanMove(c, s)
  {
    if s.countChunks.pending != [] {
      var t := Chunk(ChunkFill(|s.countChunks.pending|));
      assert Enabled(c, s, t) && Moves(t);
    } else if s.countChunks.closed {
      var t := Chunk(ChunkFan(F.Produce(if s.chunkBuffer == [] then F.ReadEof else F.ReadItem(s.chunkBuffer))));
      assert Enabled(c, s, t) && Moves(t);
    } else {
      CountCanMove(c, s);
    }
  }

  lemma FanCanMove(c: Config, s: State)
    requires FS.Reachable(c.fan, s.fan) && !s.fan.fanIn.Returned? && !FL.Idle(s.fan)
    requires s.chunksIndex == Pipe([], false)
    ensures CanMove(c, s)
  {
    FL.NoDeadlock(c.fan, s.fan);
    hide FS.Reachable, F.Enabled;
    var a :| FL.Own(a) && F.Enabled(c.fan, s.fan, a);
    assert FanMeets(s, a);
    assert Enabled(c, s, Chunk(ChunkFan(a))) && Moves(Chunk(ChunkFan(a)));
  }

  lemma ChunkCanMove(c: Config, s: State)
    requires Inv(c, s) && s.main.Waiting? && s.doneCh == [] && s.chunksIndex == Pipe([], false)
    ensures CanMove(c, s)
  {
    hide FS.Reachable;
    if s.chunk.Working? && !s.fan.fanIn.Returned? {
      if FL.Idle(s.fan) {
        ReadingCanMove(c, s);
      } else {
        FanCanMove(c, s);
      }
    } else {
      var t := match s.chunk
        case Working => ChunkReturn
        case Failing => ChunkReport
        case _ => ChunkClose;
      assert Enabled(c, s, Chunk(t)) && Moves(Chunk(t));
    }
  }

  lemma IndexCanMove(c: Config, s: State)
    requires Inv(c, s) && s.main.Waiting? && s.doneCh == [] && !s.index.IndexFinished?
    requires s.index.Gathering? ==> s.chunksIndex.pending != [] || s.chunksIndex.closed
    ensures CanMove(c, s)
  {
    hide Inv;
    var t := match s.index
      case Gathering => if s.chunksIndex.pending != [] then IndexRead(|s.chunksIndex.pending|) else IndexEof
      case IndexTrying(_) => if s.ctxDone then IndexStop else IndexTry
      case IndexCalling(_) => IndexCallWorks
      case _ => IndexReport;
    assert Enabled(c, s, Action.Index(t)) && Moves(Action.Index(t));
  }

  /** start never hangs: until it returns, whatever has failed, expired or been cancelled,
      one of the stages or start itself can take a step. */
  lemma NeverStuck(c: Config, s: State)
    requires Reachable(c, s) && !s.main.MainReturned?
    ensures CanMove(c, s)
  {
    if !s.main.Waiting? || s.doneCh != [] {
      MainCanMove(c, s);
    } else {
      ReachableInv(c, s);
      assert !s.index.IndexFinished?;
      hide Inv, Reachable;
      if s.index.Gathering? && s.chunksIndex == Pipe([], false) {
        ChunkCanMove(c, s);
      } else {
        IndexCanMove(c, s);
      }
    }
  }

  /* ---------- a run that commits ---------- */

  lemma {:induction false} RunExtends(c: Config, s: State, acts: seq<Action>, a: Action)
    requires Valid(c, s, acts) && Enabled(c, Run(c, s, acts), a)
    ensures Valid(c, s, acts + [a])
    ensures Run(c, s, acts + [a]) == Apply(c, Run(c, s, acts), a)
    decreases |acts|
  {
    hide Apply, Enabled;
    var more := acts + [a];
    if acts == [] {
      assert more[1..] == [];
    } else {
      assert more[1..] == acts[1..] + [a];
      RunExtends(c, Apply(c, s, acts[0]), acts[1..], a);
    }
  }

  lemma TakeStep(c: Config, s: State, a: Action) returns (t: State)
    requires Reachable(c, s) && Enabled(c, s, a)
    ensures t == Apply(c, s, a) && Reachable(c, t)
  {
    hide Apply, Enabled;
    var store, acts :| Starts(c, store, acts) && s == Run(c, Init(store), acts);
    RunExtends(c, Init(store), acts, a);
    assert Starts(c, store, acts + [a]);
    t := Apply(c, s, a);
  }

  lemma Begin(c: Config, store: map<Bytes, Bytes>) returns (s: State)
    requires c.fan.mode.Upload? && FS.WellKeyed(c.fan, store)
    ensures Reachable(c, s) && s == Init(store)
  {
    s := Init(store);
    assert Starts(c, store, []) && s == Run(c, Init(store), []);
  }

  /** The archive has passed tar and count, and waits in the chunker. */
  function Counted(c: Config, store: map<Bytes, Bytes>): State {
    var n := |c.archive|;
    Init(store).(tar := Closed(false), written := n, tarCount := Pipe([], true),
                 count := CountClosed, total := n, countCh := Some(CountOk(n)),
                 countChunks := Pipe([], true), chunkBuffer := c.archive)
  }

  lemma PassOn(c: Config, store: map<Bytes, Bytes>) returns (s: State)
    requires c.fan.mode.Upload? && FS.WellKeyed(c.fan, store)
    ensures Reachable(c, s)
    ensures s == Init(store).(written := |c.archive|, total := |c.archive|, chunkBuffer := c.archive)
  {
    s := Begin(c, store);
    hide Reachable;
    var n := |c.archive|;
    if n > 0 {
      s := TakeStep(c, s, Tar(TarWrite(n)));
      assert s.tarCount.pending == c.archive;
      s := TakeStep(c, s, Action.Count(CountRead(n)));
      assert s.countChunks.pending == c.archive;
      s := TakeStep(c, s, Chunk(ChunkFill(n)));
      assert s.chunkBuffer == c.archive;
    }
  }

  lemma Count(c: Config, store: map<Bytes, Bytes>) returns (s: State)
    requires c.fan.mode.Upload? && FS.WellKeyed(c.fan, store)
    ensures Reachable(c, s) && s == Counted(c, store)
  {
    s := PassOn(c, store);
    hide Reachable;
    s := TakeStep(c, s, Tar(TarFinish));
    s := TakeStep(c, s, Tar(TarClose));
    s := TakeStep(c, s, Action.Count(CountEof));
    s := TakeStep(c, s, Action.Count(CountClose));
  }

  /** Between two chunks: `j` of them are done, and the next is about to be cut off. */
  predicate AtRest(s: State, j: nat) {
    && !s.ctxDone && s.doneCh == [] && s.main.Waiting? && s.chunk.Working? && s.index.Gathering?
    && s.countChunks == Pipe([], true) && s.chunksIndex == Pipe([], false)
    && s.countCh.Some? && s.countCh.value.CountOk?
    && FL.Idle(s.fan) && !s.fan.cancelled && |s.fan.items| == j
  }

  lemma CutNext(c: Config, s0: State, part: Bytes, rest: Bytes, j: nat) returns (s: State)
    requires Reachable(c, s0) && AtRest(s0, j) && part != [] && s0.chunkBuffer == part + rest
    ensures Reachable(c, s)
    ensures s == s0.(chunkBuffer := rest,
                     fan := s0.fan.(items := s0.fan.items + [part], producer := F.Sending(j)))
  {
    hide Reachable;
    s := TakeStep(c, s0, Chunk(ChunkFan(F.Produce(F.ReadItem(part)))));
    assert (part + rest)[|part|..] == rest;
  }

  lemma StartNext(c: Config, s0: State, j: nat) returns (s: State)
    requires Reachable(c, s0) && s0.fan.producer == F.Sending(j) && c.fan.mode.Upload?
    requires s0.fan.fanIn.Selecting? && s0.fan.queue == [] && !s0.fan.broken && |s0.fan.items| == j + 1
    ensures Reachable(c, s)
    ensures s == s0.(fan := s0.fan.(producer := F.Reading, sent := s0.fan.sent + [j], fanIn := F.Awaiting(j),
                                    workers := s0.fan.workers[j := F.Checking]))
  {
    hide Reachable;
    if c.fan.concurrency == 0 {
      s := TakeStep(c, s0, Chunk(ChunkFan(F.Produce(F.HandItem))));
    } else {
      s := TakeStep(c, s0, Chunk(ChunkFan(F.Produce(F.SendItem))));
      s := TakeStep(c, s, Chunk(ChunkFan(F.Collect(F.TakeItem))));
      assert s.fan.queue == [];
    }
    s := TakeStep(c, s, Chunk(ChunkFan(F.Produce(F.SpawnWorker))));
  }

  lemma FirstTry(c: Config, s0: State, j: nat) returns (s: State)
    requires Reachable(c, s0) && j in s0.fan.workers && s0.fan.workers[j] == F.Checking
    requires j < |s0.fan.items| && !F.Done(s0.fan)
    ensures Reachable(c, s)
    ensures s == s0.(fan := s0.fan.(workers := s0.fan.workers[j := F.Calling(0)]))
  {
    hide Reachable;
    s := TakeStep(c, s0, Chunk(ChunkFan(F.Work(j, F.CheckMisses))));
    s := TakeStep(c, s, Chunk(ChunkFan(F.Work(j, F.TryStarts))));
  }

  lemma NextTry(c: Config, s0: State, j: nat, n: nat) returns (s: State)
    requires Reachable(c, s0) && j in s0.fan.workers && s0.fan.workers[j] == F.Calling(n) && n < 2
    requires j < |s0.fan.items| && !F.Done(s0.fan)
    ensures Reachable(c, s)
    ensures s == s0.(fan := s0.fan.(workers := s0.fan.workers[j := F.Calling(n + 1)]))
  {
    hide Reachable;
    s := TakeStep(c, s0, Chunk(ChunkFan(F.Work(j, F.CallFails(false)))));
    s := TakeStep(c, s, Chunk(ChunkFan(F.Work(j, F.TryStarts))));
  }

  lemma {:induction false} TryItem(c: Config, s0: State, j: nat, fails: nat) returns (s: State)
    requires Reachable(c, s0) && j in s0.fan.workers && s0.fan.workers[j] == F.Checking
    requires j < |s0.fan.items| && !F.Done(s0.fan) && fails <= 2
    ensures Reachable(c, s)
    ensures s == s0.(fan := s0.fan.(workers := s0.fan.workers[j := F.Calling(fails)]))
  {
    hide Reachable;
    if fails == 0 {
      s := FirstTry(c, s0, j);
    } else {
      s := TryItem(c, s0, j, fails - 1);
      s := NextTry(c, s, j, fails - 1);
    }
  }

  lemma StoreItem(c: Config, s0: State, j: nat, fails: nat) returns (s: State)
    requires Reachable(c, s0) && c.fan.mode.Upload? && j in s0.fan.workers && s0.fan.workers[j] == F.Checking
    requires j < |s0.fan.items| && !F.Done(s0.fan) && fails <= 2
    ensures Reachable(c, s)
    ensures s == s0.(fan := s0.fan.(workers := s0.fan.workers[j := F.AfterTransfer(c.fan)],
                                    store := s0.fan.store[c.fan.hash(s0.fan.items[j]) := s0.fan.items[j]]))
  {
    s := TryItem(c, s0, j, fails);
    hide Reachable;
    s := TakeStep(c, s, Chunk(ChunkFan(F.Work(j, F.CallWorks))));
  }

  lemma ReportItem(c: Config, s0: State, j: nat) returns (s: State)
    requires Reachable(c, s0) && j in s0.fan.workers && s0.fan.workers[j] == F.AfterTransfer(c.fan)
    requires j < |s0.fan.items|
    ensures Reachable(c, s)
    ensures s == s0.(fan := s0.fan.(workers := s0.fan.workers[j := F.Offering(true)],
                                    reported := s.fan.reported, progress := s.fan.progress))
  {
    hide Reachable;
    s := s0;
    if c.fan.reporting {
      s := TakeStep(c, s, Chunk(ChunkFan(F.Work(j, F.SendReport))));
    }
  }

  /** The fan-in writes the key and the index stage reads it. */
  lemma WriteNext(c: Config, s0: State, j: nat) returns (s: State)
    requires Reachable(c, s0) && c.fan.mode.Upload? && s0.fan.fanIn == F.Awaiting(j) && j < |s0.fan.items|
    requires j in s0.fan.workers && s0.fan.workers[j] == F.Offering(true)
    requires s0.chunksIndex == Pipe([], false) && s0.index.Gathering?
    ensures Reachable(c, s)
    ensures s == s0.(indexBuffer := s.indexBuffer,
                     fan := s0.fan.(fanIn := F.Selecting, workers := s0.fan.workers[j := F.Exited],
                                    delivered := s0.fan.delivered + [j], out := s.fan.out))
  {
    hide Reachable, Ix.Line;
    s := TakeStep(c, s0, Chunk(ChunkFan(F.Collect(F.TakeResult))));
    s := TakeStep(c, s, Chunk(ChunkFan(F.Collect(F.WriteResult))));
    s := TakeStep(c, s, Action.Index(IndexRead(|s.chunksIndex.pending|)));
    assert s.chunksIndex.pending == [];
  }

  lemma UploadNext(c: Config, s0: State, part: Bytes, rest: Bytes, j: nat, fails: nat) returns (s: State)
    requires Reachable(c, s0) && AtRest(s0, j) && part != [] && s0.chunkBuffer == part + rest
    requires c.fan.mode.Upload? && fails <= 2
    ensures Reachable(c, s) && AtRest(s, j + 1) && s.chunkBuffer == rest
    ensures s.fan.items == s0.fan.items + [part]
  {
    hide Reachable, Apply, Enabled;
    s := CutNext(c, s0, part, rest, j);
    s := StartNext(c, s, j);
    s := StoreItem(c, s, j, fails);
    s := ReportItem(c, s, j);
    s := WriteNext(c, s, j);
  }

  lemma OnePartFurther(parts: seq<Bytes>, j: nat)
    requires 0 < j <= |parts|
    ensures Concat(parts[j - 1..]) == parts[j - 1] + Concat(parts[j..])
    ensures parts[..j] == parts[..j - 1] + [parts[j - 1]]
    ensures parts[j - 1] in parts
  {
    var part := parts[j - 1];
    assert parts[j - 1..] == [part] + parts[j..];
    ConcatAppend([part], parts[j..]);
    ConcatSnoc([], part);
    hide Concat;
    assert [] + part == part && [] + [part] == [part];
  }

  lemma {:induction false} UploadMany(c: Config, store: map<Bytes, Bytes>, parts: seq<Bytes>, h: Hiccups, j: nat)
      returns (s: State)
    requires c.fan.mode.Upload? && FS.WellKeyed(c.fan, store) && c.archive == Concat(parts) && [] !in parts
    requires j <= |parts| && Survivable(h, |parts|)
    ensures Reachable(c, s) && AtRest(s, j) && s.chunkBuffer == Concat(parts[j..]) && s.fan.items == parts[..j]
  {
    hide Reachable, FS.WellKeyed, Concat;
    if j == 0 {
      s := Count(c, store);
      assert parts[0..] == parts && parts[..0] == [];
    } else {
      hide AtRest;
      s := UploadMany(c, store, parts, h, j - 1);
      OnePartFurther(parts, j);
      s := UploadNext(c, s, parts[j - 1], Concat(parts[j..]), j - 1, h.chunks[j - 1]);
    }
  }

  /** The chunk stage closes its pipe with nothing left to do. */
  lemma EndChunks(c: Config, s0: State, j: nat) returns (s: State)
    requires Reachable(c, s0) && AtRest(s0, j) && s0.chunkBuffer == []
    ensures Reachable(c, s)
    ensures s == s0.(fan := s.fan, chunk := Closed(false), chunksIndex := Pipe([], true))
    ensures s.fan.items == s0.fan.items
  {
    hide Reachable;
    s := TakeStep(c, s0, Chunk(ChunkFan(F.Produce(F.ReadEof))));
    s := TakeStep(c, s, Chunk(ChunkFan(F.Produce(F.CloseItems))));
    s := TakeStep(c, s, Chunk(ChunkFan(F.Collect(F.TakeClosed))));
    s := TakeStep(c, s, Chunk(ChunkReturn));
    s := TakeStep(c, s, Chunk(ChunkClose));
  }

  lemma {:induction false} TryIndex(c: Config, s0: State, fails: nat) returns (s: State)
    requires Reachable(c, s0) && s0.chunksIndex == Pipe([], true) && s0.index.Gathering?
    requires !s0.ctxDone && fails <= 2
    ensures Reachable(c, s) && s == s0.(index := IndexCalling(fails))
  {
    hide Reachable;
    if fails == 0 {
      s := TakeStep(c, s0, Action.Index(IndexEof));
    } else {
      s := TryIndex(c, s0, fails - 1);
      s := TakeStep(c, s, Action.Index(IndexCallFails(false)));
    }
    s := TakeStep(c, s, Action.Index(IndexTry));
  }

  lemma UploadIndex(c: Config, s0: State, fails: nat) returns (s: State)
    requires Reachable(c, s0) && s0.chunksIndex == Pipe([], true) && s0.index.Gathering?
    requires !s0.ctxDone && s0.main.Waiting? && s0.doneCh == [] && fails <= 2
    ensures Reachable(c, s)
    ensures s == s0.(index := IndexFinished, indexObject := Some(s0.indexBuffer), doneCh := [false])
  {
    s := TryIndex(c, s0, fails);
    hide Reachable;
    s := TakeStep(c, s, Action.Index(IndexCallWorks));
    s := TakeStep(c, s, Action.Index(IndexReport));
  }

  lemma {:induction false} TryMetadata(c: Config, s0: State, fails: nat) returns (s: State)
    requires Reachable(c, s0) && s0.countCh.Some? && s0.countCh.value.CountOk?
    requires !s0.ctxDone && s0.main.Waiting? && s0.doneCh == [false] && fails <= 2
    ensures Reachable(c, s) && s == s0.(main := MetadataCalling(fails, s0.countCh.value.total))
  {
    hide Reachable;
    if fails == 0 {
      s := TakeStep(c, s0, Main(TakeDone));
      s := TakeStep(c, s, Main(TakeCount));
    } else {
      s := TryMetadata(c, s0, fails - 1);
      s := TakeStep(c, s, Main(MetadataCallFails(false)));
    }
    s := TakeStep(c, s, Main(MetadataTry));
  }

  lemma Announce(c: Config, s0: State, fails: nat, answered: bool) returns (s: State)
    requires Reachable(c, s0) && s0.countCh.Some? && s0.countCh.value.CountOk?
    requires !s0.ctxDone && s0.main.Waiting? && s0.doneCh == [false] && fails <= 2
    ensures Reachable(c, s) && s.main == MainReturned(!answered) && s.fan == s0.fan
    ensures s.announced
  {
    s := TryMetadata(c, s0, fails);
    hide Reachable;
    s := TakeStep(c, s, Main(MetadataCallWorks));
    s := TakeStep(c, s, Main(if answered then AnnounceWorks else AnnounceFails));
  }

  lemma UploadAll(c: Config, store: map<Bytes, Bytes>, parts: seq<Bytes>, h: Hiccups, answered: bool)
      returns (s: State)
    requires c.fan.mode.Upload? && FS.WellKeyed(c.fan, store) && c.archive == Concat(parts) && [] !in parts
    requires Survivable(h, |parts|)
    ensures Reachable(c, s) && s.main == MainReturned(!answered) && s.announced && Committed(c, s)
    ensures s.fan.items == parts
  {
    s := UploadMany(c, store, parts, h, |parts|);
    assert parts[|parts|..] == [] && parts[..|parts|] == parts;
    hide Reachable, Committed;
    s := EndChunks(c, s, |parts|);
    s := UploadIndex(c, s, h.index);
    s := Announce(c, s, h.metadata, answered);
    AnnouncedMeansCommitted(c, s);
  }

  /** However the chunker cuts the archive, whatever the store holds, and whichever calls fail
      up to two times each, there is a run in which start returns nil, and with it the dataset
      is committed in just those chunks. */
  lemma AnyArchiveCanBeCommitted(c: Config, store: map<Bytes, Bytes>, parts: seq<Bytes>, h: Hiccups)
      returns (s: State)
    requires c.fan.mode.Upload? && FS.WellKeyed(c.fan, store) && c.archive == Concat(parts) && [] !in parts
    requires Survivable(h, |parts|)
    ensures Reachable(c, s) && s.main == MainReturned(false) && s.acknowledged && Committed(c, s)
    ensures s.fan.items == parts
  {
    s := UploadAll(c, store, parts, h, true);
    hide Reachable, Committed;
    NilMeansAcknowledged(c, s);
  }

  /** The dataset can be complete, committed and announced, and start return an error all the
      same, because the answer to the announcement was lost. */
  lemma CommittedUploadCanFail(c: Config, store: map<Bytes, Bytes>, parts: seq<Bytes>) returns (s: State)
    requires c.fan.mode.Upload? && FS.WellKeyed(c.fan, store) && c.archive == Concat(parts) && [] !in parts
    ensures Reachable(c, s) && s.main == MainReturned(true) && s.announced && Committed(c, s)
  {
    s := UploadAll(c, store, parts, NoHiccups(|parts|), false);
  }
}
