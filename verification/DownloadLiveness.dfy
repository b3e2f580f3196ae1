/** The download's start is never stuck: until it returns, whatever has failed or been
    cancelled, one of its stages or start itself can take a step. */
module DownloadLiveness {
  import opened Prelude
  import opened Pipes
  import opened DownloadProcess
  import opened DownloadSafety
  import Index
  import F = FanOut
  import FS = FanOutSafety
  import FL = FanOutLiveness

  /** A step of the program that gets something done: not the caller's doing, no read of
      nothing, and nothing that hangs on what is in the archive. */
  predicate Moves(s: State, a: Action) {
    match a
    case Chunk(ChunkScan) => s.indexChunks.pending != []
    case Chunk(ChunkFan(f)) => FL.Own(f) || (f.Produce? && (f.p.ReadItem? || f.p.ReadEof? || f.p.ReadError?))
    case Untar(UntarRead(n)) => n > 0
    case Untar(t) => t.UntarStop? || t.UntarCheck? || t.UntarEof? || t.UntarReport?
    case ParentCancel => false
    case _ => true
  }

  ghost predicate CanMove(c: Config, s: State) {
    exists a :: Moves(s, a) && Enabled(c, s, a)
  }

  lemma FetchCanMove(c: Config, s: State)
    requires !s.fetch.FetchClosed? && s.indexChunks.pending == [] && s.doneCh == []
    requires s.main.MainWaiting? && (s.fetch.FetchWriting? ==> c.index.Some?)
    ensures CanMove(c, s)
  {
    var t := match s.fetch
      case FetchTrying(_) => if s.ctxDone then FetchStop else FetchTry
      case FetchCalling(_) => FetchCallFails
      case FetchWriting => FetchWrite
      case FetchFailing => FetchReport
      case _ => FetchClose;
    assert Enabled(c, s, Fetch(t)) && Moves(s, Fetch(t));
  }

  /** The producer gets its next key, a bad line or the end, or waits for the index. */
  lemma ReadingCanMove(c: Config, s: State)
    requires s.fan.producer.Reading? && s.main.MainWaiting? && s.doneCh == []
    requires (s.fetch.FetchClosed? <==> s.indexChunks.closed) && (s.fetch.FetchWriting? ==> c.index.Some?)
    ensures CanMove(c, s)
  {
    if LineReady(s) {
      var p := match Index.NextKey(s.scan)
        case Eof => F.ReadEof
        case BadLine => F.ReadError
        case GotKey(k) => F.ReadItem(k);
      hide Index.NextKey;
      assert F.Enabled(c.fan, s.fan, F.Produce(p)) && FanMeets(s, F.Produce(p));
      assert Enabled(c, s, Chunk(ChunkFan(F.Produce(p)))) && Moves(s, Chunk(ChunkFan(F.Produce(p))));
    } else if s.indexChunks.pending != [] {
      assert Enabled(c, s, Chunk(ChunkScan)) && Moves(s, Chunk(ChunkScan));
    } else {
      FetchCanMove(c, s);
    }
  }

  lemma FanCanMove(c: Config, s: State)
    requires FS.Reachable(c.fan, s.fan) && !s.fan.fanIn.Returned? && !FL.Idle(s.fan)
    requires s.chunksUntar == Pipe([], false)
    ensures CanMove(c, s)
  {
    FL.NoDeadlock(c.fan, s.fan);
    hide FS.Reachable, F.Enabled;
    var a :| FL.Own(a) && F.Enabled(c.fan, s.fan, a);
    assert FanMeets(s, a);
    assert Enabled(c, s, Chunk(ChunkFan(a))) && Moves(s, Chunk(ChunkFan(a)));
  }

  lemma ChunkCanMove(c: Config, s: State)
    requires StagesEnd(c, s) && s.main.MainWaiting? && s.doneCh == [] && s.chunksUntar == Pipe([], false)
    ensures CanMove(c, s)
  {
    hide FS.Reachable;
    if s.chunk.Working? && !s.fan.fanIn.Returned? {
      if FL.Idle(s.fan) {
        ReadingCanMove(c, s);
      } else {
        FanCanMove(c, s);
      }
    } else {
      var t := match s.chunk
        case Working => ChunkReturn
        case Failing => ChunkReport
        case _ => ChunkClose;
      assert Enabled(c, s, Chunk(t)) && Moves(s, Chunk(t));
    }
  }

  lemma UntarCanMove(c: Config, s: State)
    requires !s.untar.UntarFinished? && s.main.MainWaiting? && s.doneCh == []
    requires s.untar.UntarReading? ==> s.chunksUntar.pending != [] || s.chunksUntar.closed
    ensures CanMove(c, s)
  {
    var t := match s.untar
      case UntarChecking => if s.ctxDone then UntarStop else UntarCheck
      case UntarReading => if s.chunksUntar.pending != [] then UntarRead(|s.chunksUntar.pending|) else UntarEof
      case _ => UntarReport;
    assert Enabled(c, s, Untar(t)) && Moves(s, Untar(t));
  }

  lemma NeverStuck(c: Config, s: State)
    requires Reachable(c, s) && s.main.MainWaiting?
    ensures CanMove(c, s)
  {
    if s.doneCh != [] {
      assert Enabled(c, s, TakeDone) && Moves(s, TakeDone);
    } else {
      ReachableInv(c, s);
      hide Reachable, KeysFlow, BytesFlow, DoneChannel;
      assert !s.untar.UntarFinished?;
      if s.untar.UntarReading? && s.chunksUntar == Pipe([], false) {
        ChunkCanMove(c, s);
      } else {
        UntarCanMove(c, s);
      }
    }
  }

  /* ---------- a run that fetches everything ---------- */

  /** What the store holds under each key. */
  function ContentsIn(store: map<Bytes, Bytes>, keys: seq<Index.Key>): seq<Bytes>
    requires forall k :: k in keys ==> k in store
  {
    seq(|keys|, j requires 0 <= j < |keys| => assert keys[j] in keys; store[keys[j]])
  }

  /** Between two items: `j` of them are done, and the next is about to be read. */
  predicate AtRest(s: State, j: nat) {
    && !s.ctxDone && s.doneCh == [] && s.main.MainWaiting? && s.chunk.Working?
    && s.indexChunks == Pipe([], true) && s.chunksUntar == Pipe([], false) && s.untar.UntarReading?
    && FL.Idle(s.fan) && !s.fan.cancelled && |s.fan.items| == j
  }

  lemma {:induction false} TryIndex(c: Config, store: map<Bytes, Bytes>, fails: nat) returns (s: State)
    requires c.fan.mode.Download? && FS.WellKeyed(c.fan, store) && fails <= 2
    ensures Reachable(c, s) && s == Init(store).(fetch := FetchCalling(fails))
  {
    hide Reachable, FS.WellKeyed;
    if fails == 0 {
      s := Begin(c, store);
    } else {
      s := TryIndex(c, store, fails - 1);
      s := TakeStep(c, s, Fetch(FetchCallFails));
    }
    s := TakeStep(c, s, Fetch(FetchTry));
  }

  lemma IndexWritten(c: Config, store: map<Bytes, Bytes>, text: Bytes, fails: nat) returns (s: State)
    requires c.fan.mode.Download? && c.index == Some(text) && FS.WellKeyed(c.fan, store) && fails <= 2
    ensures Reachable(c, s)
    ensures s == Init(store).(fetch := FetchClosing(false), source := text, indexChunks := Pipe(text, false))
  {
    s := TryIndex(c, store, fails);
    hide Reachable, FS.WellKeyed;
    s := TakeStep(c, s, Fetch(FetchCallWorks));
    s := TakeStep(c, s, Fetch(FetchWrite));
  }

  lemma IndexArrives(c: Config, store: map<Bytes, Bytes>, text: Bytes, fails: nat) returns (s: State)
    requires c.fan.mode.Download? && c.index == Some(text) && FS.WellKeyed(c.fan, store) && fails <= 2
    ensures Reachable(c, s) && AtRest(s, 0) && s.scan == text && s.got == [] && s.fan.store == store
  {
    s := IndexWritten(c, store, text, fails);
    hide Reachable, FS.WellKeyed;
    s := TakeStep(c, s, Chunk(ChunkScan));
    assert s.scan == text;
    s := TakeStep(c, s, Fetch(FetchClose));
    s := TakeStep(c, s, Untar(UntarCheck));
  }

  lemma ReadNext(c: Config, s0: State, k: Index.Key, j: nat) returns (s: State)
    requires Reachable(c, s0) && AtRest(s0, j) && Index.NextKey(s0.scan) == Index.GotKey(k)
    requires c.fan.mode.Download?
    ensures Reachable(c, s)
    ensures s == s0.(scan := Index.Unread(s0.scan),
                     fan := s0.fan.(items := s0.fan.items + [k], producer := F.Sending(j)))
  {
    hide Reachable, Index.NextKey, Index.Unread;
    s := TakeStep(c, s0, Chunk(ChunkFan(F.Produce(F.ReadItem(k)))));
  }

  lemma StartNext(c: Config, s0: State, j: nat) returns (s: State)
    requires Reachable(c, s0) && s0.fan.producer == F.Sending(j) && c.fan.mode.Download?
    requires s0.fan.fanIn.Selecting? && s0.fan.queue == [] && !s0.fan.broken && |s0.fan.items| == j + 1
    ensures Reachable(c, s)
    ensures s == s0.(fan := s0.fan.(producer := F.Reading, sent := s0.fan.sent + [j], fanIn := F.Awaiting(j),
                                    workers := s0.fan.workers[j := F.Trying(0)]))
  {
    hide Reachable;
    if c.fan.concurrency == 0 {
      s := TakeStep(c, s0, Chunk(ChunkFan(F.Produce(F.HandItem))));
    } else {
      s := TakeStep(c, s0, Chunk(ChunkFan(F.Produce(F.SendItem))));
      s := TakeStep(c, s, Chunk(ChunkFan(F.Collect(F.TakeItem))));
      assert s.fan.queue == [];
    }
    s := TakeStep(c, s, Chunk(ChunkFan(F.Produce(F.SpawnWorker))));
  }

  lemma {:induction false} TryItem(c: Config, s0: State, j: nat, fails: nat) returns (s: State)
    requires Reachable(c, s0) && j in s0.fan.workers && s0.fan.workers[j] == F.Trying(0)
    requires j < |s0.fan.items| && !F.Done(s0.fan) && fails <= 2
    ensures Reachable(c, s)
    ensures s == s0.(fan := s0.fan.(workers := s0.fan.workers[j := F.Calling(fails)]))
  {
    hide Reachable;
    s := s0;
    if fails > 0 {
      s := TryItem(c, s0, j, fails - 1);
      s := TakeStep(c, s, Chunk(ChunkFan(F.Work(j, F.CallFails(false)))));
    }
    s := TakeStep(c, s, Chunk(ChunkFan(F.Work(j, F.TryStarts))));
  }

  lemma FetchItem(c: Config, s0: State, j: nat, fails: nat) returns (s: State)
    requires Reachable(c, s0) && c.fan.mode.Download? && j in s0.fan.workers && s0.fan.workers[j] == F.Trying(0)
    requires j < |s0.fan.items| && s0.fan.items[j] in s0.fan.store && !F.Done(s0.fan) && fails <= 2
    ensures Reachable(c, s)
    ensures s == s0.(fan := s0.fan.(workers := s0.fan.workers[j := F.AfterTransfer(c.fan)],
                                    fetched := s0.fan.fetched[j := s0.fan.store[s0.fan.items[j]]]))
  {
    s := TryItem(c, s0, j, fails);
    hide Reachable;
    s := TakeStep(c, s, Chunk(ChunkFan(F.Work(j, F.CallWorks))));
  }

  lemma ReportItem(c: Config, s0: State, j: nat) returns (s: State)
    requires Reachable(c, s0) && j in s0.fan.workers && s0.fan.workers[j] == F.AfterTransfer(c.fan)
    requires j < |s0.fan.items|
    ensures Reachable(c, s)
    ensures s == s0.(fan := s0.fan.(workers := s0.fan.workers[j := F.Offering(true)],
                                    reported := s.fan.reported, progress := s.fan.progress))
  {
    hide Reachable;
    s := s0;
    if c.fan.reporting {
      s := TakeStep(c, s, Chunk(ChunkFan(F.Work(j, F.SendReport))));
    }
  }

  lemma PassOn(c: Config, s0: State, j: nat, data: Bytes) returns (s: State)
    requires Reachable(c, s0) && c.fan.mode.Download? && s0.fan.fanIn == F.Awaiting(j) && j < |s0.fan.items|
    requires j in s0.fan.workers && s0.fan.workers[j] == F.Offering(true)
    requires j in s0.fan.fetched && s0.fan.fetched[j] == data
    requires s0.chunksUntar == Pipe([], false) && s0.untar.UntarReading?
    ensures Reachable(c, s)
    ensures s == s0.(fan := s0.fan.(fanIn := F.Selecting, workers := s0.fan.workers[j := F.Exited],
                                    delivered := s0.fan.delivered + [j], out := s0.fan.out + [data]),
                     got := s0.got + data)
  {
    hide Reachable;
    s := TakeStep(c, s0, Chunk(ChunkFan(F.Collect(F.TakeResult))));
    s := TakeStep(c, s, Chunk(ChunkFan(F.Collect(F.WriteResult))));
    assert s.chunksUntar == Pipe(data, false);
    s := TakeStep(c, s, Untar(UntarRead(|data|)));
    assert data[..|data|] == data && s.chunksUntar.pending == [];
  }

  /** Reading, fetching and passing on one item. */
  lemma FetchNext(c: Config, s0: State, k: Index.Key, j: nat, fails: nat) returns (s: State)
    requires Reachable(c, s0) && AtRest(s0, j) && Index.NextKey(s0.scan) == Index.GotKey(k)
    requires c.fan.mode.Download? && k in s0.fan.store && fails <= 2
    ensures Reachable(c, s) && AtRest(s, j + 1) && s.scan == Index.Unread(s0.scan)
    ensures s.got == s0.got + s0.fan.store[k] && s.fan.store == s0.fan.store
  {
    hide Index.NextKey, Index.Unread, Reachable, Apply, Enabled;
    s := ReadNext(c, s0, k, j);
    s := StartNext(c, s, j);
    assert s.fan.items[j] == k;
    s := FetchItem(c, s, j, fails);
    s := ReportItem(c, s, j);
    s := PassOn(c, s, j, s0.fan.store[k]);
  }

  lemma NextLine(keys: seq<Index.Key>, tail: Bytes, j: nat)
    requires j < |keys|
    ensures Index.NextKey(Index.Text(keys[j..]) + tail) == Index.GotKey(keys[j])
    ensures Index.Unread(Index.Text(keys[j..]) + tail) == Index.Text(keys[j + 1..]) + tail
  {
    Index.FirstLineBeforeTail(keys[j..], tail);
    assert keys[j..][1..] == keys[j + 1..];
    Index.NextFullLine(keys[j], Index.Text(keys[j + 1..]) + tail);
  }

  lemma {:induction false} FetchMany(c: Config, store: map<Bytes, Bytes>, keys: seq<Index.Key>, tail: Bytes,
                                     h: Hiccups, j: nat)
      returns (s: State)
    requires c.fan.mode.Download? && c.index == Some(Index.Text(keys) + tail) && FS.WellKeyed(c.fan, store)
    requires (forall k :: k in keys ==> k in store) && j <= |keys| && Survivable(h, |keys|)
    ensures Reachable(c, s) && AtRest(s, j) && s.scan == Index.Text(keys[j..]) + tail && s.fan.store == store
    ensures s.got == Concat(ContentsIn(store, keys)[..j])
  {
    hide Reachable, AtRest, Index.NextKey, Index.Unread, FS.WellKeyed;
    var parts := ContentsIn(store, keys);
    if j == 0 {
      s := IndexArrives(c, store, Index.Text(keys) + tail, h.index);
      assert keys[0..] == keys && parts[..0] == [];
    } else {
      s := FetchMany(c, store, keys, tail, h, j - 1);
      NextLine(keys, tail, j - 1);
      assert keys[j - 1] in keys;
      s := FetchNext(c, s, keys[j - 1], j - 1, h.chunks[j - 1]);
      assert parts[..j] == parts[..j - 1] + [parts[j - 1]];
      ConcatSnoc(parts[..j - 1], parts[j - 1]);
    }
  }

  lemma EndOfKeys(c: Config, s0: State, j: nat) returns (s: State)
    requires Reachable(c, s0) && AtRest(s0, j) && Index.NextKey(s0.scan) == Index.Eof
    ensures Reachable(c, s) && s.main == MainReturned(false, true) && s.got == s0.got
  {
    hide Reachable, Index.NextKey;
    s := TakeStep(c, s0, Chunk(ChunkFan(F.Produce(F.ReadEof))));
    s := TakeStep(c, s, Chunk(ChunkFan(F.Produce(F.CloseItems))));
    s := TakeStep(c, s, Chunk(ChunkFan(F.Collect(F.TakeClosed))));
    s := TakeStep(c, s, Chunk(ChunkReturn));
    s := TakeStep(c, s, Chunk(ChunkClose));
    s := TakeStep(c, s, Untar(UntarEof));
    s := TakeStep(c, s, Untar(UntarReport));
    s := TakeStep(c, s, TakeDone);
  }

  lemma FetchUpTo(c: Config, store: map<Bytes, Bytes>, keys: seq<Index.Key>, tail: Bytes, h: Hiccups)
      returns (s: State)
    requires c.fan.mode.Download? && c.index == Some(Index.Text(keys) + tail) && FS.WellKeyed(c.fan, store)
    requires (forall k :: k in keys ==> k in store) && Index.NextKey(tail) == Index.Eof && Survivable(h, |keys|)
    ensures Reachable(c, s) && s.main == MainReturned(false, true)
    ensures s.got == Concat(ContentsIn(store, keys))
  {
    hide Reachable, AtRest, FS.WellKeyed, Index.NextKey;
    s := FetchMany(c, store, keys, tail, h, |keys|);
    assert keys[|keys|..] == [] && ContentsIn(store, keys)[..|keys|] == ContentsIn(store, keys);
    assert Index.Text([]) + tail == tail;
    s := EndOfKeys(c, s, |keys|);
  }

  /** For every index whose chunks are in the store, and whichever calls fail up to two times
      each, there is a run in which start returns nil under a live context with all of their
      contents handed to untar, in order. */
  lemma AnyDatasetCanBeFetched(c: Config, store: map<Bytes, Bytes>, keys: seq<Index.Key>, h: Hiccups)
      returns (s: State)
    requires c.fan.mode.Download? && c.index == Some(Index.Text(keys)) && FS.WellKeyed(c.fan, store)
    requires (forall k :: k in keys ==> k in store) && Survivable(h, |keys|)
    ensures Reachable(c, s) && s.main == MainReturned(false, true)
    ensures s.got == Concat(ContentsIn(store, keys))
  {
    assert Index.Text(keys) + [] == Index.Text(keys);
    s := FetchUpTo(c, store, keys, [], h);
  }

  /** Even a live download can return nil with keys missing, if a line of the index is longer
      than the scanner's buffer: for every index there is then a run that stops there. */
  lemma LiveDownloadCanMissKeys(c: Config, store: map<Bytes, Bytes>, keys: seq<Index.Key>, line: Bytes, rest: Bytes)
      returns (s: State)
    requires |line| > Index.MAX_LINE && Index.NEWLINE !in line
    requires c.fan.mode.Download? && c.index == Some(Index.Text(keys) + (line + rest)) && FS.WellKeyed(c.fan, store)
    requires forall k :: k in keys ==> k in store
    ensures Reachable(c, s) && s.main == MainReturned(false, true)
    ensures s.got == Concat(ContentsIn(store, keys)) && Index.Left(c.index.value) == line + rest
  {
    Index.OverlongIsEof(line, rest);
    Index.OverlongLineHidesRest(keys, line, rest);
    hide Reachable;
    s := FetchUpTo(c, store, keys, line + rest, NoHiccups(|keys|));
  }

  /** What cannot be read or written is not tried again: an index that arrives broken, and an
      entry that untar cannot read or put on disk, fail the download at once. */
  lemma BrokenReadsFail(c: Config, store: map<Bytes, Bytes>) returns (index: State, entry: State)
    requires c.fan.mode.Download? && FS.WellKeyed(c.fan, store)
    ensures Reachable(c, index) && index.main == MainReturned(true, true) && index.untar.UntarChecking?
    ensures Reachable(c, entry) && entry.main == MainReturned(true, true) && entry.fetch == FetchTrying(0)
  {
    var s := Begin(c, store);
    hide Reachable, FS.WellKeyed;
    index := TakeStep(c, s, Fetch(FetchTry));
    index := TakeStep(c, index, Fetch(FetchBodyFails));
    index := TakeStep(c, index, Fetch(FetchReport));
    index := TakeStep(c, index, TakeDone);
    entry := TakeStep(c, s, Untar(UntarCheck));
    entry := TakeStep(c, entry, Untar(UntarFail));
    entry := TakeStep(c, entry, Untar(UntarReport));
    entry := TakeStep(c, entry, TakeDone);
  }
}
