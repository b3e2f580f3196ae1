/** The network of goroutines started by downloadProcess.start
    (nerd/service/datatransfer/v1/download_process.go:23-59): index | chunks | untar,
    joined by io.Pipes, with one error channel and one cancellable context. The chunk stage
    is the FanOut machine in download mode; its keys come from an index reader. */
module DownloadProcess {
  import opened Prelude
  import opened Pipes
  import Index
  import F = FanOut

  const DONE_CAPACITY := 3

  /** `index` is the dataset's index object, if it exists; `ends` says that the bytes read so
      far include the end-of-archive marker, after which the tar reader reads no more. */
  datatype Config = Config(fan: F.Config, index: Option<Bytes>, ends: Bytes -> bool)

  datatype FetchPc =
    | FetchTrying(attempts: nat)
    | FetchCalling(attempts: nat)
    | FetchWriting
    | FetchFailing
    | FetchClosing(failed: bool)
    | FetchClosed(failed: bool)

  datatype UntarPc =
    | UntarChecking               // the select before tr.Next
    | UntarReading                // inside tr.Next or io.Copy
    | UntarReporting(failed: bool)
    | UntarFinished

  /** `live`: the context was not done when the first result was taken. */
  datatype MainPc = MainWaiting | MainReturned(failed: bool, live: bool)

  datatype State = State(
    ctxDone: bool,
    fetch: FetchPc,
    source: Bytes,         // index text handed to the pipe
    indexChunks: Pipe,
    scan: Bytes,           // index text in the key reader
    fan: F.State,
    chunk: StagePc,
    chunksUntar: Pipe,
    untar: UntarPc,
    got: Bytes,            // bytes of the archive that reached untar
    doneCh: seq<bool>,     // every send so far, true for an error; only the first is read
    main: MainPc)

  function Init(store: map<Bytes, Bytes>): State {
    State(false, FetchTrying(0), [], Pipe([], false), [], F.Init(store), Working, Pipe([], false),
          UntarChecking, [], [], MainWaiting)
  }

  predicate DoneRoom(s: State) {
    |s.doneCh| - (if s.main.MainWaiting? then 0 else 1) < DONE_CAPACITY
  }

  /* ---------- index ---------- */

  datatype FetchStep =
    | FetchStop
    | FetchTry
    | FetchCallFails
    | FetchCallWorks
    | FetchBodyFails
    | FetchWrite
    | FetchReport
    | FetchClose

  predicate FetchCan(c: Config, s: State, t: FetchStep) {
    match t
    case FetchStop => s.fetch.FetchTrying? && s.ctxDone
    case FetchTry => s.fetch.FetchTrying? && !s.ctxDone
    case FetchCallFails => s.fetch.FetchCalling?
    case FetchCallWorks => s.fetch.FetchCalling? && c.index.Some?
    case FetchBodyFails => s.fetch.FetchCalling?
    case FetchWrite => s.fetch.FetchWriting? && c.index.Some?
    case FetchReport => s.fetch.FetchFailing? && DoneRoom(s)
    case FetchClose => s.fetch.FetchClosing? && s.indexChunks.pending == []
  }

  function FetchStepped(c: Config, s: State, t: FetchStep): State
    requires FetchCan(c, s, t)
  {
    match t
    case FetchStop => s.(fetch := FetchFailing)
    case FetchTry => s.(fetch := FetchCalling(s.fetch.attempts))
    case FetchCallFails =>
      s.(fetch := if s.fetch.attempts < NO_OF_RETRIES then FetchTrying(s.fetch.attempts + 1)
                  else FetchFailing)
    case FetchCallWorks => s.(fetch := FetchWriting)
    case FetchBodyFails => s.(fetch := FetchFailing)
    case FetchWrite =>
      s.(fetch := FetchClosing(false), source := c.index.value, indexChunks := Pipe(c.index.value, false))
    case FetchReport => s.(fetch := FetchClosing(true), doneCh := s.doneCh + [true])
    case FetchClose => s.(fetch := FetchClosed(s.fetch.failed), indexChunks := Pipe([], true))
  }

  /* ---------- chunks ---------- */

  datatype ChunkStep =
    | ChunkScan
    | ChunkFan(a: F.Action)
    | ChunkReturn
    | ChunkReport
    | ChunkClose

  /** The scanner has a whole line, too much of one, or the end of the text. */
  predicate LineReady(s: State) {
    Index.NEWLINE in s.scan || |s.scan| > Index.MAX_LINE || s.indexChunks == Pipe([], true)
  }

  predicate FanMeets(s: State, a: F.Action) {
    match a
    case Produce(ReadItem(k)) => LineReady(s) && |k| == Index.KEY_SIZE && Index.NextKey(s.scan) == Index.GotKey(k)
    case Produce(ReadEof) => LineReady(s) && Index.NextKey(s.scan) == Index.Eof
    case Produce(ReadError) => LineReady(s) && Index.NextKey(s.scan) == Index.BadLine
    case Collect(WriteResult) => s.chunksUntar == Pipe([], false)
    case Collect(WriteFails) => false
    case Cancel => s.ctxDone
    case _ => true
  }

  predicate ChunkCan(c: Config, s: State, t: ChunkStep) {
    match t
    // the scanner reads only while the producer waits for its next key
    case ChunkScan => s.fan.producer.Reading?
    case ChunkFan(a) => F.Enabled(c.fan, s.fan, a) && FanMeets(s, a)
    case ChunkReturn => s.chunk.Working? && s.fan.fanIn.Returned? && s.chunksUntar.pending == []
    case ChunkReport => s.chunk.Failing? && DoneRoom(s)
    case ChunkClose => s.chunk.Closing?
  }

  function ChunkStepped(c: Config, s: State, t: ChunkStep): State
    requires ChunkCan(c, s, t)
  {
    match t
    case ChunkScan =>
      s.(scan := s.scan + s.indexChunks.pending, indexChunks := s.indexChunks.(pending := []))
    case ChunkFan(a) =>
      s.(fan := F.Apply(c.fan, s.fan, a),
         scan := if a.Produce? && a.p.ReadItem? then Index.Unread(s.scan) else s.scan,
         chunksUntar := if a.Collect? && a.f.WriteResult?
                        then Pipe(F.ResultOf(c.fan, s.fan, s.fan.fanIn.item), false)
                        else s.chunksUntar)
    case ChunkReturn => s.(chunk := if s.fan.fanIn.failed then Failing else Closing(false))
    case ChunkReport => s.(chunk := Closing(true), doneCh := s.doneCh + [true])
    case ChunkClose => s.(chunk := Closed(s.chunk.failed), chunksUntar := s.chunksUntar.(closed := true))
  }

  /* ---------- untar ---------- */

  datatype UntarStep =
    | UntarStop
    | UntarCheck
    | UntarRead(n: nat)
    | UntarNextEntry
    | UntarEof          // the pipe ended between two entries
    | UntarEnd          // the archive ended
    | UntarFail
    | UntarReport

  predicate UntarCan(c: Config, s: State, t: UntarStep) {
    match t
    case UntarStop => s.untar.UntarChecking? && s.ctxDone
    case UntarCheck => s.untar.UntarChecking? && !s.ctxDone
    case UntarRead(n) => s.untar.UntarReading? && n <= |s.chunksUntar.pending|
    case UntarNextEntry => s.untar.UntarReading?
    case UntarEof => s.untar.UntarReading? && s.chunksUntar == Pipe([], true)
    case UntarEnd => s.untar.UntarReading? && c.ends(s.got)
    case UntarFail => s.untar.UntarReading?
    case UntarReport => s.untar.UntarReporting? && DoneRoom(s)
  }

  function UntarStepped(c: Config, s: State, t: UntarStep): State
    requires UntarCan(c, s, t)
  {
    match t
    case UntarStop => s.(untar := UntarReporting(true))
    case UntarCheck => s.(untar := UntarReading)
    case UntarRead(n) =>
      s.(got := s.got + s.chunksUntar.pending[..n],
         chunksUntar := s.chunksUntar.(pending := s.chunksUntar.pending[n..]))
    case UntarNextEntry => s.(untar := UntarChecking)
    case UntarEof => s.(untar := UntarReporting(false))
    case UntarEnd => s.(untar := UntarReporting(false))
    case UntarFail => s.(untar := UntarReporting(true))
    case UntarReport => s.(untar := UntarFinished, doneCh := s.doneCh + [s.untar.failed])
  }

  /* ---------- runs ---------- */

  datatype Action =
    | Fetch(fetch: FetchStep)
    | Chunk(chunk: ChunkStep)
    | Untar(untar: UntarStep)
    | TakeDone
    | ParentCancel

  predicate Enabled(c: Config, s: State, a: Action) {
    match a
    case Fetch(t) => FetchCan(c, s, t)
    case Chunk(t) => ChunkCan(c, s, t)
    case Untar(t) => UntarCan(c, s, t)
    case TakeDone => s.main.MainWaiting? && s.doneCh != []
    case ParentCancel => true
  }

  function Apply(c: Config, s: State, a: Action): State
    requires Enabled(c, s, a)
  {
    match a
    case Fetch(t) => FetchStepped(c, s, t)
    case Chunk(t) => ChunkStepped(c, s, t)
    case Untar(t) => UntarStepped(c, s, t)
    case TakeDone => s.(main := MainReturned(s.doneCh[0], !s.ctxDone), ctxDone := true)
    case ParentCancel => s.(ctxDone := true)
  }

  predicate Valid(c: Config, s: State, acts: seq<Action>)
    decreases |acts|
  {
    acts == [] || (Enabled(c, s, acts[0]) && Valid(c, Apply(c, s, acts[0]), acts[1..]))
  }

  function Run(c: Config, s: State, acts: seq<Action>): State
    requires Valid(c, s, acts)
    decreases |acts|
  {
    if acts == [] then s else Run(c, Apply(c, s, acts[0]), acts[1..])
  }
}
