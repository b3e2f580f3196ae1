/** The network of goroutines started by uploadProcess.start
    (nerd/service/datatransfer/v1/upload_process.go:32-108): tar | count | chunk+upload |
    index, joined by io.Pipes, with a heartbeat, one error channel and one cancellable
    context. The chunk stage is the FanOut machine in upload mode. */
module UploadProcess {
  import opened Prelude
  import opened Pipes
  import Index
  import F = FanOut

  const DONE_CAPACITY := 4

  /** `archive` is what tardir writes when nothing fails. */
  datatype Config = Config(fan: F.Config, archive: Bytes)

  datatype CountResult = CountOk(total: nat) | CountError

  datatype CountPc = Counting | CountClosing | CountClosed

  datatype IndexPc =
    | Gathering
    | IndexTrying(attempts: nat)
    | IndexCalling(attempts: nat)
    | IndexReporting(failed: bool)
    | IndexFinished

  datatype HeartbeatPc = Beating | Expired | Cancelling

  datatype MainPc =
    | Waiting                             // err := <-doneCh
    | AwaitingCount                       // cres := <-countCh
    | MetadataTrying(attempts: nat, total: nat)
    | MetadataCalling(attempts: nat, total: nat)
    | Announcing                          // before SendUploadSuccess
    | MainReturned(failed: bool)

  datatype State = State(
    ctxDone: bool,
    tar: StagePc,
    written: nat,                // bytes tardir has written
    tarCount: Pipe,
    count: CountPc,
    total: nat,
    countCh: Option<CountResult>,
    countChunks: Pipe,
    chunkBuffer: Bytes,          // bytes the chunker holds for its next chunk
    fan: F.State,
    chunk: StagePc,
    chunksIndex: Pipe,
    index: IndexPc,
    indexBuffer: Bytes,
    heartbeat: HeartbeatPc,
    doneCh: seq<bool>,           // every send so far, true for an error; only the first is read
    main: MainPc,
    indexObject: Option<Bytes>,
    metadataObject: Option<nat>,
    announced: bool,             // SendUploadSuccess was called
    acknowledged: bool)          // and returned no error

  function Init(store: map<Bytes, Bytes>): State {
    State(false, Working, 0, Pipe([], false), Counting, 0, None, Pipe([], false), [],
          F.Init(store), Working, Pipe([], false), Gathering, [], Beating, [], Waiting,
          None, None, false, false)
  }

  predicate DoneRoom(s: State) {
    |s.doneCh| - (if s.main.Waiting? then 0 else 1) < DONE_CAPACITY
  }

  /* ---------- tar ---------- */

  datatype TarStep = TarWrite(n: nat) | TarFail | TarFinish | TarReport | TarClose

  predicate TarCan(c: Config, s: State, t: TarStep) {
    // a Write returns when the reader has taken all of it
    && s.tarCount.pending == []
    && match t
       case TarWrite(n) => s.tar.Working? && 0 < n && s.written + n <= |c.archive|
       case TarFail => s.tar.Working?
       case TarFinish => s.tar.Working? && s.written == |c.archive|
       case TarReport => s.tar.Failing? && DoneRoom(s)
       case TarClose => s.tar.Closing?
  }

  function TarStepped(c: Config, s: State, t: TarStep): State
    requires TarCan(c, s, t)
  {
    match t
    case TarWrite(n) =>
      s.(tarCount := Pipe(c.archive[s.written..s.written + n], false), written := s.written + n)
    case TarFail => s.(tar := Failing)
    case TarFinish => s.(tar := Closing(false))
    case TarReport => s.(tar := Closing(true), doneCh := s.doneCh + [true])
    case TarClose => s.(tar := Closed(s.tar.failed), tarCount := Pipe([], true))
  }

  /* ---------- count: the tee copies what it reads into the next pipe ---------- */

  datatype CountStep = CountRead(n: nat) | CountEof | CountStop | CountClose

  predicate CountCan(s: State, t: CountStep) {
    && s.countChunks.pending == []
    && match t
       case CountRead(n) => s.count.Counting? && 0 < n <= |s.tarCount.pending|
       case CountEof => s.count.Counting? && s.tarCount == Pipe([], true)
       case CountStop => s.count.Counting? && s.ctxDone
       case CountClose => s.count.CountClosing?
  }

  function CountStepped(s: State, t: CountStep): State
    requires CountCan(s, t)
  {
    match t
    case CountRead(n) =>
      s.(total := s.total + n,
         countChunks := s.countChunks.(pending := s.tarCount.pending[..n]),
         tarCount := s.tarCount.(pending := s.tarCount.pending[n..]))
    case CountEof => s.(count := CountClosing, countCh := Some(CountOk(s.total)))
    case CountStop => s.(count := CountClosing, countCh := Some(CountError))
    case CountClose => s.(count := CountClosed, countChunks := Pipe([], true))
  }

  /* ---------- chunk ---------- */

  datatype ChunkStep =
    | ChunkFill(n: nat)
    | ChunkFan(a: F.Action)
    | ChunkReturn
    | ChunkReport
    | ChunkClose

  /** How a step of the fan-out/fan-in meets the two pipes and the context around it.
      Pipes have no read or write errors: no one closes a reading end. */
  predicate FanMeets(s: State, a: F.Action) {
    match a
    case Produce(ReadItem(chunk)) => chunk <= s.chunkBuffer
    case Produce(ReadEof) => s.countChunks == Pipe([], true) && s.chunkBuffer == []
    case Produce(ReadError) => false
    case Collect(WriteResult) => s.chunksIndex == Pipe([], false)
    case Collect(WriteFails) => false
    case Cancel => s.ctxDone
    case _ => true
  }

  predicate ChunkCan(c: Config, s: State, t: ChunkStep) {
    match t
    // the chunker reads only while the producer waits for its next chunk
    case ChunkFill(n) => s.fan.producer.Reading? && n <= |s.countChunks.pending|
    case ChunkFan(a) => F.Enabled(c.fan, s.fan, a) && FanMeets(s, a)
    case ChunkReturn => s.chunk.Working? && s.fan.fanIn.Returned? && s.chunksIndex.pending == []
    case ChunkReport => s.chunk.Failing? && DoneRoom(s)
    case ChunkClose => s.chunk.Closing?
  }

  function ChunkStepped(c: Config, s: State, t: ChunkStep): State
    requires ChunkCan(c, s, t)
  {
    match t
    case ChunkFill(n) =>
      s.(chunkBuffer := s.chunkBuffer + s.countChunks.pending[..n],
         countChunks := s.countChunks.(pending := s.countChunks.pending[n..]))
    case ChunkFan(a) =>
      s.(fan := F.Apply(c.fan, s.fan, a),
         chunkBuffer := if a.Produce? && a.p.ReadItem? then s.chunkBuffer[|a.p.item|..] else s.chunkBuffer,
         chunksIndex := if a.Collect? && a.f.WriteResult?
                        then Pipe(Index.Line(F.ResultOf(c.fan, s.fan, s.fan.fanIn.item)), false)
                        else s.chunksIndex)
    case ChunkReturn => s.(chunk := if s.fan.fanIn.failed then Failing else Closing(false))
    case ChunkReport => s.(chunk := Closing(true), doneCh := s.doneCh + [true])
    case ChunkClose => s.(chunk := Closed(s.chunk.failed), chunksIndex := s.chunksIndex.(closed := true))
  }

  /* ---------- index ---------- */

  datatype IndexStep =
    | IndexRead(n: nat)
    | IndexEof
    | IndexStop
    | IndexTry
    | IndexCallFails(kept: bool)
    | IndexCallWorks
    | IndexReport

  predicate IndexCan(s: State, t: IndexStep) {
    match t
    case IndexRead(n) => s.index.Gathering? && n <= |s.chunksIndex.pending|
    case IndexEof => s.index.Gathering? && s.chunksIndex == Pipe([], true)
    case IndexStop => s.index.IndexTrying? && s.ctxDone
    case IndexTry => s.index.IndexTrying? && !s.ctxDone
    case IndexCallFails(_) => s.index.IndexCalling?
    case IndexCallWorks => s.index.IndexCalling?
    case IndexReport => s.index.IndexReporting? && DoneRoom(s)
  }

  function IndexStepped(s: State, t: IndexStep): State
    requires IndexCan(s, t)
  {
    match t
    case IndexRead(n) =>
      s.(indexBuffer := s.indexBuffer + s.chunksIndex.pending[..n],
         chunksIndex := s.chunksIndex.(pending := s.chunksIndex.pending[n..]))
    case IndexEof => s.(index := IndexTrying(0))
    case IndexStop => s.(index := IndexReporting(true))
    case IndexTry => s.(index := IndexCalling(s.index.attempts))
    case IndexCallFails(kept) =>
      s.(index := if s.index.attempts < NO_OF_RETRIES then IndexTrying(s.index.attempts + 1)
                  else IndexReporting(true),
         indexObject := if kept then Some(s.indexBuffer) else s.indexObject)
    case IndexCallWorks => s.(index := IndexReporting(false), indexObject := Some(s.indexBuffer))
    case IndexReport => s.(index := IndexFinished, doneCh := s.doneCh + [s.index.failed])
  }

  /* ---------- heartbeat ---------- */

  datatype HeartbeatStep = Expire | HeartbeatReport | HeartbeatCancel

  predicate HeartbeatCan(s: State, t: HeartbeatStep) {
    match t
    case Expire => s.heartbeat.Beating?
    case HeartbeatReport => s.heartbeat.Expired? && DoneRoom(s)
    case HeartbeatCancel => s.heartbeat.Cancelling?
  }

  function HeartbeatStepped(s: State, t: HeartbeatStep): State
    requires HeartbeatCan(s, t)
  {
    match t
    case Expire => s.(heartbeat := Expired)
    case HeartbeatReport => s.(heartbeat := Cancelling, doneCh := s.doneCh + [true])
    case HeartbeatCancel => s.(heartbeat := Beating, ctxDone := true)
  }

  /* ---------- start itself ---------- */

  datatype MainStep =
    | TakeDone
    | TakeCount
    | MetadataStop
    | MetadataTry
    | MetadataCallFails(kept: bool)
    | MetadataCallWorks
    | AnnounceWorks
    | AnnounceFails

  predicate MainCan(s: State, t: MainStep) {
    match t
    case TakeDone => s.main.Waiting? && s.doneCh != []
    case TakeCount => s.main.AwaitingCount? && s.countCh.Some?
    case MetadataStop => s.main.MetadataTrying? && s.ctxDone
    case MetadataTry => s.main.MetadataTrying? && !s.ctxDone
    case MetadataCallFails(_) => s.main.MetadataCalling?
    case MetadataCallWorks => s.main.MetadataCalling?
    case AnnounceWorks => s.main.Announcing?
    case AnnounceFails => s.main.Announcing?
  }

  // The deferred cancel runs with every return.
  function Return(s: State, failed: bool): State {
    s.(main := MainReturned(failed), ctxDone := true)
  }

  function MainStepped(s: State, t: MainStep): State
    requires MainCan(s, t)
  {
    match t
    case TakeDone => if s.doneCh[0] then Return(s, true) else s.(main := AwaitingCount)
    case TakeCount =>
      (match s.countCh.value
       // errors.Wrap of the nil err: start returns nil here
       case CountError => Return(s, false)
       case CountOk(total) => s.(main := MetadataTrying(0, total)))
    case MetadataStop => Return(s, true)
    case MetadataTry => s.(main := MetadataCalling(s.main.attempts, s.main.total))
    case MetadataCallFails(kept) =>
      var t := s.(metadataObject := if kept then Some(s.main.total) else s.metadataObject);
      if s.main.attempts < NO_OF_RETRIES
      then t.(main := MetadataTrying(s.main.attempts + 1, s.main.total))
      else Return(t, true)
    case MetadataCallWorks => s.(main := Announcing, metadataObject := Some(s.main.total))
    case AnnounceWorks => Return(s.(announced := true, acknowledged := true), false)
    case AnnounceFails => Return(s.(announced := true), true)
  }

  /* ---------- runs ---------- */

  datatype Action =
    | Tar(tar: TarStep)
    | Count(count: CountStep)
    | Chunk(chunk: ChunkStep)
    | Index(index: IndexStep)
    | Heartbeat(heartbeat: HeartbeatStep)
    | Main(main: MainStep)
    | ParentCancel

  predicate Enabled(c: Config, s: State, a: Action) {
    match a
    case Tar(t) => TarCan(c, s, t)
    case Count(t) => CountCan(s, t)
    case Chunk(t) => ChunkCan(c, s, t)
    case Index(t) => IndexCan(s, t)
    case Heartbeat(t) => HeartbeatCan(s, t)
    case Main(t) => MainCan(s, t)
    case ParentCancel => true
  }

  function Apply(c: Config, s: State, a: Action): State
    requires Enabled(c, s, a)
  {
    match a
    case Tar(t) => TarStepped(c, s, t)
    case Count(t) => CountStepped(s, t)
    case Chunk(t) => ChunkStepped(c, s, t)
    case Index(t) => IndexStepped(s, t)
    case Heartbeat(t) => HeartbeatStepped(s, t)
    case Main(t) => MainStepped(s, t)
    case ParentCancel => s.(ctxDone := true)
  }

  predicate Valid(c: Config, s: State, acts: seq<Action>)
    decreases |acts|
  {
    acts == [] || (Enabled(c, s, acts[0]) && Valid(c, Apply(c, s, acts[0]), acts[1..]))
  }

  function Run(c: Config, s: State, acts: seq<Action>): State
    requires Valid(c, s, acts)
    decreases |acts|
  {
    if acts == [] then s else Run(c, Apply(c, s, acts[0]), acts[1..])
  }
}
