/** The ordered fan-out/fan-in shared by uploadChunks and downloadChunks
    (nerd/service/datatransfer/v1/upload_process.go:111-220, download_process.go:62-166),
    as a transition system. A producer sends numbered items over a bounded channel and
    starts one worker per item; the fan-in takes the items in channel order and waits for
    each item's own result. Every atomic step of a goroutine is one Action; a select with
    several ready cases is several enabled actions. */
module FanOut {
  import opened Prelude
  import Pipes
  import Index

  datatype Mode = Upload | Download

  /** `hash` is sha256.Sum256, `reporting` is progressCh != nil. */
  datatype Config = Config(mode: Mode, concurrency: nat, reporting: bool, hash: Bytes -> Index.Key)

  datatype ProducerPc =
    | Reading            // before chkr.Next or kr.ReadKey
    | Sending(item: nat) // at the select that sends the item just read
    | Spawning           // the item is sent, its worker is not yet started
    | SendingError       // at the select that sends a read error
    | Closing            // before the deferred close(itemCh)
    | Stopped            // itemCh is closed

  datatype WorkerPc =
    | Checking              // before dataClient.Exists
    | Trying(attempts: nat) // top of the client's retry loop
    | Calling(attempts: nat) // inside DataOps.Upload or DataOps.Download
    | Reporting             // at the select on progressCh
    | Offering(ok: bool)    // at the send on the item's own resCh
    | Exited

  /** `clean` marks the return of nil under a live context; `held` is the item whose
      result the fan-in had not finished handling. */
  datatype FanInPc =
    | Selecting
    | Awaiting(item: nat)
    | Writing(item: nat)
    | Returned(failed: bool, clean: bool, held: seq<nat>)

  datatype State = State(
    items: seq<Bytes>,          // everything read: chunks (upload) or keys (download)
    producer: ProducerPc,
    readFailed: bool,           // the source ended in an error
    sent: seq<nat>,             // items put on itemCh, in order
    queue: seq<nat>,            // items still in itemCh
    broken: bool,               // an error item is in itemCh, behind `queue`
    workers: map<nat, WorkerPc>,
    fetched: map<nat, Bytes>,   // contents downloaded by each item's worker
    fanIn: FanInPc,
    delivered: seq<nat>,        // items whose result was written
    out: seq<Bytes>,            // values written: keys (upload) or contents (download)
    reported: set<nat>,         // items whose size was sent on progressCh
    progress: seq<nat>,         // the sizes, in sending order
    dropped: bool,              // the producer dropped an item because of the context
    skipped: bool,              // a worker skipped its report because of the context
    cancelled: bool,            // the parent context is done, as seen here
    store: map<Bytes, Bytes>)

  /** The function's own context: the parent is done, or the deferred cancel has run. */
  predicate Done(s: State) {
    s.cancelled || s.fanIn.Returned?
  }

  function Init(store: map<Bytes, Bytes>): State {
    State([], Reading, false, [], [], false, map[], map[], Selecting, [], [], {}, [],
          false, false, false, store)
  }

  /** The object key an item is about. */
  function KeyOf(c: Config, item: Bytes): Bytes {
    if c.mode.Upload? then c.hash(item) else item
  }

  /** What the worker's successful result carries to the fan-in. */
  function ResultOf(c: Config, s: State, i: nat): Bytes
    requires i < |s.items|
  {
    if c.mode.Upload? then c.hash(s.items[i])
    else if i in s.fetched then s.fetched[i] else []
  }

  /** The number of bytes a worker reports as progress. */
  function SizeOf(c: Config, s: State, i: nat): nat
    requires i < |s.items|
  {
    if c.mode.Upload? then |s.items[i]|
    else if i in s.fetched then |s.fetched[i]| else 0
  }

  function Current(s: State): seq<nat> {
    match s.fanIn
    case Selecting => []
    case Awaiting(i) => [i]
    case Writing(i) => [i]
    case Returned(_, _, held) => held
  }

  function FirstPc(c: Config): WorkerPc {
    if c.mode.Upload? then Checking else Trying(0)
  }

  function AfterTransfer(c: Config): WorkerPc {
    if c.reporting then Reporting else Offering(true)
  }

  predicate Room(c: Config, s: State) {
    |s.queue| + (if s.broken then 1 else 0) < c.concurrency
  }

  // With an unbuffered itemCh a send meets a receive.
  predicate HandOver(c: Config, s: State) {
    c.concurrency == 0 && s.fanIn.Selecting?
  }

  datatype ProducerStep =
    | ReadItem(item: Bytes) // chkr.Next or kr.ReadKey
    | ReadEof
    | ReadError
    | SendItem              // into the channel's buffer
    | HandItem              // straight to the fan-in, if the channel has no buffer
    | DropItem              // the context was done
    | SpawnWorker
    | SendFailure
    | HandFailure
    | DropFailure
    | CloseItems

  datatype WorkerStep =
    | CheckFails
    | CheckFinds
    | CheckMisses
    | TryCancelled
    | TryStarts
    | CallFails(kept: bool) // a failed upload may have stored the object all the same
    | CallWorks
    | BodyFails             // reading the downloaded body
    | SendReport
    | SkipReport
    | AbandonOffer

  datatype FanInStep =
    | StopSelecting
    | TakeItem
    | TakeFailure
    | TakeClosed
    | StopAwaiting
    | TakeResult
    | WriteResult
    | WriteFails

  datatype Action =
    | Produce(p: ProducerStep)
    | Work(i: nat, w: WorkerStep)
    | Collect(f: FanInStep)
    | Cancel                       // the parent context becomes done
    | ForeignUpload(data: Bytes)   // another upload stores a chunk

  /* ---------- producer ---------- */

  predicate ProducerCan(c: Config, s: State, p: ProducerStep) {
    match p
    case ReadItem(item) => s.producer.Reading? && (c.mode.Upload? ==> item != [])
    case ReadEof => s.producer.Reading?
    case ReadError => s.producer.Reading?
    case SendItem => s.producer.Sending? && Room(c, s)
    case HandItem => s.producer.Sending? && HandOver(c, s)
    case DropItem => s.producer.Sending? && Done(s)
    case SpawnWorker => s.producer.Spawning? && s.items != []
    case SendFailure => s.producer.SendingError? && Room(c, s)
    case HandFailure => s.producer.SendingError? && HandOver(c, s)
    case DropFailure => s.producer.SendingError? && Done(s)
    case CloseItems => s.producer.Closing?
  }

  function ProducerStepped(c: Config, s: State, p: ProducerStep): State
    requires ProducerCan(c, s, p)
  {
    match p
    case ReadItem(item) => s.(items := s.items + [item], producer := Sending(|s.items|))
    case ReadEof => s.(producer := Closing)
    case ReadError => s.(producer := SendingError, readFailed := true)
    case SendItem =>
      s.(sent := s.sent + [s.producer.item], queue := s.queue + [s.producer.item], producer := Spawning)
    case HandItem =>
      s.(sent := s.sent + [s.producer.item], fanIn := Awaiting(s.producer.item), producer := Spawning)
    case DropItem =>
      // the upload's producer goes on reading, the download's returns
      s.(producer := if c.mode.Upload? then Reading else Closing, dropped := true)
    case SpawnWorker =>
      s.(workers := s.workers[|s.items| - 1 := FirstPc(c)], producer := Reading)
    case SendFailure => s.(broken := true, producer := Closing)
    case HandFailure => s.(fanIn := Return(s, true), producer := Closing)
    case DropFailure => s.(dropped := true, producer := Closing)
    case CloseItems => s.(producer := Stopped)
  }

  /* ---------- worker of item i ---------- */

  predicate WorkerCan(c: Config, s: State, i: nat, w: WorkerStep) {
    && i in s.workers && i < |s.items|
    && var pc := s.workers[i];
    match w
    case CheckFails => pc.Checking?
    case CheckFinds => pc.Checking? && KeyOf(c, s.items[i]) in s.store
    case CheckMisses => pc.Checking?
    case TryCancelled => pc.Trying? && Done(s)
    case TryStarts => pc.Trying? && !Done(s)
    case CallFails(_) => pc.Calling?
    case CallWorks => pc.Calling? && (c.mode.Download? ==> KeyOf(c, s.items[i]) in s.store)
    case BodyFails => pc.Calling? && c.mode.Download?
    case SendReport => pc.Reporting?
    case SkipReport => pc.Reporting? && Done(s)
    case AbandonOffer => pc.Offering? && Done(s) && (c.mode.Upload? ==> !pc.ok)
  }

  function WorkerMoves(c: Config, pc: WorkerPc, w: WorkerStep): WorkerPc {
    match w
    case CheckFails => Offering(false)
    case CheckFinds => AfterTransfer(c)
    case CheckMisses => Trying(0)
    case TryCancelled => Offering(false)
    case TryStarts => if pc.Trying? then Calling(pc.attempts) else pc
    case CallFails(_) =>
      if pc.Calling? && pc.attempts < Pipes.NO_OF_RETRIES then Trying(pc.attempts + 1) else Offering(false)
    case CallWorks => AfterTransfer(c)
    case BodyFails => Offering(false)
    case SendReport => Offering(true)
    case SkipReport => Offering(true)
    case AbandonOffer => Exited
  }

  function WorkerStepped(c: Config, s: State, i: nat, w: WorkerStep): State
    requires WorkerCan(c, s, i, w)
  {
    var k := KeyOf(c, s.items[i]);
    s.(workers := s.workers[i := WorkerMoves(c, s.workers[i], w)],
       store := if c.mode.Upload? && (w.CallWorks? || (w.CallFails? && w.kept))
                then s.store[k := s.items[i]] else s.store,
       fetched := if c.mode.Download? && w.CallWorks?
                  then s.fetched[i := s.store[k]] else s.fetched,
       reported := if w.SendReport? then s.reported + {i} else s.reported,
       progress := if w.SendReport? then s.progress + [SizeOf(c, s, i)] else s.progress,
       skipped := s.skipped || w.SkipReport?)
  }

  /* ---------- fan-in ---------- */

  predicate FanInCan(c: Config, s: State, f: FanInStep) {
    match f
    case StopSelecting => s.fanIn.Selecting? && Done(s)
    case TakeItem => s.fanIn.Selecting? && s.queue != []
    case TakeFailure => s.fanIn.Selecting? && s.queue == [] && s.broken
    case TakeClosed => s.fanIn.Selecting? && s.queue == [] && !s.broken && s.producer.Stopped?
    case StopAwaiting => s.fanIn.Awaiting? && Done(s)
    case TakeResult =>
      s.fanIn.Awaiting? && s.fanIn.item in s.workers && s.workers[s.fanIn.item].Offering?
    case WriteResult => s.fanIn.Writing? && s.fanIn.item < |s.items|
    case WriteFails => s.fanIn.Writing?
  }

  function Return(s: State, failed: bool): FanInPc {
    Returned(failed, !failed && !s.cancelled, Current(s))
  }

  function FanInStepped(c: Config, s: State, f: FanInStep): State
    requires FanInCan(c, s, f)
  {
    match f
    case StopSelecting => s.(fanIn := Return(s, true))
    case TakeItem => s.(fanIn := Awaiting(s.queue[0]), queue := s.queue[1..])
    case TakeFailure => s.(fanIn := Return(s, true), broken := false)
    case TakeClosed => s.(fanIn := Return(s, false))
    case StopAwaiting => s.(fanIn := Return(s, true))
    case TakeResult =>
      s.(workers := s.workers[s.fanIn.item := Exited],
         fanIn := if s.workers[s.fanIn.item].ok then Writing(s.fanIn.item) else Return(s, true))
    case WriteResult =>
      s.(fanIn := Selecting,
         delivered := s.delivered + [s.fanIn.item],
         out := s.out + [ResultOf(c, s, s.fanIn.item)])
    case WriteFails => s.(fanIn := Return(s, true))
  }

  /* ---------- runs ---------- */

  predicate Enabled(c: Config, s: State, a: Action) {
    match a
    case Produce(p) => ProducerCan(c, s, p)
    case Work(i, w) => WorkerCan(c, s, i, w)
    case Collect(f) => FanInCan(c, s, f)
    case Cancel => !s.cancelled
    case ForeignUpload(_) => true
  }

  function Apply(c: Config, s: State, a: Action): State
    requires Enabled(c, s, a)
  {
    match a
    case Produce(p) => ProducerStepped(c, s, p)
    case Work(i, w) => WorkerStepped(c, s, i, w)
    case Collect(f) => FanInStepped(c, s, f)
    case Cancel => s.(cancelled := true)
    case ForeignUpload(data) => s.(store := s.store[c.hash(data) := data])
  }

  /** `acts` can be taken one after the other from `s`. */
  predicate Valid(c: Config, s: State, acts: seq<Action>)
    decreases |acts|
  {
    acts == [] || (Enabled(c, s, acts[0]) && Valid(c, Apply(c, s, acts[0]), acts[1..]))
  }

  function Run(c: Config, s: State, acts: seq<Action>): State
    requires Valid(c, s, acts)
    decreases |acts|
  {
    if acts == [] then s else Run(c, Apply(c, s, acts[0]), acts[1..])
  }
}
