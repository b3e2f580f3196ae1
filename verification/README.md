# Verification of nerd's dataset transfer, worker and credentials

This Dafny project models the parts of `nerd` whose correctness cannot be read off one
function, and proves what they promise. `dafny verify dfyconfig.toml` checks all of it.

* **Transfer.** An upload is a network of goroutines (tar, count, chunk, index, heartbeat)
  joined by pipes, one error channel and one cancellable context; a download mirrors it.
  Inside both is the same ordered fan-out/fan-in over a bounded channel with one worker per
  item. These are transition systems: every atomic step of a goroutine is an action, a
  `select` with several ready cases is several enabled actions, the context only ever becomes
  done, only the first element of `doneCh` is read, and an item that is sent but has no worker
  yet is a state of its own. `FanOut` is the fan-out/fan-in, `UploadProcess` and
  `DownloadProcess` are the networks around it; `FanOutSafety`, `UploadSafety` and
  `DownloadSafety` hold the invariants of all their runs, `FanOutLiveness`, `UploadLiveness`
  and `DownloadLiveness` show that they do not hang, `FanOutBounded`, `UploadBounded` and
  `DownloadBounded` that they do not go on forever, `FanOutHistory`, `UploadHistory` and
  `DownloadHistory` say what each end of theirs owes to the steps before it, and `RoundTrip`
  puts the two together.
* **The sequential code around it.** `Index` (base16 text, line reader), `DataClient` (retry
  loops), `Tar` (counting), `ChunkBuffer` (the shared buffer), `Naming` and `Untar`
  (extraction without overwriting) are classes and methods with loops, proved against
  functions on values.
* **Worker.** `Queue` receives task runs, `Worker` executes one and reports on it, and
  `WorkerLoop` is the two goroutines that do so, as a transition system; `WorkerLiveness` says
  when it goes on and when it does not. Its reports rest on
  the upload theorem: an upload that a worker names is a finished run of `UploadProcess`.
* **Credentials.** `Session` is the session file, `Jwt` the validity of a token, `Provider`
  the three token providers, `ProviderChain` the chain of them, and `BatchClient` the cache
  in front; `BatchClient` proves coherence of the cached token, the cached provider and the
  remembered expiry over all histories of calls and clock readings.
* **RandomString** is the bit-slicing loop of the login command.

## Main results

* Commit safety of the upload: `UploadSafety.AnnouncedMeansCommitted`,
  `UploadSafety.NilMeansAcknowledged`, `UploadSafety.CountFailureNeverReached`,
  `UploadSafety.IndexNeverDangles`.
* Order, references, bounds and completeness of the fan-out/fan-in:
  `FanOutSafety.UploadWritesKeysInOrder`, `FanOutSafety.DownloadWritesPrefix`,
  `FanOutSafety.NoDanglingReferences`, `FanOutSafety.WorkersBounded`,
  `FanOutSafety.CleanReturnIsComplete`.
* Safety of the download: `DownloadSafety.GotIsPrefix`, `DownloadSafety.LiveNilMeansComplete`,
  `DownloadSafety.FailureIsNotMasked`.
* Causes and ends, over whole runs: `UploadHistory.CancelledIsAnnouncedIff`,
  `UploadHistory.StartFailsIff`, `UploadHistory.FaultlessUploadCommits`,
  `DownloadHistory.StartFailsIff`, `DownloadHistory.FaultlessDownloadIsComplete`,
  `FanOutHistory.WorkerEndsForCause`, `FanOutHistory.FailsIffFault`,
  `FanOutHistory.ReportsAreLengths`, `FanOutLiveness.WorkerIsLeakedIff`.
* Round trip: `RoundTrip.DownloadInvertsUpload`, `RoundTrip.ExtractDownload`,
  `RoundTrip.EveryArchiveCanTravel`.
* Progress: `FanOutLiveness.NoDeadlock`, `UploadLiveness.NeverStuck`,
  `UploadBounded.RunsAreBounded`, `DownloadLiveness.NeverStuck`, `DownloadBounded.RunsAreBounded`.
* Index text: `Index.ParseInvertsText`, `Index.TruncationDetected`, `Index.ReadToEndIffLinesFit`.
* Extraction: `Untar.SafeFilePath`, `Untar.Extract`, `Naming.CandidatesDistinct`.
* Worker: `WorkerLoop.ReportsAreHonest`, `WorkerLoop.QueueIsConserved`,
  `WorkerLoop.OutputsDoNotMix`, `WorkerLiveness.ReceivesOnIffNoneFailed`,
  `WorkerLiveness.WaitingRunIsLostIff`, `WorkerLiveness.StartReturnsIff`.
* Credentials: `BatchClient.ServedTokenIsSound`, `BatchClient.ServedWithoutAskingIff`,
  `BatchClient.LastIssueIsServed`, `BatchClient.StaleTokenIsNotServed`,
  `BatchClient.StaleTokenIsServedWithoutChain`, `Session.SectionsHoldTheirLastWrite`.

## Assumptions

* The chunker cuts its input into non-empty pieces that concatenate to it; where it cuts is
  arbitrary.
* The hash is any function to 32-byte keys. Where bytes are compared (`RoundTrip`) it is taken
  to have no collision between an uploaded and a fetched chunk; nothing else needs that.
* The store never deletes, reports an object as existing only if it does, and returns what
  was stored last. Other uploads may store chunks at any time. Store calls return. To begin
  with, each object in the store is filed under the hash of its contents.
* Pipes lose nothing and end only in end of file: no reading end is closed early, and
  `CloseWithError` is not used.
* In the two networks a failed `DataOps.Upload` leaves the body at its beginning. The retry
  loop reuses the reader without seeking; `DataClient.RetryStoresWholeBody` says exactly what
  is stored when the assumption fails.
* The receiver of `progressCh` keeps receiving.
* The tar reader is a parameter: which bytes of an archive include its end marker
  (`SelfDelimiting` says that this is so only for all of them), and whatever errors it gives.
* Decoding a token with the public key is a parameter, as are the clock, the server, the
  environment variables and every disk failure. Clock readings are arbitrary for the chain,
  and nondecreasing for a single provider.
* A directory is listed as it is; in what order, and whether that fails, is a parameter.
* A session file that was cut off while being written cannot be parsed.
* One `getJWT`, and one read or write of the session file, is atomic, as its mutex makes it.

## What was found

Where the code and its comments or its intention differ, the model follows the code.

* `uploadChunks` can return nil after a cancellation although a chunk was dropped
  (`FanOutLiveness.CancelledUploadCanReturnNil`). The upload is safe all the same: a cancelled
  context fails the index upload's own check (`UploadSafety.FirstNilMeansUploaded`).
* `start` would return nil without committing if the byte count had failed, because it wraps
  the nil `err` instead of `cres.err` (upload_process.go:94-96). That branch is dead
  (`UploadSafety.CountFailureNeverReached`). The same slip in `GetLocalDatasetSize`
  (upload.go:65-67) is not: there a count that is cancelled just as the last full block has
  been read gives size 0 and no error (`Tar.LocalDatasetSize`). Its only caller passes a context
  that is never cancelled (command/dataset_upload.go:77).
* A cancelled download can return nil with files missing
  (`DownloadSafety.CancelledDownloadCanReturnNil`). So can a live one if a line of the index is
  longer than the scanner's buffer, because the scanner's error is returned as the end of the
  file: whatever follows that line is ignored (`Index.OverlongLineHidesRest`,
  `DownloadLiveness.LiveDownloadCanMissKeys`). What reads as complete was read to its end
  exactly if no line is that long (`Index.ReadToEndIffLinesFit`); what the index writer wrote
  never has one (`Index.WrittenLinesFit`), and then a live nil means that all files arrived
  (`DownloadSafety.LiveNilMeansComplete`).
* An upload that goes on reading after it dropped a chunk can write keys that are not a
  beginning of the chunks' keys (`FanOutLiveness.CancelledUploadCanSkipKeys`); nothing is
  committed from them.
* A cancellation or an expired heartbeat does not stop an upload whose metadata are already on
  their way: it is announced all the same, and only then
  (`UploadHistory.CancelledIsAnnouncedIff`).
* A goroutine of `uploadChunks` that has its result when the function returns is left behind for
  good, because its send has no other way out, and no other is
  (`FanOutLiveness.WorkerIsLeakedIff`). The same goes for the worker's receiver at its sends
  (`WorkerLiveness.ReceiverIsLeakedIff`).
* A committed and announced dataset can be reported as failed
  (`UploadLiveness.CommittedUploadCanFail`), and a cancelled upload leaves tar in a Write that
  never returns (`UploadHistory.TarIsLeftBehind`).
* The heartbeat goes on sending to `doneCh` after the first error; four such sends fill the
  channel and hold up every stage that fails (`UploadHistory.HeartbeatsCanHoldUp`). With one
  there is room for all (`UploadHistory.ReportsAreNotHeldUp`).
* After a return that is not clean a worker may still send on `progressCh`, which the caller
  closes next (`FanOutLiveness.ReportCanFollowReturn`).
* An index that was cut off is noticed only if an odd number of digits of the broken line is
  left (`Index.TruncationDetected`); for an even number from 2 to 62 the reader makes up a key
  (`Index.TruncatedIndexForgesKey`).
* `isValid` accepts a token during the second that starts at its expiration time, which
  section 4.1.4 of RFC 7519 forbids, and a token with `exp` 0 always
  (`Jwt.AcceptedIsPermittedExcept`).
* `DefaultExpireWindow` is documented as seconds, but as a `time.Duration` its 20 means 20
  nanoseconds (provider.go:10-12); `Provider.DefaultWindowIsNanoseconds` says when that makes a
  difference. The window is a parameter everywhere else.
* Without a chain in front, a provider whose retrieval fails while writing the session makes
  the client serve the expired token it still holds
  (`BatchClient.StaleTokenIsServedWithoutChain`). The commands always use a chain, for which
  this cannot happen (`BatchClient.StaleTokenIsNotServed`).
* A session write that fails while encoding leaves a file that no later read or write can
  repair (`Session.UnreadableOnceEncodingFails`).
* When `IsEmptyDir` fails, a run is reported as a success without its output
  (`Worker.ReportIsHonest`). Output that was not uploaded or not removed is found by the next
  run and ends up in its dataset: all runs find an empty directory exactly as long as none of
  them left anything (`WorkerLoop.OutputsDoNotMix`, `Worker.LeavesNothingIfTidy`), and
  `WorkerLoop.OutputsCanMix` is a run in which two outputs mix. The log line "shutting down" is
  not followed by a shutdown: `cancel` there is the run's own.
* After a failed receive the worker neither stops nor receives again: the `break` leaves the
  `select` only (`WorkerLiveness.FailedReceiveStrands`). While its context lives it can go on
  receiving exactly if no receive has failed (`WorkerLiveness.ReceivesOnIffNoneFailed`).
* A run that was received when the context ended is gone from the queue and never executed
  (`WorkerLiveness.ReceivedRunCanBeLost`): it is lost exactly if Start has returned before it
  was handed over (`WorkerLiveness.WaitingRunIsLostIff`).
* The version number in a file name is a 64-bit int and wraps around; the search for an unused
  name ends even so (`Naming.NextRanksHigher`).

## Model

| member | source | states |
|---|---|---|
| FanOutSafety.UploadWritesKeysInOrder | nerd/service/datatransfer/v1/upload_process.go:160-219 | whatever order the workers finish in, the keys written are a subsequence of the chunks' keys, and a prefix of them unless the parent context was cancelled |
| FanOutSafety.NoDanglingReferences | nerd/service/datatransfer/v1/upload_process.go:128-158 | in every reachable state every key written has its object in the store, and every object in the store hashes to its own key |
| FanOutSafety.DownloadWritesPrefix | nerd/service/datatransfer/v1/download_process.go:109-165 | even under cancellation the contents written are those of a prefix of the keys read, in order |
| FanOutSafety.WorkersBounded | nerd/service/datatransfer/v1/upload_process.go:161-190 | at most concurrency + 1 workers have not handed over their result |
| FanOutSafety.CleanReturnIsComplete | nerd/service/datatransfer/v1/upload_process.go:192-203 | a nil return under a live context means the source was read to its end, every result was written, no worker is left, and the progress adds up to the bytes of the chunks uploaded, or of the contents written |
| FanOutSafety.StepKeepsInv | nerd/service/datatransfer/v1/upload_process.go:127-219 | each atomic step of producer, worker, fan-in and environment keeps the invariant all these rest on |
| FanOutHistory.WorkerEndsForCause | nerd/service/datatransfer/v1/upload_process.go:128-158 | in every run and for every worker: it has its result exactly if its chunk was found or a call worked, and has given up exactly if its check or its reading failed, three of its calls did, or it found the context done between two of them; never both; and a chunk that was found is not uploaded |
| FanOutHistory.FailsIffFault | nerd/service/datatransfer/v1/upload_process.go:192-219 | under a live context the function returns an error if and only if the source could not be read, a write failed, or some worker's check, reading or three calls failed |
| FanOutHistory.ReturnsNilIff | nerd/service/datatransfer/v1/upload_process.go:192-219 | in every run the function returns nil if and only if it took the end of the closed channel, so that no cancellation it sees passes for success |
| FanOutHistory.NoCallAfterDone | nerd/service/datatransfer/v1/client/client.go:36-69 | once the function's context is done no worker starts another call |
| FanOutHistory.ReportsAreLengths | nerd/service/datatransfer/v1/download_process.go:84-101 | in every run the j-th value on progressCh is the length of the chunk uploaded, or of the contents downloaded, by the j-th worker to report, and no worker reports twice |
| FanOutHistory.StoredIffPut | nerd/service/datatransfer/v1/upload_process.go:128-148 | in every run the store holds what it held at first and, beyond that, exactly the chunks of calls that worked or were carried out although they failed, and those of other uploads |
| FanOutLiveness.NoDeadlock | nerd/service/datatransfer/v1/upload_process.go:161-219 | until the fan-in returns some goroutine has an enabled step unless the source is being waited for, for every capacity and also between a send and the start of its worker |
| FanOutBounded.RunsAreBounded | nerd/service/datatransfer/v1/upload_process.go:161-219 | no run has more than five steps plus fifteen for each item read and one for each foreign upload |
| FanOutLiveness.CancelledUploadCanReturnNil | nerd/service/datatransfer/v1/upload_process.go:184-200 | a run in which uploadChunks returns nil with a chunk dropped after a cancellation |
| FanOutLiveness.ReportCanFollowReturn | nerd/service/datatransfer/v1/upload_process.go:150-155 | a run in which a worker can still send on progressCh after uploadChunks returned an error |
| FanOutLiveness.BrokenBodyFails | nerd/service/datatransfer/v1/download_process.go:76-91 | a content that arrives broken fails the download without another try |
| FanOutLiveness.CancelledUploadCanSkipKeys | nerd/service/datatransfer/v1/upload_process.go:184-217 | for any two chunks a run that drops the first after a cancellation and writes the key of the second |
| FanOutLiveness.BoundIsReached | nerd/service/datatransfer/v1/upload_process.go:161-190 | for every capacity a run in which concurrency + 1 workers are live, so that the bound on them is exact |
| FanOutLiveness.WorkerIsLeakedIff | nerd/service/datatransfer/v1/upload_process.go:128-158 | once the function has returned a worker can never end if and only if it is an upload's and has its result |
| UploadSafety.AnnouncedMeansCommitted | nerd/service/datatransfer/v1/upload_process.go:88-107 | SendUploadSuccess is only called when the chunks make up the complete tar stream, the stored index is exactly their keys, each is in the store under its own hash, the metadata has the stream's length, no worker is left and the progress adds up |
| UploadSafety.NilMeansAcknowledged | nerd/service/datatransfer/v1/upload_process.go:32-108 | start returns nil only if SendUploadSuccess was acknowledged, for a committed dataset |
| UploadSafety.AcknowledgedMeansDone | nerd/service/datatransfer/v1/upload_process.go:102-107 | once SendUploadSuccess was acknowledged no worker is left that could send on progressCh, and the progress adds up to the archive's length |
| UploadSafety.NoReportAfterNil | nerd/service/datatransfer/v1/upload_process.go:150-157 | once start has returned nil, which is when progressCh is closed, no worker can send on it |
| UploadSafety.CountFailureNeverReached | nerd/service/datatransfer/v1/upload_process.go:93-96 | once nil was first on doneCh the count is the stream's length, so the branch that would return nil early is never taken |
| UploadSafety.FirstNilMeansUploaded | nerd/service/datatransfer/v1/upload_process.go:82-91 | if the index stage's nil is the first value on doneCh then every stage before it finished cleanly, by the index upload's own context check |
| UploadSafety.IndexNeverDangles | nerd/service/datatransfer/v1/upload_process.go:70-84 | at every moment, failed or cancelled, the index text written so far lists only keys whose chunks are stored |
| UploadSafety.StepKeepsInv | nerd/service/datatransfer/v1/upload_process.go:32-108 | each atomic step of tar, count, chunk, index, heartbeat, start and the caller keeps the invariant of the network |
| UploadHistory.ContextEndsForCause | nerd/service/datatransfer/v1/upload_process.go:246-260 | in every run the context is done if and only if the caller cancelled it, the server had let the upload expire, or start has returned |
| UploadHistory.CancelledIsAnnouncedIff | nerd/service/datatransfer/v1/upload_process.go:88-107 | once the context is done the dataset is announced in some continuation if and only if it was announced already or its metadata were on their way |
| UploadHistory.ExpiredNeverReturnsNil | nerd/service/datatransfer/v1/upload_process.go:246-260 | if the upload expired before that, no continuation announces it or returns nil |
| UploadHistory.NoCallAfterCancel | nerd/service/datatransfer/v1/client/client.go:36-51 | once the context is done no call for the index or the metadata is started |
| UploadHistory.IndexEndsForCause | nerd/service/datatransfer/v1/client/client.go:36-51 | the upload of the index fails if and only if three of its calls failed or one of its checks found the context done, and is stored exactly if a call worked |
| UploadHistory.StoredIffSent | nerd/service/datatransfer/v1/upload_process.go:223-243 | the index and the metadata are stored if and only if a call for them worked, or was carried out although it failed; and then they are complete |
| UploadHistory.StartFailsIff | nerd/service/datatransfer/v1/upload_process.go:88-107 | start returns an error if and only if the first value sent to doneCh is one, the metadata upload was cancelled or failed three times, or the announcement failed; and nil if and only if the announcement was acknowledged |
| UploadHistory.FaultlessUploadCommits | nerd/service/datatransfer/v1/upload_process.go:32-108 | every run in which start returns has committed the dataset, unless the caller cancelled, the upload expired, tar or the announcement failed, a chunk could not be looked up, or the same call failed three times |
| UploadHistory.ReportsAreNotHeldUp | nerd/service/datatransfer/v1/upload_process.go:46-86 | with at most one expired heartbeat doneCh always has room for the stages that end |
| UploadHistory.HeartbeatsCanHoldUp | nerd/service/datatransfer/v1/upload_process.go:246-260 | a run in which four expired heartbeats fill doneCh and a failed stage cannot report |
| UploadLiveness.NeverStuck | nerd/service/datatransfer/v1/upload_process.go:32-108 | until start returns a stage or start itself can take a step, whatever failed, expired or was cancelled |
| UploadBounded.RunsAreBounded | nerd/service/datatransfer/v1/upload_process.go:32-108 | no run of the network has more than 83 steps for each byte of the archive and 30 besides, apart from those charged to cancellation, expired heartbeats, other uploads and reads of nothing |
| UploadBounded.StartCanReturn | nerd/service/datatransfer/v1/upload_process.go:32-108 | from every reachable state the stages and start alone can bring start to return |
| UploadBounded.CancelledStartCanReturn | nerd/service/datatransfer/v1/upload_process.go:32-108 | from every reachable state with a done context start can return without another byte of the archive, a worker's help or a new call |
| UploadBounded.StepIsPaidFor | nerd/service/datatransfer/v1/upload_process.go:32-108 | each atomic step of any stage uses up some of what the bytes still under way have paid for |
| UploadLiveness.AnyArchiveCanBeCommitted | nerd/service/datatransfer/v1/upload_process.go:32-108 | for every archive, every way to cut it into non-empty chunks, every capacity and every store, and with the calls for the index, the metadata and each chunk failing up to two times each, some run of the network commits it in just those chunks |
| UploadLiveness.CommittedUploadCanFail | nerd/service/datatransfer/v1/upload_process.go:102-107 | for every archive a run that commits the dataset and announces it, and in which start returns an error because the answer is lost |
| UploadHistory.TarIsLeftBehind | nerd/service/datatransfer/v1/upload_process.go:51-69 | for every archive a run in which start has returned and tar stays in a Write in every continuation, because the count has stopped reading |
| DownloadSafety.GotIsPrefix | nerd/service/datatransfer/v1/download_process.go:111-165 | the bytes that reached untar are a prefix of the contents of a prefix of the index's keys, in every state |
| DownloadSafety.LiveNilMeansComplete | nerd/service/datatransfer/v1/download_process.go:54-58 | a nil taken under a live context means the archive had ended, or the index was read without an error up to what the reader takes for its end and the contents of all keys read arrived, with progress adding up to their bytes; that is the real end exactly if no line of the index is longer than the scanner's buffer |
| DownloadSafety.FailureIsNotMasked | nerd/service/datatransfer/v1/download_process.go:36-52 | in every run without a cancellation by the caller, a failed index or chunk stage put its error on doneCh before the close that untar sees, and unless the archive had ended no nil is first |
| DownloadSafety.CancelledDownloadCanReturnNil | nerd/service/datatransfer/v1/download_process.go:130-147 | a run in which a cancelled download returns nil with nothing extracted |
| DownloadHistory.ContextEndsForCause | nerd/service/datatransfer/v1/download_process.go:23-59 | in every run the context is done if and only if the caller cancelled it or start has returned |
| DownloadHistory.NoCallAfterCancel | nerd/service/datatransfer/v1/tar.go:94-139 | once the context is done no call for the index is started, and untar gets through at most the entry it is reading |
| DownloadHistory.FetchEndsForCause | nerd/service/datatransfer/v1/client/client.go:54-69 | the download of the index fails if and only if three of its calls failed, one of its checks found the context done, or the body could not be read; and is written exactly if a call worked |
| DownloadHistory.UntarEndsForCause | nerd/service/datatransfer/v1/tar.go:94-139 | untar fails if and only if it found the context done or met something it could not read or write, and ends well exactly at an end of the archive or of the pipe |
| DownloadHistory.StartFailsIff | nerd/service/datatransfer/v1/download_process.go:30-58 | start returns an error if and only if the first value sent to doneCh is one |
| DownloadHistory.FaultlessDownloadIsComplete | nerd/service/datatransfer/v1/download_process.go:23-59 | every run in which start returns has brought the whole archive or all contents of the index, under a live context, unless the caller cancelled, a body, a line of the index or an entry could not be read or written, or the same call failed three times |
| DownloadHistory.ReportsAreNotHeldUp | nerd/service/datatransfer/v1/download_process.go:30-52 | doneCh always has room for the stages that end |
| DownloadLiveness.NeverStuck | nerd/service/datatransfer/v1/download_process.go:23-59 | until start returns a stage or start itself can take a step |
| DownloadBounded.RunsAreBounded | nerd/service/datatransfer/v1/download_process.go:23-59 | no run of the network has more than 17 steps for each byte of the index, one for each byte handed to untar and 20 besides, apart from those charged to cancellation, archive entries, other uploads and reads of nothing |
| DownloadBounded.StartCanReturn | nerd/service/datatransfer/v1/download_process.go:23-59 | from every reachable state the stages and start alone can bring start to return |
| DownloadBounded.CancelledStartCanReturn | nerd/service/datatransfer/v1/download_process.go:23-59 | from every reachable state with a done context start can return without another key, a worker's help, a new call or another entry |
| DownloadBounded.StepIsPaidFor | nerd/service/datatransfer/v1/download_process.go:23-59 | each atomic step of any stage uses up some of what is paid for, or moves bytes on to untar |
| DownloadLiveness.AnyDatasetCanBeFetched | nerd/service/datatransfer/v1/download_process.go:23-59 | for every index whose chunks are stored, and with the calls for the index and each chunk failing up to two times each, some run hands all their contents to untar in order and returns nil |
| DownloadLiveness.BrokenReadsFail | nerd/service/datatransfer/v1/download_process.go:169-184 | an index that arrives broken, and an entry that untar cannot read or write, fail the download without another try |
| DownloadLiveness.LiveDownloadCanMissKeys | nerd/service/datatransfer/v1/client/index.go:54-57 | for every index with an overlong line there is a live download that returns nil with only the contents of the keys before that line |
| RoundTrip.CommittedIndexParses | nerd/service/datatransfer/v1/client/index.go:53-87 | the index of a committed dataset reads back as exactly the keys of its chunks, up to its real end |
| RoundTrip.FetchedAreUploaded | nerd/service/datatransfer/v1/download_process.go:76-107 | contents fetched for a committed index are the uploaded chunks, also where chunks repeat or were stored before |
| RoundTrip.DownloadInvertsUpload | nerd/service/datatransfer/v1/download_process.go:61-166 | any run of a download of a committed dataset hands to untar a prefix of the uploaded archive, and all of it when it returns nil under a live context |
| RoundTrip.ExtractDownload | nerd/service/datatransfer/v1/tar.go:94-139 | for any archive format in which what has arrived splits as the whole does but for its last entry: extraction of a download of a committed dataset changes no file that was there and puts beginnings of the uploaded entries in distinct new files, and all of each entry after a live nil and an extraction to the archive's end |
| RoundTrip.EveryArchiveCanTravel | nerd/service/datatransfer/v1/upload_process.go:32-108 | for every archive, every way to cut it and up to two failures of each call there are a successful upload and a successful download that gives the archive back |
| Index.EncodeShape | nerd/service/datatransfer/v1/client/index.go:23-26 | base16 text has two lower-case hexadecimal digits for each byte and no line break |
| Index.DecodeTruncated | nerd/service/datatransfer/v1/client/index.go:58-64 | decoding a prefix of an encoding gives the bytes it covers, and fails exactly for an odd number of digits |
| Index.DecodeInvertsEncode | nerd/service/datatransfer/v1/client/index.go:59-60 | decoding inverts encoding |
| Index.DecodesIffPairsOfDigits | nerd/service/datatransfer/v1/client/index.go:58-61 | text decodes if and only if it is made of pairs of hexadecimal digits, each of which gives one byte |
| Index.IndexWriter.WriteKey | nerd/service/datatransfer/v1/client/index.go:80-87 | appends the key's line, or a beginning of it with an error, and changes nothing else |
| Index.WriteKeys | nerd/service/datatransfer/v1/upload_process.go:205-217 | keys written one by one leave the text of all of them, or, where a write fails, of those before and the part of the line that was written |
| Index.IndexReader.ReadKey | nerd/service/datatransfer/v1/client/index.go:53-66 | answers the next line, a decoding error or end of file, and consumes just that line |
| Index.AnyLineIsRead | nerd/service/datatransfer/v1/client/index.go:53-66 | what reading makes of any line whatever: one of 65536 bytes ends it; any other is an error exactly if it is not pairs of digits, but for a carriage return at its end; and its bytes are the key, filled up with zeros or cut off |
| Index.ReadKeys | nerd/service/datatransfer/v1/download_process.go:113-123 | the reading loop returns all keys up to end of file or the first bad line |
| Index.ParseInvertsText | nerd/service/datatransfer/v1/client/index.go:46-87 | for every sequence of keys, what WriteKey wrote ReadKey reads back in order, followed by end of file |
| Index.ParseTruncated | nerd/service/datatransfer/v1/client/index.go:53-66 | what reading makes of an index cut anywhere |
| Index.TruncationDetected | nerd/service/datatransfer/v1/client/index.go:58-64 | a cut index is noticed if and only if an odd number of digits is left of the broken line |
| Index.TruncatedIndexForgesKey | nerd/service/datatransfer/v1/client/index.go:63-64 | a cut index that reads back as a key nobody wrote |
| Index.ReadToEndIffLinesFit | nerd/service/datatransfer/v1/client/index.go:54-66 | reading ends without an error exactly at an end of file, and that is the end of the text if and only if no line is longer than the scanner's buffer |
| Index.OverlongLineHidesRest | nerd/service/datatransfer/v1/client/index.go:55-57 | for all keys before it and anything after it, an overlong line ends the index without an error |
| Index.WrittenLinesFit | nerd/service/datatransfer/v1/client/index.go:80-87 | what WriteKey wrote has no such line and is read to its end |
| DataClient.Store.Put | nerd/service/datatransfer/v1/client/client.go:43 | the backend stores what is left of the body; a failing call may have consumed or stored some of it |
| DataClient.Upload | nerd/service/datatransfer/v1/client/client.go:35-51 | the first attempt that finds the context done or works decides, after at most three calls and none once the context was found done; no other object changes; success stores the body without what failed attempts consumed, and failure leaves the object as it was or an end of the body |
| DataClient.Download | nerd/service/datatransfer/v1/client/client.go:53-69 | the first attempt that finds the context done or works decides, and success returns the stored object |
| DataClient.FirstDecides | nerd/service/datatransfer/v1/client/client.go:36-69 | the first attempt that finds the context done or works decides, the context being looked at before the call; what was consumed is what the attempts before it consumed |
| DataClient.RetryStoresWholeBody | nerd/service/datatransfer/v1/client/client.go:38-47 | a successful upload stores the whole body if and only if the failed attempts consumed none of it |
| DataClient.RetryStoresTail | nerd/service/datatransfer/v1/client/client.go:38-47 | for every body and every part of it that a failed attempt read, a retry that works stores only the rest, without an error |
| Tar.TeeReader.ReadFull | nerd/service/datatransfer/v1/tar.go:176 | reads a full buffer or what is left, copies exactly that, and tells the end of the stream from an error |
| Tar.CountBytes | nerd/service/datatransfer/v1/tar.go:167-196 | the total is the stream's length and all of it was copied, unless the context is done by one of its checks; it fails if and only if that is so or the stream breaks |
| Tar.LocalDatasetSize | nerd/service/datatransfer/v1/upload.go:45-69 | exactly when it blocks, when it reports an error, and when a cancellation makes it report size 0 instead of the stream's length |
| ChunkBuffer.Chunker.Next | nerd/service/datatransfer/v1/upload_process.go:166 | cuts the next piece off the stream into the caller's buffer |
| ChunkBuffer.Producer.ReadItem | nerd/service/datatransfer/v1/upload_process.go:165-188 | one turn of the producer writes nothing but its buffer, the chunker and a new item of its own, so no item in flight is touched at any moment, and each holds its own chunk |
| ChunkBuffer.Producer.ReadItems | nerd/service/datatransfer/v1/upload_process.go:164-189 | at the end each item holds its own chunk, and the chunks make up the stream |
| Naming.LastDot | nerd/service/datatransfer/v1/tar.go:152 | where filepath.Ext splits a name |
| Naming.VersionDigitsMatch | nerd/service/datatransfer/v1/tar.go:154-155 | digits are found if and only if the stem ends in them in the version pattern |
| Naming.NumberOfDecimal | nerd/service/datatransfer/v1/tar.go:158-159 | parsing a printed number gives the number back |
| Naming.NextRanksHigher | nerd/service/datatransfer/v1/tar.go:151-163 | each name tried ranks above the one before, also where the version wraps around |
| Naming.CandidatesDistinct | nerd/service/datatransfer/v1/tar.go:143-165 | no name is tried twice |
| Naming.CandidatesCountUp | nerd/service/datatransfer/v1/tar.go:157-163 | base_(v) is followed by base_(v+1), base_(v+2) and so on as long as a 64-bit int lasts |
| Naming.CandidatesOfPlainName | nerd/service/datatransfer/v1/tar.go:141-142 | a name without a version is followed by stem_(1), stem_(2) and so on, before the extension |
| Untar.FileSystem.OpenNew | nerd/service/datatransfer/v1/tar.go:144-150 | creates an empty file only under a name that is not in use |
| Untar.FileSystem.MkdirAll | nerd/service/datatransfer/v1/tar.go:113-116 | makes every ancestor a directory, or fails at one that is a file or refused, and makes nothing else |
| Untar.FewerNamesAhead | nerd/service/datatransfer/v1/tar.go:143-165 | each retry leaves fewer of the names in use ahead, so the search ends for every finite set of them |
| Untar.SafeFilePath | nerd/service/datatransfer/v1/tar.go:141-165 | creates the first unused name of the sequence, changes nothing else, and ends |
| Untar.Extract | nerd/service/datatransfer/v1/tar.go:94-139 | no file that existed changes; each entry reached is in a distinct new file, under the first name that was free, with its own bytes; no other file appears, and no directory but the ancestors of the files begun; and each way it ends has the cause it should have: the archive's end, the context, a bad header, an obstructed directory, a name that is refused or an entry that is not whole |
| Untar.CausesExclude | nerd/service/datatransfer/v1/tar.go:97-137 | no two of these causes come together, so it ends in one way exactly if that cause is met |
| RandomString.NextDigit | command/login.go:164-169 | six bits of the cache are one base-64 digit, and give a letter or nothing |
| RandomString.DigitsAreBase64 | command/login.go:149-171 | the digits cut off a draw are those of the number in base 64, lowest first |
| RandomString.DrawHasTenDigits | command/login.go:152-154 | ten digits of six bits are all that fit a draw of 63 bits |
| RandomString.LettersInOrder | command/login.go:149 | the small letters, the capitals and the digits are there in this order, each exactly once |
| RandomString.Generate | command/login.go:156-173 | the string is the first n letters among the digits of the draws, low digit first and ten for each draw, back to front |
| Session.Session.WriteFile | nerd/conf/session.go:110-124 | the file is emptied before it is encoded, so a failed encoding loses it |
| Session.Session.Read | nerd/conf/session.go:126-135 | the snapshot in the file, or an error, with the file unchanged |
| Session.Session.StoreJWT | nerd/conf/session.go:137-152 | replaces the JWT section and keeps the others; each failure leaves the file as it was or unreadable, as said |
| Session.Session.StoreOAuth | nerd/conf/session.go:154-172 | replaces the OAuth section and keeps the others |
| Session.Session.StoreProject | nerd/conf/session.go:174-189 | replaces the project section, the name by the name and the region by the region, and keeps the others |
| Session.SectionsHoldTheirLastWrite | nerd/conf/session.go:137-189 | after any history of writes each section is just what its last successful write carried, or what it was at the start |
| Session.UnreadableOnceEncodingFails | nerd/conf/session.go:96-124 | the file stays readable if and only if no encoding has failed |
| Jwt.AcceptedIsPermittedExcept | nerd/jwt/jwt.go:73-84 | isValid accepts what section 4.1.4 of RFC 7519 permits and, beyond that, exactly the second from the expiration time on and the expiration time 0 |
| Provider.Provider.IsExpired | nerd/jwt/provider.go:25-31 | expired from the remembered time on, unless always valid |
| Provider.Provider.SetExpiration | nerd/jwt/provider.go:33-39 | a positive window is subtracted |
| Provider.Provider.SetExpirationFromJWT | nerd/jwt/provider.go:41-51 | remembers the token's own expiry, or changes nothing if it does not decode |
| Provider.Provider.RetrieveFromConfig | nerd/jwt/config_provider.go:30-55 | token, remembered expiry and session file after every path through Retrieve |
| Provider.Provider.RefreshIntoConfig | nerd/jwt/config_provider.go:57-71 | the new expiry is remembered even if the session cannot be written, and then no token is returned |
| Provider.Provider.RetrieveFromEnv | nerd/jwt/env_provider.go:37-78 | token and remembered expiry after every path through Retrieve and refresh, with the session file unchanged |
| Provider.Provider.RetrieveFromAuthAPI | nerd/jwt/authapi_provider.go:36-55 | token, remembered expiry and session file after every path through Retrieve |
| Provider.RetrievedTokenIsSound | nerd/jwt/config_provider.go:31-55 | a returned token is signed and not past its expiration, comes from that provider's own source, its expiry is the one remembered, and the session file names it |
| Provider.ExpiresOnTime | nerd/jwt/provider.go:26-51 | with a token's expiry remembered it counts as expired from that time on, less a positive window; one without an expiration, or with 0, never does |
| Provider.OwnTokenIsServed | nerd/jwt/env_provider.go:39-61 | a token of the provider's own that is not within the window of its expiration, or has no secret to refresh it, is checked and returned, whatever server and disk would have answered |
| Provider.ExpiredTokenIsReplaced | nerd/jwt/config_provider.go:31-71 | one that is, is never returned itself: the server's answer is, if and only if it is valid and can be put where it belongs, and then the session holds it with the same secret |
| Provider.FreshTokenIsStored | nerd/jwt/authapi_provider.go:37-55 | the server's answer is returned if and only if it is valid and was written to the session, without a secret; an invalid one is not written |
| Provider.FailedRetrieveStaysExpiredUnless | nerd/jwt/config_provider.go:57-71 | after a failed retrieval an expired provider counts as unexpired if and only if writing the session failed, as long as the lost token lasts |
| Provider.DefaultWindowIsNanoseconds | nerd/jwt/provider.go:10-12 | exactly when a token that should count as expired by the documented window does not by the actual one |
| ProviderChain.ChainedProvider.IsExpired | nerd/client/batch/v1/jwt_provider.go:65-73 | the state of the cached provider, or true if there is none |
| ProviderChain.ChainedProvider.Retrieve | nerd/client/batch/v1/jwt_provider.go:45-63 | token, cached provider, every provider's expiry and the session file afterwards |
| ProviderChain.FirstThatGivesWins | nerd/client/batch/v1/jwt_provider.go:45-63 | the first provider that gives a token becomes the cached one and remembers that token's expiry; none is cached if none gives any |
| ProviderChain.OthersAreNotAsked | nerd/client/batch/v1/jwt_provider.go:45-63 | the providers up to the first that gives a token are asked in order, each finding the session as the one before left it and remembering what it found itself; those after it are not touched |
| BatchClient.Client.GetJWT | nerd/client/batch/v1/client.go:87-102 | token and whole new state of cache, providers and session for no provider, a single one or a chain; through a chain an unexpired cached token is returned with nothing changed |
| BatchClient.CacheIsLastIssue | nerd/client/batch/v1/client.go:94-101 | after any history the cached token, the cached provider and the expiry it remembers all come from the last retrieval, and no provider is cached if that one failed |
| BatchClient.ServedTokenIsSound | nerd/client/batch/v1/client.go:87-102 | after any history every token returned was retrieved in this very call and valid then, or is the one issued last by the cached provider and unexpired now, by the standard and by the window |
| BatchClient.UnexpiredTokenIsServed | nerd/client/batch/v1/client.go:94-101 | an unexpired cached token is served through a chain with nothing changed, whatever anyone would have answered |
| BatchClient.ServedWithoutAskingIff | nerd/client/batch/v1/client.go:94-101 | the result does not depend on anyone's answers if and only if there is a cached token and its provider remembers it as unexpired |
| BatchClient.LastIssueIsServed | nerd/client/batch/v1/client.go:87-102 | after any history the token issued last is served again at every reading of the clock before its own expiration less the window |
| BatchClient.StaleTokenIsNotServed | nerd/client/batch/v1/client.go:94-100 | after a failed retrieval through a chain only a new retrieval yields a token, although the old one is still cached |
| BatchClient.StaleTokenIsServedWithoutChain | nerd/client/batch/v1/client.go:94-101 | with a single provider the old token is served after a failed retrieval if and only if what failed was writing the session, until the lost token expires |
| BatchClient.BareCallKeepsCache | nerd/client/batch/v1/client.go:87-102 | one call of a single provider that loses no token keeps the cache coherent and returns a token that is valid at the reading it was checked with |
| BatchClient.BareServesValidTokens | nerd/client/batch/v1/client.go:87-102 | over any history with a nondecreasing clock in which no token is lost, a single provider serves only valid tokens |
| BatchClient.ExpiredTokenServedWithoutChain | nerd/jwt/authapi_provider.go:50-53 | a run in which a single provider serves a token an hour after it expired |
| Queue.QueueClient.ReceiveTaskRuns | nerd/client/batch/v1/task.go:78-118 | what is returned and exactly which messages leave the queue, for every script of polls, decoding, deletion and heartbeat results |
| Queue.DeletedMessagesAreAccountedFor | nerd/client/batch/v1/task.go:98-116 | every message gone from the queue is a discard, the one run returned, or the message on which a failed call broke off |
| Queue.FirstWantedIsReturned | nerd/client/batch/v1/task.go:98-116 | a run is returned if and only if it is the first one whose message was decoded and deleted and whose server says that it is alive; the call fails exactly if the first message that is neither that nor an expired run cannot be decoded or deleted, or a poll fails before it |
| Worker.Worker.Upload | nerd/service/datatransfer/v1/upload.go:24-43 | no error means the named dataset is committed and holds exactly the directory's files, all progress was sent, and nothing can be sent on progressCh after its deferred close |
| Worker.Worker.RemoveContents | nerd/service/working/v1/utils.go:9-27 | the loop over the names removes them up to the first that cannot be removed; no error means an empty directory |
| Worker.ClearedIsEmptyIff | nerd/service/working/v1/utils.go:9-27 | a directory with files ends up empty if and only if it could be listed and every name removed; otherwise exactly the names before the first stuck one are gone |
| Worker.CommandIsWhole | nerd/service/working/v1/working.go:115-123 | the command is the entrypoint followed by the run's own command, or the worker's if that is empty, and is empty exactly if all three are |
| Worker.Worker.StartRunExec | nerd/service/working/v1/working.go:107-219 | with a command of the run's own, or one of the worker's, or an entrypoint, and only then, the entrypoint followed by the run's command, or else the worker's, is handed to exec once and exactly one report is attempted, the one for what happened; and what is left in the output directory afterwards |
| Worker.ReportIsHonest | nerd/service/working/v1/working.go:146-218 | the report is a success if and only if the process was started, ended well, and its output, where any is seen, was uploaded; it names a dataset if and only if that was uploaded, and that one is committed with exactly the files of the output directory; a failure carries the code and message of what failed |
| Worker.LeavesNothingIfTidy | nerd/service/working/v1/working.go:180-206 | an execution leaves nothing in an empty output directory if and only if it made nothing there, or its output was uploaded and all removed |
| WorkerLoop.ExecutedInReceiptOrder | nerd/service/working/v1/working.go:221-270 | runs execute one at a time in receipt order, with at most one received run waiting |
| WorkerLoop.QueueIsConserved | nerd/client/batch/v1/task.go:98-116 | every delivery handled over the worker's life is a discard, one of the runs finished, executing or waiting, in order, or the one that ended a failed receive |
| WorkerLoop.ReportsAreHonest | nerd/service/working/v1/working.go:107-219 | each finished run with a command of its own or the worker's, or an entrypoint, and no other, had exactly one report attempted, in order, the one for what happened to it, and a success naming a dataset names a committed one with exactly the files of the output directory |
| WorkerLoop.OutputsDoNotMix | nerd/service/working/v1/working.go:180-206 | from an empty directory, every run up to the i-th finds it empty if and only if no earlier run left anything behind, and then what is uploaded for a run is what it makes of an empty directory |
| WorkerLoop.OutputsCanMix | nerd/service/working/v1/working.go:147-170 | a run of the worker in which a dataset holds the file of an earlier run that failed |
| WorkerLoop.StepKeepsInv | nerd/service/working/v1/working.go:221-270 | each atomic step of receiver, executor and environment keeps order, conservation and honest reporting |
| WorkerLiveness.ReceivesOnIffNoneFailed | nerd/service/working/v1/working.go:221-244 | while its context lives the worker can go on receiving, with everything received handed on to be executed, if and only if no receive has failed |
| WorkerLiveness.FailedReceiveIsFinal | nerd/service/working/v1/working.go:233-237 | after a failed receive no run is received or started in any continuation, and Start returns only if its context ends |
| WorkerLiveness.FailedReceiveStrands | nerd/service/working/v1/working.go:256-268 | the first failed receive leads to a state in which only the end of the context can follow |
| WorkerLiveness.WaitingRunIsLostIff | nerd/service/working/v1/working.go:239-268 | a run that was received and waits can still be executed if and only if Start has not returned |
| WorkerLiveness.ReceivedRunCanBeLost | nerd/service/working/v1/working.go:227-241 | a run of the worker in which a received run, gone from the queue, is neither executed nor reported |
| WorkerLiveness.NoReceiveAfterCancel | nerd/service/working/v1/working.go:221-244 | once the context is done no message is taken from the queue but by the call in progress |
| WorkerLiveness.StartReturnsIff | nerd/service/working/v1/working.go:250-270 | Start can return if and only if its context is done, whatever its goroutines are at |
| WorkerLiveness.ReceiverIsLeakedIff | nerd/service/working/v1/working.go:221-244 | once Start has returned its receiver can never end if and only if it is at a send |

## Left out

- Goroutine bodies as methods: Dafny has no concurrency, so `uploadChunks`, `downloadChunks`, both `start`s and the worker's loops are transition systems on values; their updates in place are state updates there. The sequential code they call is modelled as methods.
- `startRunExecHeartbeat`: it can only end the run's process or its upload's context, which is part of the arbitrary outcome of either.
- `sendHeartbeat`: it stops when its context is done, but may go on in the model, which allows more runs.
- Worker.Worker.StartRunExec: does not model environment variables, standard streams and the process itself: how it ends, and what it makes of the output directory it finds, are parameters.
- Worker.Worker.Upload: does not model how tardir walks the directory: that the archive is the directory's is what an upload of that directory means here. Of the server's record of the dataset only the name is modelled, and the close of progressCh is the moment start returns.
- Untar.Extract: does not model file modes, modification times (they are set on the original path, which may be another file), symbolic links or `denormalizeName`, and takes two different paths to name two different files.
- RoundTrip.ExtractDownload: does not model the tar format; how bytes split into entries is a parameter. It extracts what a download handed over, while in the program both go on at the same time.
- Untar.FileSystem.MkdirAll: does not model permissions beyond an arbitrary set of refused directories.
- Naming.VersionDigitsMatch: does not model Unicode, because the pattern and the digits are ASCII.
- Provider.Provider.SetExpiration: does not model the range of `time.Time`, because no clock gets there.
- Jwt.AcceptedIsPermittedExcept: does not model the other time claims, because the program does not look at them.
- `StaticJWTProvider`: constant.
- `tardir` and `normalizeName`: the archive they write is a parameter; walking a directory and archive/tar are libraries.
- The chunker's rolling hash, SHA-256, signatures and JSON: libraries, taken as parameters.
- AWS, HTTP, Kubernetes, the commands' flags and output, the browser login: plumbing and user interface.
- Metadata times, `createPath`, `RequireProjectID`, error texts and error classification: right by reading one or two branches.
