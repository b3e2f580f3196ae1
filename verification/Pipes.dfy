/** What the upload and the download network share: io.Pipe and the life of a stage. */
module Pipes {
  import opened Prelude

  /** client.go: an upload or download is tried once and then retried this often. */
  const NO_OF_RETRIES := 2

  /** An io.Pipe: the rest of the unfinished Write, and whether the writer closed it. A
      Write or Close waits until the reader has taken everything written before. */
  datatype Pipe = Pipe(pending: Bytes, closed: bool)

  /** A stage that sends its error to doneCh before it closes its pipe; Closing and Closed
      remember whether it failed. */
  datatype StagePc = Working | Failing | Closing(failed: bool) | Closed(failed: bool)

  predicate Ended(pc: StagePc) {
    pc.Closing? || pc.Closed?
  }

  /** How often each call fails before it works: the index's, the metadata's, each chunk's. */
  datatype Hiccups = Hiccups(index: nat, metadata: nat, chunks: seq<nat>)

  /** None of the calls, for `n` chunks, fails more often than it is tried again. */
  predicate Survivable(h: Hiccups, n: nat) {
    h.index <= 2 && h.metadata <= 2 && |h.chunks| == n && forall j :: 0 <= j < n ==> h.chunks[j] <= 2
  }

  function NoHiccups(n: nat): (h: Hiccups)
    ensures Survivable(h, n)
  {
    Hiccups(0, 0, seq(n, _ => 0))
  }

  /* ---------- what bounds the number of steps ---------- */

  function RetriesLeft(attempts: nat): nat {
    if attempts < NO_OF_RETRIES then NO_OF_RETRIES - attempts else 0
  }

  function StageRank(pc: StagePc): nat {
    match pc
    case Working => 3
    case Failing => 2
    case Closing(_) => 1
    case Closed(_) => 0
  }
}
