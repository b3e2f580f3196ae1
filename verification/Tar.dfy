/** Counting the bytes of a tar stream on their way through a tee
    (nerd/service/datatransfer/v1/tar.go:168-196, upload.go:46-69). */
module Tar {
  import opened Prelude

  const BLOCK := 512 * 1024

  datatype ReadStatus = Full | Partial | AtEnd | Broken

  /** An io.TeeReader on a stream that ends in an end of file, or in an error of the stream
      or of the tee's other end. */
  class TeeReader {
    const breaks: bool
    var rest: Bytes
    var copied: Bytes

    constructor (stream: Bytes, breaks: bool)
      ensures rest == stream && copied == [] && this.breaks == breaks
    {
      this.breaks := breaks;
      rest := stream;
      copied := [];
    }

    /** io.ReadFull into a buffer of `size` bytes. */
    method ReadFull(size: nat) returns (n: nat, status: ReadStatus)
      requires size > 0
      modifies this
      ensures n <= size && n <= |old(rest)|
      ensures rest == old(rest)[n..] && copied == old(copied) + old(rest)[..n]
      ensures n < size ==> rest == []
      ensures status == if n == size then Full else if breaks then Broken else if n == 0 then AtEnd else Partial
    {
      n := if |rest| < size then |rest| else size;
      status := if n == size then Full else if breaks then Broken else if n == 0 then AtEnd else Partial;
      copied := copied + rest[..n];
      rest := rest[n..];
    }
  }

  datatype CountError = NoError | ContextError | ReadError

  /** The context is done from the `doneFrom`-th check on (never, if None). The count gives up
      for it exactly when that is no later than the check before the last read, and fails
      besides exactly when the stream breaks; everything it has counted has been copied. */
  method CountBytes(r: TeeReader, doneFrom: Option<nat>) returns (total: nat, err: CountError)
    requires r.copied == []
    modifies r
    ensures err.ContextError? <==> doneFrom.Some? && doneFrom.value * BLOCK <= |old(r.rest)|
    ensures err.ContextError? ==> total == 0 && r.copied == old(r.rest)[..doneFrom.value * BLOCK]
    ensures !err.ContextError? ==> (err.ReadError? <==> r.breaks)
    ensures !err.ContextError? ==> total == |old(r.rest)| && r.copied == old(r.rest) && r.rest == []
    ensures r.copied + r.rest == old(r.rest)
  {
    var counted, checks := 0, 0;
    ghost var stream := r.rest;
    while true
      invariant counted == checks * BLOCK <= |stream|
      invariant r.rest == stream[counted..] && r.copied == stream[..counted]
      invariant doneFrom.Some? ==> checks <= doneFrom.value
      decreases |r.rest|
    {
      if doneFrom.Some? && doneFrom.value <= checks {
        return 0, ContextError;
      }
      var n, status := r.ReadFull(BLOCK);
      PrefixExtends(stream, counted, n);
      counted := counted + n;
      if !status.Full? {
        return counted, if status.Broken? then ReadError else NoError;
      }
      checks := checks + 1;
    }
  }

  datatype SizeOutcome = Size(n: nat) | SizeError | Blocked

  /** The count stops reading although there is more to come. */
  predicate GivesUpEarly(written: nat, doneFrom: Option<nat>) {
    doneFrom.Some? && doneFrom.value * BLOCK < written
  }

  /** GetLocalDatasetSize: tardir writes `stream` into an unbuffered pipe that the count reads,
      and then ends well or fails. If the count gives up before that, tardir's next Write never
      returns, whether it would have failed later or not. If the count gives up just after the
      last byte, its error is wrapped in the nil error of tardir and size 0 is returned. */
  method LocalDatasetSize(stream: Bytes, tarFails: bool, doneFrom: Option<nat>) returns (r: SizeOutcome)
    ensures r.Blocked? <==> GivesUpEarly(|stream|, doneFrom)
    ensures r.SizeError? <==> tarFails && !GivesUpEarly(|stream|, doneFrom)
    ensures r.Size? && doneFrom.Some? && doneFrom.value * BLOCK == |stream| ==> r.n == 0
    ensures r.Size? && (doneFrom.None? || doneFrom.value * BLOCK != |stream|) ==> r.n == |stream|
    // the size returned is the stream's, unless the context ended just when it had been read
    ensures r.Size? && stream != [] ==>
      (r.n == |stream| <==> doneFrom.None? || doneFrom.value * BLOCK != |stream|)
  {
    var tee := new TeeReader(stream, false);
    var total, err := CountBytes(tee, doneFrom);
    if tee.rest != [] {
      return Blocked;
    }
    if tarFails {
      return SizeError;
    }
    r := Size(total);
  }
}
