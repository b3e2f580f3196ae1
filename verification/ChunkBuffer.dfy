/** The upload's producer reads every chunk into one buffer that the chunker overwrites on
    each call, and copies it into memory of its own before it is queued, hashed and uploaded
    (nerd/service/datatransfer/v1/upload_process.go:164-188). */
module ChunkBuffer {
  import opened Prelude

  /** chunker.Chunker: cuts the next non-empty chunk off the stream, wherever its rolling
      hash says, and leaves it at the start of the caller's buffer. */
  class Chunker {
    var rest: Bytes

    constructor (stream: Bytes)
      ensures rest == stream
    {
      rest := stream;
    }

    method Next(buf: array<byte>) returns (length: nat)
      requires buf.Length > 0
      modifies this, buf
      ensures length == 0 <==> old(rest) == []
      ensures length <= buf.Length && length <= |old(rest)|
      ensures buf[..length] == old(rest)[..length] && rest == old(rest)[length..]
    {
      if rest == [] {
        return 0;
      }
      length :| 0 < length <= |rest| && length <= buf.Length;
      forall j | 0 <= j < length {
        buf[j] := rest[j];
      }
      rest := rest[length..];
    }
  }

  /** The producer's loop, one turn at a time. The items it has queued belong to the workers. */
  class Producer {
    const chunker: Chunker
    const buf: array<byte>
    var items: seq<array<byte>>
    ghost var cut: seq<Bytes>

    ghost predicate Valid()
      reads this, items
    {
      && buf.Length > 0 && |items| == |cut| && [] !in cut
      && (forall j :: 0 <= j < |items| ==> items[j] != buf && items[j][..] == cut[j])
      && (forall j, k :: 0 <= j < k < |items| ==> items[j] != items[k])
    }

    constructor (chunker: Chunker, maxSize: nat)
      requires maxSize > 0
      ensures Valid() && this.chunker == chunker && items == [] && cut == [] && fresh(buf)
    {
      this.chunker, buf, items, cut := chunker, new byte[maxSize](_ => 0), [], [];
    }

    /** One turn writes the buffer, the chunker and an item of its own, and nothing else: no
        item in flight is touched, not even for a moment, and each still holds its chunk. */
    method ReadItem() returns (more: bool)
      requires Valid()
      modifies this`items, this`cut, chunker, buf
      ensures Valid()
      ensures more <==> old(chunker.rest) != []
      ensures !more ==> items == old(items) && cut == old(cut) && chunker.rest == []
      ensures more ==>
        && |items| == |old(items)| + 1 && items[..|old(items)|] == old(items) && fresh(items[|old(items)|])
        && cut[..|old(cut)|] == old(cut)
        && cut[|old(cut)|] + chunker.rest == old(chunker.rest) && cut[|old(cut)|] != []
    {
      ghost var before := chunker.rest;
      var length := chunker.Next(buf);
      if length == 0 {
        return false;
      }
      var chunk := new byte[length](_ => 0);
      forall j | 0 <= j < length {
        chunk[j] := buf[j];
      }
      assert chunk[..] == before[..length];
      items, cut := items + [chunk], cut + [chunk[..]];
      more := true;
    }

    /** All turns together: the items hold the chunks, and the chunks make up the stream. */
    method ReadItems()
      requires Valid() && items == []
      modifies this`items, this`cut, chunker, buf
      ensures Valid() && chunker.rest == [] && Concat(cut) == old(chunker.rest)
    {
      ghost var stream := chunker.rest;
      assert cut == [];
      var more := true;
      while more
        invariant Valid() && Concat(cut) + chunker.rest == stream
        invariant !more ==> chunker.rest == []
        invariant forall j :: 0 <= j < |items| ==> fresh(items[j])
        decreases |chunker.rest|, more
      {
        ghost var before, rest := cut, chunker.rest;
        more := ReadItem();
        if more {
          var last := cut[|before|];
          assert cut == before + [last];
          ConcatSnoc(before, last);
          Assoc(Concat(before), last, chunker.rest);
        }
      }
      assert Concat(cut) + [] == Concat(cut);
    }
  }
}
