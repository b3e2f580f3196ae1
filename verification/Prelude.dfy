/** Vocabulary shared by every model: bytes, optional values, and the few facts
    about concatenating, prefixing and summing that the transfer proofs use. */
module Prelude {

  type byte = x: int | 0 <= x < 256

  type Bytes = seq<byte>

  datatype Option<+T> = None | Some(value: T)

  /** The bytes of `parts`, one after the other. */
  function Concat(parts: seq<Bytes>): Bytes {
    if parts == [] then []
    else Concat(parts[..|parts| - 1]) + parts[|parts| - 1]
  }

  lemma Assoc<T>(a: seq<T>, b: seq<T>, c: seq<T>)
    ensures (a + b) + c == a + (b + c)
  {
  }

  lemma PrefixExtends<T>(s: seq<T>, m: nat, n: nat)
    requires m + n <= |s|
    ensures s[..m] + s[m..][..n] == s[..m + n]
  {
    assert s[..m + n] == s[..m + n][..m] + s[..m + n][m..];
    assert s[..m + n][..m] == s[..m];
    assert s[..m + n][m..] == s[m..][..n];
  }

  lemma ConcatSnoc(parts: seq<Bytes>, last: Bytes)
    ensures Concat(parts + [last]) == Concat(parts) + last
  {
    assert (parts + [last])[..|parts|] == parts;
  }

  lemma {:induction false} ConcatAppend(left: seq<Bytes>, right: seq<Bytes>)
    ensures Concat(left + right) == Concat(left) + Concat(right)
    decreases |right|
  {
    if right == [] {
      assert left + right == left;
    } else {
      var init, last := right[..|right| - 1], right[|right| - 1];
      assert left + right == (left + init) + [last];
      ConcatSnoc(left + init, last);
      ConcatAppend(left, init);
      Assoc(Concat(left), Concat(init), last);
    }
  }

  function Sum(ns: seq<nat>): nat {
    if ns == [] then 0 else Sum(ns[..|ns| - 1]) + ns[|ns| - 1]
  }

  lemma SumSnoc(ns: seq<nat>, n: nat)
    ensures Sum(ns + [n]) == Sum(ns) + n
  {
    assert (ns + [n])[..|ns|] == ns;
  }
}
