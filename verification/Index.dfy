/** The index object of a dataset: one line of base16 text for each chunk key,
    written by IndexWriter and read back by IndexReader
    (nerd/service/datatransfer/v1/client/index.go). Text is a sequence of bytes. */
module Index {
  import opened Prelude

  const KEY_SIZE := 32

  // bufio.Scanner gives up on a line that does not fit its buffer.
  const MAX_LINE := 65535

  const NEWLINE: byte := 10
  const CARRIAGE_RETURN: byte := 13

  type Key = k: Bytes | |k| == KEY_SIZE witness seq(KEY_SIZE, _ => 0)

  /* ---------- base16 (section 8 of RFC 4648) ---------- */

  function Digit(v: nat): byte
    requires v < 16
  {
    if v < 10 then 48 + v else 87 + v
  }

  // Decoding accepts both letter cases, as encoding/hex does.
  function DigitValue(b: byte): Option<nat> {
    if 48 <= b <= 57 then Some(b - 48)
    else if 97 <= b <= 102 then Some(b - 87)
    else if 65 <= b <= 70 then Some(b - 55)
    else None
  }

  function Encode(data: Bytes): Bytes {
    if data == [] then []
    else [Digit(data[0] / 16), Digit(data[0] % 16)] + Encode(data[1..])
  }

  function Decode(text: Bytes): Option<Bytes> {
    if text == [] then Some([])
    else if |text| == 1 then None
    else
      match (DigitValue(text[0]), DigitValue(text[1]), Decode(text[2..]))
      case (Some(hi), Some(lo), Some(rest)) =>
        if hi < 16 && lo < 16 then Some([16 * hi + lo] + rest) else None
      case _ => None
  }

  lemma {:induction false} EncodeShape(data: Bytes)
    ensures |Encode(data)| == 2 * |data|
    ensures forall j :: 0 <= j < |Encode(data)| ==> DigitValue(Encode(data)[j]).Some?
    ensures forall b :: b in Encode(data) ==> 48 <= b <= 57 || 97 <= b <= 102
    ensures NEWLINE !in Encode(data) && CARRIAGE_RETURN !in Encode(data)
  {
    if data != [] {
      EncodeShape(data[1..]);
    }
  }

  /** Text is decoded exactly if it is made of pairs of digits, and each pair gives one byte. */
  lemma {:induction false} DecodesIffPairsOfDigits(text: Bytes)
    ensures Decode(text).Some? <==>
      |text| % 2 == 0 && forall j :: 0 <= j < |text| ==> DigitValue(text[j]).Some?
    ensures Decode(text).Some? ==> |Decode(text).value| == |text| / 2
  {
    if |text| >= 2 {
      DecodesIffPairsOfDigits(text[2..]);
      assert text == [text[0], text[1]] + text[2..];
      assert forall j :: 2 <= j < |text| ==> text[j] == text[2..][j - 2];
    }
  }

  /** Decoding a beginning of an encoding gives the bytes it covers completely;
      half a byte is an error. */
  lemma {:induction false} DecodeTruncated(data: Bytes, n: nat)
    requires n <= 2 * |data|
    ensures |Encode(data)| == 2 * |data|
    ensures Decode(Encode(data)[..n]) == if n % 2 == 0 then Some(data[..n / 2]) else None
    decreases data
  {
    EncodeShape(data);
    if n >= 2 {
      DecodeTruncated(data[1..], n - 2);
      var text := Encode(data)[..n];
      assert text[2..] == Encode(data[1..])[..n - 2];
      assert data[..n / 2] == [data[0]] + data[1..][..(n - 2) / 2];
    }
  }

  lemma DecodeInvertsEncode(data: Bytes)
    ensures Decode(Encode(data)) == Some(data)
  {
    DecodeTruncated(data, 2 * |data|);
    assert Encode(data)[..2 * |data|] == Encode(data);
    assert data[..|data|] == data;
  }

  /* ---------- writing ---------- */

  function Line(k: Bytes): Bytes {
    Encode(k) + [NEWLINE]
  }

  /** The text of an index that lists `keys`. */
  function Text(keys: seq<Bytes>): Bytes {
    if keys == [] then []
    else Text(keys[..|keys| - 1]) + Line(keys[|keys| - 1])
  }

  lemma TextSnoc(keys: seq<Bytes>, k: Bytes)
    ensures Text(keys + [k]) == Text(keys) + Line(k)
  {
    assert (keys + [k])[..|keys|] == keys;
  }

  lemma {:induction false} TextCons(k: Key, keys: seq<Key>)
    ensures Text([k] + keys) == Line(k) + Text(keys)
    decreases |keys|
  {
    if keys == [] {
      assert [k] + keys == [] + [k];
      TextSnoc([], k);
    } else {
      var init, last := keys[..|keys| - 1], keys[|keys| - 1];
      assert [k] + keys == ([k] + init) + [last];
      TextSnoc([k] + init, last);
      TextCons(k, init);
      Assoc(Line(k), Text(init), Line(last));
    }
  }

  class IndexWriter {
    var out: Bytes

    constructor ()
      ensures out == []
    {
      out := [];
    }

    /** A failing Write may have written a beginning of the line. */
    method WriteKey(k: Key, fault: Option<nat>) returns (ok: bool)
      requires fault.Some? ==> fault.value <= |Line(k)|
      modifies this
      ensures ok <==> fault.None?
      ensures out == old(out) + if ok then Line(k) else Line(k)[..fault.value]
    {
      var line := Encode(k) + [NEWLINE];
      if fault.Some? {
        out := out + line[..fault.value];
        return false;
      }
      out := out + line;
      ok := true;
    }
  }

  /** Keys are written one by one until a Write fails: `faultAt` says at which key, and after
      how much of its line. The text is that of all keys, or of those before and that much. */
  method WriteKeys(w: IndexWriter, keys: seq<Key>, faultAt: nat, written: nat) returns (ok: bool)
    requires w.out == [] && (faultAt < |keys| ==> written <= |Line(keys[faultAt])|)
    modifies w
    ensures ok <==> |keys| <= faultAt
    ensures w.out == if ok then Text(keys) else Text(keys[..faultAt]) + Line(keys[faultAt])[..written]
  {
    for i := 0 to |keys|
      invariant w.out == Text(keys[..i]) && i <= faultAt
    {
      ok := w.WriteKey(keys[i], if i == faultAt then Some(written) else None);
      if !ok {
        return;
      }
      TextSnoc(keys[..i], keys[i]);
      assert keys[..i + 1] == keys[..i] + [keys[i]];
    }
    assert keys[..|keys|] == keys;
    ok := true;
  }

  /* ---------- reading ---------- */

  /** Position of the first newline, or the length of `text` if there is none. */
  function LineEnd(text: Bytes): (n: nat)
    ensures n <= |text|
    ensures NEWLINE !in text[..n]
    ensures n < |text| ==> text[n] == NEWLINE
  {
    if text == [] || text[0] == NEWLINE then 0
    else
      var n := 1 + LineEnd(text[1..]);
      assert text[..n] == [text[0]] + text[1..][..n - 1];
      n
  }

  lemma {:induction false} LineEndUnique(text: Bytes, n: nat)
    requires n <= |text| && NEWLINE !in text[..n]
    requires n < |text| ==> text[n] == NEWLINE
    ensures LineEnd(text) == n
  {
    var m := LineEnd(text);
    assert forall j :: 0 <= j < n ==> text[..n][j] != NEWLINE;
    assert forall j :: 0 <= j < m ==> text[..m][j] != NEWLINE;
  }

  function DropCarriageReturn(line: Bytes): Bytes {
    if line != [] && line[|line| - 1] == CARRIAGE_RETURN then line[..|line| - 1] else line
  }

  // Go's copy(k[:], bytes): longer input is cut, shorter input leaves zeros.
  function ToKey(data: Bytes): Key {
    if |data| >= KEY_SIZE then data[..KEY_SIZE]
    else data + seq(KEY_SIZE - |data|, _ => 0)
  }

  datatype ReadResult =
    | Eof
    | BadLine
    | GotKey(key: Key)

  /** What ReadKey answers when `text` is still unread. The scanner's own failure
      on an overlong line is reported as end of file. */
  function NextKey(text: Bytes): ReadResult {
    var n := LineEnd(text);
    if text == [] || n > MAX_LINE then Eof
    else
      match Decode(DropCarriageReturn(text[..n]))
      case None => BadLine
      case Some(data) => GotKey(ToKey(data))
  }

  /** What is unread after that call. Callers stop at the first end of file. */
  function Unread(text: Bytes): Bytes {
    var n := LineEnd(text);
    if text == [] || n > MAX_LINE then []
    else if n < |text| then text[n + 1..] else []
  }

  datatype Parsed = Parsed(keys: seq<Key>, complete: bool)

  /** All keys read until end of file, or until the first bad line. */
  function Parse(text: Bytes): Parsed
    decreases |text|
  {
    match NextKey(text)
    case Eof => Parsed([], true)
    case BadLine => Parsed([], false)
    case GotKey(k) =>
      var rest := Parse(Unread(text));
      rest.(keys := [k] + rest.keys)
  }

  class IndexReader {
    var unread: Bytes

    constructor (text: Bytes)
      ensures unread == text
    {
      unread := text;
    }

    method ReadKey() returns (r: ReadResult)
      modifies this
      ensures r == NextKey(old(unread))
      ensures unread == Unread(old(unread))
      ensures !r.Eof? ==> |unread| < |old(unread)|
    {
      var n := 0;
      while n < |unread| && unread[n] != NEWLINE
        invariant n <= |unread|
        invariant NEWLINE !in unread[..n]
      {
        n := n + 1;
      }
      LineEndUnique(unread, n);
      if unread == [] || n > MAX_LINE {
        unread := [];
        return Eof;
      }
      var decoded := Decode(DropCarriageReturn(unread[..n]));
      unread := if n < |unread| then unread[n + 1..] else [];
      match decoded {
        case None => r := BadLine;
        case Some(data) => r := GotKey(ToKey(data));
      }
    }
  }

  /** The reading loop of the download's producer: keys until end of file or a bad line. */
  method ReadKeys(r: IndexReader) returns (keys: seq<Key>, complete: bool)
    modifies r
    ensures Parsed(keys, complete) == Parse(old(r.unread))
  {
    ghost var text := r.unread;
    keys := [];
    while true
      invariant Parse(text) == Parsed(keys + Parse(r.unread).keys, Parse(r.unread).complete)
      decreases |r.unread|
    {
      ghost var before := Parse(r.unread);
      var next := r.ReadKey();
      match next {
        case Eof => return keys, true;
        case BadLine => return keys, false;
        case GotKey(k) =>
          assert before.keys == [k] + Parse(r.unread).keys;
          Assoc(keys, [k], Parse(r.unread).keys);
          keys := keys + [k];
      }
    }
  }

  /* ---------- round trip and truncation ---------- */

  // 64 digits and the newline; written out as 65 where it multiplies.
  const LINE_SIZE := 65

  /** What reading makes of a last line cut after `n` of its characters. */
  function CutLine(k: Key, n: nat): Parsed
    requires n < LINE_SIZE
  {
    if n == 0 then Parsed([], true)
    else if n % 2 == 1 then Parsed([], false)
    else Parsed([ToKey(k[..n / 2])], true)
  }

  lemma ParseCutLine(k: Key, n: nat)
    requires n < LINE_SIZE
    ensures |Encode(k)| == 2 * KEY_SIZE
    ensures Parse(Encode(k)[..n]) == CutLine(k, n)
  {
    EncodeShape(k);
    var text := Encode(k)[..n];
    LineEndUnique(text, n);
    DecodeTruncated(k, n);
    if n > 0 {
      assert text[..n] == text;
      assert Unread(text) == [];
      assert Parse([]).keys == [];
    }
  }

  lemma ParseEmpty()
    ensures Parse([]) == Parsed([], true)
  {
  }

  lemma NextFullLine(k: Key, rest: Bytes)
    ensures NextKey(Line(k) + rest) == GotKey(k) && Unread(Line(k) + rest) == rest
  {
    var text := Line(k) + rest;
    EncodeShape(k);
    assert text[..2 * KEY_SIZE] == Encode(k);
    LineEndUnique(text, 2 * KEY_SIZE);
    DecodeInvertsEncode(k);
    assert k[..KEY_SIZE] == k;
  }

  lemma ParseFullLine(k: Key, rest: Bytes)
    ensures Parse(Line(k) + rest) == Parsed([k] + Parse(rest).keys, Parse(rest).complete)
  {
    NextFullLine(k, rest);
    hide NextKey, Unread;
  }

  lemma {:induction false} TextLength(keys: seq<Key>)
    ensures |Text(keys)| == 65 * |keys|
    decreases |keys|
  {
    if keys != [] {
      EncodeShape(keys[|keys| - 1]);
      TextLength(keys[..|keys| - 1]);
    }
  }

  lemma TextFirstLine(keys: seq<Key>)
    requires keys != []
    ensures Text(keys) == Line(keys[0]) + Text(keys[1..])
    ensures |Line(keys[0])| == LINE_SIZE && |Encode(keys[0])| == LINE_SIZE - 1
  {
    TextCons(keys[0], keys[1..]);
    assert keys == [keys[0]] + keys[1..];
    EncodeShape(keys[0]);
  }

  lemma CutInFirstLine(keys: seq<Key>, n: nat)
    requires keys != [] && n < LINE_SIZE
    ensures n <= |Text(keys)|
    ensures Parse(Text(keys)[..n]) == CutLine(keys[0], n)
  {
    TextFirstLine(keys);
    ParseCutLine(keys[0], n);
    assert Text(keys)[..n] == Encode(keys[0])[..n];
  }

  lemma CutAfterFirstLine(keys: seq<Key>, n: nat)
    requires keys != [] && LINE_SIZE <= n <= |Text(keys)|
    ensures n - LINE_SIZE <= |Text(keys[1..])|
    ensures
      var rest := Parse(Text(keys[1..])[..n - LINE_SIZE]);
      Parse(Text(keys)[..n]) == rest.(keys := [keys[0]] + rest.keys)
  {
    TextFirstLine(keys);
    var rest := Text(keys[1..])[..n - LINE_SIZE];
    assert Text(keys)[..n] == Line(keys[0]) + rest;
    ParseFullLine(keys[0], rest);
  }

  /** The keys of the first `q` lines, then what is made of `r` characters of the next. */
  function CutText(keys: seq<Key>, q: nat, r: nat): Parsed
    requires q < |keys| && r < LINE_SIZE
  {
    var cut := CutLine(keys[q], r);
    cut.(keys := keys[..q] + cut.keys)
  }

  lemma CutTextStart(keys: seq<Key>, r: nat)
    requires keys != [] && r < LINE_SIZE
    ensures CutText(keys, 0, r) == CutLine(keys[0], r)
  {
    assert keys[..0] == [];
    assert [] + CutLine(keys[0], r).keys == CutLine(keys[0], r).keys;
  }

  lemma CutTextStep(keys: seq<Key>, q: nat, r: nat)
    requires 0 < q < |keys| && r < LINE_SIZE
    ensures
      var rest := CutText(keys[1..], q - 1, r);
      CutText(keys, q, r) == rest.(keys := [keys[0]] + rest.keys)
  {
    assert keys[..q] == [keys[0]] + keys[1..][..q - 1];
  }

  /** Reading a beginning of an index that ends `r` characters into line `q`: the keys
      of the whole lines come back in order. The cut line, if any, is an error exactly
      when an odd number of its digits is left; all 64 give its key, and fewer, but an even
      number, give those bytes followed by zeros. */
  lemma {:induction false} ParseTruncated(keys: seq<Key>, q: nat, r: nat)
    requires q < |keys| && r < LINE_SIZE
    ensures |Text(keys[..q])| + r <= |Text(keys)|
    ensures Parse(Text(keys)[..|Text(keys[..q])| + r]) == CutText(keys, q, r)
    decreases q
  {
    hide Parse, CutText, CutLine;
    TextFirstLine(keys);
    if q == 0 {
      assert keys[..0] == [];
      CutInFirstLine(keys, r);
      CutTextStart(keys, r);
    } else {
      TextFirstLine(keys[..q]);
      assert keys[..q][1..] == keys[1..][..q - 1];
      hide Text, Line, Encode;
      ParseTruncated(keys[1..], q - 1, r);
      CutAfterFirstLine(keys, |Text(keys[..q])| + r);
      CutTextStep(keys, q, r);
    }
  }

  /** What WriteKey wrote, ReadKey reads back: the same keys, then end of file. */
  lemma {:induction false} ParseInvertsText(keys: seq<Key>)
    ensures Parse(Text(keys)) == Parsed(keys, true)
    decreases |keys|
  {
    if keys != [] {
      TextCons(keys[0], keys[1..]);
      assert keys == [keys[0]] + keys[1..];
      ParseFullLine(keys[0], Text(keys[1..]));
      ParseInvertsText(keys[1..]);
    }
  }

  /** A cut index goes unnoticed exactly when the cut leaves an even number of digits
      of the broken line (none at all counts as even). */
  lemma TruncationDetected(keys: seq<Key>, n: nat)
    requires n < |Text(keys)|
    ensures !Parse(Text(keys)[..n]).complete <==> n % 65 % 2 == 1
  {
    hide Parse, Text;
    TextLength(keys);
    TextLength(keys[..n / 65]);
    ParseTruncated(keys, n / 65, n % 65);
  }

  /** One key of 32 ones, cut after two digits, reads back as another key. */
  lemma TruncatedIndexForgesKey()
    ensures
      var k: Key := seq(KEY_SIZE, _ => 1);
      && 2 <= |Text([k])|
      && Parse(Text([k])[..2]) == Parsed([[1] + seq(KEY_SIZE - 1, _ => 0)], true)
  {
    var k: Key := seq(KEY_SIZE, _ => 1);
    TextLength([k]);
    ParseTruncated([k], 0, 2);
    assert [k][..0] == [];
    assert ToKey(k[..1]) == [1] + seq(KEY_SIZE - 1, _ => 0);
    assert [k][..0] + [ToKey(k[..1])] == [ToKey(k[..1])];
  }

  /* ---------- lines that are too long ---------- */

  /** What is unread when reading ends: nothing, a bad line, or a line too long. */
  function Left(text: Bytes): Bytes
    decreases |text|
  {
    if NextKey(text).GotKey? then Left(Unread(text)) else text
  }

  /** No line break among the MAX_LINE + 1 bytes from position `i` on. */
  predicate LongFrom(text: Bytes, i: nat) {
    i + MAX_LINE < |text| && forall j :: i <= j <= i + MAX_LINE ==> text[j] != NEWLINE
  }

  ghost predicate LinesFit(text: Bytes) {
    forall i: nat :: !LongFrom(text, i)
  }

  lemma LongFirstLine(text: Bytes)
    ensures LineEnd(text) > MAX_LINE <==> LongFrom(text, 0)
  {
    var n := LineEnd(text);
    assert forall j :: 0 <= j < n ==> text[..n][j] == text[j];
  }

  lemma LongInRest(text: Bytes, m: nat, i: nat)
    requires m <= |text|
    ensures LongFrom(text[m..], i) <==> LongFrom(text, m + i)
  {
    var rest := text[m..];
    if LongFrom(rest, i) {
      forall j | m + i <= j <= m + i + MAX_LINE ensures text[j] != NEWLINE {
        assert rest[j - m] != NEWLINE;
      }
    }
    if LongFrom(text, m + i) {
      forall j | i <= j <= i + MAX_LINE ensures rest[j] != NEWLINE {
        assert text[m + j] != NEWLINE;
      }
    }
  }

  lemma LongAround(text: Bytes, n: nat, i: nat)
    requires n < |text| && n <= MAX_LINE && text[n] == NEWLINE
    ensures if i <= n then !LongFrom(text, i) else LongFrom(text, i) <==> LongFrom(text[n + 1..], i - n - 1)
  {
    if i > n {
      LongInRest(text, n + 1, i - n - 1);
    }
  }

  lemma FitAround(text: Bytes, n: nat)
    requires n < |text| && n <= MAX_LINE && text[n] == NEWLINE
    ensures LinesFit(text) <==> LinesFit(text[n + 1..])
  {
    forall i: nat
      ensures if i <= n then !LongFrom(text, i) else LongFrom(text, i) <==> LongFrom(text[n + 1..], i - n - 1)
    {
      LongAround(text, n, i);
    }
    hide LongFrom;
    var rest := text[n + 1..];
    if LinesFit(text) {
      forall i: nat ensures !LongFrom(rest, i) {
        assert !LongFrom(text, i + n + 1);
      }
    }
  }

  lemma FitAfterFirstLine(text: Bytes)
    requires text != [] && LineEnd(text) <= MAX_LINE
    ensures LinesFit(text) <==> LinesFit(Unread(text))
  {
    var n := LineEnd(text);
    if n < |text| {
      FitAround(text, n);
    }
  }

  /** The reader calls it the end of the file both at the end and at a line too long: what
      reads as complete was read to its end exactly if no line is longer than the buffer. */
  lemma {:induction false} ReadToEndIffLinesFit(text: Bytes)
    ensures Parse(text).complete <==> NextKey(Left(text)).Eof?
    ensures Parse(text).complete ==> (Left(text) == [] <==> LinesFit(text))
    decreases |text|
  {
    if NextKey(text).GotKey? {
      ReadToEndIffLinesFit(Unread(text));
      FitAfterFirstLine(text);
      hide LinesFit;
    } else {
      LongFirstLine(text);
    }
  }

  lemma ParseAfterLine(k: Key, rest: Bytes)
    ensures Parse(Line(k) + rest) == Parsed([k] + Parse(rest).keys, Parse(rest).complete)
    ensures Left(Line(k) + rest) == Left(rest)
  {
    ParseFullLine(k, rest);
    NextFullLine(k, rest);
    hide Parse, NextKey, Unread, Line;
  }

  lemma FirstLineBeforeTail(keys: seq<Key>, tail: Bytes)
    requires keys != []
    ensures Text(keys) + tail == Line(keys[0]) + (Text(keys[1..]) + tail)
  {
    TextFirstLine(keys);
    hide Text;
    Assoc(Line(keys[0]), Text(keys[1..]), tail);
  }

  /** Whole lines are read before whatever follows them. */
  lemma {:induction false} ParseAfterText(keys: seq<Key>, tail: Bytes)
    ensures Parse(Text(keys) + tail) == Parsed(keys + Parse(tail).keys, Parse(tail).complete)
    ensures Left(Text(keys) + tail) == Left(tail)
    decreases |keys|
  {
    hide Parse, Left;
    if keys == [] {
      assert Text(keys) + tail == tail && keys + Parse(tail).keys == Parse(tail).keys;
    } else {
      hide Text, Line;
      FirstLineBeforeTail(keys, tail);
      ParseAfterLine(keys[0], Text(keys[1..]) + tail);
      ParseAfterText(keys[1..], tail);
      assert keys == [keys[0]] + keys[1..];
      Assoc([keys[0]], keys[1..], Parse(tail).keys);
    }
  }

  /** What an index writer wrote is free of this: it is read to its end. */
  lemma WrittenLinesFit(keys: seq<Key>)
    ensures LinesFit(Text(keys)) && Left(Text(keys)) == []
  {
    ParseAfterText(keys, []);
    assert Text(keys) + [] == Text(keys) && Left([]) == [];
    ParseInvertsText(keys);
    ReadToEndIffLinesFit(Text(keys));
  }

  lemma OverlongIsEof(line: Bytes, rest: Bytes)
    requires |line| > MAX_LINE && NEWLINE !in line
    ensures NextKey(line + rest) == Eof && Parse(line + rest) == Parsed([], true)
  {
    var text := line + rest;
    assert forall j :: 0 <= j <= MAX_LINE ==> text[j] == line[j];
    LongFirstLine(text);
  }

  /** Whatever follows an overlong line goes unnoticed, without an error. */
  lemma OverlongLineHidesRest(keys: seq<Key>, line: Bytes, rest: Bytes)
    requires |line| > MAX_LINE && NEWLINE !in line
    ensures Parse(Text(keys) + (line + rest)) == Parsed(keys, true)
    ensures Left(Text(keys) + (line + rest)) == line + rest
  {
    OverlongIsEof(line, rest);
    ParseAfterText(keys, line + rest);
    assert keys + [] == keys;
  }

  /** What reading makes of any line at all: one of 65536 bytes or more ends the reading; of any
      other a carriage return at its end is ignored, and it is an error exactly if what remains
      is not made of pairs of digits; its bytes are the key, filled up with zeros or cut off. */
  lemma AnyLineIsRead(line: Bytes, rest: Bytes)
    requires NEWLINE !in line
    ensures
      var text := line + [NEWLINE] + rest;
      var n := if line != [] && line[|line| - 1] == 13 then |line| - 1 else |line|;
      var digits := n % 2 == 0 && forall j :: 0 <= j < n ==> DigitValue(line[j]).Some?;
      && (NextKey(text).Eof? <==> |line| >= 65536)
      && (|line| < 65536 ==>
            && Unread(text) == rest
            && (NextKey(text).BadLine? <==> !digits) && (Decode(line[..n]).Some? <==> digits)
            && (digits ==>
                  var data := Decode(line[..n]).value;
                  && |data| == n / 2
                  && forall j :: 0 <= j < 32 ==> NextKey(text).key[j] == if j < n / 2 then data[j] else 0))
  {
    var text := line + [NEWLINE] + rest;
    var n := if line != [] && line[|line| - 1] == 13 then |line| - 1 else |line|;
    assert text[..|line|] == line;
    LineEndUnique(text, |line|);
    assert DropCarriageReturn(line) == line[..n];
    DecodesIffPairsOfDigits(line[..n]);
    assert text[|line| + 1..] == rest;
    assert forall j :: 0 <= j < n ==> line[..n][j] == line[j];
    hide Decode;
  }
}
