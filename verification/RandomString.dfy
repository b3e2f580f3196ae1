/** randomString (command/login.go:147-173): letters are cut six bits at a time from 63-bit
    random numbers. The numbers the source yields are a parameter; None means that they ran
    out before the string was complete. */
module RandomString {
  import opened Prelude

  const DIGITS_PER_DRAW: nat := 10

  type Draw = x: int | 0 <= x < 0x8000_0000_0000_0000

  // letterBytes
  function Alphabet(): (s: string)
    ensures |s| == 62
  {
    "abcdefghijklmnopqrstuvwxyz" + "ABCDEFGHIJKLMNOPQRSTUVWXYZ" + "0123456789"
  }

  lemma SmallLetters(d: nat)
    requires d < 62
    ensures d < 26 ==> Alphabet()[d] == 'a' + d as char
  {
    if d < 26 {
      assert Alphabet()[d] == "abcdefghijklmnopqrstuvwxyz"[d];
    }
  }

  lemma Capitals(d: nat)
    requires d < 62
    ensures 26 <= d < 52 ==> Alphabet()[d] == 'A' + (d - 26) as char
  {
    if 26 <= d < 52 {
      assert Alphabet()[d] == "ABCDEFGHIJKLMNOPQRSTUVWXYZ"[d - 26];
    }
  }

  lemma Numerals(d: nat)
    requires d < 62
    ensures 52 <= d ==> Alphabet()[d] == '0' + (d - 52) as char
  {
    if 52 <= d {
      assert Alphabet()[d] == "0123456789"[d - 52];
    }
  }

  /** The small letters come first, then the capitals, then the digits, each in their order, so
      that every one of them is there exactly once. */
  lemma LettersInOrder(d: nat)
    requires d < 62
    ensures Alphabet()[d] == if d < 26 then 'a' + d as char
                             else if d < 52 then 'A' + (d - 26) as char else '0' + (d - 52) as char
  {
    hide *;
    SmallLetters(d);
    Capitals(d);
    Numerals(d);
  }

  // cache & letterIdxMask
  function Low(x: nat): (d: nat)
    ensures d < 64
  {
    x % 64
  }

  // cache >> letterIdxBits
  function High(x: nat): nat {
    x / 64
  }

  /** The `count` lowest base-64 digits of `x`, lowest first. */
  function Digits(x: nat, count: nat): seq<nat> {
    if count == 0 then [] else [Low(x)] + Digits(High(x), count - 1)
  }

  function Pow64(n: nat): (p: nat)
    ensures p > 0
  {
    if n == 0 then 1 else 64 * Pow64(n - 1)
  }

  /** The number that digits stand for, lowest first. */
  function Value(digits: seq<nat>): nat {
    if digits == [] then 0 else digits[0] + 64 * Value(digits[1..])
  }

  /** The digits are those of the number in base 64: they stand for what is left of it when a
      multiple of 64 to their count is taken off, which is less than that power. */
  lemma {:induction false} DigitsAreBase64(x: nat, count: nat) returns (rest: nat)
    ensures |Digits(x, count)| == count && forall d :: d in Digits(x, count) ==> d < 64
    ensures x == Value(Digits(x, count)) + Pow64(count) * rest
    ensures Value(Digits(x, count)) < Pow64(count)
  {
    if count == 0 {
      rest := x;
    } else {
      rest := DigitsAreBase64(High(x), count - 1);
      assert Digits(x, count)[1..] == Digits(High(x), count - 1);
      OneMoreDigit(x, Value(Digits(High(x), count - 1)), Pow64(count - 1), rest);
    }
  }

  lemma OneMoreDigit(x: nat, v: nat, p: nat, rest: nat)
    requires High(x) == v + p * rest && v < p
    ensures x == (Low(x) + 64 * v) + (64 * p) * rest && Low(x) + 64 * v < 64 * p
  {
    assert x == 64 * High(x) + Low(x);
    assert (64 * p) * rest == 64 * (p * rest);
  }

  /** Ten digits are all that a draw is good for: 64 to the tenth power is no more than there are
      draws, and to the eleventh it is. */
  lemma DrawHasTenDigits()
    ensures DIGITS_PER_DRAW == 10 && Pow64(DIGITS_PER_DRAW) <= 0x8000_0000_0000_0000 < Pow64(DIGITS_PER_DRAW + 1)
  {
    assert Pow64(2) == 64 * 64;
    assert Pow64(4) == 64 * (64 * Pow64(2));
    assert Pow64(6) == 64 * (64 * Pow64(4));
    assert Pow64(8) == 64 * (64 * Pow64(6));
    assert Pow64(10) == 64 * (64 * Pow64(8));
  }

  /** Digits that stand for a letter, as letters. */
  function Letters(digits: seq<nat>): string {
    if digits == [] then ""
    else (if digits[0] < |Alphabet()| then [Alphabet()[digits[0]]] else "") + Letters(digits[1..])
  }

  /** All letters in a series of draws, ten digits each. */
  function Stream(draws: seq<Draw>): string {
    if draws == [] then "" else Letters(Digits(draws[0], DIGITS_PER_DRAW)) + Stream(draws[1..])
  }

  function Reverse(s: string): string {
    if s == "" then "" else Reverse(s[1..]) + [s[0]]
  }

  lemma {:induction false} ReverseSnoc(s: string, c: char)
    ensures Reverse(s + [c]) == [c] + Reverse(s)
  {
    if s == "" {
      assert s + [c] == [c];
      assert [c][1..] == "";
    } else {
      assert (s + [c])[1..] == s[1..] + [c];
      ReverseSnoc(s[1..], c);
    }
  }

  /** The letters still to come: `remain` digits of `cache`, then the later draws. */
  function Ahead(cache: nat, remain: nat, later: seq<Draw>): string {
    Letters(Digits(cache, remain)) + Stream(later)
  }

  /** Six bits more: the lowest digit is the next one, and yields a letter or nothing. */
  lemma NextDigit(cache: nat, remain: nat, later: seq<Draw>)
    requires remain > 0
    ensures Ahead(cache, remain, later) ==
      (if Low(cache) < |Alphabet()| then [Alphabet()[Low(cache)]] else "") + Ahead(High(cache), remain - 1, later)
  {
    assert Digits(cache, remain)[1..] == Digits(High(cache), remain - 1);
    Assoc(if Low(cache) < |Alphabet()| then [Alphabet()[Low(cache)]] else "",
          Letters(Digits(High(cache), remain - 1)), Stream(later));
  }

  /** No bits left: the next draw supplies ten more digits. */
  lemma NextDraw(cache: nat, later: seq<Draw>)
    ensures later == [] ==> Ahead(cache, 0, later) == ""
    ensures later != [] ==> Ahead(cache, 0, later) == Ahead(later[0], DIGITS_PER_DRAW, later[1..])
  {
  }

  lemma NextLetter(stream: string, m: nat, c: char, rest: string)
    requires m <= |stream| && stream[m..] == [c] + rest
    ensures m < |stream| && stream[m + 1..] == rest && stream[..m + 1] == stream[..m] + [c]
  {
    assert |stream[m..]| > 0;
    assert stream[m..][1..] == rest;
  }

  /** `m` letters of the stream have been given; what is ahead is its rest. */
  ghost predicate Reached(draws: seq<Draw>, m: nat, cache: nat, remain: nat, next: nat) {
    && next <= |draws| && m <= |Stream(draws)|
    && Stream(draws)[m..] == Ahead(cache, remain, draws[next..])
  }

  /** From position `i` on the buffer holds the first `m` letters, back to front. */
  ghost predicate Filled(b: string, i: nat, draws: seq<Draw>, m: nat) {
    i <= |b| && m <= |Stream(draws)| && b[i..] == Reverse(Stream(draws)[..m])
  }

  lemma AtStart(draws: seq<Draw>, b: string)
    requires draws != []
    ensures Reached(draws, 0, draws[0], DIGITS_PER_DRAW, 1) && Filled(b, |b|, draws, 0)
  {
  }

  lemma TakeDraw(draws: seq<Draw>, m: nat, cache: nat, next: nat)
    requires Reached(draws, m, cache, 0, next)
    ensures next == |draws| ==> m == |Stream(draws)|
    ensures next < |draws| ==> Reached(draws, m, draws[next], DIGITS_PER_DRAW, next + 1)
  {
    NextDraw(cache, draws[next..]);
    hide Stream, Ahead;
    if next < |draws| {
      assert draws[next..][1..] == draws[next + 1..];
    }
  }

  lemma SkipDigit(draws: seq<Draw>, m: nat, cache: nat, remain: nat, next: nat)
    requires Reached(draws, m, cache, remain, next) && remain > 0 && Low(cache) >= |Alphabet()|
    ensures Reached(draws, m, High(cache), remain - 1, next)
  {
    NextDigit(cache, remain, draws[next..]);
  }

  lemma TakeDigit(draws: seq<Draw>, m: nat, cache: nat, remain: nat, next: nat, b: string, i: nat)
    requires Reached(draws, m, cache, remain, next) && remain > 0 && Low(cache) < |Alphabet()|
    requires Filled(b, i + 1, draws, m)
    ensures Reached(draws, m + 1, High(cache), remain - 1, next)
    ensures Filled(b[i := Alphabet()[Low(cache)]], i, draws, m + 1)
  {
    var c := Alphabet()[Low(cache)];
    NextDigit(cache, remain, draws[next..]);
    hide Stream, Ahead, Reverse, Alphabet;
    NextLetter(Stream(draws), m, c, Ahead(High(cache), remain - 1, draws[next..]));
    ReverseSnoc(Stream(draws)[..m], c);
    assert b[i := c][i..] == [c] + b[i + 1..];
  }

  lemma FilledUp(b: string, draws: seq<Draw>, m: nat)
    requires Filled(b, 0, draws, m)
    ensures m <= |Stream(draws)| && b == Reverse(Stream(draws)[..m])
  {
    assert b[0..] == b;
  }

  method Put(b: array<char>, i: nat, ch: char)
    requires i < b.Length
    modifies b
    ensures b[..] == old(b[..])[i := ch]
  {
    b[i] := ch;
  }

  /** The string is the first n letters of the stream, back to front. */
  method Generate(n: nat, draws: seq<Draw>) returns (r: Option<string>)
    ensures r.Some? <==> draws != [] && n <= |Stream(draws)|
    ensures r.Some? ==> r.value == Reverse(Stream(draws)[..n])
  {
    assert DIGITS_PER_DRAW > 0;
    hide *;
    if draws == [] {
      return None;
    }
    var b := new char[n];
    var next, i := 1, n;
    ghost var m := 0;
    var cache: nat, remain: nat := draws[0], DIGITS_PER_DRAW;
    AtStart(draws, b[..]);
    while i > 0
      invariant i + m == n && 1 <= next <= |draws| && remain <= DIGITS_PER_DRAW
      invariant Reached(draws, m, cache, remain, next) && Filled(b[..], i, draws, m)
      decreases |draws| - next, remain
    {
      if remain == 0 {
        TakeDraw(draws, m, cache, next);
        if next == |draws| {
          return None;
        }
        cache, remain, next := draws[next], DIGITS_PER_DRAW, next + 1;
      }
      var idx := Low(cache);
      if idx < |Alphabet()| {
        TakeDigit(draws, m, cache, remain, next, b[..], i - 1);
        i := i - 1;
        Put(b, i, Alphabet()[idx]);
        m := m + 1;
      } else {
        SkipDigit(draws, m, cache, remain, next);
      }
      cache, remain := High(cache), remain - 1;
    }
    FilledUp(b[..], draws, n);
    r := Some(b[..]);
  }
}
