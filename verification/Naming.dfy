/** The names safeFilePath tries for a file that already exists
    (nerd/service/datatransfer/v1/tar.go:143-165): file.txt, file_(1).txt, file_(2).txt, and
    so on, on strings and with Go's 64-bit int. */
module Naming {
  import opened Prelude

  const MAX_INT := 0x7fff_ffff_ffff_ffff
  const MIN_INT := -0x8000_0000_0000_0000

  /* ---------- decimal numbers ---------- */

  predicate IsDigit(ch: char) {
    '0' <= ch <= '9'
  }

  function DigitChar(d: nat): (ch: char)
    requires d < 10
    ensures IsDigit(ch)
  {
    '0' + d as char
  }

  function DigitOf(ch: char): (d: nat)
    requires IsDigit(ch)
    ensures d < 10
  {
    (ch - '0') as nat
  }

  function Decimal(n: nat): (s: string)
    ensures s != "" && forall j :: 0 <= j < |s| ==> IsDigit(s[j])
  {
    if n < 10 then [DigitChar(n)] else Decimal(n / 10) + [DigitChar(n % 10)]
  }

  predicate AllDigits(s: string) {
    forall j :: 0 <= j < |s| ==> IsDigit(s[j])
  }

  /** The number a string of digits stands for. */
  function Number(s: string): nat
    requires AllDigits(s)
  {
    if s == "" then 0 else 10 * Number(s[..|s| - 1]) + DigitOf(s[|s| - 1])
  }

  lemma {:induction false} NumberOfDecimal(n: nat)
    ensures Number(Decimal(n)) == n
  {
    if n >= 10 {
      NumberOfDecimal(n / 10);
      assert Decimal(n)[..|Decimal(n)| - 1] == Decimal(n / 10);
    } else {
      assert Decimal(n)[..0] == "";
    }
  }

  lemma {:induction false} DecimalGrows(m: nat, n: nat)
    requires m <= n
    ensures |Decimal(m)| <= |Decimal(n)|
    decreases n
  {
    if m >= 10 {
      DecimalGrows(m / 10, n / 10);
    }
  }

  // strconv.Atoi: the largest int, besides an error nobody looks at, if it does not fit
  function Atoi(s: string): (n: nat)
    requires AllDigits(s)
    ensures n <= MAX_INT
  {
    if Number(s) <= MAX_INT then Number(s) else MAX_INT
  }

  // %v of an int
  function Print(n: int): (s: string)
    ensures s != ""
  {
    if n < 0 then "-" + Decimal(-n) else Decimal(n)
  }

  // n + 1 in 64 bits
  function Increment(n: int): int {
    if n == MAX_INT then MIN_INT else n + 1
  }

  /* ---------- parts of a file name ---------- */

  /** Position of the last dot, or the length if there is none. */
  function LastDot(name: string): (n: nat)
    ensures n <= |name| && (n < |name| ==> name[n] == '.')
    ensures forall j :: n < j < |name| ==> name[j] != '.'
    ensures n == |name| ==> forall j :: 0 <= j < |name| ==> name[j] != '.'
  {
    if name == "" then 0
    else if name[|name| - 1] == '.' then |name| - 1
    else
      var n := LastDot(name[..|name| - 1]);
      if n == |name| - 1 then |name| else n
  }

  /** filepath.Ext: from the last dot on, or nothing. */
  function Ext(name: string): string {
    name[LastDot(name)..]
  }

  /** The name without its extension. */
  function Stem(name: string): string {
    name[..LastDot(name)]
  }

  /** Where the digits at the end of `s` begin. */
  function DigitsStart(s: string): (n: nat)
    ensures n <= |s| && (n > 0 ==> !IsDigit(s[n - 1]))
    ensures forall j :: n <= j < |s| ==> IsDigit(s[j])
  {
    if s == "" || !IsDigit(s[|s| - 1]) then |s| else DigitsStart(s[..|s| - 1])
  }

  function Suffix(digits: string): string {
    "_(" + digits + ")"
  }

  /** The digits of a match of the pattern _\(\d+\)$ in a stem. */
  function VersionDigits(stem: string): (d: Option<string>)
    ensures d.Some? ==> d.value != "" && AllDigits(d.value)
    ensures d.Some? ==>
      |Suffix(d.value)| <= |stem| && stem == stem[..|stem| - |Suffix(d.value)|] + Suffix(d.value)
  {
    if stem == "" || stem[|stem| - 1] != ')' then None
    else
      var body := stem[..|stem| - 1];
      var cut := DigitsStart(body);
      if cut == |body| || cut < 2 || body[cut - 1] != '(' || body[cut - 2] != '_' then None
      else
        assert stem == stem[..cut - 2] + Suffix(body[cut..]);
        Some(body[cut..])
  }

  function HasSuffix(s: string, suffix: string): bool {
    |suffix| <= |s| && s[|s| - |suffix|..] == suffix
  }

  // strings.TrimSuffix
  function TrimSuffix(s: string, suffix: string): string {
    if HasSuffix(s, suffix) then s[..|s| - |suffix|] else s
  }

  /** The next name tried when `name` exists. */
  function NextName(name: string): string {
    var stem := Stem(name);
    match VersionDigits(stem)
    case None => stem + Suffix(Print(1)) + Ext(name)
    case Some(digits) =>
      var version := Atoi(digits);
      TrimSuffix(stem, Suffix(Print(version))) + Suffix(Print(Increment(version))) + Ext(name)
  }

  /** The name after `n` names exist already. */
  function Candidate(name: string, n: nat): string
    decreases n
  {
    if n == 0 then name else Candidate(NextName(name), n - 1)
  }

  /* ---------- a new name splits into the parts it was made of ---------- */

  predicate NoDot(s: string) {
    forall j :: 0 <= j < |s| ==> s[j] != '.'
  }

  /** `ext` is what Ext returns for stem + ext. */
  predicate GoodExt(stem: string, ext: string) {
    if ext == "" then NoDot(stem) else ext[0] == '.' && NoDot(ext[1..])
  }

  lemma ExtOfJoin(stem: string, ext: string)
    requires GoodExt(stem, ext)
    ensures Ext(stem + ext) == ext && Stem(stem + ext) == stem
  {
    var name := stem + ext;
    var n := LastDot(name);
    if ext == "" {
      assert name == stem;
    } else {
      assert name[|stem|] == '.';
      assert forall j :: |stem| < j < |name| ==> name[j] == ext[1..][j - |stem| - 1];
    }
    assert n == |stem|;
  }

  lemma PartsOfName(name: string)
    ensures name == Stem(name) + Ext(name) && GoodExt(Stem(name), Ext(name))
  {
  }

  lemma DigitsStartAfter(front: string, digits: string)
    requires front != "" && !IsDigit(front[|front| - 1]) && AllDigits(digits)
    ensures DigitsStart(front + digits) == |front|
  {
    var s := front + digits;
    assert s[|front| - 1] == front[|front| - 1];
    assert forall j :: |front| <= j < |s| ==> s[j] == digits[j - |front|];
  }

  lemma WithoutBracket(base: string, digits: string)
    ensures
      var stem := base + Suffix(digits);
      && stem[|stem| - 1] == ')' && stem[..|stem| - 1] == (base + "_(") + digits
  {
  }

  lemma VersionOfSuffix(base: string, digits: string)
    requires digits != "" && AllDigits(digits)
    ensures VersionDigits(base + Suffix(digits)) == Some(digits)
  {
    WithoutBracket(base, digits);
    var front := base + "_(";
    assert front[|front| - 1] == '(' && front[|front| - 2] == '_';
    DigitsStartAfter(front, digits);
    var body := front + digits;
    assert body[|front|..] == digits;
    hide DigitsStart, Suffix;
  }

  /** Exactly the digits of a match of the pattern are found, where there is one. */
  lemma VersionDigitsMatch(stem: string, digits: string)
    ensures VersionDigits(stem) == Some(digits)
      <==> digits != "" && AllDigits(digits) && HasSuffix(stem, Suffix(digits))
  {
    if digits != "" && AllDigits(digits) && HasSuffix(stem, Suffix(digits)) {
      var base := stem[..|stem| - |Suffix(digits)|];
      assert stem == base + Suffix(digits);
      VersionOfSuffix(base, digits);
    }
    hide DigitsStart;
  }

  /* ---------- the names tried are all different ---------- */

  function Version(name: string): int {
    match VersionDigits(Stem(name))
    case None => -1
    case Some(digits) => Atoi(digits)
  }

  /** Longer names come later; among names of one length, higher versions do. */
  predicate RankLess(a: string, b: string) {
    |a| < |b| || (|a| == |b| && Version(a) < Version(b))
  }

  lemma AtoiOfDecimal(n: nat)
    requires n <= MAX_INT
    ensures Atoi(Decimal(n)) == n
  {
    NumberOfDecimal(n);
  }

  /** What is known of a name that ends in the number `n` as the program prints it. */
  lemma NumberedName(base: string, n: nat, ext: string)
    requires n <= MAX_INT && GoodExt(base, ext)
    ensures
      var name := base + Suffix(Decimal(n)) + ext;
      && Ext(name) == ext && Stem(name) == base + Suffix(Decimal(n))
      && VersionDigits(Stem(name)) == Some(Decimal(n)) && Version(name) == n
  {
    var stem := base + Suffix(Decimal(n));
    assert GoodExt(stem, ext);
    ExtOfJoin(stem, ext);
    VersionOfSuffix(base, Decimal(n));
    AtoiOfDecimal(n);
  }

  lemma NextOfNumbered(base: string, n: nat, ext: string)
    requires n <= MAX_INT && GoodExt(base, ext)
    ensures NextName(base + Suffix(Decimal(n)) + ext) == base + Suffix(Print(Increment(n))) + ext
  {
    NumberedName(base, n, ext);
    AtoiOfDecimal(n);
    var stem := base + Suffix(Decimal(n));
    assert stem[|stem| - |Suffix(Decimal(n))|..] == Suffix(Decimal(n));
    assert stem[..|stem| - |Suffix(Decimal(n))|] == base;
  }

  /** A number that does not end in the form it is printed in is not taken off. */
  predicate TakenOff(stem: string) {
    VersionDigits(stem).Some? && HasSuffix(stem, Suffix(Decimal(Atoi(VersionDigits(stem).value))))
  }

  lemma NextIsLonger(name: string)
    requires !TakenOff(Stem(name))
    ensures |name| < |NextName(name)|
  {
    PartsOfName(name);
    hide VersionDigits, Decimal, HasSuffix;
  }

  lemma TakenOffParts(name: string)
    requires TakenOff(Stem(name))
    ensures
      var n := Atoi(VersionDigits(Stem(name)).value);
      var suffix := Suffix(Decimal(n));
      && |suffix| <= |Stem(name)|
      && var base := Stem(name)[..|Stem(name)| - |suffix|];
         name == base + suffix + Ext(name) && GoodExt(base, Ext(name))
  {
    PartsOfName(name);
    hide VersionDigits, Decimal, Suffix;
  }

  /** Each next name ranks higher, even where the 64-bit version number overflows. */
  lemma NextRanksHigher(name: string)
    ensures RankLess(name, NextName(name))
  {
    if TakenOff(Stem(name)) {
      TakenOffParts(name);
      hide NextName, Version, VersionDigits, Decimal, Suffix, Stem, Ext, GoodExt;
      var n := Atoi(VersionDigits(Stem(name)).value);
      var base := Stem(name)[..|Stem(name)| - |Suffix(Decimal(n))|];
      NextOfNumberedRanksHigher(base, n, Ext(name));
    } else {
      NextIsLonger(name);
      hide NextName, Version;
    }
  }

  lemma NextOfNumberedRanksHigher(base: string, n: nat, ext: string)
    requires n <= MAX_INT && GoodExt(base, ext)
    ensures
      var name := base + Suffix(Decimal(n)) + ext;
      RankLess(name, NextName(name))
  {
    NextOfNumbered(base, n, ext);
    NumberedName(base, n, ext);
    DecimalGrows(n, n + 1);
    if n < MAX_INT {
      NumberedName(base, n + 1, ext);
    }
    hide NextName, Version, Decimal;
  }

  lemma {:induction false} CandidatesRankHigher(name: string, n: nat)
    requires n > 0
    ensures RankLess(name, Candidate(name, n))
    decreases n
  {
    NextRanksHigher(name);
    hide NextName, Version;
    if n > 1 {
      CandidatesRankHigher(NextName(name), n - 1);
    }
  }

  lemma {:induction false} CandidatesCompose(name: string, m: nat, n: nat)
    ensures Candidate(name, m + n) == Candidate(Candidate(name, m), n)
    decreases m
  {
    hide NextName;
    if m > 0 {
      CandidatesCompose(NextName(name), m - 1, n);
    }
  }

  /** No name is tried twice. */
  lemma CandidatesDistinct(name: string, m: nat, n: nat)
    requires m < n
    ensures Candidate(name, m) != Candidate(name, n)
  {
    hide NextName, Version;
    CandidatesCompose(name, m, n - m);
    CandidatesRankHigher(Candidate(name, m), n - m);
  }

  function Numbered(base: string, n: nat, ext: string): string {
    base + Suffix(Decimal(n)) + ext
  }

  lemma NextCountsUp(base: string, n: nat, ext: string)
    requires n < MAX_INT && GoodExt(base, ext)
    ensures NextName(Numbered(base, n, ext)) == Numbered(base, n + 1, ext)
  {
    NextOfNumbered(base, n, ext);
    hide NextName, Suffix, Decimal;
  }

  /** base_(v).ext is followed by base_(v+1).ext, base_(v+2).ext, ... as long as ints last. */
  lemma {:induction false} CandidatesCountUp(base: string, v: nat, ext: string, n: nat)
    requires v + n <= MAX_INT && GoodExt(base, ext)
    ensures Candidate(Numbered(base, v, ext), n) == Numbered(base, v + n, ext)
    decreases n
  {
    hide NextName, Numbered, GoodExt;
    if n > 0 {
      NextCountsUp(base, v, ext);
      CandidatesCountUp(base, v + 1, ext, n - 1);
    }
  }

  lemma NextOfPlainName(name: string)
    requires VersionDigits(Stem(name)).None?
    ensures NextName(name) == Numbered(Stem(name), 1, Ext(name))
    ensures GoodExt(Stem(name), Ext(name))
  {
    PartsOfName(name);
  }

  /** A name without a version is followed by stem_(1).ext, stem_(2).ext, ... */
  lemma CandidatesOfPlainName(name: string, n: nat)
    requires VersionDigits(Stem(name)).None? && 0 < n <= MAX_INT
    ensures Candidate(name, n) == Numbered(Stem(name), n, Ext(name))
  {
    NextOfPlainName(name);
    var base, ext := Stem(name), Ext(name);
    assert Candidate(name, n) == Candidate(NextName(name), n - 1);
    hide NextName, Numbered, GoodExt, Stem, Ext, VersionDigits, Candidate;
    CandidatesCountUp(base, 1, ext, n - 1);
  }
}
