/** What conditions ask of text: library tables as parameters, and the string operations that are exact. */
module Text {
  import opened Basics

  /** The White_Space property of Unicode, which unicode.IsSpace reports. */
  predicate IsSpace(c: char) {
    '\t' <= c <= '\r' || c == ' ' || c == '\U{85}' || c == '\U{A0}' || c == '\U{1680}'
    || '\U{2000}' <= c <= '\U{200A}' || c == '\U{2028}' || c == '\U{2029}' || c == '\U{202F}'
    || c == '\U{205F}' || c == '\U{3000}'
  }

  predicate IsAsciiLower(c: char) { 'a' <= c <= 'z' }

  predicate IsAsciiDigit(c: char) { '0' <= c <= '9' }

  /** The characters the condition grammar gives a meaning of their own. */
  predicate IsSyntax(c: char) {
    c == '(' || c == ')' || c == '[' || c == ']' || c == ',' || c == '=' || c == '~' || c == '!'
    || c == '<' || c == '>' || c == '\'' || c == '"' || c == '/' || c == '\\'
  }

  /** The library: letter and digit are unicode.IsLetter and IsDigit, fold maps
      a rune to the representative of its simple-folding orbit, lower is
      unicode.ToLower, compiles and matches are the regexp engine. */
  datatype Library = Library(
    letter: char -> bool,
    digit: char -> bool,
    fold: char -> char,
    lower: char -> char,
    compiles: string -> bool,
    matches: (string, string) -> bool)
  {
    ghost predicate Valid() {
      && (forall c: char :: IsAsciiLower(c) ==> letter(c))
      && (forall c: char :: IsAsciiDigit(c) ==> digit(c))
      && (forall c: char :: IsAsciiLower(c) || c == '.' ==> fold(c) == c && lower(c) == c)
      && (forall c: char :: IsSyntax(c) ==> lower(c) == c)
      && (forall c: char :: letter(c) || digit(c) ==> !IsSpace(c) && !IsSyntax(c))
    }

    predicate Word(c: char) {
      letter(c) || digit(c) || c == '_' || c == '-' || c == '.' || c == ':'
    }

    predicate AllWord(s: string) { forall i :: 0 <= i < |s| ==> Word(s[i]) }

    /** strings.EqualFold on valid text. */
    predicate EqualFold(a: string, b: string) {
      |a| == |b| && forall i :: 0 <= i < |a| ==> fold(a[i]) == fold(b[i])
    }

    function ToLower(s: string): string { seq(|s|, i requires 0 <= i < |s| => lower(s[i])) }
  }

  /** Bytes of the UTF-8 encoding. */
  function Utf8Len(s: string): nat {
    if s == "" then 0
    else (if s[0] < '\U{80}' then 1 else if s[0] < '\U{800}' then 2 else if s[0] < '\U{10000}' then 3 else 4)
         + Utf8Len(s[1..])
  }

  function TrimLeft(s: string): string {
    if s != "" && IsSpace(s[0]) then TrimLeft(s[1..]) else s
  }

  function TrimRight(s: string): string {
    if s != "" && IsSpace(s[|s| - 1]) then TrimRight(s[..|s| - 1]) else s
  }

  function TrimSpace(s: string): string { TrimRight(TrimLeft(s)) }

  ghost predicate AllSpace(s: string) { forall i :: 0 <= i < |s| ==> IsSpace(s[i]) }

  /** Trimming takes blank text off both ends and nothing else. */
  lemma TrimSplits(s: string) returns (before: string, after: string)
    ensures s == before + TrimSpace(s) + after && AllSpace(before) && AllSpace(after)
  {
    before := TrimLeftSplits(s);
    after := TrimRightSplits(TrimLeft(s));
    assert s == before + TrimSpace(s) + after;
  }

  lemma TrimLeftSplits(s: string) returns (before: string)
    ensures s == before + TrimLeft(s) && AllSpace(before)
  {
    if s != "" && IsSpace(s[0]) {
      var rest := TrimLeftSplits(s[1..]);
      before := [s[0]] + rest;
      assert s == [s[0]] + s[1..];
    } else {
      before := "";
    }
  }

  lemma TrimRightSplits(s: string) returns (after: string)
    ensures s == TrimRight(s) + after && AllSpace(after)
  {
    if s != "" && IsSpace(s[|s| - 1]) {
      var rest := TrimRightSplits(s[..|s| - 1]);
      after := rest + [s[|s| - 1]];
      assert s == s[..|s| - 1] + [s[|s| - 1]];
    } else {
      after := "";
    }
  }

  const MAX_INT: int := 0x7FFF_FFFF_FFFF_FFFF
  const MIN_INT: int := -0x8000_0000_0000_0000

  function Digits(s: string): Option<nat>
    decreases |s|
  {
    if s == "" then Some(0)
    else if !IsAsciiDigit(s[|s| - 1]) then None
    else match Digits(s[..|s| - 1])
      case None => None
      case Some(n) => Some(n * 10 + (s[|s| - 1] - '0') as int)
  }

  /** strconv.Atoi where int has 64 bits. */
  function Atoi(s: string): Option<int> {
    var signed := s != "" && (s[0] == '-' || s[0] == '+');
    var digits := if signed then s[1..] else s;
    if digits == "" then None
    else match Digits(digits)
      case None => None
      case Some(n) =>
        var value := (if signed && s[0] == '-' then -1 else 1) * n;
        if MIN_INT <= value <= MAX_INT then Some(value) else None
  }

  function DigitsOf(n: nat): (s: string)
    ensures s != "" && forall i :: 0 <= i < |s| ==> IsAsciiDigit(s[i])
  {
    var last := '0' + (n % 10) as char;
    if n < 10 then [last] else DigitsOf(n / 10) + [last]
  }

  /** strconv.Itoa. */
  function Itoa(n: int): string {
    if n < 0 then "-" + DigitsOf(-n) else DigitsOf(n)
  }

  lemma DigitsRoundTrip(n: nat)
    ensures Digits(DigitsOf(n)) == Some(n)
  {
    var s := DigitsOf(n);
    if n >= 10 {
      DigitsRoundTrip(n / 10);
      assert s[..|s| - 1] == DigitsOf(n / 10);
    } else {
      assert s[..|s| - 1] == "";
    }
  }

  /** Reading back a printed number gives the number. */
  lemma AtoiItoa(n: int)
    requires MIN_INT <= n <= MAX_INT
    ensures Atoi(Itoa(n)) == Some(n)
  {
    if n < 0 {
      DigitsRoundTrip(-n);
      assert Itoa(n)[1..] == DigitsOf(-n);
    } else {
      DigitsRoundTrip(n);
    }
  }

  /** strings.TrimSuffix(s, "ms"). */
  function TrimMs(s: string): string {
    if |s| >= 2 && s[|s| - 2..] == "ms" then s[..|s| - 2] else s
  }

  predicate StartsWith(s: string, prefix: string) {
    |s| >= |prefix| && s[..|prefix|] == prefix
  }
}
