/** lexCond: condition text to tokens. */
module Lexer {
  import opened Basics
  import opened Text

  datatype Kind = Word | Str | Regex | Op | Punct
  datatype Token = Token(kind: Kind, text: string)

  /** One step at the head of the text: an error, white space, or a token and
      how many runes it takes. */
  datatype Scan = Bad | Blank | Take(token: Token, len: nat)

  function WordRun(lib: Library, s: string): (n: nat)
    ensures n <= |s|
  {
    if s != "" && lib.Word(s[0]) then 1 + WordRun(lib, s[1..]) else 0
  }

  function LetterRun(lib: Library, s: string): (n: nat)
    ensures n <= |s|
  {
    if s != "" && lib.letter(s[0]) then 1 + LetterRun(lib, s[1..]) else 0
  }

  function IndexOf(s: string, c: char): (n: nat)
    ensures n <= |s|
    ensures n < |s| ==> s[n] == c
    ensures forall i :: 0 <= i < n ==> s[i] != c
  {
    if s == "" || s[0] == c then 0 else 1 + IndexOf(s[1..], c)
  }

  /** The text after an opening slash: the pattern with each escaped slash made
      plain, and the runes taken up to and including the closing slash. */
  function ScanPattern(s: string): (r: Option<(string, nat)>)
    ensures r.Some? ==> 1 <= r.value.1 <= |s|
  {
    if s == "" then None
    else if s[0] == '/' then Some(("", 1))
    else
      var step := if s[0] == '\\' && |s| > 1 && s[1] == '/' then 2 else 1;
      After([s[step - 1]], step, ScanPattern(s[step..]))
  }

  function ScanRegex(lib: Library, s: string): (r: Scan)
    requires s != "" && s[0] == '/'
    ensures r.Take? ==> 1 <= r.len <= |s|
  {
    match ScanPattern(s[1..])
    case None => Bad
    case Some((pattern, n)) =>
      var flags := s[n + 1..][..LetterRun(lib, s[n + 1..])];
      if flags == "" then Take(Token(Regex, pattern), n + 1)
      else if flags == "i" then Take(Token(Regex, "(?i)" + pattern), n + 2)
      else Bad
  }

  function ScanOne(lib: Library, s: string): (r: Scan)
    requires s != ""
    ensures r.Take? ==> 1 <= r.len <= |s|
  {
    var c := s[0];
    if IsSpace(c) then Blank
    else if c == '(' || c == ')' || c == '[' || c == ']' || c == ',' then Take(Token(Punct, [c]), 1)
    else if c == '=' || c == '~' then Take(Token(Op, [c]), 1)
    else if c == '!' || c == '<' || c == '>' then
      if |s| > 1 && s[1] == '=' then Take(Token(Op, [c, '=']), 2)
      else if c == '!' then Bad
      else Take(Token(Op, [c]), 1)
    else if c == '\'' || c == '"' then
      var end := IndexOf(s[1..], c);
      if end == |s| - 1 then Bad else Take(Token(Str, s[1..end + 1]), end + 2)
    else if c == '/' then ScanRegex(lib, s)
    else if lib.Word(c) then Take(Token(Word, s[..WordRun(lib, s)]), WordRun(lib, s))
    else Bad
  }

  function Prepend(tokens: seq<Token>, rest: Option<seq<Token>>): Option<seq<Token>> {
    if rest.None? then None else Some(tokens + rest.value)
  }

  function Lex(lib: Library, s: string): Option<seq<Token>>
    decreases |s|
  {
    if s == "" then Some([])
    else match ScanOne(lib, s)
      case Bad => None
      case Blank => Lex(lib, s[1..])
      case Take(token, n) => Prepend([token], Lex(lib, s[n..]))
  }

  lemma PrependAssoc(a: seq<Token>, b: seq<Token>, rest: Option<seq<Token>>)
    ensures Prepend(a, Prepend(b, rest)) == Prepend(a + b, rest)
  {
    if rest.Some? {
      assert a + (b + rest.value) == (a + b) + rest.value;
    }
  }

  /** The loop of lexCond computes Lex. */
  method LexCond(lib: Library, text: string) returns (ok: bool, tokens: seq<Token>)
    ensures ok == Lex(lib, text).Some?
    ensures ok ==> tokens == Lex(lib, text).value
  {
    tokens := [];
    var i := 0;
    ghost var rest := text;
    LexStart(Lex(lib, text));
    while i < |text|
      invariant 0 <= i <= |text| && rest == text[i..]
      invariant Lex(lib, text) == Prepend(tokens, Lex(lib, rest))
    {
      var scan := LexOne(lib, text, i);
      match scan
      case Bad => return false, [];
      case Blank =>
        LexBlank(lib, rest);
        rest, i := rest[1..], i + 1;
      case Take(token, n) =>
        LexTake(lib, rest, tokens, token, n);
        rest, tokens, i := rest[n..], tokens + [token], i + n;
    }
    LexDone(lib, tokens);
    return true, tokens;
  }

  lemma LexStart(r: Option<seq<Token>>)
    ensures r == Prepend([], r)
  {
    assert r.Some? ==> [] + r.value == r.value;
  }

  lemma LexDone(lib: Library, tokens: seq<Token>)
    ensures Prepend(tokens, Lex(lib, "")) == Some(tokens)
  {
    assert tokens + [] == tokens;
  }

  lemma LexBlank(lib: Library, rest: string)
    requires rest != "" && ScanOne(lib, rest).Blank?
    ensures Lex(lib, rest) == Lex(lib, rest[1..])
  {}

  lemma LexTake(lib: Library, rest: string, tokens: seq<Token>, token: Token, n: nat)
    requires rest != "" && ScanOne(lib, rest) == Take(token, n)
    ensures n <= |rest| && Prepend(tokens, Lex(lib, rest)) == Prepend(tokens + [token], Lex(lib, rest[n..]))
  {
    PrependAssoc(tokens, [token], Lex(lib, rest[n..]));
  }

  /** One turn of the loop's switch. */
  method LexOne(lib: Library, text: string, i: nat) returns (scan: Scan)
    requires i < |text|
    ensures scan == ScanOne(lib, text[i..])
  {
    ghost var rest := text[i..];
    var c := text[i];
    if IsSpace(c) {
      return Blank;
    } else if c == '(' || c == ')' || c == '[' || c == ']' || c == ',' {
      return Take(Token(Punct, [c]), 1);
    } else if c == '=' || c == '~' {
      return Take(Token(Op, [c]), 1);
    } else if c == '!' || c == '<' || c == '>' {
      var op := [c];
      if i + 1 < |text| && text[i + 1] == '=' {
        op := op + "=";
        assert op == [c, '='] && rest[1] == '=';
      }
      if op == "!" {
        return Bad;
      }
      return Take(Token(Op, op), |op|);
    } else if c == '\'' || c == '"' {
      var end := QuoteEnd(text, i);
      if end == |text| {
        return Bad;
      }
      assert rest[1..end - i] == text[i + 1..end];
      return Take(Token(Str, text[i + 1..end]), end + 1 - i);
    } else if c == '/' {
      scan := LexPattern(lib, text, i);
      return;
    } else if lib.Word(c) {
      var end := WordEnd(lib, text, i);
      assert rest[..end - i] == text[i..end];
      return Take(Token(Word, text[i..end]), end - i);
    }
    return Bad;
  }

  method QuoteEnd(text: string, start: nat) returns (end: nat)
    requires start < |text|
    ensures end == start + 1 + IndexOf(text[start + 1..], text[start])
  {
    end := start + 1;
    while end < |text| && text[end] != text[start]
      invariant start + 1 <= end <= |text|
      invariant forall k :: start + 1 <= k < end ==> text[k] != text[start]
    {
      end := end + 1;
    }
    FirstIndex(text[start + 1..], text[start], end - start - 1);
  }

  method WordEnd(lib: Library, text: string, start: nat) returns (end: nat)
    requires start < |text|
    ensures end == start + WordRun(lib, text[start..])
  {
    end := start;
    while end < |text| && lib.Word(text[end])
      invariant start <= end <= |text|
      invariant WordRun(lib, text[start..]) == end - start + WordRun(lib, text[end..])
    {
      assert text[end..][1..] == text[end + 1..];
      end := end + 1;
    }
  }

  lemma FirstIndex(s: string, c: char, n: nat)
    requires n <= |s| && (n < |s| ==> s[n] == c) && forall i :: 0 <= i < n ==> s[i] != c
    ensures IndexOf(s, c) == n
  {}

  function After(head: string, taken: nat, rest: Option<(string, nat)>): Option<(string, nat)> {
    if rest.None? then None else Some((head + rest.value.0, taken + rest.value.1))
  }

  lemma AfterStep(head: string, taken: nat, s: string, step: nat)
    requires s != "" && s[0] != '/' && step == if s[0] == '\\' && |s| > 1 && s[1] == '/' then 2 else 1
    ensures After(head, taken, ScanPattern(s)) == After(head + [s[step - 1]], taken + step, ScanPattern(s[step..]))
  {
    AfterTwice(head, [s[step - 1]], taken, step, ScanPattern(s[step..]));
    assert ScanPattern(s) == After([s[step - 1]], step, ScanPattern(s[step..]));
  }

  lemma AfterTwice(a: string, b: string, m: nat, n: nat, rest: Option<(string, nat)>)
    ensures After(a, m, After(b, n, rest)) == After(a + b, m + n, rest)
  {
    if rest.Some? {
      assert a + (b + rest.value.0) == (a + b) + rest.value.0;
    }
  }

  method LexPattern(lib: Library, text: string, start: nat) returns (scan: Scan)
    requires start < |text| && text[start] == '/'
    ensures scan == ScanRegex(lib, text[start..])
  {
    ghost var rest := text[start..];
    assert rest[1..] == text[start + 1..];
    var pattern, end := PatternEnd(text, start);
    if end > |text| {
      return Bad;
    }
    assert rest[end - start..] == text[end..];
    var stop := end;
    while end < |text| && lib.letter(text[end])
      invariant stop <= end <= |text|
      invariant LetterRun(lib, text[stop..]) == end - stop + LetterRun(lib, text[end..])
    {
      assert text[end..][1..] == text[end + 1..];
      end := end + 1;
    }
    var flags := text[stop..end];
    assert text[stop..][..end - stop] == flags;
    if flags != "" && flags != "i" {
      return Bad;
    }
    return Take(Token(Regex, if flags == "i" then "(?i)" + pattern else pattern), end - start);
  }

  /** The pattern and the position past its closing slash; past the end of the
      text when there is none. */
  method PatternEnd(text: string, start: nat) returns (pattern: string, end: nat)
    requires start < |text|
    ensures end > |text| ==> ScanPattern(text[start + 1..]) == None
    ensures end <= |text| ==> ScanPattern(text[start + 1..]) == Some((pattern, end - start - 1))
  {
    pattern, end := "", start + 1;
    ghost var rest := text[start + 1..];
    ghost var want := ScanPattern(rest);
    AfterNone(want);
    while end < |text| && text[end] != '/'
      invariant start + 1 <= end <= |text| && rest == text[end..]
      invariant want == After(pattern, end - start - 1, ScanPattern(rest))
    {
      var step := if text[end] == '\\' && end + 1 < |text| && text[end + 1] == '/' then 2 else 1;
      AfterStep(pattern, end - start - 1, rest, step);
      assert rest[step - 1] == text[end + step - 1];
      pattern := pattern + [text[end + step - 1]];
      end := end + step;
      rest := rest[step..];
    }
    PatternStops(pattern, end - start - 1, rest);
    end := end + 1;
  }

  lemma AfterNone(r: Option<(string, nat)>)
    ensures After("", 0, r) == r
  {
    if r.Some? {
      assert "" + r.value.0 == r.value.0;
    }
  }

  lemma PatternStops(pattern: string, taken: nat, rest: string)
    requires rest == "" || rest[0] == '/'
    ensures After(pattern, taken, ScanPattern(rest)) == if rest == "" then None else Some((pattern, taken + 1))
  {
    assert pattern + "" == pattern;
  }

  // ---- compositionality ----

  /** Nothing a token may go on with. */
  predicate Stops(lib: Library, rest: string) {
    rest == "" || (!lib.Word(rest[0]) && rest[0] != '=')
  }

  lemma WordRunLocal(lib: Library, s: string, rest: string)
    requires Stops(lib, rest)
    ensures WordRun(lib, s + rest) == WordRun(lib, s)
  {
    if s != "" {
      assert (s + rest)[1..] == s[1..] + rest;
    } else {
      assert s + rest == rest;
    }
  }

  lemma LetterRunLocal(lib: Library, s: string, rest: string)
    requires Stops(lib, rest)
    ensures LetterRun(lib, s + rest) == LetterRun(lib, s)
  {
    if s != "" {
      assert (s + rest)[1..] == s[1..] + rest;
    } else {
      assert s + rest == rest;
    }
  }

  lemma ScanPatternLocal(s: string, rest: string)
    requires ScanPattern(s).Some?
    ensures ScanPattern(s + rest) == ScanPattern(s)
  {
    if s[0] != '/' {
      var step := if s[0] == '\\' && |s| > 1 && s[1] == '/' then 2 else 1;
      assert (s + rest)[step..] == s[step..] + rest;
      ScanPatternLocal(s[step..], rest);
    }
  }

  lemma QuoteLocal(s: string, rest: string, c: char)
    requires s != "" && IndexOf(s[1..], c) < |s| - 1
    ensures IndexOf((s + rest)[1..], c) == IndexOf(s[1..], c)
    ensures (s + rest)[1..IndexOf(s[1..], c) + 1] == s[1..IndexOf(s[1..], c) + 1]
  {
    assert (s + rest)[1..] == s[1..] + rest;
    FirstIndex((s + rest)[1..], c, IndexOf(s[1..], c));
  }

  lemma ScanRegexLocal(lib: Library, s: string, rest: string)
    requires s != "" && s[0] == '/' && Stops(lib, rest) && !ScanRegex(lib, s).Bad?
    ensures ScanRegex(lib, s + rest) == ScanRegex(lib, s)
  {
    assert (s + rest)[1..] == s[1..] + rest;
    ScanPatternLocal(s[1..], rest);
    var n := ScanPattern(s[1..]).value.1;
    assert (s + rest)[n + 1..] == s[n + 1..] + rest;
    LetterRunLocal(lib, s[n + 1..], rest);
    var m := LetterRun(lib, s[n + 1..]);
    assert (s[n + 1..] + rest)[..m] == s[n + 1..][..m];
  }

  lemma ScanOneLocal(lib: Library, s: string, rest: string)
    requires s != "" && Stops(lib, rest) && !ScanOne(lib, s).Bad?
    ensures ScanOne(lib, s + rest) == ScanOne(lib, s)
  {
    var c := s[0];
    assert (s + rest)[0] == c;
    if IsSpace(c) || c in "()[],=~" {
    } else if c == '!' || c == '<' || c == '>' {
      assert |s| > 1 ==> (s + rest)[1] == s[1];
      assert |s| == 1 && rest != "" ==> (s + rest)[1] == rest[0];
    } else if c == '\'' || c == '"' {
      QuoteLocal(s, rest, c);
    } else if c == '/' {
      ScanRegexLocal(lib, s, rest);
    } else {
      WordRunLocal(lib, s, rest);
      var n := WordRun(lib, s);
      assert (s + rest)[..n] == s[..n];
    }
  }

  /** Lexing is compositional at a rune no token may go on with: what the first
      part lexes to alone stays, whatever follows. */
  lemma {:induction false} LexLocal(lib: Library, s: string, rest: string)
    requires Lex(lib, s).Some? && Stops(lib, rest)
    ensures Lex(lib, s + rest) == Prepend(Lex(lib, s).value, Lex(lib, rest))
    decreases |s|
  {
    if s == "" {
      assert s + rest == rest;
      assert forall ts: seq<Token> :: [] + ts == ts;
    } else {
      ScanOneLocal(lib, s, rest);
      match ScanOne(lib, s)
      case Blank =>
        assert (s + rest)[1..] == s[1..] + rest;
        LexLocal(lib, s[1..], rest);
      case Take(token, n) =>
        assert (s + rest)[n..] == s[n..] + rest;
        LexLocal(lib, s[n..], rest);
        var tail := Lex(lib, s[n..]).value;
        if Lex(lib, rest).Some? {
          assert [token] + (tail + Lex(lib, rest).value) == ([token] + tail) + Lex(lib, rest).value;
        }
    }
  }

  lemma LexSpace(lib: Library, s: string)
    requires AllSpace(s)
    ensures Lex(lib, s) == Some([])
  {}

  lemma {:induction false} LexAfterSpace(lib: Library, s: string, rest: string)
    requires AllSpace(s)
    ensures Lex(lib, s + rest) == Lex(lib, rest)
    decreases |s|
  {
    if s == "" {
      assert s + rest == rest;
    } else {
      assert (s + rest)[1..] == s[1..] + rest;
      LexAfterSpace(lib, s[1..], rest);
    }
  }

  lemma SpaceStops(lib: Library, s: string)
    requires lib.Valid() && AllSpace(s)
    ensures Stops(lib, s)
  {}

  lemma {:induction false} LexBetween(lib: Library, before: string, t: string, after: string)
    requires lib.Valid() && AllSpace(before) && AllSpace(after) && Lex(lib, t).Some?
    ensures Lex(lib, before + (t + after)) == Lex(lib, t)
  {
    SpaceStops(lib, after);
    LexLocal(lib, t, after);
    LexSpace(lib, after);
    assert Lex(lib, t).value + [] == Lex(lib, t).value;
    LexAfterSpace(lib, before, t + after);
  }

  /** Blank text around a condition changes no token. */
  lemma LexTrim(lib: Library, s: string)
    requires lib.Valid() && Lex(lib, TrimSpace(s)).Some?
    ensures Lex(lib, s) == Lex(lib, TrimSpace(s))
  {
    var before, after := TrimSplits(s);
    var t := TrimSpace(s);
    LexBetween(lib, before, t, after);
    assert s == before + (t + after);
  }
}
