/** The other way round: what lexes and parses with a closing bracket behind it does so alone. */
module Retract {
  import opened Basics
  import opened Text
  import opened Lexer
  import opened Cond
  import opened Parser
  import opened Locality
  import opened Pool

  // ---- the lexer ----

  /** Nothing a token goes on with, nor what closes one. */
  predicate Closing(lib: Library, rest: string) {
    Stops(lib, rest) && forall i :: 0 <= i < |rest| ==> rest[i] != '/' && rest[i] != '\'' && rest[i] != '"'
  }

  lemma {:induction false} NoSlashNoPattern(s: string)
    requires forall i :: 0 <= i < |s| ==> s[i] != '/'
    ensures ScanPattern(s).None?
    decreases |s|
  {
    if s != "" { NoSlashNoPattern(s[1..]); }
  }

  lemma {:induction false} PatternBack(lib: Library, s: string, rest: string)
    requires ScanPattern(s).None? && Closing(lib, rest)
    ensures ScanPattern(s + rest).None?
    decreases |s|
  {
    var all := s + rest;
    if s == "" {
      assert all == rest;
      NoSlashNoPattern(rest);
    } else {
      var step := if s[0] == '\\' && |s| > 1 && s[1] == '/' then 2 else 1;
      assert all[0] == s[0] && (|s| > 1 ==> all[1] == s[1]) && (|s| == 1 && rest != "" ==> all[1] == rest[0]);
      assert all[step..] == s[step..] + rest;
      PatternBack(lib, s[step..], rest);
    }
  }

  lemma RegexBack(lib: Library, s: string, rest: string)
    requires s != "" && s[0] == '/' && Closing(lib, rest) && !ScanRegex(lib, s + rest).Bad?
    ensures !ScanRegex(lib, s).Bad?
  {
    var all := s + rest;
    assert all[1..] == s[1..] + rest;
    if ScanPattern(s[1..]).None? { PatternBack(lib, s[1..], rest); }
    ScanPatternLocal(s[1..], rest);
    var n := ScanPattern(s[1..]).value.1;
    assert all[n + 1..] == s[n + 1..] + rest;
    LetterRunLocal(lib, s[n + 1..], rest);
    var m := LetterRun(lib, s[n + 1..]);
    assert (s[n + 1..] + rest)[..m] == s[n + 1..][..m];
  }

  lemma QuoteBack(s: string, rest: string, c: char)
    requires IndexOf(s, c) == |s| && forall i :: 0 <= i < |rest| ==> rest[i] != c
    ensures IndexOf(s + rest, c) == |s + rest|
  {
    assert forall i :: 0 <= i < |s + rest| ==> (s + rest)[i] == if i < |s| then s[i] else rest[i - |s|];
    FirstIndex(s + rest, c, |s + rest|);
  }

  lemma ScanBack(lib: Library, s: string, rest: string)
    requires s != "" && Closing(lib, rest) && !ScanOne(lib, s + rest).Bad?
    ensures !ScanOne(lib, s).Bad?
  {
    var all, c := s + rest, s[0];
    assert all[0] == c && all[1..] == s[1..] + rest;
    if c == '!' {
      assert |s| > 1 ==> all[1] == s[1];
      assert |s| == 1 && rest != "" ==> all[1] == rest[0];
    } else if c == '\'' || c == '"' {
      if IndexOf(s[1..], c) == |s| - 1 { QuoteBack(s[1..], rest, c); }
    } else if c == '/' {
      RegexBack(lib, s, rest);
    }
  }

  /** A text that lexes in front of what closes nothing lexes alone. */
  lemma {:induction false} LexBack(lib: Library, s: string, rest: string)
    requires Closing(lib, rest) && Lex(lib, s + rest).Some?
    ensures Lex(lib, s).Some?
    decreases |s|
  {
    if s != "" {
      ScanBack(lib, s, rest);
      ScanOneLocal(lib, s, rest);
      match ScanOne(lib, s)
      case Blank =>
        assert (s + rest)[1..] == s[1..] + rest;
        LexBack(lib, s[1..], rest);
      case Take(_, n) =>
        assert (s + rest)[n..] == s[n..] + rest;
        LexBack(lib, s[n..], rest);
    }
  }

  lemma SpaceCloses(lib: Library, s: string)
    requires lib.Valid() && AllSpace(s)
    ensures Closing(lib, s)
  {
    SpaceStops(lib, s);
  }

  lemma BetweenLexesBack(lib: Library, before: string, t: string, after: string)
    requires lib.Valid() && AllSpace(before) && AllSpace(after) && Lex(lib, before + (t + after)).Some?
    ensures Lex(lib, t).Some?
  {
    LexAfterSpace(lib, before, t + after);
    SpaceCloses(lib, after);
    LexBack(lib, t, after);
  }

  lemma TrimLexesBack(lib: Library, s: string)
    requires lib.Valid() && Lex(lib, s).Some?
    ensures Lex(lib, TrimSpace(s)) == Lex(lib, s)
  {
    var before, after := TrimSplits(s);
    var t := TrimSpace(s);
    assert s == before + (t + after);
    BetweenLexesBack(lib, before, t, after);
    LexTrim(lib, s);
  }

  // ---- the parser ----

  /** q, which read no further than to more, is p with more behind it. */
  predicate Reaches<T(==)>(p: Parsed<T>, q: Parsed<T>, more: seq<Token>) { p.Ok? && q == Ok(p.value, p.rest + more) }

  /** q succeeded and read nothing of more. */
  predicate Spares<T>(q: Parsed<T>, more: seq<Token>) { q.Ok? && |q.rest| >= |more| }

  lemma NothingInFront(ts: seq<Token>, more: seq<Token>)
    ensures ts == [] ==> ts + more == more
  {}

  lemma {:induction false} OrBack(g: Grammar, ts: seq<Token>, more: seq<Token>, d: nat, e: nat)
    requires Spares(ParseOr(g, ts + more, e), more) && d <= e && Closes(more)
    ensures Reaches(ParseOr(g, ts, d), ParseOr(g, ts + more, e), more)
    decreases |ts|, 3
  {
    AndBack(g, ts, more, d, e);
    OrMoreBack(g, ParseAnd(g, ts, d).rest, more, d, e);
  }

  lemma {:induction false} OrMoreBack(g: Grammar, ts: seq<Token>, more: seq<Token>, d: nat, e: nat)
    requires Spares(ParseOrMore(g, ts + more, e), more) && d <= e && Closes(more)
    ensures Reaches(ParseOrMore(g, ts, d), ParseOrMore(g, ts + more, e), more)
    decreases |ts|, 3
  {
    if ts == [] {
      assert ts + more == more;
    } else {
      HeadTail(ts, more);
      if IsKeyword(g.lib, Head(ts), "or") {
        AndBack(g, Tail(ts), more, d, e);
        OrMoreBack(g, ParseAnd(g, Tail(ts), d).rest, more, d, e);
      }
    }
  }

  lemma {:induction false} AndBack(g: Grammar, ts: seq<Token>, more: seq<Token>, d: nat, e: nat)
    requires Spares(ParseAnd(g, ts + more, e), more) && d <= e && Closes(more)
    ensures Reaches(ParseAnd(g, ts, d), ParseAnd(g, ts + more, e), more)
    decreases |ts|, 2
  {
    UnaryBack(g, ts, more, d, e);
    AndMoreBack(g, ParseUnary(g, ts, d).rest, more, d, e);
  }

  lemma {:induction false} AndMoreBack(g: Grammar, ts: seq<Token>, more: seq<Token>, d: nat, e: nat)
    requires Spares(ParseAndMore(g, ts + more, e), more) && d <= e && Closes(more)
    ensures Reaches(ParseAndMore(g, ts, d), ParseAndMore(g, ts + more, e), more)
    decreases |ts|, 2
  {
    if ts == [] {
      assert ts + more == more;
    } else {
      HeadTail(ts, more);
      if IsKeyword(g.lib, Head(ts), "and") {
        UnaryBack(g, Tail(ts), more, d, e);
        AndMoreBack(g, ParseUnary(g, Tail(ts), d).rest, more, d, e);
      }
    }
  }

  lemma ClosedBack(p: Parsed<CondNode>, q: Parsed<CondNode>, more: seq<Token>)
    requires Reaches(p, q, more) && Spares(Closed(q), more)
    ensures Reaches(Closed(p), Closed(q), more)
  {
    NothingInFront(p.rest, more);
    HeadTail(p.rest, more);
  }

  lemma {:induction false} UnaryBack(g: Grammar, ts: seq<Token>, more: seq<Token>, d: nat, e: nat)
    requires Spares(ParseUnary(g, ts + more, e), more) && d <= e && Closes(more)
    ensures Reaches(ParseUnary(g, ts, d), ParseUnary(g, ts + more, e), more)
    decreases |ts|, 1
  {
    NothingInFront(ts, more);
    HeadTail(ts, more);
    if IsKeyword(g.lib, Head(ts), "not") {
      UnaryBack(g, Tail(ts), more, d + 1, e + 1);
    } else if Head(ts) == Token(Punct, "(") {
      OrBack(g, Tail(ts), more, d + 1, e + 1);
      ClosedBack(ParseOr(g, Tail(ts), d + 1), ParseOr(g, Tail(ts) + more, e + 1), more);
    } else {
      PredicateBack(g, ts, more);
    }
  }

  lemma PredicateBack(g: Grammar, ts: seq<Token>, more: seq<Token>)
    requires ts != [] && Spares(ParsePredicate(g, ts + more), more)
    ensures Reaches(ParsePredicate(g, ts), ParsePredicate(g, ts + more), more)
  {
    HeadTail(ts, more);
    var field, rest := g.lib.ToLower(Head(ts).text), Tail(ts);
    if field == "tag" || field == "passes" || field == "fails" {
      CallBack(rest, more);
    } else if g.scope.diags.Some? && Head(ts).text in g.scope.diags.value {
      NothingInFront(rest, more);
      HeadTail(rest, more);
    } else if FieldOf(field).value.kind != BoolField {
      ComparisonBack(g, field, FieldOf(field).value.kind, rest, more);
    }
  }

  lemma CallBack(ts: seq<Token>, more: seq<Token>)
    requires Spares(ParseCall(ts + more), more)
    ensures Reaches(ParseCall(ts), ParseCall(ts + more), more)
  {
    if more == [] {
      assert ts + more == ts;
    } else {
      assert |ts| >= 3;
      HeadTail(ts, more);
      HeadTail(Tail(ts), more);
      HeadTail(Tail(Tail(ts)), more);
    }
  }

  lemma ComparisonBack(g: Grammar, field: string, kind: FieldKind, ts: seq<Token>, more: seq<Token>)
    requires Spares(ParseComparison(g, field, kind, ts + more), more)
    ensures Reaches(ParseComparison(g, field, kind, ts), ParseComparison(g, field, kind, ts + more), more)
  {
    if more == [] {
      assert ts + more == ts;
    } else {
      assert |ts| >= 2;
      HeadTail(ts, more);
      HeadTail(Tail(ts), more);
      if kind != NumberField && g.lib.ToLower(Head(ts).text) == "in" { ListBack(Tail(Tail(ts)), more); }
    }
  }

  lemma {:induction false} ListBack(ts: seq<Token>, more: seq<Token>)
    requires Spares(ParseList(ts + more), more) && more != []
    ensures Reaches(ParseList(ts), ParseList(ts + more), more)
    decreases |ts|
  {
    assert |ts| >= 2;
    var after := Tail(ts);
    HeadTail(ts, more);
    HeadTail(after, more);
    if Head(after) != Token(Punct, "]") { ListBack(Tail(after), more); }
  }

  // ---- joined, and read as a pair ----

  function Inside(tb: seq<Token>): seq<Token> { [OPEN] + (tb + [CLOSE]) }

  /** If what is in brackets, to the end, is one operand, it parses alone. */
  lemma GroupBack(g: Grammar, tb: seq<Token>, n: CondNode)
    requires ParseUnary(g, Inside(tb), 0) == Ok(n, [])
    ensures ParseOr(g, tb, 0) == Ok(n, []) && ParseOr(g, tb, 1) == Ok(n, [])
  {
    var ts := Inside(tb);
    assert Head(ts) == OPEN && Tail(ts) == tb + [CLOSE];
    var inner := ParseOr(g, tb + [CLOSE], 1);
    assert inner.Ok? && inner.value == n && Tail(inner.rest) == [] && inner.rest != [];
    OrBack(g, tb, [CLOSE], 0, 1);
    OrBack(g, tb, [CLOSE], 1, 1);
    assert ParseOr(g, tb, 0).rest == [] && ParseOr(g, tb, 1).rest == [];
  }

  /** The operands of an and that is two operands to the end. */
  lemma PairBack(g: Grammar, ts: seq<Token>, a: CondNode, second: seq<Token>, b: CondNode)
    requires g.lib.Valid() && ParseUnary(g, ts, 0) == Ok(a, [Token(Word, "and")] + second)
    requires ParseOr(g, ts, 0) == Ok(AndNode([a, b]), [])
    ensures ParseUnary(g, second, 0) == Ok(b, [])
  {
    var tail := [Token(Word, "and")] + second;
    KeywordAhead(g, "and", second);
    assert ParseAndMore(g, tail, 0).Ok? && ParseUnary(g, second, 0).Ok?;
    var x, rest := ParseUnary(g, second, 0).value, ParseUnary(g, second, 0).rest;
    var more := ParseAndMore(g, rest, 0);
    assert ParseAnd(g, ts, 0) == Ok(AndNode([a] + ([x] + more.value)), more.rest);
    var alternatives := ParseOrMore(g, more.rest, 0);
    assert alternatives.value == [];
    assert ([a] + ([x] + more.value))[1] == x && |[a] + ([x] + more.value)| == 2 + |more.value|;
  }

  lemma {:induction false} Utf8Joins(s: string, t: string)
    ensures Utf8Len(s + t) == Utf8Len(s) + Utf8Len(t)
    decreases |s|
  {
    if s == "" {
      assert s + t == t;
    } else {
      assert (s + t)[0] == s[0] && (s + t)[1..] == s[1..] + t;
      Utf8Joins(s[1..], t);
    }
  }

  /** The second part of a joined text, and the blanks around it, take no more room than the whole. */
  lemma PartIsShorter(a: string, b: string, op: string)
    ensures Utf8Len(TrimSpace(b)) <= Utf8Len(Joined(a, b, op))
  {
    var before, after := TrimSplits(b);
    var front := "(" + (a + (")" + (" " + (op + (" " + ("(" + before))))));
    var back := after + ")";
    assert Joined(a, b, op) == front + (TrimSpace(b) + back);
    Utf8Joins(front, TrimSpace(b) + back);
    Utf8Joins(TrimSpace(b), back);
  }

  /** If the joined text lexes and its first part does alone, so does its second. */
  lemma JoinedLexesBack(lib: Library, a: string, b: string)
    requires lib.Valid() && Lex(lib, a).Some? && Lex(lib, Joined(a, b, "and")).Some?
    ensures Lex(lib, b).Some?
  {
    var second := b + ")";
    var tail := " " + ("and" + (" " + (['('] + second)));
    var text := Joined(a, b, "and");
    assert text == ['('] + (a + ([')'] + tail));
    LexPunct(lib, '(', a + ([')'] + tail));
    LexLocal(lib, a, [')'] + tail);
    LexPunct(lib, ')', tail);
    LexAfterSpace(lib, " ", "and" + (" " + (['('] + second)));
    LexWord(lib, "and");
    LexLocal(lib, "and", " " + (['('] + second));
    LexAfterSpace(lib, " ", ['('] + second);
    LexPunct(lib, '(', second);
    LexBack(lib, b, ")");
  }

  /** The part parses on its own, and still does one level deeper. */
  predicate FitsDeeper(g: Grammar, text: string) { Lex(g.lib, text).Some? && ParseOr(g, Lex(g.lib, text).value, 1).Ok? }

  lemma TokensReadBack(g: Grammar, ta: seq<Token>, na: CondNode, tb: seq<Token>, nb: CondNode)
    requires g.lib.Valid() && ParseOr(g, ta, 0) == Ok(na, [])
    requires ParseOr(g, JoinedTokens(ta, tb, "and"), 0) == Ok(AndNode([na, nb]), [])
    ensures ParseOr(g, ta, 1).Ok? && ParseOr(g, tb, 1).Ok? && ParseOr(g, tb, 0) == Ok(nb, [])
  {
    var tail := [Token(Word, "and")] + Inside(tb);
    assert JoinedTokens(ta, tb, "and") == [OPEN] + (ta + ([CLOSE] + tail));
    GroupParsesIff(g, ta, na, tail, 0);
    PairBack(g, JoinedTokens(ta, tb, "and"), na, Inside(tb), nb);
    GroupBack(g, tb, nb);
  }

  lemma PairReadsBack(g: Grammar, a: string, na: CondNode, b: string, nb: CondNode)
    requires g.lib.Valid() && ParseCond(g, a) == Some(Some(na))
    requires ParseCond(g, Joined(a, b, "and")) == Some(Some(AndNode([na, nb])))
    ensures ParseCond(g, b) == Some(Some(nb)) && FitsDeeper(g, a) && FitsDeeper(g, b)
  {
    JoinedTrims(a, b, "and");
    TokensAlone(g, a, na);
    JoinedLexesBack(g.lib, a, b);
    var ta, tb := Lex(g.lib, a).value, Lex(g.lib, b).value;
    JoinedLexes(g.lib, a, ta, b, tb, "and");
    TokensReadBack(g, ta, na, tb, nb);
    ParsesByTokens(g, a, b, tb, nb);
  }

  lemma ParsesByTokens(g: Grammar, a: string, b: string, tb: seq<Token>, nb: CondNode)
    requires g.lib.Valid() && Lex(g.lib, b) == Some(tb) && ParseOr(g, tb, 0) == Ok(nb, [])
    requires Utf8Len(Joined(a, b, "and")) <= MAX_CONDITION_LENGTH
    ensures ParseCond(g, b) == Some(Some(nb))
  {
    TrimLexesBack(g.lib, b);
    PartIsShorter(a, b, "and");
  }

  /** An include layered over one that parses alone is read as the two and nothing
      else if and only if it parses alone itself, both parse one level deeper, and
      the joined text is not too long. */
  lemma ReadAsPairIff(g: Grammar, a: string, na: CondNode, b: string, nb: CondNode)
    requires g.lib.Valid() && ParseCond(g, a) == Some(Some(na))
    ensures ParseCond(g, Joined(a, b, "and")) == Some(Some(AndNode([na, nb]))) <==>
      ParseCond(g, b) == Some(Some(nb)) && FitsDeeper(g, a) && FitsDeeper(g, b)
      && Utf8Len(Joined(a, b, "and")) <= MAX_CONDITION_LENGTH
  {
    var text := Joined(a, b, "and");
    JoinedTrims(a, b, "and");
    if ParseCond(g, text) == Some(Some(AndNode([na, nb]))) {
      PairReadsBack(g, a, na, b, nb);
    } else if ParseCond(g, b) == Some(Some(nb)) {
      JoinedParsesIff(g, a, na, b, nb, "and");
      if ParseCond(g, text).Some? { JoinedIs(g, a, na, b, nb); }
    }
  }

  lemma JoinedIs(g: Grammar, a: string, na: CondNode, b: string, nb: CondNode)
    requires g.lib.Valid() && ParseCond(g, a) == Some(Some(na)) && ParseCond(g, b) == Some(Some(nb))
    requires ParseCond(g, Joined(a, b, "and")).Some?
    ensures ParseCond(g, Joined(a, b, "and")) == Some(Some(AndNode([na, nb])))
  {
    AloneReads(g, a, na);
    AloneReads(g, b, nb);
    JoinedReads(g, a, na, b, nb, "and");
    JoinedTrims(a, b, "and");
    ReadsWins(g, Joined(a, b, "and"), JoinNode("and", na, nb), ParseCond(g, Joined(a, b, "and")).value.value);
  }
}
