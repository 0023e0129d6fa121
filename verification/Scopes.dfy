/** What a scope changes: a wider one parses alike what a narrower one parses, and only known tags are read. */
module Scopes {
  import opened Basics
  import opened Text
  import opened Lexer
  import opened Cond
  import opened Parser

  /** The same library, and every tag and check the other knows. */
  ghost predicate Wider(g: Grammar, h: Grammar) {
    && g.lib == h.lib && g.scope.diags.None? && h.scope.diags.None?
    && g.scope.tags.Some? && h.scope.tags.Some? && g.scope.tags.value <= h.scope.tags.value && g.scope.checks <= h.scope.checks
  }

  predicate SameIfOk<T(==)>(p: Parsed<T>, q: Parsed<T>) { p.Ok? ==> q == p }

  lemma PredicateGrows(g: Grammar, h: Grammar, ts: seq<Token>)
    requires Wider(g, h)
    ensures SameIfOk(ParsePredicate(g, ts), ParsePredicate(h, ts))
  {}

  lemma {:induction false} OrGrows(g: Grammar, h: Grammar, ts: seq<Token>, depth: nat)
    requires Wider(g, h)
    ensures SameIfOk(ParseOr(g, ts, depth), ParseOr(h, ts, depth))
    decreases |ts|, 3
  {
    if depth <= MAX_CONDITION_DEPTH && ParseAnd(g, ts, depth).Ok? {
      AndGrows(g, h, ts, depth);
      OrMoreGrows(g, h, ParseAnd(g, ts, depth).rest, depth);
    }
  }

  lemma {:induction false} OrMoreGrows(g: Grammar, h: Grammar, ts: seq<Token>, depth: nat)
    requires Wider(g, h)
    ensures SameIfOk(ParseOrMore(g, ts, depth), ParseOrMore(h, ts, depth))
    decreases |ts|, 3
  {
    if IsKeyword(g.lib, Head(ts), "or") && ParseAnd(g, Tail(ts), depth).Ok? {
      AndGrows(g, h, Tail(ts), depth);
      OrMoreGrows(g, h, ParseAnd(g, Tail(ts), depth).rest, depth);
    }
  }

  lemma {:induction false} AndGrows(g: Grammar, h: Grammar, ts: seq<Token>, depth: nat)
    requires Wider(g, h)
    ensures SameIfOk(ParseAnd(g, ts, depth), ParseAnd(h, ts, depth))
    decreases |ts|, 2
  {
    UnaryGrows(g, h, ts, depth);
    if ParseUnary(g, ts, depth).Ok? { AndMoreGrows(g, h, ParseUnary(g, ts, depth).rest, depth); }
  }

  lemma {:induction false} AndMoreGrows(g: Grammar, h: Grammar, ts: seq<Token>, depth: nat)
    requires Wider(g, h)
    ensures SameIfOk(ParseAndMore(g, ts, depth), ParseAndMore(h, ts, depth))
    decreases |ts|, 2
  {
    if IsKeyword(g.lib, Head(ts), "and") && ParseUnary(g, Tail(ts), depth).Ok? {
      UnaryGrows(g, h, Tail(ts), depth);
      AndMoreGrows(g, h, ParseUnary(g, Tail(ts), depth).rest, depth);
    }
  }

  lemma {:induction false} UnaryGrows(g: Grammar, h: Grammar, ts: seq<Token>, depth: nat)
    requires Wider(g, h)
    ensures SameIfOk(ParseUnary(g, ts, depth), ParseUnary(h, ts, depth))
    decreases |ts|, 1
  {
    if IsKeyword(g.lib, Head(ts), "not") {
      if ts != [] { UnaryGrows(g, h, Tail(ts), depth + 1); }
    } else if Head(ts) == Token(Punct, "(") {
      OrGrows(g, h, Tail(ts), depth + 1);
    } else {
      PredicateGrows(g, h, ts);
    }
  }

  /** A text that parses in a scope parses alike in every wider one. */
  lemma CondGrows(g: Grammar, h: Grammar, text: string)
    requires Wider(g, h) && ParseCond(g, text).Some?
    ensures ParseCond(h, text) == ParseCond(g, text)
  {
    if TrimSpace(text) != "" { OrGrows(g, h, Lex(g.lib, TrimSpace(text)).value, 0); }
  }

  // ---- only known tags are read ----

  function KnownTags(g: Grammar): set<string> { if g.scope.tags.Some? then g.scope.tags.value else {} }

  lemma {:induction false} OrReadsKnown(g: Grammar, ts: seq<Token>, depth: nat)
    ensures ParseOr(g, ts, depth).Ok? ==> TagsRead(ParseOr(g, ts, depth).value) <= KnownTags(g)
    decreases |ts|, 3
  {
    if depth <= MAX_CONDITION_DEPTH && ParseAnd(g, ts, depth).Ok? {
      AndReadsKnown(g, ts, depth);
      OrMoreReadsKnown(g, ParseAnd(g, ts, depth).rest, depth);
      if ParseOr(g, ts, depth).Ok? {
        ItemsRead(ParseAnd(g, ts, depth).value, ParseOrMore(g, ParseAnd(g, ts, depth).rest, depth).value);
      }
    }
  }

  lemma ItemsRead(first: CondNode, more: seq<CondNode>)
    ensures TagsReadIn([first] + more) == TagsRead(first) + TagsReadIn(more)
  {
    assert ([first] + more)[1..] == more;
  }

  lemma {:induction false} OrMoreReadsKnown(g: Grammar, ts: seq<Token>, depth: nat)
    ensures ParseOrMore(g, ts, depth).Ok? ==> TagsReadIn(ParseOrMore(g, ts, depth).value) <= KnownTags(g)
    decreases |ts|, 3
  {
    if IsKeyword(g.lib, Head(ts), "or") && ParseAnd(g, Tail(ts), depth).Ok? {
      AndReadsKnown(g, Tail(ts), depth);
      var rest := ParseAnd(g, Tail(ts), depth).rest;
      OrMoreReadsKnown(g, rest, depth);
      if ParseOrMore(g, rest, depth).Ok? { ItemsRead(ParseAnd(g, Tail(ts), depth).value, ParseOrMore(g, rest, depth).value); }
    }
  }

  lemma {:induction false} AndReadsKnown(g: Grammar, ts: seq<Token>, depth: nat)
    ensures ParseAnd(g, ts, depth).Ok? ==> TagsRead(ParseAnd(g, ts, depth).value) <= KnownTags(g)
    decreases |ts|, 2
  {
    UnaryReadsKnown(g, ts, depth);
    if ParseAnd(g, ts, depth).Ok? {
      var rest := ParseUnary(g, ts, depth).rest;
      AndMoreReadsKnown(g, rest, depth);
      ItemsRead(ParseUnary(g, ts, depth).value, ParseAndMore(g, rest, depth).value);
    }
  }

  lemma {:induction false} AndMoreReadsKnown(g: Grammar, ts: seq<Token>, depth: nat)
    ensures ParseAndMore(g, ts, depth).Ok? ==> TagsReadIn(ParseAndMore(g, ts, depth).value) <= KnownTags(g)
    decreases |ts|, 2
  {
    if IsKeyword(g.lib, Head(ts), "and") && ParseUnary(g, Tail(ts), depth).Ok? {
      UnaryReadsKnown(g, Tail(ts), depth);
      var rest := ParseUnary(g, Tail(ts), depth).rest;
      AndMoreReadsKnown(g, rest, depth);
      if ParseAndMore(g, rest, depth).Ok? { ItemsRead(ParseUnary(g, Tail(ts), depth).value, ParseAndMore(g, rest, depth).value); }
    }
  }

  lemma PredicateReadsKnown(g: Grammar, ts: seq<Token>)
    ensures ParsePredicate(g, ts).Ok? ==> TagsRead(ParsePredicate(g, ts).value) <= KnownTags(g)
  {}

  lemma {:induction false} UnaryReadsKnown(g: Grammar, ts: seq<Token>, depth: nat)
    ensures ParseUnary(g, ts, depth).Ok? ==> TagsRead(ParseUnary(g, ts, depth).value) <= KnownTags(g)
    decreases |ts|, 1
  {
    if IsKeyword(g.lib, Head(ts), "not") {
      if ts != [] { UnaryReadsKnown(g, Tail(ts), depth + 1); }
    } else if Head(ts) == Token(Punct, "(") {
      OrReadsKnown(g, Tail(ts), depth + 1);
    } else {
      PredicateReadsKnown(g, ts);
    }
  }

  function TagsOf(cond: Option<CondNode>): set<string> { if cond.None? then {} else TagsRead(cond.value) }

  lemma CondReadsKnown(g: Grammar, text: string)
    requires ParseCond(g, text).Some?
    ensures TagsOf(ParseCond(g, text).value) <= KnownTags(g)
  {
    if TrimSpace(text) != "" { OrReadsKnown(g, Lex(g.lib, TrimSpace(text)).value, 0); }
  }
}
