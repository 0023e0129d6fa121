/** The parser reads no further than what it parses, whatever tokens follow and at whatever depth. */
module Locality {
  import opened Basics
  import opened Text
  import opened Lexer
  import opened Cond
  import opened Parser

  /** Nothing, or a punctuation token: neither and nor or goes on from it. */
  predicate Closes(more: seq<Token>) { more == [] || more[0].kind == Punct }

  function Extend<T>(r: Parsed<T>, more: seq<Token>): Parsed<T> {
    if r.Fail? then Fail else Ok(r.value, r.rest + more)
  }

  /** The answer q deeper down is p's, or the depth limit. */
  predicate SameOrDeep<T(==)>(p: Parsed<T>, q: Parsed<T>) { q == Fail || q == p }

  lemma HeadTail(ts: seq<Token>, more: seq<Token>)
    requires ts != []
    ensures Head(ts + more) == Head(ts) && Tail(ts + more) == Tail(ts) + more
  {}

  lemma {:induction false} OrLocal(g: Grammar, ts: seq<Token>, more: seq<Token>, d: nat, e: nat)
    requires ParseOr(g, ts, d).Ok? && d <= e && Closes(more)
    ensures SameOrDeep(ParseOr(g, ts, d), ParseOr(g, ts, e))
    ensures ParseOr(g, ts + more, e) == Extend(ParseOr(g, ts, e), more)
    decreases |ts|, 3
  {
    if e <= MAX_CONDITION_DEPTH {
      AndLocal(g, ts, more, d, e);
      OrMoreLocal(g, ParseAnd(g, ts, d).rest, more, d, e);
    }
  }

  lemma {:induction false} OrMoreLocal(g: Grammar, ts: seq<Token>, more: seq<Token>, d: nat, e: nat)
    requires ParseOrMore(g, ts, d).Ok? && d <= e && Closes(more)
    ensures SameOrDeep(ParseOrMore(g, ts, d), ParseOrMore(g, ts, e))
    ensures ParseOrMore(g, ts + more, e) == Extend(ParseOrMore(g, ts, e), more)
    decreases |ts|, 3
  {
    if IsKeyword(g.lib, Head(ts), "or") {
      HeadTail(ts, more);
      AndLocal(g, Tail(ts), more, d, e);
      OrMoreLocal(g, ParseAnd(g, Tail(ts), d).rest, more, d, e);
    } else if ts != [] {
      HeadTail(ts, more);
    } else {
      assert ts + more == more;
    }
  }

  lemma {:induction false} AndLocal(g: Grammar, ts: seq<Token>, more: seq<Token>, d: nat, e: nat)
    requires ParseAnd(g, ts, d).Ok? && d <= e && Closes(more)
    ensures SameOrDeep(ParseAnd(g, ts, d), ParseAnd(g, ts, e))
    ensures ParseAnd(g, ts + more, e) == Extend(ParseAnd(g, ts, e), more)
    decreases |ts|, 2
  {
    UnaryLocal(g, ts, more, d, e);
    AndMoreLocal(g, ParseUnary(g, ts, d).rest, more, d, e);
  }

  lemma {:induction false} AndMoreLocal(g: Grammar, ts: seq<Token>, more: seq<Token>, d: nat, e: nat)
    requires ParseAndMore(g, ts, d).Ok? && d <= e && Closes(more)
    ensures SameOrDeep(ParseAndMore(g, ts, d), ParseAndMore(g, ts, e))
    ensures ParseAndMore(g, ts + more, e) == Extend(ParseAndMore(g, ts, e), more)
    decreases |ts|, 2
  {
    if IsKeyword(g.lib, Head(ts), "and") {
      HeadTail(ts, more);
      UnaryLocal(g, Tail(ts), more, d, e);
      AndMoreLocal(g, ParseUnary(g, Tail(ts), d).rest, more, d, e);
    } else if ts != [] {
      HeadTail(ts, more);
    } else {
      assert ts + more == more;
    }
  }

  function Closed(r: Parsed<CondNode>): Parsed<CondNode> {
    if r.Ok? && IsExpected(Head(r.rest), ")") then Ok(r.value, Tail(r.rest)) else Fail
  }

  lemma GroupLocal(r: Parsed<CondNode>, more: seq<Token>)
    ensures Closed(r).Ok? ==> Closed(Extend(r, more)) == Extend(Closed(r), more)
    ensures r.Fail? ==> Closed(Extend(r, more)).Fail?
  {
    if r.Ok? && r.rest != [] {
      HeadTail(r.rest, more);
    }
  }

  lemma {:induction false} UnaryLocal(g: Grammar, ts: seq<Token>, more: seq<Token>, d: nat, e: nat)
    requires ParseUnary(g, ts, d).Ok? && d <= e && Closes(more)
    ensures SameOrDeep(ParseUnary(g, ts, d), ParseUnary(g, ts, e))
    ensures ParseUnary(g, ts + more, e) == Extend(ParseUnary(g, ts, e), more)
    decreases |ts|, 1
  {
    HeadTail(ts, more);
    if IsKeyword(g.lib, Head(ts), "not") {
      UnaryLocal(g, Tail(ts), more, d + 1, e + 1);
    } else if Head(ts) == Token(Punct, "(") {
      OrLocal(g, Tail(ts), more, d + 1, e + 1);
      GroupLocal(ParseOr(g, Tail(ts), e + 1), more);
      GroupLocal(ParseOr(g, Tail(ts), d + 1), more);
    } else {
      PredicateLocal(g, ts, more);
    }
  }

  lemma PredicateLocal(g: Grammar, ts: seq<Token>, more: seq<Token>)
    requires ParsePredicate(g, ts).Ok?
    ensures ParsePredicate(g, ts + more) == Extend(ParsePredicate(g, ts), more)
  {
    HeadTail(ts, more);
    var field, rest := g.lib.ToLower(Head(ts).text), Tail(ts);
    if field == "tag" || field == "passes" || field == "fails" {
      CallLocal(rest, more);
    } else if g.scope.diags.Some? && Head(ts).text in g.scope.diags.value {
      HeadTail(rest, more);
    } else if FieldOf(field).value.kind != BoolField {
      ComparisonLocal(g, field, FieldOf(field).value.kind, rest, more);
    }
  }

  lemma CallLocal(ts: seq<Token>, more: seq<Token>)
    requires ParseCall(ts).Ok?
    ensures ParseCall(ts + more) == Extend(ParseCall(ts), more)
  {
    HeadTail(ts, more);
    HeadTail(Tail(ts), more);
    HeadTail(Tail(Tail(ts)), more);
  }

  lemma ComparisonLocal(g: Grammar, field: string, kind: FieldKind, ts: seq<Token>, more: seq<Token>)
    requires ParseComparison(g, field, kind, ts).Ok?
    ensures ParseComparison(g, field, kind, ts + more) == Extend(ParseComparison(g, field, kind, ts), more)
  {
    HeadTail(ts, more);
    HeadTail(Tail(ts), more);
    if kind != NumberField && g.lib.ToLower(Head(ts).text) == "in" {
      ListLocal(Tail(Tail(ts)), more);
    }
  }

  lemma {:induction false} ListLocal(ts: seq<Token>, more: seq<Token>)
    requires ParseList(ts).Ok?
    ensures ParseList(ts + more) == Extend(ParseList(ts), more)
    decreases |ts|
  {
    var after := Tail(ts);
    HeadTail(ts, more);
    HeadTail(after, more);
    if Head(after) != Token(Punct, "]") {
      ListLocal(Tail(after), more);
    }
  }
}
