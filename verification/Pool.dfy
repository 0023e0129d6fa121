/** Profiles are layered by joining condition text with narrowPool: what the joined text means. */
module Pool {
  import opened Basics
  import opened Text
  import opened Lexer
  import opened Cond
  import opened Parser
  import opened Locality

  datatype Pool = Pool(included: string, excluded: string)

  function Join(a: string, b: string, op: string): string {
    if TrimSpace(a) == "" then b
    else if TrimSpace(b) == "" then a
    else Joined(a, b, op)
  }

  function Joined(a: string, b: string, op: string): string {
    "(" + (a + (")" + (" " + (op + (" " + ("(" + (b + ")")))))))
  }

  function NarrowPool(base: Pool, child: Pool): Pool {
    Pool(Join(base.included, child.included, "and"), Join(base.excluded, child.excluded, "or"))
  }

  /** The pool of a chain of layers, base first, as Resolve folds it. */
  function Layered(layers: seq<Pool>): Pool {
    if layers == [] then Pool("", "")
    else NarrowPool(Layered(layers[..|layers| - 1]), layers[|layers| - 1])
  }

  predicate AllCompile(g: Grammar, layers: seq<Pool>) {
    layers == [] || (AllCompile(g, layers[..|layers| - 1]) && Compiles(g, layers[|layers| - 1]))
  }

  predicate AllAdmit(g: Grammar, layers: seq<Pool>, s: Subject)
    requires AllCompile(g, layers)
  {
    layers == [] || (AllAdmit(g, layers[..|layers| - 1], s) && Admits(g, layers[|layers| - 1], s))
  }

  predicate Compiles(g: Grammar, pool: Pool) {
    ParseCond(g, pool.included).Some? && ParseCond(g, pool.excluded).Some?
  }

  /** What rank reads off a pool: an unknown include admits, an unknown exclude
      does not exclude. */
  predicate Admits(g: Grammar, pool: Pool, s: Subject)
    requires Compiles(g, pool)
  {
    var included, excluded := ParseCond(g, pool.included).value, ParseCond(g, pool.excluded).value;
    Test(g.lib, included, s) != No && !(excluded.Some? && Eval(g.lib, excluded.value, s) == Yes)
  }

  // ---- the joined text ----

  const OPEN := Token(Punct, "(")
  const CLOSE := Token(Punct, ")")

  lemma LexWord(lib: Library, w: string)
    requires lib.Valid() && w != "" && lib.AllWord(w)
    ensures Lex(lib, w) == Some([Token(Word, w)])
  {
    WordRunAll(lib, w);
    assert w[|w|..] == "";
    assert w[..|w|] == w;
    assert lib.Word(w[0]);
    assert [Token(Word, w)] + [] == [Token(Word, w)];
  }

  lemma WordRunAll(lib: Library, w: string)
    requires lib.AllWord(w)
    ensures WordRun(lib, w) == |w|
  {}

  lemma LexPunct(lib: Library, c: char, rest: string)
    requires c == '(' || c == ')' || c == '[' || c == ']' || c == ','
    ensures Lex(lib, [c] + rest) == Prepend([Token(Punct, [c])], Lex(lib, rest))
  {
    assert ([c] + rest)[1..] == rest;
  }

  lemma LexThen(lib: Library, a: string, ta: seq<Token>, rest: string, tr: seq<Token>)
    requires Lex(lib, a) == Some(ta) && Stops(lib, rest) && Lex(lib, rest) == Some(tr)
    ensures Lex(lib, a + rest) == Some(ta + tr)
  {
    LexLocal(lib, a, rest);
  }

  predicate IsJoin(op: string) { op == "and" || op == "or" }

  function JoinedTokens(ta: seq<Token>, tb: seq<Token>, op: string): seq<Token> {
    [OPEN] + (ta + ([CLOSE] + ([Token(Word, op)] + ([OPEN] + (tb + [CLOSE])))))
  }

  lemma ClosedLexes(lib: Library, a: string, ta: seq<Token>, rest: string, tr: seq<Token>)
    requires lib.Valid() && Lex(lib, a) == Some(ta) && Lex(lib, rest) == Some(tr)
    ensures Lex(lib, a + ([')'] + rest)) == Some(ta + ([CLOSE] + tr))
  {
    LexPunct(lib, ')', rest);
    LexThen(lib, a, ta, [')'] + rest, [CLOSE] + tr);
  }

  lemma OperatorLexes(lib: Library, op: string, rest: string, tr: seq<Token>)
    requires lib.Valid() && IsJoin(op) && Lex(lib, rest) == Some(tr)
    ensures Lex(lib, " " + (op + (" " + (['('] + rest)))) == Some([Token(Word, op)] + ([OPEN] + tr))
  {
    LexPunct(lib, '(', rest);
    LexAfterSpace(lib, " ", ['('] + rest);
    LexWord(lib, op);
    LexThen(lib, op, [Token(Word, op)], " " + (['('] + rest), [OPEN] + tr);
    LexAfterSpace(lib, " ", op + (" " + (['('] + rest)));
  }

  lemma JoinedLexes(lib: Library, a: string, ta: seq<Token>, b: string, tb: seq<Token>, op: string)
    requires lib.Valid() && IsJoin(op) && Lex(lib, a) == Some(ta) && Lex(lib, b) == Some(tb)
    ensures Lex(lib, Joined(a, b, op)) == Some(JoinedTokens(ta, tb, op))
  {
    ClosedLexes(lib, b, tb, "", []);
    assert [CLOSE] + [] == [CLOSE];
    var second := b + ([')'] + "");
    OperatorLexes(lib, op, second, tb + [CLOSE]);
    assert second == b + ")";
    var tail := " " + (op + (" " + (['('] + second)));
    ClosedLexes(lib, a, ta, tail, [Token(Word, op)] + ([OPEN] + (tb + [CLOSE])));
    LexPunct(lib, '(', a + ([')'] + tail));
    assert Joined(a, b, op) == ['('] + (a + ([')'] + tail));
  }

  // ---- what a text reads as ----

  /** At any depth and with anything behind it that cannot continue it, the
      tokens parse to this condition, unless the depth limit stops them. */
  ghost predicate Reading(g: Grammar, ts: seq<Token>, n: CondNode) {
    forall more, d: nat :: Closes(more) ==>
      ParseOr(g, ts + more, d) == Fail || ParseOr(g, ts + more, d) == Ok(n, more)
  }

  ghost predicate Reads(g: Grammar, text: string, n: CondNode) {
    Lex(g.lib, text).Some? && Reading(g, Lex(g.lib, text).value, n)
  }

  lemma {:induction false} TokensAlone(g: Grammar, text: string, n: CondNode)
    requires g.lib.Valid() && ParseCond(g, text) == Some(Some(n))
    ensures Lex(g.lib, text).Some? && ParseOr(g, Lex(g.lib, text).value, 0) == Ok(n, [])
  {
    LexTrim(g.lib, text);
  }

  /** A text that parses on its own reads as that condition inside any other. */
  lemma AloneReads(g: Grammar, text: string, n: CondNode)
    requires g.lib.Valid() && ParseCond(g, text) == Some(Some(n))
    ensures Reads(g, text, n)
  {
    TokensAlone(g, text, n);
    var ts := Lex(g.lib, text).value;
    forall more, d: nat | Closes(more)
      ensures ParseOr(g, ts + more, d) == Fail || ParseOr(g, ts + more, d) == Ok(n, more)
    {
      OrLocal(g, ts, more, 0, d);
      assert [] + more == more;
    }
  }

  lemma ReadsWins(g: Grammar, text: string, n: CondNode, m: CondNode)
    requires g.lib.Valid() && Reads(g, text, n) && ParseCond(g, text) == Some(Some(m))
    ensures m == n
  {
    TokensAlone(g, text, m);
    var ts := Lex(g.lib, text).value;
    assert ts + [] == ts;
  }

  function JoinNode(op: string, a: CondNode, b: CondNode): CondNode {
    if op == "and" then AndNode([a, b]) else OrNode([a, b])
  }

  /** One parenthesised part: the reading inside, the bracket consumed. */
  lemma GroupReads(g: Grammar, ts: seq<Token>, n: CondNode, more: seq<Token>, d: nat)
    requires Reading(g, ts, n)
    ensures var r := ParseUnary(g, [OPEN] + (ts + ([CLOSE] + more)), d); r == Fail || r == Ok(n, more)
  {
    var inner := ts + ([CLOSE] + more);
    assert Head([OPEN] + inner) == OPEN && Tail([OPEN] + inner) == inner;
    assert Closes([CLOSE] + more);
    assert Head([CLOSE] + more) == CLOSE && Tail([CLOSE] + more) == more;
  }

  lemma KeywordAhead(g: Grammar, op: string, rest: seq<Token>)
    requires g.lib.Valid() && IsJoin(op)
    ensures var ts := [Token(Word, op)] + rest;
      Head(ts) == Token(Word, op) && Tail(ts) == rest
      && (IsKeyword(g.lib, Head(ts), "and") <==> op == "and") && (IsKeyword(g.lib, Head(ts), "or") <==> op == "or")
  {
    assert g.lib.fold('a') == 'a' && g.lib.fold('o') == 'o';
    if op == "or" {
      assert |"or"| != |"and"|;
    }
  }

  /** A first operand, the operator and a second operand that closes. */
  lemma PairParses(g: Grammar, ts: seq<Token>, a: CondNode, op: string, second: seq<Token>, more: seq<Token>, d: nat)
    requires g.lib.Valid() && IsJoin(op) && Closes(more) && d <= MAX_CONDITION_DEPTH
    requires ParseUnary(g, ts, d) == Ok(a, [Token(Word, op)] + second)
    requires ParseUnary(g, second, d).Ok? ==> ParseUnary(g, second, d).rest == more
    ensures ParseOr(g, ts, d) == match ParseUnary(g, second, d)
      case Fail => Fail
      case Ok(b, _) => Ok(JoinNode(op, a, b), more)
  {
    var tail := [Token(Word, op)] + second;
    KeywordAhead(g, op, second);
    assert !IsKeyword(g.lib, Head(more), "and") && !IsKeyword(g.lib, Head(more), "or");
    assert ParseAndMore(g, more, d) == Ok([], more) && ParseOrMore(g, more, d) == Ok([], more);
    if ParseUnary(g, second, d).Ok? {
      var b := ParseUnary(g, second, d).value;
      assert [b] + [] == [b] && [a] + [b] == [a, b];
      assert ParseAnd(g, second, d) == Ok(b, more);
    } else {
      assert ParseAnd(g, second, d) == Fail;
    }
    if op == "and" {
      var both := ParseAndMore(g, tail, d);
      assert both == if ParseUnary(g, second, d).Fail? then Fail else Ok([ParseUnary(g, second, d).value], more);
      assert ParseAnd(g, ts, d) == if both.Fail? then Fail else Ok(AndNode([a] + both.value), more);
    } else {
      var both := ParseOrMore(g, tail, d);
      assert both == if ParseUnary(g, second, d).Fail? then Fail else Ok([ParseUnary(g, second, d).value], more);
      assert ParseAndMore(g, tail, d) == Ok([], tail);
      assert ParseAnd(g, ts, d) == Ok(a, tail);
    }
  }

  lemma JoinedReading(g: Grammar, ta: seq<Token>, a: CondNode, tb: seq<Token>, b: CondNode, op: string,
      more: seq<Token>, d: nat)
    requires g.lib.Valid() && IsJoin(op) && Reading(g, ta, a) && Reading(g, tb, b) && Closes(more)
    ensures var r := ParseOr(g, JoinedTokens(ta, tb, op) + more, d); r == Fail || r == Ok(JoinNode(op, a, b), more)
  {
    var second := [OPEN] + (tb + ([CLOSE] + more));
    var tail := [Token(Word, op)] + second;
    assert JoinedTokens(ta, tb, op) + more == [OPEN] + (ta + ([CLOSE] + tail));
    GroupReads(g, ta, a, tail, d);
    GroupReads(g, tb, b, more, d);
    KeywordAhead(g, op, second);
    if d <= MAX_CONDITION_DEPTH && ParseUnary(g, JoinedTokens(ta, tb, op) + more, d).Ok? {
      PairParses(g, JoinedTokens(ta, tb, op) + more, a, op, second, more, d);
    }
  }

  lemma JoinedReads(g: Grammar, ta: string, a: CondNode, tb: string, b: CondNode, op: string)
    requires g.lib.Valid() && IsJoin(op) && Reads(g, ta, a) && Reads(g, tb, b)
    ensures Reads(g, Joined(ta, tb, op), JoinNode(op, a, b))
  {
    var la, lb := Lex(g.lib, ta).value, Lex(g.lib, tb).value;
    JoinedLexes(g.lib, ta, la, tb, lb, op);
    forall more, d: nat | Closes(more)
      ensures var r := ParseOr(g, JoinedTokens(la, lb, op) + more, d); r == Fail || r == Ok(JoinNode(op, a, b), more)
    {
      JoinedReading(g, la, a, lb, b, op, more, d);
    }
  }

  function Kleene(op: string, a: Tri, b: Tri): Tri { if op == "and" then KleeneAnd(a, b) else KleeneOr(a, b) }

  lemma {:induction false} JoinNodeMeans(lib: Library, op: string, a: CondNode, b: CondNode, s: Subject)
    requires IsJoin(op)
    ensures Eval(lib, JoinNode(op, a, b), s) == Kleene(op, Eval(lib, a, s), Eval(lib, b, s))
  {
    var items := [a, b];
    assert items[1..] == [b] && [b][1..] == [];
    assert EvalAnd(lib, [b], s) == Eval(lib, b, s);
    assert EvalOr(lib, [b], s) == Eval(lib, b, s);
  }

  /** Two texts that parse alone, joined: if the joined text parses at all, its
      value is the Kleene and (or) of the parts, for every subject. */
  lemma JoinedMeans(g: Grammar, a: string, na: CondNode, b: string, nb: CondNode, op: string, s: Subject)
    requires g.lib.Valid() && IsJoin(op)
    requires ParseCond(g, a) == Some(Some(na)) && ParseCond(g, b) == Some(Some(nb))
    ensures match ParseCond(g, Joined(a, b, op))
      case None => true
      case Some(n) => n == Some(JoinNode(op, na, nb)) && Test(g.lib, n, s) == Kleene(op, Eval(g.lib, na, s), Eval(g.lib, nb, s))
  {
    AloneReads(g, a, na);
    AloneReads(g, b, nb);
    JoinedReads(g, a, na, b, nb, op);
    JoinNodeMeans(g.lib, op, na, nb, s);
    var text := Joined(a, b, op);
    JoinedTrims(a, b, op);
    if ParseCond(g, text).Some? {
      ReadsWins(g, text, JoinNode(op, na, nb), ParseCond(g, text).value.value);
    }
  }

  lemma JoinedTrims(a: string, b: string, op: string)
    ensures TrimSpace(Joined(a, b, op)) == Joined(a, b, op) != ""
  {
    var text := Joined(a, b, op);
    assert text[0] == '(' && text[|text| - 1] == ')';
  }

  // ---- exactly when the joined text parses ----

  lemma GroupParsesIff(g: Grammar, ts: seq<Token>, n: CondNode, more: seq<Token>, d: nat)
    requires ParseOr(g, ts, 0) == Ok(n, [])
    ensures ParseUnary(g, [OPEN] + (ts + ([CLOSE] + more)), d)
      == if ParseOr(g, ts, d + 1).Ok? then Ok(n, more) else Fail
  {
    var inner := ts + ([CLOSE] + more);
    assert Head([OPEN] + inner) == OPEN && Tail([OPEN] + inner) == inner;
    OrLocal(g, ts, [CLOSE] + more, 0, d + 1);
    assert [] + ([CLOSE] + more) == [CLOSE] + more;
    assert Head([CLOSE] + more) == CLOSE && Tail([CLOSE] + more) == more;
  }

  lemma JoinedTokensParseIff(g: Grammar, ta: seq<Token>, na: CondNode, tb: seq<Token>, nb: CondNode, op: string)
    requires g.lib.Valid() && IsJoin(op) && ParseOr(g, ta, 0) == Ok(na, []) && ParseOr(g, tb, 0) == Ok(nb, [])
    ensures ParseOr(g, JoinedTokens(ta, tb, op), 0)
      == if ParseOr(g, ta, 1).Ok? && ParseOr(g, tb, 1).Ok? then Ok(JoinNode(op, na, nb), []) else Fail
  {
    var second := [OPEN] + (tb + ([CLOSE] + []));
    var tail := [Token(Word, op)] + second;
    assert JoinedTokens(ta, tb, op) == [OPEN] + (ta + ([CLOSE] + tail));
    GroupParsesIff(g, ta, na, tail, 0);
    GroupParsesIff(g, tb, nb, [], 0);
    if ParseUnary(g, JoinedTokens(ta, tb, op), 0).Ok? {
      PairParses(g, JoinedTokens(ta, tb, op), na, op, second, [], 0);
    }
  }

  /** Two texts that parse alone parse joined exactly when the joined text is
      short enough and each part still parses one level deeper. */
  lemma JoinedParsesIff(g: Grammar, a: string, na: CondNode, b: string, nb: CondNode, op: string)
    requires g.lib.Valid() && IsJoin(op)
    requires ParseCond(g, a) == Some(Some(na)) && ParseCond(g, b) == Some(Some(nb))
    ensures Lex(g.lib, a).Some? && Lex(g.lib, b).Some?
    ensures ParseCond(g, Joined(a, b, op)).Some? <==>
      && Utf8Len(Joined(a, b, op)) <= MAX_CONDITION_LENGTH
      && ParseOr(g, Lex(g.lib, a).value, 1).Ok?
      && ParseOr(g, Lex(g.lib, b).value, 1).Ok?
  {
    TokensAlone(g, a, na);
    TokensAlone(g, b, nb);
    var text := Joined(a, b, op);
    JoinedTrims(a, b, op);
    JoinedLexes(g.lib, a, Lex(g.lib, a).value, b, Lex(g.lib, b).value, op);
    JoinedTokensParseIff(g, Lex(g.lib, a).value, na, Lex(g.lib, b).value, nb, op);
    ParseCondBy(g, text);
  }

  lemma ParseCondBy(g: Grammar, text: string)
    requires TrimSpace(text) == text != "" && Lex(g.lib, text).Some?
    ensures var r := ParseOr(g, Lex(g.lib, text).value, 0);
      ParseCond(g, text) == if Utf8Len(text) <= MAX_CONDITION_LENGTH && r.Ok? && r.rest == [] then Some(Some(r.value)) else None
  {}

  // ---- whole chains of layers ----

  /** The text is blank and stands for the operation's unit, or reads as a
      condition with this value. */
  ghost predicate Means(g: Grammar, text: string, s: Subject, op: string, v: Tri) {
    if TrimSpace(text) == "" then v == (if op == "and" then Yes else No)
    else exists n :: Reads(g, text, n) && Eval(g.lib, n, s) == v
  }

  function ValueOf(g: Grammar, text: string, s: Subject, op: string): Tri
    requires ParseCond(g, text).Some?
  {
    match ParseCond(g, text).value
    case None => if op == "and" then Yes else No
    case Some(n) => Eval(g.lib, n, s)
  }

  lemma AloneMeans(g: Grammar, text: string, s: Subject, op: string)
    requires g.lib.Valid() && ParseCond(g, text).Some?
    ensures Means(g, text, s, op, ValueOf(g, text, s, op))
  {
    if TrimSpace(text) != "" {
      AloneReads(g, text, ParseCond(g, text).value.value);
    }
  }

  lemma MeansWins(g: Grammar, text: string, s: Subject, op: string, v: Tri)
    requires g.lib.Valid() && ParseCond(g, text).Some? && Means(g, text, s, op, v)
    ensures ValueOf(g, text, s, op) == v
  {
    if TrimSpace(text) != "" {
      var n :| Reads(g, text, n) && Eval(g.lib, n, s) == v;
      ReadsWins(g, text, n, ParseCond(g, text).value.value);
    }
  }

  lemma JoinMeans(g: Grammar, a: string, va: Tri, b: string, vb: Tri, op: string, s: Subject)
    requires g.lib.Valid() && IsJoin(op) && Means(g, a, s, op, va) && Means(g, b, s, op, vb)
    ensures Means(g, Join(a, b, op), s, op, Kleene(op, va, vb))
  {
    if TrimSpace(a) != "" && TrimSpace(b) != "" {
      var na :| Reads(g, a, na) && Eval(g.lib, na, s) == va;
      var nb :| Reads(g, b, nb) && Eval(g.lib, nb, s) == vb;
      JoinedReads(g, a, na, b, nb, op);
      JoinNodeMeans(g.lib, op, na, nb, s);
      JoinedTrims(a, b, op);
    }
  }

  function IncludeOf(g: Grammar, layers: seq<Pool>, s: Subject): Tri
    requires AllCompile(g, layers)
  {
    if layers == [] then Yes
    else KleeneAnd(IncludeOf(g, layers[..|layers| - 1], s), ValueOf(g, layers[|layers| - 1].included, s, "and"))
  }

  function ExcludeOf(g: Grammar, layers: seq<Pool>, s: Subject): Tri
    requires AllCompile(g, layers)
  {
    if layers == [] then No
    else KleeneOr(ExcludeOf(g, layers[..|layers| - 1], s), ValueOf(g, layers[|layers| - 1].excluded, s, "or"))
  }

  lemma {:induction false} LayersMean(g: Grammar, layers: seq<Pool>, s: Subject)
    requires g.lib.Valid() && AllCompile(g, layers)
    ensures Means(g, Layered(layers).included, s, "and", IncludeOf(g, layers, s))
    ensures Means(g, Layered(layers).excluded, s, "or", ExcludeOf(g, layers, s))
    decreases |layers|
  {
    if layers != [] {
      var before, last := layers[..|layers| - 1], layers[|layers| - 1];
      LayersMean(g, before, s);
      AloneMeans(g, last.included, s, "and");
      AloneMeans(g, last.excluded, s, "or");
      JoinMeans(g, Layered(before).included, IncludeOf(g, before, s),
        last.included, ValueOf(g, last.included, s, "and"), "and", s);
      JoinMeans(g, Layered(before).excluded, ExcludeOf(g, before, s),
        last.excluded, ValueOf(g, last.excluded, s, "or"), "or", s);
    }
  }

  lemma AdmitsByValue(g: Grammar, pool: Pool, s: Subject)
    requires Compiles(g, pool)
    ensures Admits(g, pool, s) <==> ValueOf(g, pool.included, s, "and") != No && ValueOf(g, pool.excluded, s, "or") != Yes
  {}

  lemma {:induction false} LayersAdmit(g: Grammar, layers: seq<Pool>, s: Subject)
    requires AllCompile(g, layers)
    ensures (IncludeOf(g, layers, s) != No && ExcludeOf(g, layers, s) != Yes)
      <==> AllAdmit(g, layers, s)
    decreases |layers|
  {
    if layers != [] {
      var before, last := layers[..|layers| - 1], layers[|layers| - 1];
      LayersAdmit(g, before, s);
      AdmitsByValue(g, last, s);
    }
  }

  /** In one scope and for given tags pools only ever narrow: when every layer
      parses on its own, the pool of the whole chain admits a node exactly when every layer does, and its two
      conditions have the Kleene and, and or, of the layers' values. */
  lemma LayersOnlyNarrow(g: Grammar, layers: seq<Pool>, s: Subject)
    requires g.lib.Valid() && AllCompile(g, layers) && Compiles(g, Layered(layers))
    ensures ValueOf(g, Layered(layers).included, s, "and") == IncludeOf(g, layers, s)
    ensures ValueOf(g, Layered(layers).excluded, s, "or") == ExcludeOf(g, layers, s)
    ensures Admits(g, Layered(layers), s) <==> AllAdmit(g, layers, s)
  {
    LayersMean(g, layers, s);
    LayersAdmit(g, layers, s);
    AdmitsByValue(g, Layered(layers), s);
    var pool := Layered(layers);
    MeansWins(g, pool.included, s, "and", IncludeOf(g, layers, s));
    MeansWins(g, pool.excluded, s, "or", ExcludeOf(g, layers, s));
  }
}
