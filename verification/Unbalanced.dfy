/** Why layers must parse on their own: joining is textual, and only the joined
    text is parsed, so a layer with an unbalanced bracket, which no parser
    would take alone, can widen the pool. */
module Unbalanced {
  import opened Basics
  import opened Text
  import opened Lexer
  import opened Cond
  import opened Parser
  import opened Pool
  import opened Builder
  import opened RoundTrip

  function Flag(field: string): Clause { Clause(false, field, "", [], false) }

  predicate IsFlag(field: string) { field == "udp" || field == "dead" || field == "alive" }

  lemma FlagParses(g: Grammar, field: string, rest: seq<Token>, d: nat)
    requires g.lib.Valid() && g.scope.diags.None? && IsFlag(field)
    ensures ParseUnary(g, [Token(Word, field)] + rest, d) == Ok(BoolNode(field), rest)
  {
    assert GoodClause(g, Flag(field));
    ClauseParses(g, Flag(field), rest, d);
  }

  lemma FlagAlone(g: Grammar, field: string, d: nat)
    requires g.lib.Valid() && g.scope.diags.None? && IsFlag(field) && d <= MAX_CONDITION_DEPTH
    ensures ParseOr(g, [Token(Word, field)], d) == Ok(BoolNode(field), [])
  {
    FlagParses(g, field, [], d);
    assert [Token(Word, field)] + [] == [Token(Word, field)];
    assert Head([]) == END;
    assert ParseAndMore(g, [], d) == Ok([], []) && ParseOrMore(g, [], d) == Ok([], []);
  }

  lemma FlagGroup(g: Grammar, field: string, more: seq<Token>)
    requires g.lib.Valid() && g.scope.diags.None? && IsFlag(field)
    ensures ParseUnary(g, [OPEN] + ([Token(Word, field)] + ([CLOSE] + more)), 0) == Ok(BoolNode(field), more)
  {
    FlagAlone(g, field, 0);
    FlagAlone(g, field, 1);
    GroupParsesIff(g, [Token(Word, field)], BoolNode(field), more, 0);
  }

  const BASE := "udp"
  const CHILD := "dead" + (")" + (" " + ("or" + (" " + ("(" + "alive")))))

  const THIRD := [OPEN] + ([Token(Word, "alive")] + ([CLOSE] + []))
  const SECOND := [OPEN] + ([Token(Word, "dead")] + ([CLOSE] + ([Token(Word, "or")] + THIRD)))
  const CHILD_TOKENS := [Token(Word, "dead")] + ([CLOSE] + ([Token(Word, "or")] + ([OPEN] + [Token(Word, "alive")])))

  lemma ChildLexes(lib: Library)
    requires lib.Valid()
    ensures Lex(lib, BASE) == Some([Token(Word, "udp")]) && Lex(lib, CHILD) == Some(CHILD_TOKENS)
  {
    PlainWord(lib, "udp");
    PlainWord(lib, "dead");
    PlainWord(lib, "alive");
    LexWord(lib, "udp");
    LexWord(lib, "dead");
    LexWord(lib, "alive");
    OperatorLexes(lib, "or", "alive", [Token(Word, "alive")]);
    ClosedLexes(lib, "dead", [Token(Word, "dead")], " " + ("or" + (" " + (['('] + "alive"))),
      [Token(Word, "or")] + ([OPEN] + [Token(Word, "alive")]));
  }

  const BOTH := AndNode([BoolNode("udp"), BoolNode("dead")])

  function JoinedTail(): seq<Token> { [Token(Word, "and")] + SECOND }

  lemma AndPart(g: Grammar, ts: seq<Token>)
    requires g.lib.Valid() && g.scope.diags.None?
    requires ParseUnary(g, ts, 0) == Ok(BoolNode("udp"), JoinedTail())
    ensures ParseAnd(g, ts, 0) == Ok(BOTH, [Token(Word, "or")] + THIRD)
  {
    FlagGroup(g, "dead", [Token(Word, "or")] + THIRD);
    KeywordAhead(g, "and", SECOND);
    KeywordAhead(g, "or", THIRD);
    assert ParseAndMore(g, [Token(Word, "or")] + THIRD, 0) == Ok([], [Token(Word, "or")] + THIRD);
    assert ParseAndMore(g, JoinedTail(), 0) == Ok([BoolNode("dead")] + [], [Token(Word, "or")] + THIRD);
    assert [BoolNode("udp")] + ([BoolNode("dead")] + []) == [BoolNode("udp"), BoolNode("dead")];
  }

  lemma OrPart(g: Grammar)
    requires g.lib.Valid() && g.scope.diags.None?
    ensures ParseOrMore(g, [Token(Word, "or")] + THIRD, 0) == Ok([BoolNode("alive")], [])
  {
    FlagGroup(g, "alive", []);
    KeywordAhead(g, "or", THIRD);
    assert Head([]) == END;
    assert ParseAndMore(g, [], 0) == Ok([], []) && ParseOrMore(g, [], 0) == Ok([], []);
    assert ParseAnd(g, THIRD, 0) == Ok(BoolNode("alive"), []);
    assert [BoolNode("alive")] + [] == [BoolNode("alive")];
  }

  lemma JoinedParse(g: Grammar)
    requires g.lib.Valid() && g.scope.diags.None?
    ensures ParseOr(g, JoinedTokens([Token(Word, "udp")], CHILD_TOKENS, "and"), 0)
      == Ok(OrNode([BOTH, BoolNode("alive")]), [])
  {
    var ts := JoinedTokens([Token(Word, "udp")], CHILD_TOKENS, "and");
    assert ts == [OPEN] + ([Token(Word, "udp")] + ([CLOSE] + JoinedTail()));
    FlagGroup(g, "udp", JoinedTail());
    AndPart(g, ts);
    OrPart(g);
    assert [BOTH] + [BoolNode("alive")] == [BOTH, BoolNode("alive")];
  }

  lemma ChildAlone(g: Grammar)
    requires g.lib.Valid() && g.scope.diags.None?
    ensures ParseOr(g, CHILD_TOKENS, 0).Ok? ==> ParseOr(g, CHILD_TOKENS, 0).rest != []
  {
    var rest := [CLOSE] + ([Token(Word, "or")] + ([OPEN] + [Token(Word, "alive")]));
    FlagParses(g, "dead", rest, 0);
    assert Head(rest) == CLOSE;
    assert ParseAndMore(g, rest, 0) == Ok([], rest) && ParseOrMore(g, rest, 0) == Ok([], rest);
  }

  lemma BaseParses(g: Grammar)
    requires g.lib.Valid() && g.scope.diags.None?
    ensures ParseCond(g, BASE) == Some(Some(BoolNode("udp")))
  {
    ChildLexes(g.lib);
    FlagAlone(g, "udp", 0);
    assert Solid(BASE);
    SolidTrims(BASE);
    ShortText(BASE);
    ParseCondBy(g, BASE);
  }

  lemma ChildFails(g: Grammar)
    requires g.lib.Valid() && g.scope.diags.None?
    ensures ParseCond(g, CHILD) == None && TrimSpace(CHILD) == CHILD
  {
    ChildLexes(g.lib);
    ChildAlone(g);
    assert Solid(CHILD);
    SolidTrims(CHILD);
    ParseCondBy(g, CHILD);
  }

  const WIDE := OrNode([BOTH, BoolNode("alive")])

  lemma JoinedTextParses(g: Grammar)
    requires g.lib.Valid() && g.scope.diags.None?
    ensures ParseCond(g, Joined(BASE, CHILD, "and")) == Some(Some(WIDE))
  {
    var text := Joined(BASE, CHILD, "and");
    ChildLexes(g.lib);
    JoinedTrims(BASE, CHILD, "and");
    JoinedLexes(g.lib, BASE, [Token(Word, "udp")], CHILD, CHILD_TOKENS, "and");
    JoinedParse(g);
    JoinedIsShort(text);
    ParseCondBy(g, text);
  }

  lemma JoinedIsShort(text: string)
    requires text == Joined(BASE, CHILD, "and")
    ensures Utf8Len(text) <= MAX_CONDITION_LENGTH
  {
    ShortText(text);
    assert |CHILD| == 15;
    assert |text| == 6 + |BASE| + |CHILD| + |"and"|;
  }

  lemma WideHolds(lib: Library, s: Subject)
    requires s.alive
    ensures Eval(lib, WIDE, s) == Yes
  {
    assert WIDE.items[1..] == [BoolNode("alive")];
    assert EvalOr(lib, WIDE.items[1..], s) == Yes;
  }

  lemma BaseShuts(g: Grammar, s: Subject)
    requires g.lib.Valid() && g.scope.diags.None? && !s.udp
    ensures Compiles(g, Pool(BASE, "")) && !Admits(g, Pool(BASE, ""), s)
  {
    BaseParses(g);
    BlankParses(g);
    AdmitsByValue(g, Pool(BASE, ""), s);
  }

  lemma JoinedOpens(g: Grammar, s: Subject)
    requires g.lib.Valid() && g.scope.diags.None? && s.alive
    ensures var joined := Pool(Joined(BASE, CHILD, "and"), ""); Compiles(g, joined) && Admits(g, joined, s)
  {
    JoinedTextParses(g);
    WideHolds(g.lib, s);
    BlankParses(g);
    AdmitsByValue(g, Pool(Joined(BASE, CHILD, "and"), ""), s);
  }

  /** The base keeps nodes without UDP out, the child does not parse alone, and
      the joined pool parses and lets such a node in. */
  lemma UnbalancedLayerWidens(g: Grammar, s: Subject)
    requires g.lib.Valid() && g.scope.diags.None? && !s.udp && s.alive
    ensures Compiles(g, Pool(BASE, "")) && !Admits(g, Pool(BASE, ""), s)
    ensures ParseCond(g, CHILD) == None
    ensures var joined := NarrowPool(Pool(BASE, ""), Pool(CHILD, "")); Compiles(g, joined) && Admits(g, joined, s)
  {
    BaseShuts(g, s);
    ChildFails(g);
    JoinedOpens(g, s);
    assert TrimSpace(BASE) == BASE by { SolidTrims(BASE); }
    JoinedPool();
  }

  lemma BlankParses(g: Grammar)
    ensures ParseCond(g, "") == Some(None)
  {
    assert TrimSpace("") == "";
  }

  lemma JoinedPool()
    requires TrimSpace(BASE) != "" && TrimSpace(CHILD) != ""
    ensures NarrowPool(Pool(BASE, ""), Pool(CHILD, "")) == Pool(Joined(BASE, CHILD, "and"), "")
  {
    assert TrimSpace("") == "";
  }

  lemma ShortText(s: string)
    ensures Utf8Len(s) <= 4 * |s|
  {}

  // ---- an exclude that reads as two parts without being one ----

  const PART := "dead" + (")" + (" " + ("and" + (" " + ("(" + "alive")))))

  const LAST := [OPEN] + ([Token(Word, "alive")] + ([CLOSE] + []))
  const MIDDLE := [OPEN] + ([Token(Word, "dead")] + ([CLOSE] + ([Token(Word, "and")] + LAST)))
  const PART_TOKENS := [Token(Word, "dead")] + ([CLOSE] + ([Token(Word, "and")] + ([OPEN] + [Token(Word, "alive")])))
  const DEAD_AND_ALIVE := AndNode([BoolNode("dead"), BoolNode("alive")])

  lemma PartLexes(lib: Library)
    requires lib.Valid()
    ensures Lex(lib, PART) == Some(PART_TOKENS)
  {
    PlainWord(lib, "dead");
    PlainWord(lib, "alive");
    LexWord(lib, "dead");
    LexWord(lib, "alive");
    OperatorLexes(lib, "and", "alive", [Token(Word, "alive")]);
    ClosedLexes(lib, "dead", [Token(Word, "dead")], " " + ("and" + (" " + (['('] + "alive"))),
      [Token(Word, "and")] + ([OPEN] + [Token(Word, "alive")]));
  }

  lemma PartFails(g: Grammar)
    requires g.lib.Valid() && g.scope.diags.None?
    ensures ParseCond(g, PART) == None
  {
    PartLexes(g.lib);
    var rest := [CLOSE] + ([Token(Word, "and")] + ([OPEN] + [Token(Word, "alive")]));
    FlagParses(g, "dead", rest, 0);
    assert Head(rest) == CLOSE;
    assert ParseAndMore(g, rest, 0) == Ok([], rest) && ParseOrMore(g, rest, 0) == Ok([], rest);
    assert Solid(PART);
    SolidTrims(PART);
    ParseCondBy(g, PART);
  }

  /** The tokens behind the or are one operand: two in an and. */
  lemma MiddleParses(g: Grammar)
    requires g.lib.Valid() && g.scope.diags.None?
    ensures ParseAnd(g, MIDDLE, 0) == Ok(DEAD_AND_ALIVE, [])
  {
    FlagGroup(g, "dead", [Token(Word, "and")] + LAST);
    FlagGroup(g, "alive", []);
    KeywordAhead(g, "and", LAST);
    assert Head([]) == END && ParseAndMore(g, [], 0) == Ok([], []);
    assert ParseAndMore(g, [Token(Word, "and")] + LAST, 0) == Ok([BoolNode("alive")] + [], []);
    assert [BoolNode("dead")] + ([BoolNode("alive")] + []) == [BoolNode("dead"), BoolNode("alive")];
  }

  lemma PartJoins(g: Grammar)
    requires g.lib.Valid() && g.scope.diags.None?
    ensures ParseOr(g, JoinedTokens([Token(Word, "udp")], PART_TOKENS, "or"), 0)
      == Ok(OrNode([BoolNode("udp"), DEAD_AND_ALIVE]), [])
  {
    var ts, tail := JoinedTokens([Token(Word, "udp")], PART_TOKENS, "or"), [Token(Word, "or")] + MIDDLE;
    assert ts == [OPEN] + ([Token(Word, "udp")] + ([CLOSE] + tail));
    FlagGroup(g, "udp", tail);
    KeywordAhead(g, "or", MIDDLE);
    MiddleParses(g);
    assert Head([]) == END && ParseOrMore(g, [], 0) == Ok([], []);
    assert ParseAndMore(g, tail, 0) == Ok([], tail);
    assert ParseOrMore(g, tail, 0) == Ok([DEAD_AND_ALIVE] + [], []);
    assert [BoolNode("udp")] + ([DEAD_AND_ALIVE] + []) == [BoolNode("udp"), DEAD_AND_ALIVE];
  }

  lemma PartIsShort(text: string)
    requires text == Joined(BASE, PART, "or")
    ensures Utf8Len(text) <= MAX_CONDITION_LENGTH
  {
    ShortText(text);
    assert |PART| == 16;
    assert |text| == 6 + |BASE| + |PART| + |"or"|;
  }

  /** Joined by or, two conditions may be read where the second text is none: the
      shape of the whole does not tell that its parts parse. */
  lemma PairWithoutParts(g: Grammar)
    requires g.lib.Valid() && g.scope.diags.None?
    ensures ParseCond(g, BASE) == Some(Some(BoolNode("udp"))) && ParseCond(g, PART) == None
    ensures ParseCond(g, Joined(BASE, PART, "or")) == Some(Some(JoinNode("or", BoolNode("udp"), DEAD_AND_ALIVE)))
  {
    BaseParses(g);
    PartFails(g);
    PartLexes(g.lib);
    ChildLexes(g.lib);
    JoinedTrims(BASE, PART, "or");
    JoinedLexes(g.lib, BASE, [Token(Word, "udp")], PART, PART_TOKENS, "or");
    PartJoins(g);
    PartIsShort(Joined(BASE, PART, "or"));
    ParseCondBy(g, Joined(BASE, PART, "or"));
  }
}
