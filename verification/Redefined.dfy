/** Why a layer may not redefine a tag that a pool under it reads: pools are joined
    as text and tags are merged by name, so the base's pool is read anew with the
    child's tag, and may then admit what it kept out. */
module Redefined {
  import opened Basics
  import opened Text
  import opened Lexer
  import opened Cond
  import opened Parser
  import opened Pool
  import opened Builder
  import opened RoundTrip
  import opened Unbalanced
  import opened Layers

  const GOOD := "tag" + ("(" + ("good" + ")"))
  const GOOD_TOKENS := [Token(Word, "tag")] + ([OPEN] + ([Token(Word, "good")] + [CLOSE]))

  /** The base keeps out what is not good, and good is to speak UDP; to the child
      good is to be alive. */
  const BASE_LAYER := Layer(Pool(GOOD, ""), map["good" := "udp"], {})
  const CHILD_LAYER := Layer(Pool("", ""), map["good" := "alive"], {})

  lemma GoodLexes(lib: Library)
    requires lib.Valid()
    ensures Lex(lib, GOOD) == Some(GOOD_TOKENS)
  {
    PlainWord(lib, "tag");
    PlainWord(lib, "good");
    LexWord(lib, "tag");
    LexWord(lib, "good");
    ClosedLexes(lib, "good", [Token(Word, "good")], "", []);
    assert "good" + ([')'] + "") == "good" + ")" && [CLOSE] + [] == [CLOSE];
    LexPunct(lib, '(', "good" + ")");
    LexThen(lib, "tag", [Token(Word, "tag")], ['('] + ("good" + ")"), [OPEN] + ([Token(Word, "good")] + [CLOSE]));
  }

  lemma GoodTokensParse(g: Grammar)
    requires g.lib.Valid() && g.scope.diags.None? && g.scope.tags == Some({"good"})
    ensures ParseOr(g, GOOD_TOKENS, 0) == Ok(TagNode("good"), [])
  {
    var c := Clause(false, "tag", "", ["good"], false);
    PlainWord(g.lib, "good");
    assert GoodClause(g, c);
    ClauseParses(g, c, [], 0);
    assert ClauseTokens(g.lib, c) + [] == GOOD_TOKENS;
    assert Head([]) == END;
    assert ParseAndMore(g, [], 0) == Ok([], []) && ParseOrMore(g, [], 0) == Ok([], []);
  }

  lemma GoodIsShort()
    ensures TrimSpace(GOOD) == GOOD != "" && Utf8Len(GOOD) <= MAX_CONDITION_LENGTH
  {
    assert Solid(GOOD);
    SolidTrims(GOOD);
    ShortText(GOOD);
    assert |GOOD| == 9;
  }

  lemma GoodParses(g: Grammar)
    requires g.lib.Valid() && g.scope.diags.None? && g.scope.tags == Some({"good"})
    ensures ParseCond(g, GOOD) == Some(Some(TagNode("good")))
  {
    GoodLexes(g.lib);
    GoodTokensParse(g);
    GoodIsShort();
    ParseCondBy(g, GOOD);
  }

  lemma FlagTextParses(g: Grammar, field: string)
    requires g.lib.Valid() && g.scope.diags.None? && IsFlag(field)
    ensures ParseCond(g, field) == Some(Some(BoolNode(field)))
  {
    PlainWord(g.lib, field);
    LexWord(g.lib, field);
    FlagAlone(g, field, 0);
    assert Solid(field);
    SolidTrims(field);
    ShortText(field);
    ParseCondBy(g, field);
  }

  lemma FlagHolds(lib: Library, field: string, s: Subject)
    requires lib.Valid() && IsFlag(field)
    ensures Holds(lib, field, s) <==> BoolOf(s, field) == Yes
  {
    FlagTextParses(Grammar(lib, TAG_SCOPE), field);
  }

  lemma MergedLayers()
    ensures Merged([BASE_LAYER]) == BASE_LAYER
    ensures Merged([BASE_LAYER, CHILD_LAYER]) == Layer(Pool(GOOD, ""), map["good" := "alive"], {})
  {
    assert TrimSpace("") == "";
    assert [BASE_LAYER][..0] == [] && [BASE_LAYER, CHILD_LAYER][..1] == [BASE_LAYER];
    assert Solid(GOOD);
    SolidTrims(GOOD);
  }

  lemma GoodAdmits(lib: Library, layer: Layer, s: Subject)
    requires lib.Valid() && layer.pool == Pool(GOOD, "") && layer.tags.Keys == {"good"}
    ensures Compiles(GrammarOf(lib, layer), layer.pool)
    ensures Admits(GrammarOf(lib, layer), layer.pool, Seen(lib, layer, s)) == Holds(lib, layer.tags["good"], s)
  {
    GoodParses(GrammarOf(lib, layer));
    BlankParses(GrammarOf(lib, layer));
  }

  /** The base keeps a node without UDP out; its child, which adds nothing to the
      pool but gives the tag another meaning, admits it while it is alive. */
  lemma RedefinedTagWidens(lib: Library, s: Subject)
    requires lib.Valid() && s.alive && !s.udp
    ensures var base, whole := Merged([BASE_LAYER]), Merged([BASE_LAYER, CHILD_LAYER]);
      && Compiles(GrammarOf(lib, base), base.pool) && !Admits(GrammarOf(lib, base), base.pool, Seen(lib, base, s))
      && Compiles(GrammarOf(lib, whole), whole.pool) && Admits(GrammarOf(lib, whole), whole.pool, Seen(lib, whole, s))
    ensures EachCompiles(lib, [BASE_LAYER, CHILD_LAYER]) && !Untouched(lib, [BASE_LAYER, CHILD_LAYER])
  {
    MergedLayers();
    FlagHolds(lib, "udp", s);
    FlagHolds(lib, "alive", s);
    GoodAdmits(lib, Merged([BASE_LAYER]), s);
    GoodAdmits(lib, Merged([BASE_LAYER, CHILD_LAYER]), s);
    GoodIsRead(lib);
  }

  lemma GoodIsRead(lib: Library)
    requires lib.Valid()
    ensures EachCompiles(lib, [BASE_LAYER, CHILD_LAYER]) && !Untouched(lib, [BASE_LAYER, CHILD_LAYER])
  {
    var layers := [BASE_LAYER, CHILD_LAYER];
    MergedLayers();
    assert [BASE_LAYER][..0] == [] && layers[..1] == [BASE_LAYER];
    assert BASE_LAYER.tags.Keys == {"good"};
    GoodParses(GrammarOf(lib, BASE_LAYER));
    BlankParses(GrammarOf(lib, BASE_LAYER));
    BlankParses(GrammarOf(lib, Merged(layers)));
    assert EachCompiles(lib, []) && EachCompiles(lib, [BASE_LAYER]);
    assert "good" in ReadSoFar(lib, [BASE_LAYER]) && "good" in CHILD_LAYER.tags.Keys;
  }
}
