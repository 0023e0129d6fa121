/** Printer then parser is the identity on well formed forms: the printed text
    of each clause lexes to the tokens that spell it, those tokens parse to the
    clause's node under the join, and the node reads back as the clause. Where
    a pattern ends in a backslash, printing loses it. */
module RoundTrip {
  import opened Basics
  import opened Text
  import opened Lexer
  import opened Cond
  import opened Parser
  import opened Pool
  import opened Builder

  // ---- what each clause prints as ----

  function QuoteToken(lib: Library, v: string): Token {
    if v != "" && !IsBuilderKeyword(lib.ToLower(v)) && lib.AllWord(v) then Token(Word, v) else Token(Str, v)
  }

  function ListTokens(lib: Library, values: seq<string>): seq<Token> {
    if values == [] then []
    else if |values| == 1 then [QuoteToken(lib, values[0])]
    else [QuoteToken(lib, values[0])] + ([Token(Punct, ",")] + ListTokens(lib, values[1..]))
  }

  function OpTokens(op: string): seq<Token> { [Token(Op, op)] }

  function ClauseTokens(lib: Library, c: Clause): seq<Token> {
    var first := First(c.values);
    if IsReference(c.field) then [Token(Word, c.field)] + ([OPEN] + ([QuoteToken(lib, first)] + [CLOSE]))
    else if c.field == "diag" then [Token(Word, first)] + [Token(Word, c.op)]
    else if c.op == "" then [Token(Word, c.field)]
    else [Token(Word, c.field)] + OperandTokens(lib, c)
  }

  function OperandTokens(lib: Library, c: Clause): seq<Token> {
    var first := First(c.values);
    if c.op == "~" then OpTokens("~") + [Token(Regex, PatternSource(first, c.ignoreCase))]
    else if c.op == "in" then [Token(Word, "in")] + ([Token(Punct, "[")] + (ListTokens(lib, c.values) + [Token(Punct, "]")]))
    else if c.field == "latency" then OpTokens(c.op) + [Token(Word, first)]
    else OpTokens(c.op) + [QuoteToken(lib, first)]
  }

  function ClauseNode(c: Clause): CondNode {
    var first := First(c.values);
    if c.field == "tag" then TagNode(first)
    else if IsReference(c.field) then CheckNode(first, c.field == "passes")
    else if c.field == "diag" then DiagNode(first, c.op == "ok")
    else if c.op == "" then BoolNode(c.field)
    else if c.op == "~" then MatchNode(c.field, PatternSource(first, c.ignoreCase))
    else if c.field == "latency" then NumberNode(c.op, if Atoi(first).Some? then Atoi(first).value else 0)
    else TextNode(c.field, c.op, c.values)
  }

  function PartNode(c: Clause): CondNode { if c.not then NotNode(ClauseNode(c)) else ClauseNode(c) }

  function PartTokens(lib: Library, c: Clause): seq<Token> {
    if c.not then [Token(Word, "not")] + ClauseTokens(lib, c) else ClauseTokens(lib, c)
  }

  // ---- the lexer on printed pieces ----

  predicate IsPlain(s: string) { s != "" && forall i :: 0 <= i < |s| ==> IsAsciiLower(s[i]) || s[i] == '.' }

  lemma PlainWord(lib: Library, s: string)
    requires lib.Valid() && IsPlain(s)
    ensures lib.AllWord(s) && lib.ToLower(s) == s
  {}

  lemma NodeFieldIsPlain(field: string)
    requires FieldOf(field).Some? && !FieldOf(field).value.network
    ensures IsPlain(field) && field != "not" && !IsReference(field) && field != "diag"
    ensures |field| == 3 ==> field == "udp"
  {
    if field == "name" || field == "provider" || field == "type" || field == "server" {
    } else if field == "country" || field == "exit.country" || field == "entry.country" {
    } else if field == "udp" || field == "alive" || field == "dead" {
    } else {
      assert field == "measured" || field == "current" || field == "latency";
    }
  }

  lemma NetFieldIsPlain(field: string)
    requires FieldOf(field).Some? && FieldOf(field).value.network
    ensures IsPlain(field) && |field| > 6 && !IsReference(field) && field != "diag"
  {
    if field == "network.kind" || field == "network.transport" {
    } else {
      assert field == "network.portal" || field == "metered";
    }
  }

  lemma NotNot(lib: Library, field: string)
    requires lib.Valid() && IsPlain(field) && (|field| != 3 || field[0] != 'n')
    ensures !lib.EqualFold(field, "not")
  {
    if |field| == 3 {
      assert "not"[0] == 'n' && lib.fold('n') == 'n' && lib.fold(field[0]) == field[0];
    }
  }

  /** A field's name is one word, its own lower case, and no keyword. */
  lemma FieldIsPlain(lib: Library, field: string)
    requires lib.Valid() && (FieldOf(field).Some? || IsReference(field))
    ensures field != "" && lib.AllWord(field) && lib.ToLower(field) == field && !lib.EqualFold(field, "not")
    ensures FieldOf(field).Some? ==> !IsReference(field) && field != "diag"
  {
    if FieldOf(field).Some? {
      if FieldOf(field).value.network {
        NetFieldIsPlain(field);
      } else {
        NodeFieldIsPlain(field);
      }
    }
    PlainWord(lib, field);
    NotNot(lib, field);
  }

  lemma LexSpaced(lib: Library, a: string, ta: seq<Token>, rest: string, tr: seq<Token>)
    requires lib.Valid() && Lex(lib, a) == Some(ta) && Lex(lib, rest) == Some(tr)
    ensures Lex(lib, Spaced(a, rest)) == Some(ta + tr)
  {
    LexAfterSpace(lib, " ", rest);
    LexThen(lib, a, ta, " " + rest, tr);
  }

  lemma LexQuoted(lib: Library, c: char, v: string)
    requires (c == '\'' || c == '"') && c !in v
    ensures Lex(lib, [c] + (v + [c])) == Some([Token(Str, v)])
  {
    var s := [c] + (v + [c]);
    QuoteScan(lib, c, v);
    assert s[|v| + 2..] == "" && Lex(lib, "") == Some([]);
    assert [Token(Str, v)] + [] == [Token(Str, v)];
  }

  lemma QuoteScan(lib: Library, c: char, v: string)
    requires (c == '\'' || c == '"') && c !in v
    ensures ScanOne(lib, [c] + (v + [c])) == Take(Token(Str, v), |v| + 2)
  {
    var s := [c] + (v + [c]);
    assert s[1..] == v + [c];
    FirstIndex(s[1..], c, |v|);
    assert s[1..|v| + 1] == v;
  }

  lemma LexQuote(lib: Library, v: string)
    requires lib.Valid() && Quotable(v)
    ensures QuoteValue(lib, v).Some? && Lex(lib, QuoteValue(lib, v).value) == Some([QuoteToken(lib, v)])
    ensures Solid(QuoteValue(lib, v).value)
  {
    if v != "" && !IsBuilderKeyword(lib.ToLower(v)) && lib.AllWord(v) {
      LexWord(lib, v);
    } else if '\'' !in v {
      LexQuoted(lib, '\'', v);
      assert "'" + (v + "'") == ['\''] + (v + ['\'']);
    } else {
      LexQuoted(lib, '"', v);
      assert "\"" + (v + "\"") == ['"'] + (v + ['"']);
    }
  }

  lemma LexOp(lib: Library, op: string)
    requires IsNumberOp(op) || op == "~"
    ensures Lex(lib, op) == Some(OpTokens(op))
  {
    if op == "<=" || op == ">=" || op == "!=" {
      assert op[2..] == "" && op == [op[0], '='];
    } else {
      assert op[1..] == "" && op == [op[0]];
    }
    assert Lex(lib, "") == Some([]);
    assert OpTokens(op) + [] == OpTokens(op);
  }

  lemma Cons(t: Token, rest: seq<Token>)
    ensures Head([t] + rest) == t && Tail([t] + rest) == rest
  {}

  /** A pattern the closing slash of which is where it was meant to be. */
  lemma ScanStep(head: string, c: char, more: string)
    requires (head == "\\/" && c == '/') || (head == [c] && c != '/' && (c == '\\' ==> more == "" || more[0] != '/'))
    ensures ScanPattern(head + more) == After([c], |head|, ScanPattern(more))
  {
    assert (head + more)[|head|..] == more;
  }

  lemma {:induction false} BackslashTakesSlash(rest: string)
    ensures ScanPattern("\\" + ("/" + rest)) == After("/", 2, ScanPattern(rest))
  {
    assert ("\\" + ("/" + rest))[2..] == rest;
  }

  /** An escaped pattern never begins with a slash of its own. */
  lemma EscapedHead(p: string, tail: string)
    requires p != ""
    ensures EscapeSlashes(p) + tail != "" && (EscapeSlashes(p) + tail)[0] != '/'
  {}

  lemma EscapeStep(p: string, tail: string)
    requires p != "" && p != "\\"
    ensures ScanPattern(EscapeSlashes(p) + tail)
      == After([p[0]], if p[0] == '/' then 2 else 1, ScanPattern(EscapeSlashes(p[1..]) + tail))
  {
    var head := if p[0] == '/' then "\\/" else [p[0]];
    if p[1..] != "" {
      EscapedHead(p[1..], tail);
    } else {
      assert p[0] != '\\' by { assert |p| == 1; assert p == [p[0]]; }
    }
    ScanStep(head, p[0], EscapeSlashes(p[1..]) + tail);
    Assoc(head, EscapeSlashes(p[1..]), tail);
  }

  /** Escaping is undone by the lexer when the pattern does not end in a backslash ... */
  lemma {:induction false} EscapeRoundTrip(p: string, rest: string)
    requires !EndsInBackslash(p)
    ensures ScanPattern(EscapeSlashes(p) + ("/" + rest)) == Some((p, |EscapeSlashes(p)| + 1))
    decreases |p|
  {
    if p == "" {
      assert EscapeSlashes(p) + ("/" + rest) == "/" + rest;
    } else {
      EscapeRoundTrip(p[1..], rest);
      EscapeStep(p, "/" + rest);
      assert [p[0]] + p[1..] == p;
    }
  }

  /** ... and never when it does: the backslash takes the closing slash for an
      escaped one, which then stands where the backslash was. */
  lemma {:induction false} EscapeLosesBackslash(p: string, rest: string)
    requires EndsInBackslash(p)
    ensures var r := ScanPattern(EscapeSlashes(p) + ("/" + rest)); r.None? || r.value.0 != p
    ensures var r := ScanPattern(EscapeSlashes(p) + ("/" + rest)); r.Some? ==> |r.value.0| >= |p| && r.value.0[|p| - 1] == '/'
    decreases |p|
  {
    if p == "\\" {
      BackslashTakesSlash(rest);
      assert EscapeSlashes(p) == "\\" + EscapeSlashes("") == "\\";
    } else {
      EscapeLosesBackslash(p[1..], rest);
      EscapeStep(p, "/" + rest);
    }
  }

  lemma LexPatternText(lib: Library, p: string, ignoreCase: bool)
    requires lib.Valid() && !EndsInBackslash(p)
    ensures Lex(lib, PatternText(p, ignoreCase)) == Some([Token(Regex, PatternSource(p, ignoreCase))])
  {
    var flag := if ignoreCase then "i" else "";
    var text := PatternText(p, ignoreCase);
    EscapeRoundTrip(p, flag);
    var n := |EscapeSlashes(p)| + 1;
    assert text[1..] == EscapeSlashes(p) + ("/" + flag);
    assert text[n + 1..] == flag;
    FlagRun(lib, flag);
    assert flag[..|flag|] == flag;
    assert text[|text|..] == "";
    assert ScanOne(lib, text) == Take(Token(Regex, PatternSource(p, ignoreCase)), |text|);
    assert [Token(Regex, PatternSource(p, ignoreCase))] + [] == [Token(Regex, PatternSource(p, ignoreCase))];
  }

  lemma FlagRun(lib: Library, flag: string)
    requires lib.Valid() && (flag == "i" || flag == "")
    ensures LetterRun(lib, flag) == |flag|
  {
    if flag == "i" {
      assert lib.letter('i') && flag[1..] == "";
    }
  }

  lemma QuoteOne(lib: Library, values: seq<string>)
    requires |values| == 1 && QuoteValue(lib, values[0]).Some?
    ensures QuoteAll(lib, values) == Some([QuoteValue(lib, values[0]).value])
  {
    assert values[1..] == [] && QuoteAll(lib, []) == Some([]);
    assert [QuoteValue(lib, values[0]).value] + [] == [QuoteValue(lib, values[0]).value];
  }

  lemma JoinCons(part: string, rest: seq<string>, sep: string)
    requires rest != []
    ensures JoinParts([part] + rest, sep) == part + (sep + JoinParts(rest, sep))
  {
    assert ([part] + rest)[1..] == rest;
  }

  lemma CommaPrints(lib: Library, q: string, token: Token, text: string, tokens: seq<Token>)
    requires lib.Valid() && Lex(lib, q) == Some([token]) && Lex(lib, text) == Some(tokens)
    ensures Lex(lib, q + (", " + text)) == Some([token] + ([Token(Punct, ",")] + tokens))
  {
    LexAfterSpace(lib, " ", text);
    LexPunct(lib, ',', " " + text);
    LexThen(lib, q, [token], [','] + (" " + text), [Token(Punct, ",")] + tokens);
    assert ", " + text == [','] + (" " + text);
  }

  lemma {:induction false} LexList(lib: Library, values: seq<string>)
    requires lib.Valid() && values != [] && forall i :: 0 <= i < |values| ==> Quotable(values[i])
    ensures QuoteAll(lib, values).Some? && QuoteAll(lib, values).value != []
    ensures Lex(lib, JoinParts(QuoteAll(lib, values).value, ", ")) == Some(ListTokens(lib, values))
    decreases |values|
  {
    LexQuote(lib, values[0]);
    var q := QuoteValue(lib, values[0]).value;
    if |values| == 1 {
      QuoteOne(lib, values);
    } else {
      LexList(lib, values[1..]);
      var rest := QuoteAll(lib, values[1..]).value;
      CommaPrints(lib, q, QuoteToken(lib, values[0]), JoinParts(rest, ", "), ListTokens(lib, values[1..]));
      JoinCons(q, rest, ", ");
    }
  }

  // ---- text that trimming leaves alone ----

  predicate Solid(s: string) { s != "" && !IsSpace(s[0]) && !IsSpace(s[|s| - 1]) }

  lemma SolidJoin(a: string, mid: string, b: string)
    requires Solid(a) && Solid(b)
    ensures Solid(a + (mid + b))
  {}

  lemma SolidTrims(s: string)
    requires Solid(s)
    ensures TrimSpace(s) == s
  {}

  lemma WordSolid(lib: Library, w: string)
    requires lib.Valid() && w != "" && lib.AllWord(w)
    ensures Solid(w)
  {
    assert lib.Word(w[0]) && lib.Word(w[|w| - 1]);
  }

  // ---- one clause ----

  ghost predicate Prints(lib: Library, text: Option<string>, tokens: seq<Token>) {
    text.Some? && Solid(text.value) && Lex(lib, text.value) == Some(tokens)
  }

  lemma SpacedPrints(lib: Library, a: string, ta: seq<Token>, b: string, tb: seq<Token>)
    requires lib.Valid() && Prints(lib, Some(a), ta) && Prints(lib, Some(b), tb)
    ensures Prints(lib, Some(Spaced(a, b)), ta + tb)
  {
    LexSpaced(lib, a, ta, b, tb);
    SolidJoin(a, " ", b);
  }

  lemma WordPrints(lib: Library, w: string)
    requires lib.Valid() && w != "" && lib.AllWord(w)
    ensures Prints(lib, Some(w), [Token(Word, w)])
  {
    LexWord(lib, w);
    WordSolid(lib, w);
  }

  lemma OpPrints(lib: Library, op: string)
    requires IsNumberOp(op) || op == "~"
    ensures Prints(lib, Some(op), OpTokens(op))
  {
    LexOp(lib, op);
  }

  lemma ReferencePrints(lib: Library, field: string, v: string)
    requires lib.Valid() && IsReference(field) && Quotable(v)
    ensures QuoteValue(lib, v).Some?
    ensures Prints(lib, Some(field + ("(" + (QuoteValue(lib, v).value + ")"))),
      [Token(Word, field)] + ([OPEN] + ([QuoteToken(lib, v)] + [CLOSE])))
  {
    FieldIsPlain(lib, field);
    WordPrints(lib, field);
    LexQuote(lib, v);
    CallPrints(lib, field, QuoteValue(lib, v).value, QuoteToken(lib, v));
  }

  lemma {:induction false} CallPrints(lib: Library, field: string, q: string, token: Token)
    requires lib.Valid() && Prints(lib, Some(field), [Token(Word, field)]) && Lex(lib, q) == Some([token])
    ensures Prints(lib, Some(field + ("(" + (q + ")"))), [Token(Word, field)] + ([OPEN] + ([token] + [CLOSE])))
  {
    ClosedLexes(lib, q, [token], "", []);
    assert [CLOSE] + [] == [CLOSE] && [')'] + "" == ")";
    LexPunct(lib, '(', q + ")");
    LexThen(lib, field, [Token(Word, field)], ['('] + (q + ")"), [OPEN] + ([token] + [CLOSE]));
    Assoc("(", q, ")");
    SolidJoin(field, "(" + q, ")");
  }

  lemma {:induction false} ListPrints(lib: Library, values: seq<string>)
    requires lib.Valid() && values != [] && forall i :: 0 <= i < |values| ==> Quotable(values[i])
    ensures QuoteAll(lib, values).Some?
    ensures Prints(lib, Some("[" + (JoinParts(QuoteAll(lib, values).value, ", ") + "]")),
      [Token(Punct, "[")] + (ListTokens(lib, values) + [Token(Punct, "]")]))
  {
    LexList(lib, values);
    var text := JoinParts(QuoteAll(lib, values).value, ", ");
    LexPunct(lib, ']', "");
    assert [']'] + "" == "]" && [Token(Punct, "]")] + [] == [Token(Punct, "]")];
    LexThen(lib, text, ListTokens(lib, values), "]", [Token(Punct, "]")]);
    LexPunct(lib, '[', text + "]");
    assert "[" + (text + "]") == ['['] + (text + "]");
  }

  lemma CanonicalWord(lib: Library, v: string)
    requires lib.Valid() && IsCanonical(v)
    ensures v != "" && lib.AllWord(v)
  {
    var n := Atoi(v).value;
    if n < 0 {
      assert v == "-" + DigitsOf(-n);
    } else {
      assert v == DigitsOf(n);
    }
    assert forall c: char :: IsAsciiDigit(c) ==> lib.digit(c);
  }

  lemma MatchPrints(lib: Library, field: string, p: string, ignoreCase: bool)
    requires lib.Valid() && field != "" && lib.AllWord(field) && !EndsInBackslash(p)
    ensures Prints(lib, Some(Spaced(field, Spaced("~", PatternText(p, ignoreCase)))),
      [Token(Word, field)] + (OpTokens("~") + [Token(Regex, PatternSource(p, ignoreCase))]))
  {
    LexPatternText(lib, p, ignoreCase);
    var text, pattern := PatternText(p, ignoreCase), [Token(Regex, PatternSource(p, ignoreCase))];
    assert Solid(text) by { assert text[0] == '/' && (text[|text| - 1] == '/' || text[|text| - 1] == 'i'); }
    OpPrints(lib, "~");
    SpacedPrints(lib, "~", OpTokens("~"), text, pattern);
    WordPrints(lib, field);
    SpacedPrints(lib, field, [Token(Word, field)], Spaced("~", text), OpTokens("~") + pattern);
  }

  lemma {:induction false} InPrints(lib: Library, field: string, values: seq<string>)
    requires lib.Valid() && field != "" && lib.AllWord(field)
    requires values != [] && forall i :: 0 <= i < |values| ==> Quotable(values[i])
    ensures QuoteAll(lib, values).Some?
    ensures Prints(lib, Some(Spaced(field, Spaced("in", "[" + (JoinParts(QuoteAll(lib, values).value, ", ") + "]")))),
      [Token(Word, field)] + ([Token(Word, "in")] + ([Token(Punct, "[")] + (ListTokens(lib, values) + [Token(Punct, "]")]))))
  {
    ListPrints(lib, values);
    var list := "[" + (JoinParts(QuoteAll(lib, values).value, ", ") + "]");
    var tokens := [Token(Punct, "[")] + (ListTokens(lib, values) + [Token(Punct, "]")]);
    PlainWord(lib, "in");
    WordPrints(lib, "in");
    SpacedPrints(lib, "in", [Token(Word, "in")], list, tokens);
    WordPrints(lib, field);
    SpacedPrints(lib, field, [Token(Word, field)], Spaced("in", list), [Token(Word, "in")] + tokens);
  }

  lemma OperationPrints(lib: Library, field: string, op: string, text: string, token: Token)
    requires lib.Valid() && field != "" && lib.AllWord(field) && IsNumberOp(op) && Prints(lib, Some(text), [token])
    ensures Prints(lib, Some(Spaced(field, Spaced(op, text))), [Token(Word, field)] + (OpTokens(op) + [token]))
  {
    OpPrints(lib, op);
    SpacedPrints(lib, op, OpTokens(op), text, [token]);
    WordPrints(lib, field);
    SpacedPrints(lib, field, [Token(Word, field)], Spaced(op, text), OpTokens(op) + [token]);
  }

  lemma NumberIsLatency(field: string)
    requires FieldOf(field).Some?
    ensures FieldOf(field).value.kind == NumberField <==> field == "latency"
  {}

  lemma ComparisonPrints(lib: Library, c: Clause)
    requires lib.Valid() && FieldOf(c.field).Some? && GoodComparison(lib, FieldOf(c.field).value.kind, c)
    ensures Prints(lib, ClauseText(lib, c), ClauseTokens(lib, c))
  {
    FieldIsPlain(lib, c.field);
    NumberIsLatency(c.field);
    var kind := FieldOf(c.field).value.kind;
    if kind == BoolField {
      WordPrints(lib, c.field);
    } else if kind == NumberField {
      CanonicalWord(lib, c.values[0]);
      WordPrints(lib, c.values[0]);
      OperationPrints(lib, c.field, c.op, c.values[0], Token(Word, c.values[0]));
    } else if c.op == "~" {
      MatchPrints(lib, c.field, c.values[0], c.ignoreCase);
    } else if c.op == "in" {
      InPrints(lib, c.field, c.values);
    } else {
      LexQuote(lib, c.values[0]);
      OperationPrints(lib, c.field, c.op, QuoteValue(lib, c.values[0]).value, QuoteToken(lib, c.values[0]));
    }
  }

  lemma ClausePrints(g: Grammar, c: Clause)
    requires g.lib.Valid() && GoodClause(g, c)
    ensures Prints(g.lib, ClauseText(g.lib, c), ClauseTokens(g.lib, c))
  {
    if IsReference(c.field) {
      ReferencePrints(g.lib, c.field, c.values[0]);
    } else if c.field == "diag" {
      WordPrints(g.lib, c.values[0]);
      PlainWord(g.lib, c.op);
      WordPrints(g.lib, c.op);
      SpacedPrints(g.lib, c.values[0], [Token(Word, c.values[0])], c.op, [Token(Word, c.op)]);
    } else {
      ComparisonPrints(g.lib, c);
    }
  }

  lemma PartPrints(g: Grammar, c: Clause)
    requires g.lib.Valid() && GoodClause(g, c)
    ensures Prints(g.lib, PartText(g.lib, c), PartTokens(g.lib, c))
  {
    ClausePrints(g, c);
    if c.not {
      PlainWord(g.lib, "not");
      WordPrints(g.lib, "not");
      SpacedPrints(g.lib, "not", [Token(Word, "not")], ClauseText(g.lib, c).value, ClauseTokens(g.lib, c));
    }
  }

  // ---- the parser on printed pieces ----

  lemma ListStep(v: Token, inner: seq<Token>)
    requires IsValue(v) && ParseList(inner).Ok?
    ensures ParseList([v] + ([Token(Punct, ",")] + inner)) == Ok([v.text] + ParseList(inner).value, ParseList(inner).rest)
  {
    Cons(v, [Token(Punct, ",")] + inner);
    Cons(Token(Punct, ","), inner);
  }

  lemma ListEnd(v: Token, rest: seq<Token>)
    requires IsValue(v)
    ensures ParseList([v] + ([Token(Punct, "]")] + rest)) == Ok([v.text], rest)
  {
    Cons(v, [Token(Punct, "]")] + rest);
    Cons(Token(Punct, "]"), rest);
  }

  lemma {:induction false} ListParses(lib: Library, values: seq<string>, rest: seq<Token>)
    requires values != []
    ensures ParseList(ListTokens(lib, values) + ([Token(Punct, "]")] + rest)) == Ok(values, rest)
    decreases |values|
  {
    var close := [Token(Punct, "]")] + rest;
    var v := QuoteToken(lib, values[0]);
    if |values| == 1 {
      ListEnd(v, rest);
      assert [values[0]] == values;
    } else {
      ListParses(lib, values[1..], rest);
      var inner := ListTokens(lib, values[1..]);
      ListStep(v, inner + close);
      Assoc([v], [Token(Punct, ",")] + inner, close);
      Assoc([Token(Punct, ",")], inner, close);
      assert [values[0]] + values[1..] == values;
    }
  }

  lemma ReferenceParses(g: Grammar, c: Clause, rest: seq<Token>)
    requires g.lib.Valid() && IsReference(c.field) && GoodClause(g, c)
    ensures ParsePredicate(g, ClauseTokens(g.lib, c) + rest) == Ok(ClauseNode(c), rest)
  {
    FieldIsPlain(g.lib, c.field);
    var ts, v := ClauseTokens(g.lib, c) + rest, QuoteToken(g.lib, c.values[0]);
    Assoc([Token(Word, c.field)], [OPEN] + ([v] + [CLOSE]), rest);
    Assoc([OPEN], [v] + [CLOSE], rest);
    Assoc([v], [CLOSE], rest);
    Cons(Token(Word, c.field), [OPEN] + ([v] + ([CLOSE] + rest)));
    Cons(OPEN, [v] + ([CLOSE] + rest));
    Cons(v, [CLOSE] + rest);
    Cons(CLOSE, rest);
    assert ParseCall(Tail(ts)) == Ok(v.text, rest);
  }

  lemma KeywordIs(lib: Library, w: string)
    ensures IsKeyword(lib, Token(Word, w), w)
  {}

  lemma DiagParses(g: Grammar, c: Clause, rest: seq<Token>)
    requires g.lib.Valid() && c.field == "diag" && GoodClause(g, c)
    ensures ParsePredicate(g, ClauseTokens(g.lib, c) + rest) == Ok(ClauseNode(c), rest)
  {
    var ts := ClauseTokens(g.lib, c) + rest;
    Assoc([Token(Word, c.values[0])], [Token(Word, c.op)], rest);
    Cons(Token(Word, c.values[0]), [Token(Word, c.op)] + rest);
    Cons(Token(Word, c.op), rest);
    KeywordIs(g.lib, c.op);
    if c.op == "fail" {
      assert |"fail"| != |"ok"|;
    }
  }

  lemma {:induction false} BracketParses(g: Grammar, field: string, values: seq<string>, rest: seq<Token>)
    requires values != []
    ensures ParseText(g, field, "in", [Token(Punct, "[")] + (ListTokens(g.lib, values) + ([Token(Punct, "]")] + rest)))
      == Ok(TextNode(field, "in", values), rest)
  {
    ListParses(g.lib, values, rest);
    Cons(Token(Punct, "["), ListTokens(g.lib, values) + ([Token(Punct, "]")] + rest));
  }

  lemma {:induction false} InParses(g: Grammar, field: string, kind: FieldKind, values: seq<string>, rest: seq<Token>)
    requires g.lib.Valid() && values != [] && kind != NumberField
    ensures ParseComparison(g, field, kind,
      ([Token(Word, "in")] + ([Token(Punct, "[")] + (ListTokens(g.lib, values) + [Token(Punct, "]")]))) + rest)
      == Ok(TextNode(field, "in", values), rest)
  {
    KeywordIs(g.lib, "in");
    LowerOp(g.lib, "in");
    BracketParses(g, field, values, rest);
    var list := ListTokens(g.lib, values);
    Assoc([Token(Word, "in")], [Token(Punct, "[")] + (list + [Token(Punct, "]")]), rest);
    Assoc([Token(Punct, "[")], list + [Token(Punct, "]")], rest);
    Assoc(list, [Token(Punct, "]")], rest);
    Cons(Token(Word, "in"), [Token(Punct, "[")] + (list + ([Token(Punct, "]")] + rest)));
  }

  lemma OperationParses(g: Grammar, field: string, kind: FieldKind, op: string, token: Token, rest: seq<Token>)
    requires g.lib.Valid() && (IsNumberOp(op) || op == "~")
    ensures ParseComparison(g, field, kind, (OpTokens(op) + [token]) + rest)
      == if kind == NumberField then ParseNumber(op, [token] + rest) else ParseText(g, field, op, [token] + rest)
    ensures Tail([token] + rest) == rest
  {
    LowerOp(g.lib, op);
    Assoc(OpTokens(op), [token], rest);
    Cons(Token(Op, op), [token] + rest);
    Cons(token, rest);
  }

  lemma ComparisonParses(g: Grammar, c: Clause, rest: seq<Token>)
    requires g.lib.Valid() && FieldOf(c.field).Some? && FieldOf(c.field).value.kind != BoolField
    requires GoodComparison(g.lib, FieldOf(c.field).value.kind, c) && !IsReference(c.field) && c.field != "diag"
    ensures ParseComparison(g, c.field, FieldOf(c.field).value.kind, OperandTokens(g.lib, c) + rest) == Ok(ClauseNode(c), rest)
  {
    NumberIsLatency(c.field);
    var kind := FieldOf(c.field).value.kind;
    if kind == NumberField {
      CanonicalNoMs(c.values[0]);
      OperationParses(g, c.field, kind, c.op, Token(Word, c.values[0]), rest);
    } else if c.op == "~" {
      OperationParses(g, c.field, kind, c.op, Token(Regex, PatternSource(c.values[0], c.ignoreCase)), rest);
    } else if c.op == "in" {
      InParses(g, c.field, kind, c.values, rest);
    } else {
      OperationParses(g, c.field, kind, c.op, QuoteToken(g.lib, c.values[0]), rest);
      assert [c.values[0]] == c.values;
    }
  }

  lemma LowerOp(lib: Library, op: string)
    requires lib.Valid() && (IsNumberOp(op) || op == "~" || op == "in")
    ensures lib.ToLower(op) == op
  {
    assert forall i :: 0 <= i < |op| ==> IsSyntax(op[i]) || IsAsciiLower(op[i]);
  }

  lemma CanonicalNoMs(v: string)
    requires IsCanonical(v)
    ensures TrimMs(v) == v
  {
    var n := Atoi(v).value;
    var digits := DigitsOf(if n < 0 then -n else n);
    assert v[|v| - 1] == digits[|digits| - 1];
    assert |v| >= 2 ==> v[|v| - 2..][1] == v[|v| - 1] != 's';
  }

  lemma PredicateIsField(g: Grammar, field: string, rest: seq<Token>, ts: seq<Token>)
    requires g.lib.Valid() && FieldOf(field).Some? && Head(ts) == Token(Word, field) && Tail(ts) == rest
    requires g.scope.diags.Some? ==> FieldOf(field).value.network && field !in g.scope.diags.value
    ensures ParsePredicate(g, ts) == if FieldOf(field).value.kind == BoolField then Ok(BoolNode(field), rest)
      else ParseComparison(g, field, FieldOf(field).value.kind, rest)
  {
    FieldIsPlain(g.lib, field);
  }

  lemma FieldParses(g: Grammar, c: Clause, rest: seq<Token>)
    requires g.lib.Valid() && GoodClause(g, c) && !IsReference(c.field) && c.field != "diag"
    ensures ParsePredicate(g, ClauseTokens(g.lib, c) + rest) == Ok(ClauseNode(c), rest)
  {
    FieldIsPlain(g.lib, c.field);
    var ts := ClauseTokens(g.lib, c) + rest;
    if FieldOf(c.field).value.kind == BoolField {
      Cons(Token(Word, c.field), rest);
    } else {
      ComparisonParses(g, c, rest);
      Assoc([Token(Word, c.field)], OperandTokens(g.lib, c), rest);
      Cons(Token(Word, c.field), OperandTokens(g.lib, c) + rest);
    }
    PredicateIsField(g, c.field, Tail(ts), ts);
  }

  lemma ClauseHead(g: Grammar, c: Clause)
    requires g.lib.Valid() && GoodClause(g, c)
    ensures var ts := ClauseTokens(g.lib, c); ts != [] && ts[0].kind == Word && !g.lib.EqualFold(ts[0].text, "not")
  {
    if c.field != "diag" {
      FieldIsPlain(g.lib, c.field);
    }
  }

  lemma {:induction false} ClauseParses(g: Grammar, c: Clause, rest: seq<Token>, d: nat)
    requires g.lib.Valid() && GoodClause(g, c)
    ensures ParseUnary(g, ClauseTokens(g.lib, c) + rest, d) == Ok(ClauseNode(c), rest)
  {
    ClauseHead(g, c);
    if IsReference(c.field) {
      ReferenceParses(g, c, rest);
    } else if c.field == "diag" {
      DiagParses(g, c, rest);
    } else {
      FieldParses(g, c, rest);
    }
  }

  lemma PartParses(g: Grammar, c: Clause, rest: seq<Token>, d: nat)
    requires g.lib.Valid() && GoodClause(g, c)
    ensures ParseUnary(g, PartTokens(g.lib, c) + rest, d) == Ok(PartNode(c), rest)
  {
    if c.not {
      KeywordIs(g.lib, "not");
      Assoc([Token(Word, "not")], ClauseTokens(g.lib, c), rest);
      Cons(Token(Word, "not"), ClauseTokens(g.lib, c) + rest);
      ClauseParses(g, c, rest, d + 1);
    } else {
      ClauseParses(g, c, rest, d);
    }
  }

  lemma FoldedPattern(p: string)
    ensures StartsWith("(?i)" + p, "(?i)") && ("(?i)" + p)[4..] == p
  {}

  lemma ComparisonComesBack(lib: Library, c: Clause)
    requires FieldOf(c.field).Some? && GoodComparison(lib, FieldOf(c.field).value.kind, c)
    requires !IsReference(c.field) && c.field != "diag"
    ensures PlainClauseOf(ClauseNode(c), c.not) == Some(c)
  {
    NumberIsLatency(c.field);
    assert |c.values| == 1 ==> c.values == [First(c.values)];
    if c.op == "~" && c.ignoreCase {
      FoldedPattern(First(c.values));
    }
  }

  /** The clause the builder shows for what a good clause parses to. */
  lemma ClauseComesBack(g: Grammar, c: Clause)
    requires g.lib.Valid() && GoodClause(g, c)
    ensures ClauseOf(PartNode(c)) == Some(c)
  {
    assert |c.values| == 1 ==> c.values == [First(c.values)];
    if c.field != "diag" && !IsReference(c.field) {
      ComparisonComesBack(g.lib, c);
    }
  }

  // ---- the whole form ----

  predicate GoodForm(g: Grammar, form: Form) {
    && (|form.clauses| > 1 ==> IsJoin(form.join))
    && forall i :: 0 <= i < |form.clauses| ==> GoodClause(g, form.clauses[i])
  }

  function FormTokens(lib: Library, join: string, clauses: seq<Clause>): seq<Token> {
    if clauses == [] then []
    else if |clauses| == 1 then PartTokens(lib, clauses[0])
    else PartTokens(lib, clauses[0]) + ([Token(Word, join)] + FormTokens(lib, join, clauses[1..]))
  }

  lemma JoinStep(lib: Library, part: string, tokens: seq<Token>, join: string, rest: seq<string>, more: seq<Token>)
    requires lib.Valid() && IsJoin(join) && rest != [] && Prints(lib, Some(part), tokens)
    requires Prints(lib, Some(JoinParts(rest, " " + (join + " "))), more)
    ensures Prints(lib, Some(JoinParts([part] + rest, " " + (join + " "))), tokens + ([Token(Word, join)] + more))
  {
    var text := JoinParts(rest, " " + (join + " "));
    PlainWord(lib, join);
    WordPrints(lib, join);
    SpacedPrints(lib, join, [Token(Word, join)], text, more);
    SpacedPrints(lib, part, tokens, Spaced(join, text), [Token(Word, join)] + more);
    SpacedTwice(part, join, text);
    JoinCons(part, rest, " " + (join + " "));
  }

  lemma SpacedTwice(part: string, join: string, text: string)
    ensures part + ((" " + (join + " ")) + text) == Spaced(part, Spaced(join, text))
  {}

  lemma PartsOne(lib: Library, clauses: seq<Clause>)
    requires |clauses| == 1 && PartText(lib, clauses[0]).Some?
    ensures PartsText(lib, clauses) == Some([PartText(lib, clauses[0]).value])
  {
    assert clauses[1..] == [] && PartsText(lib, []) == Some([]);
    assert [PartText(lib, clauses[0]).value] + [] == [PartText(lib, clauses[0]).value];
  }

  lemma {:induction false} FormPrints(g: Grammar, join: string, clauses: seq<Clause>)
    requires g.lib.Valid() && clauses != [] && (|clauses| > 1 ==> IsJoin(join))
    requires forall i :: 0 <= i < |clauses| ==> GoodClause(g, clauses[i])
    ensures PartsText(g.lib, clauses).Some? && PartsText(g.lib, clauses).value != []
    ensures Prints(g.lib, Some(JoinParts(PartsText(g.lib, clauses).value, " " + (join + " "))), FormTokens(g.lib, join, clauses))
    decreases |clauses|
  {
    PartPrints(g, clauses[0]);
    var part, tokens := PartText(g.lib, clauses[0]).value, PartTokens(g.lib, clauses[0]);
    if |clauses| == 1 {
      PartsOne(g.lib, clauses);
    } else {
      FormPrints(g, join, clauses[1..]);
      JoinStep(g.lib, part, tokens, join, PartsText(g.lib, clauses[1..]).value, FormTokens(g.lib, join, clauses[1..]));
    }
  }

  function Nodes(clauses: seq<Clause>): seq<CondNode> {
    if clauses == [] then [] else [PartNode(clauses[0])] + Nodes(clauses[1..])
  }

  /** The tokens from the join on, as the loops of and() and or() read them. */
  function MoreTokens(lib: Library, join: string, clauses: seq<Clause>): seq<Token> {
    if clauses == [] then [] else [Token(Word, join)] + FormTokens(lib, join, clauses)
  }

  lemma FormTokensSplit(lib: Library, join: string, clauses: seq<Clause>)
    requires clauses != []
    ensures FormTokens(lib, join, clauses) == PartTokens(lib, clauses[0]) + MoreTokens(lib, join, clauses[1..])
  {
    if |clauses| == 1 {
      assert PartTokens(lib, clauses[0]) + [] == PartTokens(lib, clauses[0]);
    }
  }

  lemma {:induction false} MoreParses(g: Grammar, join: string, clauses: seq<Clause>)
    requires g.lib.Valid() && IsJoin(join) && forall i :: 0 <= i < |clauses| ==> GoodClause(g, clauses[i])
    ensures join == "and" ==> ParseAndMore(g, MoreTokens(g.lib, join, clauses), 0) == Ok(Nodes(clauses), [])
    ensures join == "or" ==> ParseOrMore(g, MoreTokens(g.lib, join, clauses), 0) == Ok(Nodes(clauses), [])
    decreases |clauses|
  {
    if clauses == [] {
      assert Head([]) == END;
    } else {
      MoreParses(g, join, clauses[1..]);
      FormTokensSplit(g.lib, join, clauses);
      var inner, more := FormTokens(g.lib, join, clauses), MoreTokens(g.lib, join, clauses[1..]);
      KeywordAhead(g, join, inner);
      PartParses(g, clauses[0], more, 0);
      NoAnd(g, join, clauses[1..]);
    }
  }

  lemma NoAnd(g: Grammar, join: string, clauses: seq<Clause>)
    requires g.lib.Valid() && IsJoin(join)
    ensures join == "or" ==> ParseAndMore(g, MoreTokens(g.lib, join, clauses), 0) == Ok([], MoreTokens(g.lib, join, clauses))
    ensures join == "and" && clauses == [] ==> ParseAndMore(g, MoreTokens(g.lib, join, clauses), 0) == Ok([], [])
  {
    if clauses != [] {
      KeywordAhead(g, join, FormTokens(g.lib, join, clauses));
    }
  }

  function FormNode(join: string, clauses: seq<Clause>): CondNode
    requires clauses != []
  {
    if |clauses| == 1 then PartNode(clauses[0])
    else if join == "and" then AndNode(Nodes(clauses)) else OrNode(Nodes(clauses))
  }

  lemma OneParses(g: Grammar, ts: seq<Token>, n: CondNode)
    requires ParseUnary(g, ts, 0) == Ok(n, [])
    ensures ParseOr(g, ts, 0) == Ok(n, [])
  {
    assert Head([]) == END;
    assert ParseAndMore(g, [], 0) == Ok([], []) && ParseOrMore(g, [], 0) == Ok([], []);
  }

  lemma ManyParse(g: Grammar, ts: seq<Token>, first: CondNode, join: string, clauses: seq<Clause>)
    requires g.lib.Valid() && IsJoin(join) && clauses != [] && forall i :: 0 <= i < |clauses| ==> GoodClause(g, clauses[i])
    requires ParseUnary(g, ts, 0) == Ok(first, MoreTokens(g.lib, join, clauses))
    ensures ParseOr(g, ts, 0)
      == Ok(if join == "and" then AndNode([first] + Nodes(clauses)) else OrNode([first] + Nodes(clauses)), [])
  {
    MoreParses(g, join, clauses);
    NoAnd(g, join, clauses);
    assert Nodes(clauses) != [];
    assert Head([]) == END;
    assert ParseOrMore(g, [], 0) == Ok([], []);
  }

  lemma FormParses(g: Grammar, join: string, clauses: seq<Clause>)
    requires g.lib.Valid() && clauses != [] && (|clauses| > 1 ==> IsJoin(join))
    requires forall i :: 0 <= i < |clauses| ==> GoodClause(g, clauses[i])
    ensures ParseOr(g, FormTokens(g.lib, join, clauses), 0) == Ok(FormNode(join, clauses), [])
  {
    var ts, more := FormTokens(g.lib, join, clauses), MoreTokens(g.lib, join, clauses[1..]);
    FormTokensSplit(g.lib, join, clauses);
    PartParses(g, clauses[0], more, 0);
    if |clauses| == 1 {
      OneParses(g, ts, PartNode(clauses[0]));
    } else {
      ManyParse(g, ts, PartNode(clauses[0]), join, clauses[1..]);
    }
  }

  lemma {:induction false} ClausesComeBack(g: Grammar, clauses: seq<Clause>)
    requires g.lib.Valid() && forall i :: 0 <= i < |clauses| ==> GoodClause(g, clauses[i])
    ensures ClausesOf(Nodes(clauses)) == Some(clauses)
    decreases |clauses|
  {
    if clauses != [] {
      ClauseComesBack(g, clauses[0]);
      ClausesComeBack(g, clauses[1..]);
      assert Nodes(clauses)[1..] == Nodes(clauses[1..]);
      assert [clauses[0]] + clauses[1..] == clauses;
    }
  }

  lemma FormComesBack(g: Grammar, join: string, clauses: seq<Clause>)
    requires g.lib.Valid() && clauses != [] && (|clauses| > 1 ==> IsJoin(join))
    requires forall i :: 0 <= i < |clauses| ==> GoodClause(g, clauses[i])
    ensures FormOf(FormNode(join, clauses)) == Form(if |clauses| > 1 then join else "and", clauses, true)
  {
    ClausesComeBack(g, clauses);
    if |clauses| == 1 {
      var n := PartNode(clauses[0]);
      assert clauses[1..] == [];
      assert Nodes(clauses) == [n];
    }
  }

  /** Every good form whose text is short enough prints, its text parses, and
      what is shown for it is the form again, its join normalised when there
      are fewer than two clauses. */
  lemma FormRoundTrip(g: Grammar, form: Form)
    requires g.lib.Valid() && GoodForm(g, form)
    ensures FormText(g.lib, form).Some?
    ensures Utf8Len(FormText(g.lib, form).value) <= MAX_CONDITION_LENGTH ==>
      && ParseCond(g, FormText(g.lib, form).value).Some?
      && FormOfCond(ParseCond(g, FormText(g.lib, form).value).value)
         == Form(if |form.clauses| > 1 then form.join else "and", form.clauses, true)
  {
    var clauses := form.clauses;
    if clauses == [] {
      assert TrimSpace("") == "";
    } else {
      FormPrints(g, form.join, clauses);
      FormParses(g, form.join, clauses);
      FormComesBack(g, form.join, clauses);
      var text := FormText(g.lib, form).value;
      SolidTrims(text);
      ParseCondBy(g, text);
    }
  }
}
