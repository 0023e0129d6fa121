/** condParser: tokens to a condition. Functions answer for the tokens still ahead; failure carries no text. */
module Parser {
  import opened Basics
  import opened Text
  import opened Lexer
  import opened Cond

  const MAX_CONDITION_LENGTH := 2048
  const MAX_CONDITION_DEPTH := 16
  const MAX_PATTERN_LENGTH := 512

  /** What a condition may reference; None stands for a nil map. */
  datatype Scope = Scope(tags: Option<set<string>>, checks: set<string>, diags: Option<set<string>>)

  /** The scope tag conditions are compiled in: no tags, no checks. */
  const TAG_SCOPE := Scope(None, {}, None)

  datatype Grammar = Grammar(lib: Library, scope: Scope)

  datatype Parsed<+T> = Fail | Ok(value: T, rest: seq<Token>)

  const END := Token(Punct, "end")

  function Head(ts: seq<Token>): Token { if ts == [] then END else ts[0] }

  function Tail(ts: seq<Token>): (r: seq<Token>)
    ensures ts != [] ==> |r| < |ts|
  {
    if ts == [] then [] else ts[1..]
  }

  predicate IsKeyword(lib: Library, t: Token, word: string) { t.kind == Word && lib.EqualFold(t.text, word) }

  predicate IsExpected(t: Token, text: string) { t.text == text && t.kind != Str }

  predicate IsValue(t: Token) { t.kind == Word || t.kind == Str }

  function ParseOr(g: Grammar, ts: seq<Token>, depth: nat): (r: Parsed<CondNode>)
    ensures r.Ok? ==> |r.rest| < |ts|
    decreases |ts|, 3
  {
    if depth > MAX_CONDITION_DEPTH then Fail
    else match ParseAnd(g, ts, depth)
      case Fail => Fail
      case Ok(first, rest) =>
        match ParseOrMore(g, rest, depth)
        case Fail => Fail
        case Ok(more, rest') => Ok(if more == [] then first else OrNode([first] + more), rest')
  }

  function ParseOrMore(g: Grammar, ts: seq<Token>, depth: nat): (r: Parsed<seq<CondNode>>)
    ensures r.Ok? ==> |r.rest| <= |ts|
    decreases |ts|, 3
  {
    if !IsKeyword(g.lib, Head(ts), "or") then Ok([], ts)
    else match ParseAnd(g, Tail(ts), depth)
      case Fail => Fail
      case Ok(item, rest) =>
        match ParseOrMore(g, rest, depth)
        case Fail => Fail
        case Ok(more, rest') => Ok([item] + more, rest')
  }

  function ParseAnd(g: Grammar, ts: seq<Token>, depth: nat): (r: Parsed<CondNode>)
    ensures r.Ok? ==> |r.rest| < |ts|
    decreases |ts|, 2
  {
    match ParseUnary(g, ts, depth)
    case Fail => Fail
    case Ok(first, rest) =>
      match ParseAndMore(g, rest, depth)
      case Fail => Fail
      case Ok(more, rest') => Ok(if more == [] then first else AndNode([first] + more), rest')
  }

  function ParseAndMore(g: Grammar, ts: seq<Token>, depth: nat): (r: Parsed<seq<CondNode>>)
    ensures r.Ok? ==> |r.rest| <= |ts|
    decreases |ts|, 2
  {
    if !IsKeyword(g.lib, Head(ts), "and") then Ok([], ts)
    else match ParseUnary(g, Tail(ts), depth)
      case Fail => Fail
      case Ok(item, rest) =>
        match ParseAndMore(g, rest, depth)
        case Fail => Fail
        case Ok(more, rest') => Ok([item] + more, rest')
  }

  function ParseUnary(g: Grammar, ts: seq<Token>, depth: nat): (r: Parsed<CondNode>)
    ensures r.Ok? ==> |r.rest| < |ts|
    decreases |ts|, 1
  {
    if IsKeyword(g.lib, Head(ts), "not") then
      match ParseUnary(g, Tail(ts), depth + 1)
      case Fail => Fail
      case Ok(item, rest) => Ok(NotNode(item), rest)
    else if Head(ts) == Token(Punct, "(") then
      match ParseOr(g, Tail(ts), depth + 1)
      case Fail => Fail
      case Ok(item, rest) => if IsExpected(Head(rest), ")") then Ok(item, Tail(rest)) else Fail
    else ParsePredicate(g, ts)
  }

  function ParsePredicate(g: Grammar, ts: seq<Token>): (r: Parsed<CondNode>)
    ensures r.Ok? ==> |r.rest| < |ts|
  {
    var token, rest := Head(ts), Tail(ts);
    var field, network := g.lib.ToLower(token.text), g.scope.diags.Some?;
    if token.kind != Word then Fail
    else if field == "tag" || field == "passes" || field == "fails" then ParseReference(g, field, rest)
    else if network && token.text in g.scope.diags.value then
      if IsKeyword(g.lib, Head(rest), "ok") then Ok(DiagNode(token.text, true), Tail(rest))
      else if IsKeyword(g.lib, Head(rest), "fail") then Ok(DiagNode(token.text, false), Tail(rest))
      else Fail
    else match FieldOf(field)
      case None => Fail
      case Some(spec) =>
        if network && !spec.network then Fail
        else if spec.kind == BoolField then Ok(BoolNode(field), rest)
        else ParseComparison(g, field, spec.kind, rest)
  }

  function ParseReference(g: Grammar, field: string, ts: seq<Token>): (r: Parsed<CondNode>)
    ensures r.Ok? ==> |r.rest| <= |ts|
  {
    match ParseCall(ts)
    case Fail => Fail
    case Ok(name, rest) =>
      var network := g.scope.diags.Some?;
      if field == "tag" then
        if g.scope.tags.None? || network || name !in g.scope.tags.value then Fail
        else Ok(TagNode(name), rest)
      else if name !in g.scope.checks || network then Fail
      else Ok(CheckNode(name, field == "passes"), rest)
  }

  function ParseCall(ts: seq<Token>): (r: Parsed<string>)
    ensures r.Ok? ==> |r.rest| <= |ts|
  {
    var name, close := Tail(ts), Tail(Tail(ts));
    if IsExpected(Head(ts), "(") && IsValue(Head(name)) && IsExpected(Head(close), ")")
    then Ok(Head(name).text, Tail(close))
    else Fail
  }

  function ParseComparison(g: Grammar, field: string, kind: FieldKind, ts: seq<Token>): (r: Parsed<CondNode>)
    ensures r.Ok? ==> |r.rest| <= |ts|
  {
    var op := Head(ts);
    var operator := g.lib.ToLower(op.text);
    if op.kind != Op && !IsKeyword(g.lib, op, "in") then Fail
    else if kind == NumberField then ParseNumber(operator, Tail(ts))
    else ParseText(g, field, operator, Tail(ts))
  }

  function ParseNumber(op: string, ts: seq<Token>): (r: Parsed<CondNode>)
    ensures r.Ok? ==> |r.rest| <= |ts|
  {
    var value := Atoi(TrimMs(Head(ts).text));
    if op !in ["=", "!=", "<", "<=", ">", ">="] || value.None? || Head(ts).kind != Word then Fail
    else Ok(NumberNode(op, value.value), Tail(ts))
  }

  function ParseText(g: Grammar, field: string, op: string, ts: seq<Token>): (r: Parsed<CondNode>)
    ensures r.Ok? ==> |r.rest| <= |ts|
  {
    var token := Head(ts);
    if op == "~" then
      if (token.kind == Regex || token.kind == Str) && Utf8Len(token.text) <= MAX_PATTERN_LENGTH && g.lib.compiles(token.text)
      then Ok(MatchNode(field, token.text), Tail(ts))
      else Fail
    else if op == "in" then
      if !IsExpected(token, "[") then Fail
      else match ParseList(Tail(ts))
        case Fail => Fail
        case Ok(values, rest) => Ok(TextNode(field, op, values), rest)
    else if (op == "=" || op == "!=") && IsValue(token) then Ok(TextNode(field, op, [token.text]), Tail(ts))
    else Fail
  }

  function ParseList(ts: seq<Token>): (r: Parsed<seq<string>>)
    ensures r.Ok? ==> |r.rest| <= |ts| && r.value != []
    decreases |ts|
  {
    if !IsValue(Head(ts)) then Fail
    else
      var after := Tail(ts);
      if Head(after) == Token(Punct, "]") then Ok([Head(ts).text], Tail(after))
      else if !IsExpected(Head(after), ",") then Fail
      else match ParseList(Tail(after))
        case Fail => Fail
        case Ok(values, rest) => Ok([Head(ts).text] + values, rest)
  }

  /** parseCond: None stands for a nil condition. */
  function ParseCond(g: Grammar, text: string): Option<Option<CondNode>> {
    var trimmed := TrimSpace(text);
    if trimmed == "" then Some(None)
    else if Utf8Len(trimmed) > MAX_CONDITION_LENGTH then None
    else match Lex(g.lib, trimmed)
      case None => None
      case Some(tokens) =>
        match ParseOr(g, tokens, 0)
        case Fail => None
        case Ok(root, rest) => if rest == [] then Some(Some(root)) else None
  }

  // ---- the parser object ----

  class CondParser {
    const g: Grammar
    const tokens: seq<Token>
    var pos: nat

    constructor (g: Grammar, tokens: seq<Token>)
      ensures this.g == g && this.tokens == tokens && pos == 0 && Ahead() == tokens
    {
      this.g, this.tokens, pos := g, tokens, 0;
    }

    function Ahead(): seq<Token>
      reads this
    {
      if pos <= |tokens| then tokens[pos..] else []
    }

    function Peek(): (t: Token)
      reads this
      ensures t == Head(Ahead())
    {
      if pos >= |tokens| then END else tokens[pos]
    }

    method Next() returns (t: Token)
      modifies this
      ensures t == Head(old(Ahead())) && Ahead() == Tail(old(Ahead()))
    {
      t := Peek();
      pos := pos + 1;
    }

    method Keyword(word: string) returns (found: bool)
      modifies this
      ensures found == IsKeyword(g.lib, Head(old(Ahead())), word)
      ensures Ahead() == if found then Tail(old(Ahead())) else old(Ahead())
    {
      var token := Peek();
      if token.kind == Word && g.lib.EqualFold(token.text, word) {
        pos := pos + 1;
        return true;
      }
      return false;
    }

    method Expect(text: string) returns (ok: bool)
      modifies this
      ensures ok == IsExpected(Head(old(Ahead())), text) && Ahead() == Tail(old(Ahead()))
    {
      var token := Next();
      ok := !(token.text != text || token.kind == Str);
    }

    /** The outcome of a method that stands for the function value want. */
    ghost predicate Answers<T>(ok: bool, value: T, want: Parsed<T>)
      reads this
    {
      if ok then want == Ok(value, Ahead()) else want == Fail
    }

    method Or(depth: nat) returns (ok: bool, node: CondNode)
      modifies this
      ensures Answers(ok, node, ParseOr(g, old(Ahead()), depth))
      decreases |Ahead()|, 4
    {
      node := OrNode([]);
      if depth > MAX_CONDITION_DEPTH {
        return false, node;
      }
      var first;
      ok, first := And(depth);
      if !ok {
        return false, node;
      }
      var more;
      ok, more := OrItems(depth);
      if !ok {
        return false, node;
      }
      var items := [first] + more;
      if |items| == 1 {
        return true, first;
      }
      return true, OrNode(items);
    }

    /** The loop of or() after its first item. */
    method OrItems(depth: nat) returns (ok: bool, items: seq<CondNode>)
      modifies this
      ensures Answers(ok, items, ParseOrMore(g, old(Ahead()), depth))
      decreases |Ahead()|, 3
    {
      items := [];
      ghost var want := ParseOrMore(g, Ahead(), depth);
      ghost var bound := |Ahead()|;
      OrFromStart(g, Ahead(), depth);
      var more := Keyword("or");
      while more
        invariant |Ahead()| <= bound && (more ==> |Ahead()| < bound)
        invariant want == OrFrom(g, items, more, Ahead(), depth)
        decreases |Ahead()|
      {
        ghost var here := Ahead();
        var item;
        ok, item := And(depth);
        if !ok {
          return false, items;
        }
        OrFromStep(g, items, here, depth);
        items := items + [item];
        more := Keyword("or");
      }
      return true, items;
    }

    method And(depth: nat) returns (ok: bool, node: CondNode)
      modifies this
      ensures Answers(ok, node, ParseAnd(g, old(Ahead()), depth))
      decreases |Ahead()|, 2
    {
      node := AndNode([]);
      var first;
      ok, first := Unary(depth);
      if !ok {
        return false, node;
      }
      var more;
      ok, more := AndItems(depth);
      if !ok {
        return false, node;
      }
      var items := [first] + more;
      if |items| == 1 {
        return true, first;
      }
      return true, AndNode(items);
    }

    /** The loop of and() after its first item. */
    method AndItems(depth: nat) returns (ok: bool, items: seq<CondNode>)
      modifies this
      ensures Answers(ok, items, ParseAndMore(g, old(Ahead()), depth))
      decreases |Ahead()|, 2
    {
      items := [];
      ghost var want := ParseAndMore(g, Ahead(), depth);
      ghost var bound := |Ahead()|;
      AndFromStart(g, Ahead(), depth);
      var more := Keyword("and");
      while more
        invariant |Ahead()| <= bound && (more ==> |Ahead()| < bound)
        invariant want == AndFrom(g, items, more, Ahead(), depth)
        decreases |Ahead()|
      {
        ghost var here := Ahead();
        var item;
        ok, item := Unary(depth);
        if !ok {
          return false, items;
        }
        AndFromStep(g, items, here, depth);
        items := items + [item];
        more := Keyword("and");
      }
      return true, items;
    }

    method Unary(depth: nat) returns (ok: bool, node: CondNode)
      modifies this
      ensures Answers(ok, node, ParseUnary(g, old(Ahead()), depth))
      decreases |Ahead()|, 1
    {
      var not := Keyword("not");
      if not {
        ok, node := Unary(depth + 1);
        node := NotNode(node);
        return;
      }
      if Peek().kind == Punct && Peek().text == "(" {
        pos := pos + 1;
        ok, node := Or(depth + 1);
        if ok {
          ok := Expect(")");
        }
        return;
      }
      ok, node := Predicate();
    }

    method Predicate() returns (ok: bool, node: CondNode)
      modifies this
      ensures Answers(ok, node, ParsePredicate(g, old(Ahead())))
    {
      node := BoolNode("");
      var token := Next();
      if token.kind != Word {
        return false, node;
      }
      var field := g.lib.ToLower(token.text);
      var network := g.scope.diags.Some?;
      if field == "tag" || field == "passes" || field == "fails" {
        var name;
        ok, name := Call();
        if !ok {
          return false, node;
        }
        if field == "tag" {
          if g.scope.tags == None || network || name !in g.scope.tags.value {
            return false, node;
          }
          return true, TagNode(name);
        }
        if name !in g.scope.checks || network {
          return false, node;
        }
        return true, CheckNode(name, field == "passes");
      }
      if network && token.text in g.scope.diags.value {
        var state := Next();
        if state.kind == Word && g.lib.EqualFold(state.text, "ok") {
          return true, DiagNode(token.text, true);
        } else if state.kind == Word && g.lib.EqualFold(state.text, "fail") {
          return true, DiagNode(token.text, false);
        }
        return false, node;
      }
      var spec := FieldOf(field);
      if spec == None || (network && !spec.value.network) {
        return false, node;
      }
      if spec.value.kind == BoolField {
        return true, BoolNode(field);
      }
      var op := Next();
      if op.kind != Op && !(op.kind == Word && g.lib.EqualFold(op.text, "in")) {
        return false, node;
      }
      var operator := g.lib.ToLower(op.text);
      if spec.value.kind == NumberField {
        ok, node := Number(operator);
      } else {
        ok, node := Text(field, operator);
      }
    }

    method Call() returns (ok: bool, name: string)
      modifies this
      ensures Answers(ok, name, ParseCall(old(Ahead())))
    {
      ok := Expect("(");
      if !ok {
        return false, "";
      }
      var token := Next();
      if token.kind != Word && token.kind != Str {
        return false, "";
      }
      ok := Expect(")");
      name := token.text;
    }

    method Number(op: string) returns (ok: bool, node: CondNode)
      modifies this
      ensures Answers(ok, node, ParseNumber(op, old(Ahead())))
    {
      node := NumberNode(op, 0);
      if op !in ["=", "!=", "<", "<=", ">", ">="] {
        return false, node;
      }
      var token := Next();
      var value := Atoi(TrimMs(token.text));
      if value == None || token.kind != Word {
        return false, node;
      }
      return true, NumberNode(op, value.value);
    }

    method Text(field: string, op: string) returns (ok: bool, node: CondNode)
      modifies this
      ensures Answers(ok, node, ParseText(g, field, op, old(Ahead())))
    {
      node := TextNode(field, op, []);
      if op == "~" {
        var token := Next();
        if token.kind != Regex && token.kind != Str {
          return false, node;
        }
        if Utf8Len(token.text) > MAX_PATTERN_LENGTH || !g.lib.compiles(token.text) {
          return false, node;
        }
        return true, MatchNode(field, token.text);
      } else if op == "in" {
        ok := Expect("[");
        if !ok {
          return false, node;
        }
        var values;
        ok, values := List();
        return ok, TextNode(field, op, values);
      } else if op == "=" || op == "!=" {
        var token := Next();
        if token.kind != Word && token.kind != Str {
          return false, node;
        }
        return true, TextNode(field, op, [token.text]);
      }
      return false, node;
    }

    /** The loop over the values of an in list. */
    method List() returns (ok: bool, values: seq<string>)
      modifies this
      ensures Answers(ok, values, ParseList(old(Ahead())))
    {
      values := [];
      ghost var want := ParseList(Ahead());
      BehindNone(want);
      while true
        invariant want == Behind(values, ParseList(Ahead()))
        decreases |Ahead()|
      {
        ghost var here, was := Ahead(), values;
        var token := Next();
        if token.kind != Word && token.kind != Str {
          return false, values;
        }
        values := values + [token.text];
        if Peek().text == "]" && Peek().kind == Punct {
          pos := pos + 1;
          return true, values;
        }
        ok := Expect(",");
        if !ok {
          return false, values;
        }
        BehindTwice(was, [token.text], ParseList(Ahead()));
        assert here != [] && |Ahead()| < |here|;
      }
    }
  }

  /** What follows, with these items in front. */
  function Behind<T>(items: seq<T>, r: Parsed<seq<T>>): Parsed<seq<T>> {
    if r.Fail? then Fail else Ok(items + r.value, r.rest)
  }

  lemma BehindTwice<T>(a: seq<T>, b: seq<T>, r: Parsed<seq<T>>)
    ensures Behind(a, Behind(b, r)) == Behind(a + b, r)
  {
    if r.Ok? {
      assert a + (b + r.value) == (a + b) + r.value;
    }
  }

  lemma BehindNone<T>(r: Parsed<seq<T>>)
    ensures Behind([], r) == r
  {
    if r.Ok? {
      assert [] + r.value == r.value;
    }
  }

  /** What the loop of or() comes to from here, with these items collected. */
  ghost function OrFrom(g: Grammar, items: seq<CondNode>, more: bool, ts: seq<Token>,
      depth: nat): Parsed<seq<CondNode>> {
    if !more then Ok(items, ts)
    else match ParseAnd(g, ts, depth)
      case Fail => Fail
      case Ok(item, rest) => Behind(items + [item], ParseOrMore(g, rest, depth))
  }

  lemma OrFromStart(g: Grammar, ts: seq<Token>, depth: nat)
    ensures var more := IsKeyword(g.lib, Head(ts), "or");
      ParseOrMore(g, ts, depth) == OrFrom(g, [], more, if more then Tail(ts) else ts, depth)
  {
    if IsKeyword(g.lib, Head(ts), "or") {
      var item := ParseAnd(g, Tail(ts), depth);
      if item.Ok? {
        assert [] + [item.value] == [item.value];
      }
    }
  }

  lemma OrFromStep(g: Grammar, items: seq<CondNode>, ts: seq<Token>, depth: nat)
    requires ParseAnd(g, ts, depth).Ok?
    ensures var item := ParseAnd(g, ts, depth); var more := IsKeyword(g.lib, Head(item.rest), "or");
      OrFrom(g, items, true, ts, depth)
        == OrFrom(g, items + [item.value], more, if more then Tail(item.rest) else item.rest, depth)
  {
    var item := ParseAnd(g, ts, depth);
    var front := items + [item.value];
    if IsKeyword(g.lib, Head(item.rest), "or") {
      var next := ParseAnd(g, Tail(item.rest), depth);
      if next.Ok? {
        BehindTwice(front, [next.value], ParseOrMore(g, next.rest, depth));
      }
    } else {
      assert front + [] == front;
    }
  }

  /** What the loop of and() comes to from here, with these items collected. */
  ghost function AndFrom(g: Grammar, items: seq<CondNode>, more: bool, ts: seq<Token>,
      depth: nat): Parsed<seq<CondNode>> {
    if !more then Ok(items, ts)
    else match ParseUnary(g, ts, depth)
      case Fail => Fail
      case Ok(item, rest) => Behind(items + [item], ParseAndMore(g, rest, depth))
  }

  lemma AndFromStart(g: Grammar, ts: seq<Token>, depth: nat)
    ensures var more := IsKeyword(g.lib, Head(ts), "and");
      ParseAndMore(g, ts, depth) == AndFrom(g, [], more, if more then Tail(ts) else ts, depth)
  {
    if IsKeyword(g.lib, Head(ts), "and") {
      var item := ParseUnary(g, Tail(ts), depth);
      if item.Ok? {
        assert [] + [item.value] == [item.value];
      }
    }
  }

  lemma AndFromStep(g: Grammar, items: seq<CondNode>, ts: seq<Token>, depth: nat)
    requires ParseUnary(g, ts, depth).Ok?
    ensures var item := ParseUnary(g, ts, depth); var more := IsKeyword(g.lib, Head(item.rest), "and");
      AndFrom(g, items, true, ts, depth)
        == AndFrom(g, items + [item.value], more, if more then Tail(item.rest) else item.rest, depth)
  {
    var item := ParseUnary(g, ts, depth);
    var front := items + [item.value];
    if IsKeyword(g.lib, Head(item.rest), "and") {
      var next := ParseUnary(g, Tail(item.rest), depth);
      if next.Ok? {
        BehindTwice(front, [next.value], ParseAndMore(g, next.rest, depth));
      }
    } else {
      assert front + [] == front;
    }
  }

  /** parseCond, with the lexer's loop and the parser object, computes ParseCond. */
  method Compile(g: Grammar, text: string) returns (r: Option<Option<CondNode>>)
    ensures r == ParseCond(g, text)
  {
    var trimmed := TrimSpace(text);
    if trimmed == "" {
      return Some(None);
    }
    if Utf8Len(trimmed) > MAX_CONDITION_LENGTH {
      return None;
    }
    var ok, tokens := LexCond(g.lib, trimmed);
    if !ok {
      return None;
    }
    var parser := new CondParser(g, tokens);
    var root;
    ok, root := parser.Or(0);
    if !ok || parser.Ahead() != [] {
      return None;
    }
    return Some(Some(root));
  }
}
