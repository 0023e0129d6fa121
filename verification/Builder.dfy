/** The condition builder: flat forms printed as condition text, and conditions shown as flat forms. */
module Builder {
  import opened Basics
  import opened Text
  import opened Lexer
  import opened Cond
  import opened Parser
  import opened Pool

  datatype Clause = Clause(not: bool, field: string, op: string, values: seq<string>, ignoreCase: bool)

  datatype Form = Form(join: string, clauses: seq<Clause>, flat: bool)

  predicate IsReference(field: string) { field == "tag" || field == "passes" || field == "fails" }

  predicate IsBuilderKeyword(s: string) {
    s == "and" || s == "or" || s == "not" || s == "in" || s == "ok" || s == "fail"
  }

  // ---- printing ----

  function QuoteValue(lib: Library, v: string): Option<string> {
    if v != "" && !IsBuilderKeyword(lib.ToLower(v)) && lib.AllWord(v) then Some(v)
    else if '\'' !in v then Some("'" + (v + "'"))
    else if '"' !in v then Some("\"" + (v + "\""))
    else None
  }

  function EscapeSlashes(p: string): string {
    if p == "" then "" else (if p[0] == '/' then "\\/" else [p[0]]) + EscapeSlashes(p[1..])
  }

  function First(values: seq<string>): string { if values == [] then "" else values[0] }

  function QuoteAll(lib: Library, values: seq<string>): Option<seq<string>> {
    if values == [] then Some([])
    else match (QuoteValue(lib, values[0]), QuoteAll(lib, values[1..]))
      case (Some(q), Some(rest)) => Some([q] + rest)
      case _ => None
  }

  /** strings.Join. */
  function JoinParts(parts: seq<string>, sep: string): string {
    if parts == [] then "" else if |parts| == 1 then parts[0] else parts[0] + (sep + JoinParts(parts[1..], sep))
  }

  function Spaced(a: string, rest: string): string { a + (" " + rest) }

  function PatternText(p: string, ignoreCase: bool): string {
    "/" + (EscapeSlashes(p) + ("/" + (if ignoreCase then "i" else "")))
  }

  function ClauseText(lib: Library, c: Clause): Option<string> {
    var first := First(c.values);
    if IsReference(c.field) then
      match QuoteValue(lib, first)
      case None => None
      case Some(q) => Some(c.field + ("(" + (q + ")")))
    else if c.field == "diag" then Some(Spaced(first, c.op))
    else match FieldOf(c.field)
      case None => None
      case Some(spec) =>
        if spec.kind == BoolField then Some(c.field)
        else if spec.kind == NumberField then Some(Spaced(c.field, Spaced(c.op, first)))
        else if c.op == "~" then Some(Spaced(c.field, Spaced("~", PatternText(first, c.ignoreCase))))
        else if c.op == "in" then
          match QuoteAll(lib, c.values)
          case None => None
          case Some(list) => Some(Spaced(c.field, Spaced("in", "[" + (JoinParts(list, ", ") + "]"))))
        else match QuoteValue(lib, first)
          case None => None
          case Some(q) => Some(Spaced(c.field, Spaced(c.op, q)))
  }

  function PartText(lib: Library, c: Clause): Option<string> {
    match ClauseText(lib, c)
    case None => None
    case Some(text) => Some(if c.not then Spaced("not", text) else text)
  }

  function PartsText(lib: Library, clauses: seq<Clause>): Option<seq<string>> {
    if clauses == [] then Some([])
    else match (PartText(lib, clauses[0]), PartsText(lib, clauses[1..]))
      case (Some(part), Some(rest)) => Some([part] + rest)
      case _ => None
  }

  function FormText(lib: Library, form: Form): Option<string> {
    if form.join != "and" && form.join != "or" && |form.clauses| > 1 then None
    else match PartsText(lib, form.clauses)
      case None => None
      case Some(parts) => Some(JoinParts(parts, " " + (form.join + " ")))
  }

  // ---- reading ----

  function ClauseOf(n: CondNode): Option<Clause> {
    if n.NotNode? then PlainClauseOf(n.item, true) else PlainClauseOf(n, false)
  }

  function PlainClauseOf(n: CondNode, not: bool): Option<Clause> {
    match n
    case BoolNode(field) => Some(Clause(not, field, "", [], false))
    case TagNode(tag) => Some(Clause(not, "tag", "", [tag], false))
    case CheckNode(check, pass) => Some(Clause(not, if pass then "passes" else "fails", "", [check], false))
    case DiagNode(diag, ok) => Some(Clause(not, "diag", if ok then "ok" else "fail", [diag], false))
    case NumberNode(op, value) => Some(Clause(not, "latency", op, [Itoa(value)], false))
    case TextNode(field, op, values) => Some(Clause(not, field, op, values, false))
    case MatchNode(field, pattern) =>
      var fold := StartsWith(pattern, "(?i)");
      Some(Clause(not, field, "~", [if fold then pattern[4..] else pattern], fold))
    case _ => None
  }

  function ClausesOf(items: seq<CondNode>): Option<seq<Clause>> {
    if items == [] then Some([])
    else match (ClauseOf(items[0]), ClausesOf(items[1..]))
      case (Some(clause), Some(rest)) => Some([clause] + rest)
      case _ => None
  }

  function FormOf(root: CondNode): Form {
    var join := if root.OrNode? then "or" else "and";
    match ClausesOf(if root.AndNode? || root.OrNode? then root.items else [root])
    case None => Form(join, [], false)
    case Some(clauses) => Form(join, clauses, true)
  }

  /** The form studioCond shows for a text that parses. */
  function FormOfCond(cond: Option<CondNode>): Form {
    if cond.None? then Form("and", [], true) else FormOf(cond.value)
  }

  function InFront<T>(items: seq<T>, rest: Option<seq<T>>): Option<seq<T>> {
    if rest.None? then None else Some(items + rest.value)
  }

  lemma InFrontNone<T>(rest: Option<seq<T>>)
    ensures InFront([], rest) == rest
  {
    if rest.Some? {
      assert [] + rest.value == rest.value;
    }
  }

  lemma InFrontTwice<T>(a: seq<T>, b: seq<T>, rest: Option<seq<T>>)
    ensures InFront(a, InFront(b, rest)) == InFront(a + b, rest)
  {
    if rest.Some? {
      assert a + (b + rest.value) == (a + b) + rest.value;
    }
  }

  /** formText's loop: parts appended until one cannot be printed, then joined. */
  method WriteForm(lib: Library, form: Form) returns (text: Option<string>)
    ensures text == FormText(lib, form)
  {
    if form.join != "and" && form.join != "or" && |form.clauses| > 1 {
      return None;
    }
    var parts: seq<string> := [];
    var i := 0;
    assert form.clauses[0..] == form.clauses;
    InFrontNone(PartsText(lib, form.clauses));
    while i < |form.clauses|
      invariant 0 <= i <= |form.clauses|
      invariant PartsText(lib, form.clauses) == InFront(parts, PartsText(lib, form.clauses[i..]))
    {
      assert form.clauses[i..][1..] == form.clauses[i + 1..];
      var part := PartText(lib, form.clauses[i]);
      if part == None {
        return None;
      }
      InFrontTwice(parts, [part.value], PartsText(lib, form.clauses[i + 1..]));
      parts := parts + [part.value];
      i := i + 1;
    }
    assert parts + [] == parts;
    return Some(JoinParts(parts, " " + (form.join + " ")));
  }

  /** formOf's loop: clauses appended until one does not fit. */
  method ReadForm(root: CondNode) returns (form: Form)
    ensures form == FormOf(root)
  {
    var items, join := [root], "and";
    if root.AndNode? {
      items := root.items;
    } else if root.OrNode? {
      items, join := root.items, "or";
    }
    var clauses: seq<Clause> := [];
    var i := 0;
    assert items[0..] == items;
    InFrontNone(ClausesOf(items));
    while i < |items|
      invariant 0 <= i <= |items|
      invariant ClausesOf(items) == InFront(clauses, ClausesOf(items[i..]))
    {
      assert items[i..][1..] == items[i + 1..];
      var clause := ClauseOf(items[i]);
      if clause == None {
        return Form(join, [], false);
      }
      InFrontTwice(clauses, [clause.value], ClausesOf(items[i + 1..]));
      clauses := clauses + [clause.value];
      i := i + 1;
    }
    assert clauses + [] == clauses;
    return Form(join, clauses, true);
  }

  // ---- which forms can be printed ----

  predicate Quotable(v: string) { !('\'' in v && '"' in v) }

  predicate EndsInBackslash(p: string) { p != "" && p[|p| - 1] == '\\' }

  function PatternSource(p: string, ignoreCase: bool): string { if ignoreCase then "(?i)" + p else p }

  predicate GoodPattern(lib: Library, p: string, ignoreCase: bool) {
    && !EndsInBackslash(p)
    && (ignoreCase || !StartsWith(p, "(?i)"))
    && Utf8Len(PatternSource(p, ignoreCase)) <= MAX_PATTERN_LENGTH
    && lib.compiles(PatternSource(p, ignoreCase))
  }

  predicate GoodDiag(lib: Library, name: string) {
    name != "" && lib.AllWord(name) && !lib.EqualFold(name, "not") && !IsReference(lib.ToLower(name))
  }

  predicate IsCanonical(v: string) {
    Atoi(v).Some? && Itoa(Atoi(v).value) == v
  }

  /** A clause the builder may hold in this scope. */
  predicate GoodClause(g: Grammar, c: Clause) {
    var network := g.scope.diags.Some?;
    if IsReference(c.field) then
      && c.op == "" && |c.values| == 1 && !c.ignoreCase && !network && Quotable(c.values[0])
      && (if c.field == "tag" then g.scope.tags.Some? && c.values[0] in g.scope.tags.value else c.values[0] in g.scope.checks)
    else if c.field == "diag" then
      && network && (c.op == "ok" || c.op == "fail") && |c.values| == 1 && !c.ignoreCase
      && c.values[0] in g.scope.diags.value && GoodDiag(g.lib, c.values[0])
    else
      && FieldOf(c.field).Some?
      && (network ==> FieldOf(c.field).value.network && c.field !in g.scope.diags.value)
      && GoodComparison(g.lib, FieldOf(c.field).value.kind, c)
  }

  predicate GoodComparison(lib: Library, kind: FieldKind, c: Clause) {
    if kind == BoolField then c.op == "" && c.values == [] && !c.ignoreCase
    else if kind == NumberField then IsNumberOp(c.op) && |c.values| == 1 && IsCanonical(c.values[0]) && !c.ignoreCase
    else if c.op == "~" then |c.values| == 1 && GoodPattern(lib, c.values[0], c.ignoreCase)
    else if c.op == "in" then c.values != [] && !c.ignoreCase && forall i :: 0 <= i < |c.values| ==> Quotable(c.values[i])
    else (c.op == "=" || c.op == "!=") && |c.values| == 1 && Quotable(c.values[0]) && !c.ignoreCase
  }

  predicate IsNumberOp(op: string) {
    op == "=" || op == "!=" || op == "<" || op == "<=" || op == ">" || op == ">="
  }
}
