/** The compiled condition and its three-valued evaluation. */
module Cond {
  import opened Basics
  import opened Text

  /** Neither is a soft check failure: it passes neither passes() nor fails(). */
  datatype Tri = No | Yes | Unknown | Neither

  function TriOf(b: bool): Tri { if b then Yes else No }

  datatype NetSubject = NetSubject(kind: string, transport: string, portal: bool, metered: bool, diag: map<string, Tri>)

  /** What a condition reads about one candidate. */
  datatype Subject = Subject(
    name: string, provider: string, typ: string, server: string,
    udp: bool, alive: bool, dead: bool, measured: bool, current: bool,
    latency: int, tags: set<string>, exit: string, entry: string, country: string,
    checks: map<string, Tri>, net: Option<NetSubject>)

  /** TextNode is stringNode with values, MatchNode stringNode with a pattern. */
  datatype CondNode =
    | AndNode(items: seq<CondNode>)
    | OrNode(items: seq<CondNode>)
    | NotNode(item: CondNode)
    | BoolNode(field: string)
    | TagNode(tag: string)
    | CheckNode(check: string, pass: bool)
    | DiagNode(diag: string, ok: bool)
    | TextNode(field: string, op: string, values: seq<string>)
    | MatchNode(field: string, pattern: string)
    | NumberNode(op: string, value: int)

  datatype FieldKind = StringField | CountryField | BoolField | NumberField
  datatype Field = Field(kind: FieldKind, network: bool)

  function FieldOf(name: string): Option<Field> {
    if name == "name" || name == "provider" || name == "type" || name == "server" then Some(Field(StringField, false))
    else if name == "country" || name == "exit.country" || name == "entry.country" then Some(Field(CountryField, false))
    else if name == "udp" || name == "alive" || name == "dead" || name == "measured" || name == "current"
    then Some(Field(BoolField, false))
    else if name == "latency" then Some(Field(NumberField, false))
    else if name == "network.kind" || name == "network.transport" then Some(Field(StringField, true))
    else if name == "network.portal" || name == "metered" then Some(Field(BoolField, true))
    else None
  }

  function KnownText(s: string): Option<string> { if s == "" then None else Some(s) }

  function StringOf(s: Subject, field: string): Option<string> {
    match field
    case "name" => Some(s.name)
    case "provider" => Some(s.provider)
    case "type" => Some(s.typ)
    case "server" => Some(s.server)
    case "country" => Some(s.country)
    case "exit.country" => KnownText(s.exit)
    case "entry.country" => KnownText(s.entry)
    case _ =>
      match s.net
      case None => None
      case Some(net) => KnownText(if field == "network.kind" then net.kind else net.transport)
  }

  function BoolOf(s: Subject, field: string): Tri {
    match field
    case "udp" => TriOf(s.udp)
    case "alive" => TriOf(s.alive)
    case "dead" => TriOf(s.dead)
    case "measured" => TriOf(s.measured)
    case "current" => TriOf(s.current)
    case _ =>
      match s.net
      case None => Unknown
      case Some(net) => TriOf(if field == "metered" then net.metered else net.portal)
  }

  function EvalCheck(s: Subject, check: string, pass: bool): Tri {
    if check !in s.checks || s.checks[check] == Unknown then Unknown
    else if s.checks[check] == Neither then No
    else TriOf((s.checks[check] == Yes) == pass)
  }

  function EvalDiag(s: Subject, diag: string, ok: bool): Tri {
    match s.net
    case None => Unknown
    case Some(net) =>
      if diag !in net.diag || net.diag[diag] == Unknown then Unknown
      else TriOf((net.diag[diag] == Yes) == ok)
  }

  function EvalText(lib: Library, s: Subject, field: string, op: string, values: seq<string>): Tri {
    match StringOf(s, field)
    case None => Unknown
    case Some(value) =>
      if op == "in" then TriOf(exists v :: v in values && lib.EqualFold(v, value))
      else
        var first := if values == [] then "" else values[0];
        TriOf(lib.EqualFold(value, first) == (op != "!="))
  }

  function EvalNumber(s: Subject, op: string, value: int): Tri {
    if !s.measured then No
    else match op
      case "<" => TriOf(s.latency < value)
      case "<=" => TriOf(s.latency <= value)
      case ">" => TriOf(s.latency > value)
      case ">=" => TriOf(s.latency >= value)
      case "!=" => TriOf(s.latency != value)
      case _ => TriOf(s.latency == value)
  }

  function Eval(lib: Library, n: CondNode, s: Subject): (v: Tri)
    ensures v != Neither
    decreases n, 0
  {
    match n
    case AndNode(items) => EvalAnd(lib, items, s)
    case OrNode(items) => EvalOr(lib, items, s)
    case NotNode(item) =>
      var v := Eval(lib, item, s);
      if v == Unknown then v else TriOf(v == No)
    case BoolNode(field) => BoolOf(s, field)
    case TagNode(tag) => TriOf(tag in s.tags)
    case CheckNode(check, pass) => EvalCheck(s, check, pass)
    case DiagNode(diag, ok) => EvalDiag(s, diag, ok)
    case TextNode(field, op, values) => EvalText(lib, s, field, op, values)
    case MatchNode(field, pattern) =>
      (match StringOf(s, field)
       case None => Unknown
       case Some(value) => TriOf(lib.matches(pattern, value)))
    case NumberNode(op, value) => EvalNumber(s, op, value)
  }

  /** andNode.eval: the first No ends it, an Unknown is remembered. */
  function EvalAnd(lib: Library, items: seq<CondNode>, s: Subject): (v: Tri)
    ensures v != Neither
    decreases items, 1
  {
    if items == [] then Yes
    else
      var v := Eval(lib, items[0], s);
      if v == No then No
      else
        var rest := EvalAnd(lib, items[1..], s);
        if v == Unknown && rest == Yes then Unknown else rest
  }

  function EvalOr(lib: Library, items: seq<CondNode>, s: Subject): (v: Tri)
    ensures v != Neither
    decreases items, 1
  {
    if items == [] then No
    else
      var v := Eval(lib, items[0], s);
      if v == Yes then Yes
      else
        var rest := EvalOr(lib, items[1..], s);
        if v == Unknown && rest == No then Unknown else rest
  }

  /** Cond.Test: a condition nobody wrote holds. */
  function Test(lib: Library, cond: Option<CondNode>, s: Subject): Tri {
    if cond.None? then Yes else Eval(lib, cond.value, s)
  }

  function KleeneAnd(a: Tri, b: Tri): Tri {
    if a == No || b == No then No else if a == Yes && b == Yes then Yes else Unknown
  }

  function KleeneOr(a: Tri, b: Tri): Tri {
    if a == Yes || b == Yes then Yes else if a == No && b == No then No else Unknown
  }

  // ---- what a condition does not depend on ----

  /** No part of the condition reads whether the node is the current one. */
  predicate IgnoresCurrent(n: CondNode) {
    match n
    case AndNode(items) => forall i :: 0 <= i < |items| ==> IgnoresCurrent(items[i])
    case OrNode(items) => forall i :: 0 <= i < |items| ==> IgnoresCurrent(items[i])
    case NotNode(item) => IgnoresCurrent(item)
    case BoolNode(field) => field != "current"
    case _ => true
  }

  lemma {:induction false} CurrentIsIgnored(lib: Library, n: CondNode, s: Subject, current: bool)
    requires IgnoresCurrent(n)
    ensures Eval(lib, n, s) == Eval(lib, n, s.(current := current))
    decreases n, 0
  {
    match n
    case AndNode(items) => CurrentIsIgnoredAll(lib, items, s, current);
    case OrNode(items) => CurrentIsIgnoredAll(lib, items, s, current);
    case NotNode(item) => CurrentIsIgnored(lib, item, s, current);
    case _ =>
  }

  lemma {:induction false} CurrentIsIgnoredAll(lib: Library, items: seq<CondNode>, s: Subject, current: bool)
    requires forall i :: 0 <= i < |items| ==> IgnoresCurrent(items[i])
    ensures EvalAnd(lib, items, s) == EvalAnd(lib, items, s.(current := current))
    ensures EvalOr(lib, items, s) == EvalOr(lib, items, s.(current := current))
    decreases items, 1
  {
    if items != [] {
      CurrentIsIgnored(lib, items[0], s, current);
      CurrentIsIgnoredAll(lib, items[1..], s, current);
    }
  }

  // ---- Kleene soundness ----

  /** t knows at least what s knows about checks, and agrees on all else. */
  ghost predicate ResolvesChecks(s: Subject, t: Subject) {
    && t == s.(checks := t.checks)
    && forall c :: c in s.checks && s.checks[c] != Unknown ==> c in t.checks && t.checks[c] == s.checks[c]
  }

  /** A decided condition never flips when unknown checks get their verdict. */
  lemma {:induction false} DecidedStays(lib: Library, n: CondNode, s: Subject, t: Subject)
    requires ResolvesChecks(s, t) && Eval(lib, n, s) != Unknown
    ensures Eval(lib, n, t) == Eval(lib, n, s)
    decreases n, 0
  {
    match n
    case AndNode(items) => DecidedStaysAnd(lib, items, s, t);
    case OrNode(items) => DecidedStaysOr(lib, items, s, t);
    case NotNode(item) => DecidedStays(lib, item, s, t);
    case _ =>
  }

  lemma {:induction false} DecidedStaysAnd(lib: Library, items: seq<CondNode>, s: Subject, t: Subject)
    requires ResolvesChecks(s, t) && EvalAnd(lib, items, s) != Unknown
    ensures EvalAnd(lib, items, t) == EvalAnd(lib, items, s)
    decreases items, 1
  {
    if items != [] {
      if Eval(lib, items[0], s) != Unknown {
        DecidedStays(lib, items[0], s, t);
      }
      if Eval(lib, items[0], s) != No {
        DecidedStaysAnd(lib, items[1..], s, t);
      }
    }
  }

  lemma {:induction false} DecidedStaysOr(lib: Library, items: seq<CondNode>, s: Subject, t: Subject)
    requires ResolvesChecks(s, t) && EvalOr(lib, items, s) != Unknown
    ensures EvalOr(lib, items, t) == EvalOr(lib, items, s)
    decreases items, 1
  {
    if items != [] {
      if Eval(lib, items[0], s) != Unknown {
        DecidedStays(lib, items[0], s, t);
      }
      if Eval(lib, items[0], s) != Yes {
        DecidedStaysOr(lib, items[1..], s, t);
      }
    }
  }

  /** No part of the condition reads a check; a tag's condition never does. */
  predicate ReadsNoCheck(n: CondNode) {
    match n
    case AndNode(items) => forall i :: 0 <= i < |items| ==> ReadsNoCheck(items[i])
    case OrNode(items) => forall i :: 0 <= i < |items| ==> ReadsNoCheck(items[i])
    case NotNode(item) => ReadsNoCheck(item)
    case CheckNode(_, _) => false
    case _ => true
  }

  lemma {:induction false} ChecksAreIgnored(lib: Library, n: CondNode, s: Subject, t: Subject)
    requires ReadsNoCheck(n) && ResolvesChecks(s, t)
    ensures Eval(lib, n, s) == Eval(lib, n, t)
    decreases n, 0
  {
    match n
    case AndNode(items) => ChecksAreIgnoredAll(lib, items, s, t);
    case OrNode(items) => ChecksAreIgnoredAll(lib, items, s, t);
    case NotNode(item) => ChecksAreIgnored(lib, item, s, t);
    case _ =>
  }

  lemma {:induction false} ChecksAreIgnoredAll(lib: Library, items: seq<CondNode>, s: Subject, t: Subject)
    requires ResolvesChecks(s, t) && forall i :: 0 <= i < |items| ==> ReadsNoCheck(items[i])
    ensures EvalAnd(lib, items, s) == EvalAnd(lib, items, t)
    ensures EvalOr(lib, items, s) == EvalOr(lib, items, t)
    decreases items, 1
  {
    if items != [] {
      ChecksAreIgnored(lib, items[0], s, t);
      ChecksAreIgnoredAll(lib, items[1..], s, t);
    }
  }

  // ---- the tags a condition reads ----

  function TagsRead(n: CondNode): set<string>
    decreases n, 0
  {
    match n
    case AndNode(items) => TagsReadIn(items)
    case OrNode(items) => TagsReadIn(items)
    case NotNode(item) => TagsRead(item)
    case TagNode(tag) => {tag}
    case _ => {}
  }

  function TagsReadIn(items: seq<CondNode>): set<string>
    decreases items, 1
  {
    if items == [] then {} else TagsRead(items[0]) + TagsReadIn(items[1..])
  }

  /** The subjects differ at most in their tags, and not in these. */
  ghost predicate SameTags(s: Subject, t: Subject, tags: set<string>) {
    t == s.(tags := t.tags) && forall x :: x in tags ==> (x in s.tags <==> x in t.tags)
  }

  lemma {:induction false} OtherTagsAreIgnored(lib: Library, n: CondNode, s: Subject, t: Subject)
    requires SameTags(s, t, TagsRead(n))
    ensures Eval(lib, n, s) == Eval(lib, n, t)
    decreases n, 0
  {
    match n
    case AndNode(items) => OtherTagsAreIgnoredIn(lib, items, s, t);
    case OrNode(items) => OtherTagsAreIgnoredIn(lib, items, s, t);
    case NotNode(item) => OtherTagsAreIgnored(lib, item, s, t);
    case _ =>
  }

  lemma {:induction false} OtherTagsAreIgnoredIn(lib: Library, items: seq<CondNode>, s: Subject, t: Subject)
    requires SameTags(s, t, TagsReadIn(items))
    ensures EvalAnd(lib, items, s) == EvalAnd(lib, items, t) && EvalOr(lib, items, s) == EvalOr(lib, items, t)
    decreases items, 1
  {
    if items != [] {
      OtherTagsAreIgnored(lib, items[0], s, t);
      OtherTagsAreIgnoredIn(lib, items[1..], s, t);
    }
  }
}
