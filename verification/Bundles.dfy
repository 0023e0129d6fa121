/** Sharing: a document bundled with every profile it needs, and unpacked under
    names that are free where it lands. */
module Bundles {
  import opened Basics
  import opened Text
  import opened Merge
  import Chain

  const USER_SOURCE := "user"
  const BUILTIN_SOURCE := "builtin"
  const MAX_BUNDLE_BYTES := 262144

  /** The documents by canonical id; nothing where the text is not a document. */
  type Docs = map<string, Option<Yaml>>

  // ---- free names ----

  predicate IsNameChar(c: char) { IsAsciiLower(c) || IsAsciiDigit(c) }

  /** Every run of other characters becomes one dash. */
  function Dashed(s: string): string {
    if s == "" then ""
    else if IsNameChar(s[0]) then [s[0]] + Dashed(s[1..])
    else if |s| == 1 || IsNameChar(s[1]) then "-" + Dashed(s[1..])
    else Dashed(s[1..])
  }

  function TrimDashesLeft(s: string): string {
    if s != "" && s[0] == '-' then TrimDashesLeft(s[1..]) else s
  }

  function TrimDashesRight(s: string): string {
    if s != "" && s[|s| - 1] == '-' then TrimDashesRight(s[..|s| - 1]) else s
  }

  function BaseName(lib: Library, title: string, fallback: string): string {
    var base := TrimDashesRight(TrimDashesLeft(Dashed(lib.ToLower(title))));
    if base == "" then fallback else base
  }

  /** The names freeName tries. */
  function Numbered(base: string, i: nat): string {
    if i < 2 then base else base + "-" + Itoa(i)
  }

  function FirstFree(taken: set<string>, base: string, i: nat): string
    decreases taken
  {
    var name := Numbered(base, i);
    if name in taken then FirstFree(taken - {name}, base, i + 1) else name
  }

  function FreeName(lib: Library, taken: set<string>, title: string, fallback: string): string {
    FirstFree(taken, BaseName(lib, title, fallback), 1)
  }

  lemma ItoaIsInjective(i: nat, j: nat)
    requires Itoa(i) == Itoa(j)
    ensures i == j
  {
    DigitsRoundTrip(i);
    DigitsRoundTrip(j);
  }

  lemma NumberedIsInjective(base: string, i: nat, j: nat)
    requires 0 < i < j
    ensures Numbered(base, i) != Numbered(base, j)
  {
    var n := |base| + 1;
    if i >= 2 && Numbered(base, i) == Numbered(base, j) {
      assert Numbered(base, i)[n..] == Itoa(i) && Numbered(base, j)[n..] == Itoa(j);
      ItoaIsInjective(i, j);
    }
  }

  /** The name found is the first of those tried that is free. */
  lemma {:induction false} FirstFreeIsFirst(taken: set<string>, base: string, i: nat) returns (k: nat)
    requires 0 < i
    ensures i <= k && FirstFree(taken, base, i) == Numbered(base, k) && Numbered(base, k) !in taken
    ensures forall j :: i <= j < k ==> Numbered(base, j) in taken
    decreases taken
  {
    var name := Numbered(base, i);
    if name in taken {
      k := FirstFreeIsFirst(taken - {name}, base, i + 1);
      NumberedIsInjective(base, i, k);
    } else {
      k := i;
    }
  }

  /** A free name is not taken. */
  lemma FreeNameIsFree(lib: Library, taken: set<string>, title: string, fallback: string)
    ensures FreeName(lib, taken, title, fallback) !in taken
  {
    var k := FirstFreeIsFirst(taken, BaseName(lib, title, fallback), 1);
  }

  /** freeName: the loop over numbered names ends, at the first free one. */
  method FindFreeName(lib: Library, taken: set<string>, title: string, fallback: string) returns (name: string)
    ensures name == FreeName(lib, taken, title, fallback) && name !in taken
  {
    var base := BaseName(lib, title, fallback);
    name := base;
    var i: nat := 2;
    ghost var k := FirstFreeIsFirst(taken, base, 1);
    while name in taken
      invariant 2 <= i <= k + 1 && name == Numbered(base, i - 1)
      decreases k - i
    {
      name := base + "-" + Itoa(i);
      i := i + 1;
    }
  }

  // ---- references ----

  /** Where in a document names of profiles stand. */
  datatype Spot = Ref | Fields(fields: seq<Field>) | Values(each: Spot) | Items(each: Spot)

  datatype Field = Field(key: string, spot: Spot)

  const HELD := Fields([Field("profile", Ref)])
  const PROGRAMS := Values(HELD)
  const NETWORK := Fields([Field("groups", PROGRAMS)])
  const PROFILE := Fields([Field("extends", Ref)])
  const SCENARIO := Fields([Field("groups", PROGRAMS), Field("on", Values(NETWORK)), Field("routes", Items(HELD))])

  function SpotOf(scenario: bool): Spot { if scenario then SCENARIO else PROFILE }

  /** The names at a spot, in order. */
  function Refs(y: Yaml, spot: Spot): seq<string>
    decreases spot, 0
  {
    match spot
    case Ref => if y.Scalar? && y.text != "" then [y.text] else []
    case Fields(fields) => if y.Mapping? then RefsOfFields(y.entries, fields) else []
    case Values(each) => if y.Mapping? then RefsOfValues(y.entries, each) else []
    case Items(each) => if y.Sequence? then RefsOfItems(y.items, each) else []
  }

  function RefsOfFields(entries: seq<Entry>, fields: seq<Field>): seq<string>
    decreases fields
  {
    if fields == [] then []
    else (match ValueOf(entries, fields[0].key) case None => [] case Some(v) => Refs(v, fields[0].spot))
         + RefsOfFields(entries, fields[1..])
  }

  function RefsOfValues(entries: seq<Entry>, each: Spot): seq<string>
    decreases each, 1, |entries|
  {
    if entries == [] then [] else Refs(entries[0].value, each) + RefsOfValues(entries[1..], each)
  }

  function RefsOfItems(items: seq<Yaml>, each: Spot): seq<string>
    decreases each, 1, |items|
  {
    if items == [] then [] else Refs(items[0], each) + RefsOfItems(items[1..], each)
  }

  /** add: the profile a program or a route names. */
  method HeldRef(node: Yaml) returns (out: seq<string>)
    ensures out == Refs(node, HELD)
  {
    out := [];
    assert HELD.fields[1..] == [];
    if node.Mapping? {
      var held := ValueOf(node.entries, "profile");
      if held.Some? && held.value.Scalar? && held.value.text != "" { out := [held.value.text]; }
    }
  }

  /** programs: the profiles the groups name. */
  method ProgramRefs(groups: Option<Yaml>) returns (out: seq<string>)
    ensures out == if groups.None? then [] else Refs(groups.value, PROGRAMS)
  {
    out := [];
    if groups.Some? && groups.value.Mapping? {
      var entries := groups.value.entries;
      for i := 0 to |entries|
        invariant RefsOfValues(entries, HELD) == out + RefsOfValues(entries[i..], HELD)
      {
        var held := HeldRef(entries[i].value);
        Assoc(out, held, RefsOfValues(entries[i + 1..], HELD));
        assert entries[i..][1..] == entries[i + 1..];
        out := out + held;
      }
    }
  }

  /** The networks a scenario has groups for. */
  method NetworkRefs(on: Option<Yaml>) returns (out: seq<string>)
    ensures out == if on.None? then [] else Refs(on.value, Values(NETWORK))
  {
    out := [];
    if on.Some? && on.value.Mapping? {
      var entries := on.value.entries;
      for i := 0 to |entries|
        invariant RefsOfValues(entries, NETWORK) == out + RefsOfValues(entries[i..], NETWORK)
      {
        var network := entries[i].value;
        var programs := ProgramRefs(if network.Mapping? then ValueOf(network.entries, "groups") else None);
        if network.Mapping? { OneFieldRefs(network.entries, Field("groups", PROGRAMS)); }
        Assoc(out, programs, RefsOfValues(entries[i + 1..], NETWORK));
        assert entries[i..][1..] == entries[i + 1..];
        out := out + programs;
      }
    }
  }

  /** The routes of a scenario. */
  method RouteRefs(routes: Option<Yaml>) returns (out: seq<string>)
    ensures out == if routes.None? then [] else Refs(routes.value, Items(HELD))
  {
    out := [];
    if routes.Some? && routes.value.Sequence? {
      var items := routes.value.items;
      for i := 0 to |items|
        invariant RefsOfItems(items, HELD) == out + RefsOfItems(items[i..], HELD)
      {
        var held := HeldRef(items[i]);
        Assoc(out, held, RefsOfItems(items[i + 1..], HELD));
        assert items[i..][1..] == items[i + 1..];
        out := out + held;
      }
    }
  }

  lemma OneFieldRefs(entries: seq<Entry>, field: Field)
    ensures RefsOfFields(entries, [field]) == RefsUnder(entries, field)
  {
    assert [field][1..] == [] && RefsOfFields(entries, []) == [];
  }

  lemma FieldRefs(entries: seq<Entry>, fields: seq<Field>)
    requires fields != []
    ensures RefsOfFields(entries, fields) == RefsUnder(entries, fields[0]) + RefsOfFields(entries, fields[1..])
  {}

  lemma ScenarioRefs(entries: seq<Entry>)
    ensures Refs(Mapping(entries), SCENARIO)
      == RefsUnder(entries, Field("groups", PROGRAMS)) + RefsUnder(entries, Field("on", Values(NETWORK)))
         + RefsUnder(entries, Field("routes", Items(HELD)))
  {
    var groups, on, routes := Field("groups", PROGRAMS), Field("on", Values(NETWORK)), Field("routes", Items(HELD));
    assert SCENARIO.fields[1..] == [on, routes] && [on, routes][1..] == [routes];
    FieldRefs(entries, SCENARIO.fields);
    FieldRefs(entries, [on, routes]);
    OneFieldRefs(entries, routes);
    Assoc(RefsUnder(entries, groups), RefsUnder(entries, on), RefsUnder(entries, routes));
  }

  /** profileRefs: the names of profiles in a profile or a scenario, found where the spots say. */
  method ProfileRefs(root: Yaml, scenario: bool) returns (out: seq<string>)
    ensures out == Refs(root, SpotOf(scenario))
  {
    if !root.Mapping? { return []; }
    if !scenario {
      var extended := ValueOf(root.entries, "extends");
      assert PROFILE.fields[1..] == [];
      return if extended.Some? && extended.value.Scalar? && extended.value.text != "" then [extended.value.text] else [];
    }
    var groups := ProgramRefs(ValueOf(root.entries, "groups"));
    var on := NetworkRefs(ValueOf(root.entries, "on"));
    var routes := RouteRefs(ValueOf(root.entries, "routes"));
    ScenarioRefs(root.entries);
    out := groups + on + routes;
  }

  function RefsUnder(entries: seq<Entry>, field: Field): seq<string> {
    match ValueOf(entries, field.key) case None => [] case Some(v) => Refs(v, field.spot)
  }

  /** What a name is rewritten to. */
  datatype Naming =
    | Outward(parts: seq<Part>)
    | Inward(renamed: map<string, string>)
    | Then(first: Naming, second: Naming)
    | Blanked

  /** A profile reached, and its name in the bundle. */
  datatype Part = Part(canon: string, name: string)

  function Own(name: string): string { USER_SOURCE + "/" + name }

  predicate IsBuiltin(r: string) { StartsWith(Chain.CanonicalId(r), BUILTIN_SOURCE + "/") }

  function PartOf(parts: seq<Part>, canon: string): Option<Part> {
    if parts == [] then None
    else if parts[0].canon == canon then Some(parts[0])
    else PartOf(parts[1..], canon)
  }

  function Apply(naming: Naming, r: string): string {
    match naming
    case Outward(parts) =>
      if IsBuiltin(r) then r
      else (match PartOf(parts, Chain.CanonicalId(r)) case None => r case Some(p) => Own(p.name))
    case Inward(renamed) =>
      if StartsWith(r, Own("")) && r[|Own("")|..] in renamed then Own(renamed[r[|Own("")|..]]) else r
    case Then(a, b) => Apply(b, Apply(a, r))
    case Blanked => "_"
  }

  /** The document with the names at a spot rewritten. */
  function Rename(y: Yaml, spot: Spot, naming: Naming): Yaml
    decreases spot, 0
  {
    match spot
    case Ref => if y.Scalar? && y.text != "" then Word(Apply(naming, y.text)) else y
    case Fields(fields) => if y.Mapping? then Mapping(RenameFields(y.entries, fields, naming)) else y
    case Values(each) => if y.Mapping? then Mapping(RenameValues(y.entries, each, naming)) else y
    case Items(each) => if y.Sequence? then Sequence(RenameItems(y.items, each, naming)) else y
  }

  function Word(text: string): Yaml { Scalar(text, Str(text)) }

  function RenameFields(entries: seq<Entry>, fields: seq<Field>, naming: Naming): seq<Entry>
    decreases fields
  {
    if fields == [] then entries
    else RenameFields(RenameAt(entries, fields[0], naming), fields[1..], naming)
  }

  /** The first entry with the field's key. */
  function RenameAt(entries: seq<Entry>, field: Field, naming: Naming): seq<Entry>
    decreases field, 1, |entries|
  {
    if entries == [] then []
    else if entries[0].key == field.key then
      [Entry(field.key, Rename(entries[0].value, field.spot, naming))] + entries[1..]
    else [entries[0]] + RenameAt(entries[1..], field, naming)
  }

  function RenameValues(entries: seq<Entry>, each: Spot, naming: Naming): seq<Entry>
    decreases each, 1, |entries|
  {
    if entries == [] then []
    else [Entry(entries[0].key, Rename(entries[0].value, each, naming))] + RenameValues(entries[1..], each, naming)
  }

  function RenameItems(items: seq<Yaml>, each: Spot, naming: Naming): seq<Yaml>
    decreases each, 1, |items|
  {
    if items == [] then [] else [Rename(items[0], each, naming)] + RenameItems(items[1..], each, naming)
  }

  // ---- export ----

  /** What mapValue and Value give of a title. */
  function TitleOf(y: Yaml): string {
    if !y.Mapping? then ""
    else match ValueOf(y.entries, "title")
      case Some(Scalar(text, _)) => text
      case _ => ""
  }

  /** The text after the last slash. */
  function AfterSlash(id: string): string {
    if id == "" || id[|id| - 1] == '/' then "" else AfterSlash(id[..|id| - 1]) + [id[|id| - 1]]
  }

  function LabelOf(y: Yaml, id: string): string { if TitleOf(y) != "" then TitleOf(y) else AfterSlash(id) }

  function Canons(parts: seq<Part>): set<string> { set p | p in parts :: p.canon }

  function Names(parts: seq<Part>): set<string> { set p | p in parts :: p.name }

  predicate IsReadable(docs: Docs, canon: string) { canon in docs && docs[canon].Some? }

  predicate AllReadable(docs: Docs, parts: seq<Part>) { forall k :: 0 <= k < |parts| ==> IsReadable(docs, parts[k].canon) }

  function PartFor(lib: Library, docs: Docs, parts: seq<Part>, canon: string): Part
    requires IsReadable(docs, canon)
  {
    Part(canon, FreeName(lib, Names(parts), LabelOf(docs[canon].value, canon), "profile"))
  }

  lemma CanonsGrow(parts: seq<Part>, part: Part)
    ensures Canons(parts + [part]) == Canons(parts) + {part.canon}
    ensures Names(parts + [part]) == Names(parts) + {part.name}
  {
    assert part in parts + [part];
  }

  /** The profiles a queue of names reaches, breadth first, behind those reached before. */
  function Gather(lib: Library, docs: Docs, queue: seq<string>, parts: seq<Part>): Option<seq<Part>>
    decreases docs.Keys - Canons(parts), |queue|
  {
    if queue == [] then Some(parts)
    else
      var canon := Chain.CanonicalId(queue[0]);
      if IsBuiltin(queue[0]) || canon in Canons(parts) then Gather(lib, docs, queue[1..], parts)
      else if !IsReadable(docs, canon) then None
      else
        var part := PartFor(lib, docs, parts, canon);
        CanonsGrow(parts, part);
        Gather(lib, docs, queue[1..] + Refs(docs[canon].value, PROFILE), parts + [part])
  }

  /** The loop of Export over its queue, with its map of names. */
  method Collect(lib: Library, docs: Docs, root: Yaml, scenario: bool) returns (parts: Option<seq<Part>>)
    ensures parts == Gather(lib, docs, Refs(root, SpotOf(scenario)), [])
  {
    var queue := ProfileRefs(root, scenario);
    var names: map<string, string> := map[];
    var used: set<string> := {};
    var order: seq<Part> := [];
    while queue != []
      invariant names.Keys == Canons(order) && used == Names(order)
      invariant Gather(lib, docs, queue, order) == Gather(lib, docs, Refs(root, SpotOf(scenario)), [])
      decreases docs.Keys - Canons(order), |queue|
    {
      var r := queue[0];
      var canon := Chain.CanonicalId(r);
      if IsBuiltin(r) || canon in names {
        queue := queue[1..];
      } else {
        if !IsReadable(docs, canon) { return None; }
        var doc := docs[canon].value;
        var name := FindFreeName(lib, used, LabelOf(doc, canon), "profile");
        CanonsGrow(order, Part(canon, name));
        names := names[canon := name];
        used := used + {name};
        order := order + [Part(canon, name)];
        var refs := ProfileRefs(doc, false);
        queue := queue[1..] + refs;
      }
    }
    parts := Some(order);
  }

  /** The entries of the profiles reached, every name in them rewritten. */
  function PartEntries(docs: Docs, parts: seq<Part>, naming: Naming): seq<Entry>
    requires AllReadable(docs, parts)
  {
    if parts == [] then []
    else [Entry(parts[0].name, Rename(docs[parts[0].canon].value, PROFILE, naming))] + PartEntries(docs, parts[1..], naming)
  }

  function RootEntry(lib: Library, id: string, root: Yaml, scenario: bool, parts: seq<Part>): Entry {
    Entry(FreeName(lib, Names(parts), LabelOf(root, id), KindWord(scenario)), Rename(root, SpotOf(scenario), Outward(parts)))
  }

  function KindWord(scenario: bool): string { if scenario then "scenario" else "profile" }

  /** The bundle of a document and the profiles it reaches. */
  function Packed(lib: Library, docs: Docs, id: string, root: Yaml, scenario: bool, parts: seq<Part>): Yaml
    requires AllReadable(docs, parts)
  {
    BundleOf(LabelOf(root, id), scenario, RootEntry(lib, id, root, scenario, parts), PartEntries(docs, parts, Outward(parts)))
  }

  function BundleOf(title: string, scenario: bool, own: Entry, others: seq<Entry>): Yaml {
    Mapping(
      [Entry("rcx", Scalar("1", Other("1"))), Entry("kind", Word("bundle")), Entry("title", Word(title))]
      + (if scenario then [Entry("scenarios", Mapping([own]))] else [])
      + [Entry("profiles", Mapping((if scenario then [] else [own]) + others))])
  }

  /** Export, once the document of the id is read. */
  function Export(lib: Library, docs: Docs, id: string, root: Yaml, scenario: bool): Option<Yaml> {
    match Gather(lib, docs, Refs(root, SpotOf(scenario)), [])
    case None => None
    case Some(parts) =>
      if parts == [] then Some(root)
      else GatheredAreReadable(lib, docs, Refs(root, SpotOf(scenario)), []); Some(Packed(lib, docs, id, root, scenario, parts))
  }

  lemma {:induction false} GatheredAreReadable(lib: Library, docs: Docs, queue: seq<string>, parts: seq<Part>)
    requires AllReadable(docs, parts)
    ensures var all := Gather(lib, docs, queue, parts);
      all.Some? ==> AllReadable(docs, all.value)
    decreases docs.Keys - Canons(parts), |queue|
  {
    if queue != [] {
      var canon := Chain.CanonicalId(queue[0]);
      if IsBuiltin(queue[0]) || canon in Canons(parts) {
        GatheredAreReadable(lib, docs, queue[1..], parts);
      } else if IsReadable(docs, canon) {
        var part := PartFor(lib, docs, parts, canon);
        CanonsGrow(parts, part);
        GatheredAreReadable(lib, docs, queue[1..] + Refs(docs[canon].value, PROFILE), parts + [part]);
      }
    }
  }

  // ---- unpack ----

  datatype BundleDoc = BundleDoc(scenario: bool, key: string, node: Yaml)

  datatype Reading = NotABundle | BadBundle | Bundle(docs: seq<BundleDoc>)

  /** One section of a bundle: nothing when it or one of its documents is not a mapping. */
  function SectionOf(root: Yaml, scenario: bool): Option<seq<BundleDoc>>
    requires root.Mapping?
  {
    match ValueOf(root.entries, if scenario then "scenarios" else "profiles")
    case None => Some([])
    case Some(node) => if node.Mapping? then DocsOf(node.entries, scenario) else None
  }

  function DocsOf(entries: seq<Entry>, scenario: bool): Option<seq<BundleDoc>> {
    if entries == [] then Some([])
    else if !entries[0].value.Mapping? then None
    else match DocsOf(entries[1..], scenario)
      case None => None
      case Some(rest) => Some([BundleDoc(scenario, entries[0].key, entries[0].value)] + rest)
  }

  /** readBundle, of a text of so many bytes. */
  function ReadBundle(root: Yaml, bytes: nat): Reading {
    if !root.Mapping? || ValueText(root, "kind") != "bundle" then NotABundle
    else if bytes > MAX_BUNDLE_BYTES then BadBundle
    else match (SectionOf(root, false), SectionOf(root, true))
      case (Some(profiles), Some(scenarios)) => if profiles + scenarios == [] then BadBundle else Bundle(profiles + scenarios)
      case _ => BadBundle
  }

  function ValueText(root: Yaml, key: string): string
    requires root.Mapping?
  {
    match ValueOf(root.entries, key)
    case Some(Scalar(text, _)) => text
    case _ => ""
  }

  /** A document unpacked. */
  datatype Item = Item(scenario: bool, name: string, title: string, doc: Yaml)

  /** ParseProfile and ParseScenario, as to whether they accept. */
  datatype Parsers = Parsers(profile: Yaml -> bool, scenario: Yaml -> bool)

  /** plainKind: whether a document on its own is a scenario. */
  predicate IsPlainScenario(parsers: Parsers, root: Yaml) {
    || (root.Mapping? && (HasKey(root.entries, "groups") || HasKey(root.entries, "mode") || HasKey(root.entries, "routes")))
    || (!parsers.profile(root) && parsers.scenario(root))
  }

  /** The names documents get, one after another. */
  function NewNames(lib: Library, taken: set<string>, docs: seq<BundleDoc>): (names: seq<string>)
    ensures |names| == |docs|
    decreases |docs|
  {
    if docs == [] then []
    else
      var name := FreeName(lib, taken, docs[0].key, KindWord(docs[0].scenario));
      [name] + NewNames(lib, taken + {name}, docs[1..])
  }

  /** From the key of each profile to its new name; of equal keys the last counts. */
  function RenamedOf(docs: seq<BundleDoc>, names: seq<string>): map<string, string>
    requires |docs| == |names|
  {
    if docs == [] then map[]
    else
      var last := |docs| - 1;
      var before := RenamedOf(docs[..last], names[..last]);
      if docs[last].scenario then before else before[docs[last].key := names[last]]
  }

  function Landed(doc: BundleDoc, name: string, naming: Naming): Item {
    Item(doc.scenario, name, TitleOf(doc.node), Rename(doc.node, SpotOf(doc.scenario), naming))
  }

  function AllLanded(docs: seq<BundleDoc>, names: seq<string>, naming: Naming): seq<Item>
    requires |docs| == |names|
  {
    if docs == [] then [] else [Landed(docs[0], names[0], naming)] + AllLanded(docs[1..], names[1..], naming)
  }

  /** Unpack. */
  function Unpack(lib: Library, parsers: Parsers, root: Yaml, bytes: nat, taken: set<string>): Option<seq<Item>> {
    match ReadBundle(root, bytes)
    case BadBundle => None
    case NotABundle =>
      var scenario := IsPlainScenario(parsers, root);
      Some([Item(scenario, FreeName(lib, taken, TitleOf(root), KindWord(scenario)), TitleOf(root), root)])
    case Bundle(docs) =>
      var names := NewNames(lib, taken, docs);
      Some(AllLanded(docs, names, Inward(RenamedOf(docs, names))))
  }

  lemma NamesUpTo(lib: Library, used: set<string>, docs: seq<BundleDoc>, i: nat, names: seq<string>)
    requires i < |docs| && |names| == i
    ensures var name := FreeName(lib, used, docs[i].key, KindWord(docs[i].scenario));
      && names + NewNames(lib, used, docs[i..]) == names + [name] + NewNames(lib, used + {name}, docs[i + 1..])
      && RenamedOf(docs[..i + 1], names + [name]) ==
        if docs[i].scenario then RenamedOf(docs[..i], names) else RenamedOf(docs[..i], names)[docs[i].key := name]
  {
    var name := FreeName(lib, used, docs[i].key, KindWord(docs[i].scenario));
    assert docs[..i + 1][..i] == docs[..i] && (names + [name])[..i] == names && docs[i..][1..] == docs[i + 1..];
    Assoc(names, [name], NewNames(lib, used + {name}, docs[i + 1..]));
  }

  /** The loop of Unpack that names the documents of a bundle. */
  method NameDocs(lib: Library, docs: seq<BundleDoc>, taken: seq<string>)
    returns (names: seq<string>, renamed: map<string, string>)
    ensures names == NewNames(lib, (set n | n in taken), docs) && renamed == RenamedOf(docs, names)
  {
    var used := set n | n in taken;
    renamed, names := map[], [];
    ghost var all := NewNames(lib, used, docs);
    for i := 0 to |docs|
      invariant |names| == i && all == names + NewNames(lib, used, docs[i..])
      invariant renamed == RenamedOf(docs[..i], names)
    {
      var name := FindFreeName(lib, used, docs[i].key, KindWord(docs[i].scenario));
      NamesUpTo(lib, used, docs, i, names);
      used := used + {name};
      names := names + [name];
      if !docs[i].scenario { renamed := renamed[docs[i].key := name]; }
    }
    assert docs[..|docs|] == docs;
  }

  /** The loop of Unpack that rewrites them, once all are named. */
  method RenameDocs(docs: seq<BundleDoc>, names: seq<string>, renamed: map<string, string>) returns (items: seq<Item>)
    requires |docs| == |names|
    ensures items == AllLanded(docs, names, Inward(renamed))
  {
    items := [];
    ghost var wanted := AllLanded(docs, names, Inward(renamed));
    for i := 0 to |docs|
      invariant wanted == items + AllLanded(docs[i..], names[i..], Inward(renamed))
    {
      var item := Landed(docs[i], names[i], Inward(renamed));
      assert docs[i..][1..] == docs[i + 1..] && names[i..][1..] == names[i + 1..];
      Assoc(items, [item], AllLanded(docs[i + 1..], names[i + 1..], Inward(renamed)));
      items := items + [item];
    }
  }
}
