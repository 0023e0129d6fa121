/** A bundle holds exactly what its document needs, and unpacks to the same
    documents referring to one another the same way. */
module Sharing {
  import opened Basics
  import opened Text
  import opened Merge
  import opened Bundles
  import opened BundleLaws
  import Chain

  // ---- what is reached ----

  /** The profiles names stand for, built-in ones aside. */
  function Owed(names: seq<string>): set<string> {
    set r | r in names && !IsBuiltin(r) :: Chain.CanonicalId(r)
  }

  lemma OwedJoins(a: seq<string>, b: seq<string>)
    ensures Owed(a + b) == Owed(a) + Owed(b)
  {}

  lemma OwedHead(names: seq<string>)
    requires names != []
    ensures Owed(names) == (if IsBuiltin(names[0]) then {} else {Chain.CanonicalId(names[0])}) + Owed(names[1..])
  {
    assert names == [names[0]] + names[1..];
    OwedJoins([names[0]], names[1..]);
    assert names[0] in [names[0]];
  }

  lemma OwedHas(names: seq<string>, r: string)
    requires r in names
    ensures IsBuiltin(r) || Chain.CanonicalId(r) in Owed(names)
  {}

  function OwedBy(docs: Docs, canon: string): set<string> {
    if IsReadable(docs, canon) then Owed(Refs(docs[canon].value, PROFILE)) else {}
  }

  /** A set that holds what the names stand for, and with a profile what it extends. */
  ghost predicate Closed(docs: Docs, names: seq<string>, s: set<string>) {
    Owed(names) <= s && forall c :: c in s ==> OwedBy(docs, c) <= s
  }

  ghost predicate AllReadableIn(docs: Docs, s: set<string>) { forall c :: c in s ==> IsReadable(docs, c) }

  /** What the profiles gathered so far still need is in the queue. */
  ghost predicate Covered(docs: Docs, parts: seq<Part>, queue: seq<string>) {
    && AllReadableIn(docs, Canons(parts))
    && forall c :: c in Canons(parts) ==> OwedBy(docs, c) <= Canons(parts) + Owed(queue)
  }

  lemma SkippingCovers(docs: Docs, parts: seq<Part>, queue: seq<string>)
    requires queue != [] && Covered(docs, parts, queue)
    requires IsBuiltin(queue[0]) || Chain.CanonicalId(queue[0]) in Canons(parts)
    ensures Covered(docs, parts, queue[1..]) && Canons(parts) + Owed(queue) == Canons(parts) + Owed(queue[1..])
  {
    OwedHead(queue);
  }

  lemma TakingCovers(docs: Docs, parts: seq<Part>, part: Part, queue: seq<string>)
    requires queue != [] && Covered(docs, parts, queue) && IsReadable(docs, part.canon)
    requires !IsBuiltin(queue[0]) && Chain.CanonicalId(queue[0]) == part.canon
    ensures Covered(docs, parts + [part], queue[1..] + Refs(docs[part.canon].value, PROFILE))
    ensures Canons(parts) + Owed(queue) <= Canons(parts + [part]) + Owed(queue[1..] + Refs(docs[part.canon].value, PROFILE))
  {
    var refs := Refs(docs[part.canon].value, PROFILE);
    OwedHead(queue);
    CanonsGrow(parts, part);
    OwedJoins(queue[1..], refs);
    var all := Canons(parts + [part]) + Owed(queue[1..] + refs);
    assert Canons(parts) + Owed(queue) <= all;
    forall c | c in Canons(parts + [part]) ensures OwedBy(docs, c) <= all {
      if c in Canons(parts) { assert OwedBy(docs, c) <= Canons(parts) + Owed(queue); }
    }
  }

  lemma {:induction false} GatheredCovers(lib: Library, docs: Docs, queue: seq<string>, parts: seq<Part>)
    requires Covered(docs, parts, queue)
    ensures match Gather(lib, docs, queue, parts)
      case None => true
      case Some(all) => Covered(docs, all, []) && Canons(parts) + Owed(queue) <= Canons(all)
    decreases docs.Keys - Canons(parts), |queue|
  {
    if queue != [] {
      var canon := Chain.CanonicalId(queue[0]);
      if IsBuiltin(queue[0]) || canon in Canons(parts) {
        SkippingCovers(docs, parts, queue);
        GatheredCovers(lib, docs, queue[1..], parts);
      } else if IsReadable(docs, canon) {
        var part := PartFor(lib, docs, parts, canon);
        CanonsGrow(parts, part);
        TakingCovers(docs, parts, part, queue);
        GatheredCovers(lib, docs, queue[1..] + Refs(docs[canon].value, PROFILE), parts + [part]);
      }
    }
  }

  lemma {:induction false} GatheredIsNeeded(lib: Library, docs: Docs, queue: seq<string>, parts: seq<Part>,
      s: set<string>)
    requires Canons(parts) <= s && Closed(docs, queue, s)
    ensures match Gather(lib, docs, queue, parts)
      case None => !AllReadableIn(docs, s)
      case Some(all) => Canons(all) <= s
    decreases docs.Keys - Canons(parts), |queue|
  {
    if queue != [] {
      var canon := Chain.CanonicalId(queue[0]);
      OwedHead(queue);
      if IsBuiltin(queue[0]) || canon in Canons(parts) {
        GatheredIsNeeded(lib, docs, queue[1..], parts, s);
      } else if IsReadable(docs, canon) {
        var part := PartFor(lib, docs, parts, canon);
        var refs := Refs(docs[canon].value, PROFILE);
        CanonsGrow(parts, part);
        OwedJoins(queue[1..], refs);
        assert OwedBy(docs, canon) <= s;
        GatheredIsNeeded(lib, docs, queue[1..] + refs, parts + [part], s);
      }
    }
  }

  function Reached(lib: Library, docs: Docs, root: Yaml, scenario: bool): Option<seq<Part>> {
    Gather(lib, docs, Refs(root, SpotOf(scenario)), [])
  }

  /** What Export gathers is the least set that holds what the document needs. */
  lemma ReachedIsLeast(lib: Library, docs: Docs, root: Yaml, scenario: bool, s: set<string>)
    requires Reached(lib, docs, root, scenario).Some?
    ensures var got := Canons(Reached(lib, docs, root, scenario).value);
      && Closed(docs, Refs(root, SpotOf(scenario)), got) && AllReadableIn(docs, got)
      && (Closed(docs, Refs(root, SpotOf(scenario)), s) ==> got <= s)
  {
    var refs := Refs(root, SpotOf(scenario));
    GatheredCovers(lib, docs, refs, []);
    if Closed(docs, refs, s) { GatheredIsNeeded(lib, docs, refs, [], s); }
  }

  /** Export fails exactly when something needed is missing or no document. */
  lemma ExportFailsIff(lib: Library, docs: Docs, id: string, root: Yaml, scenario: bool)
    ensures Export(lib, docs, id, root, scenario).Some? <==>
      exists s :: Closed(docs, Refs(root, SpotOf(scenario)), s) && AllReadableIn(docs, s)
  {
    var refs := Refs(root, SpotOf(scenario));
    if Reached(lib, docs, root, scenario).Some? {
      ReachedIsLeast(lib, docs, root, scenario, {});
    } else {
      forall s | Closed(docs, refs, s) ensures !AllReadableIn(docs, s) { GatheredIsNeeded(lib, docs, refs, [], s); }
    }
  }

  /** Canonical ids and names of the parts are told apart. */
  predicate Apart(parts: seq<Part>) {
    forall i, j :: 0 <= i < j < |parts| ==> parts[i].canon != parts[j].canon && parts[i].name != parts[j].name
  }

  lemma ApartGrows(parts: seq<Part>, part: Part)
    requires Apart(parts) && part.canon !in Canons(parts) && part.name !in Names(parts)
    ensures Apart(parts + [part])
  {
    forall i | 0 <= i < |parts| ensures parts[i].canon != part.canon && parts[i].name != part.name {
      assert parts[i] in parts;
    }
  }

  lemma {:induction false} GatheredAreApart(lib: Library, docs: Docs, queue: seq<string>, parts: seq<Part>)
    requires Apart(parts)
    ensures Gather(lib, docs, queue, parts).Some? ==> Apart(Gather(lib, docs, queue, parts).value)
    decreases docs.Keys - Canons(parts), |queue|
  {
    if queue != [] {
      var canon := Chain.CanonicalId(queue[0]);
      if IsBuiltin(queue[0]) || canon in Canons(parts) {
        GatheredAreApart(lib, docs, queue[1..], parts);
      } else if IsReadable(docs, canon) {
        var part := PartFor(lib, docs, parts, canon);
        CanonsGrow(parts, part);
        FreeNameIsFree(lib, Names(parts), LabelOf(docs[canon].value, canon), "profile");
        ApartGrows(parts, part);
        GatheredAreApart(lib, docs, queue[1..] + Refs(docs[canon].value, PROFILE), parts + [part]);
      }
    }
  }

  // ---- reading a bundle back ----

  predicate AllMappings(entries: seq<Entry>) { entries == [] || (entries[0].value.Mapping? && AllMappings(entries[1..])) }

  function BundleDocs(entries: seq<Entry>, scenario: bool): (docs: seq<BundleDoc>)
    ensures |docs| == |entries|
  {
    if entries == [] then [] else [BundleDoc(scenario, entries[0].key, entries[0].value)] + BundleDocs(entries[1..], scenario)
  }

  lemma {:induction false} DocsAreMappings(entries: seq<Entry>, scenario: bool)
    ensures DocsOf(entries, scenario) == if AllMappings(entries) then Some(BundleDocs(entries, scenario)) else None
    decreases |entries|
  {
    if entries != [] { DocsAreMappings(entries[1..], scenario); }
  }

  /** The documents a bundle is packed from are mappings. */
  predicate AreMappings(docs: Docs, parts: seq<Part>)
    requires AllReadable(docs, parts)
  {
    forall k :: 0 <= k < |parts| ==> docs[parts[k].canon].value.Mapping?
  }

  lemma {:induction false} PartsAreMappings(docs: Docs, parts: seq<Part>, naming: Naming)
    requires AllReadable(docs, parts)
    ensures AllMappings(PartEntries(docs, parts, naming)) <==> AreMappings(docs, parts)
    decreases |parts|
  {
    if parts != [] {
      PartsAreMappings(docs, parts[1..], naming);
      if AreMappings(docs, parts[1..]) && docs[parts[0].canon].value.Mapping? {
        forall k | 0 <= k < |parts| ensures docs[parts[k].canon].value.Mapping? {
          if k > 0 { assert parts[k] == parts[1..][k - 1]; }
        }
      }
    }
  }

  /** Where the root and each part come to stand. */
  function RootPlace(scenario: bool, parts: seq<Part>): nat { if scenario then |parts| else 0 }

  function PartPlace(scenario: bool, k: nat): nat { if scenario then k else k + 1 }

  function PackedDocs(lib: Library, docs: Docs, id: string, root: Yaml, scenario: bool,
      parts: seq<Part>): seq<BundleDoc>
    requires AllReadable(docs, parts)
  {
    DocsInOrder(scenario, RootEntry(lib, id, root, scenario, parts), PartEntries(docs, parts, Outward(parts)))
  }

  lemma {:induction false} PartDocAt(docs: Docs, parts: seq<Part>, naming: Naming, k: nat)
    requires AllReadable(docs, parts) && k < |parts|
    ensures |BundleDocs(PartEntries(docs, parts, naming), false)| == |parts|
    ensures BundleDocs(PartEntries(docs, parts, naming), false)[k]
      == BundleDoc(false, parts[k].name, Rename(docs[parts[k].canon].value, PROFILE, naming))
    decreases |parts|
  {
    if |parts| > 1 {
      PartDocAt(docs, parts[1..], naming, if k == 0 then 0 else k - 1);
    }
  }

  lemma {:induction false} PackedAt(lib: Library, docs: Docs, id: string, root: Yaml, scenario: bool,
      parts: seq<Part>, k: nat)
    requires AllReadable(docs, parts) && k < |parts|
    ensures var packed := PackedDocs(lib, docs, id, root, scenario, parts);
      && |packed| == |parts| + 1
      && packed[RootPlace(scenario, parts)].scenario == scenario
      && packed[RootPlace(scenario, parts)].key == RootEntry(lib, id, root, scenario, parts).key
      && packed[RootPlace(scenario, parts)].node == Rename(root, SpotOf(scenario), Outward(parts))
      && packed[PartPlace(scenario, k)]
        == BundleDoc(false, parts[k].name, Rename(docs[parts[k].canon].value, PROFILE, Outward(parts)))
  {
    PartDocAt(docs, parts, Outward(parts), k);
  }

  /** A bundle is read back as what was packed, if and only if its text fits and
      every document in it is a mapping. */
  lemma BundleReads(lib: Library, docs: Docs, id: string, root: Yaml, scenario: bool, parts: seq<Part>, bytes: nat)
    requires AllReadable(docs, parts) && parts != []
    ensures ReadBundle(Packed(lib, docs, id, root, scenario, parts), bytes) ==
      if bytes <= MAX_BUNDLE_BYTES && root.Mapping? && AreMappings(docs, parts)
      then Bundle(PackedDocs(lib, docs, id, root, scenario, parts)) else BadBundle
  {
    var own := RootEntry(lib, id, root, scenario, parts);
    var others := PartEntries(docs, parts, Outward(parts));
    PartsAreMappings(docs, parts, Outward(parts));
    PartDocAt(docs, parts, Outward(parts), 0);
    SectionsRead(LabelOf(root, id), scenario, own, others, bytes);
    assert own.value.Mapping? == root.Mapping?;
  }

  function DocsInOrder(scenario: bool, own: Entry, others: seq<Entry>): seq<BundleDoc> {
    if scenario then BundleDocs(others, false) + BundleDocs([own], true) else BundleDocs([own], false) + BundleDocs(others, false)
  }

  lemma SectionsRead(title: string, scenario: bool, own: Entry, others: seq<Entry>, bytes: nat)
    ensures ReadBundle(BundleOf(title, scenario, own, others), bytes) ==
      if bytes <= MAX_BUNDLE_BYTES && own.value.Mapping? && AllMappings(others)
      then Bundle(DocsInOrder(scenario, own, others)) else BadBundle
  {
    var bundle := BundleOf(title, scenario, own, others);
    SectionsFound(title, scenario, own, others);
    var profiles := if scenario then others else [own] + others;
    DocsAreMappings([own], true);
    DocsAreMappings(profiles, false);
    assert ([own] + others)[1..] == others && [own][1..] == [];
    assert SectionOf(bundle, false) == if AllMappings(profiles) then Some(BundleDocs(profiles, false)) else None;
    assert SectionOf(bundle, true) ==
      if !scenario then Some([]) else if own.value.Mapping? then Some(BundleDocs([own], true)) else None;
    if !scenario { assert BundleDocs(profiles, false) + [] == BundleDocs([own], false) + BundleDocs(others, false); }
  }

  /** The sections of a bundle, found by key. */
  lemma SectionsFound(title: string, scenario: bool, own: Entry, others: seq<Entry>)
    ensures var bundle := BundleOf(title, scenario, own, others);
      && ValueText(bundle, "kind") == "bundle"
      && ValueOf(bundle.entries, "scenarios") == (if scenario then Some(Mapping([own])) else None)
      && ValueOf(bundle.entries, "profiles") == Some(Mapping(if scenario then others else [own] + others))
  {
    var rcx, kind, name := Entry("rcx", Scalar("1", Other("1"))), Entry("kind", Word("bundle")), Entry("title", Word(title));
    var profiles := Entry("profiles", Mapping((if scenario then [] else [own]) + others));
    var scenarios := Entry("scenarios", Mapping([own]));
    var rest := (if scenario then [scenarios] else []) + [profiles];
    assert BundleOf(title, scenario, own, others).entries == [rcx, kind, name] + rest;
    assert [] + others == others;
    Header(rcx, kind, name, rest);
    Behind(profiles, [], "profiles");
    Behind(profiles, [], "scenarios");
    if scenario {
      Behind(scenarios, [profiles], "profiles");
      Behind(scenarios, [profiles], "scenarios");
    } else {
      assert rest == [profiles];
    }
  }

  lemma Header(rcx: Entry, kind: Entry, name: Entry, rest: seq<Entry>)
    requires rcx.key == "rcx" && kind.key == "kind" && name.key == "title"
    ensures var all := [rcx, kind, name] + rest;
      && ValueOf(all, "kind") == Some(kind.value)
      && ValueOf(all, "profiles") == ValueOf(rest, "profiles")
      && ValueOf(all, "scenarios") == ValueOf(rest, "scenarios")
  {
    assert [rcx, kind, name] + rest == [rcx] + ([kind] + ([name] + rest));
    Past(rcx, kind, name, rest, "profiles");
    Past(rcx, kind, name, rest, "scenarios");
    Behind(rcx, [kind] + ([name] + rest), "kind");
    Behind(kind, [name] + rest, "kind");
  }

  lemma Past(a: Entry, b: Entry, c: Entry, rest: seq<Entry>, key: string)
    requires a.key != key && b.key != key && c.key != key
    ensures ValueOf([a] + ([b] + ([c] + rest)), key) == ValueOf(rest, key)
  {
    Behind(a, [b] + ([c] + rest), key);
    Behind(b, [c] + rest, key);
    Behind(c, rest, key);
  }

  lemma Behind(e: Entry, rest: seq<Entry>, key: string)
    ensures ValueOf([e] + rest, key) == if e.key == key then Some(e.value) else ValueOf(rest, key)
    ensures [e] + [] == [e]
  {
    assert ([e] + rest)[1..] == rest;
  }

  // ---- names of documents unpacked ----

  predicate AllDiffer(names: seq<string>) { forall i, j :: 0 <= i < j < |names| ==> names[i] != names[j] }

  /** Documents unpacked, of whatever bundle, get names that differ and are free. */
  lemma {:induction false} NewNamesAreFree(lib: Library, taken: set<string>, docs: seq<BundleDoc>)
    ensures var names := NewNames(lib, taken, docs);
      AllDiffer(names) && forall k :: 0 <= k < |names| ==> names[k] !in taken
    decreases |docs|
  {
    if docs != [] {
      var name := FreeName(lib, taken, docs[0].key, KindWord(docs[0].scenario));
      FreeNameIsFree(lib, taken, docs[0].key, KindWord(docs[0].scenario));
      NewNamesAreFree(lib, taken + {name}, docs[1..]);
      var rest := NewNames(lib, taken + {name}, docs[1..]);
      var names := NewNames(lib, taken, docs);
      forall i, j | 0 <= i < j < |names| ensures names[i] != names[j] {
        assert names[j] == rest[j - 1];
        if i > 0 { assert names[i] == rest[i - 1]; }
      }
    }
  }

  predicate KeysDiffer(docs: seq<BundleDoc>) { forall i, j :: 0 <= i < j < |docs| ==> docs[i].key != docs[j].key }

  lemma {:induction false} RenamedAtKey(docs: seq<BundleDoc>, names: seq<string>, k: nat)
    requires |docs| == |names| && KeysDiffer(docs) && k < |docs| && !docs[k].scenario
    ensures docs[k].key in RenamedOf(docs, names) && RenamedOf(docs, names)[docs[k].key] == names[k]
    decreases |docs|
  {
    var last := |docs| - 1;
    if k < last { RenamedAtKey(docs[..last], names[..last], k); }
  }

  // ---- there and back ----

  lemma {:induction false} PartIs(parts: seq<Part>, k: nat)
    requires k < |parts| && forall i, j :: 0 <= i < j < |parts| ==> parts[i].canon != parts[j].canon
    ensures PartOf(parts, parts[k].canon) == Some(parts[k])
    decreases |parts|
  {
    if k > 0 { PartIs(parts[1..], k - 1); }
  }

  /** The parts under the names they are unpacked to. */
  function Relocated(scenario: bool, parts: seq<Part>, names: seq<string>): (moved: seq<Part>)
    requires |names| == |parts| + 1
    ensures |moved| == |parts|
  {
    seq(|parts|, k requires 0 <= k < |parts| => Part(parts[k].canon, names[PartPlace(scenario, k)]))
  }

  /** What is built in is not the user's. */
  lemma BuiltinIsNotOwn(r: string)
    requires StartsWith(r, Own(""))
    ensures !IsBuiltin(r)
  {
    StartsAlike(r, Own(""), 0);
    StartsAlike(r, Own(""), |USER_SOURCE|);
    assert TrimLeft(r) == r;
    TrimRightStarts(r, Own(""));
    var canon := Chain.CanonicalId(r);
    StartsAlike(canon, Own(""), 0);
    StartsAlike(canon, BUILTIN_SOURCE + "/", 0);
  }

  lemma StartsAlike(s: string, front: string, i: nat)
    requires i < |front|
    ensures StartsWith(s, front) ==> s[i] == front[i]
  {
    if StartsWith(s, front) { assert s[i] == s[..|front|][i]; }
  }

  /** Blanks taken off the end leave what does not end in one. */
  lemma {:induction false} TrimRightStarts(s: string, front: string)
    requires StartsWith(s, front) && front != "" && !IsSpace(front[|front| - 1])
    ensures StartsWith(TrimRight(s), front)
    decreases |s|
  {
    StartsAlike(s, front, |front| - 1);
    if IsSpace(s[|s| - 1]) {
      assert s[..|s| - 1][..|front|] == front;
      TrimRightStarts(s[..|s| - 1], front);
    }
  }

  lemma OwnIsFound(name: string, renamed: map<string, string>)
    requires name in renamed
    ensures Apply(Inward(renamed), Own(name)) == Own(renamed[name])
  {
    assert Own(name)[..|Own("")|] == Own("") && Own(name)[|Own("")|..] == name;
  }

  /** Rewritten on the way out and again on the way in, a name is rewritten to where its profile lands. */
  lemma OutAndIn(parts: seq<Part>, moved: seq<Part>, renamed: map<string, string>, r: string)
    requires Apart(parts) && |moved| == |parts|
    requires forall k :: 0 <= k < |parts| ==>
      moved[k].canon == parts[k].canon && parts[k].name in renamed && renamed[parts[k].name] == moved[k].name
    requires IsBuiltin(r) || Chain.CanonicalId(r) in Canons(parts)
    ensures Apply(Then(Outward(parts), Inward(renamed)), r) == Apply(Outward(moved), r)
  {
    if IsBuiltin(r) {
      if StartsWith(r, Own("")) { BuiltinIsNotOwn(r); }
    } else {
      var k :| 0 <= k < |parts| && parts[k].canon == Chain.CanonicalId(r);
      PartIs(parts, k);
      PartIs(moved, k);
      OwnIsFound(parts[k].name, renamed);
    }
  }

  lemma OutAndInDoc(y: Yaml, scenario: bool, parts: seq<Part>, moved: seq<Part>, renamed: map<string, string>)
    requires Apart(parts) && |moved| == |parts|
    requires forall k :: 0 <= k < |parts| ==>
      moved[k].canon == parts[k].canon && parts[k].name in renamed && renamed[parts[k].name] == moved[k].name
    requires Owed(Refs(y, SpotOf(scenario))) <= Canons(parts)
    ensures Rename(Rename(y, SpotOf(scenario), Outward(parts)), SpotOf(scenario), Inward(renamed))
      == Rename(y, SpotOf(scenario), Outward(moved))
  {
    var refs := Refs(y, SpotOf(scenario));
    var both := Then(Outward(parts), Inward(renamed));
    forall r | r in refs ensures Apply(both, r) == Apply(Outward(moved), r) {
      OwedHas(refs, r);
      OutAndIn(parts, moved, renamed, r);
    }
    SpotsAreTidy(scenario);
    RenameTwice(y, SpotOf(scenario), Outward(parts), Inward(renamed));
    AgreeingRename(y, SpotOf(scenario), both, Outward(moved));
  }

  lemma TitleStays(y: Yaml, scenario: bool, naming: Naming)
    ensures TitleOf(Rename(y, SpotOf(scenario), naming)) == TitleOf(y)
  {
    if y.Mapping? {
      if scenario {
        assert !NamesKey(SCENARIO.fields[1..][1..][1..], "title") && !NamesKey(SCENARIO.fields[1..][1..], "title");
        OtherFields(y.entries, SCENARIO.fields, naming, "title");
      } else {
        OtherFields(y.entries, PROFILE.fields, naming, "title");
      }
    }
  }

  lemma {:induction false} ItemAt(docs: seq<BundleDoc>, names: seq<string>, naming: Naming, k: nat)
    requires |docs| == |names| && k < |docs|
    ensures |AllLanded(docs, names, naming)| == |docs|
    ensures AllLanded(docs, names, naming)[k] == Landed(docs[k], names[k], naming)
    decreases |docs|
  {
    if |docs| > 1 { ItemAt(docs[1..], names[1..], naming, if k == 0 then 0 else k - 1); }
  }

  lemma PackedKeysDiffer(lib: Library, docs: Docs, id: string, root: Yaml, scenario: bool, parts: seq<Part>)
    requires AllReadable(docs, parts) && Apart(parts)
    ensures KeysDiffer(PackedDocs(lib, docs, id, root, scenario, parts))
  {
    var packed := PackedDocs(lib, docs, id, root, scenario, parts);
    FreeNameIsFree(lib, Names(parts), LabelOf(root, id), KindWord(scenario));
    if parts != [] { PackedAt(lib, docs, id, root, scenario, parts, 0); }
    forall k: nat | k < |parts|
      ensures packed[PartPlace(scenario, k)].key == parts[k].name != packed[RootPlace(scenario, parts)].key
    {
      PackedAt(lib, docs, id, root, scenario, parts, k);
      assert parts[k] in parts;
    }
    forall i, j | 0 <= i < j < |packed| ensures packed[i].key != packed[j].key {
      var a, b := if scenario then i else i - 1, if scenario then j else j - 1;
      if 0 <= a < |parts| { assert PartPlace(scenario, a) == i; }
      if 0 <= b < |parts| { assert PartPlace(scenario, b) == j; }
    }
  }

  /** The new names, part by part, from the map Unpack keeps. */
  lemma {:induction false} MapFollows(lib: Library, docs: Docs, id: string, root: Yaml, scenario: bool,
      parts: seq<Part>, names: seq<string>)
    requires AllReadable(docs, parts) && Apart(parts) && |names| == |parts| + 1
    requires |PackedDocs(lib, docs, id, root, scenario, parts)| == |names|
    ensures var renamed := RenamedOf(PackedDocs(lib, docs, id, root, scenario, parts), names);
      forall k :: 0 <= k < |parts| ==>
        parts[k].name in renamed && renamed[parts[k].name] == Relocated(scenario, parts, names)[k].name
  {
    var packed := PackedDocs(lib, docs, id, root, scenario, parts);
    PackedKeysDiffer(lib, docs, id, root, scenario, parts);
    forall k | 0 <= k < |parts|
      ensures parts[k].name in RenamedOf(packed, names)
        && RenamedOf(packed, names)[parts[k].name] == Relocated(scenario, parts, names)[k].name
    {
      PackedAt(lib, docs, id, root, scenario, parts, k);
      RenamedAtKey(packed, names, PartPlace(scenario, k));
    }
  }

  /** What unpacking the bundle of a document gives. */
  function Arrived(lib: Library, docs: Docs, id: string, root: Yaml, scenario: bool, parts: seq<Part>,
      taken: set<string>): seq<Item>
    requires AllReadable(docs, parts)
  {
    var packed := PackedDocs(lib, docs, id, root, scenario, parts);
    var names := NewNames(lib, taken, packed);
    AllLanded(packed, names, Inward(RenamedOf(packed, names)))
  }

  /** The parts under the names they arrive with. */
  function ArrivedParts(lib: Library, docs: Docs, id: string, root: Yaml, scenario: bool, parts: seq<Part>,
      taken: set<string>): seq<Part>
    requires AllReadable(docs, parts) && parts != []
  {
    PackedAt(lib, docs, id, root, scenario, parts, 0);
    Relocated(scenario, parts, NewNames(lib, taken, PackedDocs(lib, docs, id, root, scenario, parts)))
  }

  /** Each document arrives as it was but for the names in it, and those follow
      the profiles they stood for to their new names. */
  ghost predicate IsMoved(item: Item, scenario: bool, y: Yaml, moved: seq<Part>) {
    item.scenario == scenario && item.title == TitleOf(y) && item.doc == Rename(y, SpotOf(scenario), Outward(moved))
  }

  lemma PartArrives(lib: Library, docs: Docs, id: string, root: Yaml, scenario: bool, parts: seq<Part>,
      taken: set<string>, k: nat)
    requires Reached(lib, docs, root, scenario) == Some(parts) && AllReadable(docs, parts) && k < |parts|
    ensures var items := Arrived(lib, docs, id, root, scenario, parts, taken);
      var moved := ArrivedParts(lib, docs, id, root, scenario, parts, taken);
      && |items| == |parts| + 1
      && IsMoved(items[PartPlace(scenario, k)], false, docs[parts[k].canon].value, moved)
      && items[PartPlace(scenario, k)].name == moved[k].name
      && IsMoved(items[RootPlace(scenario, parts)], scenario, root, moved)
  {
    var packed := PackedDocs(lib, docs, id, root, scenario, parts);
    var names := NewNames(lib, taken, packed);
    var renamed := RenamedOf(packed, names);
    var moved := ArrivedParts(lib, docs, id, root, scenario, parts, taken);
    var doc := docs[parts[k].canon].value;
    GatheredAreApart(lib, docs, Refs(root, SpotOf(scenario)), []);
    ReachedIsLeast(lib, docs, root, scenario, {});
    PackedAt(lib, docs, id, root, scenario, parts, k);
    MapFollows(lib, docs, id, root, scenario, parts, names);
    assert parts[k].canon in Canons(parts) by { assert parts[k] in parts; }
    assert OwedBy(docs, parts[k].canon) <= Canons(parts);
    OutAndInDoc(doc, false, parts, moved, renamed);
    OutAndInDoc(root, scenario, parts, moved, renamed);
    TitleStays(doc, false, Outward(parts));
    TitleStays(root, scenario, Outward(parts));
    ItemAt(packed, names, Inward(renamed), PartPlace(scenario, k));
    ItemAt(packed, names, Inward(renamed), RootPlace(scenario, parts));
  }

  /** The root and every part arrive, each in its place. */
  ghost predicate AllMoved(docs: Docs, root: Yaml, scenario: bool, parts: seq<Part>, items: seq<Item>, moved: seq<Part>)
    requires AllReadable(docs, parts)
  {
    && |items| == |parts| + 1 && |moved| == |parts|
    && IsMoved(items[RootPlace(scenario, parts)], scenario, root, moved)
    && forall k :: 0 <= k < |parts| ==>
      PartMoved(items[PartPlace(scenario, k)], docs[parts[k].canon].value, parts[k], moved[k], moved)
  }

  ghost predicate PartMoved(item: Item, y: Yaml, part: Part, landed: Part, moved: seq<Part>) {
    IsMoved(item, false, y, moved) && landed == Part(part.canon, item.name)
  }

  predicate Fresh(items: seq<Item>, taken: set<string>) {
    && (forall i, j :: 0 <= i < j < |items| ==> items[i].name != items[j].name)
    && (forall i :: 0 <= i < |items| ==> items[i].name !in taken)
  }

  lemma AllArrive(lib: Library, docs: Docs, id: string, root: Yaml, scenario: bool, parts: seq<Part>,
      taken: set<string>,
                  items: seq<Item>, moved: seq<Part>)
    requires Reached(lib, docs, root, scenario) == Some(parts) && AllReadable(docs, parts) && parts != []
    requires items == Arrived(lib, docs, id, root, scenario, parts, taken)
    requires moved == ArrivedParts(lib, docs, id, root, scenario, parts, taken)
    ensures AllMoved(docs, root, scenario, parts, items, moved)
  {
    PartArrives(lib, docs, id, root, scenario, parts, taken, 0);
    forall k | 0 <= k < |parts|
      ensures PartMoved(items[PartPlace(scenario, k)], docs[parts[k].canon].value, parts[k], moved[k], moved)
    {
      PartArrives(lib, docs, id, root, scenario, parts, taken, k);
    }
  }

  lemma {:induction false} LandedFresh(docs: seq<BundleDoc>, names: seq<string>, naming: Naming, taken: set<string>)
    requires |docs| == |names| && AllDiffer(names) && forall k :: 0 <= k < |names| ==> names[k] !in taken
    ensures Fresh(AllLanded(docs, names, naming), taken)
  {
    var items := AllLanded(docs, names, naming);
    if docs != [] { ItemAt(docs, names, naming, 0); }
    forall k | 0 <= k < |items| ensures items[k].name == names[k] { ItemAt(docs, names, naming, k); }
  }

  /** Whatever bundle or document is unpacked, the names differ and are free. */
  lemma UnpackedAreFresh(lib: Library, parsers: Parsers, root: Yaml, bytes: nat, taken: set<string>)
    ensures Unpack(lib, parsers, root, bytes, taken).Some? ==> Fresh(Unpack(lib, parsers, root, bytes, taken).value, taken)
  {
    match ReadBundle(root, bytes)
    case BadBundle =>
    case NotABundle => FreeNameIsFree(lib, taken, TitleOf(root), KindWord(IsPlainScenario(parsers, root)));
    case Bundle(docs) =>
      var names := NewNames(lib, taken, docs);
      NewNamesAreFree(lib, taken, docs);
      LandedFresh(docs, names, Inward(RenamedOf(docs, names)), taken);
  }

  /** Unpacking what was exported gives the document and every profile it needs,
      each once, under names that differ and are free, each as it was but for the
      names in it, which lead to the same profiles. It fails exactly when the
      text is too long or a document is not a mapping. */
  lemma SharedIsTheSame(lib: Library, parsers: Parsers, docs: Docs, id: string, root: Yaml, scenario: bool,
      parts: seq<Part>,
                        bytes: nat, taken: set<string>)
    requires Reached(lib, docs, root, scenario) == Some(parts) && parts != []
    ensures AllReadable(docs, parts) && Export(lib, docs, id, root, scenario).Some?
    ensures var unpacked := Unpack(lib, parsers, Export(lib, docs, id, root, scenario).value, bytes, taken);
      if bytes <= MAX_BUNDLE_BYTES && root.Mapping? && AreMappings(docs, parts) then
        unpacked.Some? && Fresh(unpacked.value, taken) && AllMoved(docs, root, scenario, parts, unpacked.value,
          ArrivedParts(lib, docs, id, root, scenario, parts, taken))
      else unpacked.None?
  {
    GatheredAreReadable(lib, docs, Refs(root, SpotOf(scenario)), []);
    var text := Export(lib, docs, id, root, scenario).value;
    BundleReads(lib, docs, id, root, scenario, parts, bytes);
    AllArrive(lib, docs, id, root, scenario, parts, taken, Arrived(lib, docs, id, root, scenario, parts, taken),
      ArrivedParts(lib, docs, id, root, scenario, parts, taken));
    UnpackedAreFresh(lib, parsers, text, bytes, taken);
  }

  /** A document that needs only built-in profiles is exported as it is, and
      unpacked, where it is not itself a bundle, as that one document under a
      free name. */
  lemma SharedAlone(lib: Library, parsers: Parsers, docs: Docs, id: string, root: Yaml, scenario: bool, bytes: nat,
      taken: set<string>)
    requires Reached(lib, docs, root, scenario) == Some([])
    ensures Export(lib, docs, id, root, scenario) == Some(root) && forall r :: r in Refs(root, SpotOf(scenario)) ==> IsBuiltin(r)
    ensures !root.Mapping? || ValueText(root, "kind") != "bundle" ==>
      var unpacked := Unpack(lib, parsers, root, bytes, taken);
      unpacked.Some? && |unpacked.value| == 1 && Fresh(unpacked.value, taken)
      && unpacked.value[0] == Item(IsPlainScenario(parsers, root), unpacked.value[0].name, TitleOf(root), root)
  {
    ReachedIsLeast(lib, docs, root, scenario, {});
    UnpackedAreFresh(lib, parsers, root, bytes, taken);
    var refs := Refs(root, SpotOf(scenario));
    forall r | r in refs ensures IsBuiltin(r) {
      OwedHas(refs, r);
    }
  }
}
