/** A profile resolves to the same pool where its bundle is imported: its chain
    is followed, name by name, from the library it was shared from to the one
    it was unpacked into. Where none of its names is taken, a bundle keeps the
    names it was packed with. */
module Imported {
  import opened Basics
  import opened Text
  import opened Merge
  import opened Bundles
  import opened BundleLaws
  import opened Sharing
  import Chain

  // ---- names ----

  predicate IsSlugChar(c: char) { IsNameChar(c) || c == '-' }

  /** Of the characters of names, with no two dashes together. */
  predicate IsClean(s: string) {
    && (forall i :: 0 <= i < |s| ==> IsSlugChar(s[i]))
    && (forall i :: 0 <= i < |s| - 1 ==> s[i] != '-' || s[i + 1] != '-')
  }

  /** A name freeName may give. */
  predicate IsSlug(s: string) { s != "" && IsClean(s) && s[0] != '-' && s[|s| - 1] != '-' }

  lemma {:induction false} DashedIsClean(s: string)
    ensures IsClean(Dashed(s)) && (s != "" && IsNameChar(s[0]) ==> Dashed(s) != "" && Dashed(s)[0] == s[0])
    decreases |s|
  {
    if s != "" { DashedIsClean(s[1..]); }
  }

  lemma {:induction false} TrimmedIsClean(s: string)
    requires IsClean(s)
    ensures IsClean(TrimDashesLeft(s)) && (TrimDashesLeft(s) != "" ==> TrimDashesLeft(s)[0] != '-')
    decreases |s|
  {
    if s != "" && s[0] == '-' { TrimmedIsClean(s[1..]); }
  }

  lemma {:induction false} TrimmedIsSlug(s: string)
    requires IsClean(s) && (s != "" ==> s[0] != '-')
    ensures TrimDashesRight(s) == "" || IsSlug(TrimDashesRight(s))
    decreases |s|
  {
    if s != "" && s[|s| - 1] == '-' { TrimmedIsSlug(s[..|s| - 1]); }
  }

  lemma NumberedIsSlug(base: string, i: nat)
    requires IsSlug(base)
    ensures IsSlug(Numbered(base, i))
  {
    if i >= 2 {
      var name := Numbered(base, i);
      var digits := DigitsOf(i);
      assert name == base + "-" + digits;
      assert forall k :: |base| < k < |name| ==> name[k] == digits[k - |base| - 1];
    }
  }

  lemma BaseNameIsSlug(lib: Library, title: string, scenario: bool)
    ensures IsSlug(BaseName(lib, title, KindWord(scenario)))
  {
    var dashed := Dashed(lib.ToLower(title));
    DashedIsClean(lib.ToLower(title));
    TrimmedIsClean(dashed);
    TrimmedIsSlug(TrimDashesLeft(dashed));
  }

  lemma FreeNameIsSlug(lib: Library, taken: set<string>, title: string, scenario: bool)
    ensures IsSlug(FreeName(lib, taken, title, KindWord(scenario)))
  {
    BaseNameIsSlug(lib, title, scenario);
    var base := BaseName(lib, title, KindWord(scenario));
    var k := FirstFreeIsFirst(taken, base, 1);
    NumberedIsSlug(base, k);
  }

  /** Lower case leaves lower case letters, digits and dashes. */
  ghost predicate KeepsSlugs(lib: Library) { forall c :: IsSlugChar(c) ==> lib.lower(c) == c }

  lemma {:induction false} CleanStays(s: string)
    requires IsClean(s)
    ensures Dashed(s) == s
    decreases |s|
  {
    if s != "" {
      CleanStays(s[1..]);
      assert s == [s[0]] + s[1..];
    }
  }

  /** A name that is free is its own free name. */
  lemma SlugStays(lib: Library, taken: set<string>, s: string, fallback: string)
    requires KeepsSlugs(lib) && IsSlug(s) && s !in taken
    ensures FreeName(lib, taken, s, fallback) == s
  {
    assert lib.ToLower(s) == s;
    CleanStays(s);
  }

  predicate AllSlugs(parts: seq<Part>) { forall k :: 0 <= k < |parts| ==> IsSlug(parts[k].name) }

  lemma {:induction false} GatheredAreSlugs(lib: Library, docs: Docs, queue: seq<string>, parts: seq<Part>)
    requires AllSlugs(parts)
    ensures Gather(lib, docs, queue, parts).Some? ==> AllSlugs(Gather(lib, docs, queue, parts).value)
    decreases docs.Keys - Canons(parts), |queue|
  {
    if queue != [] {
      var canon := Chain.CanonicalId(queue[0]);
      if IsBuiltin(queue[0]) || canon in Canons(parts) {
        GatheredAreSlugs(lib, docs, queue[1..], parts);
      } else if IsReadable(docs, canon) {
        var part := PartFor(lib, docs, parts, canon);
        CanonsGrow(parts, part);
        FreeNameIsSlug(lib, Names(parts), LabelOf(docs[canon].value, canon), false);
        GatheredAreSlugs(lib, docs, queue[1..] + Refs(docs[canon].value, PROFILE), parts + [part]);
      }
    }
  }

  lemma {:induction false} KeysStay(lib: Library, taken: set<string>, docs: seq<BundleDoc>)
    requires KeepsSlugs(lib) && KeysDiffer(docs)
    requires forall k :: 0 <= k < |docs| ==> IsSlug(docs[k].key) && docs[k].key !in taken
    ensures forall k :: 0 <= k < |docs| ==> NewNames(lib, taken, docs)[k] == docs[k].key
    decreases |docs|
  {
    if docs != [] {
      SlugStays(lib, taken, docs[0].key, KindWord(docs[0].scenario));
      KeysStay(lib, taken + {docs[0].key}, docs[1..]);
    }
  }

  lemma PackedKey(lib: Library, docs: Docs, id: string, root: Yaml, scenario: bool, parts: seq<Part>, j: nat)
    requires AllReadable(docs, parts) && AllSlugs(parts) && parts != [] && j < |parts| + 1
    ensures var packed := PackedDocs(lib, docs, id, root, scenario, parts);
      && |packed| == |parts| + 1 && IsSlug(packed[j].key)
      && packed[j].key in Names(parts) + {RootEntry(lib, id, root, scenario, parts).key}
  {
    if j == RootPlace(scenario, parts) {
      PackedAt(lib, docs, id, root, scenario, parts, 0);
      FreeNameIsSlug(lib, Names(parts), LabelOf(root, id), scenario);
    } else {
      var k := if scenario then j else j - 1;
      PackedAt(lib, docs, id, root, scenario, parts, k);
      assert parts[k] in parts;
    }
  }

  /** Where none of its names is taken, a bundle is unpacked under the names it was packed with. */
  lemma NamesStay(lib: Library, docs: Docs, id: string, root: Yaml, scenario: bool, parts: seq<Part>,
      taken: set<string>)
    requires KeepsSlugs(lib) && Reached(lib, docs, root, scenario) == Some(parts) && parts != []
    requires AllReadable(docs, parts)
    requires RootEntry(lib, id, root, scenario, parts).key !in taken && Names(parts) !! taken
    ensures ArrivedParts(lib, docs, id, root, scenario, parts, taken) == parts
  {
    GatheredAreApart(lib, docs, Refs(root, SpotOf(scenario)), []);
    GatheredAreSlugs(lib, docs, Refs(root, SpotOf(scenario)), []);
    PackedKeysDiffer(lib, docs, id, root, scenario, parts);
    PackedKey(lib, docs, id, root, scenario, parts, 0);
    var packed := PackedDocs(lib, docs, id, root, scenario, parts);
    forall j | 0 <= j < |packed| ensures IsSlug(packed[j].key) && packed[j].key !in taken {
      PackedKey(lib, docs, id, root, scenario, parts, j);
    }
    KeysStay(lib, taken, packed);
    forall k | 0 <= k < |parts| ensures ArrivedParts(lib, docs, id, root, scenario, parts, taken)[k] == parts[k] {
      PackedAt(lib, docs, id, root, scenario, parts, k);
    }
  }

  // ---- two libraries ----

  /** What a profile extends: the name in it. */
  function ExtendsOf(y: Yaml): string {
    var refs := Refs(y, PROFILE);
    if refs == [] then "" else refs[0]
  }

  /** ParseProfile, whatever it makes of a document: what a profile extends aside,
      all is read off the document with its names blanked out. */
  type Reader<L> = Yaml -> Option<L>

  function EntryOf<L>(read: Reader<L>, y: Yaml): Chain.Entry<L> {
    match read(Blank(y, false))
    case None => Chain.Broken
    case Some(layer) => Chain.Profile(ExtendsOf(y), layer)
  }

  function ShelfOf<L>(read: Reader<L>, docs: Docs): Chain.Shelf<L> {
    map c | c in docs :: match docs[c] case None => Chain.Broken case Some(y) => EntryOf(read, y)
  }

  predicate IsBuiltinId(c: string) { StartsWith(c, BUILTIN_SOURCE + "/") }

  /** The other library holds the same built-in profiles, which extend only built-in ones. */
  ghost predicate SameBuiltins(docs: Docs, there: Docs) {
    forall c :: IsBuiltinId(c) ==> (c in docs <==> c in there) && (c in docs ==> docs[c] == there[c]) && OwedBy(docs, c) == {}
  }

  /** One part under its new name. */
  ghost predicate ImportsPart(y: Yaml, part: Part, landed: Part, moved: seq<Part>, there: Docs) {
    && landed.canon == part.canon && part.canon != "" && !IsBuiltinId(part.canon) && IsSlug(landed.name)
    && Own(landed.name) in there && there[Own(landed.name)] == Some(Rename(y, PROFILE, Outward(moved)))
  }

  /** It holds every part under its new name. */
  ghost predicate Imports(docs: Docs, parts: seq<Part>, moved: seq<Part>, there: Docs)
    requires AllReadable(docs, parts)
  {
    && |moved| == |parts|
    && forall k :: 0 <= k < |parts| ==> ImportsPart(docs[parts[k].canon].value, parts[k], moved[k], moved, there)
  }

  /** What the parts extend is among them or built in. */
  ghost predicate SelfContained(docs: Docs, parts: seq<Part>) {
    Apart(parts) && AllReadable(docs, parts) && forall c :: c in Canons(parts) ==> OwedBy(docs, c) <= Canons(parts)
  }

  /** Where a canonical id leads in the other library. */
  function Follow(moved: seq<Part>, c: string): string {
    if c == "" || IsBuiltinId(c) then c
    else match PartOf(moved, c) case None => c case Some(p) => Own(p.name)
  }

  ghost predicate Known(parts: seq<Part>, c: string) { c == "" || IsBuiltinId(c) || c in Canons(parts) }

  lemma OwnIsCanonical(name: string)
    requires IsSlug(name)
    ensures Chain.CanonicalId(Own(name)) == Own(name)
  {
    var own := Own(name);
    assert own[0] == 'u' && own[|own| - 1] == name[|name| - 1] && own[|USER_SOURCE|] == '/';
    assert TrimLeft(own) == own && TrimRight(own) == own;
  }

  /** A name in a document is rewritten to where its profile is followed. */
  lemma NameFollows(docs: Docs, parts: seq<Part>, moved: seq<Part>, there: Docs, r: string)
    requires SelfContained(docs, parts) && Imports(docs, parts, moved, there) && Known(parts, Chain.CanonicalId(r))
    requires Chain.CanonicalId(r) != ""
    ensures Chain.CanonicalId(Apply(Outward(moved), r)) == Follow(moved, Chain.CanonicalId(r))
  {
    var c := Chain.CanonicalId(r);
    if !IsBuiltinId(c) {
      var k := PartAt(parts, c);
      assert ImportsPart(docs[parts[k].canon].value, parts[k], moved[k], moved, there);
      MovedIs(docs, parts, moved, there, k);
      OwnIsCanonical(moved[k].name);
    }
  }

  lemma PartAt(parts: seq<Part>, c: string) returns (k: nat)
    requires c in Canons(parts)
    ensures k < |parts| && parts[k].canon == c
  {
    var i :| 0 <= i < |parts| && parts[i].canon == c;
    k := i;
  }

  lemma MovedIs(docs: Docs, parts: seq<Part>, moved: seq<Part>, there: Docs, k: nat)
    requires SelfContained(docs, parts) && Imports(docs, parts, moved, there) && k < |parts|
    ensures PartOf(moved, parts[k].canon) == Some(moved[k])
  {
    assert ImportsPart(docs[parts[k].canon].value, parts[k], moved[k], moved, there);
    forall i, j | 0 <= i < j < |moved| ensures moved[i].canon != moved[j].canon {
      assert ImportsPart(docs[parts[i].canon].value, parts[i], moved[i], moved, there);
      assert ImportsPart(docs[parts[j].canon].value, parts[j], moved[j], moved, there);
    }
    PartIs(moved, k);
  }

  /** A rewritten document reads as the same pool, and extends where its name is followed. */
  lemma {:induction false} EntryFollows<L>(read: Reader<L>, docs: Docs, parts: seq<Part>, moved: seq<Part>,
      there: Docs, y: Yaml)
    requires SelfContained(docs, parts) && Imports(docs, parts, moved, there) && Owed(Refs(y, PROFILE)) <= Canons(parts)
    ensures var z := Rename(y, PROFILE, Outward(moved));
      && read(Blank(z, false)) == read(Blank(y, false))
      && Chain.CanonicalId(ExtendsOf(z)) == Follow(moved, Chain.CanonicalId(ExtendsOf(y)))
      && Known(parts, Chain.CanonicalId(ExtendsOf(y)))
  {
    RenamingKeepsTheRest(y, false, Outward(moved));
    SpotsAreTidy(false);
    RefsRenamed(y, PROFILE, Outward(moved));
    var refs := Refs(y, PROFILE);
    if refs != [] {
      var r := refs[0];
      assert r in refs;
      if !IsBuiltin(r) {
        var k := PartAt(parts, Chain.CanonicalId(r));
        assert ImportsPart(docs[parts[k].canon].value, parts[k], moved[k], moved, there);
      }
      NameFollows(docs, parts, moved, there, r);
    }
  }

  /** One step along a chain is followed by one step. */
  lemma StepFollows<L>(read: Reader<L>, docs: Docs, parts: seq<Part>, moved: seq<Part>, there: Docs, c: string)
    requires SelfContained(docs, parts) && Imports(docs, parts, moved, there) && SameBuiltins(docs, there)
    requires Known(parts, c) && c != ""
    ensures var here, away := ShelfOf(read, docs), ShelfOf(read, there);
      var d := Follow(moved, c);
      && d != "" && Chain.IsProfile(away, d) == Chain.IsProfile(here, c)
      && (Chain.IsProfile(here, c) ==> away[d].layer == here[c].layer && Known(parts, Chain.Next(here, c)))
      && (Chain.IsProfile(here, c) ==> Chain.Next(away, d) == Follow(moved, Chain.Next(here, c)))
  {
    if IsBuiltinId(c) {
      if c in docs && docs[c].Some? { BuiltinExtendsBuiltin(docs, there, c); }
    } else {
      var k := PartAt(parts, c);
      assert ImportsPart(docs[c].value, parts[k], moved[k], moved, there);
      MovedIs(docs, parts, moved, there, k);
      assert OwedBy(docs, c) <= Canons(parts);
      EntryFollows(read, docs, parts, moved, there, docs[c].value);
    }
  }

  lemma BuiltinExtendsBuiltin(docs: Docs, there: Docs, c: string)
    requires SameBuiltins(docs, there) && IsBuiltinId(c) && IsReadable(docs, c)
    ensures var next := Chain.CanonicalId(ExtendsOf(docs[c].value)); next == "" || IsBuiltinId(next)
  {
    assert OwedBy(docs, c) == {};
    ExtendsBuiltin(docs[c].value);
  }

  lemma {:induction false} TraceFollows<L>(read: Reader<L>, docs: Docs, parts: seq<Part>, moved: seq<Part>,
      there: Docs, c: string, n: nat)
    requires SelfContained(docs, parts) && Imports(docs, parts, moved, there) && SameBuiltins(docs, there)
    requires Known(parts, c)
    ensures Chain.Traced(ShelfOf(read, there), Follow(moved, c), n) == Chain.Traced(ShelfOf(read, docs), c, n)
    decreases n
  {
    if c != "" {
      var here, away := ShelfOf(read, docs), ShelfOf(read, there);
      StepFollows(read, docs, parts, moved, there, c);
      if n > 0 {
        if Chain.IsProfile(here, c) { TraceFollows(read, docs, parts, moved, there, Chain.Next(here, c), n - 1); }
        Chain.TracedAlike(here, c, away, Follow(moved, c), n);
      }
    }
  }

  /** What Resolve merges, base first. */
  function Resolved<L>(shelf: Chain.Shelf<L>, id: string): Option<seq<L>> {
    match Chain.From(shelf, Chain.CanonicalId(id), [])
    case None => None
    case Some(chain) => Some(Chain.LayersOf(shelf, chain))
  }

  /** What a name resolved to here, its rewriting resolves to there. */
  lemma NameResolvesTheSame<L>(read: Reader<L>, docs: Docs, parts: seq<Part>, moved: seq<Part>, there: Docs, r: string)
    requires SelfContained(docs, parts) && Imports(docs, parts, moved, there) && SameBuiltins(docs, there)
    requires Known(parts, Chain.CanonicalId(r)) && Chain.CanonicalId(r) != ""
    ensures Resolved(ShelfOf(read, there), Apply(Outward(moved), r)) == Resolved(ShelfOf(read, docs), r)
  {
    NameFollows(docs, parts, moved, there, r);
    TraceFollows(read, docs, parts, moved, there, Chain.CanonicalId(r), Chain.MAX_EXTENDS_DEPTH + 1);
    Chain.CyclesAreTooLong(ShelfOf(read, docs), r);
    Chain.CyclesAreTooLong(ShelfOf(read, there), Apply(Outward(moved), r));
  }

  // ---- what was unpacked, imported ----

  /** The other library holds every profile unpacked, as the user's. */
  ghost predicate Holds(there: Docs, items: seq<Item>) {
    forall i :: 0 <= i < |items| && !items[i].scenario ==> HoldsOne(there, items[i])
  }

  predicate HoldsOne(there: Docs, item: Item) { Own(item.name) in there && there[Own(item.name)] == Some(item.doc) }

  lemma {:induction false} NewNamesAreSlugs(lib: Library, taken: set<string>, docs: seq<BundleDoc>)
    ensures forall k :: 0 <= k < |docs| ==> IsSlug(NewNames(lib, taken, docs)[k])
    decreases |docs|
  {
    if docs != [] {
      FreeNameIsSlug(lib, taken, docs[0].key, docs[0].scenario);
      NewNamesAreSlugs(lib, taken + {NewNames(lib, taken, docs)[0]}, docs[1..]);
    }
  }

  predicate NoneBuiltin(parts: seq<Part>) { forall k :: 0 <= k < |parts| ==> !IsBuiltinId(parts[k].canon) }

  lemma {:induction false} GatheredAreOwn(lib: Library, docs: Docs, queue: seq<string>, parts: seq<Part>)
    requires NoneBuiltin(parts)
    ensures Gather(lib, docs, queue, parts).Some? ==> NoneBuiltin(Gather(lib, docs, queue, parts).value)
    decreases docs.Keys - Canons(parts), |queue|
  {
    if queue != [] {
      var canon := Chain.CanonicalId(queue[0]);
      if IsBuiltin(queue[0]) || canon in Canons(parts) {
        GatheredAreOwn(lib, docs, queue[1..], parts);
      } else if IsReadable(docs, canon) {
        var part := PartFor(lib, docs, parts, canon);
        CanonsGrow(parts, part);
        GatheredAreOwn(lib, docs, queue[1..] + Refs(docs[canon].value, PROFILE), parts + [part]);
      }
    }
  }

  lemma ReachedIsContained(lib: Library, docs: Docs, root: Yaml, scenario: bool, parts: seq<Part>)
    requires Reached(lib, docs, root, scenario) == Some(parts)
    ensures SelfContained(docs, parts) && NoneBuiltin(parts) && Owed(Refs(root, SpotOf(scenario))) <= Canons(parts)
  {
    GatheredAreReadable(lib, docs, Refs(root, SpotOf(scenario)), []);
    GatheredAreApart(lib, docs, Refs(root, SpotOf(scenario)), []);
    GatheredAreOwn(lib, docs, Refs(root, SpotOf(scenario)), []);
    ReachedIsLeast(lib, docs, root, scenario, {});
  }

  lemma HeldIsImported(lib: Library, docs: Docs, id: string, root: Yaml, scenario: bool, parts: seq<Part>,
      taken: set<string>,
                       items: seq<Item>, moved: seq<Part>, there: Docs)
    requires Reached(lib, docs, root, scenario) == Some(parts) && AllReadable(docs, parts) && parts != [] && "" !in docs
    requires items == Arrived(lib, docs, id, root, scenario, parts, taken)
    requires moved == ArrivedParts(lib, docs, id, root, scenario, parts, taken)
    requires Holds(there, items)
    ensures Imports(docs, parts, moved, there) && AllMoved(docs, root, scenario, parts, items, moved)
  {
    ReachedIsContained(lib, docs, root, scenario, parts);
    AllArrive(lib, docs, id, root, scenario, parts, taken, items, moved);
    NewNamesAreSlugs(lib, taken, PackedDocs(lib, docs, id, root, scenario, parts));
    forall k | 0 <= k < |parts| ensures ImportsPart(docs[parts[k].canon].value, parts[k], moved[k], moved, there) {
      assert PartMoved(items[PartPlace(scenario, k)], docs[parts[k].canon].value, parts[k], moved[k], moved);
      assert HoldsOne(there, items[PartPlace(scenario, k)]);
      PackedAt(lib, docs, id, root, scenario, parts, k);
    }
  }

  /** Sharing keeps the policy: where everything unpacked is imported beside the
      same built-in profiles, each name in the document resolves to the pool it
      resolved to before, however those profiles read a document. */
  lemma NamesResolveTheSame<L>(lib: Library, docs: Docs, id: string, root: Yaml, scenario: bool, parts: seq<Part>,
      taken: set<string>,
                            there: Docs, read: Reader<L>, r: string)
    requires Reached(lib, docs, root, scenario) == Some(parts) && AllReadable(docs, parts) && parts != [] && "" !in docs
    requires Holds(there, Arrived(lib, docs, id, root, scenario, parts, taken)) && SameBuiltins(docs, there)
    requires r in Refs(root, SpotOf(scenario))
    ensures var moved := ArrivedParts(lib, docs, id, root, scenario, parts, taken);
      Resolved(ShelfOf(read, there), Apply(Outward(moved), r)) == Resolved(ShelfOf(read, docs), r)
  {
    var moved := ArrivedParts(lib, docs, id, root, scenario, parts, taken);
    ReachedIsContained(lib, docs, root, scenario, parts);
    HeldIsImported(lib, docs, id, root, scenario, parts, taken,
      Arrived(lib, docs, id, root, scenario, parts, taken), moved, there);
    OwedHas(Refs(root, SpotOf(scenario)), r);
    if !IsBuiltin(r) { var k := PartAt(parts, Chain.CanonicalId(r)); }
    NameResolvesTheSame(read, docs, parts, moved, there, r);
  }

  /** And a profile shared resolves to the same pool under its new name. */
  lemma ProfileResolvesTheSame<L>(lib: Library, docs: Docs, id: string, root: Yaml, parts: seq<Part>,
      taken: set<string>,
                               there: Docs, read: Reader<L>, item: Item)
    requires Reached(lib, docs, root, false) == Some(parts) && AllReadable(docs, parts) && parts != [] && "" !in docs
    requires Chain.CanonicalId(id) in docs && docs[Chain.CanonicalId(id)] == Some(root)
    requires Holds(there, Arrived(lib, docs, id, root, false, parts, taken)) && SameBuiltins(docs, there)
    requires |Arrived(lib, docs, id, root, false, parts, taken)| > 0
    requires item == Arrived(lib, docs, id, root, false, parts, taken)[0]
    ensures Resolved(ShelfOf(read, there), Own(item.name)) == Resolved(ShelfOf(read, docs), id)
  {
    var items := Arrived(lib, docs, id, root, false, parts, taken);
    var moved := ArrivedParts(lib, docs, id, root, false, parts, taken);
    ReachedIsContained(lib, docs, root, false, parts);
    HeldIsImported(lib, docs, id, root, false, parts, taken, items, moved, there);
    assert IsMoved(item, false, root, moved) && HoldsOne(there, item);
    FirstIsSlug(lib, docs, id, root, parts, taken);
    RootFollows(read, docs, parts, moved, there, Chain.CanonicalId(id), Own(item.name), Chain.MAX_EXTENDS_DEPTH + 1);
    OwnIsCanonical(item.name);
    Chain.CyclesAreTooLong(ShelfOf(read, docs), id);
    Chain.CyclesAreTooLong(ShelfOf(read, there), Own(item.name));
  }

  lemma FirstIsSlug(lib: Library, docs: Docs, id: string, root: Yaml, parts: seq<Part>, taken: set<string>)
    requires AllReadable(docs, parts) && parts != []
    ensures var items := Arrived(lib, docs, id, root, false, parts, taken); |items| > 0 && IsSlug(items[0].name)
  {
    var packed := PackedDocs(lib, docs, id, root, false, parts);
    var names := NewNames(lib, taken, packed);
    PackedAt(lib, docs, id, root, false, parts, 0);
    NewNamesAreSlugs(lib, taken, packed);
    ItemAt(packed, names, Inward(RenamedOf(packed, names)), 0);
  }

  /** The profile shared extends where it did, followed. */
  lemma RootStep<L>(read: Reader<L>, docs: Docs, parts: seq<Part>, moved: seq<Part>, there: Docs, c: string, d: string)
    requires SelfContained(docs, parts) && Imports(docs, parts, moved, there)
    requires IsReadable(docs, c) && d in there && Owed(Refs(docs[c].value, PROFILE)) <= Canons(parts)
    requires there[d] == Some(Rename(docs[c].value, PROFILE, Outward(moved)))
    ensures var here, away := ShelfOf(read, docs), ShelfOf(read, there);
      && Chain.IsProfile(away, d) == Chain.IsProfile(here, c)
      && (Chain.IsProfile(here, c) ==> away[d].layer == here[c].layer && Known(parts, Chain.Next(here, c)))
      && (Chain.IsProfile(here, c) ==> Chain.Next(away, d) == Follow(moved, Chain.Next(here, c)))
  {
    EntryFollows(read, docs, parts, moved, there, docs[c].value);
  }

  /** The chain of the profile shared: a step of its own, then followed. */
  lemma RootFollows<L>(read: Reader<L>, docs: Docs, parts: seq<Part>, moved: seq<Part>, there: Docs, c: string,
      d: string, n: nat)
    requires SelfContained(docs, parts) && Imports(docs, parts, moved, there) && SameBuiltins(docs, there)
    requires c != "" && d != "" && IsReadable(docs, c) && d in there && n > 0
    requires Owed(Refs(docs[c].value, PROFILE)) <= Canons(parts)
    requires there[d] == Some(Rename(docs[c].value, PROFILE, Outward(moved)))
    ensures Chain.Traced(ShelfOf(read, there), d, n) == Chain.Traced(ShelfOf(read, docs), c, n)
  {
    var here, away := ShelfOf(read, docs), ShelfOf(read, there);
    RootStep(read, docs, parts, moved, there, c, d);
    if Chain.IsProfile(here, c) { TraceFollows(read, docs, parts, moved, there, Chain.Next(here, c), n - 1); }
    Chain.TracedAlike(here, c, away, d, n);
  }

  // ---- what was shared alone ----

  /** What is built in resolves alike beside the same built-in profiles. */
  lemma BuiltinResolvesTheSame<L>(docs: Docs, there: Docs, read: Reader<L>, r: string)
    requires SameBuiltins(docs, there) && IsBuiltin(r)
    ensures Resolved(ShelfOf(read, there), r) == Resolved(ShelfOf(read, docs), r)
  {
    NameResolvesTheSame(read, docs, [], [], there, r);
  }

  /** A profile that needs only built-in ones, unpacked as it is, resolves as before. */
  lemma AloneResolvesTheSame<L>(lib: Library, docs: Docs, id: string, root: Yaml, there: Docs, read: Reader<L>,
      name: string)
    requires Reached(lib, docs, root, false) == Some([]) && "" !in docs && IsSlug(name)
    requires Chain.CanonicalId(id) in docs && docs[Chain.CanonicalId(id)] == Some(root)
    requires Own(name) in there && there[Own(name)] == Some(root) && SameBuiltins(docs, there)
    ensures Resolved(ShelfOf(read, there), Own(name)) == Resolved(ShelfOf(read, docs), id)
  {
    var c, n := Chain.CanonicalId(id), Chain.MAX_EXTENDS_DEPTH + 1;
    var here, away := ShelfOf(read, docs), ShelfOf(read, there);
    ReachedIsContained(lib, docs, root, false, []);
    OwnIsCanonical(name);
    if Chain.IsProfile(here, c) {
      ExtendsBuiltin(root);
      TraceFollows(read, docs, [], [], there, Chain.Next(here, c), n - 1);
    }
    Chain.TracedAlike(here, c, away, Own(name), n);
    Chain.CyclesAreTooLong(here, id);
    Chain.CyclesAreTooLong(away, Own(name));
  }

  lemma ExtendsBuiltin(y: Yaml)
    requires Owed(Refs(y, PROFILE)) == {}
    ensures var next := Chain.CanonicalId(ExtendsOf(y)); next == "" || IsBuiltinId(next)
  {
    var refs := Refs(y, PROFILE);
    if refs != [] { OwedHas(refs, refs[0]); }
  }
}
