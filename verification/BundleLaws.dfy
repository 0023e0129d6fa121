/** What bundling a document and unpacking it keep. */
module BundleLaws {
  import opened Basics
  import opened Text
  import opened Merge
  import opened Bundles
  import Chain

  // ---- rewriting names ----

  /** No key is named twice at one place. */
  predicate Tidy(spot: Spot) {
    match spot
    case Ref => true
    case Fields(fields) => TidyFields(fields)
    case Values(each) => Tidy(each)
    case Items(each) => Tidy(each)
  }

  predicate TidyFields(fields: seq<Field>) {
    fields == [] || (!NamesKey(fields[1..], fields[0].key) && Tidy(fields[0].spot) && TidyFields(fields[1..]))
  }

  predicate NamesKey(fields: seq<Field>, key: string) {
    fields != [] && (fields[0].key == key || NamesKey(fields[1..], key))
  }

  function Mapped(naming: Naming, refs: seq<string>): seq<string> {
    if refs == [] then [] else [Apply(naming, refs[0])] + Mapped(naming, refs[1..])
  }

  lemma {:induction false} MappedJoins(naming: Naming, a: seq<string>, b: seq<string>)
    ensures Mapped(naming, a + b) == Mapped(naming, a) + Mapped(naming, b)
    decreases |a|
  {
    if a == [] {
      assert a + b == b;
    } else {
      var all := a + b;
      assert all[0] == a[0] && all[1..] == a[1..] + b;
      MappedJoins(naming, a[1..], b);
      Assoc([Apply(naming, a[0])], Mapped(naming, a[1..]), Mapped(naming, b));
    }
  }

  /** A name is never rewritten to nothing. */
  lemma {:induction false} ApplyIsText(naming: Naming, r: string)
    requires r != ""
    ensures Apply(naming, r) != ""
    decreases naming
  {
    if naming.Then? {
      ApplyIsText(naming.first, r);
      ApplyIsText(naming.second, Apply(naming.first, r));
    }
  }

  lemma {:induction false} RenamedAt(entries: seq<Entry>, field: Field, naming: Naming, key: string)
    ensures ValueOf(RenameAt(entries, field, naming), key) == match ValueOf(entries, key)
      case None => None
      case Some(v) => Some(if key == field.key then Rename(v, field.spot, naming) else v)
    decreases |entries|
  {
    if entries != [] && entries[0].key != field.key {
      RenamedAt(entries[1..], field, naming, key);
    }
  }

  lemma {:induction false} OtherFields(entries: seq<Entry>, fields: seq<Field>, naming: Naming, key: string)
    requires !NamesKey(fields, key)
    ensures ValueOf(RenameFields(entries, fields, naming), key) == ValueOf(entries, key)
    decreases |fields|
  {
    if fields != [] {
      RenamedAt(entries, fields[0], naming, key);
      OtherFields(RenameAt(entries, fields[0], naming), fields[1..], naming, key);
    }
  }

  /** The names in a rewritten document are the rewritten names, in order. */
  lemma {:induction false} RefsRenamed(y: Yaml, spot: Spot, naming: Naming)
    requires Tidy(spot)
    ensures Refs(Rename(y, spot, naming), spot) == Mapped(naming, Refs(y, spot))
    decreases spot, 0
  {
    match spot
    case Ref => if y.Scalar? && y.text != "" { ApplyIsText(naming, y.text); }
    case Fields(fields) => if y.Mapping? { RefsOfFieldsRenamed(y.entries, fields, naming); }
    case Values(each) => if y.Mapping? { RefsOfValuesRenamed(y.entries, each, naming); }
    case Items(each) => if y.Sequence? { RefsOfItemsRenamed(y.items, each, naming); }
  }

  lemma {:induction false} RefsOfValuesRenamed(entries: seq<Entry>, each: Spot, naming: Naming)
    requires Tidy(each)
    ensures RefsOfValues(RenameValues(entries, each, naming), each) == Mapped(naming, RefsOfValues(entries, each))
    decreases each, 1, |entries|
  {
    if entries != [] {
      RefsRenamed(entries[0].value, each, naming);
      RefsOfValuesRenamed(entries[1..], each, naming);
      MappedJoins(naming, Refs(entries[0].value, each), RefsOfValues(entries[1..], each));
    }
  }

  lemma {:induction false} RefsOfItemsRenamed(items: seq<Yaml>, each: Spot, naming: Naming)
    requires Tidy(each)
    ensures RefsOfItems(RenameItems(items, each, naming), each) == Mapped(naming, RefsOfItems(items, each))
    decreases each, 1, |items|
  {
    if items != [] {
      RefsRenamed(items[0], each, naming);
      RefsOfItemsRenamed(items[1..], each, naming);
      MappedJoins(naming, Refs(items[0], each), RefsOfItems(items[1..], each));
    }
  }

  /** Rewriting at one key leaves the names under the others. */
  lemma {:induction false} OtherRefs(entries: seq<Entry>, field: Field, fields: seq<Field>, naming: Naming)
    requires !NamesKey(fields, field.key)
    ensures RefsOfFields(RenameAt(entries, field, naming), fields) == RefsOfFields(entries, fields)
    decreases |fields|
  {
    if fields != [] {
      RenamedAt(entries, field, naming, fields[0].key);
      OtherRefs(entries, field, fields[1..], naming);
    }
  }

  lemma {:induction false} RefsOfFieldsRenamed(entries: seq<Entry>, fields: seq<Field>, naming: Naming)
    requires TidyFields(fields)
    ensures RefsOfFields(RenameFields(entries, fields, naming), fields) == Mapped(naming, RefsOfFields(entries, fields))
    decreases fields
  {
    if fields != [] {
      var field, rest := fields[0], fields[1..];
      var once := RenameAt(entries, field, naming);
      RefsOfFieldsRenamed(once, rest, naming);
      OtherRefs(entries, field, rest, naming);
      RenamedAt(entries, field, naming, field.key);
      OtherFields(once, rest, naming, field.key);
      if ValueOf(entries, field.key).Some? { RefsRenamed(ValueOf(entries, field.key).value, field.spot, naming); }
      assert RefsUnder(RenameFields(entries, fields, naming), field) == Mapped(naming, RefsUnder(entries, field));
      MappedJoins(naming, RefsUnder(entries, field), RefsOfFields(entries, rest));
    }
  }

  lemma {:induction false} FieldsCommute(entries: seq<Entry>, f: Field, g: Field, a: Naming, b: Naming)
    requires f.key != g.key
    ensures RenameAt(RenameAt(entries, f, a), g, b) == RenameAt(RenameAt(entries, g, b), f, a)
    decreases |entries|
  {
    if entries != [] { FieldsCommute(entries[1..], f, g, a, b); }
  }

  lemma {:induction false} FieldCommutes(entries: seq<Entry>, f: Field, fields: seq<Field>, a: Naming, b: Naming)
    requires !NamesKey(fields, f.key)
    ensures RenameAt(RenameFields(entries, fields, a), f, b) == RenameFields(RenameAt(entries, f, b), fields, a)
    decreases |fields|
  {
    if fields != [] {
      FieldCommutes(RenameAt(entries, fields[0], a), f, fields[1..], a, b);
      FieldsCommute(entries, fields[0], f, a, b);
    }
  }

  /** Rewriting twice is rewriting once, by both namings. */
  lemma {:induction false} RenameTwice(y: Yaml, spot: Spot, a: Naming, b: Naming)
    requires Tidy(spot)
    ensures Rename(Rename(y, spot, a), spot, b) == Rename(y, spot, Then(a, b))
    decreases spot, 0
  {
    match spot
    case Ref => if y.Scalar? && y.text != "" { ApplyIsText(a, y.text); }
    case Fields(fields) => if y.Mapping? { FieldsTwice(y.entries, fields, a, b); }
    case Values(each) => if y.Mapping? { ValuesTwice(y.entries, each, a, b); }
    case Items(each) => if y.Sequence? { ItemsTwice(y.items, each, a, b); }
  }

  lemma {:induction false} ValuesTwice(entries: seq<Entry>, each: Spot, a: Naming, b: Naming)
    requires Tidy(each)
    ensures RenameValues(RenameValues(entries, each, a), each, b) == RenameValues(entries, each, Then(a, b))
    decreases each, 1, |entries|
  {
    if entries != [] {
      RenameTwice(entries[0].value, each, a, b);
      ValuesTwice(entries[1..], each, a, b);
    }
  }

  lemma {:induction false} ItemsTwice(items: seq<Yaml>, each: Spot, a: Naming, b: Naming)
    requires Tidy(each)
    ensures RenameItems(RenameItems(items, each, a), each, b) == RenameItems(items, each, Then(a, b))
    decreases each, 1, |items|
  {
    if items != [] {
      RenameTwice(items[0], each, a, b);
      ItemsTwice(items[1..], each, a, b);
    }
  }

  lemma {:induction false} FieldTwice(entries: seq<Entry>, field: Field, a: Naming, b: Naming)
    requires Tidy(field.spot)
    ensures RenameAt(RenameAt(entries, field, a), field, b) == RenameAt(entries, field, Then(a, b))
    decreases field, 1, |entries|
  {
    if entries != [] {
      if entries[0].key == field.key {
        RenameTwice(entries[0].value, field.spot, a, b);
      } else {
        FieldTwice(entries[1..], field, a, b);
      }
    }
  }

  lemma {:induction false} FieldsTwice(entries: seq<Entry>, fields: seq<Field>, a: Naming, b: Naming)
    requires TidyFields(fields)
    ensures RenameFields(RenameFields(entries, fields, a), fields, b) == RenameFields(entries, fields, Then(a, b))
    decreases fields
  {
    if fields != [] {
      var field, rest := fields[0], fields[1..];
      var once := RenameAt(entries, field, a);
      FieldCommutes(once, field, rest, a, b);
      FieldTwice(entries, field, a, b);
      FieldsTwice(RenameAt(entries, field, Then(a, b)), rest, a, b);
    }
  }

  ghost predicate AgreeOn(a: Naming, b: Naming, refs: seq<string>) {
    forall r :: r in refs ==> Apply(a, r) == Apply(b, r)
  }

  /** Namings that agree on the names in a document rewrite it alike. */
  lemma {:induction false} AgreeingRename(y: Yaml, spot: Spot, a: Naming, b: Naming)
    requires Tidy(spot) && AgreeOn(a, b, Refs(y, spot))
    ensures Rename(y, spot, a) == Rename(y, spot, b)
    decreases spot, 0
  {
    match spot
    case Ref => if y.Scalar? && y.text != "" { assert y.text in Refs(y, spot); }
    case Fields(fields) => if y.Mapping? { AgreeingFields(y.entries, fields, a, b); }
    case Values(each) => if y.Mapping? { AgreeingValues(y.entries, each, a, b); }
    case Items(each) => if y.Sequence? { AgreeingItems(y.items, each, a, b); }
  }

  lemma {:induction false} AgreeingValues(entries: seq<Entry>, each: Spot, a: Naming, b: Naming)
    requires Tidy(each) && AgreeOn(a, b, RefsOfValues(entries, each))
    ensures RenameValues(entries, each, a) == RenameValues(entries, each, b)
    decreases each, 1, |entries|
  {
    if entries != [] {
      AgreeingRename(entries[0].value, each, a, b);
      AgreeingValues(entries[1..], each, a, b);
    }
  }

  lemma {:induction false} AgreeingItems(items: seq<Yaml>, each: Spot, a: Naming, b: Naming)
    requires Tidy(each) && AgreeOn(a, b, RefsOfItems(items, each))
    ensures RenameItems(items, each, a) == RenameItems(items, each, b)
    decreases each, 1, |items|
  {
    if items != [] {
      AgreeingRename(items[0], each, a, b);
      AgreeingItems(items[1..], each, a, b);
    }
  }

  lemma {:induction false} AgreeingAt(entries: seq<Entry>, field: Field, a: Naming, b: Naming)
    requires Tidy(field.spot) && AgreeOn(a, b, RefsUnder(entries, field))
    ensures RenameAt(entries, field, a) == RenameAt(entries, field, b)
    decreases field, 1, |entries|
  {
    if entries != [] {
      if entries[0].key == field.key {
        AgreeingRename(entries[0].value, field.spot, a, b);
      } else {
        AgreeingAt(entries[1..], field, a, b);
      }
    }
  }

  lemma {:induction false} AgreeingFields(entries: seq<Entry>, fields: seq<Field>, a: Naming, b: Naming)
    requires TidyFields(fields) && AgreeOn(a, b, RefsOfFields(entries, fields))
    ensures RenameFields(entries, fields, a) == RenameFields(entries, fields, b)
    decreases fields
  {
    if fields != [] {
      assert RefsOfFields(entries, fields) == RefsUnder(entries, fields[0]) + RefsOfFields(entries, fields[1..]);
      AgreeingAt(entries, fields[0], a, b);
      OtherRefs(entries, fields[0], fields[1..], a);
      AgreeingFields(RenameAt(entries, fields[0], a), fields[1..], a, b);
    }
  }

  /** A document with the names in it blanked out. */
  function Blank(y: Yaml, scenario: bool): Yaml { Rename(y, SpotOf(scenario), Blanked) }

  lemma SpotsAreTidy(scenario: bool)
    ensures Tidy(SpotOf(scenario))
  {
    assert Tidy(Ref);
    OneIsTidy("profile", Ref);
    OneIsTidy("groups", PROGRAMS);
    OneIsTidy("extends", Ref);
    var routes := Field("routes", Items(HELD));
    var on := Field("on", Values(NETWORK));
    OneIsTidy("routes", Items(HELD));
    assert [on, routes][1..] == [routes];
    assert !NamesKey([routes], "on") && !NamesKey([routes], "groups") && !NamesKey([on, routes], "groups");
    assert TidyFields([on, routes]);
    assert SCENARIO.fields[1..] == [on, routes];
  }

  lemma OneIsTidy(key: string, spot: Spot)
    requires Tidy(spot)
    ensures Tidy(Fields([Field(key, spot)])) && TidyFields([Field(key, spot)])
  {
    assert [Field(key, spot)][1..] == [];
  }

  /** Rewriting changes nothing but the names. */
  lemma RenamingKeepsTheRest(y: Yaml, scenario: bool, naming: Naming)
    ensures Blank(Rename(y, SpotOf(scenario), naming), scenario) == Blank(y, scenario)
  {
    SpotsAreTidy(scenario);
    RenameTwice(y, SpotOf(scenario), naming, Blanked);
    AgreeingRename(y, SpotOf(scenario), Then(naming, Blanked), Blanked);
  }
}
