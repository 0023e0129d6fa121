/** What a whole merge promises, item by item, whichever side is mine. */
module MergeLaws {
  import opened Basics
  import opened Merge

  // ---- named lists, item by item ----

  predicate DistinctNames(items: seq<Yaml>) {
    forall i, j :: 0 <= i < j < |items| ==> ItemName(items[i]) != ItemName(items[j])
  }

  /** A mapping whose keys do not repeat, named so. */
  predicate Item(y: Yaml, name: string) { y.Mapping? && UniqueKeys(y.entries) && ItemName(y) == name }

  predicate ItemList(items: seq<Yaml>) {
    && NamedItems(items)
    && DistinctNames(items)
    && forall i :: 0 <= i < |items| ==> items[i].Mapping? && UniqueKeys(items[i].entries)
  }

  lemma {:induction false} ItemIsListed(items: seq<Yaml>, name: string)
    ensures HasName(items, name) <==> exists i :: 0 <= i < |items| && ItemName(items[i]) == name
    ensures HasName(items, name) ==>
      ItemName(ItemOf(items, name).value) == name && exists i :: 0 <= i < |items| && Some(items[i]) == ItemOf(items, name)
    decreases |items|
  {
    if items != [] && ItemName(items[0]) != name {
      ItemIsListed(items[1..], name);
      assert forall i :: 1 <= i < |items| ==> items[i] == items[1..][i - 1];
      assert forall i :: 0 <= i < |items[1..]| ==> items[1..][i] == items[i + 1];
    }
  }

  /** With distinct names, the first item is the only one of its name. */
  lemma {:induction false} FirstIsOnly(items: seq<Yaml>)
    requires items != [] && DistinctNames(items)
    ensures ItemOf(items[1..], ItemName(items[0])).None?
    ensures DistinctNames(items[1..])
    ensures forall n :: ItemOf(items, n) == if n == ItemName(items[0]) then Some(items[0]) else ItemOf(items[1..], n)
  {
    ItemIsListed(items[1..], ItemName(items[0]));
  }

  lemma ValueKeepsName(base: Option<Yaml>, theirs: Option<Yaml>, mine: Option<Yaml>, path: string)
    requires theirs.Some? && theirs.value.Scalar? && mine.Some? && mine.value.Scalar?
    ensures MergeValue(base, theirs, mine, path).value in {theirs, mine}
  {}

  /** Merging two versions of an item leaves its name alone. */
  lemma EntriesKeepName(base: seq<Entry>, theirs: Yaml, mine: Yaml, prefix: string, name: string)
    requires name != "" && Item(theirs, name) && Item(mine, name)
    ensures Item(Mapping(MergeEntries(base, theirs.entries, mine.entries, prefix).value), name)
  {
    KeyByKey(base, theirs.entries, mine.entries, prefix, "name");
    ValueKeepsName(ValueOf(base, "name"), ValueOf(theirs.entries, "name"), ValueOf(mine.entries, "name"), prefix + "name");
  }

  lemma MergedItemKeepsName(base: Option<Yaml>, theirs: Option<Yaml>, mine: Option<Yaml>, path: string, name: string)
    requires name != ""
    requires theirs.Some? ==> Item(theirs.value, name)
    requires mine.Some? ==> Item(mine.value, name)
    ensures var merged := MergeItem(base, theirs, mine, path).value; merged.Some? ==> Item(merged.value, name)
  {
    if theirs.Some? && mine.Some? && (base.None? || base.value.Mapping?) {
      EntriesKeepName(EntriesOf(base), theirs.value, mine.value, path + ".", name);
    }
  }

  /** Putting an item of a new name in front of a list of others. */
  lemma Prepend(item: Yaml, rest: seq<Yaml>, n: string)
    requires ItemList(rest) && ItemOf(rest, ItemName(item)).None?
    requires ItemName(item) != "" && Item(item, ItemName(item))
    ensures ItemList([item] + rest)
    ensures ItemOf([item] + rest, n) == if n == ItemName(item) then Some(item) else ItemOf(rest, n)
  {
    assert ([item] + rest)[1..] == rest;
    ItemIsListed(rest, ItemName(item));
  }

  lemma {:induction false} MergeMineAt(items: seq<Yaml>, base: seq<Yaml>, theirs: seq<Yaml>, prefix: string, n: string)
    requires ItemList(items) && ItemList(theirs)
    ensures ItemList(MergeMine(items, base, theirs, prefix).value)
    ensures ItemOf(MergeMine(items, base, theirs, prefix).value, n) ==
      if ItemOf(items, n).None? then None
      else MergeItem(ItemOf(base, n), ItemOf(theirs, n), ItemOf(items, n), prefix + n).value
    decreases |items|
  {
    if items != [] {
      var name := ItemName(items[0]);
      FirstIsOnly(items);
      ItemIsListed(theirs, name);
      MergeMineAt(items[1..], base, theirs, prefix, n);
      MergeMineAt(items[1..], base, theirs, prefix, name);
      var here := MergeItem(ItemOf(base, name), ItemOf(theirs, name), Some(items[0]), prefix + name).value;
      var rest := MergeMine(items[1..], base, theirs, prefix).value;
      MergedItemKeepsName(ItemOf(base, name), ItemOf(theirs, name), Some(items[0]), prefix + name, name);
      if here.None? {
        assert Listed(here) + rest == rest;
      } else {
        Prepend(here.value, rest, n);
      }
    }
  }

  lemma {:induction false} RestIsItems(items: seq<Yaml>)
    requires items != [] && ItemList(items)
    ensures ItemList(items[1..]) && ItemName(items[0]) != "" && Item(items[0], ItemName(items[0]))
    ensures ItemOf(items[1..], ItemName(items[0])).None?
    ensures forall n :: ItemOf(items, n) == if n == ItemName(items[0]) then Some(items[0]) else ItemOf(items[1..], n)
  {
    FirstIsOnly(items);
  }

  lemma InsertFurther(kept: seq<Yaml>, at: nat, item: Yaml)
    requires 0 < at <= |kept|
    ensures Insert(kept, at, item) == [kept[0]] + Insert(kept[1..], at - 1, item)
  {}

  lemma {:induction false} InsertAt(kept: seq<Yaml>, at: nat, item: Yaml, n: string)
    requires ItemList(kept) && at <= |kept|
    requires ItemName(item) != "" && Item(item, ItemName(item)) && ItemOf(kept, ItemName(item)).None?
    ensures ItemList(Insert(kept, at, item))
    ensures ItemOf(Insert(kept, at, item), n) == if n == ItemName(item) then Some(item) else ItemOf(kept, n)
    decreases at
  {
    if at == 0 {
      assert Insert(kept, 0, item) == [item] + kept;
      Prepend(item, kept, n);
    } else {
      var first := kept[0];
      RestIsItems(kept);
      InsertAt(kept[1..], at - 1, item, n);
      InsertAt(kept[1..], at - 1, item, ItemName(first));
      InsertFurther(kept, at, item);
      Prepend(first, Insert(kept[1..], at - 1, item), n);
    }
  }

  /** Nothing mine lacks is in the list before its turn. */
  predicate Unadded(i: nat, kept: seq<Yaml>, theirs: seq<Yaml>, mine: seq<Yaml>) {
    forall j :: i <= j < |theirs| && ItemOf(mine, ItemName(theirs[j])).None? ==> ItemOf(kept, ItemName(theirs[j])).None?
  }

  lemma {:induction false} LookedAt(i: nat, kept: seq<Yaml>, base: seq<Yaml>, theirs: seq<Yaml>, mine: seq<Yaml>,
      n: string)
    requires i < |theirs| && ItemList(theirs) && ItemList(kept) && Unadded(i, kept, theirs, mine)
    ensures ItemList(Looked(i, kept, base, theirs, mine))
    ensures ItemOf(Looked(i, kept, base, theirs, mine), n) ==
      if n == ItemName(theirs[i]) && !HasName(mine, n) && !HasName(base, n) then Some(theirs[i]) else ItemOf(kept, n)
  {
    var name := ItemName(theirs[i]);
    if !HasName(mine, name) && !HasName(base, name) {
      InsertAt(kept, Place(kept, theirs, i), theirs[i], n);
    }
  }

  lemma LookedStaysUnadded(i: nat, kept: seq<Yaml>, base: seq<Yaml>, theirs: seq<Yaml>, mine: seq<Yaml>)
    requires i < |theirs| && ItemList(theirs) && ItemList(kept) && Unadded(i, kept, theirs, mine)
    ensures Unadded(i + 1, Looked(i, kept, base, theirs, mine), theirs, mine)
  {
    forall j | i + 1 <= j < |theirs| && ItemOf(mine, ItemName(theirs[j])).None?
      ensures ItemOf(Looked(i, kept, base, theirs, mine), ItemName(theirs[j])).None?
    {
      LookedAt(i, kept, base, theirs, mine, ItemName(theirs[j]));
    }
  }

  /** Looking at one item, then at the rest from there. */
  lemma RestOfTheirs(theirs: seq<Yaml>, i: nat, n: string)
    requires i < |theirs| && ItemList(theirs)
    ensures ItemOf(theirs[i..], n) == if n == ItemName(theirs[i]) then Some(theirs[i]) else ItemOf(theirs[i + 1..], n)
    ensures ItemOf(theirs[i + 1..], ItemName(theirs[i])).None?
  {
    assert theirs[i..][1..] == theirs[i + 1..];
    FirstIsOnly(theirs[i..]);
  }

  lemma {:induction false} AddTheirsAt(i: nat, kept: seq<Yaml>, base: seq<Yaml>, theirs: seq<Yaml>, mine: seq<Yaml>,
      n: string)
    requires i <= |theirs| && ItemList(theirs) && ItemList(kept) && Unadded(i, kept, theirs, mine)
    ensures ItemList(AddTheirs(i, kept, base, theirs, mine))
    ensures ItemOf(AddTheirs(i, kept, base, theirs, mine), n) ==
      if !HasName(mine, n) && !HasName(base, n) && HasName(theirs[i..], n) then ItemOf(theirs[i..], n) else ItemOf(kept, n)
    decreases |theirs| - i
  {
    if i < |theirs| {
      LookedAt(i, kept, base, theirs, mine, n);
      LookedStaysUnadded(i, kept, base, theirs, mine);
      AddTheirsAt(i + 1, Looked(i, kept, base, theirs, mine), base, theirs, mine, n);
      RestOfTheirs(theirs, i, n);
    }
  }

  /** Name by name: with no name repeated, the merged list holds under every
      name what that name's three versions give, and nothing else. */
  lemma {:induction false} NameByName(base: seq<Yaml>, theirs: seq<Yaml>, mine: seq<Yaml>, prefix: string, n: string)
    requires ItemList(theirs) && ItemList(mine)
    ensures ItemList(MergeNamed(base, theirs, mine, prefix).value)
    ensures ItemOf(MergeNamed(base, theirs, mine, prefix).value, n) ==
      MergeItem(ItemOf(base, n), ItemOf(theirs, n), ItemOf(mine, n), prefix + n).value
  {
    var first := MergeMine(mine, base, theirs, prefix).value;
    forall k ensures ItemList(first) && (ItemOf(mine, k).None? ==> ItemOf(first, k).None?) {
      MergeMineAt(mine, base, theirs, prefix, k);
    }
    MergeMineAt(mine, base, theirs, prefix, n);
    assert theirs[0..] == theirs;
    AddTheirsAt(0, first, base, theirs, mine, n);
  }

  lemma {:induction false} MineConflicts(items: seq<Yaml>, base: seq<Yaml>, theirs: seq<Yaml>, prefix: string,
      c: string)
    requires DistinctNames(items)
    ensures c in MergeMine(items, base, theirs, prefix).conflicts <==>
      exists n :: ItemOf(items, n).Some?
        && c in MergeItem(ItemOf(base, n), ItemOf(theirs, n), ItemOf(items, n), prefix + n).conflicts
    decreases |items|
  {
    if items != [] {
      var name := ItemName(items[0]);
      MineConflicts(items[1..], base, theirs, prefix, c);
      FirstIsOnly(items);
    }
  }

  lemma {:induction false} TheirsConflicts(i: nat, base: seq<Yaml>, theirs: seq<Yaml>, mine: seq<Yaml>,
      prefix: string, c: string)
    requires i <= |theirs| && DistinctNames(theirs)
    ensures c in DroppedConflicts(i, base, theirs, mine, prefix) <==>
      exists n :: ItemOf(mine, n).None? && ItemOf(theirs[i..], n).Some? &&
        c in NewItem(ItemOf(base, n), ItemOf(theirs[i..], n), prefix + n).conflicts
    decreases |theirs| - i
  {
    if i < |theirs| {
      TheirsConflicts(i + 1, base, theirs, mine, prefix, c);
      assert theirs[i..][1..] == theirs[i + 1..];
      FirstIsOnly(theirs[i..]);
    }
  }

  lemma ConflictsByName(base: seq<Yaml>, theirs: seq<Yaml>, mine: seq<Yaml>, prefix: string, c: string)
    requires DistinctNames(theirs) && DistinctNames(mine)
    ensures c in MergeNamed(base, theirs, mine, prefix).conflicts <==>
      exists n :: c in MergeItem(ItemOf(base, n), ItemOf(theirs, n), ItemOf(mine, n), prefix + n).conflicts
  {
    MineConflicts(mine, base, theirs, prefix, c);
    TheirsConflicts(0, base, theirs, mine, prefix, c);
    assert theirs[0..] == theirs;
  }

  // ---- tidy documents ----

  /** No mapping repeats a key, no named list repeats a name, names are text. */
  predicate Tidy(y: Yaml)
    decreases y
  {
    match y
    case Scalar(_, _) => true
    case Mapping(entries) =>
      && UniqueKeys(entries)
      && (forall i :: 0 <= i < |entries| ==> Tidy(entries[i].value))
      && (forall i :: 0 <= i < |entries| && entries[i].key == "name" && entries[i].value.Scalar? ==>
        entries[i].value.value == Str(entries[i].value.text))
    case Sequence(items) =>
      && (forall i :: 0 <= i < |items| ==> Tidy(items[i]))
      && (NamedItems(items) ==> DistinctNames(items))
  }

  predicate TidyOption(v: Option<Yaml>) { v.Some? ==> Tidy(v.value) }

  predicate TidyEntries(entries: seq<Entry>) { Tidy(Mapping(entries)) }

  lemma TidyValue(entries: seq<Entry>, k: string)
    requires TidyEntries(entries)
    ensures TidyOption(ValueOf(entries, k)) && OptionSize(ValueOf(entries, k)) <= SizeOfEntries(entries)
    decreases |entries|
  {
    ValueFits(entries, k);
    if entries != [] && entries[0].key != k {
      assert forall i :: 0 <= i < |entries[1..]| ==> entries[1..][i] == entries[i + 1];
      TidyValue(entries[1..], k);
    }
  }

  lemma NamedIsMapping(y: Yaml)
    ensures ItemName(y) != "" ==> y.Mapping?
  {}

  lemma TidyItem(items: seq<Yaml>, n: string)
    requires Tidy(Sequence(items)) && NamedItems(items)
    ensures ItemList(items) && TidyOption(ItemOf(items, n)) && OptionSize(ItemOf(items, n)) <= SizeOfItems(items)
  {
    ItemIsListed(items, n);
    ItemFits(items, n);
    forall i | 0 <= i < |items| ensures items[i].Mapping? && UniqueKeys(items[i].entries) {
      NamedIsMapping(items[i]);
    }
  }

  // ---- the same conflicts either way ----

  lemma {:induction false} EntriesConflictAlike(base: seq<Entry>, theirs: seq<Entry>, mine: seq<Entry>,
      prefix: string, c: string)
    requires TidyEntries(theirs) && TidyEntries(mine)
    ensures c in MergeEntries(base, theirs, mine, prefix).conflicts <==> c in MergeEntries(base, mine, theirs, prefix).conflicts
    decreases SizeOfEntries(theirs) + SizeOfEntries(mine), 3
  {
    ConflictsByKey(base, theirs, mine, prefix, c);
    ConflictsByKey(base, mine, theirs, prefix, c);
    forall k ensures c in MergeValue(ValueOf(base, k), ValueOf(theirs, k), ValueOf(mine, k), prefix + k).conflicts <==>
                     c in MergeValue(ValueOf(base, k), ValueOf(mine, k), ValueOf(theirs, k), prefix + k).conflicts
    {
      KeyConflictsAlike(base, theirs, mine, prefix, c, k);
    }
  }

  lemma {:induction false} KeyConflictsAlike(base: seq<Entry>, theirs: seq<Entry>, mine: seq<Entry>, prefix: string,
      c: string, k: string)
    requires TidyEntries(theirs) && TidyEntries(mine)
    ensures c in MergeValue(ValueOf(base, k), ValueOf(theirs, k), ValueOf(mine, k), prefix + k).conflicts <==>
            c in MergeValue(ValueOf(base, k), ValueOf(mine, k), ValueOf(theirs, k), prefix + k).conflicts
    decreases SizeOfEntries(theirs) + SizeOfEntries(mine), 2
  {
    TidyValue(theirs, k);
    TidyValue(mine, k);
    ValueConflictsAlike(ValueOf(base, k), ValueOf(theirs, k), ValueOf(mine, k), prefix + k, c);
  }

  lemma {:induction false} ValueConflictsAlike(base: Option<Yaml>, theirs: Option<Yaml>, mine: Option<Yaml>,
      path: string, c: string)
    requires TidyOption(theirs) && TidyOption(mine)
    ensures c in MergeValue(base, theirs, mine, path).conflicts <==> c in MergeValue(base, mine, theirs, path).conflicts
    decreases OptionSize(theirs) + OptionSize(mine), 1
  {
    if mine.Some? && theirs.Some? {
      if mine.value.Mapping? && theirs.value.Mapping? && (base.None? || base.value.Mapping?) {
        EntriesConflictAlike(EntriesOf(base), theirs.value.entries, mine.value.entries, path + ".", c);
      } else if NamedList(mine) && NamedList(theirs) && (base.None? || NamedList(base)) {
        ItemsConflictAlike(ItemsOf(base), theirs.value.items, mine.value.items, path + ".", c);
      }
    }
  }

  lemma {:induction false} ItemConflictsAlike(base: Option<Yaml>, theirs: Option<Yaml>, mine: Option<Yaml>,
      path: string, c: string)
    requires TidyOption(theirs) && TidyOption(mine)
    ensures c in MergeItem(base, theirs, mine, path).conflicts <==> c in MergeItem(base, mine, theirs, path).conflicts
    decreases OptionSize(theirs) + OptionSize(mine), 1
  {
    if theirs.Some? && mine.Some? && theirs.value.Mapping? && mine.value.Mapping? && (base.None? || base.value.Mapping?) {
      EntriesConflictAlike(EntriesOf(base), theirs.value.entries, mine.value.entries, path + ".", c);
    }
  }

  lemma {:induction false} ItemsConflictAlike(base: seq<Yaml>, theirs: seq<Yaml>, mine: seq<Yaml>, prefix: string,
      c: string)
    requires Tidy(Sequence(theirs)) && Tidy(Sequence(mine)) && NamedItems(theirs) && NamedItems(mine)
    ensures c in MergeNamed(base, theirs, mine, prefix).conflicts <==> c in MergeNamed(base, mine, theirs, prefix).conflicts
    decreases SizeOfItems(theirs) + SizeOfItems(mine), 3
  {
    ConflictsByName(base, theirs, mine, prefix, c);
    ConflictsByName(base, mine, theirs, prefix, c);
    forall n ensures c in MergeItem(ItemOf(base, n), ItemOf(theirs, n), ItemOf(mine, n), prefix + n).conflicts <==>
                     c in MergeItem(ItemOf(base, n), ItemOf(mine, n), ItemOf(theirs, n), prefix + n).conflicts
    {
      NameConflictsAlike(base, theirs, mine, prefix, c, n);
    }
  }

  lemma {:induction false} NameConflictsAlike(base: seq<Yaml>, theirs: seq<Yaml>, mine: seq<Yaml>, prefix: string,
      c: string, n: string)
    requires Tidy(Sequence(theirs)) && Tidy(Sequence(mine)) && NamedItems(theirs) && NamedItems(mine)
    ensures c in MergeItem(ItemOf(base, n), ItemOf(theirs, n), ItemOf(mine, n), prefix + n).conflicts <==>
            c in MergeItem(ItemOf(base, n), ItemOf(mine, n), ItemOf(theirs, n), prefix + n).conflicts
    decreases SizeOfItems(theirs) + SizeOfItems(mine), 2
  {
    TidyItem(theirs, n);
    TidyItem(mine, n);
    ItemConflictsAlike(ItemOf(base, n), ItemOf(theirs, n), ItemOf(mine, n), prefix + n, c);
  }

  // ---- one outcome when nothing conflicts ----

  /** A document up to the order of its keys and of its named items. */
  datatype Canon =
    | Plain(value: Datum)
    | Fields(fields: map<string, Canon>)
    | Named(items: map<string, Canon>)
    | Ordered(list: seq<Canon>)

  function CanonOf(y: Yaml): Canon {
    match y
    case Scalar(_, value) => Plain(value)
    case Mapping(entries) => Fields(CanonEntries(entries))
    case Sequence(items) => if NamedItems(items) then Named(CanonNamed(items)) else Ordered(CanonItems(items))
  }

  function CanonEntries(entries: seq<Entry>): map<string, Canon> {
    if entries == [] then map[] else CanonEntries(entries[1..])[entries[0].key := CanonOf(entries[0].value)]
  }

  function CanonNamed(items: seq<Yaml>): map<string, Canon> {
    if items == [] then map[] else CanonNamed(items[1..])[ItemName(items[0]) := CanonOf(items[0])]
  }

  function CanonItems(items: seq<Yaml>): seq<Canon> {
    if items == [] then [] else [CanonOf(items[0])] + CanonItems(items[1..])
  }

  function CanonOption(v: Option<Yaml>): Option<Canon> { if v.None? then None else Some(CanonOf(v.value)) }

  function Lookup(m: map<string, Canon>, k: string): Option<Canon> { if k in m then Some(m[k]) else None }

  lemma {:induction false} CanonEntriesAt(entries: seq<Entry>, k: string)
    ensures Lookup(CanonEntries(entries), k) == CanonOption(ValueOf(entries, k))
    decreases |entries|
  {
    if entries != [] { CanonEntriesAt(entries[1..], k); }
  }

  lemma {:induction false} CanonNamedAt(items: seq<Yaml>, n: string)
    ensures Lookup(CanonNamed(items), n) == CanonOption(ItemOf(items, n))
    decreases |items|
  {
    if items != [] { CanonNamedAt(items[1..], n); }
  }

  lemma SameLookups(a: map<string, Canon>, b: map<string, Canon>)
    requires forall k :: Lookup(a, k) == Lookup(b, k)
    ensures a == b
  {
    forall k ensures k in a <==> k in b { assert Lookup(a, k) == Lookup(b, k); }
    forall k | k in a ensures a[k] == b[k] { assert Lookup(a, k) == Lookup(b, k); }
  }

  lemma {:induction false} DecodedAt(entries: seq<Entry>, k: string)
    requires DecodeEntries(entries).Some?
    ensures var fields := DecodeEntries(entries).value;
      && (k in fields <==> ValueOf(entries, k).Some?)
      && (k in fields ==> Decode(ValueOf(entries, k).value) == Some(fields[k]))
    decreases |entries|
  {
    if entries != [] { DecodedAt(entries[1..], k); }
  }

  lemma {:induction false} DecodedItem(items: seq<Yaml>, i: nat)
    requires DecodeItems(items).Some?
    ensures |DecodeItems(items).value| == |items|
    ensures i < |items| ==> Decode(items[i]) == Some(DecodeItems(items).value[i])
    decreases |items|
  {
    if items != [] { DecodedItem(items[1..], if i == 0 then 0 else i - 1); }
  }

  lemma {:induction false} TidyName(entries: seq<Entry>)
    requires TidyEntries(entries)
    ensures var v := ValueOf(entries, "name"); v.Some? && v.value.Scalar? ==> v.value.value == Str(v.value.text)
    decreases |entries|
  {
    if entries != [] && entries[0].key != "name" {
      assert forall i :: 0 <= i < |entries[1..]| ==> entries[1..][i] == entries[i + 1];
      TidyName(entries[1..]);
    }
  }

  /** Items of one meaning have one name. */
  lemma SameMeaningSameName(x: Yaml, y: Yaml)
    requires Tidy(x) && Tidy(y) && Decode(x).Some? && Decode(x) == Decode(y)
    ensures ItemName(x) == ItemName(y)
  {
    if x.Mapping? {
      DecodedAt(x.entries, "name");
      DecodedAt(y.entries, "name");
      TidyName(x.entries);
      TidyName(y.entries);
    }
  }

  /** What means the same is the same up to order. */
  lemma {:induction false} SameMeaningSameCanon(x: Yaml, y: Yaml)
    requires Tidy(x) && Tidy(y) && Decode(x).Some? && Decode(x) == Decode(y)
    ensures CanonOf(x) == CanonOf(y)
    decreases Size(x), 0, 0
  {
    match x {
      case Scalar(_, _) =>
      case Mapping(entries) =>
        forall k ensures Lookup(CanonEntries(entries), k) == Lookup(CanonEntries(y.entries), k) {
          CanonEntriesAt(entries, k);
          CanonEntriesAt(y.entries, k);
          DecodedAt(entries, k);
          DecodedAt(y.entries, k);
          TidyValue(entries, k);
          TidyValue(y.entries, k);
          if ValueOf(entries, k).Some? {
            SameMeaningSameCanon(ValueOf(entries, k).value, ValueOf(y.entries, k).value);
          }
        }
        SameLookups(CanonEntries(entries), CanonEntries(y.entries));
      case Sequence(items) =>
        SameItemsSameCanon(items, y.items);
    }
  }

  lemma NamedSplit(items: seq<Yaml>)
    requires items != []
    ensures NamedItems(items) <==> ItemName(items[0]) != "" && NamedItems(items[1..])
  {
    assert forall i :: 0 <= i < |items[1..]| ==> items[1..][i] == items[i + 1];
    assert forall i :: 1 <= i < |items| ==> items[i] == items[1..][i - 1];
  }

  lemma DecodedRest(items: seq<Yaml>)
    requires items != [] && DecodeItems(items).Some?
    ensures Decode(items[0]) == Some(DecodeItems(items).value[0])
    ensures DecodeItems(items[1..]) == Some(DecodeItems(items).value[1..])
  {
    DecodedItem(items, 0);
  }

  lemma {:induction false} SameItemsSameCanon(xs: seq<Yaml>, ys: seq<Yaml>)
    requires forall i :: 0 <= i < |xs| ==> Tidy(xs[i])
    requires forall i :: 0 <= i < |ys| ==> Tidy(ys[i])
    requires DecodeItems(xs).Some? && DecodeItems(xs) == DecodeItems(ys)
    ensures NamedItems(xs) <==> NamedItems(ys)
    ensures CanonNamed(xs) == CanonNamed(ys) && CanonItems(xs) == CanonItems(ys)
    decreases SizeOfItems(xs), 1, |xs|
  {
    DecodedItem(xs, 0);
    DecodedItem(ys, 0);
    if xs != [] {
      DecodedRest(xs);
      DecodedRest(ys);
      SameMeaningSameName(xs[0], ys[0]);
      SameMeaningSameCanon(xs[0], ys[0]);
      SameItemsSameCanon(xs[1..], ys[1..]);
      NamedSplit(xs);
      NamedSplit(ys);
    }
  }

  predicate Clean<T>(m: Merged<T>) { m.conflicts == [] }

  lemma {:induction false} CleanKey(base: seq<Entry>, theirs: seq<Entry>, mine: seq<Entry>, prefix: string, k: string)
    requires UniqueKeys(theirs) && UniqueKeys(mine) && Clean(MergeEntries(base, theirs, mine, prefix))
    ensures Clean(MergeValue(ValueOf(base, k), ValueOf(theirs, k), ValueOf(mine, k), prefix + k))
  {
    var conflicts := MergeValue(ValueOf(base, k), ValueOf(theirs, k), ValueOf(mine, k), prefix + k).conflicts;
    if conflicts != [] {
      var c := conflicts[0];
      assert c in conflicts;
      ConflictsByKey(base, theirs, mine, prefix, c);
    }
  }

  lemma {:induction false} CleanName(base: seq<Yaml>, theirs: seq<Yaml>, mine: seq<Yaml>, prefix: string, n: string)
    requires DistinctNames(theirs) && DistinctNames(mine) && Clean(MergeNamed(base, theirs, mine, prefix))
    ensures Clean(MergeItem(ItemOf(base, n), ItemOf(theirs, n), ItemOf(mine, n), prefix + n))
  {
    var conflicts := MergeItem(ItemOf(base, n), ItemOf(theirs, n), ItemOf(mine, n), prefix + n).conflicts;
    if conflicts != [] {
      var c := conflicts[0];
      assert c in conflicts;
      ConflictsByName(base, theirs, mine, prefix, c);
    }
  }

  lemma SameOptionSameCanon(a: Option<Yaml>, b: Option<Yaml>)
    requires TidyOption(a) && TidyOption(b) && Same(a, b)
    ensures CanonOption(a) == CanonOption(b)
  {
    if a.Some? { SameMeaningSameCanon(a.value, b.value); }
  }

  lemma {:induction false} EntriesAgree(base: seq<Entry>, theirs: seq<Entry>, mine: seq<Entry>, prefix: string)
    requires TidyEntries(theirs) && TidyEntries(mine) && Clean(MergeEntries(base, theirs, mine, prefix))
    ensures CanonOf(Mapping(MergeEntries(base, theirs, mine, prefix).value))
      == CanonOf(Mapping(MergeEntries(base, mine, theirs, prefix).value))
    decreases SizeOfEntries(theirs) + SizeOfEntries(mine), 3
  {
    var one, other := MergeEntries(base, theirs, mine, prefix).value, MergeEntries(base, mine, theirs, prefix).value;
    forall k ensures Lookup(CanonEntries(one), k) == Lookup(CanonEntries(other), k) {
      CanonEntriesAt(one, k);
      CanonEntriesAt(other, k);
      KeyAgrees(base, theirs, mine, prefix, k);
    }
    SameLookups(CanonEntries(one), CanonEntries(other));
  }

  lemma {:induction false} KeyAgrees(base: seq<Entry>, theirs: seq<Entry>, mine: seq<Entry>, prefix: string, k: string)
    requires TidyEntries(theirs) && TidyEntries(mine) && Clean(MergeEntries(base, theirs, mine, prefix))
    ensures CanonOption(ValueOf(MergeEntries(base, theirs, mine, prefix).value, k)) ==
            CanonOption(ValueOf(MergeEntries(base, mine, theirs, prefix).value, k))
    decreases SizeOfEntries(theirs) + SizeOfEntries(mine), 2
  {
    KeyByKey(base, theirs, mine, prefix, k);
    KeyByKey(base, mine, theirs, prefix, k);
    CleanKey(base, theirs, mine, prefix, k);
    TidyValue(theirs, k);
    TidyValue(mine, k);
    ValuesAgree(ValueOf(base, k), ValueOf(theirs, k), ValueOf(mine, k), prefix + k);
  }

  lemma {:induction false} ValuesAgree(base: Option<Yaml>, theirs: Option<Yaml>, mine: Option<Yaml>, path: string)
    requires TidyOption(theirs) && TidyOption(mine) && Clean(MergeValue(base, theirs, mine, path))
    ensures CanonOption(MergeValue(base, theirs, mine, path).value) == CanonOption(MergeValue(base, mine, theirs, path).value)
    decreases OptionSize(theirs) + OptionSize(mine), 1
  {
    if Same(mine, theirs) {
      SameOptionSameCanon(mine, theirs);
    } else if !Same(theirs, base) && !Same(mine, base) {
      if mine.Some? && theirs.Some? && mine.value.Mapping? && theirs.value.Mapping? && (base.None? || base.value.Mapping?) {
        EntriesAgree(EntriesOf(base), theirs.value.entries, mine.value.entries, path + ".");
      } else {
        ItemsAgree(ItemsOf(base), theirs.value.items, mine.value.items, path + ".");
      }
    }
  }

  lemma {:induction false} ItemAgrees(base: Option<Yaml>, theirs: Option<Yaml>, mine: Option<Yaml>, path: string)
    requires TidyOption(theirs) && TidyOption(mine) && Clean(MergeItem(base, theirs, mine, path))
    requires base.Some? ==> base.value.Mapping?
    requires theirs.Some? ==> theirs.value.Mapping?
    requires mine.Some? ==> mine.value.Mapping?
    ensures CanonOption(MergeItem(base, theirs, mine, path).value) == CanonOption(MergeItem(base, mine, theirs, path).value)
    decreases OptionSize(theirs) + OptionSize(mine), 1
  {
    if theirs.Some? && mine.Some? {
      EntriesAgree(EntriesOf(base), theirs.value.entries, mine.value.entries, path + ".");
    }
  }

  lemma {:induction false} NameAgrees(base: seq<Yaml>, theirs: seq<Yaml>, mine: seq<Yaml>, prefix: string, n: string)
    requires Tidy(Sequence(theirs)) && Tidy(Sequence(mine)) && NamedItems(base) && NamedItems(theirs)
    requires NamedItems(mine)
    requires Clean(MergeNamed(base, theirs, mine, prefix))
    ensures CanonOption(ItemOf(MergeNamed(base, theirs, mine, prefix).value, n)) ==
            CanonOption(ItemOf(MergeNamed(base, mine, theirs, prefix).value, n))
    decreases SizeOfItems(theirs) + SizeOfItems(mine), 2
  {
    TidyItem(theirs, n);
    TidyItem(mine, n);
    NameByName(base, theirs, mine, prefix, n);
    NameByName(base, mine, theirs, prefix, n);
    CleanName(base, theirs, mine, prefix, n);
    NamedVersion(base, n);
    NamedVersion(theirs, n);
    NamedVersion(mine, n);
    ItemAgrees(ItemOf(base, n), ItemOf(theirs, n), ItemOf(mine, n), prefix + n);
  }

  lemma {:induction false} ItemsAgree(base: seq<Yaml>, theirs: seq<Yaml>, mine: seq<Yaml>, prefix: string)
    requires Tidy(Sequence(theirs)) && Tidy(Sequence(mine)) && NamedItems(base) && NamedItems(theirs)
    requires NamedItems(mine)
    requires Clean(MergeNamed(base, theirs, mine, prefix))
    ensures CanonOf(Sequence(MergeNamed(base, theirs, mine, prefix).value))
      == CanonOf(Sequence(MergeNamed(base, mine, theirs, prefix).value))
    decreases SizeOfItems(theirs) + SizeOfItems(mine), 3
  {
    var one, other := MergeNamed(base, theirs, mine, prefix).value, MergeNamed(base, mine, theirs, prefix).value;
    forall n ensures Lookup(CanonNamed(one), n) == Lookup(CanonNamed(other), n) {
      CanonNamedAt(one, n);
      CanonNamedAt(other, n);
      NameAgrees(base, theirs, mine, prefix, n);
    }
    SameLookups(CanonNamed(one), CanonNamed(other));
    TidyItem(theirs, "");
    TidyItem(mine, "");
    NameByName(base, theirs, mine, prefix, "");
    NameByName(base, mine, theirs, prefix, "");
  }

  // ---- the two laws of a whole merge ----

  /** Swapping mine and theirs reports the same conflicts, and when there are
      none both merges give the same document up to order. */
  lemma MergeIsSymmetric(base: seq<Entry>, theirs: seq<Entry>, mine: seq<Entry>)
    requires TidyEntries(theirs) && TidyEntries(mine)
    ensures forall c :: c in MergeEntries(base, theirs, mine, "").conflicts <==>
      c in MergeEntries(base, mine, theirs, "").conflicts
    ensures MergeEntries(base, theirs, mine, "").conflicts == [] ==>
      CanonOf(Mapping(MergeEntries(base, theirs, mine, "").value)) == CanonOf(Mapping(MergeEntries(base, mine, theirs, "").value))
  {
    forall c
      ensures c in MergeEntries(base, theirs, mine, "").conflicts <==> c in MergeEntries(base, mine, theirs, "").conflicts
    {
      EntriesConflictAlike(base, theirs, mine, "", c);
    }
    if Clean(MergeEntries(base, theirs, mine, "")) {
      EntriesAgree(base, theirs, mine, "");
    }
  }
}
