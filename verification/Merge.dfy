/** The three-way merge of a user's fork with its source: mappings key by key,
    lists of named items item by item. */
module Merge {
  import opened Basics

  /** What a scalar decodes to: text, or anything else in canonical form. */
  datatype Datum = Str(text: string) | Other(form: string)

  /** A document: a scalar carries its source text and what it decodes to. */
  datatype Yaml =
    | Scalar(text: string, value: Datum)
    | Mapping(entries: seq<Entry>)
    | Sequence(items: seq<Yaml>)

  datatype Entry = Entry(key: string, value: Yaml)

  /** What a document means, apart from layout and key order. */
  datatype Meaning = Atom(value: Datum) | Record(fields: map<string, Meaning>) | Listing(items: seq<Meaning>)

  // ---- reading ----

  function Size(y: Yaml): (n: nat)
    ensures n > 0
  {
    match y
    case Scalar(_, _) => 1
    case Mapping(entries) => 1 + SizeOfEntries(entries)
    case Sequence(items) => 1 + SizeOfItems(items)
  }

  function SizeOfEntries(entries: seq<Entry>): nat {
    if entries == [] then 0 else Size(entries[0].value) + SizeOfEntries(entries[1..])
  }

  function SizeOfItems(items: seq<Yaml>): nat {
    if items == [] then 0 else Size(items[0]) + SizeOfItems(items[1..])
  }

  /** mappingValue: the first entry with the key. */
  function ValueOf(entries: seq<Entry>, key: string): Option<Yaml> {
    if entries == [] then None
    else if entries[0].key == key then Some(entries[0].value)
    else ValueOf(entries[1..], key)
  }

  predicate HasKey(entries: seq<Entry>, key: string) { ValueOf(entries, key).Some? }

  /** itemName: empty unless the item is named by a scalar. */
  function ItemName(item: Yaml): string {
    if !item.Mapping? then ""
    else match ValueOf(item.entries, "name")
      case Some(Scalar(text, _)) => text
      case _ => ""
  }

  /** namedItem: the first item with the name. */
  function ItemOf(items: seq<Yaml>, name: string): Option<Yaml> {
    if items == [] then None
    else if ItemName(items[0]) == name then Some(items[0])
    else ItemOf(items[1..], name)
  }

  predicate HasName(items: seq<Yaml>, name: string) { ItemOf(items, name).Some? }

  function OptionSize(v: Option<Yaml>): nat { if v.None? then 0 else Size(v.value) }

  lemma {:induction false} ValueFits(entries: seq<Entry>, key: string)
    ensures OptionSize(ValueOf(entries, key)) <= SizeOfEntries(entries)
    decreases |entries|
  {
    if entries != [] { ValueFits(entries[1..], key); }
  }

  lemma {:induction false} ItemFits(items: seq<Yaml>, name: string)
    ensures OptionSize(ItemOf(items, name)) <= SizeOfItems(items)
    decreases |items|
  {
    if items != [] { ItemFits(items[1..], name); }
  }

  predicate NamedItems(items: seq<Yaml>) { forall i :: 0 <= i < |items| ==> ItemName(items[i]) != "" }

  /** namedList: a sequence of mappings each keyed by a name. */
  predicate NamedList(v: Option<Yaml>) { v.Some? && v.value.Sequence? && NamedItems(v.value.items) }

  // ---- meaning ----

  /** A document decodes unless a mapping in it repeats a key. */
  function Decode(y: Yaml): Option<Meaning> {
    match y
    case Scalar(_, value) => Some(Atom(value))
    case Mapping(entries) =>
      (match DecodeEntries(entries) case None => None case Some(fields) => Some(Record(fields)))
    case Sequence(items) =>
      (match DecodeItems(items) case None => None case Some(values) => Some(Listing(values)))
  }

  function DecodeEntries(entries: seq<Entry>): Option<map<string, Meaning>> {
    if entries == [] then Some(map[])
    else match (Decode(entries[0].value), DecodeEntries(entries[1..]))
      case (Some(value), Some(rest)) => if entries[0].key in rest then None else Some(rest[entries[0].key := value])
      case _ => None
  }

  function DecodeItems(items: seq<Yaml>): Option<seq<Meaning>> {
    if items == [] then Some([])
    else match (Decode(items[0]), DecodeItems(items[1..]))
      case (Some(value), Some(rest)) => Some([value] + rest)
      case _ => None
  }

  /** sameNode: both absent, or both decode to the same meaning. */
  predicate Same(a: Option<Yaml>, b: Option<Yaml>) {
    if a.None? || b.None? then a.None? && b.None?
    else Decode(a.value).Some? && Decode(a.value) == Decode(b.value)
  }

  // ---- writing ----

  /** setMappingValue: replaces, removes or appends the key. */
  function SetValue(entries: seq<Entry>, key: string, value: Option<Yaml>): seq<Entry> {
    if entries == [] then (match value case None => [] case Some(v) => [Entry(key, v)])
    else if entries[0].key == key then
      (match value case None => entries[1..] case Some(v) => [Entry(key, v)] + entries[1..])
    else [entries[0]] + SetValue(entries[1..], key, value)
  }

  // ---- the merge ----

  datatype Merged<T> = Merged(value: T, conflicts: seq<string>)

  function Keys(entries: seq<Entry>): seq<string> {
    seq(|entries|, i requires 0 <= i < |entries| => entries[i].key)
  }

  /** The keys of theirs that mine does not have. */
  function NewKeys(theirs: seq<Entry>, mine: seq<Entry>): seq<string> {
    if theirs == [] then []
    else (if HasKey(mine, theirs[0].key) then [] else [theirs[0].key]) + NewKeys(theirs[1..], mine)
  }

  /** mergeMapping. */
  function MergeEntries(base: seq<Entry>, theirs: seq<Entry>, mine: seq<Entry>, prefix: string): Merged<seq<Entry>>
    decreases SizeOfEntries(theirs), 3, 0
  {
    MergeKeys(Keys(mine) + NewKeys(theirs, mine), base, theirs, mine, prefix)
  }

  function MergeKeys(keys: seq<string>, base: seq<Entry>, theirs: seq<Entry>, mine: seq<Entry>,
      prefix: string): Merged<seq<Entry>>
    decreases SizeOfEntries(theirs), 2, |keys|
  {
    if keys == [] then Merged(mine, [])
    else
      ValueFits(theirs, keys[0]);
      var here := MergeValue(ValueOf(base, keys[0]), ValueOf(theirs, keys[0]), ValueOf(mine, keys[0]), prefix + keys[0]);
      var rest := MergeKeys(keys[1..], base, theirs, SetValue(mine, keys[0], here.value), prefix);
      Merged(rest.value, here.conflicts + rest.conflicts)
  }

  function EntriesOf(v: Option<Yaml>): seq<Entry>
    requires v.Some? ==> v.value.Mapping?
  {
    if v.None? then [] else v.value.entries
  }

  function ItemsOf(v: Option<Yaml>): seq<Yaml>
    requires v.Some? ==> v.value.Sequence?
  {
    if v.None? then [] else v.value.items
  }

  /** What becomes of one key, from its three values alone. */
  function MergeValue(base: Option<Yaml>, theirs: Option<Yaml>, mine: Option<Yaml>, path: string): Merged<Option<Yaml>>
    decreases OptionSize(theirs), 1, 0
  {
    if Same(theirs, base) || Same(mine, theirs) then Merged(mine, [])
    else if Same(mine, base) then Merged(theirs, [])
    else if mine.Some? && theirs.Some? && mine.value.Mapping? && theirs.value.Mapping? && (base.None? || base.value.Mapping?) then
      var inner := MergeEntries(EntriesOf(base), theirs.value.entries, mine.value.entries, path + ".");
      Merged(Some(Mapping(inner.value)), inner.conflicts)
    else if NamedList(mine) && NamedList(theirs) && (base.None? || NamedList(base)) then
      var inner := MergeNamed(ItemsOf(base), theirs.value.items, mine.value.items, path + ".");
      Merged(Some(Sequence(inner.value)), inner.conflicts)
    else Merged(mine, [path])
  }

  /** What becomes of an item that mine does not have. */
  function NewItem(base: Option<Yaml>, theirs: Option<Yaml>, path: string): Merged<Option<Yaml>> {
    if theirs.None? || base.None? then Merged(theirs, [])
    else if Same(base, theirs) then Merged(None, [])
    else Merged(None, [path])
  }

  /** What becomes of the item with one name, from its three versions alone. */
  function MergeItem(base: Option<Yaml>, theirs: Option<Yaml>, mine: Option<Yaml>, path: string): Merged<Option<Yaml>>
    decreases OptionSize(theirs), 1, 0
  {
    if mine.None? then NewItem(base, theirs, path)
    else if theirs.None? then
      if base.None? then Merged(mine, [])
      else if Same(mine, base) then Merged(None, [])
      else Merged(mine, [path])
    else if mine.value.Mapping? && theirs.value.Mapping? && (base.None? || base.value.Mapping?) then
      var inner := MergeEntries(EntriesOf(base), theirs.value.entries, mine.value.entries, path + ".");
      Merged(Some(Mapping(inner.value)), inner.conflicts)
    else Merged(mine, [])
  }

  function Listed(v: Option<Yaml>): seq<Yaml> { if v.None? then [] else [v.value] }

  /** The first pass of mergeNamed: mine's items, in mine's order. */
  function MergeMine(items: seq<Yaml>, base: seq<Yaml>, theirs: seq<Yaml>, prefix: string): Merged<seq<Yaml>>
    decreases SizeOfItems(theirs), 2, |items|
  {
    if items == [] then Merged([], [])
    else
      var name := ItemName(items[0]);
      ItemFits(theirs, name);
      var here := MergeItem(ItemOf(base, name), ItemOf(theirs, name), Some(items[0]), prefix + name);
      var rest := MergeMine(items[1..], base, theirs, prefix);
      Merged(Listed(here.value) + rest.value, here.conflicts + rest.conflicts)
  }

  /** The index of the name in a list, or its length. */
  function IndexOf(items: seq<Yaml>, name: string): (i: nat)
    ensures i <= |items|
  {
    if items == [] || ItemName(items[0]) == name then 0 else 1 + IndexOf(items[1..], name)
  }

  /** Where theirs' i-th item goes: after the nearest item before it that is here. */
  function Place(kept: seq<Yaml>, theirs: seq<Yaml>, i: nat): (at: nat)
    requires i <= |theirs|
    ensures at <= |kept|
  {
    if i == 0 then 0
    else
      var k := IndexOf(kept, ItemName(theirs[i - 1]));
      if k < |kept| then k + 1 else Place(kept, theirs, i - 1)
  }

  function Insert(kept: seq<Yaml>, at: nat, item: Yaml): seq<Yaml>
    requires at <= |kept|
  {
    kept[..at] + [item] + kept[at..]
  }

  /** The second pass: theirs' items from the i-th on that neither mine nor
      base has, each in its place. */
  function AddTheirs(i: nat, kept: seq<Yaml>, base: seq<Yaml>, theirs: seq<Yaml>, mine: seq<Yaml>): seq<Yaml>
    requires i <= |theirs|
    decreases |theirs| - i
  {
    if i == |theirs| then kept else AddTheirs(i + 1, Looked(i, kept, base, theirs, mine), base, theirs, mine)
  }

  /** The list once theirs' i-th item has been looked at. */
  function Looked(i: nat, kept: seq<Yaml>, base: seq<Yaml>, theirs: seq<Yaml>, mine: seq<Yaml>): seq<Yaml>
    requires i < |theirs|
  {
    var name := ItemName(theirs[i]);
    if ItemOf(mine, name).Some? || ItemOf(base, name).Some? then kept else Insert(kept, Place(kept, theirs, i), theirs[i])
  }

  /** Its conflicts: items of theirs that changed since base and that mine dropped. */
  function DroppedConflicts(i: nat, base: seq<Yaml>, theirs: seq<Yaml>, mine: seq<Yaml>, prefix: string): seq<string>
    requires i <= |theirs|
    decreases |theirs| - i
  {
    if i == |theirs| then []
    else DroppedConflict(base, theirs[i], mine, prefix) + DroppedConflicts(i + 1, base, theirs, mine, prefix)
  }

  function DroppedConflict(base: seq<Yaml>, item: Yaml, mine: seq<Yaml>, prefix: string): seq<string> {
    var name := ItemName(item);
    if ItemOf(mine, name).Some? then [] else NewItem(ItemOf(base, name), Some(item), prefix + name).conflicts
  }

  /** mergeNamed. */
  function MergeNamed(base: seq<Yaml>, theirs: seq<Yaml>, mine: seq<Yaml>, prefix: string): Merged<seq<Yaml>>
    decreases SizeOfItems(theirs), 3, 0
  {
    var first := MergeMine(mine, base, theirs, prefix);
    Merged(AddTheirs(0, first.value, base, theirs, mine), first.conflicts + DroppedConflicts(0, base, theirs, mine, prefix))
  }

  // ---- key by key ----

  predicate UniqueKeys(entries: seq<Entry>) {
    forall i, j :: 0 <= i < j < |entries| ==> entries[i].key != entries[j].key
  }

  predicate Distinct(keys: seq<string>) { forall i, j :: 0 <= i < j < |keys| ==> keys[i] != keys[j] }

  lemma {:induction false} KeyIsListed(entries: seq<Entry>, k: string)
    ensures HasKey(entries, k) <==> exists i :: 0 <= i < |entries| && entries[i].key == k
    decreases |entries|
  {
    if entries != [] && entries[0].key != k {
      KeyIsListed(entries[1..], k);
      assert forall i :: 0 <= i < |entries[1..]| ==> entries[1..][i] == entries[i + 1];
      assert forall i :: 1 <= i < |entries| ==> entries[i] == entries[1..][i - 1];
    }
  }

  lemma UniqueSplit(head: Entry, rest: seq<Entry>)
    ensures UniqueKeys([head] + rest) <==> UniqueKeys(rest) && !HasKey(rest, head.key)
  {
    var all := [head] + rest;
    KeyIsListed(rest, head.key);
    assert all[0] == head;
    assert forall i :: 1 <= i < |all| ==> all[i] == rest[i - 1];
    if UniqueKeys(all) {
      forall i | 0 <= i < |rest| ensures rest[i].key != head.key { assert all[i + 1] == rest[i]; }
      forall i, j | 0 <= i < j < |rest| ensures rest[i].key != rest[j].key {
        assert all[i + 1] == rest[i] && all[j + 1] == rest[j];
      }
    }
  }

  /** Writing a key changes that key alone; a key removed is gone. */
  lemma {:induction false} SetThenGet(entries: seq<Entry>, key: string, value: Option<Yaml>, k: string)
    requires UniqueKeys(entries)
    ensures ValueOf(SetValue(entries, key, value), k) == if k == key then value else ValueOf(entries, k)
    decreases |entries|
  {
    if entries != [] {
      var head, rest := entries[0], entries[1..];
      assert entries == [head] + rest;
      UniqueSplit(head, rest);
      if head.key == key {
        assert value.Some? ==> ([Entry(key, value.value)] + rest)[1..] == rest;
      } else {
        SetThenGet(rest, key, value, k);
        assert ([head] + SetValue(rest, key, value))[1..] == SetValue(rest, key, value);
      }
    }
  }

  lemma {:induction false} SetStaysUnique(entries: seq<Entry>, key: string, value: Option<Yaml>)
    requires UniqueKeys(entries)
    ensures UniqueKeys(SetValue(entries, key, value))
    decreases |entries|
  {
    if entries != [] {
      var head, rest := entries[0], entries[1..];
      assert entries == [head] + rest;
      UniqueSplit(head, rest);
      if head.key == key {
        if value.Some? { UniqueSplit(Entry(key, value.value), rest); }
      } else {
        SetStaysUnique(rest, key, value);
        SetThenGet(rest, key, value, head.key);
        UniqueSplit(head, SetValue(rest, key, value));
      }
    }
  }

  /** The merged value of a key depends on the key's three values alone, whatever
      was merged before it. */
  lemma {:induction false} MergeKeysAt(keys: seq<string>, base: seq<Entry>, theirs: seq<Entry>, mine: seq<Entry>,
      prefix: string, k: string)
    requires UniqueKeys(mine) && Distinct(keys)
    ensures UniqueKeys(MergeKeys(keys, base, theirs, mine, prefix).value)
    ensures ValueOf(MergeKeys(keys, base, theirs, mine, prefix).value, k) ==
      if k in keys then MergeValue(ValueOf(base, k), ValueOf(theirs, k), ValueOf(mine, k), prefix + k).value
      else ValueOf(mine, k)
    decreases |keys|
  {
    if keys != [] {
      var key := keys[0];
      var here := MergeValue(ValueOf(base, key), ValueOf(theirs, key), ValueOf(mine, key), prefix + key);
      SetThenGet(mine, key, here.value, k);
      SetStaysUnique(mine, key, here.value);
      MergeKeysAt(keys[1..], base, theirs, SetValue(mine, key, here.value), prefix, k);
      assert k in keys <==> k == key || k in keys[1..];
    }
  }

  lemma {:induction false} MergeKeysConflicts(keys: seq<string>, base: seq<Entry>, theirs: seq<Entry>,
      mine: seq<Entry>, prefix: string, c: string)
    requires UniqueKeys(mine) && Distinct(keys)
    ensures c in MergeKeys(keys, base, theirs, mine, prefix).conflicts <==>
      exists k :: k in keys && c in MergeValue(ValueOf(base, k), ValueOf(theirs, k), ValueOf(mine, k), prefix + k).conflicts
    decreases |keys|
  {
    if keys != [] {
      var key := keys[0];
      var here := MergeValue(ValueOf(base, key), ValueOf(theirs, key), ValueOf(mine, key), prefix + key);
      var mine' := SetValue(mine, key, here.value);
      forall k | k in keys[1..] ensures ValueOf(mine', k) == ValueOf(mine, k) {
        SetThenGet(mine, key, here.value, k);
      }
      SetStaysUnique(mine, key, here.value);
      MergeKeysConflicts(keys[1..], base, theirs, mine', prefix, c);
      assert forall k :: k in keys <==> k == key || k in keys[1..];
    }
  }

  lemma {:induction false} KeysAre(entries: seq<Entry>, k: string)
    ensures k in Keys(entries) <==> HasKey(entries, k)
    ensures UniqueKeys(entries) ==> Distinct(Keys(entries))
  {
    KeyIsListed(entries, k);
    if HasKey(entries, k) {
      var i :| 0 <= i < |entries| && entries[i].key == k;
      assert Keys(entries)[i] == k;
    }
  }

  lemma {:induction false} NewKeysAre(theirs: seq<Entry>, mine: seq<Entry>, k: string)
    ensures k in NewKeys(theirs, mine) <==> HasKey(theirs, k) && !HasKey(mine, k)
    decreases |theirs|
  {
    if theirs != [] { NewKeysAre(theirs[1..], mine, k); }
  }

  lemma {:induction false} NewKeysDistinct(theirs: seq<Entry>, mine: seq<Entry>)
    requires UniqueKeys(theirs)
    ensures Distinct(NewKeys(theirs, mine))
    decreases |theirs|
  {
    if theirs != [] {
      assert theirs == [theirs[0]] + theirs[1..];
      UniqueSplit(theirs[0], theirs[1..]);
      NewKeysDistinct(theirs[1..], mine);
      NewKeysAre(theirs[1..], mine, theirs[0].key);
    }
  }

  /** The keys a merge visits: each once, and every key of mine or theirs. */
  lemma {:induction false} VisitedKeys(theirs: seq<Entry>, mine: seq<Entry>)
    requires UniqueKeys(theirs) && UniqueKeys(mine)
    ensures Distinct(Keys(mine) + NewKeys(theirs, mine))
    ensures forall k :: k in Keys(mine) + NewKeys(theirs, mine) <==> HasKey(mine, k) || HasKey(theirs, k)
  {
    NewKeysDistinct(theirs, mine);
    forall k ensures k in Keys(mine) <==> HasKey(mine, k) { KeysAre(mine, k); }
    forall k ensures k in NewKeys(theirs, mine) <==> HasKey(theirs, k) && !HasKey(mine, k) { NewKeysAre(theirs, mine, k); }
    KeysAre(mine, "");
    var a, b := Keys(mine), NewKeys(theirs, mine);
    forall i, j | 0 <= i < j < |a + b| ensures (a + b)[i] != (a + b)[j] {
      if i < |a| <= j {
        assert a[i] in a && b[j - |a|] in b;
      }
    }
  }

  /** Key by key: with no key repeated, the merged mapping holds at every key
      what that key's three values give, and nothing else. */
  lemma {:induction false} KeyByKey(base: seq<Entry>, theirs: seq<Entry>, mine: seq<Entry>, prefix: string, k: string)
    requires UniqueKeys(theirs) && UniqueKeys(mine)
    ensures UniqueKeys(MergeEntries(base, theirs, mine, prefix).value)
    ensures ValueOf(MergeEntries(base, theirs, mine, prefix).value, k) ==
      MergeValue(ValueOf(base, k), ValueOf(theirs, k), ValueOf(mine, k), prefix + k).value
  {
    VisitedKeys(theirs, mine);
    MergeKeysAt(Keys(mine) + NewKeys(theirs, mine), base, theirs, mine, prefix, k);
  }

  /** And its conflicts are those of its keys. */
  lemma ConflictsByKey(base: seq<Entry>, theirs: seq<Entry>, mine: seq<Entry>, prefix: string, c: string)
    requires UniqueKeys(theirs) && UniqueKeys(mine)
    ensures c in MergeEntries(base, theirs, mine, prefix).conflicts <==>
      exists k :: c in MergeValue(ValueOf(base, k), ValueOf(theirs, k), ValueOf(mine, k), prefix + k).conflicts
  {
    VisitedKeys(theirs, mine);
    MergeKeysConflicts(Keys(mine) + NewKeys(theirs, mine), base, theirs, mine, prefix, c);
  }

  // ---- the laws of one key ----

  /** A key the user never touched follows the source. */
  lemma UntouchedFollowsSource(base: seq<Entry>, theirs: seq<Entry>, mine: seq<Entry>, prefix: string, k: string)
    requires UniqueKeys(theirs) && UniqueKeys(mine)
    requires Same(ValueOf(mine, k), ValueOf(base, k))
    ensures var merged := ValueOf(MergeEntries(base, theirs, mine, prefix).value, k);
      merged == ValueOf(theirs, k) || Same(merged, ValueOf(theirs, k))
  {
    KeyByKey(base, theirs, mine, prefix, k);
  }

  /** A key the source never touched stays the user's. */
  lemma OnlyMineStays(base: seq<Entry>, theirs: seq<Entry>, mine: seq<Entry>, prefix: string, k: string)
    requires UniqueKeys(theirs) && UniqueKeys(mine)
    requires Same(ValueOf(theirs, k), ValueOf(base, k))
    ensures ValueOf(MergeEntries(base, theirs, mine, prefix).value, k) == ValueOf(mine, k)
  {
    KeyByKey(base, theirs, mine, prefix, k);
  }

  /** Equal edits agree. */
  lemma EqualEditsAgree(base: seq<Entry>, theirs: seq<Entry>, mine: seq<Entry>, prefix: string, k: string)
    requires UniqueKeys(theirs) && UniqueKeys(mine)
    requires Same(ValueOf(mine, k), ValueOf(theirs, k))
    ensures ValueOf(MergeEntries(base, theirs, mine, prefix).value, k) == ValueOf(mine, k)
  {
    KeyByKey(base, theirs, mine, prefix, k);
  }

  // ---- the merge as it edits the user's fork ----

  lemma {:induction false} SetUnchanged(entries: seq<Entry>, key: string)
    ensures SetValue(entries, key, ValueOf(entries, key)) == entries
    decreases |entries|
  {
    if entries != [] { SetUnchanged(entries[1..], key); }
  }

  lemma {:induction false} SetSkips(before: seq<Entry>, entries: seq<Entry>, key: string, value: Option<Yaml>)
    requires !HasKey(before, key)
    ensures SetValue(before + entries, key, value) == before + SetValue(entries, key, value)
    decreases |before|
  {
    if before == [] {
      assert before + entries == entries;
    } else {
      var head, rest := before[0], before[1..];
      SetSkips(rest, entries, key, value);
      assert before == [head] + rest;
      Assoc([head], rest, entries);
      Assoc([head], rest, SetValue(entries, key, value));
      assert ([head] + (rest + entries))[1..] == rest + entries;
    }
  }

  /** A mapping of the user's fork, edited in place. */
  class Fork {
    var entries: seq<Entry>

    constructor (entries: seq<Entry>)
      ensures this.entries == entries
    {
      this.entries := entries;
    }

    /** setMappingValue. */
    method Set(key: string, value: Option<Yaml>)
      modifies this
      ensures entries == SetValue(old(entries), key, value)
    {
      var i := 0;
      while i < |entries|
        invariant i <= |entries| && entries == old(entries)
        invariant forall j :: 0 <= j < i ==> entries[j].key != key
      {
        if entries[i].key == key {
          KeyIsListed(entries[..i], key);
          SetSkips(entries[..i], entries[i..], key, value);
          assert entries[..i] + entries[i..] == entries;
          if value.None? {
            entries := entries[..i] + entries[i + 1..];
          } else {
            entries := entries[..i] + [Entry(key, value.value)] + entries[i + 1..];
          }
          return;
        }
        i := i + 1;
      }
      KeyIsListed(entries, key);
      SetSkips(entries, [], key, value);
      assert entries[..i] == entries && entries + [] == entries;
      if value.Some? {
        entries := entries + [Entry(key, value.value)];
      }
    }

    /** The keys mergeMapping goes through, in order. */
    method KeysToVisit(theirs: seq<Entry>) returns (keys: seq<string>)
      ensures keys == Keys(entries) + NewKeys(theirs, entries)
    {
      keys := Keys(entries);
      var i := 0;
      while i < |theirs|
        invariant i <= |theirs|
        invariant keys + NewKeys(theirs[i..], entries) == Keys(entries) + NewKeys(theirs, entries)
      {
        var had := ValueOf(entries, theirs[i].key);
        assert theirs[i..][1..] == theirs[i + 1..];
        AppendKey(keys, theirs[i].key, NewKeys(theirs[i + 1..], entries));
        if had.None? { keys := keys + [theirs[i].key]; }
        i := i + 1;
      }
    }

    /** mergeMapping: brings theirs' changes since base into this mapping. */
    method Merge(base: seq<Entry>, theirs: seq<Entry>, prefix: string) returns (conflicts: seq<string>)
      modifies this
      ensures Merged(entries, conflicts) == MergeEntries(base, theirs, old(entries), prefix)
      decreases SizeOfEntries(theirs), 3, 0
    {
      conflicts := [];
      var keys := KeysToVisit(theirs);
      var i := 0;
      while i < |keys|
        invariant i <= |keys|
        invariant Prepended(conflicts, MergeKeys(keys[i..], base, theirs, entries, prefix)) ==
          MergeEntries(base, theirs, old(entries), prefix)
      {
        ghost var entries0, conflicts0 := entries, conflicts;
        var more := MergeKey(base, theirs, keys[i], prefix);
        conflicts := conflicts + more;
        NextKey(keys, i, base, theirs, entries0, prefix, conflicts0);
        i := i + 1;
      }
    }

    /** One key of the loop. */
    method MergeKey(base: seq<Entry>, theirs: seq<Entry>, key: string, prefix: string) returns (conflicts: seq<string>)
      modifies this
      ensures var merged := MergeValue(ValueOf(base, key), ValueOf(theirs, key), ValueOf(old(entries), key), prefix + key);
        entries == SetValue(old(entries), key, merged.value) && conflicts == merged.conflicts
      decreases SizeOfEntries(theirs), 2, 0
    {
      var b, t, m := ValueOf(base, key), ValueOf(theirs, key), ValueOf(entries, key);
      conflicts := [];
      SetUnchanged(entries, key);
      ValueFits(theirs, key);
      if Same(t, b) || Same(m, t) {
      } else if Same(m, b) {
        Set(key, t);
      } else if m.Some? && t.Some? && m.value.Mapping? && t.value.Mapping? && (b.None? || b.value.Mapping?) {
        var inner := new Fork(m.value.entries);
        conflicts := inner.Merge(EntriesOf(b), t.value.entries, prefix + key + ".");
        Set(key, Some(Mapping(inner.entries)));
      } else if NamedList(m) && NamedList(t) && (b.None? || NamedList(b)) {
        var kept;
        kept, conflicts := MergeLists(ItemsOf(b), t.value.items, m.value.items, prefix + key + ".");
        Set(key, Some(Sequence(kept)));
      } else {
        conflicts := [prefix + key];
      }
    }
  }

  function Prepended<T>(conflicts: seq<string>, m: Merged<T>): Merged<T> { Merged(m.value, conflicts + m.conflicts) }

  lemma AppendKey(keys: seq<string>, key: string, more: seq<string>)
    ensures keys + ([key] + more) == keys + [key] + more
    ensures keys + ([] + more) == keys + more
  {
    assert [] + more == more;
  }

  lemma NextKey(keys: seq<string>, i: nat, base: seq<Entry>, theirs: seq<Entry>, mine: seq<Entry>, prefix: string,
      conflicts: seq<string>)
    requires i < |keys|
    ensures var key := keys[i];
      var here := MergeValue(ValueOf(base, key), ValueOf(theirs, key), ValueOf(mine, key), prefix + key);
      Prepended(conflicts, MergeKeys(keys[i..], base, theirs, mine, prefix)) ==
      Prepended(conflicts + here.conflicts, MergeKeys(keys[i + 1..], base, theirs, SetValue(mine, key, here.value), prefix))
  {
    var key := keys[i];
    var here := MergeValue(ValueOf(base, key), ValueOf(theirs, key), ValueOf(mine, key), prefix + key);
    assert keys[i..][0] == key && keys[i..][1..] == keys[i + 1..];
    Assoc(conflicts, here.conflicts, MergeKeys(keys[i + 1..], base, theirs, SetValue(mine, key, here.value), prefix).conflicts);
  }

  /** The merge of one item both sides may have. */
  method MergeItems(base: Option<Yaml>, theirs: Option<Yaml>, mine: Yaml,
      path: string) returns (kept: seq<Yaml>, conflicts: seq<string>)
    requires base.Some? ==> base.value.Mapping?
    requires theirs.Some? ==> theirs.value.Mapping?
    requires mine.Mapping?
    ensures var merged := MergeItem(base, theirs, Some(mine), path); kept == Listed(merged.value) && conflicts == merged.conflicts
    decreases OptionSize(theirs), 4, 0
  {
    kept, conflicts := [mine], [];
    if theirs.None? && base.None? {
    } else if theirs.None? && Same(Some(mine), base) {
      kept := [];
    } else if theirs.None? {
      conflicts := [path];
    } else {
      var inner := new Fork(mine.entries);
      conflicts := inner.Merge(EntriesOf(base), theirs.value.entries, path + ".");
      kept := [Mapping(inner.entries)];
    }
  }

  /** The nearest kept predecessor's place. */
  method FindPlace(kept: seq<Yaml>, theirs: seq<Yaml>, i: nat) returns (at: nat)
    requires i <= |theirs|
    ensures at == Place(kept, theirs, i)
  {
    var j: nat := i;
    while j > 0
      invariant j <= i && Place(kept, theirs, j) == Place(kept, theirs, i)
    {
      j := j - 1;
      var k := IndexOf(kept, ItemName(theirs[j]));
      if k < |kept| { return k + 1; }
    }
    at := 0;
  }

  /** One item of theirs. */
  method AddItem(kept0: seq<Yaml>, base: seq<Yaml>, theirs: seq<Yaml>, mine: seq<Yaml>, i: nat,
      prefix: string) returns (kept: seq<Yaml>, conflicts: seq<string>)
    requires i < |theirs|
    ensures kept == Looked(i, kept0, base, theirs, mine)
    ensures conflicts == DroppedConflict(base, theirs[i], mine, prefix)
  {
    kept, conflicts := kept0, [];
    var name := ItemName(theirs[i]);
    if ItemOf(mine, name).Some? { return; }
    var b := ItemOf(base, name);
    if b.Some? {
      if !Same(b, Some(theirs[i])) { conflicts := [prefix + name]; }
    } else {
      var at := FindPlace(kept, theirs, i);
      kept := kept[..at] + [theirs[i]] + kept[at..];
    }
  }

  lemma NextConflicts(i: nat, base: seq<Yaml>, theirs: seq<Yaml>, mine: seq<Yaml>, prefix: string,
      conflicts: seq<string>)
    requires i < |theirs|
    ensures conflicts + DroppedConflicts(i, base, theirs, mine, prefix) ==
      conflicts + DroppedConflict(base, theirs[i], mine, prefix) + DroppedConflicts(i + 1, base, theirs, mine, prefix)
  {
    Assoc(conflicts, DroppedConflict(base, theirs[i], mine, prefix), DroppedConflicts(i + 1, base, theirs, mine, prefix));
  }

  /** The second loop of mergeNamed. */
  method AddNew(kept0: seq<Yaml>, base: seq<Yaml>, theirs: seq<Yaml>, mine: seq<Yaml>,
      prefix: string) returns (kept: seq<Yaml>, conflicts: seq<string>)
    ensures kept == AddTheirs(0, kept0, base, theirs, mine)
    ensures conflicts == DroppedConflicts(0, base, theirs, mine, prefix)
  {
    kept, conflicts := kept0, [];
    var i := 0;
    while i < |theirs|
      invariant i <= |theirs|
      invariant AddTheirs(i, kept, base, theirs, mine) == AddTheirs(0, kept0, base, theirs, mine)
      invariant conflicts + DroppedConflicts(i, base, theirs, mine, prefix) == DroppedConflicts(0, base, theirs, mine, prefix)
    {
      NextConflicts(i, base, theirs, mine, prefix, conflicts);
      var more;
      kept, more := AddItem(kept, base, theirs, mine, i, prefix);
      conflicts := conflicts + more;
      i := i + 1;
    }
  }

  /** What the first loop has merged, in front of what it has yet to merge. */
  function Resumed(kept: seq<Yaml>, conflicts: seq<string>, rest: Merged<seq<Yaml>>): Merged<seq<Yaml>> {
    Merged(kept + rest.value, conflicts + rest.conflicts)
  }

  lemma NextMine(kept: seq<Yaml>, conflicts: seq<string>, items: seq<Yaml>, base: seq<Yaml>, theirs: seq<Yaml>,
      prefix: string)
    requires items != []
    ensures var name := ItemName(items[0]);
      var here := MergeItem(ItemOf(base, name), ItemOf(theirs, name), Some(items[0]), prefix + name);
      Resumed(kept, conflicts, MergeMine(items, base, theirs, prefix)) ==
      Resumed(kept + Listed(here.value), conflicts + here.conflicts, MergeMine(items[1..], base, theirs, prefix))
  {
    var name := ItemName(items[0]);
    var here := MergeItem(ItemOf(base, name), ItemOf(theirs, name), Some(items[0]), prefix + name);
    var rest := MergeMine(items[1..], base, theirs, prefix);
    Assoc(conflicts, here.conflicts, rest.conflicts);
    Assoc(kept, Listed(here.value), rest.value);
  }

  lemma ResumedEnds(m: Merged<seq<Yaml>>)
    ensures Resumed([], [], m) == m && Resumed(m.value, m.conflicts, Merged([], [])) == m
  {
    assert [] + m.value == m.value && m.value + [] == m.value;
    assert [] + m.conflicts == m.conflicts && m.conflicts + [] == m.conflicts;
  }

  /** The first loop of mergeNamed. */
  method MergeOwn(base: seq<Yaml>, theirs: seq<Yaml>, mine: seq<Yaml>,
      prefix: string) returns (kept: seq<Yaml>, conflicts: seq<string>)
    requires NamedItems(base) && NamedItems(theirs) && NamedItems(mine)
    ensures Merged(kept, conflicts) == MergeMine(mine, base, theirs, prefix)
    decreases SizeOfItems(theirs), 5, 0
  {
    kept, conflicts := [], [];
    ResumedEnds(MergeMine(mine, base, theirs, prefix));
    assert mine[0..] == mine;
    var i := 0;
    while i < |mine|
      invariant i <= |mine|
      invariant Resumed(kept, conflicts, MergeMine(mine[i..], base, theirs, prefix)) == MergeMine(mine, base, theirs, prefix)
    {
      var name := ItemName(mine[i]);
      NamedVersion(base, name);
      NamedVersion(theirs, name);
      ItemFits(theirs, name);
      NextMine(kept, conflicts, mine[i..], base, theirs, prefix);
      assert mine[i..][1..] == mine[i + 1..];
      var here, more := MergeItems(ItemOf(base, name), ItemOf(theirs, name), mine[i], prefix + name);
      kept, conflicts := kept + here, conflicts + more;
      i := i + 1;
    }
    ResumedEnds(Merged(kept, conflicts));
  }

  /** mergeNamed. */
  method MergeLists(base: seq<Yaml>, theirs: seq<Yaml>, mine: seq<Yaml>,
      prefix: string) returns (kept: seq<Yaml>, conflicts: seq<string>)
    requires NamedItems(base) && NamedItems(theirs) && NamedItems(mine)
    ensures Merged(kept, conflicts) == MergeNamed(base, theirs, mine, prefix)
    decreases SizeOfItems(theirs), 6, 0
  {
    var own, ownConflicts := MergeOwn(base, theirs, mine, prefix);
    var added;
    kept, added := AddNew(own, base, theirs, mine, prefix);
    conflicts := ownConflicts + added;
  }

  lemma {:induction false} NamedVersion(items: seq<Yaml>, name: string)
    requires NamedItems(items)
    ensures ItemOf(items, name).Some? ==> ItemOf(items, name).value.Mapping?
    decreases |items|
  {
    if items != [] {
      assert forall i :: 0 <= i < |items[1..]| ==> items[1..][i] == items[i + 1];
      NamedVersion(items[1..], name);
    }
  }
}
