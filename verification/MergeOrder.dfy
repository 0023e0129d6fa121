/** Where a merge of named lists puts things: the user's order stays, news lands behind what it follows. */
module MergeOrder {
  import opened Basics
  import opened Merge
  import opened MergeLaws

  // ---- the user's order ----

  /** The names of the items that mine has too, in list order. */
  function OwnNames(items: seq<Yaml>, mine: seq<Yaml>): seq<string> {
    if items == [] then []
    else (if ItemOf(mine, ItemName(items[0])).Some? then [ItemName(items[0])] else []) + OwnNames(items[1..], mine)
  }

  /** The names of the user's items that the merge does not drop, in the user's order. */
  function Survivors(items: seq<Yaml>, base: seq<Yaml>, theirs: seq<Yaml>): seq<string> {
    if items == [] then []
    else
      var name := ItemName(items[0]);
      var dropped := ItemOf(theirs, name).None? && ItemOf(base, name).Some? && Same(Some(items[0]), ItemOf(base, name));
      (if dropped then [] else [name]) + Survivors(items[1..], base, theirs)
  }

  lemma {:induction false} InsertIsNotOwn(kept: seq<Yaml>, at: nat, item: Yaml, mine: seq<Yaml>)
    requires at <= |kept| && ItemOf(mine, ItemName(item)).None?
    ensures OwnNames(Insert(kept, at, item), mine) == OwnNames(kept, mine)
    decreases at
  {
    if at == 0 {
      assert Insert(kept, 0, item)[1..] == kept;
    } else {
      InsertFurther(kept, at, item);
      InsertIsNotOwn(kept[1..], at - 1, item, mine);
      assert Insert(kept, at, item)[1..] == Insert(kept[1..], at - 1, item);
    }
  }

  lemma {:induction false} TheirsAreNotOwn(i: nat, kept: seq<Yaml>, base: seq<Yaml>, theirs: seq<Yaml>, mine: seq<Yaml>)
    requires i <= |theirs|
    ensures OwnNames(AddTheirs(i, kept, base, theirs, mine), mine) == OwnNames(kept, mine)
    decreases |theirs| - i
  {
    if i < |theirs| {
      if ItemOf(mine, ItemName(theirs[i])).None? {
        InsertIsNotOwn(kept, Place(kept, theirs, i), theirs[i], mine);
      }
      TheirsAreNotOwn(i + 1, Looked(i, kept, base, theirs, mine), base, theirs, mine);
    }
  }

  lemma {:induction false} MineSurvives(items: seq<Yaml>, base: seq<Yaml>, theirs: seq<Yaml>, mine: seq<Yaml>,
      prefix: string)
    requires ItemList(items) && ItemList(theirs)
    requires forall i :: 0 <= i < |items| ==> ItemOf(mine, ItemName(items[i])).Some?
    ensures OwnNames(MergeMine(items, base, theirs, prefix).value, mine) == Survivors(items, base, theirs)
    decreases |items|
  {
    if items != [] {
      var name := ItemName(items[0]);
      var here := MergeItem(ItemOf(base, name), ItemOf(theirs, name), Some(items[0]), prefix + name).value;
      var rest := MergeMine(items[1..], base, theirs, prefix).value;
      assert forall i :: 0 <= i < |items[1..]| ==> items[1..][i] == items[i + 1];
      MineSurvives(items[1..], base, theirs, mine, prefix);
      ItemIsListed(theirs, name);
      MergedItemKeepsName(ItemOf(base, name), ItemOf(theirs, name), Some(items[0]), prefix + name, name);
      if here.None? {
        assert Listed(here) + rest == rest;
      } else {
        assert (Listed(here) + rest)[1..] == rest;
      }
    }
  }

  /** The user's items stay in the user's order, less those the source removed
      and the user never touched. */
  lemma UserOrderStays(base: seq<Yaml>, theirs: seq<Yaml>, mine: seq<Yaml>, prefix: string)
    requires ItemList(theirs) && ItemList(mine)
    ensures OwnNames(MergeNamed(base, theirs, mine, prefix).value, mine) == Survivors(mine, base, theirs)
  {
    forall i | 0 <= i < |mine| ensures ItemOf(mine, ItemName(mine[i])).Some? {
      ItemIsListed(mine, ItemName(mine[i]));
    }
    MineSurvives(mine, base, theirs, mine, prefix);
    TheirsAreNotOwn(0, MergeMine(mine, base, theirs, prefix).value, base, theirs, mine);
  }

  // ---- where a new item lands ----

  /** y comes right after an item named x. */
  predicate Follows(items: seq<Yaml>, x: string, y: Yaml) {
    |items| >= 2 && ((ItemName(items[0]) == x && items[1] == y) || Follows(items[1..], x, y))
  }

  lemma {:induction false} FollowsIsAdjacent(items: seq<Yaml>, x: string, y: Yaml)
    ensures Follows(items, x, y) <==> exists p :: 0 <= p < |items| - 1 && ItemName(items[p]) == x && items[p + 1] == y
    decreases |items|
  {
    if |items| >= 2 {
      FollowsIsAdjacent(items[1..], x, y);
      if p :| 0 <= p < |items| - 1 && ItemName(items[p]) == x && items[p + 1] == y {
        if p > 0 { assert ItemName(items[1..][p - 1]) == x && items[1..][p - 1 + 1] == y; }
      }
      if Follows(items[1..], x, y) {
        var p :| 0 <= p < |items[1..]| - 1 && ItemName(items[1..][p]) == x && items[1..][p + 1] == y;
        assert ItemName(items[p + 1]) == x && items[p + 1 + 1] == y;
      } else if ItemName(items[0]) == x && items[1] == y {
        assert items[0 + 1] == y;
      }
    }
  }

  /** theirs' j-th item is the nearest before the i-th that is in the list. */
  predicate Nearest(kept: seq<Yaml>, theirs: seq<Yaml>, i: nat, j: nat)
    requires j < i <= |theirs|
  {
    HasName(kept, ItemName(theirs[j])) && forall l :: j < l < i ==> !HasName(kept, ItemName(theirs[l]))
  }

  lemma {:induction false} InsertKeepsFollows(kept: seq<Yaml>, at: nat, item: Yaml, x: string, y: Yaml)
    requires 0 < at <= |kept| && ItemName(kept[at - 1]) != x && Follows(kept, x, y)
    ensures Follows(Insert(kept, at, item), x, y)
    decreases at
  {
    InsertFurther(kept, at, item);
    var rest := Insert(kept[1..], at - 1, item);
    assert ([kept[0]] + rest)[1..] == rest;
    if at == 1 {
      assert rest == [item] + kept[1..];
      assert rest[1..] == kept[1..];
    } else if Follows(kept[1..], x, y) {
      InsertKeepsFollows(kept[1..], at - 1, item, x, y);
    } else {
      assert rest[0] == kept[1];
    }
  }

  lemma {:induction false} InsertKeepsOthers(kept: seq<Yaml>, at: nat, item: Yaml, name: string)
    requires at <= |kept| && ItemName(item) != name
    ensures HasName(Insert(kept, at, item), name) <==> HasName(kept, name)
    decreases at
  {
    if at == 0 {
      assert Insert(kept, 0, item)[1..] == kept;
    } else {
      InsertFurther(kept, at, item);
      InsertKeepsOthers(kept[1..], at - 1, item, name);
      assert Insert(kept, at, item)[1..] == Insert(kept[1..], at - 1, item);
    }
  }

  lemma {:induction false} IndexFinds(items: seq<Yaml>, name: string)
    ensures var i := IndexOf(items, name);
      (i < |items| <==> HasName(items, name)) && (i < |items| ==> ItemName(items[i]) == name)
    decreases |items|
  {
    if items != [] && ItemName(items[0]) != name {
      IndexFinds(items[1..], name);
      assert forall i :: 1 <= i < |items| ==> items[i] == items[1..][i - 1];
      assert forall i :: 0 <= i < |items[1..]| ==> items[1..][i] == items[i + 1];
    }
  }

  lemma {:induction false} PlaceIsAfter(kept: seq<Yaml>, theirs: seq<Yaml>, i: nat, j: nat)
    requires j < i <= |theirs| && HasName(kept, ItemName(theirs[j]))
    ensures var at := Place(kept, theirs, i);
      at > 0 && exists l :: j <= l < i && ItemName(kept[at - 1]) == ItemName(theirs[l])
    decreases i
  {
    IndexFinds(kept, ItemName(theirs[i - 1]));
    if IndexOf(kept, ItemName(theirs[i - 1])) == |kept| { PlaceIsAfter(kept, theirs, i - 1, j); }
  }

  lemma {:induction false} PlaceIsNearest(kept: seq<Yaml>, theirs: seq<Yaml>, i: nat, j: nat)
    requires j < i <= |theirs| && Nearest(kept, theirs, i, j)
    ensures var at := Place(kept, theirs, i); at > 0 && ItemName(kept[at - 1]) == ItemName(theirs[j])
    decreases i
  {
    IndexFinds(kept, ItemName(theirs[i - 1]));
    if j < i - 1 { PlaceIsNearest(kept, theirs, i - 1, j); }
  }

  lemma LookedKeepsFollows(c: nat, kept: seq<Yaml>, base: seq<Yaml>, theirs: seq<Yaml>, mine: seq<Yaml>, i: nat, j: nat)
    requires j < i < c < |theirs| && DistinctNames(theirs) && Follows(kept, ItemName(theirs[j]), theirs[i])
    ensures Follows(Looked(c, kept, base, theirs, mine), ItemName(theirs[j]), theirs[i])
  {
    var x := ItemName(theirs[j]);
    var name := ItemName(theirs[c]);
    if ItemOf(mine, name).None? && ItemOf(base, name).None? {
      FollowsIsAdjacent(kept, x, theirs[i]);
      ItemIsListed(kept, ItemName(theirs[i]));
      PlaceIsAfter(kept, theirs, c, i);
      InsertKeepsFollows(kept, Place(kept, theirs, c), theirs[c], x, theirs[i]);
    }
  }

  lemma LookedKeepsEarlier(c: nat, kept: seq<Yaml>, base: seq<Yaml>, theirs: seq<Yaml>, mine: seq<Yaml>, l: nat)
    requires l < c < |theirs| && DistinctNames(theirs)
    ensures HasName(Looked(c, kept, base, theirs, mine), ItemName(theirs[l])) <==> HasName(kept, ItemName(theirs[l]))
  {
    InsertKeepsOthers(kept, Place(kept, theirs, c), theirs[c], ItemName(theirs[l]));
  }

  /** Once a new item stands right after another, later insertions leave them together. */
  lemma {:induction false} StaysAfter(c: nat, kept: seq<Yaml>, base: seq<Yaml>, theirs: seq<Yaml>, mine: seq<Yaml>,
      i: nat, j: nat)
    requires j < i < c <= |theirs| && DistinctNames(theirs) && Follows(kept, ItemName(theirs[j]), theirs[i])
    ensures Follows(AddTheirs(c, kept, base, theirs, mine), ItemName(theirs[j]), theirs[i])
    decreases |theirs| - c
  {
    if c < |theirs| {
      LookedKeepsFollows(c, kept, base, theirs, mine, i, j);
      StaysAfter(c + 1, Looked(c, kept, base, theirs, mine), base, theirs, mine, i, j);
    }
  }

  /** Looking at later items neither adds nor drops an earlier one. */
  lemma {:induction false} EarlierStays(c: nat, kept: seq<Yaml>, base: seq<Yaml>, theirs: seq<Yaml>, mine: seq<Yaml>,
      l: nat)
    requires l < c <= |theirs| && DistinctNames(theirs)
    ensures HasName(AddTheirs(c, kept, base, theirs, mine), ItemName(theirs[l])) <==> HasName(kept, ItemName(theirs[l]))
    decreases |theirs| - c
  {
    if c < |theirs| {
      LookedKeepsEarlier(c, kept, base, theirs, mine, l);
      EarlierStays(c + 1, Looked(c, kept, base, theirs, mine), base, theirs, mine, l);
    }
  }

  lemma NearestStays(kept: seq<Yaml>, base: seq<Yaml>, theirs: seq<Yaml>, mine: seq<Yaml>, i: nat, j: nat)
    requires j < i <= |theirs| && DistinctNames(theirs)
    requires Nearest(AddTheirs(i, kept, base, theirs, mine), theirs, i, j)
    ensures Nearest(kept, theirs, i, j)
  {
    var merged := AddTheirs(i, kept, base, theirs, mine);
    forall l | 0 <= l < i ensures HasName(merged, ItemName(theirs[l])) <==> HasName(kept, ItemName(theirs[l])) {
      EarlierStays(i, kept, base, theirs, mine, l);
    }
  }

  lemma InsertedFollows(kept: seq<Yaml>, at: nat, item: Yaml, x: string)
    requires 0 < at <= |kept| && ItemName(kept[at - 1]) == x
    ensures Follows(Insert(kept, at, item), x, item)
  {
    var all := Insert(kept, at, item);
    assert ItemName(all[at - 1]) == x && all[at - 1 + 1] == item;
    FollowsIsAdjacent(all, x, item);
  }

  lemma LandsNow(kept: seq<Yaml>, base: seq<Yaml>, theirs: seq<Yaml>, mine: seq<Yaml>, i: nat, j: nat)
    requires j < i < |theirs| && !HasName(mine, ItemName(theirs[i])) && !HasName(base, ItemName(theirs[i]))
    requires Nearest(kept, theirs, i, j)
    ensures Follows(Looked(i, kept, base, theirs, mine), ItemName(theirs[j]), theirs[i])
  {
    PlaceIsNearest(kept, theirs, i, j);
    InsertedFollows(kept, Place(kept, theirs, i), theirs[i], ItemName(theirs[j]));
  }

  lemma LandsAndStays(kept: seq<Yaml>, base: seq<Yaml>, theirs: seq<Yaml>, mine: seq<Yaml>, i: nat, j: nat)
    requires j < i < |theirs| && DistinctNames(theirs)
    requires !HasName(mine, ItemName(theirs[i])) && !HasName(base, ItemName(theirs[i]))
    requires Nearest(AddTheirs(i, kept, base, theirs, mine), theirs, i, j)
    ensures Follows(AddTheirs(i, kept, base, theirs, mine), ItemName(theirs[j]), theirs[i])
  {
    NearestStays(kept, base, theirs, mine, i, j);
    LandsNow(kept, base, theirs, mine, i, j);
    StaysFromThere(kept, base, theirs, mine, i, j);
  }

  lemma StaysFromThere(kept: seq<Yaml>, base: seq<Yaml>, theirs: seq<Yaml>, mine: seq<Yaml>, i: nat, j: nat)
    requires j < i < |theirs| && DistinctNames(theirs)
    requires Follows(Looked(i, kept, base, theirs, mine), ItemName(theirs[j]), theirs[i])
    ensures Follows(AddTheirs(i, kept, base, theirs, mine), ItemName(theirs[j]), theirs[i])
  {
    StaysAfter(i + 1, Looked(i, kept, base, theirs, mine), base, theirs, mine, i, j);
  }

  lemma {:induction false} LandsAfter(c: nat, kept: seq<Yaml>, base: seq<Yaml>, theirs: seq<Yaml>, mine: seq<Yaml>,
      i: nat, j: nat)
    requires c <= i < |theirs| && j < i && DistinctNames(theirs)
    requires !HasName(mine, ItemName(theirs[i])) && !HasName(base, ItemName(theirs[i]))
    requires Nearest(AddTheirs(c, kept, base, theirs, mine), theirs, i, j)
    ensures Follows(AddTheirs(c, kept, base, theirs, mine), ItemName(theirs[j]), theirs[i])
    decreases i - c
  {
    if c < i {
      LandsAfter(c + 1, Looked(c, kept, base, theirs, mine), base, theirs, mine, i, j);
    } else {
      LandsAndStays(kept, base, theirs, mine, i, j);
    }
  }

  /** A new item from the source lands right after the item it follows there,
      or the nearest before that one that is in the merged list. */
  lemma NewItemLandsAfter(base: seq<Yaml>, theirs: seq<Yaml>, mine: seq<Yaml>, prefix: string, i: nat, j: nat)
    requires DistinctNames(theirs) && j < i < |theirs|
    requires !HasName(mine, ItemName(theirs[i])) && !HasName(base, ItemName(theirs[i]))
    requires Nearest(MergeNamed(base, theirs, mine, prefix).value, theirs, i, j)
    ensures Follows(MergeNamed(base, theirs, mine, prefix).value, ItemName(theirs[j]), theirs[i])
  {
    var first := MergeMine(mine, base, theirs, prefix).value;
    LandsAfter(0, first, base, theirs, mine, i, j);
  }

  // ---- and with nothing before it, in front ----

  /** None of theirs' items before the i-th is in the list. */
  predicate NoneBefore(kept: seq<Yaml>, theirs: seq<Yaml>, i: nat)
    requires i <= |theirs|
  {
    forall l :: 0 <= l < i ==> !HasName(kept, ItemName(theirs[l]))
  }

  lemma {:induction false} PlaceIsFront(kept: seq<Yaml>, theirs: seq<Yaml>, i: nat)
    requires i <= |theirs| && NoneBefore(kept, theirs, i)
    ensures Place(kept, theirs, i) == 0
    decreases i
  {
    if i > 0 {
      IndexFinds(kept, ItemName(theirs[i - 1]));
      PlaceIsFront(kept, theirs, i - 1);
    }
  }

  lemma LookedKeepsFront(c: nat, kept: seq<Yaml>, base: seq<Yaml>, theirs: seq<Yaml>, mine: seq<Yaml>, i: nat)
    requires i < c < |theirs| && kept != [] && kept[0] == theirs[i]
    ensures var looked := Looked(c, kept, base, theirs, mine); looked != [] && looked[0] == theirs[i]
  {
    assert HasName(kept, ItemName(theirs[i]));
    PlaceIsAfter(kept, theirs, c, i);
  }

  lemma {:induction false} FrontStays(c: nat, kept: seq<Yaml>, base: seq<Yaml>, theirs: seq<Yaml>, mine: seq<Yaml>,
      i: nat)
    requires i < c <= |theirs| && DistinctNames(theirs) && kept != [] && kept[0] == theirs[i]
    ensures var merged := AddTheirs(c, kept, base, theirs, mine); merged != [] && merged[0] == theirs[i]
    decreases |theirs| - c
  {
    if c < |theirs| {
      LookedKeepsFront(c, kept, base, theirs, mine, i);
      FrontStays(c + 1, Looked(c, kept, base, theirs, mine), base, theirs, mine, i);
    }
  }

  lemma LandsNowInFront(kept: seq<Yaml>, base: seq<Yaml>, theirs: seq<Yaml>, mine: seq<Yaml>, i: nat)
    requires i < |theirs| && DistinctNames(theirs)
    requires !HasName(mine, ItemName(theirs[i])) && !HasName(base, ItemName(theirs[i]))
    requires NoneBefore(AddTheirs(i, kept, base, theirs, mine), theirs, i)
    ensures Looked(i, kept, base, theirs, mine) == [theirs[i]] + kept
  {
    forall l | 0 <= l < i ensures !HasName(kept, ItemName(theirs[l])) { EarlierStays(i, kept, base, theirs, mine, l); }
    PlaceIsFront(kept, theirs, i);
  }

  lemma FrontFromThere(kept: seq<Yaml>, base: seq<Yaml>, theirs: seq<Yaml>, mine: seq<Yaml>, i: nat)
    requires i < |theirs| && DistinctNames(theirs)
    requires !HasName(mine, ItemName(theirs[i])) && !HasName(base, ItemName(theirs[i]))
    requires NoneBefore(AddTheirs(i, kept, base, theirs, mine), theirs, i)
    ensures var merged := AddTheirs(i, kept, base, theirs, mine); merged != [] && merged[0] == theirs[i]
  {
    LandsNowInFront(kept, base, theirs, mine, i);
    FrontStays(i + 1, [theirs[i]] + kept, base, theirs, mine, i);
  }

  /** The list as it is when theirs' i-th item is looked at. */
  lemma {:induction false} StageOf(c: nat, kept: seq<Yaml>, base: seq<Yaml>, theirs: seq<Yaml>, mine: seq<Yaml>, i: nat)
    returns (at: seq<Yaml>)
    requires c <= i <= |theirs|
    ensures AddTheirs(c, kept, base, theirs, mine) == AddTheirs(i, at, base, theirs, mine)
    decreases i - c
  {
    if c == i { at := kept; } else { at := StageOf(c + 1, Looked(c, kept, base, theirs, mine), base, theirs, mine, i); }
  }

  /** A new item from the source with none before it there that is in the merged
      list comes first of all, in front of everything of the user's. */
  lemma NewItemLandsInFront(base: seq<Yaml>, theirs: seq<Yaml>, mine: seq<Yaml>, prefix: string, i: nat)
    requires DistinctNames(theirs) && i < |theirs|
    requires !HasName(mine, ItemName(theirs[i])) && !HasName(base, ItemName(theirs[i]))
    requires NoneBefore(MergeNamed(base, theirs, mine, prefix).value, theirs, i)
    ensures var merged := MergeNamed(base, theirs, mine, prefix).value; merged != [] && merged[0] == theirs[i]
  {
    var at := StageOf(0, MergeMine(mine, base, theirs, prefix).value, base, theirs, mine, i);
    FrontFromThere(at, base, theirs, mine, i);
  }
}
