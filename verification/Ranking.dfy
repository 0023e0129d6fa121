/** The ranking is a sort by a total order; what comes first and what is found by name. */
module Ranking {
  import opened Basics
  import opened Text
  import opened Cond
  import opened Evidence
  import opened Deciding

  // ---- the order is total ----

  lemma {:induction false} NamesCompare(a: string, b: string)
    ensures !NameBefore(a, a)
    ensures NameBefore(a, b) ==> !NameBefore(b, a)
    ensures a != b ==> NameBefore(a, b) || NameBefore(b, a)
    decreases |a|
  {
    if a != "" { NamesCompare(a[1..], if b == "" then "" else b[1..]); }
    if a != "" && b != "" && a[0] == b[0] && a != b {
      assert a == [a[0]] + a[1..] && b == [b[0]] + b[1..];
    }
  }

  lemma {:induction false} NamesChain(a: string, b: string, c: string)
    requires !NameBefore(a, b) && !NameBefore(b, c)
    ensures !NameBefore(a, c)
    decreases |a|
  {
    if a != "" && b != "" && c != "" && a[0] == b[0] == c[0] { NamesChain(a[1..], b[1..], c[1..]); }
  }

  /** Rows of different names compare one way or the other, never both. */
  lemma RowsCompare(a: Row, b: Row, tolerance: int)
    ensures Before(a, b, tolerance) ==> !Before(b, a, tolerance)
    ensures a.name != b.name ==> Before(a, b, tolerance) || Before(b, a, tolerance)
  {
    NamesCompare(a.name, b.name);
    HealthsDiffer(a.health, b.health);
  }

  lemma HealthsDiffer(a: Health, b: Health)
    ensures HealthOrder(a) == HealthOrder(b) <==> a == b
  {}

  lemma RowsChain(a: Row, b: Row, c: Row, tolerance: int)
    requires !Before(a, b, tolerance) && !Before(b, c, tolerance)
    ensures !Before(a, c, tolerance)
  {
    if a.excluded.None? == b.excluded.None? == c.excluded.None? && a.tier == b.tier == c.tier
      && HealthOrder(a.health) == HealthOrder(b.health) == HealthOrder(c.health)
      && EffectiveScore(a, tolerance) == EffectiveScore(b, tolerance) == EffectiveScore(c, tolerance)
    {
      NamesChain(a.name, b.name, c.name);
    }
  }

  // ---- the sort ----

  predicate Ordered(rows: seq<Row>, tolerance: int) {
    forall i, j :: 0 <= i < j < |rows| ==> !Before(rows[j], rows[i], tolerance)
  }

  lemma {:induction false} PlaceKeeps(row: Row, rows: seq<Row>, tolerance: int)
    requires Ordered(rows, tolerance)
    ensures multiset(Place(row, rows, tolerance)) == multiset{row} + multiset(rows)
    ensures Ordered(Place(row, rows, tolerance), tolerance)
    decreases |rows|
  {
    if rows == [] {
    } else if !Before(rows[0], row, tolerance) {
      forall j | 0 <= j < |rows| ensures !Before(rows[j], row, tolerance) {
        if j > 0 { RowsChain(rows[j], rows[0], row, tolerance); }
      }
    } else {
      var rest := Place(row, rows[1..], tolerance);
      PlaceKeeps(row, rows[1..], tolerance);
      assert rows == [rows[0]] + rows[1..];
      RowsCompare(rows[0], row, tolerance);
      forall j | 0 <= j < |rest| ensures !Before(rest[j], rows[0], tolerance) {
        assert rest[j] in multiset(rest);
        if rest[j] != row {
          assert rest[j] in multiset(rows[1..]);
          var k :| 0 <= k < |rows[1..]| && rows[1..][k] == rest[j];
          assert rows[k + 1] == rest[j];
        }
      }
    }
  }

  /** The ranking holds the same rows, none behind one it comes before. */
  lemma {:induction false} SortIsOrder(rows: seq<Row>, tolerance: int)
    ensures multiset(SortRows(rows, tolerance)) == multiset(rows)
    ensures Ordered(SortRows(rows, tolerance), tolerance)
    decreases |rows|
  {
    if rows != [] {
      SortIsOrder(rows[1..], tolerance);
      PlaceKeeps(rows[0], SortRows(rows[1..], tolerance), tolerance);
      assert rows == [rows[0]] + rows[1..];
    }
  }

  lemma {:induction false} BestIsFirst(rows: seq<Row>)
    ensures Best(rows).Some? ==> Best(rows).value in rows && Best(rows).value.excluded.None?
    ensures Best(rows).None? ==> forall r :: r in rows ==> r.excluded.Some?
    ensures forall tolerance :: Best(rows).Some? && Ordered(rows, tolerance) ==>
      forall r :: r in rows && r.excluded.None? ==> r == Best(rows).value || !Before(r, Best(rows).value, tolerance)
    decreases |rows|
  {
    if rows != [] {
      if rows[0].excluded.None? {
        forall tolerance, r | Ordered(rows, tolerance) && r in rows && r.excluded.None?
          ensures r == rows[0] || !Before(r, rows[0], tolerance)
        {
          var k :| 0 <= k < |rows| && rows[k] == r;
        }
      } else {
        BestIsFirst(rows[1..]);
        assert rows == [rows[0]] + rows[1..];
        forall tolerance | Ordered(rows, tolerance) ensures Ordered(rows[1..], tolerance) {
          assert forall k :: 0 <= k < |rows[1..]| ==> rows[1..][k] == rows[k + 1];
        }
      }
    }
  }

  // ---- members and their rows ----

  predicate DistinctMembers(members: seq<Member>) {
    forall i, j :: 0 <= i < j < |members| ==> members[i].name != members[j].name
  }

  function MemberOf(members: seq<Member>, name: string): Option<Member> {
    if members == [] then None else if members[0].name == name then Some(members[0]) else MemberOf(members[1..], name)
  }

  function RowOption(lib: Library, m: Option<Member>, i: Input): Option<Row> {
    if m.None? then None else Some(RowOf(lib, m.value, i))
  }

  lemma RowKeepsName(lib: Library, m: Member, i: Input)
    ensures RowOf(lib, m, i).name == m.name && RowOf(lib, m, i).health == HealthOf(FactsOf(m), i)
    ensures RowOf(lib, m, i).excluded.None? ==> RowOf(lib, m, i).health != DeadHealth
  {}

  /** A row, from the tagged subject. */
  lemma RowFrom(lib: Library, m: Member, i: Input, tagged: Subject)
    requires tagged == Tagged(lib, i.policy.tags, SubjectOf(m, i))
    ensures var barred := Barred(lib, m, tagged, i);
      RowOf(lib, m, i) ==
      if barred.Some? then BareRow(m, i).(excluded := barred)
      else Tiered(BareRow(m, i), TierFrom(lib, i.policy.tiers, 0, tagged), i.policy.tiers)
  {}

  lemma {:induction false} RowsAre(lib: Library, members: seq<Member>, i: Input)
    ensures |RowsOf(lib, members, i)| == |members|
    ensures forall k :: 0 <= k < |members| ==> RowsOf(lib, members, i)[k] == RowOf(lib, members[k], i)
    decreases |members|
  {
    if members != [] { RowsAre(lib, members[1..], i); }
  }

  lemma {:induction false} MemberIsListed(members: seq<Member>, name: string)
    ensures MemberOf(members, name).Some? ==>
      MemberOf(members, name).value in members && MemberOf(members, name).value.name == name
    ensures MemberOf(members, name).None? ==> forall k :: 0 <= k < |members| ==> members[k].name != name
    ensures HasMember(members, name) <==> MemberOf(members, name).Some?
    decreases |members|
  {
    if members != [] && members[0].name != name {
      MemberIsListed(members[1..], name);
      assert forall k :: 1 <= k < |members| ==> members[k] == members[1..][k - 1];
      assert HasMember(members[1..], name) ==> HasMember(members, name) by {
        if k :| 0 <= k < |members[1..]| && members[1..][k].name == name { assert members[k + 1].name == name; }
      }
    }
  }

  lemma OneMember(members: seq<Member>, a: Member, b: Member)
    requires DistinctMembers(members) && a in members && b in members && a.name == b.name
    ensures a == b
  {
    var i, j :| 0 <= i < |members| && 0 <= j < |members| && members[i] == a && members[j] == b;
  }

  lemma {:induction false} ByNameFinds(rows: seq<Row>, name: string)
    ensures ByName(rows, name).Some? ==> ByName(rows, name).value in rows && ByName(rows, name).value.name == name
    ensures ByName(rows, name).None? ==> forall r :: r in rows ==> r.name != name
    decreases |rows|
  {
    if rows != [] && rows[|rows| - 1].name != name {
      ByNameFinds(rows[..|rows| - 1], name);
      assert rows == rows[..|rows| - 1] + [rows[|rows| - 1]];
    }
  }

  lemma RankedIsListed(lib: Library, i: Input, r: Row)
    ensures r in Rank(lib, i) <==> r in RowsOf(lib, i.members, i)
  {
    var rows := RowsOf(lib, i.members, i);
    SortIsOrder(rows, i.policy.tolerance);
    assert r in Rank(lib, i) <==> r in multiset(Rank(lib, i));
    assert r in rows <==> r in multiset(rows);
  }

  /** Every member has a ranked row. */
  lemma RowIsRanked(lib: Library, i: Input, m: Member)
    requires m in i.members
    ensures RowOf(lib, m, i) in Rank(lib, i)
  {
    RowsAre(lib, i.members, i);
    var k :| 0 <= k < |i.members| && i.members[k] == m;
    assert RowsOf(lib, i.members, i)[k] in RowsOf(lib, i.members, i);
    RankedIsListed(lib, i, RowOf(lib, m, i));
  }

  /** And every ranked row is a member's. */
  lemma RankedHasMember(lib: Library, i: Input, r: Row) returns (m: Member)
    requires r in Rank(lib, i)
    ensures m in i.members && r == RowOf(lib, m, i)
  {
    RankedIsListed(lib, i, r);
    RowsAre(lib, i.members, i);
    var k :| 0 <= k < |i.members| && RowsOf(lib, i.members, i)[k] == r;
    m := i.members[k];
  }

  /** With distinct names, looking a name up in the ranking gives its member's row. */
  lemma LookedUp(lib: Library, i: Input, name: string)
    requires DistinctMembers(i.members)
    ensures ByName(Rank(lib, i), name) == RowOption(lib, MemberOf(i.members, name), i)
  {
    var found := ByName(Rank(lib, i), name);
    ByNameFinds(Rank(lib, i), name);
    MemberIsListed(i.members, name);
    if found.Some? {
      var m := RankedHasMember(lib, i, found.value);
      RowKeepsName(lib, m, i);
      OneMember(i.members, m, MemberOf(i.members, name).value);
    } else if MemberOf(i.members, name).Some? {
      var m := MemberOf(i.members, name).value;
      RowIsRanked(lib, i, m);
      RowKeepsName(lib, m, i);
    }
  }

  /** The best row: eligible, and no eligible row comes before it. */
  ghost predicate Leads(lib: Library, i: Input, m: Member) {
    && m in i.members && RowOf(lib, m, i).excluded.None?
    && forall n :: n in i.members && RowOf(lib, n, i).excluded.None? ==>
      !Before(RowOf(lib, n, i), RowOf(lib, m, i), i.policy.tolerance)
  }

  lemma BestLeads(lib: Library, i: Input) returns (m: Member)
    requires Best(Rank(lib, i)).Some?
    ensures Leads(lib, i, m) && Best(Rank(lib, i)).value == RowOf(lib, m, i)
  {
    var best := Best(Rank(lib, i)).value;
    SortIsOrder(RowsOf(lib, i.members, i), i.policy.tolerance);
    BestIsFirst(Rank(lib, i));
    m := RankedHasMember(lib, i, best);
    forall n | n in i.members && RowOf(lib, n, i).excluded.None?
      ensures !Before(RowOf(lib, n, i), best, i.policy.tolerance)
    {
      RowIsRanked(lib, i, n);
      RowsCompare(best, best, i.policy.tolerance);
    }
  }

  lemma NoneLeads(lib: Library, i: Input)
    ensures Best(Rank(lib, i)).None? <==> forall m :: m in i.members ==> RowOf(lib, m, i).excluded.Some?
  {
    BestIsFirst(Rank(lib, i));
    if Best(Rank(lib, i)).None? {
      forall m | m in i.members ensures RowOf(lib, m, i).excluded.Some? { RowIsRanked(lib, i, m); }
    } else {
      var m := RankedHasMember(lib, i, Best(Rank(lib, i)).value);
    }
  }
}
