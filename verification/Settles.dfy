/** Deciding settles in one move: what Decide switches to, it then stays on,
    over every path it can take, as long as no condition reads which node is
    current. */
module Settles {
  import opened Basics
  import opened Text
  import opened Cond
  import opened Evidence
  import opened Deciding
  import opened Ranking

  predicate CondIgnoresCurrent(cond: Option<CondNode>) { cond.Some? ==> IgnoresCurrent(cond.value) }

  /** No condition of the policy reads which node is current. */
  predicate PolicyIgnoresCurrent(p: Policy) {
    && CondIgnoresCurrent(p.inScope) && CondIgnoresCurrent(p.exclude)
    && (forall k :: 0 <= k < |p.tags| ==> CondIgnoresCurrent(p.tags[k].cond))
    && (forall k :: 0 <= k < |p.tiers| ==> CondIgnoresCurrent(p.tiers[k].rule))
  }

  /** The same evidence a moment after the group has gone to target. */
  ghost predicate Moved(i: Input, j: Input, target: string) {
    j == i.(now := target, force := false, lastSwitch := j.lastSwitch, switchesHour := j.switchesHour)
  }

  // ---- a row changes in nothing but who is current ----

  lemma TestIgnoresCurrent(lib: Library, cond: Option<CondNode>, s: Subject, current: bool)
    requires CondIgnoresCurrent(cond)
    ensures Test(lib, cond, s.(current := current)) == Test(lib, cond, s)
  {
    if cond.Some? { CurrentIsIgnored(lib, cond.value, s, current); }
  }

  lemma {:induction false} TagsIgnoreCurrent(lib: Library, tags: seq<NamedCond>, s: Subject, current: bool)
    requires forall k :: 0 <= k < |tags| ==> CondIgnoresCurrent(tags[k].cond)
    ensures Tagged(lib, tags, s.(current := current)) == Tagged(lib, tags, s).(current := current)
    decreases |tags|
  {
    if tags != [] {
      TestIgnoresCurrent(lib, tags[0].cond, s, current);
      var held := Test(lib, tags[0].cond, s) == Yes;
      TagsIgnoreCurrent(lib, tags[1..], if held then s.(tags := s.tags + {tags[0].name}) else s, current);
    }
  }

  lemma {:induction false} TiersIgnoreCurrent(lib: Library, tiers: seq<Tier>, k: nat, s: Subject, current: bool)
    requires k <= |tiers| && forall k :: 0 <= k < |tiers| ==> CondIgnoresCurrent(tiers[k].rule)
    ensures TierFrom(lib, tiers, k, s.(current := current)) == TierFrom(lib, tiers, k, s)
    decreases |tiers| - k
  {
    if k < |tiers| {
      TestIgnoresCurrent(lib, tiers[k].rule, s, current);
      TiersIgnoreCurrent(lib, tiers, k + 1, s, current);
    }
  }

  lemma BarredMoves(lib: Library, m: Member, s: Subject, i: Input, j: Input, target: string, current: bool)
    requires PolicyIgnoresCurrent(i.policy) && Moved(i, j, target)
    ensures Barred(lib, m, s.(current := current), j) == Barred(lib, m, s, i)
  {
    TestIgnoresCurrent(lib, i.policy.inScope, s, current);
    TestIgnoresCurrent(lib, i.policy.exclude, s, current);
  }

  lemma BareRowMoves(m: Member, i: Input, j: Input, target: string)
    requires Moved(i, j, target)
    ensures BareRow(m, j) == BareRow(m, i).(current := m.name == target)
    ensures SubjectOf(m, j) == SubjectOf(m, i).(current := m.name == target)
  {}

  lemma RowMoves(lib: Library, m: Member, i: Input, j: Input, target: string)
    requires PolicyIgnoresCurrent(i.policy) && Moved(i, j, target)
    ensures RowOf(lib, m, j) == RowOf(lib, m, i).(current := m.name == target)
  {
    var current := m.name == target;
    var s := SubjectOf(m, i);
    BareRowMoves(m, i, j, target);
    TagsIgnoreCurrent(lib, i.policy.tags, s, current);
    var tagged := Tagged(lib, i.policy.tags, s);
    BarredMoves(lib, m, tagged, i, j, target, current);
    TiersIgnoreCurrent(lib, i.policy.tiers, 0, tagged, current);
    RowFrom(lib, m, i, tagged);
    RowFrom(lib, m, j, tagged.(current := current));
  }

  // ---- the credit only helps the target ----

  /** Moving the credit to a row that led without it keeps it in front. */
  lemma CreditHelps(best: Row, other: Row, tolerance: int)
    requires tolerance >= 0 && best.name != other.name && !best.current && !Before(other, best, tolerance)
    ensures Before(best.(current := true), other.(current := false), tolerance)
  {
    RowsCompare(best, other, tolerance);
  }

  /** What led before the move, and was not current, leads after it. */
  lemma StillLeads(lib: Library, i: Input, j: Input, m: Member)
    requires PolicyIgnoresCurrent(i.policy) && Moved(i, j, m.name) && i.policy.tolerance >= 0
    requires DistinctMembers(i.members) && Leads(lib, i, m) && i.now != m.name
    ensures Best(Rank(lib, j)) == Some(RowOf(lib, m, j))
  {
    RowMoves(lib, m, i, j, m.name);
    NoneLeads(lib, j);
    var n := BestLeads(lib, j);
    if n != m {
      if n.name == m.name { OneMember(i.members, n, m); }
      RowMoves(lib, n, i, j, m.name);
      RowKeepsName(lib, n, i);
      RowKeepsName(lib, m, i);
      NotCurrent(lib, m, i);
      CreditHelps(RowOf(lib, m, i), RowOf(lib, n, i), i.policy.tolerance);
      RowsCompare(RowOf(lib, m, j), RowOf(lib, n, j), i.policy.tolerance);
      assert false;
    }
  }

  lemma NotCurrent(lib: Library, m: Member, i: Input)
    ensures RowOf(lib, m, i).current <==> m.name == i.now
  {}

  lemma FoundByName(lib: Library, i: Input, m: Member)
    requires DistinctMembers(i.members) && m in i.members
    ensures ByName(Rank(lib, i), m.name) == Some(RowOf(lib, m, i))
  {
    LookedUp(lib, i, m.name);
    MemberIsListed(i.members, m.name);
    OneMember(i.members, m, MemberOf(i.members, m.name).value);
  }

  // ---- each way of deciding ----

  lemma FixedSettles(i: Input, j: Input)
    requires DecideFixed(i).action == Switch && Moved(i, j, DecideFixed(i).target)
    ensures DecideFixed(j).action == Hold
  {}

  /** Where a decision among the ranked rows switches, that is the leader, and not where it was. */
  lemma RankedSwitchesToBest(current: Option<Row>, best: Row, i: Input, needs: seq<string>)
    requires DecideRanked(current, best, i, needs).action == Switch
    requires best.name == i.now ==> current == Some(best)
    requires best.excluded.None? && best.health != DeadHealth
    ensures DecideRanked(current, best, i, needs).target == best.name != i.now
  {}

  lemma LeaderSettles(lib: Library, i: Input, j: Input, needs: seq<string>, needs': seq<string>, m: Member)
    requires PolicyIgnoresCurrent(i.policy) && i.policy.tolerance >= 0 && DistinctMembers(i.members) && Leads(lib, i, m)
    requires DecideRanked(ByName(Rank(lib, i), i.now), RowOf(lib, m, i), i, needs).action == Switch
    requires Moved(i, j, DecideRanked(ByName(Rank(lib, i), i.now), RowOf(lib, m, i), i, needs).target)
    ensures DecideFree(Rank(lib, j), j, needs').action == Hold
  {
    RowKeepsName(lib, m, i);
    FoundByName(lib, i, m);
    RankedSwitchesToBest(ByName(Rank(lib, i), i.now), RowOf(lib, m, i), i, needs);
    StillLeads(lib, i, j, m);
    FoundByName(lib, j, m);
    RowMoves(lib, m, i, j, m.name);
  }

  lemma NobodySettles(lib: Library, i: Input, j: Input, needs: seq<string>, needs': seq<string>)
    requires PolicyIgnoresCurrent(i.policy) && Best(Rank(lib, i)).None?
    requires Moved(i, j, DecideStranded(i, needs).target) && DecideStranded(i, needs).action == Switch
    ensures DecideFree(Rank(lib, j), j, needs').action != Switch
  {
    NoneLeads(lib, i);
    NoneLeads(lib, j);
    forall m | m in i.members ensures RowOf(lib, m, j).excluded.Some? { RowMoves(lib, m, i, j, j.now); }
  }

  lemma FreeSettles(lib: Library, i: Input, j: Input, needs: seq<string>, needs': seq<string>)
    requires PolicyIgnoresCurrent(i.policy) && i.policy.tolerance >= 0 && DistinctMembers(i.members)
    requires DecideFree(Rank(lib, i), i, needs).action == Switch
    requires Moved(i, j, DecideFree(Rank(lib, i), i, needs).target)
    ensures DecideFree(Rank(lib, j), j, needs').action != Switch
  {
    if Best(Rank(lib, i)).Some? {
      var m := BestLeads(lib, i);
      LeaderSettles(lib, i, j, needs, needs', m);
    } else {
      NobodySettles(lib, i, j, needs, needs');
    }
  }

  lemma PinSettles(lib: Library, i: Input, j: Input, pin: string)
    requires PolicyIgnoresCurrent(i.policy) && DistinctMembers(i.members) && Moved(i, j, j.now)
    ensures PinHolds(ByName(Rank(lib, i), pin)) <==> PinHolds(ByName(Rank(lib, j), pin))
    ensures PinHolds(ByName(Rank(lib, i), pin)) ==>
      ByName(Rank(lib, i), pin).value.name == pin && ByName(Rank(lib, j), pin).value.name == pin
  {
    LookedUp(lib, i, pin);
    LookedUp(lib, j, pin);
    MemberIsListed(i.members, pin);
    if MemberOf(i.members, pin).Some? {
      var m := MemberOf(i.members, pin).value;
      RowMoves(lib, m, i, j, j.now);
      RowKeepsName(lib, m, i);
      RowKeepsName(lib, m, j);
    }
  }

  /** Deciding settles in one move. On the same evidence, once the group has gone
      where Decide sent it, Decide does not send it on: whatever the last switch
      and the switches this hour then are, over the fixed, pinned, stranded,
      forced and ranked paths. */
  lemma SettlesInOneMove(lib: Library, i: Input, j: Input)
    requires DistinctMembers(i.members) && i.policy.tolerance >= 0 && PolicyIgnoresCurrent(i.policy)
    requires Decide(lib, i).action == Switch && Moved(i, j, Decide(lib, i).target)
    ensures Decide(lib, j).action != Switch
  {
    if i.policy.fixed != "" && !i.mode.Pinned? {
      FixedSettles(i, j);
    } else if i.mode.Pinned? {
      PinSettles(lib, i, j, i.mode.pin);
      var needs := PendingNeeds(Rank(lib, i), Best(Rank(lib, i)), |i.policy.tiers|);
      var needs' := PendingNeeds(Rank(lib, j), Best(Rank(lib, j)), |i.policy.tiers|);
      if !PinHolds(ByName(Rank(lib, i), i.mode.pin)) {
        FreeSettles(lib, i, j, needs + [i.mode.pin], needs' + [i.mode.pin]);
      }
    } else {
      var needs := PendingNeeds(Rank(lib, i), Best(Rank(lib, i)), |i.policy.tiers|);
      var needs' := PendingNeeds(Rank(lib, j), Best(Rank(lib, j)), |i.policy.tiers|);
      FreeSettles(lib, i, j, needs, needs');
    }
  }

  // ---- a condition that reads who is current need not settle ----

  const NOT_CURRENT := Tier("", Some(NotNode(BoolNode("current"))))

  const SPARE := Policy(None, None, [], [NOT_CURRENT], false, 0, true, 0, 0, 0, 0, 0, "", "", [])

  function Plain(name: string): Member { Member(name, "", "", "", true, "", "", name, None, None) }

  function Between(now: string): Input {
    Input(SPARE, [Plain("a"), Plain("b")], now, Auto, map[], 0, 0, 0, 0, false, None, false)
  }

  lemma OnlyTheOtherIsEligible(lib: Library, now: string, name: string)
    ensures var row := RowOf(lib, Plain(name), Between(now));
      && row.name == name && row.health == UnknownHealth && row.caption == ""
      && row.excluded == if name == now then Some("no-tier") else None
  {
    var s := Tagged(lib, [], SubjectOf(Plain(name), Between(now)));
    assert Test(lib, SPARE.tiers[0].rule, s) == if name == now then No else Yes;
    assert TierFrom(lib, SPARE.tiers, 1, s) == (-1, -1);
  }

  /** The one tier is "not current": each decision leaves for the other node. */
  lemma NotCurrentSwingsForever(lib: Library)
    ensures Decide(lib, Between("a")) == Decision(Switch, "b", "switch.out-of-pool", "", None, [])
    ensures Decide(lib, Between("b")) == Decision(Switch, "a", "switch.out-of-pool", "", None, [])
  {
    Swings(lib, "a", "b");
    Swings(lib, "b", "a");
  }

  lemma NeverPending(lib: Library, now: string, m: Member)
    requires m in Between(now).members
    ensures RowOf(lib, m, Between(now)).pendingTier < 0
  {
    var s := Tagged(lib, [], SubjectOf(m, Between(now)));
    assert Test(lib, SPARE.tiers[0].rule, s) != Unknown;
    assert TierFrom(lib, SPARE.tiers, 1, s) == (-1, -1);
  }

  lemma NoNeeds(lib: Library, now: string)
    ensures PendingNeeds(Rank(lib, Between(now)), Best(Rank(lib, Between(now))), 1) == []
  {
    var rows := Rank(lib, Between(now));
    forall r | r in rows ensures r.pendingTier < 0 {
      var m := RankedHasMember(lib, Between(now), r);
      NeverPending(lib, now, m);
    }
    NoneRise(rows, Bar(Best(rows), 1));
  }

  lemma {:induction false} NoneRise(rows: seq<Row>, bar: int)
    requires forall r :: r in rows ==> r.pendingTier < 0
    ensures Candidates(rows, bar) == []
    decreases |rows|
  {
    if rows != [] { NoneRise(rows[1..], bar); }
  }

  lemma OutOfPoolSwitches(lib: Library, i: Input, best: Row, current: Row)
    requires i.mode == Auto && i.policy.fixed == "" && !i.paused && !i.force
    requires Best(Rank(lib, i)) == Some(best) && ByName(Rank(lib, i), i.now) == Some(current)
    requires current.excluded == Some("no-tier") && current.health != DeadHealth
    ensures Decide(lib, i)
      == SwitchedTo(best, "switch.out-of-pool", PendingNeeds(Rank(lib, i), Best(Rank(lib, i)), |i.policy.tiers|))
  {}

  lemma OnlyEligibleLeads(lib: Library, i: Input, m: Member)
    requires m in i.members && RowOf(lib, m, i).excluded.None?
    requires forall n :: n in i.members && n != m ==> RowOf(lib, n, i).excluded.Some?
    ensures Best(Rank(lib, i)) == Some(RowOf(lib, m, i))
  {
    NoneLeads(lib, i);
    var n := BestLeads(lib, i);
  }

  lemma Swings(lib: Library, now: string, other: string)
    requires (now == "a" && other == "b") || (now == "b" && other == "a")
    ensures Decide(lib, Between(now)) == Decision(Switch, other, "switch.out-of-pool", "", None, [])
  {
    OnlyTheOtherIsEligible(lib, now, now);
    OnlyTheOtherIsEligible(lib, now, other);
    assert Plain(now) in Between(now).members && Plain(other) in Between(now).members;
    OnlyEligibleLeads(lib, Between(now), Plain(other));
    FoundByName(lib, Between(now), Plain(now));
    NoNeeds(lib, now);
    OutOfPoolSwitches(lib, Between(now), RowOf(lib, Plain(other), Between(now)), RowOf(lib, Plain(now), Between(now)));
  }
}
