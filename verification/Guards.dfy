/** What every decision respects, whatever the evidence: where it may go, and
    what it takes to leave an incumbent that is in the pool, in a tier, not
    cooling down and not dead. */
module Guards {
  import opened Basics
  import opened Text
  import opened Cond
  import opened Evidence
  import opened Deciding
  import opened Ranking

  /** A member in the pool, in a tier, not cooling down and not dead. */
  predicate Eligible(lib: Library, m: Member, i: Input) {
    RowOf(lib, m, i).excluded.None? && RowOf(lib, m, i).health != DeadHealth
  }

  /** Staying means staying; leaving goes to another member; and only a fixed
      member or the stranded target may be one that is not eligible. */
  ghost predicate Guarded(lib: Library, i: Input, d: Decision) {
    && (d.action != Switch ==> d.target == i.now)
    && (d.action == Switch ==> d.target != i.now && MemberOf(i.members, d.target).Some?)
    && (d.action == Switch && d.code != "switch.fixed" && d.code != "switch.stranded" ==>
      Eligible(lib, MemberOf(i.members, d.target).value, i))
  }

  lemma FoundMember(members: seq<Member>, m: Member)
    requires DistinctMembers(members) && m in members
    ensures MemberOf(members, m.name) == Some(m)
  {
    MemberIsListed(members, m.name);
    OneMember(members, m, MemberOf(members, m.name).value);
  }

  lemma StrandedTargetIsListed(stranded: string, members: seq<Member>)
    ensures StrandedTarget(stranded, members) != "" ==> MemberOf(members, StrandedTarget(stranded, members)).Some?
  {
    MemberIsListed(members, StrandedTarget(stranded, members));
  }

  lemma RankedIsGuarded(lib: Library, i: Input, m: Member, current: Option<Row>, needs: seq<string>)
    requires DistinctMembers(i.members) && m in i.members && RowOf(lib, m, i).excluded.None?
    requires current == ByName(Rank(lib, i), i.now)
    ensures Guarded(lib, i, DecideRanked(current, RowOf(lib, m, i), i, needs))
  {
    RowKeepsName(lib, m, i);
    FoundMember(i.members, m);
    LookedUp(lib, i, i.now);
    BestOrStay(current, RowOf(lib, m, i), i, needs);
  }

  /** Among ranked rows the decision stays or goes to the best, which is not where it is. */
  lemma BestOrStay(current: Option<Row>, best: Row, i: Input, needs: seq<string>)
    requires best.excluded.None? && best.health != DeadHealth
    requires best.name == i.now ==> current == Some(best)
    ensures var d := DecideRanked(current, best, i, needs);
      if d.action == Switch then d.target == best.name != i.now && d.code != "switch.fixed" && d.code != "switch.stranded"
      else d.target == i.now
  {}

  lemma StrandedIsGuarded(lib: Library, i: Input, needs: seq<string>)
    ensures Guarded(lib, i, DecideStranded(i, needs))
  {
    StrandedTargetIsListed(i.policy.stranded, i.members);
  }

  lemma FreeIsGuarded(lib: Library, i: Input, needs: seq<string>)
    requires DistinctMembers(i.members)
    ensures Guarded(lib, i, DecideFree(Rank(lib, i), i, needs))
  {
    if Best(Rank(lib, i)).Some? {
      var m := BestLeads(lib, i);
      RankedIsGuarded(lib, i, m, ByName(Rank(lib, i), i.now), needs);
    } else {
      StrandedIsGuarded(lib, i, needs);
    }
  }

  lemma PinIsNamed(lib: Library, i: Input, pin: string)
    requires DistinctMembers(i.members) && PinHolds(ByName(Rank(lib, i), pin))
    ensures ByName(Rank(lib, i), pin).value.name == pin
  {
    LookedUp(lib, i, pin);
    MemberIsListed(i.members, pin);
    RowKeepsName(lib, MemberOf(i.members, pin).value, i);
  }

  lemma PinIsGuarded(lib: Library, i: Input, pin: string, needs: seq<string>)
    requires DistinctMembers(i.members) && PinHolds(ByName(Rank(lib, i), pin)) && pin != i.now
    ensures Guarded(lib, i, SwitchedTo(ByName(Rank(lib, i), pin).value, "switch.pinned", needs))
  {
    LookedUp(lib, i, pin);
    PinIsNamed(lib, i, pin);
  }

  lemma OverIsGuarded(lib: Library, i: Input)
    requires DistinctMembers(i.members)
    ensures Guarded(lib, i, DecideOver(Rank(lib, i), i))
  {
    var rows := Rank(lib, i);
    var needs := PendingNeeds(rows, Best(rows), |i.policy.tiers|);
    if !i.paused {
      FreeIsGuarded(lib, i, needs);
      if i.mode.Pinned? {
        FreeIsGuarded(lib, i, needs + [i.mode.pin]);
        if PinHolds(ByName(rows, i.mode.pin)) {
          PinIsNamed(lib, i, i.mode.pin);
          if i.mode.pin != i.now { PinIsGuarded(lib, i, i.mode.pin, needs); }
        }
      }
    }
  }

  /** Whatever the evidence, Decide stays where it is or goes to another member;
      by any reason but a fixed member or the stranded target, to one that is in
      the pool and a tier, not cooling down and not dead. */
  lemma DecisionsAreGuarded(lib: Library, i: Input)
    requires DistinctMembers(i.members)
    ensures Guarded(lib, i, Decide(lib, i))
  {
    if i.policy.fixed != "" && !i.mode.Pinned? {
      MemberIsListed(i.members, i.policy.fixed);
    } else if !i.mode.Manual? {
      OverIsGuarded(lib, i);
    }
  }

  /** The codes by which a decision may leave a member that works and is eligible. */
  const REASONS_TO_LEAVE := {"switch.fixed", "switch.pinned", "switch.change-server", "switch.better-tier", "switch.faster"}

  /** The target of a decision and its row. */
  function TargetRow(lib: Library, i: Input, d: Decision): Option<Row> {
    match MemberOf(i.members, d.target)
    case None => None
    case Some(m) => Some(RowOf(lib, m, i))
  }

  /** What a decision that leaves an eligible incumbent rests on. */
  predicate LeavesForCause(current: Row, target: Option<Row>, i: Input, d: Decision) {
    && d.code in REASONS_TO_LEAVE
    && (d.code == "switch.fixed" ==> d.target == i.policy.fixed && !i.mode.Pinned?)
    && (d.code == "switch.pinned" ==> i.mode.Pinned? && d.target == i.mode.pin)
    && (d.code == "switch.change-server" ==> i.force)
    && (d.code == "switch.better-tier" ==> target.Some? && IsFreshBetterTier(current, target.value, i))
    && (d.code == "switch.faster" ==> target.Some? && IsProvenGain(current, target.value, i))
  }

  predicate IsFreshBetterTier(current: Row, target: Row, i: Input) {
    target.tier < current.tier && target.health == Alive && i.at - target.checkedAt <= BETTER_TIER_FRESH
  }

  /** In the same tier, better by what is needed over as many samples as the policy
      asks for, dwell served and the hour's switches not used up. */
  predicate IsProvenGain(current: Row, target: Row, i: Input) {
    var need := Need(current.score, i.policy);
    && i.policy.improve && target.tier == current.tier && Measured(current) && Measured(target)
    && current.score - target.score >= need
    && i.at - i.lastSwitch >= i.policy.dwell && i.switchesHour < i.policy.maxPerHour
    && Confirmed(i.members, target.name, current.score - need, i) >= i.policy.confirm
  }

  lemma RankedLeavesForCause(current: Row, best: Row, i: Input, needs: seq<string>)
    requires current.excluded.None? && current.health != DeadHealth && best.tier <= current.tier
    requires DecideRanked(Some(current), best, i, needs).action == Switch
    ensures var d := DecideRanked(Some(current), best, i, needs);
      LeavesForCause(current, Some(best), i, d) && d.target == best.name && d.code != "switch.fixed" && d.code != "switch.pinned"
  {}

  lemma FreeLeavesForCause(lib: Library, i: Input, m: Member, needs: seq<string>)
    requires DistinctMembers(i.members) && m in i.members && m.name == i.now && Eligible(lib, m, i)
    requires DecideFree(Rank(lib, i), i, needs).action == Switch
    ensures var d := DecideFree(Rank(lib, i), i, needs); LeavesForCause(RowOf(lib, m, i), TargetRow(lib, i, d), i, d)
  {
    FoundMember(i.members, m);
    LookedUp(lib, i, i.now);
    NoneLeads(lib, i);
    var n := BestLeads(lib, i);
    RowKeepsName(lib, n, i);
    FoundMember(i.members, n);
    RankedLeavesForCause(RowOf(lib, m, i), RowOf(lib, n, i), i, needs);
  }

  lemma OverLeavesForCause(lib: Library, i: Input, m: Member)
    requires DistinctMembers(i.members) && m in i.members && m.name == i.now && Eligible(lib, m, i)
    requires DecideOver(Rank(lib, i), i).action == Switch
    ensures var d := DecideOver(Rank(lib, i), i); LeavesForCause(RowOf(lib, m, i), TargetRow(lib, i, d), i, d)
  {
    var rows := Rank(lib, i);
    var needs := PendingNeeds(rows, Best(rows), |i.policy.tiers|);
    if !i.mode.Pinned? {
      FreeLeavesForCause(lib, i, m, needs);
    } else if PinHolds(ByName(rows, i.mode.pin)) {
      PinIsNamed(lib, i, i.mode.pin);
    } else {
      FreeLeavesForCause(lib, i, m, needs + [i.mode.pin]);
    }
  }

  /** An incumbent that is eligible is left only because the user fixed, pinned or
      asked for another, for a better tier on a fresh check, or for a proven gain
      within its tier. */
  lemma IncumbentIsLeftForCause(lib: Library, i: Input, m: Member)
    requires DistinctMembers(i.members) && m in i.members && m.name == i.now && Eligible(lib, m, i)
    requires Decide(lib, i).action == Switch
    ensures LeavesForCause(RowOf(lib, m, i), TargetRow(lib, i, Decide(lib, i)), i, Decide(lib, i))
  {
    if i.policy.fixed == "" || i.mode.Pinned? { OverLeavesForCause(lib, i, m); }
  }
}
