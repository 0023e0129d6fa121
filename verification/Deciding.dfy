/** Ranking the members of a group and deciding where it goes. */
module Deciding {
  import opened Basics
  import opened Text
  import opened Cond
  import opened Evidence

  const BETTER_TIER_FRESH := 5 * MINUTE
  const STABILITY_PENALTY := 300
  const EPISODE_PENALTY := 50
  const UNMEASURED_SCORE := 0x10_0000
  const NEEDS_PER_DECISION := 2

  datatype Mode = Auto | Pinned(pin: string) | Manual

  datatype NamedCond = NamedCond(name: string, cond: Option<CondNode>)
  datatype Tier = Tier(caption: string, rule: Option<CondNode>)

  /** The part of a compiled policy that Decide reads. minGain is the flat
      gain, minGainPct the relative one. */
  datatype Policy = Policy(
    inScope: Option<CondNode>, exclude: Option<CondNode>, tags: seq<NamedCond>, tiers: seq<Tier>,
    stability: bool, tolerance: int, improve: bool, dwell: int, minGain: int, minGainPct: int,
    confirm: int, maxPerHour: int, stranded: string, fixed: string, checkIds: seq<string>)

  datatype Member = Member(
    name: string, provider: string, typ: string, server: string, udp: bool,
    entry: string, nameCountry: string, key: string, facts: Option<Facts>, exit: Option<ExitFact>)

  datatype Input = Input(
    policy: Policy, members: seq<Member>, now: string, mode: Mode, excluded: map<string, Time>,
    lastSwitch: Time, switchesHour: int, freshness: int, at: Time, force: bool,
    net: Option<NetSubject>, paused: bool)

  datatype Health = Alive | Stale | UnknownHealth | DeadHealth

  datatype Row = Row(
    name: string, tier: int, caption: string, health: Health, latency: int, spread: int, score: int,
    episodes: int, checkedAt: Time, current: bool, excluded: Option<string>, pendingTier: int, pending: string)

  datatype Action = Hold | Switch | Stranded | ManualAction

  datatype Decision = Decision(
    action: Action, target: string, code: string, tier: string, until: Option<string>, needs: seq<string>)

  // ---- one row ----

  function FactsOf(m: Member): Facts { if m.facts.None? then NO_FACTS else m.facts.value }

  function Checks(ids: seq<string>, f: Facts, at: Time): map<string, Tri> {
    map id | id in ids :: Verdict(CheckOf(f, id), at)
  }

  function SubjectOf(m: Member, i: Input): Subject {
    var latency := Latency(FactsOf(m), i.at);
    var exit := CountryOf(m.exit, i.at);
    Subject(m.name, m.provider, m.typ, m.server, m.udp, AliveSince(FactsOf(m), i.at - i.freshness), Dead(FactsOf(m)),
            latency.Some?, m.name == i.now, if latency.Some? then latency.value.0 else 0, {}, exit, m.entry,
            if exit != "" then exit else m.nameCountry, Checks(i.policy.checkIds, FactsOf(m), i.at), i.net)
  }

  /** Tags are settled in order, each seeing those before it. */
  function Tagged(lib: Library, tags: seq<NamedCond>, s: Subject): Subject {
    if tags == [] then s
    else
      var held := Test(lib, tags[0].cond, s) == Yes;
      Tagged(lib, tags[1..], if held then s.(tags := s.tags + {tags[0].name}) else s)
  }

  function HealthOf(f: Facts, i: Input): Health {
    if Dead(f) then DeadHealth
    else if AliveSince(f, i.at - i.freshness) then Alive
    else if f.okAt != 0 then Stale
    else UnknownHealth
  }

  function Score(latency: int, spread: int, episodes: int, p: Policy): int {
    if latency == 0 then UNMEASURED_SCORE
    else if p.stability then latency + spread + episodes * STABILITY_PENALTY
    else latency + spread / 2 + episodes * EPISODE_PENALTY
  }

  predicate Unroutable(typ: string) {
    typ == "Reject" || typ == "RejectDrop" || typ == "Pass" || typ == "Compatible" || typ == "Direct" || typ == "Dns"
  }

  /** Why the member is out before its tier is looked at. */
  function Barred(lib: Library, m: Member, s: Subject, i: Input): Option<string> {
    if Test(lib, i.policy.inScope, s) == No then Some("pool.no-match")
    else if i.policy.exclude.Some? && Test(lib, i.policy.exclude, s) == Yes then Some("pool.excluded")
    else if Unroutable(m.typ) then Some("pool.unroutable")
    else if m.key in i.excluded && i.excluded[m.key] > i.at then Some("cooldown")
    else if Dead(FactsOf(m)) then Some("dead")
    else None
  }

  /** The first tier from the k-th on that holds, and the first before it that may. */
  function TierFrom(lib: Library, tiers: seq<Tier>, k: nat, s: Subject): (r: (int, int))
    requires k <= |tiers|
    ensures -1 <= r.0 < |tiers| && -1 <= r.1 < |tiers|
    decreases |tiers| - k
  {
    if k == |tiers| then (-1, -1)
    else
      var v := Test(lib, tiers[k].rule, s);
      if v == Yes then (k, -1)
      else
        var rest := TierFrom(lib, tiers, k + 1, s);
        (rest.0, if v == Unknown then k else rest.1)
  }

  function BareRow(m: Member, i: Input): Row {
    var latency := Latency(FactsOf(m), i.at);
    var p50, spread := if latency.Some? then latency.value.0 else 0, if latency.Some? then latency.value.1 else 0;
    var episodes := RecentEpisodes(FactsOf(m), i.at);
    Row(m.name, |i.policy.tiers|, "", HealthOf(FactsOf(m), i), p50, spread, Score(p50, spread, episodes, i.policy),
        episodes, LastSampleAt(FactsOf(m)), m.name == i.now, None, -1, "")
  }

  function LabelOf(tiers: seq<Tier>, k: int): string { if 0 <= k < |tiers| then tiers[k].caption else "" }

  /** The row with its tier: none that holds leaves it out, as pending when one may. */
  function Tiered(row: Row, found: (int, int), tiers: seq<Tier>): Row {
    var (tier, pending) := found;
    row.(tier := if tier < 0 then |tiers| else tier,
         caption := LabelOf(tiers, tier),
         excluded := if tier >= 0 then None else if pending >= 0 then Some("pending") else Some("no-tier"),
         pendingTier := pending,
         pending := LabelOf(tiers, pending))
  }

  function RowOf(lib: Library, m: Member, i: Input): Row {
    var s := Tagged(lib, i.policy.tags, SubjectOf(m, i));
    var barred := Barred(lib, m, s, i);
    if barred.Some? then BareRow(m, i).(excluded := barred)
    else Tiered(BareRow(m, i), TierFrom(lib, i.policy.tiers, 0, s), i.policy.tiers)
  }

  // ---- the order ----

  function HealthOrder(h: Health): int {
    match h case Alive => 0 case Stale => 1 case UnknownHealth => 2 case DeadHealth => 3
  }

  predicate Measured(row: Row) { row.score < UNMEASURED_SCORE }

  /** The incumbent is credited the tolerance. */
  function EffectiveScore(row: Row, tolerance: int): int {
    if row.current && Measured(row) then row.score - tolerance else row.score
  }

  /** Names in byte order. */
  predicate NameBefore(a: string, b: string) {
    if b == "" then false
    else if a == "" then true
    else if a[0] != b[0] then a[0] < b[0]
    else NameBefore(a[1..], b[1..])
  }

  /** Eligible rows first, then by tier, health, score and name. */
  predicate Before(a: Row, b: Row, tolerance: int) {
    if a.excluded.None? != b.excluded.None? then a.excluded.None?
    else if a.tier != b.tier then a.tier < b.tier
    else if HealthOrder(a.health) != HealthOrder(b.health) then HealthOrder(a.health) < HealthOrder(b.health)
    else if EffectiveScore(a, tolerance) != EffectiveScore(b, tolerance) then
      EffectiveScore(a, tolerance) < EffectiveScore(b, tolerance)
    else NameBefore(a.name, b.name)
  }

  function Place(row: Row, rows: seq<Row>, tolerance: int): seq<Row> {
    if rows == [] || !Before(rows[0], row, tolerance) then [row] + rows
    else [rows[0]] + Place(row, rows[1..], tolerance)
  }

  /** slices.SortStableFunc over the comparison. */
  function SortRows(rows: seq<Row>, tolerance: int): seq<Row> {
    if rows == [] then [] else Place(rows[0], SortRows(rows[1..], tolerance), tolerance)
  }

  function RowsOf(lib: Library, members: seq<Member>, i: Input): seq<Row> {
    if members == [] then [] else [RowOf(lib, members[0], i)] + RowsOf(lib, members[1..], i)
  }

  function Rank(lib: Library, i: Input): seq<Row> { SortRows(RowsOf(lib, i.members, i), i.policy.tolerance) }

  /** byName: of two rows with one name, the later. */
  function ByName(rows: seq<Row>, name: string): Option<Row> {
    if rows == [] then None
    else if rows[|rows| - 1].name == name then Some(rows[|rows| - 1])
    else ByName(rows[..|rows| - 1], name)
  }

  function Best(rows: seq<Row>): Option<Row> {
    if rows == [] then None else if rows[0].excluded.None? then Some(rows[0]) else Best(rows[1..])
  }

  // ---- what to check next ----

  /** A row whose unknown checks could lift it above the bar. */
  predicate CouldRise(row: Row, bar: int) {
    && 0 <= row.pendingTier < bar && row.health != DeadHealth
    && (row.excluded.None? || row.excluded == Some("pending"))
  }

  function Candidates(rows: seq<Row>, bar: int): seq<Row> {
    if rows == [] then [] else (if CouldRise(rows[0], bar) then [rows[0]] else []) + Candidates(rows[1..], bar)
  }

  function PlacePending(row: Row, rows: seq<Row>): seq<Row> {
    if rows == [] || rows[0].pendingTier >= row.pendingTier then [row] + rows
    else [rows[0]] + PlacePending(row, rows[1..])
  }

  /** Stably by pending tier. */
  function SortPending(rows: seq<Row>): seq<Row> {
    if rows == [] then [] else PlacePending(rows[0], SortPending(rows[1..]))
  }

  function Names(rows: seq<Row>): seq<string> {
    if rows == [] then [] else [rows[0].name] + Names(rows[1..])
  }

  function Bar(best: Option<Row>, tiers: nat): int { if best.None? then tiers else best.value.tier }

  function PendingNeeds(rows: seq<Row>, best: Option<Row>, tiers: nat): seq<string> {
    var picks := SortPending(Candidates(rows, Bar(best, tiers)));
    Names(if |picks| > NEEDS_PER_DECISION then picks[..NEEDS_PER_DECISION] else picks)
  }

  // ---- the decision ----

  /** How many of the latest samples, one after another, beat the bar. */
  function BeatRun(samples: seq<Sample>, bar: int, most: int, i: Input): nat
    decreases |samples|
  {
    if samples == [] || most <= 0 then 0
    else
      var s := samples[|samples| - 1];
      if s.ms <= 0 || s.ms > bar || i.at - s.at > i.freshness then 0
      else 1 + BeatRun(samples[..|samples| - 1], bar, most - 1, i)
  }

  function Confirmed(members: seq<Member>, name: string, bar: int, i: Input): nat {
    if members == [] then 0
    else if members[0].name == name && members[0].facts.Some? then
      BeatRun(members[0].facts.value.samples, bar, i.policy.confirm, i)
    else Confirmed(members[1..], name, bar, i)
  }

  predicate HasMember(members: seq<Member>, name: string) { exists k :: 0 <= k < |members| && members[k].name == name }

  function StrandedTarget(stranded: string, members: seq<Member>): string {
    if stranded == "direct" then (if HasMember(members, "DIRECT") then "DIRECT" else "")
    else if |stranded| > 6 && stranded[..6] == "group:" && HasMember(members, stranded[6..]) then stranded[6..]
    else ""
  }

  function Held(target: string, code: string, tier: string, needs: seq<string>): Decision {
    Decision(Hold, target, code, tier, None, needs)
  }

  function Waiting(target: string, code: string, tier: string, until: string, needs: seq<string>): Decision {
    Decision(Hold, target, code, tier, Some(until), needs)
  }

  function SwitchedTo(row: Row, code: string, needs: seq<string>): Decision {
    Decision(Switch, row.name, code, row.caption, None, needs)
  }

  function DecideFixed(i: Input): Decision {
    if i.now == i.policy.fixed then Held(i.policy.fixed, "hold.fixed", "", [])
    else if HasMember(i.members, i.policy.fixed) then Decision(Switch, i.policy.fixed, "switch.fixed", "", None, [])
    else Decision(Stranded, i.now, "fixed.missing", "", None, [])
  }

  function DecideStranded(i: Input, needs: seq<string>): Decision {
    var target := StrandedTarget(i.policy.stranded, i.members);
    if target != "" && target != i.now then Decision(Switch, target, "switch.stranded", "", None, needs)
    else Decision(Stranded, i.now, "stranded.no-candidates", "", None, needs)
  }

  function Need(score: int, p: Policy): int { Max(p.minGain, Max(Trunc(score * p.minGainPct, 100), p.tolerance)) }

  /** Go's integer division truncates toward zero. */
  function Trunc(a: int, b: nat): int
    requires b > 0
  {
    if a >= 0 then a / b else -(-a / b)
  }

  /** Both measured and in one tier: only a gain worth it moves the group. */
  function DecideFaster(current: Row, best: Row, i: Input, needs: seq<string>): Decision {
    var p := i.policy;
    if !p.improve then Held(i.now, "hold.working", current.caption, needs)
    else if !Measured(current) || !Measured(best) then Held(i.now, "hold.best", current.caption, needs)
    else
      var gain, need := current.score - best.score, Need(current.score, p);
      if gain < need then Held(i.now, "hold.best", current.caption, needs)
      else if p.dwell - (i.at - i.lastSwitch) > 0 then Waiting(i.now, "hold.dwell", current.caption, "until.dwell", needs)
      else if i.switchesHour >= p.maxPerHour then Held(i.now, "hold.flap-limit", current.caption, needs)
      else if Confirmed(i.members, best.name, current.score - need, i) < p.confirm then
        Waiting(i.now, "hold.confirming", current.caption, "until.confirm", needs + [best.name])
      else SwitchedTo(best, "switch.faster", needs)
  }

  function DecideBetterTier(current: Row, best: Row, i: Input, needs: seq<string>): Decision {
    if i.at - best.checkedAt <= BETTER_TIER_FRESH && best.health == Alive then SwitchedTo(best, "switch.better-tier", needs)
    else Waiting(i.now, "hold.checking", current.caption, "until.check-better-tier", needs + [best.name])
  }

  function DecideRanked(current: Option<Row>, best: Row, i: Input, needs: seq<string>): Decision {
    if current.None? then SwitchedTo(best, "switch.initial", needs)
    else if i.force && best.name != i.now then SwitchedTo(best, "switch.change-server", needs)
    else if current.value.health == DeadHealth then SwitchedTo(best, "switch.failover", needs)
    else if current.value.excluded.Some? && current.value.excluded.value != "cooldown" then
      SwitchedTo(best, "switch.out-of-pool", needs)
    else if current.value.excluded.Some? then Held(i.now, "hold.no-alternative", current.value.caption, needs)
    else if best.name == i.now then Held(i.now, "hold.best", current.value.caption, needs)
    else if best.tier < current.value.tier then DecideBetterTier(current.value, best, i, needs)
    else DecideFaster(current.value, best, i, needs)
  }

  /** What is left once a pin, if any, has failed. */
  function DecideFree(rows: seq<Row>, i: Input, needs: seq<string>): Decision {
    var current, best := ByName(rows, i.now), Best(rows);
    if best.Some? then DecideRanked(current, best.value, i, needs)
    else if current.Some? && current.value.excluded == Some("cooldown") then Held(i.now, "hold.no-alternative", "", needs)
    else DecideStranded(i, needs)
  }

  predicate PinHolds(pin: Option<Row>) { pin.Some? && pin.value.health != DeadHealth && pin.value.excluded.None? }

  function DecideOver(rows: seq<Row>, i: Input): Decision {
    var current := ByName(rows, i.now);
    if i.paused then Held(i.now, "hold.paused", if current.Some? then current.value.caption else "", [])
    else
      var needs := PendingNeeds(rows, Best(rows), |i.policy.tiers|);
      if !i.mode.Pinned? then DecideFree(rows, i, needs)
      else
        var pin := ByName(rows, i.mode.pin);
        if PinHolds(pin) then
          if i.now == pin.value.name then Held(pin.value.name, "hold.pinned", pin.value.caption, needs)
          else SwitchedTo(pin.value, "switch.pinned", needs)
        else DecideFree(rows, i, needs + [i.mode.pin])
  }

  function Decide(lib: Library, i: Input): Decision {
    if i.mode.Manual? then Decision(ManualAction, i.now, "manual", "", None, [])
    else if i.policy.fixed != "" && !i.mode.Pinned? then DecideFixed(i)
    else DecideOver(Rank(lib, i), i)
  }

  // ---- the loops ----

  /** The loop over the tiers in rank. */
  method FindTier(lib: Library, tiers: seq<Tier>, s: Subject) returns (tier: int, pending: int)
    ensures (tier, pending) == TierFrom(lib, tiers, 0, s)
  {
    tier, pending := -1, -1;
    var k := 0;
    while k < |tiers|
      invariant k <= |tiers| && tier == -1
      invariant TierFrom(lib, tiers, 0, s) ==
        var rest := TierFrom(lib, tiers, k, s); (rest.0, if pending >= 0 then pending else rest.1)
    {
      var v := Test(lib, tiers[k].rule, s);
      if v == Yes {
        tier := k;
        return;
      }
      if v == Unknown && pending < 0 { pending := k; }
      k := k + 1;
    }
  }

  /** One turn of the loop over the members. */
  method MakeRow(lib: Library, m: Member, i: Input) returns (row: Row)
    ensures row == RowOf(lib, m, i)
  {
    var s := SubjectOf(m, i);
    var k := 0;
    while k < |i.policy.tags|
      invariant k <= |i.policy.tags|
      invariant Tagged(lib, i.policy.tags[k..], s) == Tagged(lib, i.policy.tags, SubjectOf(m, i))
    {
      assert i.policy.tags[k..][1..] == i.policy.tags[k + 1..];
      if Test(lib, i.policy.tags[k].cond, s) == Yes { s := s.(tags := s.tags + {i.policy.tags[k].name}); }
      k := k + 1;
    }
    assert i.policy.tags[k..] == [];
    row := BareRow(m, i);
    var barred := Barred(lib, m, s, i);
    if barred.Some? {
      row := row.(excluded := barred);
    } else {
      var tier, pending := FindTier(lib, i.policy.tiers, s);
      row := Tiered(row, (tier, pending), i.policy.tiers);
    }
  }

  /** rank: the rows in member order, then sorted in place by the library. */
  method RankMembers(lib: Library, i: Input) returns (rows: seq<Row>)
    ensures rows == Rank(lib, i)
  {
    rows := CollectRows(lib, i);
    rows := SortRows(rows, i.policy.tolerance);
  }

  method CollectRows(lib: Library, i: Input) returns (rows: seq<Row>)
    ensures rows == RowsOf(lib, i.members, i)
  {
    rows := [];
    ghost var rest := RowsOf(lib, i.members, i);
    var k := 0;
    assert i.members[0..] == i.members;
    while k < |i.members|
      invariant k <= |i.members|
      invariant rest == RowsOf(lib, i.members[k..], i)
      invariant rows + rest == RowsOf(lib, i.members, i)
    {
      NextRow(lib, i, k, rows);
      var row := MakeRow(lib, i.members[k], i);
      rows := rows + [row];
      k := k + 1;
      rest := RowsOf(lib, i.members[k..], i);
    }
    assert i.members[k..] == [];
    assert rows + [] == rows;
  }

  lemma NextRow(lib: Library, i: Input, k: nat, rows: seq<Row>)
    requires k < |i.members|
    ensures rows + RowsOf(lib, i.members[k..], i) == rows + [RowOf(lib, i.members[k], i)] + RowsOf(lib, i.members[k + 1..], i)
  {
    assert i.members[k..][1..] == i.members[k + 1..];
    Assoc(rows, [RowOf(lib, i.members[k], i)], RowsOf(lib, i.members[k + 1..], i));
  }

  /** pendingNeeds. */
  method PickPending(rows: seq<Row>, best: Option<Row>, tiers: nat) returns (names: seq<string>)
    ensures names == PendingNeeds(rows, best, tiers)
  {
    var picks := CollectPending(rows, if best.Some? then best.value.tier else tiers);
    picks := SortPending(picks);
    names := Names(if |picks| > NEEDS_PER_DECISION then picks[..NEEDS_PER_DECISION] else picks);
  }

  method CollectPending(rows: seq<Row>, bar: int) returns (picks: seq<Row>)
    ensures picks == Candidates(rows, bar)
  {
    picks := [];
    var k := 0;
    while k < |rows|
      invariant k <= |rows|
      invariant picks + Candidates(rows[k..], bar) == Candidates(rows, bar)
    {
      var row := rows[k];
      NextCandidate(rows, bar, k, picks);
      if !(row.pendingTier < 0 || row.pendingTier >= bar || row.health == DeadHealth)
        && !(row.excluded.Some? && row.excluded.value != "pending")
      {
        picks := picks + [row];
      }
      k := k + 1;
    }
    assert picks + [] == picks;
  }

  lemma NextCandidate(rows: seq<Row>, bar: int, k: nat, picks: seq<Row>)
    requires k < |rows|
    ensures picks + Candidates(rows[k..], bar) ==
      (if CouldRise(rows[k], bar) then picks + [rows[k]] else picks) + Candidates(rows[k + 1..], bar)
  {
    assert rows[k..][1..] == rows[k + 1..];
    Assoc(picks, [rows[k]], Candidates(rows[k + 1..], bar));
  }

  /** The inner loop of confirmed, newest sample first. */
  method CountBeats(samples: seq<Sample>, bar: int, i: Input) returns (count: nat)
    ensures count == BeatRun(samples, bar, i.policy.confirm, i)
  {
    count := 0;
    var k := |samples|;
    assert samples[..k] == samples;
    while k > 0 && count < i.policy.confirm
      invariant 0 <= k <= |samples|
      invariant count + BeatRun(samples[..k], bar, i.policy.confirm - count, i) == BeatRun(samples, bar, i.policy.confirm, i)
      decreases k
    {
      var s := samples[k - 1];
      assert samples[..k][..k - 1] == samples[..k - 1];
      if s.ms <= 0 || s.ms > bar || i.at - s.at > i.freshness { return; }
      count := count + 1;
      k := k - 1;
    }
  }
}
