/** What unknown checks can still change, and which rows can rise above the best once they are known. */
module Overtake {
  import opened Basics
  import opened Text
  import opened Lexer
  import opened Cond
  import opened Parser
  import opened Evidence
  import opened Deciding
  import opened Ranking

  // ---- tags never read a check ----

  predicate NoneReads(items: seq<CondNode>) { forall k :: 0 <= k < |items| ==> ReadsNoCheck(items[k]) }

  lemma {:induction false} OrReadsNoCheck(g: Grammar, ts: seq<Token>, depth: nat)
    requires g.scope.checks == {}
    ensures ParseOr(g, ts, depth).Ok? ==> ReadsNoCheck(ParseOr(g, ts, depth).value)
    decreases |ts|, 4
  {
    if depth <= MAX_CONDITION_DEPTH && ParseAnd(g, ts, depth).Ok? {
      AndReadsNoCheck(g, ts, depth);
      OrMoreReadsNoCheck(g, ParseAnd(g, ts, depth).rest, depth);
    }
  }

  lemma {:induction false} OrMoreReadsNoCheck(g: Grammar, ts: seq<Token>, depth: nat)
    requires g.scope.checks == {}
    ensures ParseOrMore(g, ts, depth).Ok? ==> NoneReads(ParseOrMore(g, ts, depth).value)
    decreases |ts|, 3
  {
    if IsKeyword(g.lib, Head(ts), "or") && ParseAnd(g, Tail(ts), depth).Ok? {
      AndReadsNoCheck(g, Tail(ts), depth);
      OrMoreReadsNoCheck(g, ParseAnd(g, Tail(ts), depth).rest, depth);
    }
  }

  lemma {:induction false} AndReadsNoCheck(g: Grammar, ts: seq<Token>, depth: nat)
    requires g.scope.checks == {}
    ensures ParseAnd(g, ts, depth).Ok? ==> ReadsNoCheck(ParseAnd(g, ts, depth).value)
    decreases |ts|, 3
  {
    if ParseUnary(g, ts, depth).Ok? {
      UnaryReadsNoCheck(g, ts, depth);
      AndMoreReadsNoCheck(g, ParseUnary(g, ts, depth).rest, depth);
    }
  }

  lemma {:induction false} AndMoreReadsNoCheck(g: Grammar, ts: seq<Token>, depth: nat)
    requires g.scope.checks == {}
    ensures ParseAndMore(g, ts, depth).Ok? ==> NoneReads(ParseAndMore(g, ts, depth).value)
    decreases |ts|, 2
  {
    if IsKeyword(g.lib, Head(ts), "and") && ParseUnary(g, Tail(ts), depth).Ok? {
      UnaryReadsNoCheck(g, Tail(ts), depth);
      AndMoreReadsNoCheck(g, ParseUnary(g, Tail(ts), depth).rest, depth);
    }
  }

  lemma {:induction false} UnaryReadsNoCheck(g: Grammar, ts: seq<Token>, depth: nat)
    requires g.scope.checks == {}
    ensures ParseUnary(g, ts, depth).Ok? ==> ReadsNoCheck(ParseUnary(g, ts, depth).value)
    decreases |ts|, 1
  {
    if IsKeyword(g.lib, Head(ts), "not") {
      UnaryReadsNoCheck(g, Tail(ts), depth + 1);
    } else if Head(ts) == Token(Punct, "(") {
      OrReadsNoCheck(g, Tail(ts), depth + 1);
    } else {
      PredicateReadsNoCheck(g, ts);
    }
  }

  lemma PredicateReadsNoCheck(g: Grammar, ts: seq<Token>)
    requires g.scope.checks == {}
    ensures ParsePredicate(g, ts).Ok? ==> ReadsNoCheck(ParsePredicate(g, ts).value)
  {}

  predicate CondReadsNoCheck(cond: Option<CondNode>) { cond.Some? ==> ReadsNoCheck(cond.value) }

  /** Whatever a tag's text is, the condition it compiles to reads no check. */
  lemma TagReadsNoCheck(lib: Library, text: string)
    ensures var parsed := ParseCond(Grammar(lib, TAG_SCOPE), text); parsed.Some? ==> CondReadsNoCheck(parsed.value)
  {
    var lexed := Lex(lib, TrimSpace(text));
    if lexed.Some? { OrReadsNoCheck(Grammar(lib, TAG_SCOPE), lexed.value, 0); }
  }

  // ---- one member learns more ----

  /** n is m once some of its unknown checks have their verdict. */
  ghost predicate Learns(m: Member, n: Member, i: Input) {
    && n == m.(facts := n.facts)
    && FactsOf(n) == FactsOf(m).(checks := FactsOf(n).checks)
    && forall id :: id in i.policy.checkIds && Verdict(CheckOf(FactsOf(m), id), i.at) != Unknown ==>
      Verdict(CheckOf(FactsOf(n), id), i.at) == Verdict(CheckOf(FactsOf(m), id), i.at)
  }

  predicate TagsReadNoCheck(p: Policy) { forall k :: 0 <= k < |p.tags| ==> CondReadsNoCheck(p.tags[k].cond) }

  lemma SubjectLearns(m: Member, n: Member, i: Input)
    requires Learns(m, n, i)
    ensures ResolvesChecks(SubjectOf(m, i), SubjectOf(n, i))
  {}

  lemma {:induction false} TagsAgree(lib: Library, tags: seq<NamedCond>, s: Subject, t: Subject)
    requires ResolvesChecks(s, t) && forall k :: 0 <= k < |tags| ==> CondReadsNoCheck(tags[k].cond)
    ensures ResolvesChecks(Tagged(lib, tags, s), Tagged(lib, tags, t))
    decreases |tags|
  {
    if tags != [] {
      if tags[0].cond.Some? { ChecksAreIgnored(lib, tags[0].cond.value, s, t); }
      if Test(lib, tags[0].cond, s) == Yes {
        TagsAgree(lib, tags[1..], s.(tags := s.tags + {tags[0].name}), t.(tags := t.tags + {tags[0].name}));
      } else {
        TagsAgree(lib, tags[1..], s, t);
      }
    }
  }

  lemma TestStays(lib: Library, cond: Option<CondNode>, s: Subject, t: Subject)
    requires ResolvesChecks(s, t) && Test(lib, cond, s) != Unknown
    ensures Test(lib, cond, t) == Test(lib, cond, s)
  {
    if cond.Some? { DecidedStays(lib, cond.value, s, t); }
  }

  function TierNumber(tier: int, tiers: nat): int { if tier < 0 then tiers else tier }

  /** Learning more moves the first tier that holds no further than down to the
      first that was unknown. */
  lemma {:induction false} TiersLearn(lib: Library, tiers: seq<Tier>, k: nat, s: Subject, t: Subject)
    requires k <= |tiers| && ResolvesChecks(s, t)
    ensures var (before, pending) := TierFrom(lib, tiers, k, s);
      var (after, left) := TierFrom(lib, tiers, k, t);
      && (before >= 0 ==> before >= k) && (pending >= 0 ==> pending >= k) && (after >= 0 ==> after >= k)
      && (pending < 0 ==> after == before && left < 0)
      && (pending >= 0 ==> pending <= TierNumber(after, |tiers|) <= TierNumber(before, |tiers|))
    decreases |tiers| - k
  {
    if k < |tiers| {
      if Test(lib, tiers[k].rule, s) != Unknown { TestStays(lib, tiers[k].rule, s, t); }
      TiersLearn(lib, tiers, k + 1, s, t);
    }
  }

  /** The pool's rules are decided for the member. */
  predicate PoolDecided(lib: Library, m: Member, i: Input) {
    var s := Tagged(lib, i.policy.tags, SubjectOf(m, i));
    Test(lib, i.policy.inScope, s) != Unknown && Test(lib, i.policy.exclude, s) != Unknown
  }

  lemma BarredStays(lib: Library, m: Member, n: Member, s: Subject, t: Subject, i: Input)
    requires Learns(m, n, i) && ResolvesChecks(s, t)
    requires Test(lib, i.policy.inScope, s) != Unknown && Test(lib, i.policy.exclude, s) != Unknown
    ensures Barred(lib, n, t, i) == Barred(lib, m, s, i)
  {
    TestStays(lib, i.policy.inScope, s, t);
    TestStays(lib, i.policy.exclude, s, t);
  }

  lemma BareRowLearns(m: Member, n: Member, i: Input)
    requires Learns(m, n, i)
    ensures BareRow(n, i) == BareRow(m, i)
  {}

  lemma TieredRow(row: Row, found: (int, int), tiers: seq<Tier>)
    requires -1 <= found.0 < |tiers| && -1 <= found.1 < |tiers|
    ensures var r := Tiered(row, found, tiers);
      && r == row.(tier := r.tier, caption := r.caption, excluded := r.excluded,
        pendingTier := r.pendingTier, pending := r.pending)
      && r.tier == TierNumber(found.0, |tiers|) && r.pendingTier == found.1
      && r.excluded == if found.0 >= 0 then None else Some(if found.1 >= 0 then "pending" else "no-tier")
  {}

  /** What a changed answer of the tiers does to a row. */
  lemma TierChange(row: Row, before: (int, int), after: (int, int), tiers: seq<Tier>)
    requires -1 <= before.0 < |tiers| && -1 <= before.1 < |tiers| && -1 <= after.0 < |tiers| && -1 <= after.1 < |tiers|
    requires before.1 < 0 ==> after.0 == before.0 && after.1 < 0
    requires before.1 >= 0 ==> before.1 <= TierNumber(after.0, |tiers|) <= TierNumber(before.0, |tiers|)
    ensures Follows(Tiered(row, before, tiers), Tiered(row, after, tiers))
  {
    TieredRow(row, before, tiers);
    TieredRow(row, after, tiers);
  }

  /** No pending tier, no change of tier; else the tier ends between the pending
      one and the one the row has. A row out for another reason stays out. */
  predicate Follows(row: Row, after: Row) {
    && after.name == row.name && after.health == row.health && after.score == row.score
    && (row.pendingTier < 0 ==> after.tier == row.tier && after.excluded == row.excluded)
    && (row.pendingTier >= 0 ==> row.pendingTier <= after.tier <= row.tier)
    && (row.pendingTier >= 0 ==> row.excluded.None? || row.excluded == Some("pending"))
  }

  /** What learning more does to a member's row, with the pool's rules decided. */
  lemma RowLearns(lib: Library, m: Member, n: Member, i: Input)
    requires Learns(m, n, i) && TagsReadNoCheck(i.policy) && PoolDecided(lib, m, i)
    ensures Follows(RowOf(lib, m, i), RowOf(lib, n, i))
    ensures RowOf(lib, m, i).pendingTier >= 0 ==> RowOf(lib, m, i).health != DeadHealth
  {
    var s, t := SubjectOf(m, i), SubjectOf(n, i);
    SubjectLearns(m, n, i);
    TagsAgree(lib, i.policy.tags, s, t);
    var tagged, tagged' := Tagged(lib, i.policy.tags, s), Tagged(lib, i.policy.tags, t);
    BarredStays(lib, m, n, tagged, tagged', i);
    TiersLearn(lib, i.policy.tiers, 0, tagged, tagged');
    BareRowLearns(m, n, i);
    RowFrom(lib, m, i, tagged);
    RowFrom(lib, n, i, tagged');
    TierChange(BareRow(m, i), TierFrom(lib, i.policy.tiers, 0, tagged),
      TierFrom(lib, i.policy.tiers, 0, tagged'), i.policy.tiers);
    PendingIsNotDead(lib, m, i);
  }

  lemma PendingIsNotDead(lib: Library, m: Member, i: Input)
    ensures RowOf(lib, m, i).pendingTier >= 0 ==> RowOf(lib, m, i).health != DeadHealth
  {}

  // ---- who can overtake ----

  /** The same input once members have learned more. */
  ghost predicate AllLearn(i: Input, j: Input) {
    && j == i.(members := j.members) && |j.members| == |i.members|
    && forall k :: 0 <= k < |i.members| ==> Learns(i.members[k], j.members[k], i)
  }

  lemma SameInputSameParts(lib: Library, m: Member, s: Subject, i: Input, j: Input)
    requires j == i.(members := j.members)
    ensures SubjectOf(m, j) == SubjectOf(m, i) && BareRow(m, j) == BareRow(m, i)
    ensures Barred(lib, m, s, j) == Barred(lib, m, s, i)
  {}

  lemma SameInputSameRow(lib: Library, m: Member, i: Input, j: Input)
    requires j == i.(members := j.members)
    ensures RowOf(lib, m, j) == RowOf(lib, m, i)
  {
    var tagged := Tagged(lib, i.policy.tags, SubjectOf(m, i));
    SameInputSameParts(lib, m, tagged, i, j);
    RowFrom(lib, m, i, tagged);
    RowFrom(lib, m, j, tagged);
  }

  /** Whoever ends up eligible in a better tier than the best has now is one of
      the rows whose checks the planner is told could rise. */
  lemma OnlyPendingOvertakes(lib: Library, i: Input, j: Input, k: nat)
    requires AllLearn(i, j) && k < |i.members| && TagsReadNoCheck(i.policy) && PoolDecided(lib, i.members[k], i)
    requires var after := RowOf(lib, j.members[k], j);
      after.excluded.None? && after.tier < Bar(Best(Rank(lib, i)), |i.policy.tiers|)
    ensures CouldRise(RowOf(lib, i.members[k], i), Bar(Best(Rank(lib, i)), |i.policy.tiers|))
  {
    var m, n := i.members[k], j.members[k];
    RowLearns(lib, m, n, i);
    SameInputSameRow(lib, n, i, j);
    var row := RowOf(lib, m, i);
    if row.pendingTier < 0 {
      NoneLeads(lib, i);
      var best := BestLeads(lib, i);
      assert m in i.members;
      LeaderHasLeastTier(RowOf(lib, best, i), row, i.policy.tolerance);
      assert false;
    }
  }

  lemma LeaderHasLeastTier(best: Row, row: Row, tolerance: int)
    requires best.excluded.None? && row.excluded.None? && !Before(row, best, tolerance)
    ensures best.tier <= row.tier
  {}

  // ---- what the planner is told ----

  lemma {:induction false} CandidatesAre(rows: seq<Row>, bar: int, r: Row)
    ensures r in Candidates(rows, bar) <==> r in rows && CouldRise(r, bar)
    decreases |rows|
  {
    if rows != [] { CandidatesAre(rows[1..], bar, r); }
  }

  predicate PendingOrder(rows: seq<Row>) { forall a, b :: 0 <= a < b < |rows| ==> rows[a].pendingTier <= rows[b].pendingTier }

  lemma {:induction false} PlacePendingCounts(row: Row, rows: seq<Row>)
    ensures multiset(PlacePending(row, rows)) == multiset{row} + multiset(rows)
    decreases |rows|
  {
    if rows != [] && rows[0].pendingTier < row.pendingTier {
      PlacePendingCounts(row, rows[1..]);
      assert rows == [rows[0]] + rows[1..];
    }
  }

  lemma {:induction false} PlacePendingOrders(row: Row, rows: seq<Row>)
    requires PendingOrder(rows)
    ensures PendingOrder(PlacePending(row, rows))
    decreases |rows|
  {
    if rows != [] && rows[0].pendingTier < row.pendingTier {
      PlacePendingOrders(row, rows[1..]);
      LeastStays(rows[0].pendingTier, row, rows[1..]);
      LeastInFront(rows[0], PlacePending(row, rows[1..]));
    }
  }

  lemma LeastInFront(first: Row, rest: seq<Row>)
    requires PendingOrder(rest) && forall k :: 0 <= k < |rest| ==> first.pendingTier <= rest[k].pendingTier
    ensures PendingOrder([first] + rest)
  {}

  /** What is least of a row and a list is least of both put together. */
  lemma {:induction false} LeastStays(least: int, row: Row, rows: seq<Row>)
    requires least <= row.pendingTier && forall k :: 0 <= k < |rows| ==> least <= rows[k].pendingTier
    ensures forall k :: 0 <= k < |PlacePending(row, rows)| ==> least <= PlacePending(row, rows)[k].pendingTier
    decreases |rows|
  {
    if rows != [] { LeastStays(least, row, rows[1..]); }
  }

  lemma {:induction false} SortPendingKeeps(rows: seq<Row>)
    ensures PendingOrder(SortPending(rows)) && multiset(SortPending(rows)) == multiset(rows)
    decreases |rows|
  {
    if rows != [] {
      SortPendingKeeps(rows[1..]);
      PlacePendingOrders(rows[0], SortPending(rows[1..]));
      PlacePendingCounts(rows[0], SortPending(rows[1..]));
      assert rows == [rows[0]] + rows[1..];
    }
  }

  lemma {:induction false} NamesAre(rows: seq<Row>)
    ensures |Names(rows)| == |rows| && forall a :: 0 <= a < |rows| ==> Names(rows)[a] == rows[a].name
    decreases |rows|
  {
    if rows != [] { NamesAre(rows[1..]); }
  }

  /** The planner gets at most two names, each of a row that could rise; a row
      that could rise and is not named pends on no better a tier than any named. */
  lemma NeedsAreTheNearest(rows: seq<Row>, best: Option<Row>, tiers: nat, r: Row)
    requires r in rows && CouldRise(r, Bar(best, tiers))
    ensures var needs := PendingNeeds(rows, best, tiers);
      && 1 <= |needs| <= NEEDS_PER_DECISION
      && (forall n :: n in needs ==> exists q :: q in rows && CouldRise(q, Bar(best, tiers)) && q.name == n)
      && (r.name in needs || (|needs| == NEEDS_PER_DECISION &&
          forall n :: n in needs ==>
            exists q :: q in rows && CouldRise(q, Bar(best, tiers)) && q.name == n && q.pendingTier <= r.pendingTier))
  {
    var bar := Bar(best, tiers);
    var all := Candidates(rows, bar);
    var picks := SortPending(all);
    SortPendingKeeps(all);
    CandidatesAre(rows, bar, r);
    assert r in multiset(picks);
    var at :| 0 <= at < |picks| && picks[at] == r;
    var named := if |picks| > NEEDS_PER_DECISION then picks[..NEEDS_PER_DECISION] else picks;
    NamesAre(named);
    forall n | n in Names(named)
      ensures exists q ::
        q in rows && CouldRise(q, bar) && q.name == n && (q.pendingTier <= r.pendingTier || r.name in Names(named))
    {
      var a :| 0 <= a < |named| && Names(named)[a] == n;
      assert picks[a] in multiset(picks);
      CandidatesAre(rows, bar, picks[a]);
      if at < |named| { assert Names(named)[at] == r.name; }
    }
    if at < |named| { assert Names(named)[at] == r.name; }
  }
}
