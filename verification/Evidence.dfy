/** What is known about one node on one network, and the verdicts read from it. */
module Evidence {
  import opened Basics
  import opened Cond

  const SECOND := 1000
  const MINUTE := 60 * SECOND
  const HOUR := 60 * MINUTE

  const MAX_SAMPLES := 8
  const MAX_EPISODES := 16
  const EPISODE_WINDOW := 24 * HOUR
  const SAMPLE_WINDOW := 6 * HOUR
  const DIAL_FAIL_WINDOW := 20 * SECOND
  const SUSPECT_DIAL_FAILS := 3
  const CHECK_WINDOW := 6 * HOUR
  const EXIT_TTL := 24 * HOUR

  /** Times are milliseconds since the zero time, which is "never". */
  type Time = int

  datatype Sample = Sample(at: Time, ms: int)

  datatype CheckFact = CheckFact(at: Time, ok: bool, run: nat, passedAt: Time, soft: bool)

  datatype Facts = Facts(
    samples: seq<Sample>, okAt: Time, failAt: Time, failRun: nat, deadAt: Time,
    episodes: seq<Time>, checks: map<string, CheckFact>, dialFails: seq<Time>)

  const NO_FACTS := Facts([], 0, 0, 0, 0, [], map[], [])

  datatype ExitFact = ExitFact(country: string, at: Time)

  // ---- reading ----

  /** One failed request never overturns a pass: until a second one the check is unknown. */
  function Verdict(c: Option<CheckFact>, now: Time): Tri {
    match c
    case None => Unknown
    case Some(fact) =>
      if now - fact.at > CHECK_WINDOW then Unknown
      else if fact.ok then Yes
      else if fact.soft then Neither
      else if fact.run < 2 && fact.passedAt != 0 then Unknown
      else No
  }

  function CountryOf(exit: Option<ExitFact>, now: Time): string {
    if exit.None? || now - exit.value.at > EXIT_TTL then "" else exit.value.country
  }

  predicate Dead(f: Facts) { f.deadAt != 0 && f.okAt <= f.deadAt }

  predicate AliveSince(f: Facts, cutoff: Time) { !Dead(f) && f.okAt > cutoff && f.failAt <= f.okAt }

  /** The latencies recent enough to count, in the order they came. */
  function Recent(samples: seq<Sample>, now: Time): seq<int> {
    if samples == [] then []
    else (if samples[0].ms > 0 && now - samples[0].at < SAMPLE_WINDOW then [samples[0].ms] else []) + Recent(samples[1..], now)
  }

  predicate Ascending(values: seq<int>) { forall i, j :: 0 <= i < j < |values| ==> values[i] <= values[j] }

  function Insert(x: int, values: seq<int>): (r: seq<int>)
    ensures multiset(r) == multiset{x} + multiset(values)
    ensures |r| == |values| + 1
  {
    if values == [] || x <= values[0] then [x] + values
    else
      assert values == [values[0]] + values[1..];
      [values[0]] + Insert(x, values[1..])
  }

  lemma {:induction false} InsertAscends(x: int, values: seq<int>)
    requires Ascending(values)
    ensures Ascending(Insert(x, values))
    decreases |values|
  {
    if values != [] && x > values[0] {
      InsertAscends(x, values[1..]);
      var rest := Insert(x, values[1..]);
      forall j | 0 <= j < |rest| ensures values[0] <= rest[j] {
        assert rest[j] in multiset(rest);
        if rest[j] != x { assert rest[j] in multiset(values[1..]); }
      }
    }
  }

  function Sorted(values: seq<int>): (r: seq<int>)
    ensures multiset(r) == multiset(values)
    ensures |r| == |values|
  {
    if values == [] then []
    else
      assert values == [values[0]] + values[1..];
      Insert(values[0], Sorted(values[1..]))
  }

  lemma {:induction false} SortedAscends(values: seq<int>)
    ensures Ascending(Sorted(values))
    decreases |values|
  {
    if values != [] {
      SortedAscends(values[1..]);
      InsertAscends(values[0], Sorted(values[1..]));
    }
  }

  /** The index of the ninetieth percentile of n values; it is always within them. */
  function Ninetieth(n: nat): (k: nat)
    requires n > 0
    ensures n / 2 <= k < n
  {
    n * 9 / 10
  }

  function Median(values: seq<int>): int
    requires values != []
  {
    values[|values| / 2]
  }

  function P90(values: seq<int>): int
    requires values != []
  {
    values[Ninetieth(|values|)]
  }

  /** The median of the recent samples and how far the ninetieth percentile is above it. */
  function Latency(f: Facts, now: Time): Option<(int, int)> {
    var values := Sorted(Recent(f.samples, now));
    if values == [] then None else Some((Median(values), P90(values) - Median(values)))
  }

  lemma {:induction false} RecentIsPositive(samples: seq<Sample>, now: Time)
    ensures forall x :: x in Recent(samples, now) ==> x > 0
    decreases |samples|
  {
    if samples != [] { RecentIsPositive(samples[1..], now); }
  }

  /** A latency is one of the recent samples, positive, at least half of them
      reach it, and the spread is never negative. */
  lemma LatencyIsMeasured(f: Facts, now: Time)
    ensures Latency(f, now).Some? <==> Recent(f.samples, now) != []
    ensures Latency(f, now).Some? ==>
      var (p50, spread) := Latency(f, now).value;
      p50 > 0 && spread >= 0 && p50 in Recent(f.samples, now) && (p50 + spread) in Recent(f.samples, now)
  {
    var recent := Recent(f.samples, now);
    var values := Sorted(recent);
    RecentIsPositive(f.samples, now);
    if recent != [] { PercentilesAreListed(recent); }
  }

  lemma {:induction false} PercentilesAreListed(values: seq<int>)
    requires values != []
    ensures Median(Sorted(values)) in values && P90(Sorted(values)) in values
    ensures Median(Sorted(values)) <= P90(Sorted(values))
  {
    SortedAscends(values);
    SortedIsListed(values, |values| / 2);
    SortedIsListed(values, Ninetieth(|values|));
  }

  lemma {:induction false} SortedIsListed(values: seq<int>, k: nat)
    requires k < |values|
    ensures Sorted(values)[k] in values
  {
    assert Sorted(values)[k] in multiset(Sorted(values));
  }

  function LastSampleAt(f: Facts): Time { if f.samples == [] then 0 else f.samples[|f.samples| - 1].at }

  function EpisodesSince(episodes: seq<Time>, now: Time): nat {
    if episodes == [] then 0 else (if now - episodes[0] < EPISODE_WINDOW then 1 else 0) + EpisodesSince(episodes[1..], now)
  }

  function RecentEpisodes(f: Facts, now: Time): nat { EpisodesSince(f.episodes, now) }

  // ---- noting ----

  function Noted(c: Option<CheckFact>, at: Time, ok: bool, optional: bool): CheckFact {
    var was := if c.None? then CheckFact(0, false, 0, 0, false) else c.value;
    CheckFact(at, ok, if was.run > 0 && was.ok == ok then was.run + 1 else 1, if ok then at else was.passedAt, !ok && optional)
  }

  function CheckOf(f: Facts, id: string): Option<CheckFact> { if id in f.checks then Some(f.checks[id]) else None }

  function OkNoted(f: Facts, at: Time): Facts {
    f.(okAt := if at > f.okAt then at else f.okAt, failRun := 0, dialFails := [])
  }

  /** The last n of a list. */
  function Last<T>(s: seq<T>, n: nat): seq<T> { if |s| > n then s[|s| - n..] else s }

  function SampleNoted(f: Facts, at: Time, ms: int): Facts {
    var g := OkNoted(f, at);
    g.(samples := Last(g.samples + [Sample(at, ms)], MAX_SAMPLES))
  }

  function FailNoted(f: Facts, at: Time): Facts { f.(failAt := at, failRun := f.failRun + 1) }

  function DeathNoted(f: Facts, at: Time): Facts {
    if Dead(f) then f else f.(deadAt := at, episodes := Last(f.episodes + [at], MAX_EPISODES))
  }

  function Within(times: seq<Time>, at: Time): seq<Time> {
    if times == [] then [] else (if at - times[0] < DIAL_FAIL_WINDOW then [times[0]] else []) + Within(times[1..], at)
  }

  lemma WithinStep(times: seq<Time>, i: nat, at: Time, kept: seq<Time>)
    requires i < |times|
    ensures kept + Within(times[i..], at) ==
      (if at - times[i] < DIAL_FAIL_WINDOW then kept + [times[i]] else kept) + Within(times[i + 1..], at)
  {
    assert times[i..][1..] == times[i + 1..];
  }

  function DialFailNoted(f: Facts, at: Time): Facts { f.(dialFails := Within(f.dialFails, at) + [at]) }

  /** Enough failed dials in the window and no success since the first of them. */
  predicate Suspect(f: Facts) {
    |f.dialFails| >= SUSPECT_DIAL_FAILS && f.okAt <= f.dialFails[0]
  }

  /** The record of one node, updated in place as evidence comes in. */
  class NodeRecord {
    var facts: Facts

    constructor ()
      ensures facts == NO_FACTS
    {
      facts := NO_FACTS;
    }

    method NoteCheck(id: string, at: Time, ok: bool, optional: bool)
      modifies this
      ensures facts == old(facts).(checks := old(facts).checks[id := Noted(CheckOf(old(facts), id), at, ok, optional)])
    {
      var c := if id in facts.checks then facts.checks[id] else CheckFact(0, false, 0, 0, false);
      var run: nat := 1;
      if c.run > 0 && c.ok == ok { run := c.run + 1; }
      c := c.(run := run, at := at, ok := ok, soft := !ok && optional);
      if ok { c := c.(passedAt := at); }
      facts := facts.(checks := facts.checks[id := c]);
    }

    method NoteSample(at: Time, ms: int)
      modifies this
      ensures facts == SampleNoted(old(facts), at, ms)
    {
      NoteOk(at);
      facts := facts.(samples := facts.samples + [Sample(at, ms)]);
      if |facts.samples| > MAX_SAMPLES {
        facts := facts.(samples := facts.samples[|facts.samples| - MAX_SAMPLES..]);
      }
    }

    method NoteOk(at: Time)
      modifies this
      ensures facts == OkNoted(old(facts), at)
    {
      if at > facts.okAt { facts := facts.(okAt := at); }
      facts := facts.(failRun := 0, dialFails := []);
    }

    method NoteProbeFail(at: Time)
      modifies this
      ensures facts == FailNoted(old(facts), at)
    {
      facts := facts.(failAt := at, failRun := facts.failRun + 1);
    }

    method MarkDead(at: Time)
      modifies this
      ensures facts == DeathNoted(old(facts), at)
    {
      if Dead(facts) { return; }
      facts := facts.(deadAt := at, episodes := facts.episodes + [at]);
      if |facts.episodes| > MAX_EPISODES {
        facts := facts.(episodes := facts.episodes[|facts.episodes| - MAX_EPISODES..]);
      }
    }

    /** Whether real traffic now suspects the node. */
    method NoteDialFail(at: Time) returns (suspect: bool)
      modifies this
      ensures facts == DialFailNoted(old(facts), at) && suspect == Suspect(facts)
    {
      var kept: seq<Time> := [];
      var i := 0;
      while i < |facts.dialFails|
        invariant i <= |facts.dialFails| && facts == old(facts)
        invariant kept + Within(facts.dialFails[i..], at) == Within(facts.dialFails, at)
      {
        WithinStep(facts.dialFails, i, at, kept);
        if at - facts.dialFails[i] < DIAL_FAIL_WINDOW { kept := kept + [facts.dialFails[i]]; }
        i := i + 1;
      }
      facts := facts.(dialFails := kept + [at]);
      suspect := |facts.dialFails| >= SUSPECT_DIAL_FAILS && facts.okAt <= facts.dialFails[0];
    }
  }

  // ---- what a history of checks says ----

  datatype Outcome = Outcome(at: Time, ok: bool, optional: bool)

  /** The fact a history of outcomes leaves, oldest first. */
  function FactOf(history: seq<Outcome>): Option<CheckFact> {
    if history == [] then None
    else
      var last := history[|history| - 1];
      Some(Noted(FactOf(history[..|history| - 1]), last.at, last.ok, last.optional))
  }

  predicate EverPassed(history: seq<Outcome>) { exists i :: 0 <= i < |history| && history[i].ok }

  lemma {:induction false} FactRemembers(history: seq<Outcome>)
    requires forall i :: 0 <= i < |history| ==> history[i].at > 0
    ensures history != [] ==>
      var last, fact := history[|history| - 1], FactOf(history).value;
      && fact.at == last.at && fact.ok == last.ok && fact.soft == (!last.ok && last.optional) && fact.run >= 1
      && (fact.passedAt != 0 <==> EverPassed(history))
      && (fact.run >= 2 <==> |history| >= 2 && history[|history| - 2].ok == last.ok)
    decreases |history|
  {
    if history != [] {
      var before := history[..|history| - 1];
      FactRemembers(before);
      assert EverPassed(history) <==> EverPassed(before) || history[|history| - 1].ok by {
        if i :| 0 <= i < |history| && history[i].ok { assert i < |before| ==> before[i].ok; }
        if i :| 0 <= i < |before| && before[i].ok { assert history[i].ok; }
      }
      if before != [] { assert before[|before| - 1] == history[|history| - 2]; }
    }
  }

  /** Read off the whole history, within the window of its last outcome: a pass
      is a pass, an optional failure is neither, and a failure counts as one only
      when the outcome before it failed too or the check has never passed. */
  lemma VerdictOfHistory(history: seq<Outcome>, now: Time)
    requires history != [] && forall i :: 0 <= i < |history| ==> history[i].at > 0
    ensures var n := |history|; var last := history[n - 1]; var v := Verdict(FactOf(history), now);
      && (now - last.at > CHECK_WINDOW ==> v == Unknown)
      && (now - last.at <= CHECK_WINDOW ==>
        (v == Unknown <==> !last.ok && !last.optional && EverPassed(history) && (n == 1 || history[n - 2].ok)))
      && (v == Yes <==> now - last.at <= CHECK_WINDOW && last.ok)
      && (v == No ==> !EverPassed(history) || (n >= 2 && !history[n - 2].ok))
  {
    FactRemembers(history);
  }

  /** Death lasts until a later success, and dying again while dead is no new episode. */
  lemma DeathLasts(f: Facts, at: Time, later: Time)
    requires at > 0 && at >= f.okAt && at >= f.deadAt
    ensures var dead := DeathNoted(f, at);
      && Dead(dead) && DeathNoted(dead, later) == dead && Dead(FailNoted(dead, later))
      && (Dead(OkNoted(dead, later)) <==> later <= dead.deadAt)
      && (forall ms :: Dead(SampleNoted(dead, later, ms)) <==> later <= dead.deadAt)
  {}
}
