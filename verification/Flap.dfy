/** Applying decisions over time: what the record of switches counts, what a
    switch for being faster must have waited for, and how often in an hour a
    group can be moved for it. */
module Flap {
  import opened Basics
  import opened Text
  import opened Cond
  import opened Evidence
  import opened Deciding
  import opened Ranking

  /** One time the group is settled: what Decide is given apart from the record
      of switches, whether the core routes, and whether the selection succeeds. */
  datatype Round = Round(input: Input, running: bool, selects: bool)

  /** A switch that was applied, with the flap limits of the policy then in force. */
  datatype Applied = Applied(at: Time, code: string, dwell: int, maxPerHour: int)

  /** The group's control record and the log of every switch ever applied. */
  datatype Record = Record(switches: seq<Time>, lastSwitch: Time, log: seq<Applied>)

  const FRESH := Record([], 0, [])

  function After(times: seq<Time>, cutoff: Time): seq<Time> {
    if times == [] then [] else (if times[0] > cutoff then [times[0]] else []) + After(times[1..], cutoff)
  }

  /** decideGroup: the record supplies the last switch and the count of the last hour. */
  function Given(rec: Record, r: Round): Input {
    r.input.(lastSwitch := rec.lastSwitch, switchesHour := |After(rec.switches, r.input.at - HOUR)|)
  }

  function Decided(lib: Library, rec: Record, r: Round): Decision { Decide(lib, Given(rec, r)) }

  /** Whether a decision is carried out: never in manual mode, only while the core routes. */
  predicate Carried(d: Decision, r: Round) {
    d.action == Switch && r.running && d.target != r.input.now && r.selects
  }

  function EntryOf(d: Decision, r: Round): Applied {
    Applied(r.input.at, d.code, r.input.policy.dwell, r.input.policy.maxPerHour)
  }

  function Recorded(rec: Record, entry: Applied): Record {
    Record(After(rec.switches, entry.at - HOUR) + [entry.at], entry.at, rec.log + [entry])
  }

  function Carry(rec: Record, d: Decision, r: Round): Record {
    if Carried(d, r) then Recorded(rec, EntryOf(d, r)) else rec
  }

  /** settle, for one group. */
  function Settled(lib: Library, rec: Record, r: Round): Record { Carry(rec, Decided(lib, rec, r), r) }

  function Run(lib: Library, rec: Record, rounds: seq<Round>): Record
    decreases |rounds|
  {
    if rounds == [] then rec else Run(lib, Settled(lib, rec, rounds[0]), rounds[1..])
  }

  /** Time never goes backwards. */
  predicate InOrder(from: Time, rounds: seq<Round>)
    decreases |rounds|
  {
    rounds == [] || (from <= rounds[0].input.at && InOrder(rounds[0].input.at, rounds[1..]))
  }

  // ---- the record as settle keeps it ----

  class ControlRecord {
    var switches: seq<Time>
    var lastSwitch: Time
    ghost var log: seq<Applied>

    constructor ()
      ensures Value() == FRESH
    {
      switches, lastSwitch, log := [], 0, [];
    }

    ghost function Value(): Record
      reads this
    {
      Record(switches, lastSwitch, log)
    }

    method SwitchesSince(cutoff: Time) returns (count: nat)
      ensures count == |After(switches, cutoff)|
    {
      count := 0;
      var i := 0;
      while i < |switches|
        invariant i <= |switches|
        invariant count + |After(switches[i..], cutoff)| == |After(switches, cutoff)|
      {
        assert switches[i..][1..] == switches[i + 1..];
        if switches[i] > cutoff { count := count + 1; }
        i := i + 1;
      }
    }

    method TrimTimes(cutoff: Time)
      modifies this`switches
      ensures switches == After(old(switches), cutoff)
    {
      var kept: seq<Time> := [];
      var i := 0;
      while i < |switches|
        invariant i <= |switches| && switches == old(switches)
        invariant kept + After(switches[i..], cutoff) == After(switches, cutoff)
      {
        NextAfter(switches, i, cutoff, kept);
        if switches[i] > cutoff { kept := kept + [switches[i]]; }
        i := i + 1;
      }
      assert kept + [] == kept;
      switches := kept;
    }

    /** Applies a decision: selection, then the record. */
    method Apply(d: Decision, r: Round) returns (now: string)
      modifies this
      ensures Value() == Carry(old(Value()), d, r)
      ensures now == if Carried(d, r) then d.target else r.input.now
    {
      now := r.input.now;
      if d.action == Switch && r.running && d.target != now {
        if r.selects {
          now := d.target;
          lastSwitch := r.input.at;
          TrimTimes(r.input.at - HOUR);
          switches := switches + [r.input.at];
          log := log + [EntryOf(d, r)];
        }
      }
    }

    /** Decides the group and applies the switch, if any. */
    method Settle(lib: Library, r: Round) returns (now: string)
      modifies this
      ensures Value() == Settled(lib, old(Value()), r)
    {
      var hour := SwitchesSince(r.input.at - HOUR);
      var input := r.input.(lastSwitch := lastSwitch, switchesHour := hour);
      assert input == Given(Value(), r);
      var d := Decide(lib, input);
      now := Apply(d, r);
    }
  }

  lemma NextAfter(times: seq<Time>, i: nat, cutoff: Time, kept: seq<Time>)
    requires i < |times|
    ensures kept + After(times[i..], cutoff) ==
      (if times[i] > cutoff then kept + [times[i]] else kept) + After(times[i + 1..], cutoff)
  {
    assert times[i..][1..] == times[i + 1..];
    Assoc(kept, [times[i]], After(times[i + 1..], cutoff));
  }

  // ---- the trimmed list counts what it should ----

  function Times(log: seq<Applied>): seq<Time> { if log == [] then [] else Times(log[..|log| - 1]) + [log[|log| - 1].at] }

  lemma {:induction false} AfterSplits(a: seq<Time>, b: seq<Time>, cutoff: Time)
    ensures After(a + b, cutoff) == After(a, cutoff) + After(b, cutoff)
    decreases |a|
  {
    if a == [] {
      assert a + b == b;
      assert After(a, cutoff) + After(b, cutoff) == After(b, cutoff);
    } else {
      assert (a + b)[1..] == a[1..] + b;
      AfterSplits(a[1..], b, cutoff);
      Assoc(if a[0] > cutoff then [a[0]] else [], After(a[1..], cutoff), After(b, cutoff));
    }
  }

  lemma {:induction false} AfterTwice(times: seq<Time>, low: Time, high: Time)
    requires low <= high
    ensures After(After(times, low), high) == After(times, high)
    decreases |times|
  {
    if times != [] {
      AfterTwice(times[1..], low, high);
      AfterSplits(if times[0] > low then [times[0]] else [], After(times[1..], low), high);
      assert After([times[0]], high) == if times[0] > high then [times[0]] else [];
    }
  }

  /** The list keeps every logged switch within an hour of the last one, and the
      log is in time order. */
  ghost predicate Sound(rec: Record) {
    && rec.switches == After(Times(rec.log), rec.lastSwitch - HOUR)
    && (rec.log != [] ==> rec.lastSwitch == rec.log[|rec.log| - 1].at)
    && (forall a, b :: 0 <= a < b < |rec.log| ==> rec.log[a].at <= rec.log[b].at)
  }

  /** The list's count of the last hour is that of every switch ever applied. */
  predicate CountsTruly(rec: Record, at: Time) {
    After(rec.switches, at - HOUR) == After(Times(rec.log), at - HOUR)
  }

  /** The count Decide gets is the true number of switches applied in the last hour. */
  lemma CountIsTrue(rec: Record, at: Time)
    requires Sound(rec) && rec.lastSwitch <= at
    ensures CountsTruly(rec, at)
  {
    AfterTwice(Times(rec.log), rec.lastSwitch - HOUR, at - HOUR);
  }

  /** A switch for being faster, against the switches before it: at least Dwell
      after the last, and fewer than MaxPerHour in the hour up to it. */
  predicate Meets(entry: Applied, before: seq<Applied>) {
    entry.code == "switch.faster" ==>
      && (before != [] ==> entry.at - before[|before| - 1].at >= entry.dwell)
      && |After(Times(before), entry.at - HOUR)| < entry.maxPerHour
  }

  /** Every switch in the log met its policy's bounds when it was applied. */
  predicate Bounded(log: seq<Applied>)
    decreases |log|
  {
    log == [] || (Meets(log[|log| - 1], log[..|log| - 1]) && Bounded(log[..|log| - 1]))
  }

  lemma FasterKeepsBounds(i: Input, current: Option<Row>, best: Row, needs: seq<string>)
    requires DecideRanked(current, best, i, needs).code == "switch.faster"
    ensures i.at - i.lastSwitch >= i.policy.dwell && i.switchesHour < i.policy.maxPerHour && i.policy.improve
    ensures current.Some? && best.excluded.None? ==>
      current.value.score - best.score >= Need(current.value.score, i.policy) && best.tier >= current.value.tier
  {}

  lemma DecideKeepsBounds(lib: Library, i: Input)
    ensures Decide(lib, i).code == "switch.faster" ==>
      i.at - i.lastSwitch >= i.policy.dwell && i.switchesHour < i.policy.maxPerHour
  {
    if Decide(lib, i).code == "switch.faster" {
      var rows := Rank(lib, i);
      var needs := PendingNeeds(rows, Best(rows), |i.policy.tiers|);
      DecideOverKeepsBounds(rows, i, needs);
    }
  }

  lemma {:induction false} DecideOverKeepsBounds(rows: seq<Row>, i: Input, needs: seq<string>)
    requires DecideOver(rows, i).code == "switch.faster"
    requires needs == PendingNeeds(rows, Best(rows), |i.policy.tiers|)
    ensures i.at - i.lastSwitch >= i.policy.dwell && i.switchesHour < i.policy.maxPerHour
  {
    var all := if i.mode.Pinned? then needs + [i.mode.pin] else needs;
    if Best(rows).Some? && DecideRanked(ByName(rows, i.now), Best(rows).value, i, all).code == "switch.faster" {
      FasterKeepsBounds(i, ByName(rows, i.now), Best(rows).value, all);
    }
  }

  lemma RecordedIsSound(rec: Record, entry: Applied)
    requires Sound(rec) && Bounded(rec.log) && rec.lastSwitch <= entry.at && Meets(entry, rec.log)
    ensures Sound(Recorded(rec, entry)) && Bounded(Recorded(rec, entry).log)
  {
    CountIsTrue(rec, entry.at);
    LogGrows(rec.log, entry);
    AfterSplits(Times(rec.log), [entry.at], entry.at - HOUR);
  }

  lemma MeetsFrom(rec: Record, d: Decision, r: Round, i: Input)
    requires Sound(rec) && rec.lastSwitch <= r.input.at && i == Given(rec, r)
    requires d.code == "switch.faster" ==> i.at - i.lastSwitch >= i.policy.dwell && i.switchesHour < i.policy.maxPerHour
    ensures Meets(EntryOf(d, r), rec.log)
  {
    CountIsTrue(rec, r.input.at);
  }

  lemma DecidedMeets(lib: Library, rec: Record, r: Round, i: Input)
    requires Sound(rec) && rec.lastSwitch <= r.input.at && i == Given(rec, r)
    ensures Meets(EntryOf(Decide(lib, i), r), rec.log)
  {
    DecideKeepsBounds(lib, i);
    MeetsFrom(rec, Decide(lib, i), r, i);
  }

  lemma SettledIsSound(lib: Library, rec: Record, r: Round)
    requires Sound(rec) && Bounded(rec.log) && rec.lastSwitch <= r.input.at
    ensures Sound(Settled(lib, rec, r)) && Bounded(Settled(lib, rec, r).log)
    ensures Settled(lib, rec, r).lastSwitch <= r.input.at
  {
    var d := Decided(lib, rec, r);
    DecidedMeets(lib, rec, r, Given(rec, r));
    if Carried(d, r) { RecordedIsSound(rec, EntryOf(d, r)); }
  }

  lemma LogGrows(log: seq<Applied>, entry: Applied)
    ensures (log + [entry])[..|log|] == log
    ensures Times(log + [entry]) == Times(log) + [entry.at]
  {}

  lemma {:induction false} RunIsSound(lib: Library, rec: Record, rounds: seq<Round>)
    requires Sound(rec) && Bounded(rec.log) && InOrder(rec.lastSwitch, rounds)
    ensures Sound(Run(lib, rec, rounds)) && Bounded(Run(lib, rec, rounds).log)
    decreases |rounds|
  {
    if rounds != [] {
      SettledIsSound(lib, rec, rounds[0]);
      LaterInOrder(Settled(lib, rec, rounds[0]).lastSwitch, rounds[0].input.at, rounds[1..]);
      RunIsSound(lib, Settled(lib, rec, rounds[0]), rounds[1..]);
    }
  }

  lemma LaterInOrder(from: Time, later: Time, rounds: seq<Round>)
    requires from <= later && InOrder(later, rounds)
    ensures InOrder(from, rounds)
  {}

  // ---- the bounds over whole runs ----

  /** Over any run from a fresh record, whatever the policies, evidence, picks and
      failures of each round: every switch for being faster comes at least Dwell
      after the group's previous switch of any kind, with fewer than MaxPerHour
      switches in the hour before it, and the record always counts the true
      number of switches in the last hour. */
  lemma FasterIsRare(lib: Library, rounds: seq<Round>)
    requires InOrder(0, rounds)
    ensures Bounded(Run(lib, FRESH, rounds).log)
    ensures forall at :: Run(lib, FRESH, rounds).lastSwitch <= at ==> CountsTruly(Run(lib, FRESH, rounds), at)
  {
    RunIsSound(lib, FRESH, rounds);
    SoundCounts(Run(lib, FRESH, rounds));
  }

  lemma SoundCounts(rec: Record)
    requires Sound(rec)
    ensures forall at :: rec.lastSwitch <= at ==> CountsTruly(rec, at)
  {
    forall at | rec.lastSwitch <= at ensures CountsTruly(rec, at) { CountIsTrue(rec, at); }
  }

  /** How many switches for being faster the log holds in (from, from + HOUR]. */
  function FasterIn(log: seq<Applied>, from: Time): nat {
    if log == [] then 0
    else
      var last := log[|log| - 1];
      (if last.code == "switch.faster" && from < last.at <= from + HOUR then 1 else 0) + FasterIn(log[..|log| - 1], from)
  }

  lemma {:induction false} FasterAreSwitches(log: seq<Applied>, from: Time, cutoff: Time)
    requires cutoff <= from
    ensures FasterIn(log, from) <= |After(Times(log), cutoff)|
    decreases |log|
  {
    if log != [] {
      var n := |log| - 1;
      FasterAreSwitches(log[..n], from, cutoff);
      AfterSplits(Times(log[..n]), [log[n].at], cutoff);
    }
  }

  lemma {:induction false} WindowIsBounded(log: seq<Applied>, from: Time, limit: nat)
    requires Bounded(log) && Limited(log, limit)
    ensures FasterIn(log, from) <= limit
    decreases |log|
  {
    if log != [] {
      var n := |log| - 1;
      var last := log[n];
      var before := log[..n];
      if last.code == "switch.faster" && from < last.at <= from + HOUR {
        FasterAreSwitches(before, from, last.at - HOUR);
      } else {
        WindowIsBounded(before, from, limit);
      }
    }
  }

  predicate Limited(log: seq<Applied>, limit: int) { forall k :: 0 <= k < |log| ==> log[k].maxPerHour == limit }

  lemma CarryKeepsLimit(rec: Record, d: Decision, r: Round, limit: int)
    requires Limited(rec.log, limit) && r.input.policy.maxPerHour == limit
    ensures Limited(Carry(rec, d, r).log, limit)
  {}

  lemma {:induction false} LimitsAreTheRounds(lib: Library, rec: Record, rounds: seq<Round>, limit: int)
    requires forall k :: 0 <= k < |rounds| ==> rounds[k].input.policy.maxPerHour == limit
    requires Limited(rec.log, limit)
    ensures Limited(Run(lib, rec, rounds).log, limit)
    decreases |rounds|
  {
    if rounds != [] {
      CarryKeepsLimit(rec, Decided(lib, rec, rounds[0]), rounds[0], limit);
      LimitsAreTheRounds(lib, Settled(lib, rec, rounds[0]), rounds[1..], limit);
    }
  }

  /** While the policy's limit stays the same, no hour-long window, wherever it
      starts, holds more than MaxPerHour switches for being faster. */
  lemma NoHourHoldsMore(lib: Library, rounds: seq<Round>, limit: nat, from: Time)
    requires InOrder(0, rounds) && forall k :: 0 <= k < |rounds| ==> rounds[k].input.policy.maxPerHour == limit
    ensures FasterIn(Run(lib, FRESH, rounds).log, from) <= limit
  {
    FasterIsRare(lib, rounds);
    LimitsAreTheRounds(lib, FRESH, rounds, limit);
    WindowIsBounded(Run(lib, FRESH, rounds).log, from, limit);
  }
}
