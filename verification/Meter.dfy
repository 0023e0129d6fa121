/** The speed test's meter: bytes counted in bins of a tenth of a second. Times
    are nanoseconds; the share of a bin is any rounding at all. */
module Meter {
  import opened Basics

  const INTERVAL := 100_000_000
  const LONGEST := 30_000_000_000

  datatype Sample = Sample(at: int, bytes: int)

  function Sum(bins: seq<int>): int { if bins == [] then 0 else Sum(bins[..|bins| - 1]) + bins[|bins| - 1] }

  function Clamped(duration: int): (d: int)
    ensures 1 <= d <= LONGEST
  {
    Min(Max(duration, 1), LONGEST)
  }

  lemma {:induction false} SumChanges(bins: seq<int>, k: nat, more: int)
    requires k < |bins|
    ensures Sum(bins[k := bins[k] + more]) == Sum(bins) + more
    decreases |bins|
  {
    var n := |bins| - 1;
    var after := bins[k := bins[k] + more];
    if k < n {
      SumChanges(bins[..n], k, more);
      assert after[..n] == bins[..n][k := bins[k] + more];
    } else {
      assert after[..n] == bins[..n];
    }
  }

  lemma {:induction false} SumGrows(bins: seq<int>, k: nat)
    requires k < |bins|
    ensures Sum(bins[..k + 1]) == Sum(bins[..k]) + bins[k]
  {
    assert bins[..k + 1][..k] == bins[..k];
  }

  lemma {:induction false} SumOrder(bins: seq<int>, j: nat, k: nat)
    requires j <= k <= |bins| && forall i :: 0 <= i < |bins| ==> bins[i] >= 0
    ensures Sum(bins[..j]) <= Sum(bins[..k])
    decreases k
  {
    if j < k {
      SumOrder(bins, j, k - 1);
      SumGrows(bins, k - 1);
    }
  }

  /** The samples for a moment within the test: one at the end of each bin begun
      before it, cut at the moment itself. */
  ghost predicate Sampled(samples: seq<Sample>, bins: seq<int>, elapsed: int)
    requires 1 <= elapsed && elapsed / INTERVAL < |bins|
  {
    var last := |samples| - 1;
    && last >= 1 && samples[0] == Sample(0, 0)
    && samples[last] == Sample(elapsed, Sum(bins[..elapsed / INTERVAL + 1]))
    && (last - 1) * INTERVAL < elapsed <= last * INTERVAL
    && forall k :: 1 <= k < last ==> samples[k] == Sample(k * INTERVAL, Sum(bins[..k]))
  }

  /** Strictly later, never fewer bytes. */
  predicate Rising(samples: seq<Sample>) {
    forall j, k :: 0 <= j < k < |samples| ==> samples[j].at < samples[k].at && samples[j].bytes <= samples[k].bytes
  }

  lemma SampledRises(samples: seq<Sample>, bins: seq<int>, elapsed: int)
    requires 1 <= elapsed && elapsed / INTERVAL < |bins| && Sampled(samples, bins, elapsed)
    requires forall i :: 0 <= i < |bins| ==> bins[i] >= 0
    ensures Rising(samples)
  {
    var last := |samples| - 1;
    forall j, k | 0 <= j < k < |samples| ensures samples[j].at < samples[k].at && samples[j].bytes <= samples[k].bytes {
      SumOrder(bins, j, if k < last then k else elapsed / INTERVAL + 1);
      assert Sum(bins[..0]) == 0;
    }
  }

  class SpeedTestMeter {
    const duration: int
    const bins: array<int>
    var frozen: bool
    ghost var accepted: int

    constructor (duration: int)
      ensures Valid() && fresh(bins) && accepted == 0 && !frozen && this.duration == Clamped(duration)
    {
      var d := Clamped(duration);
      this.duration := d;
      bins := new int[d / INTERVAL + 1](_ => 0);
      frozen, accepted := false, 0;
      new;
      EmptySums(bins[..]);
    }

    /** One bin for every instant of the test, and together they hold the bytes accepted. */
    ghost predicate Valid()
      reads this, bins
    {
      && 1 <= duration <= LONGEST && bins.Length == duration / INTERVAL + 1
      && (forall k :: 0 <= k < bins.Length ==> bins[k] >= 0)
      && Sum(bins[..]) == accepted
    }

    method Put(index: nat, bytes: int)
      requires Valid() && index < bins.Length && bytes >= 0
      modifies this`accepted, bins
      ensures Valid() && accepted == old(accepted) + bytes
      ensures bins[..] == old(bins[..])[index := old(bins[index]) + bytes]
    {
      ghost var before := bins[..];
      bins[index] := bins[index] + bytes;
      accepted := accepted + bytes;
      SumChanges(before, index, bytes);
      assert bins[..] == before[index := before[index] + bytes];
    }

    method Add(at: int, bytes: int)
      requires Valid()
      modifies this`accepted, bins
      ensures Valid()
      ensures var taken := !frozen && 0 <= at <= duration && bytes > 0;
        && accepted == old(accepted) + (if taken then bytes else 0)
        && bins[..] == if taken then old(bins[..])[at / INTERVAL := old(bins[..])[at / INTERVAL] + bytes] else old(bins[..])
    {
      if !frozen && at >= 0 && at <= duration && bytes > 0 {
        InBounds(at, duration);
        Put(at / INTERVAL, bytes);
      }
    }

    /** Bytes known at the end of a request are spread over it: whatever each
        share is rounded to, all of them and no more are added, within its span. */
    method Confirm(start: int, end: int, bytes: int, rounded: int -> int)
      requires Valid() && forall k :: rounded(k) >= 0
      modifies this`accepted, bins
      ensures Valid()
      ensures var taken := !frozen && 0 <= start <= end <= duration && bytes > 0;
        && accepted == old(accepted) + (if taken then bytes else 0)
        && (!taken ==> bins[..] == old(bins[..]))
      ensures forall k :: 0 <= k < bins.Length && (k < start / INTERVAL || end / INTERVAL < k) ==> bins[k] == old(bins[k])
      ensures forall k :: 0 <= k < bins.Length ==> bins[k] >= old(bins[k])
    {
      if frozen || start < 0 || end > duration || end < start || bytes <= 0 { return; }
      InBounds(end, duration);
      if end == start {
        Put(end / INTERVAL, bytes);
        return;
      }
      var remaining := bytes;
      var index := start / INTERVAL;
      BeforeEnd(start, end);
      while index * INTERVAL < end
        invariant Valid() && start / INTERVAL <= index <= end / INTERVAL + 1
        invariant accepted + remaining == old(accepted) + bytes && remaining >= 0
        invariant index * INTERVAL >= end ==> remaining == 0
        invariant forall k :: 0 <= k < bins.Length && (k < start / INTERVAL || index <= k) ==> bins[k] == old(bins[k])
        invariant forall k :: 0 <= k < bins.Length ==> bins[k] >= old(bins[k])
        decreases end - index * INTERVAL
      {
        BeforeEnd(index * INTERVAL, end);
        var right := Min(end, (index + 1) * INTERVAL);
        var share := remaining;
        if right != end { share := Min(remaining, rounded(index)); }
        Put(index, share);
        remaining := remaining - share;
        index := index + 1;
      }
    }

    method Freeze()
      modifies this`frozen
      ensures frozen
    {
      frozen := true;
    }

    method Samples(moment: int) returns (samples: seq<Sample>)
      requires Valid()
      ensures var elapsed := Min(Max(moment, 1), duration);
        elapsed / INTERVAL < bins.Length && Sampled(samples, bins[..], elapsed) && Rising(samples)
      ensures moment >= duration ==> samples[|samples| - 1] == Sample(duration, accepted)
    {
      var elapsed := Min(Max(moment, 1), duration);
      InBounds(elapsed, duration);
      samples := [Sample(0, 0)];
      var total, index := 0, 0;
      while index < bins.Length
        invariant index <= bins.Length && total == Sum(bins[..index])
        invariant Partial(samples, bins[..], elapsed, index)
      {
        var left := index * INTERVAL;
        if left > elapsed { break; }
        SumGrows(bins[..], index);
        assert bins[..][..index + 1] == bins[..index + 1] && bins[..][..index] == bins[..index];
        total := total + bins[index];
        var at := Min(left + INTERVAL, elapsed);
        if at == samples[|samples| - 1].at {
          samples := samples[..|samples| - 1] + [Sample(at, total)];
        } else {
          samples := samples + [Sample(at, total)];
        }
        index := index + 1;
      }
      PartialIsWhole(samples, bins[..], elapsed, index);
      SampledRises(samples, bins[..], elapsed);
      assert bins[..][..bins.Length] == bins[..];
    }
  }

  lemma {:induction false} EmptySums(bins: seq<int>)
    requires forall k :: 0 <= k < |bins| ==> bins[k] == 0
    ensures Sum(bins) == 0
    decreases |bins|
  {
    if bins != [] { EmptySums(bins[..|bins| - 1]); }
  }

  lemma InBounds(at: int, duration: int)
    requires 0 <= at <= duration
    ensures 0 <= at / INTERVAL <= duration / INTERVAL
  {}

  lemma BeforeEnd(at: int, end: int)
    requires 0 <= at < end
    ensures 0 <= at / INTERVAL <= end / INTERVAL && at / INTERVAL * INTERVAL <= at
  {}

  /** The samples once the first bins have been gone through. */
  ghost predicate Partial(samples: seq<Sample>, bins: seq<int>, elapsed: int, index: nat)
    requires index <= |bins| && 1 <= elapsed
  {
    && samples != [] && samples[0] == Sample(0, 0)
    && (index * INTERVAL <= elapsed ==>
      |samples| == index + 1 && forall k :: 1 <= k <= index ==> samples[k] == Sample(k * INTERVAL, Sum(bins[..k])))
    && (index * INTERVAL > elapsed ==> (index - 1) * INTERVAL <= elapsed ==>
      elapsed / INTERVAL == index - 1 && elapsed / INTERVAL < |bins| && Sampled(samples, bins, elapsed))
    && (index > 0 ==> (index - 1) * INTERVAL <= elapsed)
  }

  lemma PartialIsWhole(samples: seq<Sample>, bins: seq<int>, elapsed: int, index: nat)
    requires index <= |bins| && 1 <= elapsed && elapsed / INTERVAL < |bins| && Partial(samples, bins, elapsed, index)
    requires index == |bins| || index * INTERVAL > elapsed
    ensures Sampled(samples, bins, elapsed)
  {}
}
