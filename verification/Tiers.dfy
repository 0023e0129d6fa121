/** The order in which a compiled policy tries its tiers. */
module Tiers {
  import opened Basics
  import opened Text
  import opened Cond
  import opened Deciding

  /** A preference of a profile. */
  datatype Step = Step(tier: Tier, lastResort: bool)

  /** The comparison compileProfile sorts with. */
  predicate Earlier(a: Step, b: Step) { !a.lastResort && b.lastResort }

  function PlaceStep(step: Step, steps: seq<Step>): seq<Step> {
    if steps == [] || !Earlier(steps[0], step) then [step] + steps
    else [steps[0]] + PlaceStep(step, steps[1..])
  }

  /** slices.SortStableFunc over it. */
  function SortSteps(steps: seq<Step>): seq<Step> {
    if steps == [] then [] else PlaceStep(steps[0], SortSteps(steps[1..]))
  }

  function TiersOf(steps: seq<Step>): (tiers: seq<Tier>)
    ensures |tiers| == |steps|
  {
    if steps == [] then [] else [steps[0].tier] + TiersOf(steps[1..])
  }

  /** The steps of one class, in order. */
  function Only(steps: seq<Step>, lastResort: bool): (some: seq<Step>)
    ensures forall k :: 0 <= k < |some| ==> some[k].lastResort == lastResort
  {
    if steps == [] then []
    else (if steps[0].lastResort == lastResort then [steps[0]] else []) + Only(steps[1..], lastResort)
  }

  lemma {:induction false} PlacedAmong(step: Step, firsts: seq<Step>, lasts: seq<Step>)
    requires forall k :: 0 <= k < |firsts| ==> !firsts[k].lastResort
    requires forall k :: 0 <= k < |lasts| ==> lasts[k].lastResort
    ensures PlaceStep(step, firsts + lasts) == if step.lastResort then firsts + [step] + lasts else [step] + firsts + lasts
    decreases |firsts|
  {
    var all := firsts + lasts;
    if firsts == [] {
      assert all == lasts;
    } else if step.lastResort {
      assert all[0] == firsts[0] && all[1..] == firsts[1..] + lasts;
      PlacedAmong(step, firsts[1..], lasts);
      assert [firsts[0]] + (firsts[1..] + [step] + lasts) == firsts + [step] + lasts;
    } else {
      assert all[0] == firsts[0];
      Assoc([step], firsts, lasts);
    }
  }

  /** Sorting puts the last resorts behind the others and keeps the profile's order in each class. */
  lemma {:induction false} SortedByClass(steps: seq<Step>)
    ensures SortSteps(steps) == Only(steps, false) + Only(steps, true)
    decreases |steps|
  {
    if steps != [] {
      var firsts, lasts := Only(steps[1..], false), Only(steps[1..], true);
      SortedByClass(steps[1..]);
      PlacedAmong(steps[0], firsts, lasts);
      if steps[0].lastResort {
        Assoc(firsts, [steps[0]], lasts);
        assert Only(steps, false) == [] + firsts == firsts;
      } else {
        assert Only(steps, true) == [] + lasts == lasts;
      }
    }
  }

  /** The first step that holds. */
  function FirstHolding(lib: Library, steps: seq<Step>, s: Subject): Option<Step> {
    if steps == [] then None
    else if Test(lib, steps[0].tier.rule, s) == Yes then Some(steps[0])
    else FirstHolding(lib, steps[1..], s)
  }

  lemma {:induction false} HoldingJoins(lib: Library, a: seq<Step>, b: seq<Step>, s: Subject)
    ensures FirstHolding(lib, a + b, s) == match FirstHolding(lib, a, s)
      case Some(x) => Some(x)
      case None => FirstHolding(lib, b, s)
    decreases |a|
  {
    if a == [] {
      assert a + b == b;
    } else {
      assert (a + b)[0] == a[0] && (a + b)[1..] == a[1..] + b;
      HoldingJoins(lib, a[1..], b, s);
    }
  }

  /** The tier rank finds is that of the first step that holds. */
  lemma {:induction false} TierIsFirst(lib: Library, steps: seq<Step>, k: nat, s: Subject)
    requires k <= |steps|
    ensures var tier := TierFrom(lib, TiersOf(steps), k, s).0;
      FirstHolding(lib, steps[k..], s) == if tier < 0 then None else Some(steps[tier])
    decreases |steps| - k
  {
    if k < |steps| {
      TierAt(steps, k);
      assert steps[k..][1..] == steps[k + 1..];
      TierIsFirst(lib, steps, k + 1, s);
    }
  }

  lemma {:induction false} TierAt(steps: seq<Step>, k: nat)
    requires k < |steps|
    ensures TiersOf(steps)[k] == steps[k].tier
    decreases |steps|
  {
    if k > 0 { TierAt(steps[1..], k - 1); }
  }

  /** A last resort yields to every other step, wherever the profile lists it: a
      node's tier is that of the first other step that holds of it, and only when
      none does that of the first last resort that holds. */
  lemma LastResortYields(lib: Library, steps: seq<Step>, s: Subject)
    ensures var sorted := SortSteps(steps);
      var tier := TierFrom(lib, TiersOf(sorted), 0, s).0;
      (if tier < 0 then None else Some(sorted[tier])) ==
        match FirstHolding(lib, Only(steps, false), s)
        case Some(x) => Some(x)
        case None => FirstHolding(lib, Only(steps, true), s)
  {
    var sorted := SortSteps(steps);
    SortedByClass(steps);
    HoldingJoins(lib, Only(steps, false), Only(steps, true), s);
    TierIsFirst(lib, sorted, 0, s);
    assert sorted[0..] == sorted;
  }
}
