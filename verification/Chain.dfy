/** The chain of profiles one extends another, and what its layers resolve to. */
module Chain {
  import opened Basics
  import opened Text
  import opened Cond
  import opened Parser
  import opened Pool
  import opened Layers

  const MAX_EXTENDS_DEPTH := 4
  const SUBSCRIPTION_SOURCE := "provider"

  /** A library entry: one that did not parse, or a profile, what it extends and
      all else it holds. */
  datatype Entry<L> = Broken | Profile(base: string, layer: L)

  type Shelf<L> = map<string, Entry<L>>

  function CanonicalId(id: string): string {
    var trimmed := TrimSpace(id);
    if trimmed == "" || '/' in trimmed then trimmed else SUBSCRIPTION_SOURCE + "/" + trimmed
  }

  predicate IsProfile<L>(shelf: Shelf<L>, name: string) { name in shelf && shelf[name].Profile? }

  function Next<L>(shelf: Shelf<L>, name: string): string
    requires IsProfile(shelf, name)
  {
    CanonicalId(shelf[name].base)
  }

  /** chain, with the names gone through so far. */
  function From<L>(shelf: Shelf<L>, current: string, seen: seq<string>): Option<seq<string>>
    decreases MAX_EXTENDS_DEPTH + 1 - |seen|
  {
    if current == "" then Some(seen)
    else if current in seen || |seen| > MAX_EXTENDS_DEPTH || !IsProfile(shelf, current) then None
    else From(shelf, Next(shelf, current), seen + [current])
  }

  /** The loop of chain. */
  method ChainOf<L>(shelf: Shelf<L>, id: string) returns (chain: Option<seq<string>>)
    ensures chain == From(shelf, CanonicalId(id), [])
  {
    var names: seq<string> := [];
    var seen: set<string> := {};
    var current := CanonicalId(id);
    while current != ""
      invariant seen == (set n | n in names) && |names| <= MAX_EXTENDS_DEPTH + 1
      invariant From(shelf, current, names) == From(shelf, CanonicalId(id), [])
      decreases MAX_EXTENDS_DEPTH + 1 - |names|
    {
      if current in seen { return None; }
      if |names| > MAX_EXTENDS_DEPTH { return None; }
      seen := seen + {current};
      if current !in shelf || shelf[current].Broken? { return None; }
      names := names + [current];
      current := CanonicalId(shelf[current].base);
    }
    chain := Some(names);
  }

  /** Every name is a profile, each extends the next, the last extends nothing. */
  predicate Linked<L>(shelf: Shelf<L>, id: string, chain: seq<string>)
    decreases |chain|
  {
    if chain == [] then id == ""
    else chain[0] == id && id != "" && IsProfile(shelf, id) && Linked(shelf, Next(shelf, id), chain[1..])
  }

  predicate Distinct(names: seq<string>) { forall i, j :: 0 <= i < j < |names| ==> names[i] != names[j] }

  lemma DistinctGrows(names: seq<string>, name: string)
    requires Distinct(names)
    ensures Distinct(names + [name]) <==> name !in names
  {
    var all := names + [name];
    assert all[|names|] == name;
    forall i | 0 <= i < |names| ensures all[i] == names[i] {}
  }

  lemma DistinctStart(names: seq<string>, more: seq<string>)
    requires Distinct(names + more)
    ensures Distinct(names)
  {
    assert forall i :: 0 <= i < |names| ==> (names + more)[i] == names[i];
  }

  lemma {:induction false} FromIsLinked<L>(shelf: Shelf<L>, current: string, seen: seq<string>, rest: seq<string>)
    requires Distinct(seen) && |seen| <= MAX_EXTENDS_DEPTH + 1
    ensures From(shelf, current, seen) == Some(seen + rest) <==>
      Linked(shelf, current, rest) && Distinct(seen + rest) && |seen + rest| <= MAX_EXTENDS_DEPTH + 1
    decreases MAX_EXTENDS_DEPTH + 1 - |seen|
  {
    if current == "" {
      if rest == [] { assert seen + rest == seen; } else { assert |seen + rest| > |seen|; }
    } else if rest == [] {
      FromGrows(shelf, current, seen);
      assert seen + rest == seen;
    } else if rest[0] == current {
      var more := seen + [current];
      DistinctGrows(seen, current);
      Assoc(seen, [current], rest[1..]);
      assert [current] + rest[1..] == rest;
      if current !in seen && |seen| <= MAX_EXTENDS_DEPTH && IsProfile(shelf, current) {
        FromIsLinked(shelf, Next(shelf, current), more, rest[1..]);
      } else if current in seen {
        if Distinct(seen + rest) { DistinctStart(more, rest[1..]); }
      }
    } else {
      FromGrows(shelf, current, seen);
      assert (seen + rest)[|seen|] == rest[0];
    }
  }

  /** What the loop finds goes through the current name. */
  lemma {:induction false} FromGrows<L>(shelf: Shelf<L>, current: string, seen: seq<string>)
    ensures match From(shelf, current, seen)
      case None => true
      case Some(chain) =>
        if current == "" then chain == seen
        else |chain| > |seen| && chain[..|seen|] == seen && chain[|seen|] == current
    decreases MAX_EXTENDS_DEPTH + 1 - |seen|
  {
    if current != "" && From(shelf, current, seen).Some? {
      var more := seen + [current];
      FromGrows(shelf, Next(shelf, current), more);
      var chain := From(shelf, current, seen).value;
      assert chain[..|more|] == more;
      assert chain[..|seen|] == chain[..|more|][..|seen|] && chain[|seen|] == chain[..|more|][|seen|];
    }
  }

  /** The chain of an id is found if and only if following what each profile
      extends reaches one that extends nothing, meets no profile twice and goes
      through at most five; and then it is that one chain. */
  lemma ChainIsFound<L>(shelf: Shelf<L>, id: string, chain: seq<string>)
    ensures From(shelf, CanonicalId(id), []) == Some(chain) <==>
      Linked(shelf, CanonicalId(id), chain) && Distinct(chain) && |chain| <= MAX_EXTENDS_DEPTH + 1
  {
    FromIsLinked(shelf, CanonicalId(id), [], chain);
    assert [] + chain == chain;
  }

  // ---- the look for cycles ----

  /** The chain of a profile, without the look for cycles. */
  function Trace<L>(shelf: Shelf<L>, id: string, n: nat): Option<seq<string>>
    decreases n
  {
    if id == "" then Some([])
    else if n == 0 || !IsProfile(shelf, id) then None
    else match Trace(shelf, Next(shelf, id), n - 1)
      case None => None
      case Some(rest) => Some([id] + rest)
  }

  lemma {:induction false} TraceIsLinked<L>(shelf: Shelf<L>, id: string, n: nat, chain: seq<string>)
    ensures Trace(shelf, id, n) == Some(chain) <==> Linked(shelf, id, chain) && |chain| <= n
    decreases n
  {
    if id != "" && chain != [] && n > 0 && IsProfile(shelf, id) {
      TraceIsLinked(shelf, Next(shelf, id), n - 1, chain[1..]);
      assert chain == [chain[0]] + chain[1..];
    }
  }

  lemma {:induction false} LinkedIsOne<L>(shelf: Shelf<L>, id: string, a: seq<string>, b: seq<string>)
    requires Linked(shelf, id, a) && Linked(shelf, id, b)
    ensures a == b
    decreases |a|
  {
    if a != [] {
      LinkedIsOne(shelf, Next(shelf, id), a[1..], b[1..]);
      assert a == [a[0]] + a[1..] && b == [b[0]] + b[1..];
    }
  }

  lemma {:induction false} LinkedFrom<L>(shelf: Shelf<L>, id: string, chain: seq<string>, k: nat)
    requires Linked(shelf, id, chain) && k < |chain|
    ensures Linked(shelf, chain[k], chain[k..])
    decreases |chain|
  {
    if k > 0 {
      LinkedFrom(shelf, Next(shelf, id), chain[1..], k - 1);
      assert chain[1..][k - 1..] == chain[k..];
    } else {
      assert chain[0..] == chain;
    }
  }

  /** What ends does not come round. */
  lemma LinkedIsDistinct<L>(shelf: Shelf<L>, id: string, chain: seq<string>)
    requires Linked(shelf, id, chain)
    ensures Distinct(chain)
  {
    forall i, j | 0 <= i < j < |chain| ensures chain[i] != chain[j] {
      LinkedFrom(shelf, id, chain, i);
      LinkedFrom(shelf, id, chain, j);
      if chain[i] == chain[j] { LinkedIsOne(shelf, chain[i], chain[i..], chain[j..]); }
    }
  }

  /** A chain that comes round is too long in any case: with the bound on its
      length, looking for cycles decides nothing. */
  lemma CyclesAreTooLong<L>(shelf: Shelf<L>, id: string)
    ensures From(shelf, CanonicalId(id), []) == Trace(shelf, CanonicalId(id), MAX_EXTENDS_DEPTH + 1)
  {
    var canon := CanonicalId(id);
    var n := MAX_EXTENDS_DEPTH + 1;
    if From(shelf, canon, []).Some? {
      var chain := From(shelf, canon, []).value;
      ChainIsFound(shelf, id, chain);
      TraceIsLinked(shelf, canon, n, chain);
    } else if Trace(shelf, canon, n).Some? {
      var chain := Trace(shelf, canon, n).value;
      TraceIsLinked(shelf, canon, n, chain);
      LinkedIsDistinct(shelf, canon, chain);
      ChainIsFound(shelf, id, chain);
    }
  }

  // ---- the layers of a chain ----

  /** The layers of a chain, base first. */
  function LayersOf<L>(shelf: Shelf<L>, chain: seq<string>): seq<L> {
    if chain == [] then []
    else LayersOf(shelf, chain[1..]) + (if IsProfile(shelf, chain[0]) then [shelf[chain[0]].layer] else [])
  }

  lemma LayersSplit<L>(shelf: Shelf<L>, chain: seq<string>)
    requires chain != [] && IsProfile(shelf, chain[0])
    ensures var layers := LayersOf(shelf, chain);
      layers != [] && layers[..|layers| - 1] == LayersOf(shelf, chain[1..]) && layers[|layers| - 1] == shelf[chain[0]].layer
  {}

  /** The layers along the chain of a profile that takes at most n steps. */
  function Traced<L>(shelf: Shelf<L>, id: string, n: nat): Option<seq<L>> {
    match Trace(shelf, id, n)
    case None => None
    case Some(chain) => Some(LayersOf(shelf, chain))
  }

  lemma TracedStep<L>(shelf: Shelf<L>, id: string, n: nat)
    requires id != "" && n > 0 && IsProfile(shelf, id)
    ensures Traced(shelf, id, n) == match Traced(shelf, Next(shelf, id), n - 1)
      case None => None
      case Some(layers) => Some(layers + [shelf[id].layer])
  {
    if Trace(shelf, id, n).Some? {
      var rest := Trace(shelf, Next(shelf, id), n - 1).value;
      assert ([id] + rest)[1..] == rest;
    }
  }

  /** Two profiles that hold the same and extend what is traced alike are traced alike. */
  lemma TracedAlike<L>(here: Shelf<L>, c: string, away: Shelf<L>, d: string, n: nat)
    requires c != "" && d != "" && n > 0 && IsProfile(here, c) == IsProfile(away, d)
    requires IsProfile(here, c) ==> away[d].layer == here[c].layer
    requires IsProfile(here, c) ==> Traced(away, Next(away, d), n - 1) == Traced(here, Next(here, c), n - 1)
    ensures Traced(away, d, n) == Traced(here, c, n)
  {
    if IsProfile(here, c) {
      TracedStep(here, c, n);
      TracedStep(away, d, n);
    }
  }

  /** The loop of Resolve, from the base to the profile itself. */
  method ResolveChain(shelf: Shelf<Layer>, chain: seq<string>) returns (merged: Layer)
    requires forall k :: 0 <= k < |chain| ==> IsProfile(shelf, chain[k])
    ensures merged == Merged(LayersOf(shelf, chain))
  {
    merged := NO_LAYER;
    var i := |chain|;
    while i > 0
      invariant 0 <= i <= |chain|
      invariant merged == Merged(LayersOf(shelf, chain[i..]))
    {
      i := i - 1;
      assert chain[i..][1..] == chain[i + 1..];
      LayersSplit(shelf, chain[i..]);
      merged := MergeLayer(merged, shelf[chain[i]].layer);
    }
    assert chain[i..] == chain;
  }

  lemma {:induction false} LinkedAreProfiles<L>(shelf: Shelf<L>, id: string, chain: seq<string>)
    requires Linked(shelf, id, chain)
    ensures forall k :: 0 <= k < |chain| ==> IsProfile(shelf, chain[k])
    decreases |chain|
  {
    if chain != [] {
      LinkedAreProfiles(shelf, Next(shelf, id), chain[1..]);
      assert forall k :: 1 <= k < |chain| ==> chain[k] == chain[1..][k - 1];
    }
  }

  /** The profile and every one it extends, as far as a pool can tell. */
  predicate ChainCompiles(lib: Library, shelf: Shelf<Layer>, chain: seq<string>) {
    var layers := LayersOf(shelf, chain);
    EachCompiles(lib, layers) && Compiles(GrammarOf(lib, Merged(layers)), Merged(layers).pool)
  }

  predicate ResolvedAdmits(lib: Library, shelf: Shelf<Layer>, chain: seq<string>, s: Subject)
    requires ChainCompiles(lib, shelf, chain)
  {
    var whole := Merged(LayersOf(shelf, chain));
    Admits(GrammarOf(lib, whole), whole.pool, Seen(lib, whole, s))
  }

  /** What is dropped of a chain from its end is what its profile extends. */
  lemma {:induction false} BaseIsBehind<L>(shelf: Shelf<L>, id: string, chain: seq<string>, k: nat)
    requires Linked(shelf, id, chain) && k < |chain|
    ensures |LayersOf(shelf, chain)| == |chain| && LayersOf(shelf, chain[k..]) == LayersOf(shelf, chain)[..|chain| - k]
    decreases |chain|
  {
    LayersSplit(shelf, chain);
    if k == 0 {
      assert chain[0..] == chain;
      if |chain| > 1 { BaseIsBehind(shelf, Next(shelf, id), chain[1..], 0); }
    } else {
      BaseIsBehind(shelf, Next(shelf, id), chain[1..], k - 1);
      assert chain[1..][k - 1..] == chain[k..];
      assert LayersOf(shelf, chain)[..|chain| - 1][..|chain| - k] == LayersOf(shelf, chain)[..|chain| - k];
    }
  }

  /** While none redefines a tag that the pool of one it extends reads, a profile
      never admits what one it extends keeps out: its resolved pool admits a node,
      whatever the verdicts of its checks are, just when each pool of the chain does
      under the tags of its own profile, and then so does the resolved pool of
      every profile further along the chain. */
  lemma ExtendingOnlyNarrows(lib: Library, shelf: Shelf<Layer>, id: string, chain: seq<string>, s: Subject, k: nat)
    requires lib.Valid() && From(shelf, CanonicalId(id), []) == Some(chain) && k < |chain|
    requires ChainCompiles(lib, shelf, chain) && ChainCompiles(lib, shelf, chain[k..])
    requires Untouched(lib, LayersOf(shelf, chain))
    ensures ResolvedAdmits(lib, shelf, chain, s) <==> EachAdmits(lib, LayersOf(shelf, chain), s)
    ensures ResolvedAdmits(lib, shelf, chain, s) ==> ResolvedAdmits(lib, shelf, chain[k..], s)
  {
    ChainIsFound(shelf, id, chain);
    BaseIsBehind(shelf, CanonicalId(id), chain, k);
    MergingOnlyNarrows(lib, LayersOf(shelf, chain), s);
    LaterNeverWiden(lib, LayersOf(shelf, chain), |chain| - k, s);
  }
}
