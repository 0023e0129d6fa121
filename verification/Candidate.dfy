/** Whether a proxy may be used under GLOBAL: a search through groups and dialer
    dependencies that must not meet itself. */
module Candidate {

  /** What a name stands for: a group of members, or a node, its own type and
      fingerprint allowed or not, that may dial through another proxy. */
  datatype Proxy = Group(members: seq<string>) | Node(allowed: bool, dialer: string)

  /** The proxies by name; a name without one looks up as nothing. */
  type Graph = map<string, Proxy>

  const DEEPEST := 64

  /** The search; seen holds the names on the path to here. */
  predicate Allowed(g: Graph, name: string, seen: set<string>)
    decreases DEEPEST - |seen|
  {
    if name !in g || name in seen || |seen| >= DEEPEST then false
    else
      match g[name]
      case Group(members) => members != [] && forall k :: 0 <= k < |members| ==> Allowed(g, members[k], seen + {name})
      case Node(allowed, dialer) => allowed && (dialer == "" || Allowed(g, dialer, seen + {name}))
  }

  // ---- the search as it runs ----

  /** The search's own map of names, entered and left again. */
  class Search {
    const g: Graph
    var seen: set<string>

    constructor (g: Graph)
      ensures this.g == g && seen == {}
    {
      this.g, seen := g, {};
    }

    method IsAllowed(name: string) returns (ok: bool)
      modifies this
      ensures ok == Allowed(g, name, old(seen)) && seen == old(seen)
      decreases DEEPEST - |seen|, 1
    {
      if name !in g || name in seen || |seen| >= DEEPEST { return false; }
      ghost var before := seen;
      seen := seen + {name};
      match g[name] {
        case Group(members) =>
          ok := |members| > 0;
          if ok { ok := AllAllowed(members); }
        case Node(allowed, dialer) =>
          ok := allowed;
          if ok && dialer != "" { ok := IsAllowed(dialer); }
      }
      seen := seen - {name};
      assert seen == before;
    }

    method AllAllowed(members: seq<string>) returns (ok: bool)
      modifies this
      ensures seen == old(seen)
      ensures ok <==> forall k :: 0 <= k < |members| ==> Allowed(g, members[k], old(seen))
      decreases DEEPEST - |seen|, 2
    {
      var i := 0;
      while i < |members|
        invariant i <= |members| && seen == old(seen)
        invariant forall k :: 0 <= k < i ==> Allowed(g, members[k], seen)
      {
        ok := IsAllowed(members[i]);
        if !ok { return; }
        i := i + 1;
      }
      ok := true;
    }
  }

  // ---- what it means ----

  predicate Edge(g: Graph, from: string, to: string) {
    from in g && match g[from] case Group(members) => to in members case Node(_, dialer) => dialer != "" && to == dialer
  }

  /** A walk from a name through members and dialers. */
  predicate Walk(g: Graph, name: string, rest: seq<string>)
    decreases |rest|
  {
    rest == [] || (Edge(g, name, rest[0]) && Walk(g, rest[0], rest[1..]))
  }

  /** Where a walk may stand: on a group with members or an allowed node. */
  predicate Standing(g: Graph, name: string) {
    name in g && match g[name] case Group(members) => members != [] case Node(allowed, _) => allowed
  }

  predicate Simple(path: seq<string>) { forall i, j :: 0 <= i < j < |path| ==> path[i] != path[j] }

  /** A path that does not meet itself, is no deeper than the cap, and stands. */
  predicate Fine(g: Graph, path: seq<string>) {
    path != [] && Simple(path) && |path| <= DEEPEST && Standing(g, path[|path| - 1])
  }

  function NamesOn(path: seq<string>): set<string> { set n | n in path }

  lemma {:induction false} SimpleCounts(path: seq<string>)
    requires Simple(path)
    ensures |NamesOn(path)| == |path|
    decreases |path|
  {
    if path != [] {
      var n := |path| - 1;
      SimpleCounts(path[..n]);
      assert NamesOn(path) == NamesOn(path[..n]) + {path[n]};
    }
  }

  lemma SimpleGrows(path: seq<string>, name: string)
    requires Simple(path)
    ensures Simple(path + [name]) <==> name !in NamesOn(path)
    ensures NamesOn(path + [name]) == NamesOn(path) + {name}
  {
    var all := path + [name];
    if name in path {
      var i :| 0 <= i < |path| && path[i] == name;
      assert all[i] == all[|path|];
    }
  }

  /** If the search allows it, every walk on from here is fine. */
  lemma {:induction false} AllowedWalksAreFine(g: Graph, path: seq<string>, name: string, rest: seq<string>)
    requires Simple(path) && Allowed(g, name, NamesOn(path)) && Walk(g, name, rest)
    ensures Fine(g, path + [name] + rest)
    decreases |rest|
  {
    SimpleCounts(path);
    SimpleGrows(path, name);
    if rest == [] {
      assert path + [name] + rest == path + [name];
    } else {
      AllowedWalksAreFine(g, path + [name], rest[0], rest[1..]);
      assert path + [name] + rest == path + [name] + [rest[0]] + rest[1..];
    }
  }

  /** If it does not, some walk on from here is not. */
  lemma {:induction false} RefusedHasABadWalk(g: Graph, path: seq<string>, name: string) returns (rest: seq<string>)
    requires Simple(path) && !Allowed(g, name, NamesOn(path))
    ensures Walk(g, name, rest) && !Fine(g, path + [name] + rest)
    decreases DEEPEST - |NamesOn(path)|
  {
    rest := [];
    SimpleCounts(path);
    SimpleGrows(path, name);
    assert path + [name] + [] == path + [name];
    if name in g && name !in NamesOn(path) && |path| < DEEPEST && Standing(g, name) {
      var next := Refused(g, name, NamesOn(path));
      rest := RefusedHasABadWalk(g, path + [name], next);
      assert path + [name] + [next] + rest == path + [name] + ([next] + rest);
      rest := [next] + rest;
    }
  }

  /** A standing name that is refused is refused for something it leads to. */
  lemma Refused(g: Graph, name: string, seen: set<string>) returns (next: string)
    requires Standing(g, name) && name !in seen && |seen| < DEEPEST && !Allowed(g, name, seen)
    ensures Edge(g, name, next) && !Allowed(g, next, seen + {name})
  {
    match g[name] {
      case Group(members) =>
        var k :| 0 <= k < |members| && !Allowed(g, members[k], seen + {name});
        next := members[k];
      case Node(_, dialer) => next := dialer;
    }
  }

  /** A proxy is a candidate exactly when every walk from it, through members of
      groups and dialers of nodes, meets no name twice, goes no deeper than 64,
      and stands everywhere on a group with members or an allowed node. */
  lemma CandidateMeansEveryWalkIsFine(g: Graph, name: string)
    ensures Allowed(g, name, {}) <==> forall rest :: Walk(g, name, rest) ==> Fine(g, [name] + rest)
  {
    assert NamesOn([]) == {};
    if Allowed(g, name, {}) {
      forall rest | Walk(g, name, rest) ensures Fine(g, [name] + rest) {
        AllowedWalksAreFine(g, [], name, rest);
        assert [] + [name] + rest == [name] + rest;
      }
    } else {
      var rest := RefusedHasABadWalk(g, [], name);
      assert [] + [name] + rest == [name] + rest;
    }
  }
}
