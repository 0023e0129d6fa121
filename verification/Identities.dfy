/** Recognising nodes across refreshes: by configuration, a unique endpoint, or a unique provider and name. */
module Identities {
  import opened Basics

  const MAX_IDENTITIES := 4096

  /** A key, with digests taken as injective: of a new node's parts, of a key
      that was taken, or anything an index may hold. */
  datatype Key = Fresh(strong: string, provider: string, name: string, server: string) | Rehash(of: Key) | Stored(text: string)

  datatype Identity = Identity(
    key: Key, strong: string, endpoint: string, name: string, provider: string, server: string, seenAt: int)

  datatype Node = Node(name: string, provider: string, strong: string, endpoint: string, server: string)

  datatype Match = ByStrong | ByEndpoint | ByName | New

  function Depth(key: Key): nat { match key case Rehash(of) => Depth(of) + 1 case _ => 0 }

  function FreshKey(node: Node): Key { Fresh(node.strong, node.provider, node.name, node.server) }

  /** The first key of the chain of rehashes that is not claimed. */
  function NextKey(claimed: set<Key>, key: Key): Key
    decreases |claimed|
  {
    if key !in claimed then key else NextKey(claimed - {key}, Rehash(key))
  }

  // ---- looking an entry up ----

  /** byStrong: the last entry with the fingerprint. */
  function StrongAt(entries: seq<Identity>, strong: string): (r: Option<nat>)
    ensures r.Some? ==> r.value < |entries| && entries[r.value].strong == strong
  {
    if entries == [] then None
    else if entries[|entries| - 1].strong == strong then Some(|entries| - 1)
    else StrongAt(entries[..|entries| - 1], strong)
  }

  /** byEndpoint: every entry with the endpoint, in order. */
  function SharingEndpoint(entries: seq<Identity>, endpoint: string): (r: seq<nat>)
    ensures forall k :: 0 <= k < |r| ==> r[k] < |entries|
  {
    if entries == [] then []
    else
      var n := |entries| - 1;
      SharingEndpoint(entries[..n], endpoint) + if entries[n].endpoint == endpoint then [n] else []
  }

  /** byName: every entry with the provider and name, in order. */
  function SharingName(entries: seq<Identity>, provider: string, name: string): (r: seq<nat>)
    ensures forall k :: 0 <= k < |r| ==> r[k] < |entries|
  {
    if entries == [] then []
    else
      var n := |entries| - 1;
      SharingName(entries[..n], provider, name) + if entries[n].provider == provider && entries[n].name == name then [n] else []
  }

  /** The candidates still unclaimed and, unless the server is unknown, on it. */
  function Open(entries: seq<Identity>, claimed: set<Key>, candidates: seq<nat>, server: string): (r: seq<nat>)
    requires forall k :: 0 <= k < |candidates| ==> candidates[k] < |entries|
    ensures forall k :: 0 <= k < |r| ==> r[k] < |entries| && entries[r[k]].key !in claimed
  {
    if candidates == [] then []
    else
      var c := candidates[0];
      (if entries[c].key in claimed || (server != "" && entries[c].server != server) then [] else [c])
      + Open(entries, claimed, candidates[1..], server)
  }

  function Unique(entries: seq<Identity>, claimed: set<Key>, candidates: seq<nat>, server: string): (r: Option<nat>)
    requires forall k :: 0 <= k < |candidates| ==> candidates[k] < |entries|
    ensures r.Some? ==> r.value < |entries| && entries[r.value].key !in claimed
  {
    var open := Open(entries, claimed, candidates, server);
    if |open| == 1 then Some(open[0]) else None
  }

  /** Which entry the node is, if any: the maps are of the index as it was, the
      keys and servers as they are now. */
  function Choose(before: seq<Identity>, entries: seq<Identity>, claimed: set<Key>,
      node: Node): (r: (Option<nat>, Match))
    requires |before| <= |entries|
    ensures r.0.Some? ==> r.0.value < |entries| && entries[r.0.value].key !in claimed
    ensures r.0.None? <==> r.1 == New
  {
    var strong := StrongAt(before, node.strong);
    if node.strong != "" && strong.Some? && entries[strong.value].key !in claimed then (strong, ByStrong)
    else
      var endpoint := Unique(entries, claimed, SharingEndpoint(before, node.endpoint), "");
      if node.endpoint != "" && endpoint.Some? then (endpoint, ByEndpoint)
      else
        var name := Unique(entries, claimed, SharingName(before, node.provider, node.name), node.server);
        if name.Some? then (name, ByName) else (None, New)
  }

  // ---- resolving ----

  datatype Progress = Progress(entries: seq<Identity>, claimed: set<Key>, keys: seq<Key>, matches: seq<Match>)

  function EntryOf(key: Key, node: Node, now: int): Identity {
    Identity(key, node.strong, node.endpoint, node.name, node.provider, node.server, now)
  }

  function Resolved(before: seq<Identity>, p: Progress, node: Node, now: int): (r: Progress)
    requires |before| <= |p.entries|
    ensures |before| <= |r.entries|
  {
    var (at, how) := Choose(before, p.entries, p.claimed, node);
    var key := if at.Some? then p.entries[at.value].key else NextKey(p.claimed, FreshKey(node));
    var entry := EntryOf(key, node, now);
    Progress(if at.Some? then p.entries[at.value := entry] else p.entries + [entry],
             p.claimed + {key}, p.keys + [key], p.matches + [how])
  }

  function ResolveAll(before: seq<Identity>, nodes: seq<Node>, now: int): (r: Progress)
    ensures |before| <= |r.entries|
  {
    if nodes == [] then Progress(before, {}, [], [])
    else Resolved(before, ResolveAll(before, nodes[..|nodes| - 1], now), nodes[|nodes| - 1], now)
  }

  function PlaceRecent(entry: Identity, entries: seq<Identity>): seq<Identity> {
    if entries == [] || entries[0].seenAt <= entry.seenAt then [entry] + entries
    else [entries[0]] + PlaceRecent(entry, entries[1..])
  }

  /** Stably, the most recently seen first. */
  function SortRecent(entries: seq<Identity>): seq<Identity> {
    if entries == [] then [] else PlaceRecent(entries[0], SortRecent(entries[1..]))
  }

  function Trimmed(entries: seq<Identity>): seq<Identity> {
    if |entries| <= MAX_IDENTITIES then entries
    else
      var sorted := SortRecent(entries);
      if |sorted| <= MAX_IDENTITIES then sorted else sorted[..MAX_IDENTITIES]
  }

  // ---- the index as it runs ----

  class IdentityIndex {
    var entries: seq<Identity>

    /** Maps are built of the index as it stands, then each node takes an entry,
        which is rewritten in place. */
    method Resolve(nodes: seq<Node>, now: int) returns (keys: seq<Key>, matches: seq<Match>)
      modifies this
      ensures var p := ResolveAll(old(entries), nodes, now);
        keys == p.keys && matches == p.matches && entries == Trimmed(p.entries)
    {
      var byStrong := IndexStrong();
      var byEndpoint := IndexEndpoint();
      var byName := IndexName();
      ghost var before := entries;
      var claimed: set<Key> := {};
      keys, matches := [], [];
      var i := 0;
      while i < |nodes|
        invariant i <= |nodes| && |before| <= |entries|
        invariant Maps(before, byStrong, byEndpoint, byName)
        invariant ResolveAll(before, nodes[..i], now) == Progress(entries, claimed, keys, matches)
      {
        ghost var p := Progress(entries, claimed, keys, matches);
        var key, how := ResolveOne(before, claimed, byStrong, byEndpoint, byName, nodes[i], now, p);
        claimed := claimed + {key};
        keys, matches := keys + [key], matches + [how];
        NextNode(before, nodes, i, now);
        i := i + 1;
      }
      assert nodes[..i] == nodes;
      entries := Trimmed(entries);
    }

    /** One node: its entry is rewritten, or a new one appended. */
    method ResolveOne(ghost before: seq<Identity>, claimed: set<Key>, byStrong: map<string, nat>,
        byEndpoint: map<string, seq<nat>>, byName: map<(string, string), seq<nat>>, node: Node, now: int, ghost p: Progress)
      returns (key: Key, how: Match)
      requires |before| <= |entries| && Maps(before, byStrong, byEndpoint, byName)
      requires p.entries == entries && p.claimed == claimed
      modifies this
      ensures Resolved(before, p, node, now) == Progress(entries, claimed + {key}, p.keys + [key], p.matches + [how])
    {
      var at;
      at, how := Find(before, claimed, byStrong, byEndpoint, byName, node);
      if at.None? {
        key := FindKey(claimed, FreshKey(node));
        entries := entries + [EntryOf(key, node, now)];
      } else {
        key := entries[at.value].key;
        entries := entries[at.value := EntryOf(key, node, now)];
      }
    }

    method IndexStrong() returns (m: map<string, nat>)
      ensures StrongMap(entries, m)
    {
      m := map[];
      var i := 0;
      while i < |entries|
        invariant i <= |entries| && StrongMap(entries[..i], m)
      {
        StrongMapGrows(entries, i, m);
        if entries[i].strong != "" { m := m[entries[i].strong := i]; }
        i := i + 1;
      }
      assert entries[..i] == entries;
    }

    method IndexEndpoint() returns (m: map<string, seq<nat>>)
      ensures EndpointMap(entries, m)
    {
      m := map[];
      var i := 0;
      while i < |entries|
        invariant i <= |entries| && EndpointMap(entries[..i], m)
      {
        EndpointMapGrows(entries, i, m);
        var e := entries[i].endpoint;
        if e != "" { m := m[e := (if e in m then m[e] else []) + [i]]; }
        i := i + 1;
      }
      assert entries[..i] == entries;
    }

    method IndexName() returns (m: map<(string, string), seq<nat>>)
      ensures NameMap(entries, m)
    {
      m := map[];
      var i := 0;
      while i < |entries|
        invariant i <= |entries| && NameMap(entries[..i], m)
      {
        NameMapGrows(entries, i, m);
        var k := (entries[i].provider, entries[i].name);
        m := m[k := (if k in m then m[k] else []) + [i]];
        i := i + 1;
      }
      assert entries[..i] == entries;
    }

    method Find(ghost before: seq<Identity>, claimed: set<Key>, byStrong: map<string, nat>,
        byEndpoint: map<string, seq<nat>>, byName: map<(string, string), seq<nat>>, node: Node)
      returns (at: Option<nat>, how: Match)
      requires |before| <= |entries| && Maps(before, byStrong, byEndpoint, byName)
      ensures (at, how) == Choose(before, entries, claimed, node)
    {
      if node.strong != "" && node.strong in byStrong {
        var e := byStrong[node.strong];
        assert StrongAt(before, node.strong) == Some(e);
        if entries[e].key !in claimed { return Some(e), ByStrong; }
      }
      if node.endpoint != "" {
        var sharing := if node.endpoint in byEndpoint then byEndpoint[node.endpoint] else [];
        assert sharing == SharingEndpoint(before, node.endpoint);
        at := FindUnique(claimed, sharing, "");
        if at.Some? { return at, ByEndpoint; }
      }
      var named := if (node.provider, node.name) in byName then byName[(node.provider, node.name)] else [];
      assert named == SharingName(before, node.provider, node.name);
      at := FindUnique(claimed, named, node.server);
      how := if at.Some? then ByName else New;
    }

    method FindUnique(claimed: set<Key>, candidates: seq<nat>, server: string) returns (found: Option<nat>)
      requires forall k :: 0 <= k < |candidates| ==> candidates[k] < |entries|
      ensures found == Unique(entries, claimed, candidates, server)
    {
      found := None;
      var i := 0;
      while i < |candidates|
        invariant i <= |candidates|
        invariant Open(entries, claimed, candidates, server) == Listed(found) + Open(entries, claimed, candidates[i..], server)
      {
        var c := candidates[i];
        OpenFrom(entries, claimed, candidates, server, i);
        if !(entries[c].key in claimed || (server != "" && entries[c].server != server)) {
          if found.Some? { return None; }
          found := Some(c);
        }
        i := i + 1;
      }
    }

    method FindKey(claimed: set<Key>, first: Key) returns (key: Key)
      ensures key == NextKey(claimed, first)
    {
      key := first;
      ghost var left := claimed;
      while key in claimed
        invariant left <= claimed && NextKey(left, key) == NextKey(claimed, first)
        invariant forall k :: k in claimed && k !in left ==> Depth(k) < Depth(key)
        decreases |left|
      {
        left := left - {key};
        key := Rehash(key);
      }
    }
  }

  lemma OpenFrom(entries: seq<Identity>, claimed: set<Key>, candidates: seq<nat>, server: string, i: nat)
    requires i < |candidates| && forall k :: 0 <= k < |candidates| ==> candidates[k] < |entries|
    ensures var c, rest := candidates[i], Open(entries, claimed, candidates[i + 1..], server);
      Open(entries, claimed, candidates[i..], server) ==
        if entries[c].key in claimed || (server != "" && entries[c].server != server) then rest else [c] + rest
  {
    assert candidates[i..][1..] == candidates[i + 1..];
    var rest := Open(entries, claimed, candidates[i + 1..], server);
    assert [] + rest == rest;
  }

  /** The three maps are those of the index as it was. */
  ghost predicate Maps(before: seq<Identity>, byStrong: map<string, nat>,
      byEndpoint: map<string, seq<nat>>, byName: map<(string, string), seq<nat>>)
  {
    StrongMap(before, byStrong) && EndpointMap(before, byEndpoint) && NameMap(before, byName)
  }

  ghost predicate StrongMap(entries: seq<Identity>, m: map<string, nat>) {
    forall s :: s != "" ==> StrongAt(entries, s) == if s in m then Some(m[s]) else None
  }

  ghost predicate EndpointMap(entries: seq<Identity>, m: map<string, seq<nat>>) {
    forall e :: e != "" ==> SharingEndpoint(entries, e) == if e in m then m[e] else []
  }

  ghost predicate NameMap(entries: seq<Identity>, m: map<(string, string), seq<nat>>) {
    forall p, n :: SharingName(entries, p, n) == if (p, n) in m then m[(p, n)] else []
  }

  lemma StrongMapGrows(entries: seq<Identity>, i: nat, m: map<string, nat>)
    requires i < |entries| && StrongMap(entries[..i], m)
    ensures StrongMap(entries[..i + 1], if entries[i].strong != "" then m[entries[i].strong := i] else m)
  {
    assert entries[..i + 1][..i] == entries[..i];
  }

  lemma EndpointMapGrows(entries: seq<Identity>, i: nat, m: map<string, seq<nat>>)
    requires i < |entries| && EndpointMap(entries[..i], m)
    ensures var e := entries[i].endpoint;
      EndpointMap(entries[..i + 1], if e != "" then m[e := (if e in m then m[e] else []) + [i]] else m)
  {
    assert entries[..i + 1][..i] == entries[..i];
  }

  lemma NameMapGrows(entries: seq<Identity>, i: nat, m: map<(string, string), seq<nat>>)
    requires i < |entries| && NameMap(entries[..i], m)
    ensures var k := (entries[i].provider, entries[i].name);
      NameMap(entries[..i + 1], m[k := (if k in m then m[k] else []) + [i]])
  {
    assert entries[..i + 1][..i] == entries[..i];
  }

  lemma {:induction false} NextNode(before: seq<Identity>, nodes: seq<Node>, i: nat, now: int)
    requires i < |nodes|
    ensures ResolveAll(before, nodes[..i + 1], now) == Resolved(before, ResolveAll(before, nodes[..i], now), nodes[i], now)
  {
    assert nodes[..i + 1][..i] == nodes[..i];
  }

  function Listed(found: Option<nat>): seq<nat> { if found.None? then [] else [found.value] }

  // ---- no key is handed out twice ----

  lemma {:induction false} NextKeyIsFree(claimed: set<Key>, key: Key)
    ensures NextKey(claimed, key) !in claimed && Depth(NextKey(claimed, key)) >= Depth(key)
    decreases |claimed|
  {
    if key in claimed { NextKeyIsFree(claimed - {key}, Rehash(key)); }
  }

  predicate DistinctKeys(keys: seq<Key>) { forall i, j :: 0 <= i < j < |keys| ==> keys[i] != keys[j] }

  /** A key is never handed to two nodes of one refresh, whatever the index holds. */
  lemma {:induction false} KeysAreDistinct(before: seq<Identity>, nodes: seq<Node>, now: int)
    ensures var p := ResolveAll(before, nodes, now);
      && |p.keys| == |nodes| == |p.matches| && DistinctKeys(p.keys)
      && forall k :: k in p.claimed <==> k in p.keys
    decreases |nodes|
  {
    if nodes != [] {
      var n := |nodes| - 1;
      var p := ResolveAll(before, nodes[..n], now);
      KeysAreDistinct(before, nodes[..n], now);
      NextKeyIsFree(p.claimed, FreshKey(nodes[n]));
    }
  }

  // ---- resolving the same list again gives the same keys ----

  /** Every fingerprint names one entry: none is repeated, no key is. */
  predicate Clear(entries: seq<Identity>) {
    && (forall x, y :: 0 <= x < y < |entries| ==> entries[x].key != entries[y].key)
    && (forall x, y :: 0 <= x < y < |entries| ==> entries[x].strong == "" || entries[x].strong != entries[y].strong)
  }

  /** Nodes of distinct, known configurations. */
  predicate Distinct(nodes: seq<Node>) {
    && (forall i :: 0 <= i < |nodes| ==> nodes[i].strong != "")
    && (forall i, j :: 0 <= i < j < |nodes| ==> nodes[i].strong != nodes[j].strong)
  }

  /** No key newly handed out is one an entry already had. */
  predicate NewKeysFree(before: seq<Identity>, p: Progress) {
    forall i, x :: 0 <= i < |p.keys| && i < |p.matches| && p.matches[i] == New && 0 <= x < |before| ==> before[x].key != p.keys[i]
  }

  /** Where each node's entry is after the refresh. */
  function Owners(before: seq<Identity>, nodes: seq<Node>, now: int): seq<nat> {
    if nodes == [] then []
    else
      var p := ResolveAll(before, nodes[..|nodes| - 1], now);
      var (at, _) := Choose(before, p.entries, p.claimed, nodes[|nodes| - 1]);
      Owners(before, nodes[..|nodes| - 1], now) + [if at.Some? then at.value else |p.entries|]
  }

  /** A node's entry carries its fingerprint and key. */
  predicate Owns(p: Progress, node: Node, key: Key, at: nat) {
    at < |p.entries| && p.entries[at].strong == node.strong && p.entries[at].key == key
  }

  /** An entry that is no node's is as it was, unclaimed, and carries no node's fingerprint. */
  predicate Spare(before: seq<Identity>, p: Progress, nodes: seq<Node>, x: nat) {
    && x < |before| && x < |p.entries| && p.entries[x] == before[x] && p.entries[x].key !in p.claimed
    && forall j :: 0 <= j < |nodes| ==> p.entries[x].strong != nodes[j].strong
  }

  ghost predicate Owned(before: seq<Identity>, p: Progress, nodes: seq<Node>, owners: seq<nat>) {
    && |owners| == |nodes| && |p.keys| == |nodes| && |p.entries| >= |before|
    && (forall j :: 0 <= j < |nodes| ==> Owns(p, nodes[j], p.keys[j], owners[j]))
    && (forall x :: 0 <= x < |p.entries| && x !in owners ==> Spare(before, p, nodes, x))
  }

  predicate AllClaimed(p: Progress) { forall j :: 0 <= j < |p.keys| ==> p.keys[j] in p.claimed }

  lemma {:induction false} StrongIsFound(entries: seq<Identity>, x: nat)
    requires x < |entries| && entries[x].strong != ""
    ensures StrongAt(entries, entries[x].strong).Some? && StrongAt(entries, entries[x].strong).value >= x
    decreases |entries|
  {
    if x < |entries| - 1 && entries[|entries| - 1].strong != entries[x].strong {
      StrongIsFound(entries[..|entries| - 1], x);
    }
  }

  /** The entry a node is given was nobody's, and no other spare entry has its fingerprint. */
  lemma ChosenWasSpare(before: seq<Identity>, p: Progress, nodes: seq<Node>, owners: seq<nat>, node: Node, at: nat)
    requires Clear(before) && Owned(before, p, nodes, owners) && AllClaimed(p) && node.strong != ""
    requires Choose(before, p.entries, p.claimed, node).0 == Some(at)
    ensures at !in owners && at < |p.entries|
    ensures forall y :: 0 <= y < |p.entries| && y !in owners && y != at ==>
      p.entries[y].strong != node.strong && p.entries[y].key != p.entries[at].key
  {
    forall j | 0 <= j < |owners| ensures owners[j] != at {
      assert Owns(p, nodes[j], p.keys[j], owners[j]);
    }
    assert Spare(before, p, nodes, at);
    forall y | 0 <= y < |p.entries| && y !in owners && y != at
      ensures p.entries[y].strong != node.strong && p.entries[y].key != p.entries[at].key
    {
      assert Spare(before, p, nodes, y);
      SpareIsNotMissed(before, p, nodes, node, y, at);
    }
  }

  lemma SpareIsNotMissed(before: seq<Identity>, p: Progress, nodes: seq<Node>, node: Node, y: nat, at: nat)
    requires Clear(before) && |before| <= |p.entries| && Spare(before, p, nodes, y) && node.strong != ""
    requires Choose(before, p.entries, p.claimed, node).0 == Some(at) && y != at
    ensures p.entries[y].strong != node.strong
  {
    if before[y].strong == node.strong { StrongIsFound(before, y); }
  }

  lemma NewLeavesNoSpare(before: seq<Identity>, p: Progress, nodes: seq<Node>, node: Node, y: nat)
    requires Clear(before) && |before| <= |p.entries| && Spare(before, p, nodes, y) && node.strong != ""
    requires Choose(before, p.entries, p.claimed, node).0.None?
    ensures p.entries[y].strong != node.strong
  {
    if before[y].strong == node.strong { StrongIsFound(before, y); }
  }

  /** One more node keeps every entry owned or spare. */
  lemma OwnedGrows(before: seq<Identity>, p: Progress, nodes: seq<Node>, owners: seq<nat>, node: Node, now: int)
    requires Clear(before) && Owned(before, p, nodes, owners) && AllClaimed(p) && node.strong != ""
    requires Choose(before, p.entries, p.claimed, node).0.None? ==>
      forall x :: 0 <= x < |before| ==> before[x].key != NextKey(p.claimed, FreshKey(node))
    requires forall j :: 0 <= j < |nodes| ==> nodes[j].strong != node.strong
    ensures var (at, _) := Choose(before, p.entries, p.claimed, node);
      Owned(before, Resolved(before, p, node, now), nodes + [node], owners + [if at.Some? then at.value else |p.entries|])
  {
    var (at, _) := Choose(before, p.entries, p.claimed, node);
    var q := Resolved(before, p, node, now);
    var place := if at.Some? then at.value else |p.entries|;
    var owners', nodes' := owners + [place], nodes + [node];
    NextKeyIsFree(p.claimed, FreshKey(node));
    if at.Some? { ChosenWasSpare(before, p, nodes, owners, node, place); }
    forall j | 0 <= j < |nodes'| ensures Owns(q, nodes'[j], q.keys[j], owners'[j]) {
      if j < |nodes| {
        assert Owns(p, nodes[j], p.keys[j], owners[j]);
        assert owners[j] in owners;
      }
    }
    forall x | 0 <= x < |q.entries| && x !in owners' ensures Spare(before, q, nodes', x) {
      assert owners'[|owners|] == place;
      assert x !in owners && x != place;
      assert Spare(before, p, nodes, x);
      if at.None? { NewLeavesNoSpare(before, p, nodes, node, x); }
    }
  }

  /** The last of distinct nodes differs from those before it. */
  lemma LastDiffers(nodes: seq<Node>)
    requires Distinct(nodes) && nodes != []
    ensures var rest, last := nodes[..|nodes| - 1], nodes[|nodes| - 1];
      && Distinct(rest) && last.strong != "" && nodes == rest + [last]
      && (forall j :: 0 <= j < |rest| ==> rest[j].strong != last.strong)
  {}

  /** New keys that are free are free one by one. */
  lemma LastIsFree(before: seq<Identity>, p: Progress, node: Node, now: int)
    requires |before| <= |p.entries| && |p.keys| == |p.matches| && NewKeysFree(before, Resolved(before, p, node, now))
    ensures NewKeysFree(before, p)
    ensures Choose(before, p.entries, p.claimed, node).0.None? ==>
      forall x :: 0 <= x < |before| ==> before[x].key != NextKey(p.claimed, FreshKey(node))
  {
    var q := Resolved(before, p, node, now);
    assert forall i :: 0 <= i < |p.keys| ==> q.keys[i] == p.keys[i] && q.matches[i] == p.matches[i];
    if Choose(before, p.entries, p.claimed, node).0.None? {
      assert q.matches[|p.keys|] == New && q.keys[|p.keys|] == NextKey(p.claimed, FreshKey(node));
    }
  }

  lemma {:induction false} FirstOwns(before: seq<Identity>, nodes: seq<Node>, now: int)
    requires Clear(before) && Distinct(nodes) && NewKeysFree(before, ResolveAll(before, nodes, now))
    ensures Owned(before, ResolveAll(before, nodes, now), nodes, Owners(before, nodes, now))
    decreases |nodes|
  {
    if nodes != [] {
      var rest, last := nodes[..|nodes| - 1], nodes[|nodes| - 1];
      LastDiffers(nodes);
      KeysAreDistinct(before, rest, now);
      LastIsFree(before, ResolveAll(before, rest, now), last, now);
      FirstOwns(before, rest, now);
      OwnedGrows(before, ResolveAll(before, rest, now), rest, Owners(before, rest, now), last, now);
    }
  }

  /** Each node's fingerprint leads to its key. */
  ghost predicate Settled(entries: seq<Identity>, nodes: seq<Node>, keys: seq<Key>) {
    |keys| == |nodes| && forall j :: 0 <= j < |nodes| ==>
      StrongAt(entries, nodes[j].strong).Some? && entries[StrongAt(entries, nodes[j].strong).value].key == keys[j]
  }

  lemma OwnedSettles(before: seq<Identity>, p: Progress, nodes: seq<Node>, owners: seq<nat>)
    requires Owned(before, p, nodes, owners) && Distinct(nodes)
    ensures Settled(p.entries, nodes, p.keys)
  {
    forall j | 0 <= j < |nodes|
      ensures StrongAt(p.entries, nodes[j].strong).Some?
      ensures p.entries[StrongAt(p.entries, nodes[j].strong).value].key == p.keys[j]
    {
      assert Owns(p, nodes[j], p.keys[j], owners[j]);
      StrongIsFound(p.entries, owners[j]);
      var x := StrongAt(p.entries, nodes[j].strong).value;
      assert !Spare(before, p, nodes, x);
      var i :| 0 <= i < |owners| && owners[i] == x;
      assert Owns(p, nodes[i], p.keys[i], owners[i]);
    }
  }

  /** Resolving goes on as the first time did: the keys so far are these. */
  ghost predicate Repeats(entries: seq<Identity>, p: Progress, keys: seq<Key>) {
    && p.keys == keys && (forall k :: k in p.claimed ==> k in keys) && |entries| <= |p.entries|
    && (forall x :: 0 <= x < |entries| ==> p.entries[x].key == entries[x].key)
  }

  lemma RepeatsOnce(entries: seq<Identity>, p: Progress, keys: seq<Key>, node: Node, key: Key, now: int)
    requires Repeats(entries, p, keys) && key !in keys && node.strong != ""
    requires StrongAt(entries, node.strong).Some? && entries[StrongAt(entries, node.strong).value].key == key
    ensures Repeats(entries, Resolved(entries, p, node, now), keys + [key])
  {}

  lemma LastIsNew(keys: seq<Key>)
    requires DistinctKeys(keys) && keys != []
    ensures keys[|keys| - 1] !in keys[..|keys| - 1] && DistinctKeys(keys[..|keys| - 1])
    ensures keys == keys[..|keys| - 1] + [keys[|keys| - 1]]
  {
    assert forall i :: 0 <= i < |keys| - 1 ==> keys[i] != keys[|keys| - 1];
  }

  lemma {:induction false} AgainTheSame(entries: seq<Identity>, nodes: seq<Node>, keys: seq<Key>, now: int)
    requires Settled(entries, nodes, keys) && DistinctKeys(keys) && forall i :: 0 <= i < |nodes| ==> nodes[i].strong != ""
    ensures Repeats(entries, ResolveAll(entries, nodes, now), keys)
    decreases |nodes|
  {
    if nodes != [] {
      var n := |nodes| - 1;
      LastIsNew(keys);
      AgainTheSame(entries, nodes[..n], keys[..n], now);
      RepeatsOnce(entries, ResolveAll(entries, nodes[..n], now), keys[..n], nodes[n], keys[n], now);
    }
  }

  /** Resolving the same list again gives the same keys: for an index where no
      key and no fingerprint is repeated, nodes of distinct known configurations,
      room for all of them, and no key newly handed out one an entry already had. */
  lemma {:induction false} ResolvingAgainIsTheSame(before: seq<Identity>, nodes: seq<Node>, now: int, later: int)
    requires Clear(before) && Distinct(nodes) && NewKeysFree(before, ResolveAll(before, nodes, now))
    requires |ResolveAll(before, nodes, now).entries| <= MAX_IDENTITIES
    ensures var first := ResolveAll(before, nodes, now);
      ResolveAll(Trimmed(first.entries), nodes, later).keys == first.keys
  {
    var first := ResolveAll(before, nodes, now);
    FirstOwns(before, nodes, now);
    OwnedSettles(before, first, nodes, Owners(before, nodes, now));
    KeysAreDistinct(before, nodes, now);
    AgainTheSame(first.entries, nodes, first.keys, later);
  }

  /** In particular a list that is all known keeps its keys. */
  lemma KnownNodesKeepTheirKeys(before: seq<Identity>, nodes: seq<Node>, now: int, later: int)
    requires Clear(before) && Distinct(nodes) && |ResolveAll(before, nodes, now).entries| <= MAX_IDENTITIES
    requires New !in ResolveAll(before, nodes, now).matches
    ensures var first := ResolveAll(before, nodes, now);
      ResolveAll(Trimmed(first.entries), nodes, later).keys == first.keys
  {
    ResolvingAgainIsTheSame(before, nodes, now, later);
  }
}
