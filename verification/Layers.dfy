/** Profiles merged layer by layer, each with its pool, its tags and its checks: when a layer can only narrow. */
module Layers {
  import opened Basics
  import opened Text
  import opened Lexer
  import opened Cond
  import opened Parser
  import opened Scopes
  import opened Pool
  import opened Deciding

  /** What pools depend on in a profile: its tags are condition texts by name, its checks are ids. */
  datatype Layer = Layer(pool: Pool, tags: map<string, string>, checks: set<string>)

  const NO_LAYER := Layer(Pool("", ""), map[], {})

  /** mergeProfile, as to these: a child's tag replaces the base's of the same name. */
  function MergeLayer(base: Layer, child: Layer): Layer {
    Layer(NarrowPool(base.pool, child.pool), base.tags + child.tags, base.checks + child.checks)
  }

  /** Layers merged, base first. */
  function Merged(layers: seq<Layer>): Layer {
    if layers == [] then NO_LAYER else MergeLayer(Merged(layers[..|layers| - 1]), layers[|layers| - 1])
  }

  /** The scope compileProfile compiles a profile's pool in. */
  function GrammarOf(lib: Library, layer: Layer): Grammar {
    Grammar(lib, Scope(Some(layer.tags.Keys), layer.checks, None))
  }

  /** Whether a tag with this condition is a node's. */
  predicate Holds(lib: Library, text: string, s: Subject) {
    var cond := ParseCond(Grammar(lib, TAG_SCOPE), text);
    cond.Some? && Test(lib, cond.value, s) == Yes
  }

  function HeldTags(lib: Library, tags: map<string, string>, s: Subject): set<string> {
    set t | t in tags && Holds(lib, tags[t], s)
  }

  /** The node as conditions see it under a profile's tags. */
  function Seen(lib: Library, layer: Layer, s: Subject): Subject { s.(tags := HeldTags(lib, layer.tags, s)) }

  // ---- tags are settled alike in any order ----

  function NamesOf(list: seq<NamedCond>): set<string> {
    if list == [] then {} else {list[0].name} + NamesOf(list[1..])
  }

  /** A compiled list of the tags. */
  ghost predicate Lists(lib: Library, list: seq<NamedCond>, tags: map<string, string>) {
    NamesOf(list) == tags.Keys && forall k :: 0 <= k < |list| ==> IsCompiled(lib, list[k], tags)
  }

  ghost predicate IsCompiled(lib: Library, tag: NamedCond, tags: map<string, string>) {
    tag.name in tags && ParseCond(Grammar(lib, TAG_SCOPE), tags[tag.name]) == Some(tag.cond)
  }

  /** A tag's condition reads no tag, so what it is does not hang on the others. */
  lemma TagStandsAlone(lib: Library, tag: NamedCond, tags: map<string, string>, s: Subject, seen: set<string>)
    requires IsCompiled(lib, tag, tags)
    ensures Test(lib, tag.cond, s.(tags := seen)) == Yes <==> Holds(lib, tags[tag.name], s)
  {
    CondReadsKnown(Grammar(lib, TAG_SCOPE), tags[tag.name]);
    if tag.cond.Some? { OtherTagsAreIgnored(lib, tag.cond.value, s, s.(tags := seen)); }
  }

  lemma {:induction false} TaggedAdds(lib: Library, list: seq<NamedCond>, tags: map<string, string>, s: Subject,
      seen: set<string>)
    requires forall k :: 0 <= k < |list| ==> IsCompiled(lib, list[k], tags)
    ensures Tagged(lib, list, s.(tags := seen)) == s.(tags := seen + HeldTags(lib, tags, s) * NamesOf(list))
    decreases |list|
  {
    if list == [] {
      assert seen + HeldTags(lib, tags, s) * {} == seen;
    } else {
      var name := list[0].name;
      TagStandsAlone(lib, list[0], tags, s, seen);
      var more := if Holds(lib, tags[name], s) then seen + {name} else seen;
      TaggedAdds(lib, list[1..], tags, s, more);
      assert more + HeldTags(lib, tags, s) * NamesOf(list[1..]) == seen + HeldTags(lib, tags, s) * NamesOf(list);
    }
  }

  /** rank settles the tags one after another; in whatever order they are listed,
      a node has exactly those whose condition holds of it. */
  lemma TaggedIsSeen(lib: Library, list: seq<NamedCond>, layer: Layer, s: Subject)
    requires Lists(lib, list, layer.tags) && s.tags == {}
    ensures Tagged(lib, list, s) == Seen(lib, layer, s)
  {
    TaggedAdds(lib, list, layer.tags, s, {});
    assert s.(tags := {}) == s;
    assert {} + HeldTags(lib, layer.tags, s) * layer.tags.Keys == HeldTags(lib, layer.tags, s);
  }

  // ---- layers under the tags of the whole ----

  /** Each layer's own pool compiles in the scope of what is merged up to it. */
  predicate EachCompiles(lib: Library, layers: seq<Layer>) {
    layers == [] || (EachCompiles(lib, layers[..|layers| - 1])
      && Compiles(GrammarOf(lib, Merged(layers)), layers[|layers| - 1].pool))
  }

  /** Each layer's own pool admits the subject as given. */
  predicate EachAdmitsAs(lib: Library, layers: seq<Layer>, s: Subject)
    requires EachCompiles(lib, layers)
  {
    layers == [] || (EachAdmitsAs(lib, layers[..|layers| - 1], s)
      && Admits(GrammarOf(lib, Merged(layers)), layers[|layers| - 1].pool, s))
  }

  /** Each layer's own pool admits the node under the tags merged up to it. */
  predicate EachAdmits(lib: Library, layers: seq<Layer>, s: Subject)
    requires EachCompiles(lib, layers)
  {
    layers == [] || (EachAdmits(lib, layers[..|layers| - 1], s)
      && Admits(GrammarOf(lib, Merged(layers)), layers[|layers| - 1].pool, Seen(lib, Merged(layers), s)))
  }

  function Pools(layers: seq<Layer>): seq<Pool> {
    if layers == [] then [] else Pools(layers[..|layers| - 1]) + [layers[|layers| - 1].pool]
  }

  lemma {:induction false} MergedPool(layers: seq<Layer>)
    ensures Merged(layers).pool == Layered(Pools(layers))
    decreases |layers|
  {
    if layers != [] {
      MergedPool(layers[..|layers| - 1]);
      var pools := Pools(layers);
      assert pools[..|pools| - 1] == Pools(layers[..|layers| - 1]);
    }
  }

  predicate Under(a: Layer, b: Layer) { a.tags.Keys <= b.tags.Keys && a.checks <= b.checks }

  /** What compiles in its own scope compiles alike in the scope of the whole. */
  lemma {:induction false} EachUnderWhole(lib: Library, layers: seq<Layer>, whole: Layer, s: Subject)
    requires EachCompiles(lib, layers) && Under(Merged(layers), whole)
    ensures AllCompile(GrammarOf(lib, whole), Pools(layers))
    ensures AllAdmit(GrammarOf(lib, whole), Pools(layers), s) <==> EachAdmitsAs(lib, layers, s)
    decreases |layers|
  {
    if layers != [] {
      var before, last := layers[..|layers| - 1], layers[|layers| - 1];
      EachUnderWhole(lib, before, whole, s);
      CondGrows(GrammarOf(lib, Merged(layers)), GrammarOf(lib, whole), last.pool.included);
      CondGrows(GrammarOf(lib, Merged(layers)), GrammarOf(lib, whole), last.pool.excluded);
      var pools := Pools(layers);
      assert pools[..|pools| - 1] == Pools(before);
    }
  }

  /** Always: the merged profile admits a node exactly when the pool of every layer
      admits it under the tags of the merged profile. */
  lemma MergedAdmits(lib: Library, layers: seq<Layer>, s: Subject)
    requires lib.Valid() && EachCompiles(lib, layers) && Compiles(GrammarOf(lib, Merged(layers)), Merged(layers).pool)
    ensures var whole := Merged(layers);
      Admits(GrammarOf(lib, whole), whole.pool, Seen(lib, whole, s)) <==> EachAdmitsAs(lib, layers, Seen(lib, whole, s))
  {
    var whole := Merged(layers);
    MergedPool(layers);
    EachUnderWhole(lib, layers, whole, Seen(lib, whole, s));
    LayersOnlyNarrow(GrammarOf(lib, whole), Pools(layers), Seen(lib, whole, s));
  }

  // ---- layers under their own tags ----

  /** The tags a pool's texts read. */
  function PoolReads(g: Grammar, pool: Pool): set<string>
    requires Compiles(g, pool)
  {
    TagsOf(ParseCond(g, pool.included).value) + TagsOf(ParseCond(g, pool.excluded).value)
  }

  function ReadSoFar(lib: Library, layers: seq<Layer>): set<string>
    requires EachCompiles(lib, layers)
  {
    if layers == [] then {}
    else ReadSoFar(lib, layers[..|layers| - 1]) + PoolReads(GrammarOf(lib, Merged(layers)), layers[|layers| - 1].pool)
  }

  /** No layer has a tag that the pool of a layer under it reads. */
  predicate Untouched(lib: Library, layers: seq<Layer>)
    requires EachCompiles(lib, layers)
  {
    layers == [] || (Untouched(lib, layers[..|layers| - 1])
      && ReadSoFar(lib, layers[..|layers| - 1]) !! layers[|layers| - 1].tags.Keys)
  }

  predicate SameTexts(a: map<string, string>, b: map<string, string>, tags: set<string>) {
    forall t :: t in tags ==> (t in a <==> t in b) && (t in a ==> a[t] == b[t])
  }

  lemma CondSeesAlike(lib: Library, cond: Option<CondNode>, a: Layer, b: Layer, s: Subject)
    requires SameTexts(a.tags, b.tags, TagsOf(cond))
    ensures Test(lib, cond, Seen(lib, a, s)) == Test(lib, cond, Seen(lib, b, s))
  {
    if cond.Some? { OtherTagsAreIgnored(lib, cond.value, Seen(lib, a, s), Seen(lib, b, s)); }
  }

  /** A pool that reads tags of the same texts admits alike. */
  lemma PoolSeesAlike(g: Grammar, pool: Pool, a: Layer, b: Layer, s: Subject)
    requires Compiles(g, pool) && SameTexts(a.tags, b.tags, PoolReads(g, pool))
    ensures Admits(g, pool, Seen(g.lib, a, s)) <==> Admits(g, pool, Seen(g.lib, b, s))
  {
    CondSeesAlike(g.lib, ParseCond(g, pool.included).value, a, b, s);
    CondSeesAlike(g.lib, ParseCond(g, pool.excluded).value, a, b, s);
  }

  lemma {:induction false} EachSeesAlike(lib: Library, layers: seq<Layer>, whole: Layer, s: Subject)
    requires EachCompiles(lib, layers) && Untouched(lib, layers)
    requires SameTexts(Merged(layers).tags, whole.tags, ReadSoFar(lib, layers))
    ensures EachAdmitsAs(lib, layers, Seen(lib, whole, s)) <==> EachAdmits(lib, layers, s)
    decreases |layers|
  {
    if layers != [] {
      var before, last := layers[..|layers| - 1], layers[|layers| - 1];
      assert Merged(layers).tags == Merged(before).tags + last.tags;
      EachSeesAlike(lib, before, whole, s);
      PoolSeesAlike(GrammarOf(lib, Merged(layers)), last.pool, Merged(layers), whole, s);
    }
  }

  /** Layers only narrow where none redefines a tag that a pool under it reads: the
      merged profile then admits a node exactly when every layer does, each under
      the tags merged up to it. */
  lemma MergingOnlyNarrows(lib: Library, layers: seq<Layer>, s: Subject)
    requires lib.Valid() && EachCompiles(lib, layers) && Compiles(GrammarOf(lib, Merged(layers)), Merged(layers).pool)
    requires Untouched(lib, layers)
    ensures var whole := Merged(layers);
      Admits(GrammarOf(lib, whole), whole.pool, Seen(lib, whole, s)) <==> EachAdmits(lib, layers, s)
  {
    MergedAdmits(lib, layers, s);
    EachSeesAlike(lib, layers, Merged(layers), s);
  }

  lemma LastDropped(lib: Library, layers: seq<Layer>, s: Subject)
    requires layers != [] && EachCompiles(lib, layers)
    ensures EachCompiles(lib, layers[..|layers| - 1])
    ensures Untouched(lib, layers) ==> Untouched(lib, layers[..|layers| - 1])
    ensures EachAdmits(lib, layers, s) ==> EachAdmits(lib, layers[..|layers| - 1], s)
  {}

  lemma {:induction false} FrontUntouched(lib: Library, layers: seq<Layer>, front: seq<Layer>, s: Subject)
    requires front <= layers && EachCompiles(lib, layers) && Untouched(lib, layers)
    ensures EachCompiles(lib, front) && Untouched(lib, front)
    ensures EachAdmits(lib, layers, s) ==> EachAdmits(lib, front, s)
    decreases |layers|
  {
    if |front| == |layers| {
      assert front == layers;
    } else {
      LastDropped(lib, layers, s);
      assert front <= layers[..|layers| - 1];
      FrontUntouched(lib, layers[..|layers| - 1], front, s);
    }
  }

  /** So what some first layers keep out, no layer over them admits. */
  lemma LaterNeverWiden(lib: Library, layers: seq<Layer>, n: nat, s: Subject)
    requires lib.Valid() && n <= |layers| && EachCompiles(lib, layers) && Untouched(lib, layers)
    requires Compiles(GrammarOf(lib, Merged(layers)), Merged(layers).pool)
    requires var base := Merged(layers[..n]); Compiles(GrammarOf(lib, base), base.pool)
    ensures var whole, base := Merged(layers), Merged(layers[..n]);
      Admits(GrammarOf(lib, whole), whole.pool, Seen(lib, whole, s)) ==>
        Admits(GrammarOf(lib, base), base.pool, Seen(lib, base, s))
  {
    MergingOnlyNarrows(lib, layers, s);
    FrontUntouched(lib, layers, layers[..n], s);
    MergingOnlyNarrows(lib, layers[..n], s);
  }
}
