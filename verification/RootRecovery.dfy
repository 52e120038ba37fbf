/** Recovering the root of a rendered spec whose root key names no element. */
module RootRecovery {
  import opened Wrappers
  import opened Graphs

  /** A flat spec: the elements in insertion order, each with its list of children. */
  datatype Spec = Spec(root: Option<string>, keys: seq<string>, elements: Graph)

  /** Each key is listed once. */
  ghost predicate Valid(spec: Spec) {
    && (forall k :: k in spec.elements <==> k in spec.keys)
    && forall i, j | 0 <= i < j < |spec.keys| :: spec.keys[i] != spec.keys[j]
  }

  predicate Resolves(spec: Spec) {
    spec.root.Some? && spec.root.value in spec.elements
  }

  ghost predicate Referenced(g: Graph, key: string) {
    exists p :: p in g && key in g[p]
  }

  ghost predicate Unreferenced(g: Graph, key: string) {
    key in g && !Referenced(g, key)
  }

  /** Exactly one element that no element lists as a child. */
  ghost predicate SoleTop(g: Graph, key: string) {
    Unreferenced(g, key) && forall k | Unreferenced(g, k) :: k == key
  }

  /** A dangling root is rewired to the sole top; anything else stays as it is. */
  ghost function Recovered(spec: Spec): Spec {
    if !Resolves(spec) && exists top :: SoleTop(spec.elements, top) then
      var top :| SoleTop(spec.elements, top);
      spec.(root := Some(top))
    else spec
  }

  method RecoverRoot(spec: Spec) returns (r: Spec)
    requires Valid(spec)
    ensures r == Recovered(spec)
  {
    var keys := spec.keys;
    if |keys| == 0 {
      return spec;
    }
    if Resolves(spec) {
      return spec;
    }
    var referenced := ReferencedKeys(spec);
    var unreferenced: seq<string> := [];
    for i := 0 to |keys|
      invariant forall k :: k in unreferenced <==> k in keys[..i] && k !in referenced
      invariant forall a, b | 0 <= a < b < |unreferenced| :: unreferenced[a] != unreferenced[b]
    {
      assert keys[..i + 1] == keys[..i] + [keys[i]];
      if keys[i] !in referenced {
        unreferenced := unreferenced + [keys[i]];
      }
    }
    assert keys[..|keys|] == keys;
    SoleTopByCount(spec.elements, unreferenced);
    if |unreferenced| != 1 {
      return spec;
    }
    r := spec.(root := Some(unreferenced[0]));
  }

  lemma SoleTopByCount(g: Graph, tops: seq<string>)
    requires forall k :: k in tops <==> Unreferenced(g, k)
    requires forall a, b | 0 <= a < b < |tops| :: tops[a] != tops[b]
    ensures |tops| == 1 ==> SoleTop(g, tops[0])
    ensures |tops| != 1 ==> !exists top :: SoleTop(g, top)
  {
    if |tops| >= 2 {
      assert tops[0] in tops && tops[1] in tops;
    } else if |tops| == 1 {
      assert tops[0] in tops;
    }
  }

  /** Listed as a child by one of the first `n` elements. */
  ghost predicate ListedBefore(spec: Spec, n: nat, key: string)
    requires Valid(spec) && n <= |spec.keys|
  {
    exists j :: 0 <= j < n && key in spec.elements[spec.keys[j]]
  }

  method ReferencedKeys(spec: Spec) returns (referenced: set<string>)
    requires Valid(spec)
    ensures forall c :: c in referenced <==> Referenced(spec.elements, c)
  {
    referenced := {};
    for i := 0 to |spec.keys|
      invariant forall c :: c in referenced <==> ListedBefore(spec, i, c)
    {
      assert spec.keys[i] in spec.keys;
      var children := spec.elements[spec.keys[i]];
      for j := 0 to |children|
        invariant forall c :: c in referenced <==> ListedBefore(spec, i, c) || c in children[..j]
      {
        assert children[..j + 1] == children[..j] + [children[j]];
        referenced := referenced + {children[j]};
      }
      assert children[..|children|] == children;
      forall c
        ensures ListedBefore(spec, i + 1, c) <==> ListedBefore(spec, i, c) || c in children
      {
        if ListedBefore(spec, i + 1, c) && !ListedBefore(spec, i, c) {
          var j :| 0 <= j < i + 1 && c in spec.elements[spec.keys[j]];
          assert j == i;
        }
      }
    }
    ReferencedByIndex(spec);
  }

  lemma ReferencedByIndex(spec: Spec)
    requires Valid(spec)
    ensures forall c :: Referenced(spec.elements, c) <==> ListedBefore(spec, |spec.keys|, c)
  {
    forall c
      ensures Referenced(spec.elements, c) <==> ListedBefore(spec, |spec.keys|, c)
    {
      if Referenced(spec.elements, c) {
        var p :| p in spec.elements && c in spec.elements[p];
        var j :| 0 <= j < |spec.keys| && spec.keys[j] == p;
      }
      if ListedBefore(spec, |spec.keys|, c) {
        var j :| 0 <= j < |spec.keys| && c in spec.elements[spec.keys[j]];
        assert spec.keys[j] in spec.keys;
      }
    }
  }

  // ---- what recovery gives ------------------------------------------------

  ghost predicate Reaches(g: Graph, from: string, to: string) {
    exists p :: Chain(g, p) && p[0] == from && p[|p| - 1] == to
  }

  /** From any element one can climb to the sole top, or climb on for as long as one likes. */
  lemma {:induction false} ClimbToTop(g: Graph, top: string, x: string, steps: nat) returns (p: seq<string>)
    requires SoleTop(g, top) && x in g
    ensures Chain(g, p) && p[|p| - 1] == x
    ensures p[0] == top || |p| == steps + 1
    decreases steps
  {
    if steps == 0 {
      p := [x];
    } else {
      p := ClimbToTop(g, top, x, steps - 1);
      if p[0] != top {
        ChainNodes(g, p, 0);
        assert !Unreferenced(g, p[0]);
        var parent :| parent in g && p[0] in g[parent];
        ChainPrepend(g, parent, p);
        p := [parent] + p;
      }
    }
  }

  /** When the child relation has no cycle, every element is reachable from the recovered root. */
  lemma AllReachable(g: Graph, top: string)
    requires SoleTop(g, top) && !Cyclic(g)
    ensures forall x | x in g :: Reaches(g, top, x)
  {
    forall x | x in g
      ensures Reaches(g, top, x)
    {
      var p := ClimbToTop(g, top, x, |g|);
      if p[0] != top {
        LongChainIsCyclic(g, p);
      }
    }
  }

  /** Without a cycle, recovery refuses only when there are several tops. */
  lemma AcyclicHasTop(g: Graph, x: string)
    requires x in g && !Cyclic(g)
    ensures exists top :: Unreferenced(g, top)
  {
    if forall k | k in g :: Referenced(g, k) {
      var p := ClimbForever(g, x, |g|);
      LongChainIsCyclic(g, p);
    } else {
      var k :| k in g && !Referenced(g, k);
      assert Unreferenced(g, k);
    }
  }

  lemma {:induction false} ClimbForever(g: Graph, x: string, steps: nat) returns (p: seq<string>)
    requires x in g && forall k | k in g :: Referenced(g, k)
    ensures Chain(g, p) && |p| == steps + 1
    decreases steps
  {
    if steps == 0 {
      p := [x];
    } else {
      p := ClimbForever(g, x, steps - 1);
      ChainNodes(g, p, 0);
      var parent :| parent in g && p[0] in g[parent];
      ChainPrepend(g, parent, p);
      p := [parent] + p;
    }
  }

  lemma SoleTopSpelledOut(g: Graph)
    ensures forall top ::
              SoleTop(g, top)
              <==> && top in g && (forall p | p in g :: top !in g[p])
                   && forall k | k in g && k != top :: exists p :: p in g && k in g[p]
  {
    forall top, k: string | SoleTop(g, top) && k in g && k != top
      ensures exists p :: p in g && k in g[p]
    {
      assert !Unreferenced(g, k);
    }
  }

  /** Recovery changes a spec exactly when its root dangles and there is a sole top. The new root is
      then a defined element that no element lists as a child, and if the child relation has no
      cycle the whole spec is drawn from it. */
  lemma RewiredRoot(spec: Spec)
    ensures Recovered(spec).keys == spec.keys && Recovered(spec).elements == spec.elements
    ensures Recovered(spec) != spec
       <==> && (spec.root.None? || spec.root.value !in spec.elements)
            && exists top ::
                 && top in spec.elements && (forall p | p in spec.elements :: top !in spec.elements[p])
                 && forall k | k in spec.elements && k != top :: exists p :: p in spec.elements && k in spec.elements[p]
    ensures var r := Recovered(spec);
            r != spec ==>
              && r.root.Some? && r.root.value in r.elements
              && (forall p | p in r.elements :: r.root.value !in r.elements[p])
              && (!Cyclic(r.elements) ==> forall x | x in r.elements :: Reaches(r.elements, r.root.value, x))
  {
    var r := Recovered(spec);
    SoleTopSpelledOut(spec.elements);
    if !Resolves(spec) && exists top :: SoleTop(spec.elements, top) {
      var top := r.root.value;
      assert SoleTop(spec.elements, top);
      if !Cyclic(spec.elements) {
        AllReachable(spec.elements, top);
      }
    }
  }

  /** Recovering what was recovered changes nothing, on every spec. */
  lemma RecoveryIsIdempotent(spec: Spec)
    ensures Recovered(Recovered(spec)) == Recovered(spec)
  {
    RewiredRoot(spec);
  }

  /** Among the specs without a cycle whose root dangles, those that are left alone are exactly the
      empty one and those with several tops. */
  lemma RefusalIsAmbiguity(spec: Spec)
    requires (spec.root.None? || spec.root.value !in spec.elements) && !Cyclic(spec.elements)
    ensures Recovered(spec) == spec
       <==> || spec.elements == map[]
            || exists a, b :: a != b && Unreferenced(spec.elements, a) && Unreferenced(spec.elements, b)
  {
    RewiredRoot(spec);
    if x :| x in spec.elements {
      AcyclicHasTop(spec.elements, x);
      var top :| Unreferenced(spec.elements, top);
      assert !SoleTop(spec.elements, top)
        <==> exists a, b :: a != b && Unreferenced(spec.elements, a) && Unreferenced(spec.elements, b);
    }
  }
}
