/** Finite directed graphs given by adjacency lists; names listed that are not nodes are ignored. */
module Graphs {

  type Graph = map<string, seq<string>>

  predicate Edge(g: Graph, a: string, b: string) {
    a in g && b in g && b in g[a]
  }

  /** A walk along edges, at least one node long. */
  predicate Chain(g: Graph, p: seq<string>) {
    && p != [] && p[0] in g
    && forall i, j | 0 <= i < |p| && j == i + 1 && j < |p| :: Edge(g, p[i], p[j])
  }

  predicate Cycle(g: Graph, p: seq<string>) {
    Chain(g, p) && |p| >= 2 && p[0] == p[|p| - 1]
  }

  ghost predicate Cyclic(g: Graph) {
    exists p :: Cycle(g, p)
  }

  lemma ChainNodes(g: Graph, p: seq<string>, i: nat)
    requires Chain(g, p) && i < |p|
    ensures p[i] in g
  {
    if i > 0 {
      assert Edge(g, p[i - 1], p[i]);
    }
  }

  lemma ChainSlice(g: Graph, p: seq<string>, i: nat, j: nat)
    requires Chain(g, p) && i < j <= |p|
    ensures Chain(g, p[i..j])
  {
    var q := p[i..j];
    ChainNodes(g, p, i);
    forall k, l | 0 <= k < |q| && l == k + 1 && l < |q|
      ensures Edge(g, q[k], q[l])
    {
      assert Edge(g, p[i + k], p[i + l]);
    }
  }

  lemma ChainPrepend(g: Graph, a: string, p: seq<string>)
    requires Chain(g, p) && Edge(g, a, p[0])
    ensures Chain(g, [a] + p)
  {
    var q := [a] + p;
    forall i, j | 0 <= i < |q| && j == i + 1 && j < |q|
      ensures Edge(g, q[i], q[j])
    {
      if i > 0 {
        assert Edge(g, p[i - 1], p[j - 1]);
      }
    }
  }

  /** More entries than a set has members: two of them agree. */
  lemma {:induction false} Pigeonhole(p: seq<string>, s: set<string>) returns (i: nat, j: nat)
    requires |p| > |s| && forall k | 0 <= k < |p| :: p[k] in s
    ensures i < j < |p| && p[i] == p[j]
    decreases |p|
  {
    if k :| 1 <= k < |p| && p[k] == p[0] {
      i, j := 0, k;
    } else {
      assert |s - {p[0]}| == |s| - 1;
      i, j := Pigeonhole(p[1..], s - {p[0]});
      i, j := i + 1, j + 1;
    }
  }

  /** A chain longer than the graph has nodes runs through a cycle. */
  lemma LongChainIsCyclic(g: Graph, p: seq<string>)
    requires Chain(g, p) && |p| > |g|
    ensures Cyclic(g)
  {
    forall k | 0 <= k < |p|
      ensures p[k] in g.Keys
    {
      ChainNodes(g, p, k);
    }
    assert |g.Keys| == |g|;
    var i, j := Pigeonhole(p, g.Keys);
    ChainSlice(g, p, i, j + 1);
    assert Cycle(g, p[i..j + 1]);
  }
}
