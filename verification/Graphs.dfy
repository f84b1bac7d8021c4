/** Finite graphs, reachability and cycles: what the prerequisite graph of `erl/x/erltest/expect.go` rests on. */
module Graphs {

  /** For every node the nodes that its edges lead to. */
  type Graph<N> = map<N, seq<N>>

  predicate Edge<N(==)>(g: Graph<N>, a: N, b: N) {
    a in g && b in g[a]
  }

  /** Edges do not lead out of the graph. */
  ghost predicate Closed<N>(g: Graph<N>) {
    forall a, b :: a in g && b in g[a] ==> b in g
  }

  /** `b` can be reached from `a` over exactly `n` edges. */
  ghost predicate ReachIn<N>(g: Graph<N>, a: N, b: N, n: nat) {
    if n == 0 then a == b
    else exists c :: c in g && ReachIn(g, a, c, n - 1) && Edge(g, c, b)
  }

  /** `b` can be reached from `a` over one or more edges. */
  ghost predicate Reach<N>(g: Graph<N>, a: N, b: N) {
    exists n: nat :: n > 0 && ReachIn(g, a, b, n)
  }

  /** The same, or no edge at all. */
  ghost predicate Leads<N>(g: Graph<N>, a: N, b: N) {
    exists n: nat :: ReachIn(g, a, b, n)
  }

  ghost predicate Acyclic<N>(g: Graph<N>) {
    forall a :: a in g ==> !Reach(g, a, a)
  }

  lemma LeadsSelf<N>(g: Graph<N>, a: N)
    ensures Leads(g, a, a)
  {
    assert ReachIn(g, a, a, 0);
  }

  lemma LeadsOn<N>(g: Graph<N>, a: N, b: N, c: N)
    requires Leads(g, a, b) && Edge(g, b, c)
    ensures Reach(g, a, c) && Leads(g, a, c)
  {
    var n: nat :| ReachIn(g, a, b, n);
    assert ReachIn(g, a, c, n + 1);
  }

  lemma ReachLeads<N>(g: Graph<N>, a: N, b: N)
    ensures Leads(g, a, b) <==> a == b || Reach(g, a, b)
  {
    if Leads(g, a, b) {
      var n: nat :| ReachIn(g, a, b, n);
    }
    if a == b {
      LeadsSelf(g, a);
    }
  }

  lemma {:induction false} ReachAppend<N>(g: Graph<N>, a: N, b: N, c: N, m: nat, n: nat)
    requires ReachIn(g, a, b, m) && ReachIn(g, b, c, n)
    ensures ReachIn(g, a, c, m + n)
  {
    if n > 0 {
      var d :| d in g && ReachIn(g, b, d, n - 1) && Edge(g, d, c);
      ReachAppend(g, a, b, d, m, n - 1);
    }
  }

  lemma LeadsTransitive<N>(g: Graph<N>, a: N, b: N, c: N)
    requires Leads(g, a, b) && Leads(g, b, c)
    ensures Leads(g, a, c)
  {
    var m: nat :| ReachIn(g, a, b, m);
    var n: nat :| ReachIn(g, b, c, n);
    ReachAppend(g, a, b, c, m, n);
  }

  /** Reaching something means taking a first edge and going on from there. */
  lemma ReachFirst<N>(g: Graph<N>, a: N, b: N)
    ensures Reach(g, a, b) <==> exists c :: Edge(g, a, c) && Leads(g, c, b)
  {
    if Reach(g, a, b) {
      var n: nat :| n > 0 && ReachIn(g, a, b, n);
      var c := FirstEdge(g, a, b, n);
      assert Edge(g, a, c) && Leads(g, c, b);
    }
    if c :| Edge(g, a, c) && Leads(g, c, b) {
      var n: nat :| ReachIn(g, c, b, n);
      assert ReachIn(g, a, a, 0);
      assert ReachIn(g, a, c, 1);
      ReachAppend(g, a, c, b, 1, n);
    }
  }

  lemma {:induction false} FirstEdge<N>(g: Graph<N>, a: N, b: N, n: nat) returns (c: N)
    requires n > 0 && ReachIn(g, a, b, n)
    ensures Edge(g, a, c) && ReachIn(g, c, b, n - 1)
  {
    var d :| d in g && ReachIn(g, a, d, n - 1) && Edge(g, d, b);
    if n == 1 {
      c := b;
    } else {
      c := FirstEdge(g, a, d, n - 1);
    }
  }

  // ---------------------------------------------------------------- one more edge, and fewer edges

  function WithEdge<N>(g: Graph<N>, e: N, q: N): Graph<N>
    requires e in g
  {
    g[e := g[e] + [q]]
  }

  lemma {:induction false} FewerEdges<N>(g: Graph<N>, h: Graph<N>, a: N, b: N, n: nat)
    requires forall x, y :: x in h && y in h[x] ==> x in g && y in g[x]
    requires ReachIn(h, a, b, n)
    ensures ReachIn(g, a, b, n)
  {
    if n > 0 {
      var c :| c in h && ReachIn(h, a, c, n - 1) && Edge(h, c, b);
      FewerEdges(g, h, a, c, n - 1);
      assert Edge(g, c, b);
    }
  }

  /** Taking edges away makes no cycle. */
  lemma FewerEdgesAcyclic<N>(g: Graph<N>, h: Graph<N>)
    requires Acyclic(g) && forall x :: x in h ==> x in g
    requires forall x, y :: x in h && y in h[x] ==> x in g && y in g[x]
    ensures Acyclic(h)
  {
    forall a | a in h
      ensures !Reach(h, a, a)
    {
      if Reach(h, a, a) {
        var n: nat :| n > 0 && ReachIn(h, a, a, n);
        FewerEdges(g, h, a, a, n);
      }
    }
  }

  /** A way in the larger graph is a way in the smaller one, or leads to the new edge and on from it. */
  lemma {:induction false} WithEdgeReach<N>(g: Graph<N>, e: N, q: N, a: N, b: N, n: nat)
    requires e in g && ReachIn(WithEdge(g, e, q), a, b, n)
    ensures Leads(g, a, b) || (Leads(g, a, e) && Leads(g, q, b))
  {
    if n == 0 {
      LeadsSelf(g, a);
    } else {
      var h := WithEdge(g, e, q);
      var c :| c in h && ReachIn(h, a, c, n - 1) && Edge(h, c, b);
      WithEdgeReach(g, e, q, a, c, n - 1);
      LeadsSelf(g, q);
      if Edge(g, c, b) {
        if Leads(g, a, c) {
          LeadsOn(g, a, c, b);
        } else {
          LeadsOn(g, q, c, b);
        }
      }
    }
  }

  /** A new edge closes a cycle exactly if its end is its start, or leads back to it. */
  lemma EdgeMakesCycle<N>(g: Graph<N>, e: N, q: N)
    requires Acyclic(g) && e in g && q in g
    ensures Acyclic(WithEdge(g, e, q)) <==> e != q && !Reach(g, q, e)
  {
    var h := WithEdge(g, e, q);
    ReachLeads(g, q, e);
    if Leads(g, q, e) {
      var n: nat :| ReachIn(g, q, e, n);
      FewerEdges(h, g, q, e, n);
      assert Edge(h, e, q);
      LeadsOn(h, q, e, q);
    } else {
      forall a | a in h
        ensures !Reach(h, a, a)
      {
        if Reach(h, a, a) {
          CycleUsesEdge(g, e, q, a);
        }
      }
    }
  }

  lemma CycleUsesEdge<N>(g: Graph<N>, e: N, q: N, a: N)
    requires Acyclic(g) && e in g && a in g && Reach(WithEdge(g, e, q), a, a)
    ensures Leads(g, q, e)
  {
    var h := WithEdge(g, e, q);
    var n: nat :| n > 0 && ReachIn(h, a, a, n);
    var c :| c in h && ReachIn(h, a, c, n - 1) && Edge(h, c, a);
    WithEdgeReach(g, e, q, a, c, n - 1);
    if Edge(g, c, a) {
      if Leads(g, a, c) {
        LeadsOn(g, a, c, a);
      } else {
        LeadsOn(g, q, c, a);
        LeadsTransitive(g, q, a, e);
      }
    }
  }

  // ---------------------------------------------------------------- ways in an acyclic graph are short

  /** A way through the graph, node by node. */
  ghost predicate IsWay<N>(g: Graph<N>, p: seq<N>) {
    && (forall i :: 0 <= i < |p| ==> p[i] in g)
    && (forall i :: 0 <= i < |p| - 1 ==> Edge(g, p[i], p[i + 1]))
  }

  lemma {:induction false} WayReaches<N>(g: Graph<N>, p: seq<N>, i: nat, j: nat)
    requires IsWay(g, p) && i <= j < |p|
    ensures ReachIn(g, p[i], p[j], j - i)
    decreases j - i
  {
    if i < j {
      WayReaches(g, p, i, j - 1);
      assert Edge(g, p[j - 1], p[j - 1 + 1]);
    }
  }

  lemma {:induction false} DistinctFits<N>(p: seq<N>, s: set<N>)
    requires forall i :: 0 <= i < |p| ==> p[i] in s
    requires forall i, j :: 0 <= i < j < |p| ==> p[i] != p[j]
    ensures |p| <= |s|
  {
    if p != [] {
      DistinctFits(p[1..], s - {p[0]});
    }
  }

  lemma WayIsShort<N>(g: Graph<N>, p: seq<N>)
    requires Acyclic(g) && IsWay(g, p)
    ensures |p| <= |g.Keys|
  {
    forall i, j | 0 <= i < j < |p|
      ensures p[i] != p[j]
    {
      WayReaches(g, p, i, j);
    }
    DistinctFits(p, g.Keys);
  }
}
