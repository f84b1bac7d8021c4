/** Expectations as objects that point to each other (`erl/x/erltest/expect.go`). */
module ExpectationObject {
  import opened Types
  import opened Graphs

  /** The prerequisite graph of a set of expectations. */
  ghost function GraphOf(all: set<Expectation>): Graph<Expectation>
    reads all
  {
    map e | e in all :: e.preReqs
  }

  class Expectation {
    const kind: int
    const matcher: int -> bool
    var minCalls: int
    var maxCalls: int
    var numCalls: int
    var preReqs: seq<Expectation>

    /** `newExpect`. */
    constructor (kind: int, matcher: int -> bool)
      ensures this.kind == kind && this.matcher == matcher
      ensures minCalls == 0 && maxCalls == 1 && numCalls == 0 && preReqs == []
    {
      this.kind := kind;
      this.matcher := matcher;
      minCalls := 0;
      maxCalls := 1;
      numCalls := 0;
      preReqs := [];
    }

    predicate IsSatisfied()
      reads this
    {
      numCalls >= minCalls
    }

    predicate IsExhausted()
      reads this
    {
      numCalls >= maxCalls
    }

    /** `isPreReq`: a search over the objects, which ends because the graph has no cycle; `way` is how it got here. */
    method IsPreReq(other: Expectation, ghost all: set<Expectation>, ghost g: Graph<Expectation>,
                    ghost way: seq<Expectation>)
      returns (r: bool)
      requires this in all && g == GraphOf(all) && Closed(g) && Acyclic(g) && IsWay(g, way + [this])
      ensures r <==> Reach(g, this, other)
      decreases |all| - |way|
    {
      WayFits(all, way + [this]);
      var k := 0;
      while k < |preReqs|
        invariant 0 <= k <= |preReqs|
        invariant forall j :: 0 <= j < k ==> !Leads(g, preReqs[j], other)
      {
        var preReq := preReqs[k];
        assert this in g && preReq in g[this];
        assert preReq in g && Edge(g, this, preReq);
        ReachLeads(g, preReq, other);
        if other == preReq {
          ReachFirst(g, this, other);
          return true;
        }
        WayOn(g, way, this, preReq);
        var deeper := preReq.IsPreReq(other, all, g, way + [this]);
        if deeper {
          ReachFirst(g, this, other);
          return true;
        }
        k := k + 1;
      }
      ReachFirst(g, this, other);
      return false;
    }

    /** `After`, with `Fatalf` taken as the end of the test: the edge is entered exactly if it closes no cycle, so the
        graph never has one. */
    method After(preReq: Expectation, ghost all: set<Expectation>) returns (fatal: bool)
      requires this in all && preReq in all && Closed(GraphOf(all)) && Acyclic(GraphOf(all))
      modifies this`preReqs
      ensures fatal <==> !Acyclic(WithEdge(old(GraphOf(all)), this, preReq))
      ensures GraphOf(all) == if fatal then old(GraphOf(all)) else WithEdge(old(GraphOf(all)), this, preReq)
      ensures Closed(GraphOf(all)) && Acyclic(GraphOf(all))
    {
      ghost var g := GraphOf(all);
      EdgeMakesCycle(g, this, preReq);
      if this == preReq {
        return true;
      }
      assert [] + [preReq] == [preReq];
      var loop := preReq.IsPreReq(this, all, g, []);
      if loop {
        return true;
      }
      preReqs := preReqs + [preReq];
      assert GraphOf(all) == WithEdge(g, this, preReq);
      return false;
    }

    /** `dropPrereqs`. */
    method DropPrereqs(ghost all: set<Expectation>) returns (was: seq<Expectation>)
      requires this in all
      modifies this`preReqs
      ensures was == old(preReqs) && preReqs == []
      ensures GraphOf(all) == old(GraphOf(all))[this := []]
    {
      was := preReqs;
      preReqs := [];
    }

    /** `call`. */
    method Call()
      modifies this`numCalls
      ensures numCalls == old(numCalls) + 1
    {
      numCalls := numCalls + 1;
    }

    /** `Match`: the message fits, every prerequisite has its minimum, and the maximum is not reached. */
    method Match(msg: int) returns (ok: bool)
      ensures ok <==> matcher(msg) && (forall p :: p in preReqs ==> p.IsSatisfied()) && !IsExhausted()
    {
      if !matcher(msg) {
        return false;
      }
      var k := 0;
      while k < |preReqs|
        invariant 0 <= k <= |preReqs|
        invariant forall j :: 0 <= j < k ==> preReqs[j].IsSatisfied()
      {
        if !preReqs[k].IsSatisfied() {
          assert preReqs[k] in preReqs;
          return false;
        }
        k := k + 1;
      }
      return !IsExhausted();
    }
  }

  /** The graph stays closed and free of cycles when an expectation drops its prerequisites. */
  lemma DropKeepsAcyclic(g: Graph<Expectation>, e: Expectation)
    requires e in g && Closed(g) && Acyclic(g)
    ensures Closed(g[e := []]) && Acyclic(g[e := []])
  {
    FewerEdgesAcyclic(g, g[e := []]);
  }

  lemma WayFits(all: set<Expectation>, way: seq<Expectation>)
    requires Acyclic(GraphOf(all)) && IsWay(GraphOf(all), way)
    ensures |way| <= |all|
  {
    WayIsShort(GraphOf(all), way);
    assert GraphOf(all).Keys == all;
  }

  lemma WayOn(g: Graph<Expectation>, way: seq<Expectation>, e: Expectation, next: Expectation)
    requires Closed(g) && IsWay(g, way + [e]) && Edge(g, e, next)
    ensures IsWay(g, way + [e] + [next])
  {
    var p := way + [e] + [next];
    forall i | 0 <= i < |p| - 1
      ensures Edge(g, p[i], p[i + 1])
    {
      if i < |way| {
        assert p[i] == (way + [e])[i] && p[i + 1] == (way + [e])[i + 1];
      }
    }
    forall i | 0 <= i < |p|
      ensures p[i] in g
    {
      if i <= |way| {
        assert p[i] == (way + [e])[i];
      }
    }
  }
}
