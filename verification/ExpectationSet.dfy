/** The set of expectations of a test receiver (`erl/x/erltest/expectation_set.go`) and the step that takes a message to
    it (`check` of `erl/x/erltest/test_receiver.go`), on the objects themselves. */
module ExpectationSetObject {
  import opened Types
  import opened Graphs
  import opened ExpectationRuns
  import opened ExpectationObject

  /** The expectations as values. */
  ghost function StoreOf(all: set<Expectation>): map<Expectation, Exp<Expectation>>
    reads all
  {
    map e | e in all :: Exp(e.kind, e.minCalls, e.maxCalls, e.numCalls, e.preReqs)
  }

  function Fits(): (Expectation, int) -> bool {
    (e: Expectation, body: int) => e.matcher(body)
  }

  ghost predicate AllMatch(d: Desk<Expectation>, es: seq<Expectation>, body: int) {
    forall i :: 0 <= i < |es| ==> Matches(d, Fits(), es[i], body)
  }

  class ExpectationSet {
    var expected: map<int, seq<Expectation>>
    var exhausted: map<int, seq<Expectation>>
    var misses: seq<Message>

    constructor ()
      ensures expected == map[] && exhausted == map[] && misses == []
    {
      expected := map[];
      exhausted := map[];
      misses := [];
    }

    ghost function DeskOf(all: set<Expectation>, log: seq<Expectation>): Desk<Expectation>
      reads this`expected, this`exhausted, all
    {
      Desk(StoreOf(all), expected, exhausted, log)
    }

    /** The loop of `FindMatch` over one list. */
    method FirstOf(es: seq<Expectation>, body: int, ghost all: set<Expectation>, ghost log: seq<Expectation>)
      returns (k: nat)
      requires Closed(GraphOf(all)) && forall i :: 0 <= i < |es| ==> es[i] in all
      ensures k == FirstMatch(DeskOf(all, log), Fits(), es, body)
    {
      ghost var d := DeskOf(all, log);
      k := 0;
      while k < |es|
        invariant 0 <= k <= |es|
        invariant forall i :: 0 <= i < k ==> !Matches(d, Fits(), es[i], body)
      {
        var ok := es[k].Match(body);
        MatchIs(all, d, es[k], body);
        if ok {
          return;
        }
        k := k + 1;
      }
    }

    /** `FindMatch`: the first expected one that matches. If there is none, the message is a miss, unless one of the
        exhausted ones does not match it either. */
    method FindMatch(msg: Message, ghost all: set<Expectation>, ghost log: seq<Expectation>)
      returns (ex: Option<Expectation>)
      requires Closed(GraphOf(all)) && Tidy(DeskOf(all, log))
      requires forall kind :: kind in exhausted ==> forall i :: 0 <= i < |exhausted[kind]| ==> exhausted[kind][i] in all
      modifies this`misses
      ensures ex == Found(old(DeskOf(all, log)), Fits(), msg)
      ensures ex.Some? ==> misses == old(misses)
      ensures ex == None ==>
                var spent := ListOf(exhausted, msg.kind);
                && (AllMatch(old(DeskOf(all, log)), spent, msg.body) ==> misses == old(misses) + [msg])
                && (!AllMatch(old(DeskOf(all, log)), spent, msg.body) ==> misses == old(misses))
    {
      ghost var d := DeskOf(all, log);
      var es := ListOf(expected, msg.kind);
      assert forall i :: 0 <= i < |es| ==> es[i] in d.exps;
      var k := FirstOf(es, msg.body, all, log);
      if k < |es| {
        return Some(es[k]);
      }
      var spent := ListOf(exhausted, msg.kind);
      var j := 0;
      while j < |spent|
        invariant 0 <= j <= |spent| && misses == old(misses)
        invariant forall i :: 0 <= i < j ==> Matches(d, Fits(), spent[i], msg.body)
      {
        var ok := spent[j].Match(msg.body);
        MatchIs(all, d, spent[j], msg.body);
        if !ok {
          assert !AllMatch(d, spent, msg.body);
          return None;
        }
        j := j + 1;
      }
      assert AllMatch(d, spent, msg.body);
      misses := misses + [msg];
      return None;
    }

    /** `Add`. */
    method Insert(ex: Expectation, ghost all: set<Expectation>, ghost log: seq<Expectation>)
      requires ex in all
      modifies this`expected, this`exhausted
      ensures DeskOf(all, log) == Add(old(DeskOf(all, log)), ex)
      ensures ListOf(expected, ex.kind) == old(ListOf(expected, ex.kind)) + [ex]
      ensures forall kind :: kind != ex.kind ==>
                ListOf(expected, kind) == old(ListOf(expected, kind))
                && ListOf(exhausted, kind) == old(ListOf(exhausted, kind))
    {
      if ex.kind !in expected {
        expected := expected[ex.kind := [ex]];
        exhausted := exhausted[ex.kind := []];
      } else {
        expected := expected[ex.kind := expected[ex.kind] + [ex]];
      }
    }

    /** `Remove`. */
    method Retire(ex: Expectation, ghost all: set<Expectation>, ghost log: seq<Expectation>)
      requires ex in all
      modifies this`expected, this`exhausted
      ensures DeskOf(all, log) == Remove(old(DeskOf(all, log)), ex)
    {
      var es := ListOf(expected, ex.kind);
      var i := 0;
      while i < |es|
        invariant 0 <= i <= |es|
        invariant forall j :: 0 <= j < i ==> es[j] != ex
        invariant expected == old(expected) && exhausted == old(exhausted)
      {
        if es[i] == ex {
          assert IndexFrom(es, ex, 0) == i;
          expected := expected[ex.kind := es[..i] + es[i + 1..]];
          exhausted := exhausted[ex.kind := ListOf(exhausted, ex.kind) + [ex]];
          return;
        }
        i := i + 1;
      }
    }

    /** `howMany`. */
    method CountAll(ghost all: set<Expectation>, ghost log: seq<Expectation>) returns (cnt: nat)
      ensures cnt == HowMany(DeskOf(all, log))
    {
      var a := TotalOf(expected);
      var b := TotalOf(exhausted);
      cnt := a + b;
    }
  }

  /** The loop over a map, in any order. */
  method TotalOf(m: map<int, seq<Expectation>>) returns (cnt: nat)
    ensures cnt == Total(m)
  {
    cnt := 0;
    var rest, keys := m, m.Keys;
    while exists k :: k in keys
      invariant keys == rest.Keys && cnt + Total(rest) == Total(m)
      decreases |keys|
    {
      var k :| k in keys;
      TotalSplit(rest, k);
      cnt := cnt + |rest[k]|;
      rest, keys := rest - {k}, keys - {k};
    }
    assert forall k :: k !in rest;
  }

  /** `Match` on the object is `Matches` on its value. */
  lemma MatchIs(all: set<Expectation>, d: Desk<Expectation>, e: Expectation, body: int)
    requires e in all && Closed(GraphOf(all)) && d.exps == StoreOf(all)
    ensures Matches(d, Fits(), e, body)
       <==> e.matcher(body) && (forall p :: p in e.preReqs ==> p.IsSatisfied()) && !e.IsExhausted()
  {
    var g := GraphOf(all);
    assert e in g && g[e] == e.preReqs;
    assert forall p :: p in g[e] ==> p in g;
    assert d.exps[e].preReqs == e.preReqs;
    assert forall i :: 0 <= i < |e.preReqs| ==> e.preReqs[i] in e.preReqs;
    forall p | p in e.preReqs
      ensures Satisfied(d, p) == p.IsSatisfied()
    {
    }
  }

  /** The message fits, every prerequisite was called as often as it must, and another call is allowed. */
  ghost predicate Ready(e: Expectation, body: int)
    reads e, e.preReqs
  {
    && e.matcher(body)
    && (forall p :: p in e.preReqs ==> p.numCalls >= p.minCalls)
    && e.numCalls < e.maxCalls
  }

  lemma ReadySuits(all: set<Expectation>, d: Desk<Expectation>, e: Expectation, body: int)
    requires e in all && Closed(GraphOf(all)) && d.exps == StoreOf(all)
    ensures Ready(e, body) <==> Suits(d, Fits(), e, body)
  {
    var g := GraphOf(all);
    assert e in g && g[e] == e.preReqs;
    assert forall p :: p in g[e] ==> p in g;
  }

  class TestReceiver {
    const expectations: ExpectationSet
    var msgCnt: nat
    var failures: nat

    constructor (expectations: ExpectationSet)
      ensures this.expectations == expectations && msgCnt == 0 && failures == 0
    {
      this.expectations := expectations;
      msgCnt := 0;
      failures := 0;
    }

    /** `check`, without the user's action. */
    method CheckMessage(msg: Message, isCall: bool, ghost all: set<Expectation>, ghost log: seq<Expectation>)
      returns (ghost after: seq<Expectation>, ghost es: seq<Expectation>, ghost at: nat)
      requires Closed(GraphOf(all)) && Tidy(expectations.DeskOf(all, log))
      requires forall kind :: kind in expectations.exhausted ==>
                 forall i :: 0 <= i < |expectations.exhausted[kind]| ==> expectations.exhausted[kind][i] in all
      modifies this`msgCnt, this`failures, expectations, all
      ensures expectations.DeskOf(all, after) == Check(old(expectations.DeskOf(all, log)), Fits(), msg)
      ensures msgCnt == old(msgCnt) + 1
      ensures es == old(ListOf(expectations.expected, msg.kind)) && at <= |es|
      ensures forall i :: 0 <= i < at ==> !old(Ready(es[i], msg.body))
      ensures at < |es| ==> old(Ready(es[at], msg.body))
      ensures failures == old(failures) + if at == |es| && !isCall then 1 else 0
      ensures after == log + if at < |es| then [es[at]] else []
      ensures forall x :: x in all && (at < |es| ==> x != es[at]) ==>
                x.numCalls == old(x.numCalls) && x.preReqs == old(x.preReqs)
      ensures at == |es| ==>
                && expectations.expected == old(expectations.expected)
                && expectations.exhausted == old(expectations.exhausted)
      ensures at < |es| ==>
                && es[at].numCalls == old(es[at].numCalls) + 1 && es[at].preReqs == []
                && Moved(old(expectations.expected), old(expectations.exhausted), expectations.expected,
                         expectations.exhausted,
                         old(es[at].preReqs) + if es[at].numCalls >= es[at].maxCalls then [es[at]] else [])
    {
      var found;
      found, es, at := Find(msg, all, log);
      after := Act(found, isCall, all, log);
    }

    /** The message is counted and goes to `FindMatch`; `at` is the place of the match, or the length of the list. */
    method Find(msg: Message, ghost all: set<Expectation>, ghost log: seq<Expectation>)
      returns (found: Option<Expectation>, ghost es: seq<Expectation>, ghost at: nat)
      requires Closed(GraphOf(all)) && Tidy(expectations.DeskOf(all, log))
      requires forall kind :: kind in expectations.exhausted ==>
                 forall i :: 0 <= i < |expectations.exhausted[kind]| ==> expectations.exhausted[kind][i] in all
      modifies this`msgCnt, expectations`misses
      ensures msgCnt == old(msgCnt) + 1
      ensures GraphOf(all) == old(GraphOf(all)) && expectations.DeskOf(all, log) == old(expectations.DeskOf(all, log))
      ensures es == old(ListOf(expectations.expected, msg.kind)) && at <= |es|
      ensures forall i :: 0 <= i < at ==> !old(Ready(es[i], msg.body))
      ensures at < |es| ==> old(Ready(es[at], msg.body)) && es[at] in all
      ensures found == if at < |es| then Some(es[at]) else None
      ensures Check(old(expectations.DeskOf(all, log)), Fits(), msg)
           == if at < |es| && es[at] in all then Called(old(expectations.DeskOf(all, log)), es[at])
              else old(expectations.DeskOf(all, log))
    {
      ghost var d, g := expectations.DeskOf(all, log), GraphOf(all);
      es := ListOf(expectations.expected, msg.kind);
      at := PlaceOf(d, msg, all);
      msgCnt := msgCnt + 1;
      assert GraphOf(all) == g && expectations.DeskOf(all, log) == d;
      found := expectations.FindMatch(msg, all, log);
      assert GraphOf(all) == g && expectations.DeskOf(all, log) == d;
    }

    /** What comes after `FindMatch`. */
    method Act(found: Option<Expectation>, isCall: bool, ghost all: set<Expectation>, ghost log: seq<Expectation>)
      returns (ghost after: seq<Expectation>)
      requires Closed(GraphOf(all)) && Tidy(expectations.DeskOf(all, log)) && (found.Some? ==> found.value in all)
      modifies this`failures, expectations`expected, expectations`exhausted
      modifies if found.Some? then {found.value} else {}
      ensures failures == old(failures) + if found == None && !isCall then 1 else 0
      ensures forall x :: x in all && Some(x) != found ==> x.numCalls == old(x.numCalls) && x.preReqs == old(x.preReqs)
      ensures expectations.DeskOf(all, after)
           == if found.Some? then Called(old(expectations.DeskOf(all, log)), found.value)
              else old(expectations.DeskOf(all, log))
      ensures found == None ==> after == log && expectations.expected == old(expectations.expected)
                                && expectations.exhausted == old(expectations.exhausted)
      ensures found.Some? ==>
                var e := found.value;
                && after == log + [e]
                && e.numCalls == old(e.numCalls) + 1 && e.preReqs == []
                && Moved(old(expectations.expected), old(expectations.exhausted), expectations.expected,
                         expectations.exhausted, old(e.preReqs) + if e.numCalls >= e.maxCalls then [e] else [])
    {
      if found == None {
        if !isCall {
          failures := failures + 1;
        }
        return log;
      }
      after := log + [found.value];
      Serve(found.value, all, log);
    }

    /** Where `FindMatch` finds its match. */
    lemma PlaceOf(d: Desk<Expectation>, msg: Message, all: set<Expectation>) returns (at: nat)
      requires Closed(GraphOf(all)) && Tidy(d) && d.exps == StoreOf(all)
      ensures var es := ListOf(d.expected, msg.kind);
              && at <= |es|
              && Found(d, Fits(), msg) == (if at < |es| then Some(es[at]) else None)
              && Check(d, Fits(), msg) == (if at < |es| && es[at] in d.exps then Called(d, es[at]) else d)
              && (at < |es| ==> es[at] in all && es[at] in d.exps)
              && (forall i :: 0 <= i < at ==> !Ready(es[i], msg.body))
              && (at < |es| ==> Ready(es[at], msg.body))
    {
      var es := ListOf(d.expected, msg.kind);
      at := FirstMatch(d, Fits(), es, msg.body);
      forall i | 0 <= i < |es|
        ensures es[i] in all && (Ready(es[i], msg.body) <==> Suits(d, Fits(), es[i], msg.body))
        ensures Suits(d, Fits(), es[i], msg.body) <==> Matches(d, Fits(), es[i], msg.body)
      {
        assert es[i] in d.expected[msg.kind] && es[i] in d.exps;
        ReadySuits(all, d, es[i], msg.body);
        SuitsIsMatches(d, Fits(), es[i], msg.body);
      }
    }

    /** The match is counted, its prerequisites are retired, and so is the match itself once it is exhausted. */
    method Serve(e: Expectation, ghost all: set<Expectation>, ghost log: seq<Expectation>)
      requires e in all && Closed(GraphOf(all)) && Tidy(expectations.DeskOf(all, log))
      modifies expectations`expected, expectations`exhausted, e`numCalls, e`preReqs
      ensures expectations.DeskOf(all, log + [e]) == Called(old(expectations.DeskOf(all, log)), e)
      ensures e.numCalls == old(e.numCalls) + 1 && e.preReqs == []
      ensures Moved(old(expectations.expected), old(expectations.exhausted), expectations.expected,
                    expectations.exhausted, old(e.preReqs) + if e.numCalls >= e.maxCalls then [e] else [])
    {
      CalledMovesAll(expectations.DeskOf(all, log), e);
      var preReqs := CountOne(e, all, log);
      RetireAll(preReqs, all, log + [e]);
      assert expectations.DeskOf(all, log + [e]).exps == StoreOf(all);
      if e.IsExhausted() {
        expectations.Retire(e, all, log + [e]);
      }
    }

    /** `call` and `dropPrereqs`. */
    method CountOne(e: Expectation, ghost all: set<Expectation>, ghost log: seq<Expectation>)
      returns (preReqs: seq<Expectation>)
      requires e in all && Closed(GraphOf(all))
      modifies e`numCalls, e`preReqs
      ensures expectations.DeskOf(all, log + [e]) == Counted(old(expectations.DeskOf(all, log)), e)
      ensures e.numCalls == old(e.numCalls) + 1 && e.preReqs == []
      ensures preReqs == old(e.preReqs) && forall i :: 0 <= i < |preReqs| ==> preReqs[i] in all
    {
      ghost var d := expectations.DeskOf(all, log);
      ghost var g := GraphOf(all);
      assert e in g && forall i :: 0 <= i < |e.preReqs| ==> e.preReqs[i] in g[e] && e.preReqs[i] in g;
      e.Call();
      preReqs := e.DropPrereqs(all);
      assert StoreOf(all) == Counted(d, e).exps;
    }

    method RetireAll(preReqs: seq<Expectation>, ghost all: set<Expectation>, ghost log: seq<Expectation>)
      requires forall i :: 0 <= i < |preReqs| ==> preReqs[i] in all
      modifies expectations`expected, expectations`exhausted
      ensures expectations.DeskOf(all, log) == RemoveAll(old(expectations.DeskOf(all, log)), preReqs)
    {
      ghost var d := expectations.DeskOf(all, log);
      var k := 0;
      while k < |preReqs|
        invariant 0 <= k <= |preReqs|
        invariant expectations.DeskOf(all, log) == RemoveAll(d, preReqs[..k])
      {
        assert preReqs[..k + 1][..k] == preReqs[..k];
        expectations.Retire(preReqs[k], all, log);
        k := k + 1;
      }
      assert preReqs[..k] == preReqs;
    }
  }
}
