/** What a test receiver does with its messages, as a function (`check` of `erl/x/erltest/test_receiver.go` on the set
    of `erl/x/erltest/expectation_set.go`), and what holds over whole runs: counts and order of the calls. */
module ExpectationRuns {
  import opened Types

  /** The fields of an expectation that matter for matching. */
  datatype Exp<N> = Exp(kind: int, minCalls: int, maxCalls: int, calls: int, preReqs: seq<N>)

  /** All expectations, the two collections of the set, and, as history, the calls in their order. */
  datatype Desk<N> = Desk(exps: map<N, Exp<N>>, expected: map<int, seq<N>>, exhausted: map<int, seq<N>>, log: seq<N>)

  datatype Message = Message(kind: int, body: int)

  function ListOf<N>(m: map<int, seq<N>>, kind: int): seq<N> {
    if kind in m then m[kind] else []
  }

  /** `expected` at its type. */
  predicate Listed<N(==)>(d: Desk<N>, e: N) {
    e in d.exps && e in ListOf(d.expected, d.exps[e].kind)
  }

  predicate Satisfied<N(==)>(d: Desk<N>, e: N) {
    e in d.exps && d.exps[e].calls >= d.exps[e].minCalls
  }

  predicate Spent<N(==)>(d: Desk<N>, e: N) {
    e in d.exps && d.exps[e].calls >= d.exps[e].maxCalls
  }

  predicate AllSatisfied<N(==)>(d: Desk<N>, ps: seq<N>) {
    forall i :: 0 <= i < |ps| ==> Satisfied(d, ps[i])
  }

  /** `Match`. */
  predicate Matches<N(==)>(d: Desk<N>, fits: (N, int) -> bool, e: N, body: int) {
    fits(e, body) && e in d.exps && AllSatisfied(d, d.exps[e].preReqs) && !Spent(d, e)
  }

  /** The first one of a list that matches, or its length. */
  function FirstMatch<N(==)>(d: Desk<N>, fits: (N, int) -> bool, es: seq<N>, body: int): (k: nat)
    ensures k <= |es| && (k < |es| ==> Matches(d, fits, es[k], body))
    ensures forall i :: 0 <= i < k ==> !Matches(d, fits, es[i], body)
  {
    FirstMatchFrom(d, fits, es, body, 0)
  }

  function FirstMatchFrom<N(==)>(d: Desk<N>, fits: (N, int) -> bool, es: seq<N>, body: int, from: nat): (k: nat)
    requires from <= |es|
    ensures from <= k <= |es| && (k < |es| ==> Matches(d, fits, es[k], body))
    ensures forall i :: from <= i < k ==> !Matches(d, fits, es[i], body)
    decreases |es| - from
  {
    if from == |es| || Matches(d, fits, es[from], body) then from else FirstMatchFrom(d, fits, es, body, from + 1)
  }

  /** `FindMatch`, as far as it finds something. */
  function Found<N(==)>(d: Desk<N>, fits: (N, int) -> bool, msg: Message): Option<N> {
    var es := ListOf(d.expected, msg.kind);
    var k := FirstMatch(d, fits, es, msg.body);
    if k < |es| then Some(es[k]) else None
  }

  function IndexFrom<N(==)>(es: seq<N>, e: N, from: nat): (k: nat)
    requires from <= |es|
    ensures from <= k <= |es| && (k < |es| ==> es[k] == e) && forall i :: from <= i < k ==> es[i] != e
    decreases |es| - from
  {
    if from == |es| || es[from] == e then from else IndexFrom(es, e, from + 1)
  }

  /** The list without the first occurrence of `e`. */
  function Without<N(==)>(es: seq<N>, e: N): seq<N> {
    var k := IndexFrom(es, e, 0);
    if k < |es| then es[..k] + es[k + 1..] else es
  }

  /** `Remove`: from the expected to the exhausted ones. */
  function Remove<N(==)>(d: Desk<N>, e: N): Desk<N> {
    if !Listed(d, e) then d
    else
      var kind := d.exps[e].kind;
      d.(expected := d.expected[kind := Without(d.expected[kind], e)],
         exhausted := d.exhausted[kind := ListOf(d.exhausted, kind) + [e]])
  }

  function RemoveAll<N(==)>(d: Desk<N>, es: seq<N>): Desk<N> {
    if es == [] then d else Remove(RemoveAll(d, es[..|es| - 1]), es[|es| - 1])
  }

  /** `call` and `dropPrereqs`: counted, and the prerequisites are forgotten. */
  function Counted<N(==)>(d: Desk<N>, e: N): Desk<N>
    requires e in d.exps
  {
    d.(exps := d.exps[e := d.exps[e].(calls := d.exps[e].calls + 1, preReqs := [])], log := d.log + [e])
  }

  /** A match is counted; its prerequisites are no longer expected, and nor is it once its maximum is reached. */
  function Called<N(==)>(d: Desk<N>, e: N): Desk<N>
    requires e in d.exps
  {
    var r := RemoveAll(Counted(d, e), d.exps[e].preReqs);
    if Spent(r, e) then Remove(r, e) else r
  }

  /** `check`. */
  function Check<N(==)>(d: Desk<N>, fits: (N, int) -> bool, msg: Message): Desk<N> {
    var found := Found(d, fits, msg);
    if found.Some? && found.value in d.exps then Called(d, found.value) else d
  }

  function Run<N(==)>(d: Desk<N>, fits: (N, int) -> bool, msgs: seq<Message>): Desk<N> {
    if msgs == [] then d else Check(Run(d, fits, msgs[..|msgs| - 1]), fits, msgs[|msgs| - 1])
  }

  // ---------------------------------------------------------------- counting

  function Count<N(==)>(log: seq<N>, e: N): nat {
    if log == [] then 0 else Count(log[..|log| - 1], e) + if log[|log| - 1] == e then 1 else 0
  }

  lemma CountSnoc<N>(log: seq<N>, x: N, e: N)
    ensures Count(log + [x], e) == Count(log, e) + if x == e then 1 else 0
  {
    assert (log + [x])[..|log|] == log;
  }

  lemma {:induction false} CountPositive<N>(log: seq<N>, e: N)
    ensures Count(log, e) > 0 <==> e in log
  {
    if log != [] {
      CountPositive(log[..|log| - 1], e);
      assert log == log[..|log| - 1] + [log[|log| - 1]];
    }
  }

  // ---------------------------------------------------------------- the collections

  ghost predicate NoDuplicates<N>(es: seq<N>) {
    forall i, j :: 0 <= i < j < |es| ==> es[i] != es[j]
  }

  /** Everything expected is known, stands at its own type, and stands there once. */
  ghost predicate Tidy<N>(d: Desk<N>) {
    && (forall kind, e :: kind in d.expected && e in d.expected[kind] ==> e in d.exps && d.exps[e].kind == kind)
    && (forall kind :: kind in d.expected ==> NoDuplicates(d.expected[kind]))
  }

  lemma WithoutAt<N>(es: seq<N>, e: N)
    ensures var k := IndexFrom(es, e, 0);
            k < |es| ==>
              && |Without(es, e)| == |es| - 1
              && forall i :: 0 <= i < |es| - 1 ==> Without(es, e)[i] == es[if i < k then i else i + 1]
  {
  }

  lemma WithoutHas<N>(es: seq<N>, e: N, x: N)
    requires NoDuplicates(es)
    ensures x in Without(es, e) <==> x in es && x != e
  {
    WithoutAt(es, e);
    var k, r := IndexFrom(es, e, 0), Without(es, e);
    if k < |es| {
      if x in r {
        var i :| 0 <= i < |r| && r[i] == x;
        assert x == es[if i < k then i else i + 1];
      }
      if x in es && x != e {
        var i :| 0 <= i < |es| && es[i] == x;
        assert r[if i < k then i else i - 1] == x;
      }
    }
  }

  lemma WithoutDistinct<N>(es: seq<N>, e: N)
    requires NoDuplicates(es)
    ensures NoDuplicates(Without(es, e))
  {
    WithoutAt(es, e);
  }

  lemma WithoutProperties<N>(es: seq<N>, e: N)
    requires NoDuplicates(es)
    ensures NoDuplicates(Without(es, e))
    ensures forall x :: x in Without(es, e) <==> x in es && x != e
  {
    WithoutDistinct(es, e);
    forall x | x in es || x in Without(es, e)
      ensures x in Without(es, e) <==> x in es && x != e
    {
      WithoutHas(es, e, x);
    }
  }

  lemma RemoveTidy<N>(d: Desk<N>, e: N)
    requires Tidy(d)
    ensures Tidy(Remove(d, e)) && Remove(d, e).exps == d.exps && Remove(d, e).log == d.log
    ensures forall x :: Listed(Remove(d, e), x) <==> Listed(d, x) && x != e
  {
    if Listed(d, e) {
      WithoutProperties(d.expected[d.exps[e].kind], e);
    }
  }

  lemma {:induction false} RemoveAllTidy<N>(d: Desk<N>, es: seq<N>)
    requires Tidy(d)
    ensures Tidy(RemoveAll(d, es)) && RemoveAll(d, es).exps == d.exps && RemoveAll(d, es).log == d.log
    ensures forall x :: Listed(RemoveAll(d, es), x) <==> Listed(d, x) && x !in es
  {
    if es != [] {
      var n := |es| - 1;
      RemoveAllTidy(d, es[..n]);
      RemoveTidy(RemoveAll(d, es[..n]), es[n]);
      assert es == es[..n] + [es[n]];
    }
  }

  lemma CountedTidy<N>(d: Desk<N>, e: N)
    requires Tidy(d) && e in d.exps
    ensures Tidy(Counted(d, e))
    ensures forall x :: Listed(Counted(d, e), x) <==> Listed(d, x)
  {
  }

  /** What one call does to the collections. */
  lemma CalledTidy<N>(d: Desk<N>, e: N)
    requires Tidy(d) && e in d.exps
    ensures var r := Called(d, e);
            && Tidy(r) && r.exps == Counted(d, e).exps && r.log == d.log + [e]
            && (forall x :: Listed(r, x) ==> Listed(d, x))
            && (forall p :: p in d.exps[e].preReqs ==> !Listed(r, p))
  {
    CountedTidy(d, e);
    RemoveAllTidy(Counted(d, e), d.exps[e].preReqs);
    RemoveTidy(RemoveAll(Counted(d, e), d.exps[e].preReqs), e);
  }

  lemma FoundIsListed<N>(d: Desk<N>, fits: (N, int) -> bool, msg: Message)
    requires Tidy(d) && Found(d, fits, msg).Some?
    ensures var e := Found(d, fits, msg).value;
            Listed(d, e) && d.exps[e].kind == msg.kind && Matches(d, fits, e, msg.body)
  {
    var es := ListOf(d.expected, msg.kind);
    var k := FirstMatch(d, fits, es, msg.body);
    assert es[k] in d.expected[msg.kind];
  }

  // ---------------------------------------------------------------- whole runs

  /** As the test was set up: nothing has been called, no expectation is its own prerequisite, no maximum is
      negative. */
  ghost predicate Fresh<N>(d: Desk<N>) {
    && Tidy(d) && d.log == []
    && forall e :: e in d.exps ==>
         d.exps[e].calls == 0 && d.exps[e].maxCalls >= 0 && e !in d.exps[e].preReqs
  }

  /** The bounds and types are those of the beginning. */
  ghost predicate SameBounds<N>(d0: Desk<N>, d: Desk<N>) {
    && d.exps.Keys == d0.exps.Keys
    && forall e :: e in d.exps ==>
         && d.exps[e].kind == d0.exps[e].kind
         && d.exps[e].minCalls == d0.exps[e].minCalls && d.exps[e].maxCalls == d0.exps[e].maxCalls
  }

  /** The counter of an expectation is the number of its calls, and never above the maximum. */
  ghost predicate Counts<N>(d: Desk<N>) {
    forall e :: e in d.exps ==> d.exps[e].calls == Count(d.log, e) <= d.exps[e].maxCalls
  }

  /** Before the first call the prerequisites are as declared; after it none of them is expected any more. */
  ghost predicate Prerequisites<N>(d0: Desk<N>, d: Desk<N>) {
    forall e :: e in d.exps && e in d0.exps ==>
      && (d.exps[e].calls == 0 ==> d.exps[e].preReqs == d0.exps[e].preReqs)
      && (d.exps[e].calls > 0 ==>
            d.exps[e].preReqs == [] && forall p :: p in d0.exps[e].preReqs ==> !Listed(d, p))
  }

  predicate IsPreReq<N(==)>(d0: Desk<N>, p: N, e: N) {
    e in d0.exps && p in d0.exps[e].preReqs
  }

  /** Every call of a direct prerequisite comes before every call of what it is a prerequisite of. */
  ghost predicate Ordered<N>(d0: Desk<N>, log: seq<N>) {
    forall i, j :: 0 <= i < |log| && 0 <= j < |log| && IsPreReq(d0, log[i], log[j]) ==> i < j
  }

  ghost predicate MinimaReached<N>(d0: Desk<N>, log: seq<N>, ps: seq<N>) {
    forall p :: p in ps ==> p in d0.exps && Count(log, p) >= d0.exps[p].minCalls
  }

  /** At the first call of an expectation each direct prerequisite has been called as often as it must. */
  ghost predicate MinimaFirst<N>(d0: Desk<N>, log: seq<N>) {
    forall j :: 0 <= j < |log| && log[j] !in log[..j] && log[j] in d0.exps ==>
      MinimaReached(d0, log[..j], d0.exps[log[j]].preReqs)
  }

  ghost predicate RunOk<N>(d0: Desk<N>, d: Desk<N>) {
    && Tidy(d) && SameBounds(d0, d) && Counts(d) && Prerequisites(d0, d)
    && Ordered(d0, d.log) && MinimaFirst(d0, d.log)
  }

  lemma CalledCounts<N>(d: Desk<N>, e: N)
    requires Tidy(d) && Counts(d) && e in d.exps && !Spent(d, e)
    ensures Counts(Called(d, e))
  {
    CalledTidy(d, e);
    var r := Called(d, e);
    forall x | x in r.exps
      ensures r.exps[x].calls == Count(r.log, x) <= r.exps[x].maxCalls
    {
      CountSnoc(d.log, e, x);
    }
  }

  lemma CalledPrerequisites<N>(d0: Desk<N>, d: Desk<N>, e: N)
    requires Tidy(d) && Counts(d) && SameBounds(d0, d) && Prerequisites(d0, d) && e in d.exps
    ensures SameBounds(d0, Called(d, e)) && Prerequisites(d0, Called(d, e))
  {
    CalledTidy(d, e);
    var r := Called(d, e);
    forall x | x in r.exps && x in d0.exps && r.exps[x].calls > 0
      ensures r.exps[x].preReqs == [] && forall p :: p in d0.exps[x].preReqs ==> !Listed(r, p)
    {
      if x != e {
        assert d.exps[x].calls > 0;
      } else if d.exps[e].calls == 0 {
        assert d.exps[e].preReqs == d0.exps[e].preReqs;
      }
    }
  }

  /** What is called now is listed, so it is no prerequisite of anything called before. */
  lemma CalledOrdered<N>(d0: Desk<N>, d: Desk<N>, e: N)
    requires Fresh(d0) && RunOk(d0, d) && Listed(d, e)
    ensures Ordered(d0, d.log + [e])
  {
    var log := d.log + [e];
    forall i, j | 0 <= i < |log| && 0 <= j < |log| && IsPreReq(d0, log[i], log[j])
      ensures i < j
    {
      if i == |d.log| && j < |d.log| {
        CountPositive(d.log, log[j]);
      }
    }
  }

  lemma CalledMinima<N>(d0: Desk<N>, d: Desk<N>, e: N)
    requires RunOk(d0, d) && e in d.exps && AllSatisfied(d, d.exps[e].preReqs)
    ensures MinimaFirst(d0, d.log + [e])
  {
    var log := d.log + [e];
    forall j | 0 <= j < |log| && log[j] !in log[..j] && log[j] in d0.exps
      ensures MinimaReached(d0, log[..j], d0.exps[log[j]].preReqs)
    {
      if j < |d.log| {
        assert log[..j] == d.log[..j];
      } else {
        assert log[..j] == d.log;
        CountPositive(d.log, e);
        assert d.exps[e].calls == 0;
        forall p | p in d0.exps[e].preReqs
          ensures p in d0.exps && Count(d.log, p) >= d0.exps[p].minCalls
        {
          var i :| 0 <= i < |d.exps[e].preReqs| && d.exps[e].preReqs[i] == p;
          assert Satisfied(d, p);
        }
      }
    }
  }

  lemma CheckKeeps<N>(d0: Desk<N>, d: Desk<N>, fits: (N, int) -> bool, msg: Message)
    requires Fresh(d0) && RunOk(d0, d)
    ensures RunOk(d0, Check(d, fits, msg))
  {
    if Found(d, fits, msg).Some? {
      FoundIsListed(d, fits, msg);
      var e := Found(d, fits, msg).value;
      CalledTidy(d, e);
      CalledCounts(d, e);
      CalledPrerequisites(d0, d, e);
      CalledOrdered(d0, d, e);
      CalledMinima(d0, d, e);
    }
  }

  /** Over every run of messages: no expectation is called more often than its maximum, its counter is the number of
      its calls, all calls of its direct prerequisites come before its own, and these had reached their minima. */
  lemma {:induction false} RunKeepsOrder<N>(d0: Desk<N>, fits: (N, int) -> bool, msgs: seq<Message>)
    requires Fresh(d0)
    ensures RunOk(d0, Run(d0, fits, msgs))
  {
    if msgs == [] {
      assert forall e :: e in d0.exps ==> Count(d0.log, e) == 0;
    } else {
      RunKeepsOrder(d0, fits, msgs[..|msgs| - 1]);
      CheckKeeps(d0, Run(d0, fits, msgs[..|msgs| - 1]), fits, msgs[|msgs| - 1]);
    }
  }

  // ---------------------------------------------------------------- what one message does

  /** The entries of a list that are not among `gone`, in their order. */
  function Staying<N(==)>(es: seq<N>, gone: seq<N>): seq<N> {
    if es == [] then []
    else Staying(es[..|es| - 1], gone) + if es[|es| - 1] in gone then [] else [es[|es| - 1]]
  }

  /** From the expected lists exactly the entries in `gone` have left, and exactly they came in behind the exhausted
      ones. */
  ghost predicate Moved<N>(expected0: map<int, seq<N>>, exhausted0: map<int, seq<N>>, expected: map<int, seq<N>>,
                           exhausted: map<int, seq<N>>, gone: seq<N>) {
    forall kind :: ListMoved(ListOf(expected0, kind), ListOf(exhausted0, kind), ListOf(expected, kind),
                             ListOf(exhausted, kind), gone)
  }

  ghost predicate ListMoved<N>(es0: seq<N>, xs0: seq<N>, es: seq<N>, xs: seq<N>, gone: seq<N>) {
    && es == Staying(es0, gone)
    && xs0 <= xs
    && (forall i :: |xs0| <= i < |xs| ==> xs[i] in es0 && xs[i] in gone)
    && (forall i :: 0 <= i < |es0| && es0[i] in gone ==> es0[i] in xs[|xs0|..])
  }

  lemma {:induction false} StayingHas<N>(es: seq<N>, gone: seq<N>)
    ensures forall x :: x in Staying(es, gone) <==> x in es && x !in gone
  {
    if es != [] {
      StayingHas(es[..|es| - 1], gone);
      assert es == es[..|es| - 1] + [es[|es| - 1]];
    }
  }

  lemma {:induction false} StayingTwice<N>(es: seq<N>, a: seq<N>, b: seq<N>)
    ensures Staying(Staying(es, a), b) == Staying(es, a + b)
  {
    if es != [] {
      var n := |es| - 1;
      StayingTwice(es[..n], a, b);
      if es[n] !in a {
        assert Staying(es, a)[..|Staying(es, a)| - 1] == Staying(es[..n], a);
      } else {
        assert Staying(es, a) == Staying(es[..n], a);
      }
    }
  }

  lemma {:induction false} StayingAll<N>(es: seq<N>, gone: seq<N>)
    requires forall x :: x in es ==> x !in gone
    ensures Staying(es, gone) == es
  {
    if es != [] {
      var n := |es| - 1;
      assert forall x :: x in es[..n] ==> x in es;
      StayingAll(es[..n], gone);
      assert es == es[..n] + [es[n]] && es[n] in es;
    }
  }

  lemma {:induction false} WithoutStays<N>(es: seq<N>, e: N, k: nat)
    requires NoDuplicates(es) && k < |es| && es[k] == e
    ensures es[..k] + es[k + 1..] == Staying(es, [e])
  {
    var n := |es| - 1;
    if k < n {
      WithoutStays(es[..n], e, k);
      assert es[..n][..k] == es[..k] && es[k + 1..] == es[..n][k + 1..] + [es[n]];
    } else {
      StayingAll(es[..n], [e]);
      assert es[k + 1..] == [];
    }
  }

  lemma MovedTwice<N>(es0: seq<N>, xs0: seq<N>, es1: seq<N>, xs1: seq<N>, es: seq<N>, xs: seq<N>, a: seq<N>, b: seq<N>)
    requires ListMoved(es0, xs0, es1, xs1, a) && ListMoved(es1, xs1, es, xs, b)
    ensures ListMoved(es0, xs0, es, xs, a + b)
  {
    StayingTwice(es0, a, b);
    StayingHas(es0, a);
    assert xs[|xs0|..] == xs1[|xs0|..] + xs[|xs1|..];
  }

  lemma RemoveMoves<N>(d: Desk<N>, e: N, kind: int)
    requires Tidy(d)
    ensures var r := Remove(d, e);
            ListMoved(ListOf(d.expected, kind), ListOf(d.exhausted, kind), ListOf(r.expected, kind),
                      ListOf(r.exhausted, kind), [e])
  {
    var es, xs := ListOf(d.expected, kind), ListOf(d.exhausted, kind);
    if Listed(d, e) && kind == d.exps[e].kind {
      var k := IndexFrom(es, e, 0);
      assert k < |es|;
      WithoutStays(es, e, k);
      assert (xs + [e])[|xs|..] == [e];
    } else {
      assert e !in es;
      StayingAll(es, [e]);
    }
  }

  lemma {:induction false} RemoveAllMoves<N>(d: Desk<N>, es: seq<N>, kind: int)
    requires Tidy(d)
    ensures var r := RemoveAll(d, es);
            ListMoved(ListOf(d.expected, kind), ListOf(d.exhausted, kind), ListOf(r.expected, kind),
                      ListOf(r.exhausted, kind), es)
  {
    if es == [] {
      StayingAll(ListOf(d.expected, kind), es);
    } else {
      var n := |es| - 1;
      var m, r := RemoveAll(d, es[..n]), RemoveAll(d, es);
      RemoveAllTidy(d, es[..n]);
      RemoveAllMoves(d, es[..n], kind);
      RemoveMoves(m, es[n], kind);
      MovedTwice(ListOf(d.expected, kind), ListOf(d.exhausted, kind), ListOf(m.expected, kind),
                 ListOf(m.exhausted, kind), ListOf(r.expected, kind), ListOf(r.exhausted, kind), es[..n], [es[n]]);
      assert es == es[..n] + [es[n]];
    }
  }

  /** The message fits, every prerequisite was called as often as it must, and another call is allowed. */
  ghost predicate Suits<N>(d: Desk<N>, fits: (N, int) -> bool, e: N, body: int) {
    && e in d.exps && fits(e, body)
    && (forall p :: p in d.exps[e].preReqs ==> p in d.exps && d.exps[p].calls >= d.exps[p].minCalls)
    && d.exps[e].calls < d.exps[e].maxCalls
  }

  lemma SuitsIsMatches<N>(d: Desk<N>, fits: (N, int) -> bool, e: N, body: int)
    ensures Suits(d, fits, e, body) <==> Matches(d, fits, e, body)
  {
    if e in d.exps {
      var ps := d.exps[e].preReqs;
      assert forall i :: 0 <= i < |ps| ==> ps[i] in ps;
    }
  }

  /** What one call takes with it: the prerequisites, and the called one itself if that was its last call. */
  function Leaving<N>(x: Exp<N>, e: N): seq<N> {
    x.preReqs + if x.calls + 1 >= x.maxCalls then [e] else []
  }

  /** The first listed expectation that suits a message is called: it is counted once and has no prerequisites left, no
      other one changes, and exactly its prerequisites and, after its last call, itself are no longer expected. */
  lemma FirstSuitedIsCalled<N>(d: Desk<N>, fits: (N, int) -> bool, msg: Message, k: nat)
    requires Tidy(d) && k < |ListOf(d.expected, msg.kind)|
    requires Suits(d, fits, ListOf(d.expected, msg.kind)[k], msg.body)
    requires forall i :: 0 <= i < k ==> !Suits(d, fits, ListOf(d.expected, msg.kind)[i], msg.body)
    ensures var e := ListOf(d.expected, msg.kind)[k];
            var x := d.exps[e];
            var r := Check(d, fits, msg);
            && r.log == d.log + [e]
            && r.exps == d.exps[e := x.(calls := x.calls + 1, preReqs := [])]
            && Moved(d.expected, d.exhausted, r.expected, r.exhausted, Leaving(x, e))
  {
    var e := ListOf(d.expected, msg.kind)[k];
    FirstSuitedIsFound(d, fits, msg, k);
    CalledTidy(d, e);
    var r := Check(d, fits, msg);
    forall kind
      ensures ListMoved(ListOf(d.expected, kind), ListOf(d.exhausted, kind), ListOf(r.expected, kind),
                        ListOf(r.exhausted, kind), Leaving(d.exps[e], e))
    {
      CalledMoves(d, e, kind);
    }
  }

  lemma FirstSuitedIsFound<N>(d: Desk<N>, fits: (N, int) -> bool, msg: Message, k: nat)
    requires k < |ListOf(d.expected, msg.kind)|
    requires Suits(d, fits, ListOf(d.expected, msg.kind)[k], msg.body)
    requires forall i :: 0 <= i < k ==> !Suits(d, fits, ListOf(d.expected, msg.kind)[i], msg.body)
    ensures var e := ListOf(d.expected, msg.kind)[k];
            e in d.exps && Check(d, fits, msg) == Called(d, e)
  {
    var es := ListOf(d.expected, msg.kind);
    var f := FirstMatch(d, fits, es, msg.body);
    forall i | 0 <= i < |es|
      ensures Suits(d, fits, es[i], msg.body) <==> Matches(d, fits, es[i], msg.body)
    {
      SuitsIsMatches(d, fits, es[i], msg.body);
    }
    assert f == k;
  }

  lemma CalledMovesAll<N>(d: Desk<N>, e: N)
    requires Tidy(d) && e in d.exps
    ensures var r := Called(d, e);
            Moved(d.expected, d.exhausted, r.expected, r.exhausted, Leaving(d.exps[e], e))
  {
    forall kind
      ensures var r := Called(d, e);
              ListMoved(ListOf(d.expected, kind), ListOf(d.exhausted, kind), ListOf(r.expected, kind),
                        ListOf(r.exhausted, kind), Leaving(d.exps[e], e))
    {
      CalledMoves(d, e, kind);
    }
  }

  lemma CalledMoves<N>(d: Desk<N>, e: N, kind: int)
    requires Tidy(d) && e in d.exps
    ensures var r := Called(d, e);
            ListMoved(ListOf(d.expected, kind), ListOf(d.exhausted, kind), ListOf(r.expected, kind),
                      ListOf(r.exhausted, kind), Leaving(d.exps[e], e))
  {
    var c := Counted(d, e);
    var ps := d.exps[e].preReqs;
    var m := RemoveAll(c, ps);
    CountedTidy(d, e);
    RemoveAllTidy(c, ps);
    RemoveAllMoves(c, ps, kind);
    if Spent(m, e) {
      var r := Remove(m, e);
      RemoveMoves(m, e, kind);
      MovedTwice(ListOf(d.expected, kind), ListOf(d.exhausted, kind), ListOf(m.expected, kind),
                 ListOf(m.exhausted, kind), ListOf(r.expected, kind), ListOf(r.exhausted, kind), ps, [e]);
    } else {
      assert ps + [] == ps;
    }
  }

  /** If no listed one suits it, a message changes nothing. */
  lemma UnsuitedChangesNothing<N>(d: Desk<N>, fits: (N, int) -> bool, msg: Message)
    requires forall i :: 0 <= i < |ListOf(d.expected, msg.kind)| ==>
               !Suits(d, fits, ListOf(d.expected, msg.kind)[i], msg.body)
    ensures Check(d, fits, msg) == d
  {
    var es := ListOf(d.expected, msg.kind);
    var f := FirstMatch(d, fits, es, msg.body);
    if f < |es| {
      SuitsIsMatches(d, fits, es[f], msg.body);
    }
  }

  /** Over whole runs: the log grows by exactly the first one that suits, message by message. */
  lemma RunLogs<N>(d0: Desk<N>, fits: (N, int) -> bool, msgs: seq<Message>, msg: Message, k: nat)
    requires Fresh(d0) && k <= |ListOf(Run(d0, fits, msgs).expected, msg.kind)|
    requires var d := Run(d0, fits, msgs);
             var es := ListOf(d.expected, msg.kind);
             && (forall i :: 0 <= i < k ==> !Suits(d, fits, es[i], msg.body))
             && (k < |es| ==> Suits(d, fits, es[k], msg.body))
    ensures var d := Run(d0, fits, msgs);
            var es := ListOf(d.expected, msg.kind);
            Run(d0, fits, msgs + [msg]).log == d.log + if k < |es| then [es[k]] else []
  {
    var d := Run(d0, fits, msgs);
    RunKeepsOrder(d0, fits, msgs);
    assert (msgs + [msg])[..|msgs|] == msgs;
    if k < |ListOf(d.expected, msg.kind)| {
      FirstSuitedIsCalled(d, fits, msg, k);
    } else {
      UnsuitedChangesNothing(d, fits, msg);
    }
  }

  // ---------------------------------------------------------------- how many there are

  ghost function SomeKey<N>(m: map<int, seq<N>>): (k: int)
    requires exists k :: k in m
    ensures k in m
  {
    var k :| k in m;
    k
  }

  /** The number of entries in all lists of a collection. */
  ghost function Total<N>(m: map<int, seq<N>>): nat
    decreases |m.Keys|
  {
    if forall k :: k !in m then 0
    else
      var k := SomeKey(m);
      assert (m - {k}).Keys == m.Keys - {k};
      |m[k]| + Total(m - {k})
  }

  lemma {:induction false} TotalSplit<N>(m: map<int, seq<N>>, k: int)
    requires k in m
    ensures Total(m) == |m[k]| + Total(m - {k})
    decreases |m.Keys|
  {
    var c := SomeKey(m);
    if c != k {
      var a, b := m - {c}, m - {k};
      assert a.Keys == m.Keys - {c} && b.Keys == m.Keys - {k};
      assert a - {k} == b - {c};
      TotalSplit(a, k);
      TotalSplit(b, c);
    }
  }

  lemma TotalUpdate<N>(m: map<int, seq<N>>, k: int, es: seq<N>)
    ensures Total(m[k := es]) == Total(m) - |ListOf(m, k)| + |es|
  {
    TotalSplit(m[k := es], k);
    assert m[k := es] - {k} == m - {k};
    if k in m {
      TotalSplit(m, k);
    } else {
      assert m - {k} == m;
    }
  }

  ghost function HowMany<N>(d: Desk<N>): nat {
    Total(d.expected) + Total(d.exhausted)
  }

  /** Both collections have the same types. */
  ghost predicate Paired<N>(d: Desk<N>) {
    d.expected.Keys == d.exhausted.Keys
  }

  /** `Add`. */
  function Add<N(==)>(d: Desk<N>, e: N): Desk<N>
    requires e in d.exps
  {
    var kind := d.exps[e].kind;
    if kind in d.expected then d.(expected := d.expected[kind := d.expected[kind] + [e]])
    else d.(expected := d.expected[kind := [e]], exhausted := d.exhausted[kind := []])
  }

  lemma AddCounts<N>(d: Desk<N>, e: N)
    requires Paired(d) && e in d.exps
    ensures Paired(Add(d, e)) && HowMany(Add(d, e)) == HowMany(d) + 1
  {
    var kind := d.exps[e].kind;
    var more := ListOf(d.expected, kind) + [e];
    TotalUpdate(d.expected, kind, more);
    assert d.expected[kind := more].Keys == d.expected.Keys + {kind};
    if kind !in d.expected {
      TotalUpdate(d.exhausted, kind, []);
      assert more == [e];
      assert Add(d, e).exhausted.Keys == d.exhausted.Keys + {kind};
    }
  }

  /** What leaves the expected ones is found among the exhausted ones. */
  lemma RemoveCounts<N>(d: Desk<N>, e: N)
    requires Paired(d)
    ensures Paired(Remove(d, e)) && HowMany(Remove(d, e)) == HowMany(d)
  {
    if Listed(d, e) {
      var kind := d.exps[e].kind;
      var es := d.expected[kind];
      var k := IndexFrom(es, e, 0);
      assert k < |es|;
      TotalUpdate(d.expected, kind, Without(es, e));
      TotalUpdate(d.exhausted, kind, ListOf(d.exhausted, kind) + [e]);
    }
  }

  lemma {:induction false} RemoveAllCounts<N>(d: Desk<N>, es: seq<N>)
    requires Paired(d)
    ensures Paired(RemoveAll(d, es)) && HowMany(RemoveAll(d, es)) == HowMany(d)
  {
    if es != [] {
      RemoveAllCounts(d, es[..|es| - 1]);
      RemoveCounts(RemoveAll(d, es[..|es| - 1]), es[|es| - 1]);
    }
  }

  lemma {:induction false} AddAllCounts<N>(d: Desk<N>, es: seq<N>)
    requires Paired(d) && forall i :: 0 <= i < |es| ==> es[i] in d.exps
    ensures Paired(AddAll(d, es)) && HowMany(AddAll(d, es)) == HowMany(d) + |es| && AddAll(d, es).exps == d.exps
  {
    if es != [] {
      AddAllCounts(d, es[..|es| - 1]);
      AddCounts(AddAll(d, es[..|es| - 1]), es[|es| - 1]);
    }
  }

  function AddAll<N(==)>(d: Desk<N>, es: seq<N>): (r: Desk<N>)
    requires forall i :: 0 <= i < |es| ==> es[i] in d.exps
    ensures r.exps == d.exps
  {
    if es == [] then d else Add(AddAll(d, es[..|es| - 1]), es[|es| - 1])
  }

  lemma {:induction false} RunCounts<N>(d: Desk<N>, fits: (N, int) -> bool, msgs: seq<Message>)
    requires Paired(d)
    ensures Paired(Run(d, fits, msgs)) && HowMany(Run(d, fits, msgs)) == HowMany(d)
  {
    if msgs != [] {
      var before := Run(d, fits, msgs[..|msgs| - 1]);
      RunCounts(d, fits, msgs[..|msgs| - 1]);
      var found := Found(before, fits, msgs[|msgs| - 1]);
      if found.Some? && found.value in before.exps {
        var e := found.value;
        RemoveAllCounts(Counted(before, e), before.exps[e].preReqs);
        RemoveCounts(RemoveAll(Counted(before, e), before.exps[e].preReqs), e);
      }
    }
  }

  /** However many messages come in, `howMany` is the number of expectations that were added. */
  lemma HowManyIsAdds<N>(exps: map<N, Exp<N>>, added: seq<N>, fits: (N, int) -> bool, msgs: seq<Message>)
    requires forall i :: 0 <= i < |added| ==> added[i] in exps
    ensures HowMany(Run(AddAll(Desk(exps, map[], map[], []), added), fits, msgs)) == |added|
  {
    var d := Desk(exps, map[], map[], []);
    AddAllCounts(d, added);
    RunCounts(AddAll(d, added), fits, msgs);
  }
}
