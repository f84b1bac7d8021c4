/** Sums of a weight over a sequence: how tokens and work are counted across a whole system. */
module Sums {

  function Sum<T>(s: seq<T>, weight: T -> nat): nat {
    if s == [] then 0 else Sum(s[..|s| - 1], weight) + weight(s[|s| - 1])
  }

  lemma {:induction false} SumAppend<T>(a: seq<T>, b: seq<T>, weight: T -> nat)
    ensures Sum(a + b, weight) == Sum(a, weight) + Sum(b, weight)
  {
    if b == [] {
      assert a + b == a;
    } else {
      var n := |b| - 1;
      SumAppend(a, b[..n], weight);
      assert (a + b)[..|a + b| - 1] == a + b[..n];
    }
  }

  lemma SumOne<T>(x: T, weight: T -> nat)
    ensures Sum([x], weight) == weight(x)
  {
    assert [x][..0] == [];
  }

  lemma SumSnoc<T>(s: seq<T>, x: T, weight: T -> nat)
    ensures Sum(s + [x], weight) == Sum(s, weight) + weight(x)
  {
    assert (s + [x])[..|s|] == s;
  }

  /** The first element, split off. */
  lemma SumFirst<T>(s: seq<T>, weight: T -> nat)
    requires s != []
    ensures Sum(s, weight) == weight(s[0]) + Sum(s[1..], weight)
  {
    assert s == [s[0]] + s[1..];
    SumAppend([s[0]], s[1..], weight);
    SumOne(s[0], weight);
  }

  lemma SumUpdate<T>(s: seq<T>, i: nat, x: T, weight: T -> nat)
    requires i < |s|
    ensures Sum(s[i := x], weight) + weight(s[i]) == Sum(s, weight) + weight(x)
  {
    assert s == s[..i] + ([s[i]] + s[i + 1..]);
    assert s[i := x] == s[..i] + ([x] + s[i + 1..]);
    SumAppend(s[..i], [s[i]] + s[i + 1..], weight);
    SumAppend(s[..i], [x] + s[i + 1..], weight);
    SumAppend([s[i]], s[i + 1..], weight);
    SumAppend([x], s[i + 1..], weight);
    SumOne(s[i], weight);
    SumOne(x, weight);
  }

  /** Any two positions together weigh no more than the whole. */
  lemma {:induction false} SumPair<T>(s: seq<T>, i: nat, j: nat, weight: T -> nat)
    requires i < j < |s|
    ensures Sum(s, weight) >= weight(s[i]) + weight(s[j])
  {
    var n := |s| - 1;
    if j < n {
      SumPair(s[..n], i, j, weight);
    } else {
      SumAtLeast(s[..n], i, weight);
    }
  }

  lemma {:induction false} SumAtLeast<T>(s: seq<T>, i: nat, weight: T -> nat)
    requires i < |s|
    ensures Sum(s, weight) >= weight(s[i])
  {
    if i < |s| - 1 {
      SumAtLeast(s[..|s| - 1], i, weight);
    }
  }

  /** A sum that is not zero has an element that is not. */
  lemma {:induction false} SumPositive<T>(s: seq<T>, weight: T -> nat)
    requires Sum(s, weight) > 0
    ensures exists i :: 0 <= i < |s| && weight(s[i]) > 0
  {
    var n := |s| - 1;
    if weight(s[n]) == 0 {
      SumPositive(s[..n], weight);
      var i :| 0 <= i < n && weight(s[..n][i]) > 0;
      assert weight(s[i]) > 0;
    }
  }

  /** Two weights that agree on every element give the same sum. */
  lemma {:induction false} SumSame<T, U>(s: seq<T>, t: seq<U>, f: T -> nat, g: U -> nat)
    requires |s| == |t|
    requires forall i :: 0 <= i < |s| ==> f(s[i]) == g(t[i])
    ensures Sum(s, f) == Sum(t, g)
  {
    if s != [] {
      SumSame(s[..|s| - 1], t[..|t| - 1], f, g);
    }
  }

  lemma {:induction false} SumZero<T>(s: seq<T>, weight: T -> nat)
    requires forall x :: x in s ==> weight(x) == 0
    ensures Sum(s, weight) == 0
  {
    if s != [] {
      SumZero(s[..|s| - 1], weight);
    }
  }
}
