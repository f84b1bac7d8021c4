/** The container of a supervisor's children (`erl/supervisor/supervisor_state.go`): a window onto an array that several
    containers may share. */
module ChildSpecsObject {
  import opened Types
  import opened Children
  import opened Supervision

  /** What remains in a place that was cleared. */
  const ZERO: Child := Child("", Permanent, UNDEFINED, false, false)

  datatype ListError = BlankId | DuplicateId(id: string)

  /** The child `k` is acceptable after the ones before it. */
  predicate Acceptable(cs: seq<Child>, k: nat)
    requires k < |cs|
  {
    !Blank(cs[k].id) && forall i :: 0 <= i < k ==> cs[i].id != cs[k].id
  }

  lemma WellListedIsAcceptable(cs: seq<Child>)
    ensures WellListed(cs) <==> forall k :: 0 <= k < |cs| ==> Acceptable(cs, k)
  {
    if forall k :: 0 <= k < |cs| ==> Acceptable(cs, k) {
      forall i, j | 0 <= i < j < |cs|
        ensures cs[i].id != cs[j].id
      {
        assert Acceptable(cs, j);
      }
      forall i | 0 <= i < |cs|
        ensures !Blank(cs[i].id)
      {
        assert Acceptable(cs, i);
      }
    }
  }

  /** Where a search for an identifier stops. */
  lemma Stops(cs: seq<Child>, id: string, i: nat)
    requires i <= |cs| && (i < |cs| ==> cs[i].id == id) && forall j :: 0 <= j < i ==> cs[j].id != id
    ensures Position(cs, id) == i
  {
    var k := Position(cs, id);
  }

  lemma StopsAtPid(cs: seq<Child>, pid: Pid, i: nat)
    requires i <= |cs| && (i < |cs| ==> cs[i].pid == pid) && forall j :: 0 <= j < i ==> cs[j].pid != pid
    ensures PositionOfPid(cs, pid) == i
  {
    var k := PositionOfPid(cs, pid);
  }

  lemma WithoutNext(cs: seq<Child>, j: nat, id: string)
    requires j < |cs|
    ensures Without(cs[..j + 1], id) == Without(cs[..j], id) + if cs[j].id != id then [cs[j]] else []
  {
    assert cs[..j + 1][..j] == cs[..j];
  }

  /** `whole` after the first `j` elements of its stretch from `off` on were looked at, and those in `front` kept. */
  ghost predicate Compacted(now: seq<Child>, whole: seq<Child>, off: nat, n: nat, j: nat, front: seq<Child>) {
    && |now| == |whole| && |front| <= j <= n && off + n <= |whole|
    && (forall i :: 0 <= i < |front| ==> now[off + i] == front[i])
    && (forall i :: off + j <= i < off + n ==> now[i] == whole[i])
    && (forall i :: 0 <= i < |whole| && !(off <= i < off + n) ==> now[i] == whole[i])
  }

  lemma CompactedNext(now: seq<Child>, whole: seq<Child>, off: nat, n: nat, j: nat, front: seq<Child>)
    requires Compacted(now, whole, off, n, j, front) && j < n
    ensures Compacted(now, whole, off, n, j + 1, front)
    ensures Compacted(now[off + |front| := whole[off + j]], whole, off, n, j + 1, front + [whole[off + j]])
  {
  }

  /** One turn of the loop. */
  method CompactOne(a: array<Child>, off: nat, n: nat, j: nat, kept: nat, id: string, ghost whole: seq<Child>,
                    ghost front: seq<Child>)
    returns (more: nat, ghost longer: seq<Child>)
    requires kept == |front| && j < n && Compacted(a[..], whole, off, n, j, front)
    modifies a
    ensures more == |longer| && Compacted(a[..], whole, off, n, j + 1, longer)
    ensures longer == front + if whole[off + j].id != id then [whole[off + j]] else []
  {
    CompactedNext(a[..], whole, off, n, j, front);
    assert a[..][off + j] == a[off + j];
    more, longer := kept, front;
    if a[off + j].id != id {
      Move(a, off + j, off + kept);
      more, longer := kept + 1, front + [whole[off + j]];
    }
  }

  /** Moves the elements of `a[off..off + n]` that stay to the front of that stretch. */
  method Compact(a: array<Child>, off: nat, n: nat, id: string) returns (kept: nat)
    requires off + n <= a.Length
    modifies a
    ensures kept <= n && a[off..off + kept] == Without(old(a[off..off + n]), id)
    ensures forall i :: 0 <= i < a.Length && !(off <= i < off + n) ==> a[i] == old(a[i])
  {
    ghost var whole, was := a[..], a[off..off + n];
    ghost var front: seq<Child> := [];
    kept := 0;
    var j := 0;
    while j < n
      invariant 0 <= kept <= j <= n && kept == |front| && front == Without(was[..j], id)
      invariant Compacted(a[..], whole, off, n, j, front)
    {
      WithoutNext(was, j, id);
      kept, front := CompactOne(a, off, n, j, kept, id, whole, front);
      j := j + 1;
    }
    assert was[..j] == was;
    assert a[off..off + kept] == front;
    forall i | 0 <= i < a.Length && !(off <= i < off + n)
      ensures a[i] == old(a[i])
    {
      assert a[..][i] == whole[i];
    }
  }

  /** A new array with these elements. */
  method NewArray(s: seq<Child>) returns (a: array<Child>)
    ensures fresh(a) && a[..] == s
  {
    a := new Child[|s|](i requires 0 <= i < |s| => s[i]);
  }

  method Move(a: array<Child>, from: nat, to: nat)
    requires from < a.Length && to < a.Length
    modifies a
    ensures a[..] == old(a[..])[to := old(a[from])]
  {
    a[to] := a[from];
  }

  /** Clears `a[lo..hi]`. */
  method Clear(a: array<Child>, lo: nat, hi: nat)
    requires lo <= hi <= a.Length
    modifies a
    ensures forall i :: 0 <= i < a.Length ==> a[i] == if lo <= i < hi then ZERO else old(a[i])
  {
    var k := lo;
    while k < hi
      invariant lo <= k <= hi
      invariant forall i :: 0 <= i < a.Length ==> a[i] == if lo <= i < k then ZERO else old(a[i])
    {
      a[k] := ZERO;
      k := k + 1;
    }
  }

  /** `slices.DeleteFunc` on `a[off..off + n]`. */
  method DeleteFunc(a: array<Child>, off: nat, n: nat, id: string) returns (kept: nat)
    requires off + n <= a.Length
    modifies a
    ensures kept <= n && a[off..off + kept] == Without(old(a[off..off + n]), id)
    ensures forall i :: 0 <= i < a.Length && !(off <= i < off + n) ==> a[i] == old(a[i])
    ensures forall i :: off + kept <= i < off + n ==> a[i] == ZERO
  {
    kept := Compact(a, off, n, id);
    ghost var front := a[off..off + kept];
    Clear(a, off + kept, off + n);
    assert a[off..off + kept] == front;
  }

  method Write(a: array<Child>, at: nat, news: seq<Child>)
    requires at + |news| <= a.Length
    modifies a
    ensures a[at..at + |news|] == news
    ensures forall i :: 0 <= i < a.Length && !(at <= i < at + |news|) ==> a[i] == old(a[i])
  {
    var k := 0;
    while k < |news|
      invariant 0 <= k <= |news|
      invariant forall i :: 0 <= i < a.Length && !(at <= i < at + k) ==> a[i] == old(a[i])
      invariant forall i :: at <= i < at + k ==> a[i] == news[i - at]
    {
      a[at + k] := news[k];
      k := k + 1;
    }
  }

  /** A slice: `len` elements of `buf` from `off` on; up to the end of `buf` there may be room for more. */
  class ChildSpecs {
    var buf: array<Child>
    var off: nat
    var len: nat

    ghost predicate Valid()
      reads this
    {
      off + len <= buf.Length
    }

    ghost function View(): (s: seq<Child>)
      requires Valid()
      reads this, buf
    {
      buf[off..off + len]
    }

    /** A slice of an array that is there already. */
    constructor Slice(buf: array<Child>, off: nat, len: nat)
      requires off + len <= buf.Length
      ensures this.buf == buf && this.off == off && this.len == len
      ensures Valid() && View() == buf[off..off + len]
    {
      this.buf := buf;
      this.off := off;
      this.len := len;
    }

    /** `get`. */
    method Get(id: string) returns (found: bool, idx: nat, child: Child)
      requires Valid()
      ensures found <==> Position(View(), id) < |View()|
      ensures found ==> idx == Position(View(), id) && child == View()[idx]
      ensures !found ==> idx == 0 && child == ZERO
    {
      ghost var view := View();
      var i := 0;
      while i < len && buf[off + i].id != id
        invariant 0 <= i <= len
        invariant forall j :: 0 <= j < i ==> view[j].id != id
      {
        i := i + 1;
      }
      Stops(view, id, i);
      if i < len {
        return true, i, buf[off + i];
      }
      return false, 0, ZERO;
    }

    /** `findByPID`. */
    method FindByPid(pid: Pid) returns (found: bool, child: Child)
      requires Valid()
      ensures found <==> PositionOfPid(View(), pid) < |View()|
      ensures found ==> child == View()[PositionOfPid(View(), pid)]
    {
      ghost var view := View();
      var i := 0;
      while i < len && buf[off + i].pid != pid
        invariant 0 <= i <= len
        invariant forall j :: 0 <= j < i ==> view[j].pid != pid
      {
        i := i + 1;
      }
      StopsAtPid(view, pid, i);
      if i < len {
        return true, buf[off + i];
      }
      return false, ZERO;
    }

    /** `update`: in place, and so in every container that shares the array. */
    method Update(child: Child) returns (found: bool)
      requires Valid()
      modifies buf
      ensures found == (Position(old(View()), child.id) < |old(View())|)
      ensures View() == if found then old(View())[Position(old(View()), child.id) := child] else old(View())
      ensures forall i :: 0 <= i < buf.Length && !(off <= i < off + len) ==> buf[i] == old(buf[i])
    {
      ghost var was := View();
      var i := 0;
      while i < len
        invariant 0 <= i <= len
        invariant buf[..] == old(buf[..])
        invariant View() == was
        invariant forall j :: 0 <= j < i ==> was[j].id != child.id
      {
        if buf[off + i].id == child.id {
          assert was[i].id == child.id && Position(was, child.id) == i;
          buf[off + i] := child;
          assert View() == was[i := child];
          return true;
        }
        i := i + 1;
      }
      return false;
    }

    /** An entry is overwritten: `specs[k] = child`. */
    method Put(k: nat, child: Child)
      requires Valid() && k < len
      modifies buf
      ensures View() == old(View())[k := child]
      ensures forall i :: 0 <= i < buf.Length && i != off + k ==> buf[i] == old(buf[i])
    {
      buf[off + k] := child;
    }

    /** `delete`: the kept elements move to the front of the same array, the places behind them are cleared. */
    method Delete(id: string)
      requires Valid()
      modifies this`len, buf
      ensures Valid() && View() == Without(old(View()), id)
      ensures forall i :: 0 <= i < buf.Length && !(off <= i < off + old(len)) ==> buf[i] == old(buf[i])
      ensures forall i :: off + len <= i < off + old(len) ==> buf[i] == ZERO
    {
      ghost var was := View();
      var kept := DeleteFunc(buf, off, len, id);
      assert buf[off..off + kept] == Without(was, id);
      len := kept;
    }

    /** `split`: two windows onto the same array; the left one keeps the room behind it. */
    method Split(id: string) returns (found: bool, left: ChildSpecs, right: ChildSpecs)
      requires Valid()
      ensures fresh(left) && fresh(right) && left != right && left.Valid() && right.Valid()
      ensures found <==> Position(View(), id) < |View()|
      ensures found ==>
                var k := Position(View(), id);
                && left.buf == buf && right.buf == buf
                && left.off == off && right.off == off + k
                && left.View() == View()[..k] && right.View() == View()[k..]
      ensures !found ==> left.View() == [] && right.View() == [] && fresh(left.buf) && fresh(right.buf)
    {
      var i := 0;
      while i < len && buf[off + i].id != id
        invariant 0 <= i <= len
        invariant forall j :: 0 <= j < i ==> View()[j].id != id
      {
        i := i + 1;
      }
      found := i < len;
      Stops(View(), id, i);
      if found {
        left, right := Cut(i);
      } else {
        var none := new Child[0];
        var nothing := new Child[0];
        left := new ChildSpecs.Slice(none, 0, 0);
        right := new ChildSpecs.Slice(nothing, 0, 0);
      }
    }

    /** `specs[:k]` and `specs[k:]`. */
    method Cut(k: nat) returns (left: ChildSpecs, right: ChildSpecs)
      requires Valid() && k <= len
      ensures fresh(left) && fresh(right) && left != right && left.Valid() && right.Valid()
      ensures left.buf == buf && right.buf == buf
      ensures left.off == off && right.off == off + k
      ensures left.View() == View()[..k] && right.View() == View()[k..]
    {
      left := new ChildSpecs.Slice(buf, off, k);
      right := new ChildSpecs.Slice(buf, off + k, len - k);
    }

    /** Go's `append`: into the same array if there is room, which overwrites what others see there; otherwise into a
        new one. */
    method AppendAll(more: ChildSpecs)
      requires Valid() && more.Valid()
      modifies this, buf
      ensures Valid() && View() == old(View()) + old(more.View())
      ensures old(off + len + more.len <= buf.Length) ==>
                buf == old(buf) && off == old(off)
                && forall i :: 0 <= i < buf.Length && !(off + old(len) <= i < off + len) ==> buf[i] == old(buf[i])
      ensures !old(off + len + more.len <= buf.Length) ==> fresh(buf) && old(buf[..]) == old(buf)[..]
    {
      var mine := buf[off..off + len];
      var news := more.buf[more.off..more.off + more.len];
      if off + len + |news| <= buf.Length {
        Write(buf, off + len, news);
        assert buf[off..off + len] == mine;
        len := len + |news|;
        assert buf[off..off + len] == mine + news;
      } else {
        var all := mine + news;
        buf := NewArray(all);
        off := 0;
        len := |all|;
        assert buf[0..|all|] == buf[..];
      }
    }

    /** `checkDups`: accepts a list exactly if no identifier in it is blank or occurs twice. */
    method CheckDups() returns (error: Option<ListError>)
      requires Valid()
      ensures error == None <==> WellListed(View())
      ensures error.Some? ==>
                exists k :: 0 <= k < |View()| && !Acceptable(View(), k)
                            && (forall i :: 0 <= i < k ==> Acceptable(View(), i))
                            && error.value == if Blank(View()[k].id) then BlankId else DuplicateId(View()[k].id)
    {
      WellListedIsAcceptable(View());
      var keys: set<string> := {};
      var i := 0;
      while i < len
        invariant 0 <= i <= len
        invariant forall k :: 0 <= k < i ==> Acceptable(View(), k)
        invariant forall x :: x in keys <==> exists k :: 0 <= k < i && View()[k].id == x
      {
        var spec := buf[off + i];
        assert spec == View()[i];
        if Blank(spec.id) {
          assert !Acceptable(View(), i);
          return Some(BlankId);
        }
        if spec.id in keys {
          assert !Acceptable(View(), i);
          return Some(DuplicateId(spec.id));
        }
        keys := keys + {spec.id};
        i := i + 1;
      }
      return None;
    }

    /** `append`: the check comes after the list has grown. */
    method Append(more: ChildSpecs) returns (error: Option<ListError>)
      requires Valid() && more.Valid()
      modifies this, buf
      ensures Valid() && View() == old(View()) + old(more.View())
      ensures old(off + len + more.len <= buf.Length) ==>
                buf == old(buf) && off == old(off)
                && forall i :: 0 <= i < buf.Length && !(off + old(len) <= i < off + len) ==> buf[i] == old(buf[i])
      ensures !old(off + len + more.len <= buf.Length) ==> fresh(buf) && old(buf[..]) == old(buf)[..]
      ensures error == None <==> WellListed(View())
    {
      AppendAll(more);
      error := CheckDups();
    }

    /** `reverse`: a copy, turned around in place. */
    method Reversed() returns (r: ChildSpecs)
      requires Valid()
      ensures fresh(r) && fresh(r.buf) && r.Valid()
      ensures r.View() == Reverse(View())
    {
      var n := len;
      var was := buf[off..off + len];
      var copy := NewArray(was);
      ReverseInPlace(copy);
      r := new ChildSpecs.Slice(copy, 0, n);
      assert |Reverse(was)| == n && copy[0..n] == copy[..];
    }
  }

  /** The outer `i` elements on either side have been exchanged. */
  ghost predicate PartlyReversed(now: seq<Child>, was: seq<Child>, i: nat) {
    && |now| == |was|
    && (forall k :: i <= k < |was| - i ==> now[k] == was[k])
    && (forall k :: 0 <= k < |was| && !(i <= k < |was| - i) ==> now[k] == was[|was| - 1 - k])
  }

  lemma PartlyReversedNext(now: seq<Child>, was: seq<Child>, i: nat)
    requires PartlyReversed(now, was, i) && i < |was| / 2
    ensures var m := |was| - 1 - i;
            PartlyReversed(now[i := now[m]][m := now[i]], was, i + 1)
  {
    var n := |was|;
    var m := n - 1 - i;
    var swapped := now[i := now[m]][m := now[i]];
    assert swapped[i] == was[m] && swapped[m] == was[i];
    forall k | 0 <= k < n && !(i + 1 <= k < n - (i + 1))
      ensures swapped[k] == was[n - 1 - k]
    {
      if k == m {
        assert n - 1 - k == i;
      } else if k != i {
        assert now[k] == was[n - 1 - k];
        assert swapped[k] == now[k];
      }
    }
  }

  lemma MirrorIsReverse(now: seq<Child>, was: seq<Child>)
    requires |now| == |was| && forall k :: 0 <= k < |was| ==> now[k] == was[|was| - 1 - k]
    ensures now == Reverse(was)
  {
    if was != [] {
      ReverseAt(was, 0);
      forall k | 0 <= k < |was|
        ensures now[k] == Reverse(was)[k]
      {
        ReverseAt(was, k);
      }
    }
  }

  lemma ReversedAtLast(now: seq<Child>, was: seq<Child>)
    requires PartlyReversed(now, was, |was| / 2)
    ensures now == Reverse(was)
  {
    var i, n := |was| / 2, |was|;
    forall k | 0 <= k < n
      ensures now[k] == was[n - 1 - k]
    {
      if i <= k < n - i {
        assert n - 1 - k == k;
      }
    }
    MirrorIsReverse(now, was);
  }

  method Swap(a: array<Child>, i: nat, j: nat)
    requires i < a.Length && j < a.Length
    modifies a
    ensures a[..] == old(a[..])[i := old(a[j])][j := old(a[i])]
  {
    a[i], a[j] := a[j], a[i];
  }

  /** `slices.Reverse`. */
  method ReverseInPlace(a: array<Child>)
    modifies a
    ensures a[..] == Reverse(old(a[..]))
  {
    ghost var was := a[..];
    var n, i := a.Length, 0;
    while i < n / 2
      invariant 0 <= i <= n / 2 && PartlyReversed(a[..], was, i)
    {
      PartlyReversedNext(a[..], was, i);
      Swap(a, i, n - 1 - i);
      i := i + 1;
    }
    ReversedAtLast(a[..], was);
  }
}
