/** The supervisor as the program has it: its list of children is changed in place, in an array that the parts of a
    split share. Every method is proved against the function of the same name in `Supervision`. */
module SupervisorObject {
  import opened Types
  import opened Children
  import opened RestartLimit
  import opened Supervision
  import opened SupervisorLists
  import opened ChildSpecsObject

  // ---------------------------------------------------------------- the two loops of stopChildren

  function Mark(c: Child): Child {
    if c.restart == Temporary then c else c.(terminated := true)
  }

  /** The first `k` children have been stopped, and marked unless they are temporary. */
  function Marked(cs: seq<Child>, k: nat): seq<Child>
    requires k <= |cs|
  {
    seq(|cs|, i requires 0 <= i < |cs| => if i < k then Mark(cs[i]) else cs[i])
  }

  function TemporaryIds(cs: seq<Child>): seq<string> {
    if cs == [] then []
    else TemporaryIds(cs[..|cs| - 1]) + if cs[|cs| - 1].restart == Temporary then [cs[|cs| - 1].id] else []
  }

  function WithoutAll(cs: seq<Child>, ids: seq<string>): seq<Child> {
    if ids == [] then cs else Without(WithoutAll(cs, ids[..|ids| - 1]), ids[|ids| - 1])
  }

  lemma WithoutAllNext(cs: seq<Child>, ids: seq<string>, k: nat)
    requires k < |ids|
    ensures WithoutAll(cs, ids[..k + 1]) == Without(WithoutAll(cs, ids[..k]), ids[k])
  {
    assert ids[..k + 1][..k] == ids[..k];
  }

  lemma WithoutSnoc(cs: seq<Child>, c: Child, id: string)
    ensures Without(cs + [c], id) == Without(cs, id) + if c.id != id then [c] else []
  {
    assert (cs + [c])[..|cs|] == cs;
  }

  lemma {:induction false} WithoutAllSnoc(cs: seq<Child>, c: Child, ids: seq<string>)
    ensures WithoutAll(cs + [c], ids) == WithoutAll(cs, ids) + if c.id in ids then [] else [c]
  {
    if ids != [] {
      var n := |ids| - 1;
      WithoutAllSnoc(cs, c, ids[..n]);
      var front := WithoutAll(cs, ids[..n]);
      assert ids == ids[..n] + [ids[n]];
      if c.id in ids[..n] {
        assert front + [] == front;
      } else {
        WithoutSnoc(front, c, ids[n]);
      }
    }
  }

  lemma {:induction false} WithoutAbsent(cs: seq<Child>, id: string)
    requires forall i :: 0 <= i < |cs| ==> cs[i].id != id
    ensures Without(cs, id) == cs
  {
    if cs != [] {
      var n := |cs| - 1;
      var front := cs[..n];
      WithoutAbsent(front, id);
      assert Without(cs, id) == front + [cs[n]];
    }
  }

  lemma {:induction false} RemainingIds(cs: seq<Child>)
    ensures forall c :: c in Remaining(cs) ==> c.id in Ids(cs)
  {
    if cs != [] {
      var n := |cs| - 1;
      RemainingIds(cs[..n]);
      assert Ids(cs) == Ids(cs[..n]) + [cs[n].id];
    }
  }

  lemma {:induction false} TemporaryIdsListed(cs: seq<Child>)
    ensures forall id :: id in TemporaryIds(cs) ==> id in Ids(cs)
  {
    if cs != [] {
      var n := |cs| - 1;
      TemporaryIdsListed(cs[..n]);
      assert Ids(cs) == Ids(cs[..n]) + [cs[n].id];
    }
  }

  /** Marking first and deleting afterwards is the same as leaving the temporary ones out. */
  lemma {:induction false} MarkThenDelete(cs: seq<Child>)
    requires DistinctIds(cs)
    ensures WithoutAll(Marked(cs, |cs|), TemporaryIds(cs)) == Remaining(cs)
  {
    if cs != [] {
      var n := |cs| - 1;
      var front, c := cs[..n], cs[n];
      MarkThenDelete(front);
      LastIsNew(cs);
      MarkThenDeleteNext(front, Marked(front, n), TemporaryIds(front), c);
    }
  }

  lemma LastIsNew(cs: seq<Child>)
    requires cs != [] && DistinctIds(cs)
    ensures var n := |cs| - 1;
            cs[n].id !in Ids(cs[..n]) && Marked(cs, n + 1) == Marked(cs[..n], n) + [Mark(cs[n])]
  {
  }

  lemma MarkThenDeleteNext(front: seq<Child>, marked: seq<Child>, ids: seq<string>, c: Child)
    requires WithoutAll(marked, ids) == Remaining(front) && ids == TemporaryIds(front) && c.id !in Ids(front)
    ensures WithoutAll(marked + [Mark(c)], ids + if c.restart == Temporary then [c.id] else [])
         == Remaining(front) + if c.restart == Temporary then [] else [c.(terminated := true)]
  {
    TemporaryIdsListed(front);
    RemainingIds(front);
    WithoutAllSnoc(marked, Mark(c), ids);
    if c.restart == Temporary {
      DeleteLast(marked + [c], Remaining(front), ids, c);
      assert Remaining(front) + [] == Remaining(front);
    } else {
      assert ids + [] == ids;
    }
  }

  lemma DeleteLast(marked: seq<Child>, rest: seq<Child>, ids: seq<string>, c: Child)
    requires WithoutAll(marked, ids) == rest + [c] && forall d :: d in rest ==> d.id != c.id
    ensures WithoutAll(marked, ids + [c.id]) == rest
  {
    assert (ids + [c.id])[..|ids|] == ids;
    WithoutSnoc(rest, c, c.id);
    assert forall i :: 0 <= i < |rest| ==> rest[i] in rest;
    WithoutAbsent(rest, c.id);
  }

  // ---------------------------------------------------------------- the loop of startChildren

  lemma {:induction false} FailedPrefix(env: Env, w: World, cs: seq<Child>, k: nat)
    requires k <= |cs| && StartUntil(env, w, cs[..k]).error.Some?
    ensures StartUntil(env, w, cs) == StartUntil(env, w, cs[..k])
  {
    var n := |cs| - 1;
    if k < |cs| {
      assert cs[..n][..k] == cs[..k];
      FailedPrefix(env, w, cs[..n], k);
    } else {
      assert cs[..k] == cs;
    }
  }

  lemma StartNext(env: Env, w: World, cs: seq<Child>, k: nat)
    requires k < |cs| && StartUntil(env, w, cs[..k]).error == None
    ensures var before := StartUntil(env, w, cs[..k]);
            var st := StartChild(env, before.w, cs[k]);
            StartUntil(env, w, cs[..k + 1])
            == if st.error.Some? then Starting(st.w, before.done, st.error)
               else Starting(st.w, before.done + [st.child], None)
  {
    assert cs[..k + 1][..k] == cs[..k];
  }

  lemma StopNext(env: Env, w: World, cs: seq<Child>, k: nat)
    requires k < |cs|
    ensures StopAll(env, w, cs[..k + 1]).w == TerminateChild(env, StopAll(env, w, cs[..k]).w, cs[k]).w
    ensures TemporaryIds(cs[..k + 1])
         == TemporaryIds(cs[..k]) + if cs[k].restart == Temporary then [cs[k].id] else []
  {
    assert cs[..k + 1][..k] == cs[..k];
  }

  /** Part of a list has been replaced by children with the same identifiers. */
  lemma PositionKept(was: seq<Child>, now: seq<Child>, k: nat)
    requires DistinctIds(was) && |now| == |was| && k < |was|
    requires forall i :: 0 <= i < |was| ==> now[i].id == was[i].id
    ensures Position(now, was[k].id) == k
  {
    var p := Position(now, was[k].id);
    assert was[p].id == now[p].id;
  }

  /** The list while it is being started: `k` children are entered, the others are as they were. */
  ghost predicate Under(now: seq<Child>, was: seq<Child>, k: nat, r: Starting) {
    && k <= |was| && r.error == None && |r.done| == k
    && now == r.done + was[k..]
    && forall i :: 0 <= i < |was| ==> now[i].id == was[i].id
  }

  lemma UnderNext(now: seq<Child>, was: seq<Child>, k: nat, before: Starting, child: Child, w: World)
    requires Under(now, was, k, before) && k < |was| && child.id == was[k].id
    ensures Under(now[k := child], was, k + 1, Starting(w, before.done + [child], None))
  {
    assert now[k := child] == before.done + [child] + was[k + 1..];
  }

  /** The list after the loop, whether it went through or not. */
  ghost predicate EnteredAll(now: seq<Child>, was: seq<Child>, r: Starting) {
    && |r.done| <= |was|
    && now == r.done + was[|r.done|..]
    && forall i :: 0 <= i < |was| ==> now[i].id == was[i].id
  }

  lemma StartAllIs(env: Env, w: World, now: seq<Child>, was: seq<Child>)
    requires DistinctIds(was) && EnteredAll(now, was, StartUntil(env, w, was))
    ensures DistinctIds(now)
    ensures var r := StartUntil(env, w, was);
            StartAll(env, w, was)
            == StartedAll(if r.error.Some? then StopAll(env, r.w, Reverse(now)).w else r.w, now, r.error)
  {
    ReplacedIds(now, was);
  }

  lemma ReplacedIds(now: seq<Child>, was: seq<Child>)
    requires DistinctIds(was) && |now| == |was| && forall i :: 0 <= i < |was| ==> now[i].id == was[i].id
    ensures DistinctIds(now)
  {
  }

  class Supervisor {
    const env: Env
    const flags: Flags
    var w: World
    var children: ChildSpecs
    var restarts: seq<int>
    ghost var history: seq<int>
    ghost var cut: nat
    ghost var last: int

    ghost predicate Valid()
      reads this, children
    {
      children.Valid() && Sane(w) && Represents(restarts, history, cut, last, flags.period)
    }

    ghost function State(): Sup
      requires children.Valid()
      reads this, children, children.buf
    {
      Sup(w, children.View(), history)
    }

    constructor (env: Env, flags: Flags, w: World, children: ChildSpecs, now: int)
      requires Sane(w) && children.Valid()
      ensures Valid() && State() == Sup(w, children.View(), []) && last == now
      ensures this.env == env && this.flags == flags && this.children == children
    {
      this.env := env;
      this.flags := flags;
      this.w := w;
      this.children := children;
      restarts := [];
      history := [];
      cut := 0;
      last := now;
    }

    /** `startChild`. */
    method StartOne(child: Child) returns (started: Child, error: Option<string>)
      modifies this`w
      ensures Startup(w, started, error) == StartChild(env, old(w), child)
    {
      var outcome := env.start(w.now);
      w := Tick(env, w);
      started := child;
      match outcome
      case StartOk =>
        started := child.(pid := w.next);
        w := Log(w.(alive := w.alive + {w.next}, next := w.next + 1), Started(child.id, w.next));
        error := None;
      case StartIgnore =>
        started := child.(pid := UNDEFINED, ignored := true);
        w := Log(w, Ignored(child.id));
        error := None;
      case StartFail(why) =>
        w := Log(w, Failed(child.id));
        error := Some(why);
    }

    /** `terminateChild`: sends the exit and waits for the killer's report. */
    method TerminateOne(child: Child) returns (stopped: Child, keep: bool)
      modifies this`w
      ensures Stopping(w, stopped, keep) == TerminateChild(env, old(w), child)
    {
      w := Tick(env, w);
      if child.pid in w.alive {
        var lingers, delay := env.lingers(w.now), env.delay(w.now);
        w := Log(w, ExitSent(child.pid));
        AwaitReport(child.pid, lingers, delay);
      }
      stopped := child.(terminated := true);
      keep := child.restart != Temporary;
    }

    /** The receive on the channel that the killer reports on: it comes back only when the child is not alive. */
    method AwaitReport(pid: Pid, lingers: nat, delay: nat)
      modifies this`w
      ensures w == Wait(env, old(w), pid, lingers, delay) && pid !in w.alive
    {
      var k, d := lingers, delay;
      while !(MayReport(w, pid) && d == 0)
        invariant Wait(env, w, pid, k, d) == Wait(env, old(w), pid, lingers, delay)
        decreases pid in w.alive, k, d
      {
        if MayReport(w, pid) {
          w, d := Moment(env, w, pid), d - 1;
        } else if k == 0 {
          w := Obeys(w, pid);
        } else {
          w, k := Moment(env, w, pid), k - 1;
        }
      }
    }

    /** `stopChildren`: marks while it goes through the list, deletes afterwards. */
    method StopChildren(list: ChildSpecs)
      requires list.Valid() && DistinctIds(list.View())
      modifies this`w, list`len, list.buf
      ensures list.Valid() && Halted(w, list.View()) == StopAll(env, old(w), old(list.View()))
    {
      ghost var was := list.View();
      var toDelete := MarkAll(list);
      DeleteAll(list, toDelete);
      MarkThenDelete(was);
      StopLeaves(env, old(w), was);
    }

    /** The first loop: stops each child and marks it, or notes that it is to be deleted. */
    method MarkAll(list: ChildSpecs) returns (toDelete: seq<string>)
      requires list.Valid() && DistinctIds(list.View())
      modifies this`w, list.buf
      ensures list.View() == Marked(old(list.View()), |old(list.View())|)
      ensures toDelete == TemporaryIds(old(list.View()))
      ensures w == StopAll(env, old(w), old(list.View())).w
    {
      ghost var was := list.View();
      ghost var w0 := w;
      toDelete := [];
      var k := 0;
      while k < list.len
        invariant 0 <= k <= list.len == |was|
        invariant list.View() == Marked(was, k)
        invariant w == StopAll(env, w0, was[..k]).w
        invariant toDelete == TemporaryIds(was[..k])
      {
        StopNext(env, w0, was, k);
        var id := MarkOne(list, was, k);
        toDelete := toDelete + id;
        k := k + 1;
      }
      assert was[..k] == was;
    }

    /** One turn of that loop. */
    method MarkOne(list: ChildSpecs, ghost was: seq<Child>, k: nat) returns (delete: seq<string>)
      requires list.Valid() && k < list.len == |was| && DistinctIds(was) && list.View() == Marked(was, k)
      modifies this`w, list.buf
      ensures list.View() == Marked(was, k + 1)
      ensures w == TerminateChild(env, old(w), was[k]).w
      ensures delete == if was[k].restart == Temporary then [was[k].id] else []
    {
      assert list.View()[k] == was[k];
      PositionKept(was, list.View(), k);
      var child := list.buf[list.off + k];
      var c, ok := TerminateOne(child);
      if ok {
        var found := list.Update(c);
        assert Marked(was, k)[k := Mark(was[k])] == Marked(was, k + 1);
        delete := [];
      } else {
        delete := [child.id];
        assert Marked(was, k) == Marked(was, k + 1);
      }
    }

    /** The second loop. */
    method DeleteAll(list: ChildSpecs, ids: seq<string>)
      requires list.Valid()
      modifies list`len, list.buf
      ensures list.Valid() && list.View() == WithoutAll(old(list.View()), ids)
    {
      ghost var was := list.View();
      var k := 0;
      while k < |ids|
        invariant 0 <= k <= |ids| && list.Valid()
        invariant list.View() == WithoutAll(was, ids[..k])
      {
        WithoutAllNext(was, ids, k);
        list.Delete(ids[k]);
        k := k + 1;
      }
      assert ids[..k] == ids;
    }

    /** `startChildren`: enters every started child into the list; after an error stops whatever is alive. */
    method StartChildren(list: ChildSpecs) returns (error: Option<string>)
      requires list.Valid() && DistinctIds(list.View())
      modifies this`w, list.buf
      ensures list.Valid() && StartedAll(w, list.View(), error) == StartAll(env, old(w), old(list.View()))
    {
      ghost var was := list.View();
      ghost var w0 := w;
      error := EnterAll(list);
      StartAllIs(env, w0, list.View(), was);
      if error.Some? {
        var back := StopReversed(list);
      }
    }

    /** The loop, up to the first error. */
    method EnterAll(list: ChildSpecs) returns (error: Option<string>)
      requires list.Valid() && DistinctIds(list.View())
      modifies this`w, list.buf
      ensures var r := StartUntil(env, old(w), old(list.View()));
              w == r.w && error == r.error && EnteredAll(list.View(), old(list.View()), r)
    {
      ghost var was := list.View();
      ghost var w0 := w;
      ghost var r := Starting(w, [], None);
      var k := 0;
      while k < list.len
        invariant 0 <= k <= list.len == |was|
        invariant r == StartUntil(env, w0, was[..k]) && w == r.w
        invariant Under(list.View(), was, k, r)
      {
        StartNext(env, w0, was, k);
        error := EnterOne(list, was, k, r);
        if error.Some? {
          FailedPrefix(env, w0, was, k + 1);
          return;
        }
        r := Starting(w, r.done + [StartChild(env, r.w, was[k]).child], None);
        k := k + 1;
      }
      assert was[..k] == was;
      error := None;
    }

    /** One turn of the loop. */
    method EnterOne(list: ChildSpecs, ghost was: seq<Child>, k: nat, ghost before: Starting)
      returns (error: Option<string>)
      requires list.Valid() && k < list.len == |was| && DistinctIds(was) && Under(list.View(), was, k, before)
      modifies this`w, list.buf
      ensures var st := StartChild(env, old(w), was[k]);
              && w == st.w && error == st.error
              && (error == None ==> Under(list.View(), was, k + 1, Starting(w, before.done + [st.child], None)))
              && (error.Some? ==> Under(list.View(), was, k, before))
    {
      assert list.View()[k] == was[k];
      PositionKept(was, list.View(), k);
      var child, err := StartOne(list.buf[list.off + k]);
      error := err;
      if err == None {
        UnderNext(list.View(), was, k, before, child, w);
        var found := list.Update(child);
      }
    }

    /** Stops everything in a list, last first, and leaves the list alone; what is left is in the copy. */
    method StopReversed(list: ChildSpecs) returns (back: ChildSpecs)
      requires list.Valid() && DistinctIds(list.View())
      modifies this`w
      ensures fresh(back) && fresh(back.buf) && back.Valid()
      ensures Halted(w, back.View()) == StopAll(env, old(w), Reverse(list.View()))
    {
      back := list.Reversed();
      ReverseDistinct(list.View());
      StopChildren(back);
    }

    /** Stops a list last first, and starts what is left of it again first first; the callers drop the error. */
    method RestartList(list: ChildSpecs) returns (ordered: ChildSpecs, dropped: Option<string>)
      requires list.Valid() && DistinctIds(list.View()) && Sane(w)
      modifies this`w
      ensures fresh(ordered) && fresh(ordered.buf) && ordered.Valid()
      ensures StartedAll(w, ordered.View(), dropped) == RestartGroup(env, old(w), old(list.View()))
      ensures Sane(w)
    {
      ghost var was := list.View();
      ghost var w0 := w;
      var back := StopReversed(list);
      GroupOrdered(env, w0, was, w, back.View());
      ordered := back.Reversed();
      dropped := StartChildren(ordered);
      GroupSane(env, w0, was);
    }

    method RestartForOne(child: Child) returns (error: Option<string>)
      requires children.Valid() && Sane(w) && DistinctIds(children.View())
      modifies this`w, children.buf
      ensures children.Valid() && Sane(w)
      ensures Reaction(State(), error) == RestartBy(env, OneForOne, old(State()), child)
    {
      StartChildPid(env, w, child);
      var c, err := StartOne(child);
      if err.Some? {
        return err;
      }
      var found := children.Update(c);
      error := None;
    }

    method RestartForAll(child: Child) returns (error: Option<string>)
      requires children.Valid() && Sane(w) && DistinctIds(children.View())
      modifies this`w, this`children
      ensures children.Valid() && Sane(w)
      ensures Reaction(State(), error) == RestartBy(env, OneForAll, old(State()), child)
    {
      var dropped;
      children, dropped := RestartList(children);
      error := None;
    }

    /** The restarted children are appended to the left part of the split, over the right part. */
    method RestartForRest(child: Child) returns (error: Option<string>)
      requires children.Valid() && Sane(w) && DistinctIds(children.View())
      modifies this`w, this`children, children.buf
      ensures children.Valid() && Sane(w)
      ensures Reaction(State(), error) == RestartBy(env, RestForOne, old(State()), child)
    {
      ghost var was := State();
      var found, all := SplitAndRestart(child.id);
      if !found {
        return Some("could not split");
      }
      RestForOneIs(env, was, child);
      children := all;
      error := None;
    }

    method SplitAndRestart(id: string) returns (found: bool, all: ChildSpecs)
      requires children.Valid() && Sane(w) && DistinctIds(children.View())
      modifies this`w, children.buf
      ensures all.Valid() && Sane(w) && fresh(all)
      ensures found <==> Position(old(children.View()), id) < |old(children.View())|
      ensures !found ==> w == old(w) && children.View() == old(children.View())
      ensures found ==>
                var was := old(children.View());
                var g := RestartGroup(env, old(w), was[Position(was, id)..]);
                w == g.w && all.View() == was[..Position(was, id)] + g.children
    {
      ghost var k := Position(children.View(), id);
      var keep, restart;
      found, keep, restart := children.Split(id);
      if !found {
        return false, keep;
      }
      RightDistinct(children.View(), k);
      all := RestartRight(keep, restart);
    }

    /** Restarts the right part and puts the result behind the left part. */
    method RestartRight(keep: ChildSpecs, restart: ChildSpecs) returns (all: ChildSpecs)
      requires keep != restart && keep.Valid() && restart.Valid() && DistinctIds(restart.View()) && Sane(w)
      modifies this`w, keep, keep.buf
      ensures all == keep && all.Valid() && Sane(w)
      ensures all.buf == old(keep.buf) || fresh(all.buf)
      ensures var g := RestartGroup(env, old(w), old(restart.View()));
              w == g.w && all.View() == old(keep.View()) + g.children
    {
      ghost var left := keep.View();
      var ordered, dropped := RestartList(restart);
      assert keep.View() == left;
      var ignored := keep.Append(ordered);
      all := keep;
    }

    /** The end of `Init`: a list that `checkDups` does not accept is not started at all. */
    method Boot() returns (accepted: bool, error: Option<string>)
      requires Valid()
      modifies this`w, children.buf
      ensures accepted == WellListed(old(children.View()))
      ensures accepted ==> StartedAll(w, children.View(), error) == StartAll(env, old(w), old(children.View()))
      ensures !accepted ==> State() == old(State())
    {
      var bad := children.CheckDups();
      accepted := bad == None;
      error := None;
      if accepted {
        error := StartChildren(children);
      }
    }

    /** `addRestart`. */
    method CountRestart(now: int) returns (exceeded: bool)
      requires Valid() && last <= now
      modifies this`restarts, this`history, this`cut, this`last
      ensures Valid() && history == old(history) + [now] && last == now
      ensures exceeded == Exceeded(history, WindowStart(now, flags.period), flags.intensity)
    {
      restarts, exceeded, cut := AddToLife(restarts, history, cut, last, now, flags.period, flags.intensity);
      history := history + [now];
      last := now;
    }

    /** The switch over the strategies. */
    method RestartWith(child: Child) returns (error: Option<string>)
      requires children.Valid() && Sane(w) && DistinctIds(children.View())
      modifies this`w, this`children, children.buf
      ensures children.Valid() && Sane(w)
      ensures Reaction(State(), error) == RestartBy(env, flags.strategy, old(State()), child)
    {
      match flags.strategy
      case OneForOne => error := RestartForOne(child);
      case OneForAll => error := RestartForAll(child);
      case RestForOne => error := RestartForRest(child);
    }

    /** `processChildRestart`. */
    method Restart(child: Child, now: int) returns (error: Option<string>)
      requires Valid() && DistinctIds(children.View()) && last <= now
      modifies this, children.buf
      ensures Valid() && last == now
      ensures Reaction(State(), error) == ProcessRestart(env, flags, old(State()), child, now)
    {
      var exceeded := CountRestart(now);
      if exceeded {
        return Some(INTENSITY_EXCEEDED);
      }
      error := RestartWith(child);
    }

    /** `restartChild`. */
    method ExitOfChild(pid: Pid, reason: Reason, now: int) returns (error: Option<string>)
      requires Valid() && DistinctIds(children.View()) && last <= now
      modifies this, children, children.buf
      ensures Valid() && last <= now
      ensures Reaction(State(), error) == ChildExited(env, flags, old(State()), pid, reason, now)
    {
      var found, child := children.FindByPid(pid);
      if !found {
        return None;
      }
      if child.restart == Temporary {
        children.Delete(child.id);
        return None;
      }
      if child.restart == Permanent {
        error := Restart(child, now);
        return;
      }
      if CleanExit(reason) {
        children.Delete(child.id);
        return None;
      }
      error := Restart(child, now);
    }

    /** `Terminate`. */
    method Terminate()
      requires Valid() && DistinctIds(children.View())
      modifies this`w
      ensures w == ShutDown(env, old(State()))
    {
      var back := StopReversed(children);
    }

    /** `doStartChild`. */
    method AskStart(id: string, restart: Restart) returns (answer: Answer)
      requires Valid()
      modifies this`w, children, children.buf
      ensures Valid() && Served(State(), answer) == DoStart(env, old(State()), id, restart)
    {
      var found, k, existing := children.Get(id);
      if found {
        return if Active(w, existing) then AlreadyStarted(existing.pid) else AlreadyPresent;
      }
      StartChildPid(env, w, NewChild(id, restart));
      var started, error := StartOne(NewChild(id, restart));
      if error.Some? {
        return StartFailed(error.value);
      }
      var one := new Child[1](_ => started);
      var more := new ChildSpecs.Slice(one, 0, 1);
      assert more.View() == [started];
      var bad := children.Append(more);
      answer := if bad == None then Fine(started.pid) else BadList;
    }

    /** `doTerminateChild`. */
    method AskTerminate(id: string) returns (answer: Answer)
      requires Valid()
      modifies this`w, children.buf
      ensures Valid() && Served(State(), answer) == DoTerminate(env, old(State()), id)
    {
      var found, k, spec := children.Get(id);
      if !found {
        return NotFound;
      }
      if Active(w, spec) {
        TerminateSane(env, w, spec);
        var stopped, keep := TerminateOne(spec);
        spec := stopped;
      }
      children.Put(k, spec.(terminated := true, pid := UNDEFINED));
      answer := Fine(UNDEFINED);
    }

    /** `doRestartChild`. */
    method AskRestart(id: string) returns (answer: Answer)
      requires Valid()
      modifies this`w, children.buf
      ensures Valid() && Served(State(), answer) == DoRestart(env, old(State()), id)
    {
      var found, k, spec := children.Get(id);
      if !found {
        return NotFound;
      }
      if Active(w, spec) {
        return StillRunning;
      }
      spec := spec.(terminated := false, ignored := false);
      StartChildPid(env, w, spec);
      var started, error := StartOne(spec);
      if error.Some? {
        children.Put(k, spec.(terminated := true));
        return StartFailed(error.value);
      }
      children.Put(k, started);
      answer := Fine(started.pid);
    }

    /** `doDeleteChild`. */
    method AskDelete(id: string) returns (answer: Answer)
      requires Valid()
      modifies children, children.buf
      ensures Valid() && Served(State(), answer) == DoDelete(old(State()), id)
    {
      var found, k, spec := children.Get(id);
      if !found {
        return NotFound;
      }
      if Active(w, spec) {
        return StillRunning;
      }
      children.Delete(id);
      answer := Fine(UNDEFINED);
    }
  }

  /** A group restart, from the point where everything has been stopped. */
  lemma GroupOrdered(env: Env, w: World, cs: seq<Child>, v: World, stopped: seq<Child>)
    requires DistinctIds(cs) && Halted(v, stopped) == StopAll(env, w, Reverse(cs))
    ensures DistinctIds(Reverse(stopped))
    ensures RestartGroup(env, w, cs) == StartAll(env, v, Reverse(stopped))
  {
    StopLeaves(env, w, Reverse(cs));
    RemainingReverse(cs);
    ReverseTwice(Remaining(cs));
    RemainingThins(cs);
    IdsDistinct(cs);
    IdsDistinct(Remaining(cs));
    ThinnedDistinct(Ids(Remaining(cs)), Ids(cs));
  }

  lemma RestForOneIs(env: Env, sup: Sup, c: Child)
    requires Position(sup.children, c.id) < |sup.children|
    ensures var k := Position(sup.children, c.id);
            var g := RestartGroup(env, sup.w, sup.children[k..]);
            RestartBy(env, RestForOne, sup, c)
            == Reaction(Sup(g.w, sup.children[..k] + g.children, sup.history), None)
  {
  }

  lemma GroupSane(env: Env, w: World, cs: seq<Child>)
    requires Sane(w)
    ensures Sane(RestartGroup(env, w, cs).w)
  {
    GroupLists(env, w, cs);
  }

  lemma RightDistinct(cs: seq<Child>, k: nat)
    requires DistinctIds(cs) && k <= |cs|
    ensures DistinctIds(cs[k..])
  {
  }

  lemma ReverseDistinct(cs: seq<Child>)
    requires DistinctIds(cs)
    ensures DistinctIds(Reverse(cs))
  {
    forall k | 0 <= k < |Reverse(cs)|
      ensures k < |cs| && Reverse(cs)[k] == cs[|cs| - 1 - k]
    {
      if cs != [] {
        ReverseAt(cs, 0);
        ReverseAt(cs, k);
      }
    }
  }
}
