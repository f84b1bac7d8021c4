/** What every message a supervisor deals with keeps: identifiers stay distinct and in order, and no old process
    number ever appears in the list again. */
module SupervisorLists {
  import opened Types
  import opened Children
  import opened RestartLimit
  import opened Supervision

  function Ids(cs: seq<Child>): seq<string> {
    seq(|cs|, i requires 0 <= i < |cs| => cs[i].id)
  }

  /** `b` is what is left of `a` when elements are deleted. */
  predicate Thinned<T(==)>(b: seq<T>, a: seq<T>)
    decreases |a|
  {
    if b == [] then true
    else if a == [] then false
    else (b[|b| - 1] == a[|a| - 1] && Thinned(b[..|b| - 1], a[..|a| - 1])) || Thinned(b, a[..|a| - 1])
  }

  lemma {:induction false} ThinnedSelf<T>(a: seq<T>)
    ensures Thinned(a, a)
  {
    if a != [] {
      ThinnedSelf(a[..|a| - 1]);
    }
  }

  lemma {:induction false} ThinnedAfter<T>(keep: seq<T>, b: seq<T>, a: seq<T>)
    requires Thinned(b, a)
    ensures Thinned(keep + b, keep + a)
    decreases |a|
  {
    if a == [] {
      assert b == [];
      ThinnedSelf(keep);
      assert keep + b == keep && keep + a == keep;
    } else {
      var n := |a| - 1;
      assert (keep + a)[..|keep + a| - 1] == keep + a[..n];
      if b == [] {
        ThinnedAfter(keep, b, a[..n]);
      } else if b[|b| - 1] == a[n] && Thinned(b[..|b| - 1], a[..n]) {
        ThinnedAfter(keep, b[..|b| - 1], a[..n]);
        assert (keep + b)[..|keep + b| - 1] == keep + b[..|b| - 1];
      } else {
        ThinnedAfter(keep, b, a[..n]);
      }
    }
  }

  /** Deleting from a list without duplicates leaves one without duplicates, and brings nothing in. */
  lemma {:induction false} ThinnedDistinct<T>(b: seq<T>, a: seq<T>)
    requires Thinned(b, a) && forall i, j :: 0 <= i < j < |a| ==> a[i] != a[j]
    ensures forall i, j :: 0 <= i < j < |b| ==> b[i] != b[j]
    ensures forall i :: 0 <= i < |b| ==> b[i] in a
    decreases |a|
  {
    if b != [] {
      var n := |a| - 1;
      if b[|b| - 1] == a[n] && Thinned(b[..|b| - 1], a[..n]) {
        ThinnedDistinct(b[..|b| - 1], a[..n]);
      } else {
        ThinnedDistinct(b, a[..n]);
      }
    }
  }

  lemma {:induction false} RemainingThins(cs: seq<Child>)
    ensures Thinned(Ids(Remaining(cs)), Ids(cs))
  {
    if cs != [] {
      var n := |cs| - 1;
      RemainingThins(cs[..n]);
      assert Ids(cs)[..n] == Ids(cs[..n]);
      if cs[n].restart != Temporary {
        assert Ids(Remaining(cs)) == Ids(Remaining(cs[..n])) + [cs[n].id];
        assert Ids(Remaining(cs))[..|Remaining(cs)| - 1] == Ids(Remaining(cs[..n]));
      } else {
        assert Remaining(cs) == Remaining(cs[..n]);
      }
    }
  }

  lemma {:induction false} WithoutThins(cs: seq<Child>, id: string)
    ensures Thinned(Ids(Without(cs, id)), Ids(cs))
    ensures forall c :: c in Without(cs, id) <==> c in cs && c.id != id
  {
    if cs != [] {
      var n := |cs| - 1;
      WithoutThins(cs[..n], id);
      assert Ids(cs)[..n] == Ids(cs[..n]);
      assert cs == cs[..n] + [cs[n]];
      if cs[n].id != id {
        assert Ids(Without(cs, id)) == Ids(Without(cs[..n], id)) + [cs[n].id];
        assert Ids(Without(cs, id))[..|Without(cs, id)| - 1] == Ids(Without(cs[..n], id));
      } else {
        assert Without(cs, id) == Without(cs[..n], id);
      }
    }
  }

  // ---------------------------------------------------------------- process numbers

  /** No child has the number `pid`. */
  ghost predicate Unlisted(cs: seq<Child>, pid: Pid) {
    forall c :: c in cs ==> c.pid != pid
  }

  /** A list that came from another one: every number in it was there before, is new, or is undefined. */
  ghost predicate PidsFrom(cs: seq<Child>, was: seq<Child>, first: Pid, next: Pid) {
    forall c :: c in cs ==>
      c.pid == UNDEFINED || first <= c.pid < next || exists b :: b in was && b.pid == c.pid
  }

  lemma StartChildPid(env: Env, w: World, c: Child)
    requires Sane(w)
    ensures var s := StartChild(env, w, c);
            && Sane(s.w) && s.w.next >= w.next && s.child.id == c.id && s.child.restart == c.restart
            && (s.child.pid == c.pid || s.child.pid == UNDEFINED || w.next == s.child.pid < s.w.next)
  {
  }

  lemma {:induction false} StartUntilPids(env: Env, w: World, cs: seq<Child>)
    requires Sane(w)
    ensures var r := StartUntil(env, w, cs);
            Sane(r.w) && r.w.next >= w.next && PidsFrom(r.done, cs, w.next, r.w.next)
  {
    if cs != [] {
      var n := |cs| - 1;
      StartUntilPids(env, w, cs[..n]);
      StartChildPid(env, StartUntil(env, w, cs[..n]).w, cs[n]);
      assert cs[n] in cs && forall b :: b in cs[..n] ==> b in cs;
    }
  }

  /** The list after the loop of `startChildren`: the started ones, then the others. */
  lemma EnteredLists(done: seq<Child>, cs: seq<Child>, first: Pid, next: Pid)
    requires |done| <= |cs| && PidsFrom(done, cs, first, next)
    requires forall i :: 0 <= i < |done| ==> done[i].id == cs[i].id
    ensures var now := done + cs[|done|..];
            PidsFrom(now, cs, first, next) && Ids(now) == Ids(cs)
  {
    var now := done + cs[|done|..];
    forall c | c in now
      ensures c in done || c in cs
    {
    }
  }

  lemma StartAllLists(env: Env, w: World, cs: seq<Child>)
    requires Sane(w)
    ensures var r := StartAll(env, w, cs);
            && Sane(r.w) && r.w.next >= w.next && PidsFrom(r.children, cs, w.next, r.w.next)
            && Ids(r.children) == Ids(cs)
  {
    StartUntilShape(env, w, cs);
    StartUntilPids(env, w, cs);
    var u := StartUntil(env, w, cs);
    var now := u.done + cs[|u.done|..];
    EnteredLists(u.done, cs, w.next, u.w.next);
    StopSane(env, u.w, Reverse(now));
    assert StartAll(env, w, cs).children == now;
  }

  lemma {:induction false} RemainingFrom(cs: seq<Child>)
    ensures forall c :: c in Remaining(cs) ==> exists b :: b in cs && b.pid == c.pid
  {
    if cs != [] {
      var n := |cs| - 1;
      RemainingFrom(cs[..n]);
      assert cs[n] in cs && forall b :: b in cs[..n] ==> b in cs;
    }
  }

  lemma GroupLists(env: Env, w: World, cs: seq<Child>)
    requires Sane(w)
    ensures var r := RestartGroup(env, w, cs);
            && Sane(r.w) && r.w.next >= w.next && PidsFrom(r.children, cs, w.next, r.w.next)
            && Ids(r.children) == Ids(Remaining(cs)) && Thinned(Ids(r.children), Ids(cs))
  {
    StopSane(env, w, Reverse(cs));
    StopLeaves(env, w, Reverse(cs));
    RemainingReverse(cs);
    ReverseTwice(Remaining(cs));
    var s := StopAll(env, w, Reverse(cs));
    assert Reverse(s.children) == Remaining(cs);
    StartAllLists(env, s.w, Remaining(cs));
    RemainingFrom(cs);
    RemainingThins(cs);
    var r := StartAll(env, s.w, Remaining(cs));
    forall c | c in r.children && c.pid != UNDEFINED && !(w.next <= c.pid < r.w.next)
      ensures exists b :: b in cs && b.pid == c.pid
    {
      var b :| b in Remaining(cs) && b.pid == c.pid;
    }
  }

  // ---------------------------------------------------------------- one message

  /** What one message may do to the list: delete, or append one child at the end; new numbers are fresh. */
  ghost predicate Moves(before: Sup, after: Sup) {
    && Sane(after.w) && before.w.next <= after.w.next
    && PidsFrom(after.children, before.children, before.w.next, after.w.next)
    && (Thinned(Ids(after.children), Ids(before.children))
        || (exists id: string :: id !in Ids(before.children) && Ids(after.children) == Ids(before.children) + [id]))
  }

  lemma MovesKeep(before: Sup, after: Sup)
    requires Sane(after.w) && before.w.next <= after.w.next
    requires |after.children| == |before.children|
    requires forall i :: 0 <= i < |before.children| ==>
               && after.children[i].id == before.children[i].id
               && (|| after.children[i].pid == before.children[i].pid || after.children[i].pid == UNDEFINED
                   || before.w.next <= after.children[i].pid < after.w.next)
    ensures Moves(before, after)
  {
    assert Ids(after.children) == Ids(before.children);
    ThinnedSelf(Ids(before.children));
    forall c | c in after.children
      ensures c.pid == UNDEFINED || before.w.next <= c.pid < after.w.next
              || exists b :: b in before.children && b.pid == c.pid
    {
      var i :| 0 <= i < |after.children| && after.children[i] == c;
      assert before.children[i] in before.children;
    }
  }

  lemma RestartOneMoves(env: Env, sup: Sup, c: Child)
    requires Sane(sup.w)
    requires c.pid == UNDEFINED || exists b :: b in sup.children && b.pid == c.pid
    ensures Moves(sup, RestartOne(env, sup, c).sup)
  {
    StartChildPid(env, sup.w, c);
    var st := StartChild(env, sup.w, c);
    ThinnedSelf(Ids(sup.children));
    var k := Position(sup.children, c.id);
    if st.error == None && k < |sup.children| {
      assert Ids(sup.children[k := st.child]) == Ids(sup.children);
    }
  }

  /** The end of a list was restarted as a group. */
  lemma RestartRightMoves(env: Env, sup: Sup, k: nat)
    requires Sane(sup.w) && k <= |sup.children|
    ensures var g := RestartGroup(env, sup.w, sup.children[k..]);
            Moves(sup, sup.(w := g.w, children := sup.children[..k] + g.children))
  {
    var left, right := sup.children[..k], sup.children[k..];
    assert left + right == sup.children;
    GroupLists(env, sup.w, right);
    var g := RestartGroup(env, sup.w, right);
    JoinedMoves(sup, left, right, g.children, g.w);
  }

  lemma JoinedMoves(sup: Sup, left: seq<Child>, right: seq<Child>, news: seq<Child>, w: World)
    requires left + right == sup.children && Sane(w) && sup.w.next <= w.next
    requires PidsFrom(news, right, sup.w.next, w.next) && Thinned(Ids(news), Ids(right))
    ensures Moves(sup, sup.(w := w, children := left + news))
  {
    JoinedPids(left, right, news, sup.w.next, w.next);
    ThinnedAfter(Ids(left), Ids(news), Ids(right));
    IdsOfSum(left, right);
    IdsOfSum(left, news);
  }

  lemma IdsOfSum(a: seq<Child>, b: seq<Child>)
    ensures Ids(a + b) == Ids(a) + Ids(b)
  {
  }

  lemma JoinedPids(left: seq<Child>, right: seq<Child>, news: seq<Child>, first: Pid, next: Pid)
    requires PidsFrom(news, right, first, next)
    ensures PidsFrom(left + news, left + right, first, next)
  {
    forall c | c in left + news && c.pid != UNDEFINED && !(first <= c.pid < next)
      ensures exists b :: b in left + right && b.pid == c.pid
    {
      if c in left {
        assert c in left + right;
      } else {
        var b :| b in right && b.pid == c.pid;
        assert b in left + right;
      }
    }
  }

  lemma StrategyMoves(env: Env, strategy: Strategy, sup: Sup, c: Child)
    requires Sane(sup.w)
    requires c.pid == UNDEFINED || exists b :: b in sup.children && b.pid == c.pid
    ensures Moves(sup, RestartBy(env, strategy, sup, c).sup)
  {
    match strategy
    case OneForOne => RestartOneMoves(env, sup, c);
    case OneForAll =>
      RestartRightMoves(env, sup, 0);
      assert sup.children[0..] == sup.children;
      var g := RestartGroup(env, sup.w, sup.children);
      assert sup.children[..0] + g.children == g.children;
    case RestForOne =>
      ThinnedSelf(Ids(sup.children));
      RestartRightMoves(env, sup, Position(sup.children, c.id));
  }

  lemma ExitMoves(env: Env, flags: Flags, sup: Sup, pid: Pid, reason: Reason, now: int)
    requires Sane(sup.w)
    ensures Moves(sup, ChildExited(env, flags, sup, pid, reason, now).sup)
  {
    ThinnedSelf(Ids(sup.children));
    var k := PositionOfPid(sup.children, pid);
    if k < |sup.children| {
      var c := sup.children[k];
      assert c in sup.children;
      WithoutThins(sup.children, c.id);
      StrategyMoves(env, flags.strategy, sup.(history := sup.history + [now]), c);
    }
  }

  lemma StartMoves(env: Env, sup: Sup, id: string, restart: Restart)
    requires Sane(sup.w)
    ensures Moves(sup, DoStart(env, sup, id, restart).sup)
  {
    ThinnedSelf(Ids(sup.children));
    if Position(sup.children, id) == |sup.children| {
      StartChildPid(env, sup.w, NewChild(id, restart));
      var st := StartChild(env, sup.w, NewChild(id, restart));
      assert Ids(sup.children + [st.child]) == Ids(sup.children) + [id];
      assert id !in Ids(sup.children);
    }
  }

  lemma HandleMoves(env: Env, sup: Sup, request: Request)
    requires Sane(sup.w)
    ensures Moves(sup, Handle(env, sup, request).sup)
  {
    var k := Position(sup.children, request.id);
    var after := Handle(env, sup, request).sup;
    match request
    case StartIt(id, restart) => StartMoves(env, sup, id, restart);
    case TerminateIt(id) =>
      if k < |sup.children| {
        TerminateSane(env, sup.w, sup.children[k]);
      }
      MovesKeep(sup, after);
    case RestartIt(id) =>
      if k < |sup.children| {
        StartChildPid(env, sup.w, sup.children[k].(terminated := false, ignored := false));
      }
      MovesKeep(sup, after);
    case DeleteIt(id) =>
      WithoutThins(sup.children, id);
      ThinnedSelf(Ids(sup.children));
  }

  lemma ReactMoves(env: Env, flags: Flags, sup: Sup, input: Input)
    requires Sane(sup.w)
    ensures Moves(sup, React(env, flags, sup, input).sup)
  {
    match input
    case Exit(pid, reason, now) => ExitMoves(env, flags, sup, pid, reason, now);
    case Ask(request) => HandleMoves(env, sup.(w := Tick(env, sup.w)), request);
  }

  // ---------------------------------------------------------------- a whole life

  lemma IdsDistinct(cs: seq<Child>)
    ensures DistinctIds(cs) <==> forall i, j :: 0 <= i < j < |Ids(cs)| ==> Ids(cs)[i] != Ids(cs)[j]
  {
    assert forall i :: 0 <= i < |cs| ==> Ids(cs)[i] == cs[i].id;
  }

  lemma MovesDistinct(before: Sup, after: Sup)
    requires Moves(before, after) && DistinctIds(before.children)
    ensures DistinctIds(after.children)
  {
    IdsDistinct(before.children);
    IdsDistinct(after.children);
    if Thinned(Ids(after.children), Ids(before.children)) {
      ThinnedDistinct(Ids(after.children), Ids(before.children));
    }
  }

  /** Whatever happens to a supervisor, in whatever order: identifiers stay distinct. */
  lemma {:induction false} IdsStayDistinct(env: Env, flags: Flags, sup: Sup, inputs: seq<Input>)
    requires Sane(sup.w) && DistinctIds(sup.children)
    ensures var end := Live(env, flags, sup, inputs).sup;
            Sane(end.w) && sup.w.next <= end.w.next && DistinctIds(end.children)
  {
    if inputs != [] {
      var n := |inputs| - 1;
      IdsStayDistinct(env, flags, sup, inputs[..n]);
      var before := Live(env, flags, sup, inputs[..n]).sup;
      ReactMoves(env, flags, before, inputs[n]);
      var after := React(env, flags, before, inputs[n]).sup;
      MovesDistinct(before, after);
      StopSane(env, after.w, Reverse(after.children));
    }
  }

  /** Once no child has a process number that was given out before, no child will ever have it again; its exit, should
      it still come, is not taken for the exit of a child. */
  lemma {:induction false} OldPidNeverMatches(env: Env, flags: Flags, sup: Sup, inputs: seq<Input>, pid: Pid)
    requires Sane(sup.w) && UNDEFINED < pid < sup.w.next && Unlisted(sup.children, pid)
    ensures var end := Live(env, flags, sup, inputs).sup;
            && Sane(end.w) && sup.w.next <= end.w.next && Unlisted(end.children, pid)
            && PositionOfPid(end.children, pid) == |end.children|
  {
    if inputs != [] {
      var n := |inputs| - 1;
      OldPidNeverMatches(env, flags, sup, inputs[..n], pid);
      var before := Live(env, flags, sup, inputs[..n]).sup;
      ReactMoves(env, flags, before, inputs[n]);
      var after := React(env, flags, before, inputs[n]).sup;
      StopSane(env, after.w, Reverse(after.children));
    }
  }

  lemma {:induction false} StoppedWithError(env: Env, flags: Flags, sup: Sup, inputs: seq<Input>)
    requires Sane(sup.w) && Live(env, flags, sup, inputs).error.Some?
    ensures var end := Live(env, flags, sup, inputs).sup;
            Sane(end.w) && forall c :: c in end.children ==> c.pid !in end.w.alive
  {
    if inputs != [] {
      var n := |inputs| - 1;
      var before := Live(env, flags, sup, inputs[..n]);
      if before.error.Some? {
        StoppedWithError(env, flags, sup, inputs[..n]);
      } else {
        LifeIsSane(env, flags, sup, inputs[..n]);
        ReactMoves(env, flags, before.sup, inputs[n]);
        AllStopped(env, React(env, flags, before.sup, inputs[n]).sup);
      }
    }
  }

  lemma {:induction false} LifeIsSane(env: Env, flags: Flags, sup: Sup, inputs: seq<Input>)
    requires Sane(sup.w)
    ensures Sane(Live(env, flags, sup, inputs).sup.w)
  {
    if inputs != [] {
      var n := |inputs| - 1;
      LifeIsSane(env, flags, sup, inputs[..n]);
      var before := Live(env, flags, sup, inputs[..n]).sup;
      ReactMoves(env, flags, before, inputs[n]);
      var after := React(env, flags, before, inputs[n]).sup;
      StopSane(env, after.w, Reverse(after.children));
    }
  }

  /** After `Terminate` no child of the list is alive. */
  lemma AllStopped(env: Env, sup: Sup)
    requires Sane(sup.w)
    ensures Sane(ShutDown(env, sup)) && forall c :: c in sup.children ==> c.pid !in ShutDown(env, sup).alive
  {
    StopSane(env, sup.w, Reverse(sup.children));
    forall c | c in sup.children
      ensures c.pid !in ShutDown(env, sup).alive
    {
      var i :| 0 <= i < |sup.children| && sup.children[i] == c;
      ReverseAt(sup.children, |sup.children| - 1 - i);
      StoppedAreDown(env, sup.w, Reverse(sup.children), |sup.children| - 1 - i);
    }
  }
}
