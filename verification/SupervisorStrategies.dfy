/** What the three restart strategies do to the list of children, to the processes and to the trace. */
module SupervisorStrategies {
  import opened Types
  import opened Children
  import opened RestartLimit
  import opened Supervision
  import opened SupervisorLists

  // ---------------------------------------------------------------- restarting a group

  /** The starts of a list whose children get the numbers from `first` on. */
  function Starts(cs: seq<Child>, first: Pid): seq<Event> {
    seq(|cs|, i requires 0 <= i < |cs| => Started(cs[i].id, first + i))
  }

  lemma {:induction false} StartTrace(env: Env, w: World, cs: seq<Child>)
    requires AllStartsOk(env)
    ensures StartUntil(env, w, cs).w.trace == w.trace + Starts(cs, w.next)
  {
    if cs != [] {
      var n := |cs| - 1;
      StartTrace(env, w, cs[..n]);
      StartUntilOk(env, w, cs[..n]);
      assert Starts(cs, w.next) == Starts(cs[..n], w.next) + [Started(cs[n].id, w.next + n)];
    } else {
      assert Starts(cs, w.next) == [];
    }
  }

  /** Stopping a list backwards and turning what is left around gives the list without its temporary members. */
  lemma StopBackwards(env: Env, w: World, cs: seq<Child>)
    ensures Reverse(StopAll(env, w, Reverse(cs)).children) == Remaining(cs)
  {
    StopLeaves(env, w, Reverse(cs));
    RemainingReverse(cs);
    ReverseTwice(Remaining(cs));
  }

  /** If all starts succeed: the members that are not temporary, in their old order, with fresh numbers in that order;
      the trace shows the stops of the ones found alive, last first, and then all the starts, first first. */
  lemma GroupRestarted(env: Env, w: World, cs: seq<Child>)
    requires AllStartsOk(env) && Sane(w)
    ensures var g := RestartGroup(env, w, cs);
            var who := Found(env, w, Reverse(cs));
            && g.error == None
            && g.children == Renewed(Remaining(cs), w.next)
            && Ascending(who, |Reverse(cs)|)
            && g.w.trace == w.trace + Pairs(PidsAt(Reverse(cs), who)) + Starts(Remaining(cs), w.next)
  {
    GroupWorld(env, w, cs);
    StopTrace(env, w, Reverse(cs));
    StartTrace(env, StopAll(env, w, Reverse(cs)).w, Remaining(cs));
  }

  // ---------------------------------------------------------------- the strategies

  lemma PositionOfMember(cs: seq<Child>, k: nat)
    requires DistinctIds(cs) && k < |cs|
    ensures Position(cs, cs[k].id) == k
  {
    var p := Position(cs, cs[k].id);
  }

  /** RestForOne at the child `k`: the children before it stay as they are, the others are restarted. */
  lemma RestForOneKeepsFront(env: Env, sup: Sup, k: nat)
    requires AllStartsOk(env) && Sane(sup.w) && DistinctIds(sup.children) && k < |sup.children|
    ensures var r := RestartBy(env, RestForOne, sup, sup.children[k]);
            && r.error == None
            && r.sup.children == sup.children[..k] + Renewed(Remaining(sup.children[k..]), sup.w.next)
  {
    PositionOfMember(sup.children, k);
    GroupRestarted(env, sup.w, sup.children[k..]);
  }

  /** The processes of the children before `k` are not touched: with nobody dying by itself, all live on. */
  lemma FrontLivesOn(env: Env, sup: Sup, k: nat, i: nat)
    requires AllStartsOk(env) && NobodyDies(env) && Sane(sup.w)
    requires DistinctIds(sup.children) && DistinctPids(sup.children) && i < k < |sup.children|
    requires sup.children[i].pid in sup.w.alive
    ensures sup.children[i].pid in RestartBy(env, RestForOne, sup, sup.children[k]).sup.w.alive
  {
    PositionOfMember(sup.children, k);
    var right := sup.children[k..];
    var pid := sup.children[i].pid;
    forall j | 0 <= j < |Reverse(right)|
      ensures Reverse(right)[j].pid != pid
    {
      ReverseAt(right, 0);
      ReverseAt(right, j);
    }
    OthersStayAlive(env, sup.w, Reverse(right), pid);
    var s := StopAll(env, sup.w, Reverse(right));
    StopBackwards(env, sup.w, right);
    StillAlive(env, s.w, Remaining(right), pid);
    StartUntilOk(env, s.w, Remaining(right));
  }

  lemma {:induction false} StillAlive(env: Env, w: World, cs: seq<Child>, pid: Pid)
    requires NobodyDies(env) && pid in w.alive
    ensures pid in StartUntil(env, w, cs).w.alive
  {
    if cs != [] {
      StillAlive(env, w, cs[..|cs| - 1], pid);
    }
  }

  /** OneForAll does the same, to the list, the processes and the trace, as RestForOne for the first child. */
  lemma OneForAllIsRestForOne(env: Env, sup: Sup, c: Child)
    requires sup.children != [] && DistinctIds(sup.children)
    ensures RestartBy(env, OneForAll, sup, c) == RestartBy(env, RestForOne, sup, sup.children[0])
  {
    PositionOfMember(sup.children, 0);
    assert sup.children[0..] == sup.children;
    var g := RestartGroup(env, sup.w, sup.children);
    assert sup.children[..0] + g.children == g.children;
  }

  /** Started children are alive, if nobody dies. */
  lemma {:induction false} StartedAreAlive(env: Env, w: World, cs: seq<Child>, i: nat)
    requires AllStartsOk(env) && NobodyDies(env) && i < |cs|
    ensures w.next + i in StartUntil(env, w, cs).w.alive
  {
    var n := |cs| - 1;
    StartUntilOk(env, w, cs[..n]);
    if i < n {
      StartedAreAlive(env, w, cs[..n], i);
    }
  }

  lemma {:induction false} RemainingFlags(cs: seq<Child>)
    ensures forall i :: 0 <= i < |Remaining(cs)| ==>
              Remaining(cs)[i].terminated && Remaining(cs)[i].restart != Temporary
  {
    if cs != [] {
      RemainingFlags(cs[..|cs| - 1]);
    }
  }

  /** A group restart that went well leaves every child alive and marked as terminated. */
  lemma GroupRestartLeavesFlags(env: Env, w: World, cs: seq<Child>, i: nat)
    requires AllStartsOk(env) && NobodyDies(env) && Sane(w) && i < |RestartGroup(env, w, cs).children|
    ensures var g := RestartGroup(env, w, cs);
            g.children[i].pid in g.w.alive && g.children[i].terminated && !Active(g.w, g.children[i])
  {
    StopBackwards(env, w, cs);
    RemainingFlags(cs);
    StartedKeepFlags(env, StopAll(env, w, Reverse(cs)).w, Remaining(cs), i);
  }

  /** Starting does not clear the mark. */
  lemma StartedKeepFlags(env: Env, w: World, cs: seq<Child>, i: nat)
    requires AllStartsOk(env) && NobodyDies(env) && i < |StartAll(env, w, cs).children|
    ensures var r := StartAll(env, w, cs);
            i < |cs| && r.children[i].pid in r.w.alive && r.children[i].terminated == cs[i].terminated
  {
    RenewedGroup(env, w, cs);
    StartedAreAlive(env, w, cs, i);
  }

  lemma GroupWorld(env: Env, w: World, cs: seq<Child>)
    requires AllStartsOk(env) && Sane(w)
    ensures var v := StopAll(env, w, Reverse(cs)).w;
            && v.next == w.next
            && RestartGroup(env, w, cs)
               == StartedAll(StartUntil(env, v, Remaining(cs)).w, Renewed(Remaining(cs), w.next), None)
  {
    StopBackwards(env, w, cs);
    StopSane(env, w, Reverse(cs));
    RenewedGroup(env, StopAll(env, w, Reverse(cs)).w, Remaining(cs));
  }

  lemma RenewedGroup(env: Env, w: World, cs: seq<Child>)
    requires AllStartsOk(env)
    ensures StartAll(env, w, cs) == StartedAll(StartUntil(env, w, cs).w, Renewed(cs, w.next), None)
  {
    StartUntilOk(env, w, cs);
    assert Renewed(cs, w.next) + cs[|cs|..] == Renewed(cs, w.next);
  }

  /** A group restart that fails is not reported: the supervisor goes on, with all of the group down. */
  lemma GroupRestartHidesFailure(env: Env, sup: Sup, c: Child)
    requires Sane(sup.w) && RestartGroup(env, sup.w, sup.children).error.Some?
    ensures var r := RestartBy(env, OneForAll, sup, c);
            r.error == None && forall d :: d in r.sup.children ==> d.pid !in r.sup.w.alive
  {
    var s := StopAll(env, sup.w, Reverse(sup.children));
    StopSane(env, sup.w, Reverse(sup.children));
    RollbackLeavesNone(env, s.w, Reverse(s.children));
  }

  // ---------------------------------------------------------------- which exits are answered by a restart

  /** The exit of the process `pid` calls for a restart. */
  predicate RestartWanted(sup: Sup, pid: Pid, reason: Reason) {
    var k := PositionOfPid(sup.children, pid);
    && k < |sup.children|
    && (|| sup.children[k].restart == Permanent
        || (sup.children[k].restart == Transient
            && reason != Normal && reason != SupervisorShutdown && !reason.Shutdown?))
  }

  /** The exit of a process is answered by a restart attempt, that is, it enters the restart history, exactly when the
      process is that of a permanent child, or of a transient child and the reason is not a clean one. */
  lemma RestartsExactlyWhen(env: Env, flags: Flags, sup: Sup, pid: Pid, reason: Reason, now: int)
    ensures var after := ChildExited(env, flags, sup, pid, reason, now).sup;
            && (RestartWanted(sup, pid, reason) ==> after.history == sup.history + [now])
            && (!RestartWanted(sup, pid, reason) ==> after.history == sup.history && after.w == sup.w)
  {
    var k := PositionOfPid(sup.children, pid);
    if k < |sup.children| {
      var counted := sup.(history := sup.history + [now]);
      assert RestartBy(env, flags.strategy, counted, sup.children[k]).sup.history == counted.history;
    }
  }

  /** A supervisor ends because of an exit exactly when a restart is called for and the limiter refuses it, or the lone
      restart fails to start. */
  lemma EndsExactlyWhen(env: Env, flags: Flags, sup: Sup, pid: Pid, reason: Reason, now: int)
    requires DistinctIds(sup.children)
    ensures ChildExited(env, flags, sup, pid, reason, now).error.Some? <==>
              RestartWanted(sup, pid, reason)
              && (|| Exceeded(sup.history + [now], WindowStart(now, flags.period), flags.intensity)
                  || (flags.strategy == OneForOne && env.start(sup.w.now).StartFail?))
  {
    var k := PositionOfPid(sup.children, pid);
    if k < |sup.children| {
      PositionOfMember(sup.children, k);
    }
  }
}
