/** What one exit of a child comes to, told on the list of children, the processes and the trace; and the order in which
    a supervisor that ends stops its children. */
module SupervisorExits {
  import opened Types
  import opened Children
  import opened RestartLimit
  import opened Supervision
  import opened SupervisorLists
  import opened SupervisorStrategies

  /** `pid` is the process of the child at `k`, and of none before it. */
  predicate IsOf(cs: seq<Child>, k: nat, pid: Pid) {
    k < |cs| && cs[k].pid == pid && forall i :: 0 <= i < k ==> cs[i].pid != pid
  }

  /** A child that is restarted after such an exit. */
  predicate Comes(c: Child, reason: Reason) {
    match c.restart
    case Permanent => true
    case Transient => reason != Normal && reason != SupervisorShutdown && !reason.Shutdown?
    case Temporary => false
  }

  /** The restart at `now` is within the limit. */
  predicate Allowed(flags: Flags, sup: Sup, now: int) {
    !Exceeded(sup.history + [now], now - flags.period * 1_000_000_000, flags.intensity)
  }

  lemma {:induction false} WithoutAt(cs: seq<Child>, k: nat)
    requires DistinctIds(cs) && k < |cs|
    ensures Without(cs, cs[k].id) == cs[..k] + cs[k + 1..]
  {
    var n := |cs| - 1;
    if k < n {
      WithoutAt(cs[..n], k);
      assert cs[..n][..k] == cs[..k];
      assert cs[k + 1..] == cs[..n][k + 1..] + [cs[n]];
    } else {
      WithoutNone(cs[..n], cs[k].id);
      assert cs[k + 1..] == [];
    }
  }

  lemma {:induction false} WithoutNone(cs: seq<Child>, id: string)
    requires forall i :: 0 <= i < |cs| ==> cs[i].id != id
    ensures Without(cs, id) == cs
  {
    if cs != [] {
      WithoutNone(cs[..|cs| - 1], id);
      assert cs == cs[..|cs| - 1] + [cs[|cs| - 1]];
    }
  }

  /** The exit of a child that is not restarted takes just this child from the list; the exit of a process that is no
      child's does nothing. Neither sends, starts or counts anything. */
  lemma ForgottenExit(env: Env, flags: Flags, sup: Sup, k: nat, pid: Pid, reason: Reason, now: int)
    requires DistinctIds(sup.children)
    ensures IsOf(sup.children, k, pid) && !Comes(sup.children[k], reason) ==>
              ChildExited(env, flags, sup, pid, reason, now)
              == Reaction(sup.(children := sup.children[..k] + sup.children[k + 1..]), None)
    ensures (forall c :: c in sup.children ==> c.pid != pid) ==>
              ChildExited(env, flags, sup, pid, reason, now) == Reaction(sup, None)
  {
    if IsOf(sup.children, k, pid) {
      WithoutAt(sup.children, k);
    }
  }

  /** What a lone restart comes to. If the start succeeds, the next process number stands at place `k`, nothing else of
      the list has changed, and nothing was sent to anybody. */
  lemma LoneRestart(env: Env, flags: Flags, sup: Sup, k: nat, pid: Pid, reason: Reason, now: int)
    requires DistinctIds(sup.children) && IsOf(sup.children, k, pid)
    requires flags.strategy == OneForOne && Comes(sup.children[k], reason) && Allowed(flags, sup, now)
    ensures var c := sup.children[k];
            var r := ChildExited(env, flags, sup, pid, reason, now);
            && r.sup.history == sup.history + [now]
            && match env.start(sup.w.now) {
                 case StartOk =>
                   && r.error == None
                   && r.sup.children == sup.children[k := c.(pid := sup.w.next)]
                   && r.sup.w.alive == sup.w.alive - env.dying(sup.w.now) + {sup.w.next}
                   && r.sup.w.next == sup.w.next + 1
                   && r.sup.w.trace == sup.w.trace + [Started(c.id, sup.w.next)]
                 case StartIgnore =>
                   && r.error == None
                   && r.sup.children == sup.children[k := c.(pid := UNDEFINED, ignored := true)]
                   && r.sup.w.alive == sup.w.alive - env.dying(sup.w.now) && r.sup.w.next == sup.w.next
                   && r.sup.w.trace == sup.w.trace + [Ignored(c.id)]
                 case StartFail(why) =>
                   && r.error == Some(why)
                   && r.sup.children == sup.children
                   && r.sup.w.alive == sup.w.alive - env.dying(sup.w.now) && r.sup.w.next == sup.w.next
                   && r.sup.w.trace == sup.w.trace + [Failed(c.id)]
               }
  {
    PositionOfMember(sup.children, k);
  }

  /** The exit of the process that a lone restart has started finds its child again: it is restarted once more, or
      forgotten, as its restart type and the reason say. */
  lemma RestartedIsFound(env: Env, flags: Flags, sup: Sup, k: nat, pid: Pid, reason: Reason, now: int,
                         reason2: Reason, now2: int)
    requires DistinctIds(sup.children) && IsOf(sup.children, k, pid)
    requires flags.strategy == OneForOne && Comes(sup.children[k], reason) && Allowed(flags, sup, now)
    requires env.start(sup.w.now) == StartOk && forall c :: c in sup.children ==> c.pid < sup.w.next
    ensures var once := ChildExited(env, flags, sup, pid, reason, now).sup;
            && IsOf(once.children, k, sup.w.next)
            && (Comes(sup.children[k], reason2) ==>
                  ChildExited(env, flags, once, sup.w.next, reason2, now2).sup.history == once.history + [now2])
            && (!Comes(sup.children[k], reason2) ==>
                  ChildExited(env, flags, once, sup.w.next, reason2, now2).sup.children
                  == sup.children[..k] + sup.children[k + 1..])
  {
    LoneRestart(env, flags, sup, k, pid, reason, now);
    var once := ChildExited(env, flags, sup, pid, reason, now).sup;
    forall i | 0 <= i < k
      ensures once.children[i].pid != sup.w.next
    {
      assert sup.children[i] in sup.children;
    }
    if !Comes(sup.children[k], reason2) {
      ForgottenExit(env, flags, once, k, sup.w.next, reason2, now2);
      assert once.children[..k] == sup.children[..k] && once.children[k + 1..] == sup.children[k + 1..];
    } else {
      RestartsExactlyWhen(env, flags, once, sup.w.next, reason2, now2);
    }
  }

  /** What a group restart comes to, if all starts succeed: from place `from` on (the failed child's, or the first) the
      list holds its non-temporary members, in their order and with fresh processes; the exits went out last first. */
  lemma GroupRestart(env: Env, flags: Flags, sup: Sup, k: nat, pid: Pid, reason: Reason, now: int)
    requires DistinctIds(sup.children) && IsOf(sup.children, k, pid) && Sane(sup.w) && AllStartsOk(env)
    requires flags.strategy != OneForOne && Comes(sup.children[k], reason) && Allowed(flags, sup, now)
    ensures var r := ChildExited(env, flags, sup, pid, reason, now);
            var from := if flags.strategy == OneForAll then 0 else k;
            var group := sup.children[from..];
            var who := Found(env, sup.w, Reverse(group));
            && r.error == None && r.sup.history == sup.history + [now]
            && r.sup.children == sup.children[..from] + Renewed(Remaining(group), sup.w.next)
            && Ascending(who, |Reverse(group)|)
            && r.sup.w.trace
               == sup.w.trace + Pairs(PidsAt(Reverse(group), who)) + Starts(Remaining(group), sup.w.next)
  {
    ExitRestarts(env, flags, sup, k, pid, reason, now);
    var from := if flags.strategy == OneForAll then 0 else k;
    GroupBy(env, flags.strategy, sup.(history := sup.history + [now]), k);
    GroupRestarted(env, sup.w, sup.children[from..]);
  }

  lemma ExitRestarts(env: Env, flags: Flags, sup: Sup, k: nat, pid: Pid, reason: Reason, now: int)
    requires IsOf(sup.children, k, pid) && Comes(sup.children[k], reason) && Allowed(flags, sup, now)
    ensures ChildExited(env, flags, sup, pid, reason, now)
         == RestartBy(env, flags.strategy, sup.(history := sup.history + [now]), sup.children[k])
  {
  }

  lemma GroupBy(env: Env, strategy: Strategy, sup: Sup, k: nat)
    requires DistinctIds(sup.children) && k < |sup.children| && strategy != OneForOne
    ensures var from := if strategy == OneForAll then 0 else k;
            var g := RestartGroup(env, sup.w, sup.children[from..]);
            RestartBy(env, strategy, sup, sup.children[k])
            == Reaction(sup.(w := g.w, children := sup.children[..from] + g.children), None)
  {
    PositionOfMember(sup.children, k);
    assert sup.children[0..] == sup.children;
    var g := RestartGroup(env, sup.w, sup.children);
    assert sup.children[..0] + g.children == g.children;
  }

  /** The same places, counted from the other end. */
  function Mirrored(n: nat, who: seq<nat>): seq<nat>
    requires forall i :: 0 <= i < |who| ==> who[i] < n
  {
    seq(|who|, i requires 0 <= i < |who| => n - 1 - who[i])
  }

  lemma MirroredPids(cs: seq<Child>, who: seq<nat>)
    requires |Reverse(cs)| == |cs| && forall i :: 0 <= i < |who| ==> who[i] < |cs|
    ensures PidsAt(Reverse(cs), who) == PidsAt(cs, Mirrored(|cs|, who))
  {
    var a, b := PidsAt(Reverse(cs), who), PidsAt(cs, Mirrored(|cs|, who));
    forall i | 0 <= i < |who|
      ensures a[i] == b[i]
    {
      ReverseAt(cs, who[i]);
    }
  }

  lemma ReverseLength<T>(s: seq<T>)
    ensures |Reverse(s)| == |s|
  {
    if s != [] {
      ReverseAt(s, 0);
    }
  }

  /** A supervisor that ends stops its children from the last to the first, each down before the next exit; `places` are
      the places in the list of those found alive. */
  lemma StopsLastFirst(env: Env, sup: Sup) returns (places: seq<nat>)
    ensures forall i :: 0 <= i < |places| ==> places[i] < |sup.children|
    ensures forall i, j :: 0 <= i < j < |places| ==> places[i] > places[j]
    ensures ShutDown(env, sup).trace == sup.w.trace + Pairs(PidsAt(sup.children, places))
    ensures Sane(sup.w) && NobodyDies(env) && DistinctPids(sup.children) ==>
              forall i :: 0 <= i < |sup.children| && sup.children[i].pid in sup.w.alive ==> i in places
  {
    var cs := sup.children;
    var who := Found(env, sup.w, Reverse(cs));
    StopTrace(env, sup.w, Reverse(cs));
    ReverseLength(cs);
    MirroredPids(cs, who);
    places := Mirrored(|cs|, who);
    if Sane(sup.w) && NobodyDies(env) && DistinctPids(cs) {
      forall i | 0 <= i < |cs| && cs[i].pid in sup.w.alive
        ensures i in places
      {
        LivingIsPlaced(env, sup.w, cs, i);
      }
    }
  }

  lemma LivingIsPlaced(env: Env, w: World, cs: seq<Child>, i: nat)
    requires Sane(w) && NobodyDies(env) && DistinctPids(cs) && i < |cs| && cs[i].pid in w.alive
    requires |Reverse(cs)| == |cs|
    requires forall j :: 0 <= j < |Found(env, w, Reverse(cs))| ==> Found(env, w, Reverse(cs))[j] < |cs|
    ensures i in Mirrored(|cs|, Found(env, w, Reverse(cs)))
  {
    var who := Found(env, w, Reverse(cs));
    ReverseDistinct(cs);
    ReverseAt(cs, |cs| - 1 - i);
    AllLivingAreFound(env, w, Reverse(cs), |cs| - 1 - i);
    var j :| 0 <= j < |who| && who[j] == |cs| - 1 - i;
    assert Mirrored(|cs|, who)[j] == i;
  }

  lemma ReverseDistinct(cs: seq<Child>)
    requires DistinctPids(cs)
    ensures DistinctPids(Reverse(cs))
  {
    if cs != [] {
      ReverseAt(cs, 0);
    }
    forall i, j | 0 <= i < j < |Reverse(cs)|
      ensures Reverse(cs)[i].pid != Reverse(cs)[j].pid || Reverse(cs)[i].pid == UNDEFINED
    {
      ReverseAt(cs, i);
      ReverseAt(cs, j);
    }
  }

  /** A child that was started on request is entered last, as it was asked for. */
  lemma EnteredAsAsked(env: Env, sup: Sup, id: string, restart: Restart)
    requires Serve(env, sup, StartIt(id, restart)).answer.Fine?
    ensures var r := Serve(env, sup, StartIt(id, restart));
            var ignored := env.start(sup.w.now + 1) == StartIgnore;
            && r.answer.pid == (if ignored then UNDEFINED else sup.w.next)
            && r.sup.children == sup.children + [Child(id, restart, r.answer.pid, ignored, false)]
            && forall i :: 0 <= i < |sup.children| ==> sup.children[i].id != id
  {
  }
}
