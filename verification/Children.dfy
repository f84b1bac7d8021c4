/** A supervisor's children, and starting and stopping them, as functions: `startChild`, `terminateChild`,
    `startChildren` and `stopChildren` of `erl/supervisor/supervisor.go` over a world that answers for the user's
    start functions and lets children die at any moment. */
module Children {
  import opened Types

  datatype Restart = Permanent | Temporary | Transient

  datatype Child = Child(id: string, restart: Restart, pid: Pid, ignored: bool, terminated: bool)

  /** What a start function does. */
  datatype Start = StartOk | StartIgnore | StartFail(why: string)

  /** The environment: the outcome of the start function called at a given moment, and the processes that have died
      by themselves since the moment before; for a wait that begins at a given moment, how long the child that was sent
      its exit still lives at most, and how long the report of its death takes after that. */
  datatype Env = Env(start: nat -> Start, dying: nat -> set<Pid>, lingers: nat -> nat, delay: nat -> nat)

  datatype Event =
    | Started(id: string, pid: Pid)
    | Ignored(id: string)
    | Failed(id: string)
    | ExitSent(pid: Pid)
    | Down(pid: Pid)

  /** Every live process has a number below `next`. */
  datatype World = World(alive: set<Pid>, next: Pid, now: nat, trace: seq<Event>)

  ghost predicate Sane(w: World) {
    w.next > UNDEFINED && forall p :: p in w.alive ==> UNDEFINED < p < w.next
  }

  function Tick(env: Env, w: World): World {
    w.(alive := w.alive - env.dying(w.now), now := w.now + 1)
  }

  function Log(w: World, e: Event): World {
    w.(trace := w.trace + [e])
  }

  // ---------------------------------------------------------------- one child

  datatype Startup = Startup(w: World, child: Child, error: Option<string>)

  /** `startChild`: the flags `ignored` and `terminated` that the spec had before are not cleared. */
  function StartChild(env: Env, w: World, c: Child): Startup {
    var v := Tick(env, w);
    match env.start(w.now)
    case StartOk =>
      Startup(Log(v.(alive := v.alive + {v.next}, next := v.next + 1), Started(c.id, v.next)), c.(pid := v.next), None)
    case StartIgnore => Startup(Log(v, Ignored(c.id)), c.(pid := UNDEFINED, ignored := true), None)
    case StartFail(why) => Startup(Log(v, Failed(c.id)), c, Some(why))
  }

  /** The killer may report once the child is not alive, and not before (`ChildKiller.ReportsOnceAfterDeath`). */
  predicate MayReport(w: World, pid: Pid) {
    pid !in w.alive
  }

  /** A moment goes by; if the child that is waited for has died meanwhile, that is logged. */
  function Moment(env: Env, w: World, pid: Pid): World {
    var v := Tick(env, w);
    if pid in w.alive && pid !in v.alive then Log(v, Down(pid)) else v
  }

  /** The child obeys at last. */
  function Obeys(w: World, pid: Pid): World {
    Log(w, Down(pid)).(alive := w.alive - {pid})
  }

  /** The supervisor waits for the report: moment after moment, in which any process may die. */
  function Wait(env: Env, w: World, pid: Pid, lingers: nat, delay: nat): World
    decreases pid in w.alive, lingers, delay
  {
    if MayReport(w, pid) then
      if delay == 0 then w else Wait(env, Moment(env, w, pid), pid, lingers, delay - 1)
    else if lingers == 0 then Wait(env, Obeys(w, pid), pid, 0, delay)
    else Wait(env, Moment(env, w, pid), pid, lingers - 1, delay)
  }

  datatype Stopping = Stopping(w: World, child: Child, keep: bool)

  /** `terminateChild`: a child found alive is sent its exit, and the call returns with the killer's report. */
  function TerminateChild(env: Env, w: World, c: Child): Stopping {
    var v := Tick(env, w);
    var u := if c.pid in v.alive then Wait(env, Log(v, ExitSent(c.pid)), c.pid, env.lingers(v.now), env.delay(v.now))
             else v;
    Stopping(u, c.(terminated := true), c.restart != Temporary)
  }

  // ---------------------------------------------------------------- lists of children

  datatype Halted = Halted(w: World, children: seq<Child>)

  /** `stopChildren` in the order of the list; temporary children leave it. */
  function StopAll(env: Env, w: World, cs: seq<Child>): Halted {
    if cs == [] then Halted(w, [])
    else
      var front := StopAll(env, w, cs[..|cs| - 1]);
      var last := TerminateChild(env, front.w, cs[|cs| - 1]);
      Halted(last.w, front.children + if last.keep then [last.child] else [])
  }

  /** `done` children are started; with an error, the child after them is the one that failed. */
  datatype Starting = Starting(w: World, done: seq<Child>, error: Option<string>)

  function StartUntil(env: Env, w: World, cs: seq<Child>): Starting {
    if cs == [] then Starting(w, [], None)
    else
      var front := StartUntil(env, w, cs[..|cs| - 1]);
      if front.error.Some? then front
      else
        var last := StartChild(env, front.w, cs[|cs| - 1]);
        if last.error.Some? then Starting(last.w, front.done, last.error)
        else Starting(last.w, front.done + [last.child], None)
  }

  function Reverse<T>(s: seq<T>): seq<T> {
    if s == [] then [] else [s[|s| - 1]] + Reverse(s[..|s| - 1])
  }

  datatype StartedAll = StartedAll(w: World, children: seq<Child>, error: Option<string>)

  /** `startChildren`: on an error everything in the list that is alive is stopped, last first, and the list keeps
      what was entered into it before. */
  function StartAll(env: Env, w: World, cs: seq<Child>): StartedAll {
    var r := StartUntil(env, w, cs);
    var now := r.done + if |r.done| <= |cs| then cs[|r.done|..] else [];
    if r.error.Some? then StartedAll(StopAll(env, r.w, Reverse(now)).w, now, r.error)
    else StartedAll(r.w, now, None)
  }

  // ---------------------------------------------------------------- lists in general

  lemma {:induction false} ReverseAppend<T>(a: seq<T>, b: seq<T>)
    ensures Reverse(a + b) == Reverse(b) + Reverse(a)
  {
    if b == [] {
      assert a + b == a;
    } else {
      ReverseAppend(a, b[..|b| - 1]);
      assert (a + b)[..|a + b| - 1] == a + b[..|b| - 1];
    }
  }

  lemma {:induction false} ReverseAt<T>(s: seq<T>, k: nat)
    requires k < |s|
    ensures |Reverse(s)| == |s| && Reverse(s)[k] == s[|s| - 1 - k]
  {
    if |s| > 1 {
      ReverseAt(s[..|s| - 1], if k > 0 then k - 1 else 0);
    }
  }

  lemma {:induction false} ReverseTwice<T>(s: seq<T>)
    ensures Reverse(Reverse(s)) == s
  {
    if s != [] {
      ReverseTwice(s[..|s| - 1]);
      ReverseAppend([s[|s| - 1]], Reverse(s[..|s| - 1]));
    }
  }

  // ---------------------------------------------------------------- worlds stay sane

  ghost predicate NobodyDies(env: Env) {
    forall n :: env.dying(n) == {}
  }

  lemma StartSane(env: Env, w: World, c: Child)
    requires Sane(w)
    ensures Sane(StartChild(env, w, c).w) && w.next <= StartChild(env, w, c).w.next
    ensures w.trace <= StartChild(env, w, c).w.trace
  {
  }

  /** What a wait comes to, however long it takes: the death of the child is logged, nothing else is, no exit is sent
      meanwhile, and when it is over the child is not alive. */
  lemma {:induction false} WaitEnds(env: Env, w: World, pid: Pid, lingers: nat, delay: nat)
    ensures var u := Wait(env, w, pid, lingers, delay);
            && MayReport(u, pid) && u.alive <= w.alive && u.next == w.next
            && u.trace == w.trace + if pid in w.alive then [Down(pid)] else []
    decreases pid in w.alive, lingers, delay
  {
    if MayReport(w, pid) {
      if delay > 0 {
        WaitEnds(env, Moment(env, w, pid), pid, lingers, delay - 1);
      }
    } else if lingers == 0 {
      WaitEnds(env, Obeys(w, pid), pid, 0, delay);
    } else {
      WaitEnds(env, Moment(env, w, pid), pid, lingers - 1, delay);
    }
  }

  /** The first `n` moments of a wait, whether or not it ever ends. */
  function Waiting(env: Env, w: World, pid: Pid, n: nat): World {
    if n == 0 then w else Moment(env, Waiting(env, w, pid, n - 1), pid)
  }

  /** Even a wait that never ends sends no exit to anybody, and keeps the supervisor from doing so. */
  lemma {:induction false} WaitingSendsNothing(env: Env, w: World, pid: Pid, n: nat)
    ensures var u := Waiting(env, w, pid, n);
            && u.alive <= w.alive
            && u.trace == w.trace + if pid in w.alive && pid !in u.alive then [Down(pid)] else []
  {
    if n > 0 {
      WaitingSendsNothing(env, w, pid, n - 1);
    }
  }

  /** If nobody dies by itself, nobody but the child dies during the wait. */
  lemma {:induction false} WaitSpares(env: Env, w: World, pid: Pid, lingers: nat, delay: nat)
    requires NobodyDies(env)
    ensures Wait(env, w, pid, lingers, delay).alive == w.alive - {pid}
    decreases pid in w.alive, lingers, delay
  {
    if MayReport(w, pid) {
      if delay > 0 {
        WaitSpares(env, Moment(env, w, pid), pid, lingers, delay - 1);
      }
    } else if lingers == 0 {
      WaitSpares(env, Obeys(w, pid), pid, 0, delay);
    } else {
      WaitSpares(env, Moment(env, w, pid), pid, lingers - 1, delay);
    }
  }

  /** Stopping one child: if it is found alive its exit goes out, and its death comes before the call is over. */
  lemma TerminateTrace(env: Env, w: World, c: Child)
    ensures TerminateChild(env, w, c).w.trace
         == w.trace + if c.pid in Tick(env, w).alive then [ExitSent(c.pid), Down(c.pid)] else []
  {
    var v := Tick(env, w);
    if c.pid in v.alive {
      WaitEnds(env, Log(v, ExitSent(c.pid)), c.pid, env.lingers(v.now), env.delay(v.now));
    }
  }

  lemma TerminateSpares(env: Env, w: World, c: Child)
    requires NobodyDies(env)
    ensures TerminateChild(env, w, c).w.alive == w.alive - {c.pid}
  {
    var v := Tick(env, w);
    if c.pid in v.alive {
      WaitSpares(env, Log(v, ExitSent(c.pid)), c.pid, env.lingers(v.now), env.delay(v.now));
    }
  }

  lemma TerminateSane(env: Env, w: World, c: Child)
    requires Sane(w)
    ensures var s := TerminateChild(env, w, c);
            Sane(s.w) && s.w.next == w.next && s.w.alive <= w.alive - {c.pid} && w.trace <= s.w.trace
  {
    var v := Tick(env, w);
    if c.pid in v.alive {
      WaitEnds(env, Log(v, ExitSent(c.pid)), c.pid, env.lingers(v.now), env.delay(v.now));
    }
  }

  lemma {:induction false} StopSane(env: Env, w: World, cs: seq<Child>)
    requires Sane(w)
    ensures var s := StopAll(env, w, cs);
            Sane(s.w) && s.w.next == w.next && s.w.alive <= w.alive && w.trace <= s.w.trace
  {
    if cs != [] {
      StopSane(env, w, cs[..|cs| - 1]);
      TerminateSane(env, StopAll(env, w, cs[..|cs| - 1]).w, cs[|cs| - 1]);
    }
  }

  // ---------------------------------------------------------------- the order of stopping

  /** After the first `k` of a list were stopped none of them is alive, and none comes back while the rest is stopped:
      the exit of a child is sent only when all its predecessors in the list are down. */
  lemma {:induction false} StoppedAreDown(env: Env, w: World, cs: seq<Child>, k: nat)
    requires Sane(w) && k < |cs|
    ensures cs[k].pid !in StopAll(env, w, cs).w.alive
  {
    var n := |cs| - 1;
    StopSane(env, w, cs[..n]);
    TerminateSane(env, StopAll(env, w, cs[..n]).w, cs[n]);
    if k < n {
      StoppedAreDown(env, w, cs[..n], k);
    }
  }

  /** The positions of the children that are found alive when their turn comes. */
  function Found(env: Env, w: World, cs: seq<Child>): seq<nat> {
    if cs == [] then []
    else
      var n := |cs| - 1;
      Found(env, w, cs[..n]) + if cs[n].pid in Tick(env, StopAll(env, w, cs[..n]).w).alive then [n] else []
  }

  /** One exit after the other, each directly followed by the down of the same child. */
  function Pairs(pids: seq<Pid>): seq<Event> {
    if pids == [] then []
    else Pairs(pids[..|pids| - 1]) + [ExitSent(pids[|pids| - 1]), Down(pids[|pids| - 1])]
  }

  ghost predicate Ascending(who: seq<nat>, n: nat) {
    && (forall i :: 0 <= i < |who| ==> who[i] < n)
    && (forall i, j :: 0 <= i < j < |who| ==> who[i] < who[j])
  }

  function PidsAt(cs: seq<Child>, who: seq<nat>): seq<Pid>
    requires forall i :: 0 <= i < |who| ==> who[i] < |cs|
  {
    seq(|who|, i requires 0 <= i < |who| => cs[who[i]].pid)
  }

  lemma {:induction false} FoundAscends(env: Env, w: World, cs: seq<Child>)
    ensures Ascending(Found(env, w, cs), |cs|)
  {
    if cs != [] {
      FoundAscends(env, w, cs[..|cs| - 1]);
    }
  }

  lemma PairsOfLast(cs: seq<Child>, front: seq<nat>, found: bool)
    requires cs != [] && Ascending(front, |cs| - 1)
    ensures var n := |cs| - 1;
            var who := front + if found then [n] else [];
            && Ascending(who, |cs|)
            && Pairs(PidsAt(cs, who))
               == Pairs(PidsAt(cs[..n], front)) + if found then [ExitSent(cs[n].pid), Down(cs[n].pid)] else []
  {
    var n := |cs| - 1;
    assert PidsAt(cs[..n], front) == PidsAt(cs, front);
    if found {
      var pids := PidsAt(cs, front + [n]);
      assert pids[..|pids| - 1] == PidsAt(cs, front);
    } else {
      assert front + [] == front;
    }
  }

  /** What stopping a list adds to the trace: in list order, each child found alive is sent its exit, and nothing is
      sent to the next one before it is down. */
  lemma {:induction false} StopTrace(env: Env, w: World, cs: seq<Child>)
    ensures Ascending(Found(env, w, cs), |cs|)
    ensures StopAll(env, w, cs).w.trace == w.trace + Pairs(PidsAt(cs, Found(env, w, cs)))
  {
    FoundAscends(env, w, cs);
    if cs != [] {
      var n := |cs| - 1;
      var v := StopAll(env, w, cs[..n]).w;
      FoundAscends(env, w, cs[..n]);
      StopTrace(env, w, cs[..n]);
      TerminateTrace(env, v, cs[n]);
      PairsOfLast(cs, Found(env, w, cs[..n]), cs[n].pid in Tick(env, v).alive);
    }
  }

  /** Only processes that are alive when stopping begins are found. */
  lemma {:induction false} FoundWasAlive(env: Env, w: World, cs: seq<Child>, k: nat)
    requires Sane(w) && k in Found(env, w, cs)
    ensures k < |cs| && cs[k].pid in w.alive
  {
    var n := |cs| - 1;
    StopSane(env, w, cs[..n]);
    if k in Found(env, w, cs[..n]) {
      FoundWasAlive(env, w, cs[..n], k);
    }
  }

  ghost predicate DistinctPids(cs: seq<Child>) {
    forall i, j :: 0 <= i < j < |cs| ==> cs[i].pid != cs[j].pid || cs[i].pid == UNDEFINED
  }

  /** If nobody dies by itself, exactly the living are found. */
  lemma {:induction false} AllLivingAreFound(env: Env, w: World, cs: seq<Child>, k: nat)
    requires Sane(w) && NobodyDies(env) && DistinctPids(cs) && k < |cs| && cs[k].pid in w.alive
    ensures k in Found(env, w, cs)
  {
    var n := |cs| - 1;
    if k < n {
      AllLivingAreFound(env, w, cs[..n], k);
    } else {
      OthersStayAlive(env, w, cs[..n], cs[n].pid);
    }
  }

  lemma {:induction false} OthersStayAlive(env: Env, w: World, cs: seq<Child>, pid: Pid)
    requires NobodyDies(env) && pid in w.alive && forall i :: 0 <= i < |cs| ==> cs[i].pid != pid
    ensures pid in StopAll(env, w, cs).w.alive
  {
    if cs != [] {
      OthersStayAlive(env, w, cs[..|cs| - 1], pid);
      TerminateSpares(env, StopAll(env, w, cs[..|cs| - 1]).w, cs[|cs| - 1]);
    }
  }

  /** What stopping does to the list itself. */
  function Remaining(cs: seq<Child>): seq<Child> {
    if cs == [] then []
    else
      Remaining(cs[..|cs| - 1])
      + if cs[|cs| - 1].restart != Temporary then [cs[|cs| - 1].(terminated := true)] else []
  }

  lemma {:induction false} StopLeaves(env: Env, w: World, cs: seq<Child>)
    ensures StopAll(env, w, cs).children == Remaining(cs)
  {
    if cs != [] {
      StopLeaves(env, w, cs[..|cs| - 1]);
    }
  }

  lemma {:induction false} RemainingReverse(cs: seq<Child>)
    ensures Remaining(Reverse(cs)) == Reverse(Remaining(cs))
  {
    if cs != [] {
      var n := |cs| - 1;
      RemainingReverse(cs[..n]);
      RemainingAppend([cs[n]], Reverse(cs[..n]));
      ReverseAppend(Remaining(cs[..n]), Remaining([cs[n]]));
      assert [cs[n]][..0] == [];
      assert Remaining([cs[n]]) == if cs[n].restart != Temporary then [cs[n].(terminated := true)] else [];
      ReverseShort(Remaining([cs[n]]));
    }
  }

  lemma ReverseShort<T>(s: seq<T>)
    requires |s| <= 1
    ensures Reverse(s) == s
  {
    if s != [] {
      assert s[..0] == [] && s == [s[0]];
    }
  }

  lemma {:induction false} RemainingAppend(a: seq<Child>, b: seq<Child>)
    ensures Remaining(a + b) == Remaining(a) + Remaining(b)
  {
    if b == [] {
      assert a + b == a;
    } else {
      RemainingAppend(a, b[..|b| - 1]);
      assert (a + b)[..|a + b| - 1] == a + b[..|b| - 1];
    }
  }

  // ---------------------------------------------------------------- starting and rolling back

  ghost predicate AllStartsOk(env: Env) {
    forall n :: env.start(n) == StartOk
  }

  /** The i-th child of `cs`, started with the i-th fresh process number from `first` on. */
  function Renewed(cs: seq<Child>, first: Pid): seq<Child> {
    seq(|cs|, i requires 0 <= i < |cs| => cs[i].(pid := first + i))
  }

  lemma {:induction false} StartUntilOk(env: Env, w: World, cs: seq<Child>)
    requires AllStartsOk(env)
    ensures var r := StartUntil(env, w, cs);
            r.error == None && r.done == Renewed(cs, w.next) && r.w.next == w.next + |cs|
  {
    if cs != [] {
      var n := |cs| - 1;
      StartUntilOk(env, w, cs[..n]);
      assert Renewed(cs, w.next) == Renewed(cs[..n], w.next) + [cs[n].(pid := w.next + n)];
    }
  }

  lemma {:induction false} StartUntilShape(env: Env, w: World, cs: seq<Child>)
    requires Sane(w)
    ensures var r := StartUntil(env, w, cs);
            && Sane(r.w) && r.w.next >= w.next && |r.done| <= |cs| && (r.error == None <==> |r.done| == |cs|)
            && (forall i :: 0 <= i < |r.done| ==> r.done[i].id == cs[i].id && r.done[i].restart == cs[i].restart)
            && (forall p :: p in r.w.alive && p !in w.alive ==> exists i :: 0 <= i < |r.done| && r.done[i].pid == p)
  {
    if cs != [] {
      var n := |cs| - 1;
      StartUntilShape(env, w, cs[..n]);
      var front := StartUntil(env, w, cs[..n]);
      StartSane(env, front.w, cs[n]);
      var r := StartUntil(env, w, cs);
      forall p | p in r.w.alive && p !in w.alive
        ensures exists i :: 0 <= i < |r.done| && r.done[i].pid == p
      {
        if p in front.w.alive {
          var i :| 0 <= i < |front.done| && front.done[i].pid == p;
          assert r.done[i].pid == p;
        } else {
          assert r.done[n].pid == p;
        }
      }
    }
  }

  /** When a start fails, none of the processes started before it is alive on return: all that is left alive was
      alive before and is not in the list. */
  lemma RollbackLeavesNone(env: Env, w: World, cs: seq<Child>)
    requires Sane(w) && StartAll(env, w, cs).error.Some?
    ensures StartAll(env, w, cs).w.alive <= w.alive
    ensures forall i :: 0 <= i < |StartAll(env, w, cs).children| ==>
              StartAll(env, w, cs).children[i].pid !in StartAll(env, w, cs).w.alive
  {
    StartUntilShape(env, w, cs);
    var r := StartUntil(env, w, cs);
    assert |r.done| <= |cs|;
    var now := r.done + cs[|r.done|..];
    StopSane(env, r.w, Reverse(now));
    var v := StopAll(env, r.w, Reverse(now)).w;
    forall i | 0 <= i < |now|
      ensures now[i].pid !in v.alive
    {
      ReverseAt(now, |now| - 1 - i);
      StoppedAreDown(env, r.w, Reverse(now), |now| - 1 - i);
    }
    assert forall i :: 0 <= i < |r.done| ==> r.done[i] == now[i];
  }

  /** Starting others does not revive an old process. */
  lemma {:induction false} OldStaysDead(env: Env, w: World, cs: seq<Child>, pid: Pid)
    requires Sane(w) && pid !in w.alive && pid < w.next
    ensures pid !in StartUntil(env, w, cs).w.alive
  {
    if cs != [] {
      OldStaysDead(env, w, cs[..|cs| - 1], pid);
      StartUntilShape(env, w, cs[..|cs| - 1]);
    }
  }

  /** The children as the rollback goes through them. */
  function RollbackList(env: Env, w: World, cs: seq<Child>): seq<Child>
    requires |StartUntil(env, w, cs).done| <= |cs|
  {
    var done := StartUntil(env, w, cs).done;
    Reverse(done + cs[|done|..])
  }

  /** The rollback sends exits to children that were started, and to no others: last started first, each down before
      the next exit. */
  lemma RollbackOrder(env: Env, w: World, cs: seq<Child>)
    requires Sane(w) && StartAll(env, w, cs).error.Some?
    requires forall i :: 0 <= i < |cs| ==> cs[i].pid !in w.alive && cs[i].pid < w.next
    ensures |StartUntil(env, w, cs).done| <= |cs|
    ensures var r := StartUntil(env, w, cs);
            var back := RollbackList(env, w, cs);
            var who := Found(env, r.w, back);
            && Ascending(who, |back|)
            && StartAll(env, w, cs).w.trace == r.w.trace + Pairs(PidsAt(back, who))
            && forall k :: k in who ==> k >= |cs| - |r.done|
  {
    StartUntilShape(env, w, cs);
    var r := StartUntil(env, w, cs);
    var back := RollbackList(env, w, cs);
    StopTrace(env, r.w, back);
    forall k | k in Found(env, r.w, back)
      ensures k >= |cs| - |r.done|
    {
      FoundWasAlive(env, r.w, back, k);
      RollbackListAt(r.done, cs, k);
      if k < |cs| - |r.done| {
        OldStaysDead(env, w, cs, cs[|cs| - 1 - k].pid);
      }
    }
  }

  lemma RollbackListAt(done: seq<Child>, cs: seq<Child>, k: nat)
    requires |done| <= |cs| && k < |Reverse(done + cs[|done|..])|
    ensures k < |cs|
    ensures k < |cs| - |done| ==> Reverse(done + cs[|done|..])[k] == cs[|cs| - 1 - k]
  {
    var now := done + cs[|done|..];
    if now != [] {
      ReverseAt(now, 0);
      ReverseAt(now, k);
    }
  }
}
