/** The decisions of a supervisor, as functions on its state: `restartChild`, `processChildRestart` and the handlers of
    the dynamic child requests of `erl/supervisor/supervisor.go`. */
module Supervision {
  import opened Types
  import opened Children
  import opened RestartLimit

  datatype Strategy = OneForOne | OneForAll | RestForOne

  datatype Flags = Flags(strategy: Strategy, intensity: int, period: int)

  /** `history` holds the moments of all restarts so far; the supervisor itself keeps a suffix of it. */
  datatype Sup = Sup(w: World, children: seq<Child>, history: seq<int>)

  // ---------------------------------------------------------------- lookups

  /** The first child with an identifier, or the length of the list. */
  function Position(cs: seq<Child>, id: string): (k: nat)
    ensures k <= |cs| && (k < |cs| ==> cs[k].id == id)
    ensures forall i :: 0 <= i < k ==> cs[i].id != id
  {
    PositionFrom(cs, id, 0)
  }

  function PositionFrom(cs: seq<Child>, id: string, from: nat): (k: nat)
    requires from <= |cs|
    ensures from <= k <= |cs| && (k < |cs| ==> cs[k].id == id)
    ensures forall i :: from <= i < k ==> cs[i].id != id
    decreases |cs| - from
  {
    if from == |cs| || cs[from].id == id then from else PositionFrom(cs, id, from + 1)
  }

  /** The first child with a process number, or the length of the list. */
  function PositionOfPid(cs: seq<Child>, pid: Pid): (k: nat)
    ensures k <= |cs| && (k < |cs| ==> cs[k].pid == pid)
    ensures forall i :: 0 <= i < k ==> cs[i].pid != pid
  {
    PositionOfPidFrom(cs, pid, 0)
  }

  function PositionOfPidFrom(cs: seq<Child>, pid: Pid, from: nat): (k: nat)
    requires from <= |cs|
    ensures from <= k <= |cs| && (k < |cs| ==> cs[k].pid == pid)
    ensures forall i :: from <= i < k ==> cs[i].pid != pid
    decreases |cs| - from
  {
    if from == |cs| || cs[from].pid == pid then from else PositionOfPidFrom(cs, pid, from + 1)
  }

  /** `delete`: every child with the identifier leaves the list. */
  function Without(cs: seq<Child>, id: string): seq<Child> {
    if cs == [] then []
    else Without(cs[..|cs| - 1], id) + if cs[|cs| - 1].id != id then [cs[|cs| - 1]] else []
  }

  predicate IsSpace(c: char) {
    || '\t' <= c <= '\r' || c == ' ' || c == '\U{0085}' || c == '\U{00A0}' || c == '\U{1680}'
    || '\U{2000}' <= c <= '\U{200A}' || c == '\U{2028}' || c == '\U{2029}' || c == '\U{202F}' || c == '\U{205F}'
    || c == '\U{3000}'
  }

  /** Nothing is left of the identifier after `strings.TrimSpace`. */
  predicate Blank(id: string) {
    forall i :: 0 <= i < |id| ==> IsSpace(id[i])
  }

  function TrimLeft(s: string): string {
    if s != "" && IsSpace(s[0]) then TrimLeft(s[1..]) else s
  }

  function TrimRight(s: string): string {
    if s != "" && IsSpace(s[|s| - 1]) then TrimRight(s[..|s| - 1]) else s
  }

  /** To be blank is to have nothing left after trimming. */
  lemma {:induction false} BlankIsTrimmed(id: string)
    ensures Blank(id) <==> TrimRight(TrimLeft(id)) == ""
  {
    if id != "" && IsSpace(id[0]) {
      BlankIsTrimmed(id[1..]);
    } else if id != "" {
      TrimRightKeeps(id);
    }
  }

  lemma {:induction false} TrimRightKeeps(s: string)
    requires s != "" && !IsSpace(s[0])
    ensures TrimRight(s) != ""
  {
    if IsSpace(s[|s| - 1]) {
      TrimRightKeeps(s[..|s| - 1]);
    }
  }

  predicate NoBlanks(cs: seq<Child>) {
    forall i :: 0 <= i < |cs| ==> !Blank(cs[i].id)
  }

  predicate DistinctIds(cs: seq<Child>) {
    forall i, j :: 0 <= i < j < |cs| ==> cs[i].id != cs[j].id
  }

  /** What `checkDups` accepts. */
  predicate WellListed(cs: seq<Child>) {
    NoBlanks(cs) && DistinctIds(cs)
  }

  // ---------------------------------------------------------------- a child has exited

  datatype Reaction = Reaction(sup: Sup, error: Option<string>)

  const INTENSITY_EXCEEDED := "supervisor restart intensity exceeded"

  /** Stop all of `cs`, last first, and start again what is left of it, first first. */
  function RestartGroup(env: Env, w: World, cs: seq<Child>): StartedAll {
    var s := StopAll(env, w, Reverse(cs));
    StartAll(env, s.w, Reverse(s.children))
  }

  function RestartOne(env: Env, sup: Sup, c: Child): Reaction {
    var st := StartChild(env, sup.w, c);
    if st.error.Some? then Reaction(sup.(w := st.w), st.error)
    else
      var k := Position(sup.children, c.id);
      Reaction(sup.(w := st.w, children := if k < |sup.children| then sup.children[k := st.child] else sup.children),
               None)
  }

  /** Restart what the strategy says, for the failed child `c`. Errors of a group restart are not looked at. */
  function RestartBy(env: Env, strategy: Strategy, sup: Sup, c: Child): Reaction {
    match strategy
    case OneForOne => RestartOne(env, sup, c)
    case OneForAll =>
      var g := RestartGroup(env, sup.w, sup.children);
      Reaction(sup.(w := g.w, children := g.children), None)
    case RestForOne =>
      var k := Position(sup.children, c.id);
      if k == |sup.children| then Reaction(sup, Some("could not split"))
      else
        var g := RestartGroup(env, sup.w, sup.children[k..]);
        Reaction(sup.(w := g.w, children := sup.children[..k] + g.children), None)
  }

  /** `processChildRestart`: first the limiter, then the strategy. */
  function ProcessRestart(env: Env, flags: Flags, sup: Sup, c: Child, now: int): Reaction {
    var counted := sup.(history := sup.history + [now]);
    if Exceeded(counted.history, WindowStart(now, flags.period), flags.intensity) then
      Reaction(counted, Some(INTENSITY_EXCEEDED))
    else RestartBy(env, flags.strategy, counted, c)
  }

  predicate CleanExit(reason: Reason) {
    reason.Shutdown? || reason == Normal || reason == SupervisorShutdown
  }

  /** `restartChild`, for the exit of the process `pid`. */
  function ChildExited(env: Env, flags: Flags, sup: Sup, pid: Pid, reason: Reason, now: int): Reaction {
    var k := PositionOfPid(sup.children, pid);
    if k == |sup.children| then Reaction(sup, None)
    else
      var c := sup.children[k];
      if c.restart == Temporary || (c.restart == Transient && CleanExit(reason)) then
        Reaction(sup.(children := Without(sup.children, c.id)), None)
      else ProcessRestart(env, flags, sup, c, now)
  }

  /** `Terminate`: everything is stopped, last first. */
  function ShutDown(env: Env, sup: Sup): World {
    StopAll(env, sup.w, Reverse(sup.children)).w
  }

  // ---------------------------------------------------------------- requests

  datatype Request =
    | StartIt(id: string, restart: Restart)
    | TerminateIt(id: string)
    | RestartIt(id: string)
    | DeleteIt(id: string)

  datatype Answer =
    | Fine(pid: Pid)
    | AlreadyStarted(pid: Pid)
    | AlreadyPresent
    | NotFound
    | StillRunning
    | StartFailed(why: string)
    | BadList

  datatype Served = Served(sup: Sup, answer: Answer)

  /** How the handlers decide that a child is running: two flags, and then the process itself. */
  predicate Active(w: World, c: Child) {
    !c.terminated && !c.ignored && c.pid in w.alive
  }

  function NewChild(id: string, restart: Restart): Child {
    Child(id, restart, UNDEFINED, false, false)
  }

  /** `doStartChild`: the new child is started and appended before the list is checked. */
  function DoStart(env: Env, sup: Sup, id: string, restart: Restart): Served {
    var k := Position(sup.children, id);
    if k < |sup.children| then
      Served(sup, if Active(sup.w, sup.children[k]) then AlreadyStarted(sup.children[k].pid) else AlreadyPresent)
    else
      var st := StartChild(env, sup.w, NewChild(id, restart));
      if st.error.Some? then Served(sup.(w := st.w), StartFailed(st.error.value))
      else
        var more := sup.children + [st.child];
        Served(sup.(w := st.w, children := more), if WellListed(more) then Fine(st.child.pid) else BadList)
  }

  /** `doTerminateChild`. */
  function DoTerminate(env: Env, sup: Sup, id: string): Served {
    var k := Position(sup.children, id);
    if k == |sup.children| then Served(sup, NotFound)
    else
      var c := sup.children[k];
      var u := if Active(sup.w, c) then TerminateChild(env, sup.w, c).w else sup.w;
      Served(sup.(w := u, children := sup.children[k := c.(terminated := true, pid := UNDEFINED)]), Fine(UNDEFINED))
  }

  /** `doRestartChild`. */
  function DoRestart(env: Env, sup: Sup, id: string): Served {
    var k := Position(sup.children, id);
    if k == |sup.children| then Served(sup, NotFound)
    else if Active(sup.w, sup.children[k]) then Served(sup, StillRunning)
    else
      var st := StartChild(env, sup.w, sup.children[k].(terminated := false, ignored := false));
      if st.error.Some? then
        Served(sup.(w := st.w, children := sup.children[k := st.child.(terminated := true)]),
               StartFailed(st.error.value))
      else Served(sup.(w := st.w, children := sup.children[k := st.child]), Fine(st.child.pid))
  }

  /** `doDeleteChild`. */
  function DoDelete(sup: Sup, id: string): Served {
    var k := Position(sup.children, id);
    if k == |sup.children| then Served(sup, NotFound)
    else if Active(sup.w, sup.children[k]) then Served(sup, StillRunning)
    else Served(sup.(children := Without(sup.children, id)), Fine(UNDEFINED))
  }

  function Handle(env: Env, sup: Sup, request: Request): Served {
    match request
    case StartIt(id, restart) => DoStart(env, sup, id, restart)
    case TerminateIt(id) => DoTerminate(env, sup, id)
    case RestartIt(id) => DoRestart(env, sup, id)
    case DeleteIt(id) => DoDelete(sup, id)
  }

  /** Between two requests children may have died. */
  function Serve(env: Env, sup: Sup, request: Request): Served {
    Handle(env, sup.(w := Tick(env, sup.w)), request)
  }

  // ---------------------------------------------------------------- a supervisor's life

  /** What a supervisor is asked to deal with, one message at a time. */
  datatype Input = Exit(pid: Pid, reason: Reason, now: int) | Ask(request: Request)

  function React(env: Env, flags: Flags, sup: Sup, input: Input): Reaction {
    match input
    case Exit(pid, reason, now) => ChildExited(env, flags, sup, pid, reason, now)
    case Ask(request) => Reaction(Serve(env, sup, request).sup, None)
  }

  /** The state after a number of messages; after an error everything was stopped, and no more are read. */
  function Live(env: Env, flags: Flags, sup: Sup, inputs: seq<Input>): Reaction {
    if inputs == [] then Reaction(sup, None)
    else
      var before := Live(env, flags, sup, inputs[..|inputs| - 1]);
      if before.error.Some? then before
      else
        var r := React(env, flags, before.sup, inputs[|inputs| - 1]);
        if r.error.Some? then Reaction(r.sup.(w := ShutDown(env, r.sup)), r.error) else r
  }
}
