/** The registry protocol under every interleaving: `Register`, `Unregister` and `exit`, cut at the code's own lock
    sections. `registrationMutex` is explicit; the short sections of `statusMutex` and `nameMutex` are single steps. */
module RegistryRace {
  import opened Types
  import opened RegistryObject

  /** A goroutine in the middle of one of the operations. */
  datatype Thread =
    | RegWait(name: string, pid: Pid)
    | RegLocked(name: string, pid: Pid)
    | RegChecked(name: string, pid: Pid)
    | RegNamed(name: string, pid: Pid)
    | UnregWait(name: string)
    | UnregLocked(name: string)
    | UnregDeleted(name: string, owner: Pid)
    | ExitStart(pid: Pid)
    | ExitStatusSet(pid: Pid)
    | ExitSawName(pid: Pid)
    | ExitWait(pid: Pid, name: string)
    | ExitLocked(pid: Pid, name: string)
    | ExitDeleted(pid: Pid, name: string, owner: Pid)
    | ExitPassed(pid: Pid)
    | Refused(error: ErrorKind)
    | Finished

  datatype Cell = Cell(running: bool, name: string)

  /** `lock` is the thread that holds `registrationMutex`. Position 0 of `cells` is the undefined process. */
  datatype State = State(cells: seq<Cell>, names: map<string, Pid>, lock: Option<nat>, threads: seq<Thread>)

  datatype Action =
    | NewProcess
    | NewThread(t: Thread)
    | Run(i: nat)

  predicate IsFresh(t: Thread) {
    t.RegWait? || t.UnregWait? || t.ExitStart?
  }

  predicate Holds(t: Thread) {
    t.RegLocked? || t.RegChecked? || t.RegNamed? || t.UnregLocked? || t.UnregDeleted? || t.ExitLocked? || t.ExitDeleted?
  }

  predicate Waits(t: Thread) {
    t.RegWait? || t.UnregWait? || t.ExitWait?
  }

  predicate Over(t: Thread) {
    t.Refused? || t.Finished? || t.ExitPassed?
  }

  predicate ThreadKnows(t: Thread, n: nat) {
    match t
    case RegWait(_, pid) => pid < n
    case RegLocked(_, pid) => pid < n
    case RegChecked(_, pid) => 0 < pid < n
    case RegNamed(_, pid) => 0 < pid < n
    case UnregDeleted(_, owner) => 0 < owner < n
    case ExitStart(pid) => 0 < pid < n
    case ExitStatusSet(pid) => 0 < pid < n
    case ExitSawName(pid) => 0 < pid < n
    case ExitWait(pid, _) => 0 < pid < n
    case ExitLocked(pid, _) => 0 < pid < n
    case ExitDeleted(pid, _, owner) => 0 < pid < n && 0 < owner < n
    case ExitPassed(pid) => 0 < pid < n
    case _ => true
  }

  predicate Enabled(s: State, a: Action) {
    match a
    case NewProcess => true
    case NewThread(t) => IsFresh(t) && ThreadKnows(t, |s.cells|)
    case Run(i) => i < |s.threads| && !Over(s.threads[i]) && (Waits(s.threads[i]) ==> s.lock == None)
  }

  function Named(cells: seq<Cell>, pid: Pid, name: string): seq<Cell>
    requires pid < |cells|
  {
    cells[pid := cells[pid].(name := name)]
  }

  /** Where the next section of a thread leads it. */
  function NextPoint(s: State, t: Thread): Thread
    requires ThreadKnows(t, |s.cells|)
  {
    match t
    case RegWait(name, pid) => RegLocked(name, pid)
    case RegLocked(name, pid) =>
      if IsBadName(name) then Refused(BadName)
      else if pid == UNDEFINED then Refused(NoProcess)
      else if name in s.names then Refused(NameInUse)
      else RegChecked(name, pid)
    case RegChecked(name, pid) =>
      if !s.cells[pid].running then Refused(NoProcess)
      else if s.cells[pid].name != "" then Refused(AlreadyRegistered)
      else RegNamed(name, pid)
    case RegNamed(_, _) => Finished
    case UnregWait(name) => UnregLocked(name)
    case UnregLocked(name) => if name in s.names then UnregDeleted(name, s.names[name]) else Finished
    case UnregDeleted(_, _) => Finished
    case ExitStart(pid) => ExitStatusSet(pid)
    case ExitStatusSet(pid) => if s.cells[pid].name == "" then ExitPassed(pid) else ExitSawName(pid)
    case ExitSawName(pid) => ExitWait(pid, s.cells[pid].name)
    case ExitWait(pid, name) => ExitLocked(pid, name)
    case ExitLocked(pid, name) =>
      if name in s.names then ExitDeleted(pid, name, s.names[name]) else ExitPassed(pid)
    case ExitDeleted(pid, _, _) => ExitPassed(pid)
    case _ => t
  }

  /** What that section does to the processes. */
  function NextCells(s: State, t: Thread): seq<Cell>
    requires ThreadKnows(t, |s.cells|)
  {
    match t
    case RegChecked(name, pid) => if s.cells[pid] == Cell(true, "") then Named(s.cells, pid, name) else s.cells
    case UnregDeleted(_, owner) => Named(s.cells, owner, "")
    case ExitStart(pid) => s.cells[pid := s.cells[pid].(running := false)]
    case ExitDeleted(_, _, owner) => Named(s.cells, owner, "")
    case _ => s.cells
  }

  /** What it does to the map. */
  function NextNames(s: State, t: Thread): map<string, Pid> {
    match t
    case RegNamed(name, pid) => s.names[name := pid]
    case UnregLocked(name) => s.names - {name}
    case ExitLocked(_, name) => s.names - {name}
    case _ => s.names
  }

  /** The next section of thread `i`; the lock is taken on leaving a waiting point and given up on leaving the last
      point that holds it. */
  function RunThread(s: State, i: nat): State
    requires i < |s.threads| && ThreadKnows(s.threads[i], |s.cells|)
  {
    var t := s.threads[i];
    var u := NextPoint(s, t);
    State(NextCells(s, t), NextNames(s, t),
          if Waits(t) then Some(i) else if Holds(t) && !Holds(u) then None else s.lock,
          s.threads[i := u])
  }

  // ---------------------------------------------------------------- the invariant

  /** The one thread that may be between changing the map and changing the process. */
  predicate Between(t: Thread, p: Pid, name: string) {
    match t
    case RegNamed(n, pid) => pid == p && n == name
    case UnregDeleted(n, owner) => owner == p && n == name
    case ExitDeleted(_, n, owner) => owner == p && n == name
    case _ => false
  }

  ghost predicate LockOk(s: State) {
    && (forall i :: 0 <= i < |s.threads| ==> (Holds(s.threads[i]) <==> s.lock == Some(i)))
    && (s.lock.Some? ==> s.lock.value < |s.threads|)
  }

  ghost predicate MapOk(s: State) {
    && |s.cells| > 0 && s.cells[0] == Cell(false, "")
    && (forall n :: n in s.names ==>
          0 < s.names[n] < |s.cells| && s.cells[s.names[n]].name == n && !IsBadName(n))
    && (forall p :: 0 <= p < |s.cells| ==> Listed(s, p))
  }

  /** A name that a process carries is in the map, except in the middle of a change. */
  ghost predicate Listed(s: State, p: Pid)
    requires p < |s.cells|
  {
    s.cells[p].name != "" ==>
      || (s.cells[p].name in s.names && s.names[s.cells[p].name] == p)
      || (s.lock.Some? && s.lock.value < |s.threads| && Between(s.threads[s.lock.value], p, s.cells[p].name))
  }

  /** What the program counters promise. */
  ghost predicate ThreadOk(s: State, t: Thread)
    requires ThreadKnows(t, |s.cells|)
  {
    match t
    case RegChecked(name, _) => !IsBadName(name) && name !in s.names
    case RegNamed(name, pid) => !IsBadName(name) && name !in s.names && s.cells[pid].name == name
    case UnregDeleted(name, owner) => s.cells[owner].name == name && name !in s.names
    case ExitStatusSet(pid) => !s.cells[pid].running
    case ExitSawName(pid) => !s.cells[pid].running
    case ExitWait(pid, name) => !s.cells[pid].running && s.cells[pid].name in {"", name}
    case ExitLocked(pid, name) => !s.cells[pid].running && s.cells[pid].name in {"", name}
    case ExitDeleted(pid, name, owner) =>
      && s.cells[owner].name == name && name !in s.names
      && !s.cells[pid].running && (owner == pid || s.cells[pid].name == "")
    case ExitPassed(pid) => !s.cells[pid].running && s.cells[pid].name == ""
    case _ => true
  }

  ghost predicate AllThreadsOk(s: State) {
    forall i :: 0 <= i < |s.threads| ==>
      ThreadKnows(s.threads[i], |s.cells|) && ThreadOk(s, s.threads[i])
  }

  ghost predicate Inv(s: State) {
    LockOk(s) && MapOk(s) && AllThreadsOk(s)
  }

  function Start(): State {
    State([Cell(false, "")], map[], None, [])
  }

  /** Every process that is named anywhere exists. */
  predicate WellFormed(s: State) {
    && (forall n :: n in s.names ==> 0 < s.names[n] < |s.cells|)
    && (forall i :: 0 <= i < |s.threads| ==> ThreadKnows(s.threads[i], |s.cells|))
  }

  function Apply(s: State, a: Action): State
    requires WellFormed(s) && Enabled(s, a)
  {
    match a
    case NewProcess => s.(cells := s.cells + [Cell(true, "")])
    case NewThread(t) => s.(threads := s.threads + [t])
    case Run(i) => RunThread(s, i)
  }

  // ---------------------------------------------------------------- steps keep it

  lemma LockStep(s: State, i: nat)
    requires Inv(s) && Enabled(s, Run(i))
    ensures LockOk(RunThread(s, i))
  {
  }

  lemma ListedStep(s: State, i: nat, p: Pid)
    requires Inv(s) && Enabled(s, Run(i)) && p < |s.cells|
    ensures Listed(RunThread(s, i), p)
  {
    assert Listed(s, p) && ThreadOk(s, s.threads[i]);
    assert Holds(s.threads[i]) <==> s.lock == Some(i);
    if s.lock.Some? && s.lock.value != i {
      assert !Waits(s.threads[i]) && !Holds(s.threads[i]);
    }
  }

  lemma NamesStep(s: State, i: nat)
    requires Inv(s) && Enabled(s, Run(i))
    ensures var t := RunThread(s, i);
            && |t.cells| == |s.cells| && t.cells[0] == Cell(false, "")
            && forall n :: n in t.names ==>
                 0 < t.names[n] < |t.cells| && t.cells[t.names[n]].name == n && !IsBadName(n)
  {
    assert ThreadOk(s, s.threads[i]);
  }

  lemma MapStep(s: State, i: nat)
    requires Inv(s) && Enabled(s, Run(i))
    ensures MapOk(RunThread(s, i))
  {
    NamesStep(s, i);
    forall p | 0 <= p < |s.cells|
      ensures Listed(RunThread(s, i), p)
    {
      ListedStep(s, i, p);
    }
  }

  /** A section of one thread leaves the promises of the others alone. */
  lemma OthersStep(s: State, i: nat, j: nat)
    requires Inv(s) && Enabled(s, Run(i)) && j < |s.threads| && j != i
    ensures ThreadOk(RunThread(s, i), s.threads[j])
  {
    assert Holds(s.threads[j]) ==> s.lock == Some(j);
    assert Holds(s.threads[i]) ==> s.lock == Some(i);
    assert ThreadOk(s, s.threads[i]) && ThreadOk(s, s.threads[j]);
  }

  lemma NextKnows(s: State, t: Thread)
    requires ThreadKnows(t, |s.cells|) && forall n :: n in s.names ==> 0 < s.names[n] < |s.cells|
    ensures ThreadKnows(NextPoint(s, t), |s.cells|) && |NextCells(s, t)| == |s.cells|
  {
  }

  lemma SelfStep(s: State, i: nat)
    requires Inv(s) && Enabled(s, Run(i))
    ensures ThreadKnows(NextPoint(s, s.threads[i]), |s.cells|) && |NextCells(s, s.threads[i])| == |s.cells|
    ensures ThreadOk(RunThread(s, i), RunThread(s, i).threads[i])
  {
    var t := s.threads[i];
    NextKnows(s, t);
    assert ThreadOk(s, t);
    if t.ExitLocked? {
      assert Listed(s, t.pid);
    }
  }

  lemma RunStep(s: State, i: nat)
    requires Inv(s) && Enabled(s, Run(i))
    ensures Inv(RunThread(s, i))
  {
    LockStep(s, i);
    MapStep(s, i);
    var t := RunThread(s, i);
    forall j | 0 <= j < |t.threads|
      ensures ThreadKnows(t.threads[j], |t.cells|) && ThreadOk(t, t.threads[j])
    {
      NextKnows(s, s.threads[i]);
      if j == i {
        SelfStep(s, i);
      } else {
        OthersStep(s, i, j);
      }
    }
  }

  lemma NewProcessStep(s: State)
    requires Inv(s)
    ensures Inv(s.(cells := s.cells + [Cell(true, "")]))
  {
    var t := s.(cells := s.cells + [Cell(true, "")]);
    forall p | 0 <= p < |t.cells|
      ensures Listed(t, p)
    {
      assert p < |s.cells| ==> Listed(s, p);
    }
  }

  lemma NewThreadStep(s: State, t: Thread)
    requires Inv(s) && IsFresh(t) && ThreadKnows(t, |s.cells|)
    ensures Inv(s.(threads := s.threads + [t]))
  {
    var u := s.(threads := s.threads + [t]);
    forall p | 0 <= p < |u.cells|
      ensures Listed(u, p)
    {
      assert Listed(s, p);
    }
  }

  lemma InvStep(s: State, a: Action)
    requires Inv(s) && Enabled(s, a)
    ensures Inv(Apply(s, a))
  {
    match a
    case NewProcess => NewProcessStep(s);
    case NewThread(t) => NewThreadStep(s, t);
    case Run(i) => RunStep(s, i);
  }

  // ---------------------------------------------------------------- every run

  /** The state after a sequence of actions, if each of them was possible. */
  function Exec(s: State, actions: seq<Action>): Option<State>
    decreases |actions|
  {
    if actions == [] then Some(s)
    else if WellFormed(s) && Enabled(s, actions[0]) then Exec(Apply(s, actions[0]), actions[1..])
    else None
  }

  lemma {:induction false} ExecInv(s: State, actions: seq<Action>)
    requires Inv(s) && Exec(s, actions).Some?
    ensures Inv(Exec(s, actions).value)
    decreases |actions|
  {
    if actions != [] {
      InvStep(s, actions[0]);
      ExecInv(Apply(s, actions[0]), actions[1..]);
    }
  }

  /** Whenever the registration lock is free, the map and the processes agree exactly: no process has two names, no
      name two processes, and no name is left over. */
  lemma FreeLockAgreement(actions: seq<Action>, n: string, p: Pid)
    requires Exec(Start(), actions).Some?
    requires var s := Exec(Start(), actions).value; s.lock == None && n != "" && p < |s.cells|
    ensures var s := Exec(Start(), actions).value;
            (n in s.names && s.names[n] == p) <==> s.cells[p].name == n
  {
    ExecInv(Start(), actions);
    assert Listed(Exec(Start(), actions).value, p);
  }

  /** A process that is past the unregister step of `exit` stays so. */
  lemma {:induction false} PassedStays(s: State, actions: seq<Action>, i: nat)
    requires Exec(s, actions).Some? && i < |s.threads| && s.threads[i].ExitPassed?
    ensures var t := Exec(s, actions).value; i < |t.threads| && t.threads[i] == s.threads[i]
    decreases |actions|
  {
    if actions != [] {
      PassedStep(s, actions[0], i);
      PassedStays(Apply(s, actions[0]), actions[1..], i);
    }
  }

  lemma PassedStep(s: State, a: Action, i: nat)
    requires WellFormed(s) && Enabled(s, a) && i < |s.threads| && s.threads[i].ExitPassed?
    ensures var t := Apply(s, a); i < |t.threads| && t.threads[i] == s.threads[i]
  {
  }

  /** Once past that step, the process is in the registry in no later state, whoever runs in between. */
  lemma NeverListedAgain(before: seq<Action>, after: seq<Action>, i: nat, n: string)
    requires Exec(Start(), before).Some?
    requires var s := Exec(Start(), before).value;
             Exec(s, after).Some? && i < |s.threads| && s.threads[i].ExitPassed?
    ensures var s := Exec(Start(), before).value;
            var t := Exec(s, after).value;
            n in t.names ==> t.names[n] != s.threads[i].pid
  {
    var s := Exec(Start(), before).value;
    ExecInv(Start(), before);
    ExecInv(s, after);
    PassedStays(s, after, i);
    assert ThreadOk(Exec(s, after).value, s.threads[i]);
  }

  /** `Register` succeeds only for a nameless process and a free name, which is then listed; the process may have
      begun to exit meanwhile, but then it has not yet passed the step that takes the name away again. */
  lemma RegisterSucceeds(s: State, i: nat)
    requires Inv(s) && i < |s.threads| && s.threads[i].RegNamed?
    ensures var t := RunThread(s, i);
            var name, pid := s.threads[i].name, s.threads[i].pid;
            && t.names == s.names[name := pid] && name !in s.names && t.cells[pid].name == name && t.lock == None
            && forall j :: 0 <= j < |t.threads| ==> t.threads[j] != ExitPassed(pid)
  {
    assert ThreadOk(s, s.threads[i]);
    forall j | 0 <= j < |s.threads| && j != i
      ensures s.threads[j] != ExitPassed(s.threads[i].pid)
    {
      assert ThreadOk(s, s.threads[j]);
    }
  }

  /** `Unregister` of a name that is listed takes it out of the map in one section and from the process that had it in
      the next, and then gives up the lock; whatever other threads do between the two, nobody else holds the lock. */
  lemma UnregisterSucceeds(s: State, i: nat)
    requires Inv(s) && i < |s.threads|
    ensures s.threads[i].UnregLocked? && s.threads[i].name in s.names ==>
              var name := s.threads[i].name;
              var t := RunThread(s, i);
              t.threads[i] == UnregDeleted(name, s.names[name]) && name !in t.names && t.lock == Some(i)
    ensures s.threads[i].UnregDeleted? ==>
              var name, owner := s.threads[i].name, s.threads[i].owner;
              var t := RunThread(s, i);
              && s.cells[owner].name == name && name !in s.names && s.lock == Some(i)
              && t.cells == s.cells[owner := s.cells[owner].(name := "")] && t.lock == None
  {
    assert ThreadOk(s, s.threads[i]);
  }

  // ---------------------------------------------------------------- a name taken from somebody else

  /** `exit` deletes the name that it read, whoever has it by then. It is its own exactly when the process still
      carries it at the moment the lock is taken. */
  lemma ExitDeletesOwnName(s: State, i: nat)
    requires Inv(s) && i < |s.threads| && s.threads[i].ExitLocked? && s.threads[i].name in s.names
    ensures var pid, name := s.threads[i].pid, s.threads[i].name;
            s.names[name] == pid <==> s.cells[pid].name == name
  {
    assert ThreadOk(s, s.threads[i]) && Listed(s, s.threads[i].pid);
  }

  /** One more action. */
  lemma {:induction false} ExecNext(s: State, actions: seq<Action>, a: Action)
    requires Exec(s, actions).Some? && WellFormed(Exec(s, actions).value) && Enabled(Exec(s, actions).value, a)
    ensures Exec(s, actions + [a]) == Some(Apply(Exec(s, actions).value, a))
    decreases |actions|
  {
    if actions != [] {
      assert (actions + [a])[1..] == actions[1..] + [a];
      ExecNext(Apply(s, actions[0]), actions[1..], a);
    }
  }

  ghost predicate Reached(s: State) {
    exists actions :: Exec(Start(), actions) == Some(s)
  }

  lemma Next(s: State, a: Action) returns (t: State)
    requires Reached(s) && WellFormed(s) && Enabled(s, a)
    ensures Reached(t) && t == Apply(s, a)
  {
    var actions :| Exec(Start(), actions) == Some(s);
    ExecNext(Start(), actions, a);
    t := Apply(s, a);
  }

  /** A `Register` of a free name for a running nameless process, run without a break. */
  lemma RegisterAlone(s: State, name: string, pid: Pid) returns (t: State)
    requires Reached(s) && WellFormed(s) && s.lock == None && 0 < pid < |s.cells|
    requires !IsBadName(name) && name !in s.names && s.cells[pid] == Cell(true, "")
    ensures Reached(t) && WellFormed(t)
    ensures t == State(s.cells[pid := Cell(true, name)], s.names[name := pid], None, s.threads + [Finished])
  {
    var i := |s.threads|;
    t := RegisterToCheck(s, name, pid);
    t := Next(t, Run(i));
    t := Next(t, Run(i));
    assert t.threads == s.threads + [Finished];
  }

  lemma RegisterToCheck(s: State, name: string, pid: Pid) returns (t: State)
    requires Reached(s) && WellFormed(s) && s.lock == None && 0 < pid < |s.cells|
    requires !IsBadName(name) && name !in s.names
    ensures Reached(t) && WellFormed(t)
    ensures t == s.(lock := Some(|s.threads|), threads := s.threads + [RegChecked(name, pid)])
  {
    var i := |s.threads|;
    t := Next(s, NewThread(RegWait(name, pid)));
    t := Next(t, Run(i));
    t := Next(t, Run(i));
    assert t.threads == s.threads + [RegChecked(name, pid)];
  }

  /** An `Unregister` of a registered name, run without a break. */
  lemma UnregisterAlone(s: State, name: string) returns (t: State)
    requires Reached(s) && WellFormed(s) && s.lock == None && name in s.names
    ensures Reached(t) && WellFormed(t)
    ensures var p := s.names[name];
            t == State(s.cells[p := s.cells[p].(name := "")], s.names - {name}, None, s.threads + [Finished])
  {
    var i := |s.threads|;
    t := Next(s, NewThread(UnregWait(name)));
    t := Next(t, Run(i));
    assert t.threads == s.threads + [UnregLocked(name)];
    t := Next(t, Run(i));
    assert t.threads == s.threads + [UnregDeleted(name, s.names[name])];
    t := Next(t, Run(i));
    assert t.threads == s.threads + [Finished];
  }

  /** `exit` of a registered process up to the point where it wants the lock. */
  lemma ExitAsFarAsLock(s: State, pid: Pid) returns (t: State)
    requires Reached(s) && WellFormed(s) && 0 < pid < |s.cells| && s.cells[pid].name != ""
    ensures Reached(t) && WellFormed(t)
    ensures t == s.(cells := s.cells[pid := s.cells[pid].(running := false)],
                    threads := s.threads + [ExitWait(pid, s.cells[pid].name)])
  {
    var i := |s.threads|;
    t := ExitToStatus(s, pid);
    t := Next(t, Run(i));
    t := Next(t, Run(i));
    assert t.threads == s.threads + [ExitWait(pid, s.cells[pid].name)];
  }

  lemma ExitToStatus(s: State, pid: Pid) returns (t: State)
    requires Reached(s) && WellFormed(s) && 0 < pid < |s.cells|
    ensures Reached(t) && WellFormed(t)
    ensures t == s.(cells := s.cells[pid := s.cells[pid].(running := false)],
                    threads := s.threads + [ExitStatusSet(pid)])
  {
    t := Next(s, NewThread(ExitStart(pid)));
    t := Next(t, Run(|s.threads|));
    assert t.threads == s.threads + [ExitStatusSet(pid)];
  }

  /** The rest of `exit`, when the name that it read is registered. */
  lemma ExitFromLock(s: State, i: nat) returns (t: State)
    requires Reached(s) && WellFormed(s) && s.lock == None && i < |s.threads| && s.threads[i].ExitWait?
    requires s.threads[i].name in s.names
    ensures Reached(t) && t.names == s.names - {s.threads[i].name}
    ensures var owner := s.names[s.threads[i].name];
            t.cells == s.cells[owner := s.cells[owner].(name := "")]
    ensures t.threads == s.threads[i := ExitPassed(s.threads[i].pid)]
  {
    t := Next(s, Run(i));
    t := Next(t, Run(i));
    t := Next(t, Run(i));
  }

  /** A run in which `exit` takes a name from somebody else: between reading its name and taking the lock, the name is
      unregistered and given to another process, which is running and does nothing wrong. */
  lemma ExitTakesAnothersName() returns (s: State, t: State)
    ensures Reached(s) && Reached(t)
    ensures |s.cells| == |t.cells| == 3 && |s.threads| == |t.threads| == 4
    ensures s.names == map["a" := 2] && s.cells[2] == Cell(true, "a") && s.threads[1] == ExitWait(1, "a")
    ensures t.names == map[] && t.cells[2] == Cell(true, "") && t.threads[1] == ExitPassed(1)
  {
    s := Start();
    assert Exec(Start(), []) == Some(s);
    s := Next(s, NewProcess);
    s := Next(s, NewProcess);
    s := RegisterAlone(s, "a", 1);
    s := ExitAsFarAsLock(s, 1);
    s := UnregisterAlone(s, "a");
    s := RegisterAlone(s, "a", 2);
    t := ExitFromLock(s, 1);
  }
}
