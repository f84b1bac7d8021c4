/** A run in which a monitor is told NoProc about a process that still holds its name. */
module RuntimeEarlyAnswer {
  import opened Types
  import opened Inboxes
  import opened Runtime
  import opened RuntimeSafety

  /** Two new processes. */
  lemma Spawned() returns (s: Sys)
    ensures Reachable(s) && WellFormed(s) && |s.procs| == 3 && s.refs == [] && s.lost == []
    ensures s.procs[0] == UndefinedProc()
    ensures s.procs[1] == FreshProc(1, [OpenChannel]) && s.procs[2] == FreshProc(2, [OpenChannel])
  {
    s := Init();
    assert Run([], s);
    ReachableNext(s, Spawn);
    s := Apply(s, Spawn);
    ReachableNext(s, Spawn);
    s := Apply(s, Spawn);
  }

  /** Both are ready to receive. */
  lemma Started() returns (s: Sys)
    ensures Reachable(s) && WellFormed(s) && |s.procs| == 3 && s.refs == [] && s.lost == []
    ensures s.procs[0] == UndefinedProc()
    ensures s.procs[1] == FreshProc(1, []).(open := true) && s.procs[2] == FreshProc(2, []).(open := true)
  {
    s := Spawned();
    ReachableNext(s, Perform(1, LoopSide));
    s := Apply(s, Perform(1, LoopSide));
    ReachableNext(s, Perform(2, LoopSide));
    s := Apply(s, Perform(2, LoopSide));
  }

  /** The first of them is registered under a name. */
  lemma Named() returns (s: Sys)
    ensures Reachable(s) && WellFormed(s) && |s.procs| == 3 && s.refs == []
    ensures s.procs[0] == UndefinedProc()
    ensures s.procs[1] == FreshProc(1, []).(open := true, name := "a")
    ensures s.procs[2] == FreshProc(2, []).(open := true)
  {
    s := Started();
    ReachableNext(s, Local(1, Register("a")));
    s := Apply(s, Local(1, Register("a")));
  }

  /** A kill is on its way to it. */
  lemma Threatened() returns (s: Sys)
    ensures Reachable(s) && WellFormed(s) && |s.procs| == 3 && s.refs == []
    ensures s.procs[0] == UndefinedProc().(api := [Enqueue(1, ExitSig(0, 1, Kill, false))])
    ensures s.procs[1] == FreshProc(1, []).(open := true, name := "a")
    ensures s.procs[2] == FreshProc(2, []).(open := true)
  {
    s := Named();
    ReachableNext(s, Local(0, Begin(CallExit(0, 1, Kill))));
    s := Apply(s, Local(0, Begin(CallExit(0, 1, Kill))));
    ReachableNext(s, Perform(0, ApiSide));
    s := Apply(s, Perform(0, ApiSide));
  }

  /** The kill has arrived. */
  lemma Arrived() returns (s: Sys)
    ensures Reachable(s) && WellFormed(s) && |s.procs| == 3 && s.refs == []
    ensures s.procs[1].Running() && s.procs[1].out == [] && s.procs[1].name == "a"
    ensures s.procs[1].box.slot == [ExitSig(0, 1, Kill, false)]
    ensures s.procs[2] == FreshProc(2, []).(open := true)
  {
    s := Threatened();
    ReachableNext(s, Perform(0, ApiSide));
    s := Apply(s, Perform(0, ApiSide));
    ReachableNext(s, Local(1, Feed));
    s := Apply(s, Local(1, Feed));
  }

  /** It begins to exit. */
  lemma Killed() returns (s: Sys)
    ensures Reachable(s) && WellFormed(s) && |s.procs| == 3 && s.refs == []
    ensures s.procs[1].phase == Releasing && s.procs[1].name == "a"
    ensures s.procs[2] == FreshProc(2, []).(open := true)
  {
    s := Arrived();
    ReachableNext(s, Local(1, Handle));
    s := Apply(s, Local(1, Handle));
  }

  /** The other one begins to monitor it. */
  lemma Asked() returns (s: Sys)
    ensures Reachable(s) && WellFormed(s) && |s.procs| == 3
    ensures s.procs[1].phase == Releasing && s.procs[1].name == "a" && s.procs[1].id == 1
    ensures s.procs[2].Running() && s.procs[2].id == 2 && !s.procs[2].box.closed
    ensures s.procs[2].api == [Enqueue(2, MonitorSig(0, 2, 1)), Send(1, MonitorSig(0, 2, 1))]
  {
    s := Killed();
    ReachableNext(s, Local(2, Begin(CallMonitor(2, 1))));
    s := Apply(s, Local(2, Begin(CallMonitor(2, 1))));
    ReachableNext(s, Perform(2, ApiSide));
    s := Apply(s, Perform(2, ApiSide));
  }

  /** Its request has met a process that is no longer running. */
  lemma Answered() returns (s: Sys)
    ensures Reachable(s) && WellFormed(s) && |s.procs| == 3
    ensures s.procs[1].name == "a"
    ensures s.procs[2].Running() && s.procs[2].id == 2
    ensures s.procs[2].api == [Send(2, DownSig(1, 0, NoProc))]
  {
    s := Asked();
    ReachableNext(s, Perform(2, ApiSide));
    s := Apply(s, Perform(2, ApiSide));
    ReachableNext(s, Perform(2, ApiSide));
    s := Apply(s, Perform(2, ApiSide));
  }

  /** The premise "another reason than NoProc, or a monitor made by SpawnMonitor" of the theorems on names cannot be
      dropped: here a down signal about process 1 is on its way while process 1 is registered as "a". */
  lemma AnsweredBeforeRelease() returns (s: Sys)
    ensures Reachable(s) && WellFormed(s) && |s.procs| == 3
    ensures s.procs[1].name == "a"
    ensures s.procs[2].api == [Enqueue(2, DownSig(1, 0, NoProc))]
  {
    s := Answered();
    ReachableNext(s, Perform(2, ApiSide));
    s := Apply(s, Perform(2, ApiSide));
  }
}
