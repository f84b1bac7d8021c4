/** The two ways in which a monitor request is lost, each shown by a run from the start: swallowed by the slot of a dead
    inbox, and refused between the reading of the status and the enqueuing. */
module RuntimeLostRequests {
  import opened Types
  import opened Inboxes
  import opened Runtime
  import opened RuntimeLocal
  import opened RuntimeLosses
  import opened RuntimeSafety
  import RuntimeEarlyAnswer

  /** Process 2 monitors process 1. */
  const REQUEST: Signal := MonitorSig(0, 2, 1)

  /** A process that is ready to receive and has done nothing yet. */
  function Ready(id: Pid): Proc {
    FreshProc(id, []).(open := true)
  }

  /** Process 2 in a run, once it has its own copy of the request. */
  function Watcher(): Proc {
    Ready(2).(box := Put(Empty(), REQUEST))
  }

  ghost predicate Base(s: Sys) {
    Reachable(s) && WellFormed(s) && |s.procs| == 3 && s.refs == [RefInfo(2, 1, false)] && s.procs[0] == UndefinedProc()
  }

  /** The call has been made. */
  lemma Begun() returns (s: Sys)
    ensures Base(s) && s.lost == [] && s.procs[1] == Ready(1)
    ensures s.procs[2] == Ready(2).(api := [Send(2, REQUEST), Send(1, REQUEST)])
  {
    s := RuntimeEarlyAnswer.Started();
    var call := Local(2, Begin(CallMonitor(2, 1)));
    ReachableNext(s, call);
    s := Apply(s, call);
  }

  lemma OneSend(s: Sys) returns (t: Sys)
    requires Base(s) && s.procs[2].api != []
    ensures t == PerformOp(s, 2, ApiSide) && Reachable(t) && WellFormed(t)
  {
    ReachableNext(s, Perform(2, ApiSide));
    t := Apply(s, Perform(2, ApiSide));
  }

  /** The copy of the request has arrived at process 2. */
  lemma Noted() returns (s: Sys)
    ensures Base(s) && s.lost == [] && s.procs[1] == Ready(1)
    ensures s.procs[2] == Watcher().(api := [Send(1, REQUEST)])
  {
    s := Begun();
    s := OneSend(s);
    assert s.procs[2].api == [Enqueue(2, REQUEST), Send(1, REQUEST)];
    s := OneSend(s);
  }

  /** Process 1 was seen running; the request itself is still to be enqueued. */
  lemma Committed() returns (s: Sys)
    ensures Base(s) && s.lost == [] && s.procs[1] == Ready(1)
    ensures s.procs[2] == Watcher().(api := [Enqueue(1, REQUEST)])
  {
    s := Noted();
    s := OneSend(s);
  }

  /** A process with nothing in its queue exits: its runnable returns, the name is given up, the inbox is read out. */
  lemma Exits(s: Sys) returns (t: Sys)
    requires Base(s) && s.procs[1] == Ready(1).(box := s.procs[1].box)
    requires s.procs[1].box.queue == [] && !s.procs[1].box.closed
    ensures Base(t) && t.lost == s.lost && t.procs[2] == s.procs[2]
    ensures Idle(t.procs[1]) && t.procs[1].Told() && t.procs[1].box == Shut(s.procs[1].box)
  {
    t := Leaves(s);
    ReachableNext(t, Local(1, Release));
    t := Apply(t, Local(1, Release));
    var p := t.procs[1];
    ReachableNext(t, Local(1, Drain([])));
    t := Apply(t, Local(1, Drain([])));
  }

  /** The runnable returns, and the loop sees it. */
  lemma Leaves(s: Sys) returns (t: Sys)
    requires Base(s) && s.procs[1] == Ready(1).(box := s.procs[1].box)
    ensures Base(t) && t.lost == s.lost && t.procs[2] == s.procs[2]
    ensures t.procs[1] == Ready(1).(box := s.procs[1].box, phase := Releasing, runner := Finished(false),
                                    ending := t.procs[1].ending)
  {
    var back := Local(1, Return(NilErr, false));
    ReachableNext(s, back);
    t := Apply(s, back);
    ReachableNext(t, Local(1, SeeDone));
    t := Apply(t, Local(1, SeeDone));
  }

  /** Process 2 handles its copy of the request. */
  lemma CatchesUp(s: Sys) returns (t: Sys)
    requires Base(s) && s.procs[2] == Watcher()
    ensures Base(t) && t.lost == s.lost && t.procs[1] == s.procs[1]
    ensures Idle(t.procs[2]) && t.procs[2].Running() && t.procs[2].mail == Empty()
    ensures t.procs[2].box.accepted == [REQUEST]
  {
    ReachableNext(s, Local(2, Feed));
    t := Apply(s, Local(2, Feed));
    ReachableNext(t, Local(2, Handle));
    t := Apply(t, Local(2, Handle));
  }

  /** The request sits in the slot of the feeding goroutine when process 1 exits: everything has settled, process 2 took
      nothing back, and it will never be told. */
  lemma SwallowedRequest() returns (s: Sys)
    ensures Reachable(s) && |s.procs| == 3 && Quiescent(s) && Faithful(s, 0) && s.procs[1].Told()
    ensures StuckInSlot(s, 0) && !Refused(s, 0) && !HasDown(s, 0)
  {
    s := Committed();
    s := OneSend(s);
    assert s.procs[1] == Ready(1).(box := Put(Empty(), REQUEST));
    ReachableNext(s, Local(1, Feed));
    s := Apply(s, Local(1, Feed));
    s := Exits(s);
    s := CatchesUp(s);
  }

  /** Process 1 has closed its inbox by the time the request is enqueued. */
  lemma RefusedRequest() returns (s: Sys)
    ensures Reachable(s) && |s.procs| == 3 && Quiescent(s) && Faithful(s, 0) && s.procs[1].Told()
    ensures Refused(s, 0) && !StuckInSlot(s, 0) && !HasDown(s, 0)
  {
    s := Committed();
    s := Exits(s);
    var before := s;
    s := OneSend(s);
    assert s.lost == [LostSignal(1, REQUEST)];
    assert s.procs[1] == before.procs[1];
    s := CatchesUp(s);
    assert LostSignal(1, REQUEST) in s.lost;
  }

  // ---------------------------------------------------------------- a link

  /** Process 2 has called `Link` for process 1, and its own signal has arrived. */
  lemma HalfLinked() returns (s: Sys)
    ensures Reachable(s) && WellFormed(s) && |s.procs| == 3 && s.procs[0] == UndefinedProc() && s.procs[1] == Ready(1)
    ensures s.procs[2] == Ready(2).(box := Put(Empty(), LinkSig(1)), api := [Send(1, LinkSig(2))])
  {
    s := RuntimeEarlyAnswer.Started();
    var call := Local(2, Begin(CallLink(2, 1)));
    ReachableNext(s, call);
    s := Apply(s, call);
    ReachableNext(s, Perform(2, ApiSide));
    s := Apply(s, Perform(2, ApiSide));
    assert s.procs[2].api == [Enqueue(2, LinkSig(1)), Send(1, LinkSig(2))];
    ReachableNext(s, Perform(2, ApiSide));
    s := Apply(s, Perform(2, ApiSide));
  }

  /** And so has the other one, which the feeding goroutine of process 1 holds. */
  lemma Offered() returns (s: Sys)
    ensures Reachable(s) && WellFormed(s) && |s.procs| == 3
    ensures s.procs[1] == Ready(1).(box := Advance(Put(Empty(), LinkSig(2))))
    ensures s.procs[2] == Ready(2).(box := Put(Empty(), LinkSig(1)))
  {
    s := HalfLinked();
    ReachableNext(s, Perform(2, ApiSide));
    s := Apply(s, Perform(2, ApiSide));
    assert s.procs[2].api == [Enqueue(1, LinkSig(2))];
    ReachableNext(s, Perform(2, ApiSide));
    s := Apply(s, Perform(2, ApiSide));
    assert s.procs[1] == Ready(1).(box := Put(Empty(), LinkSig(2)));
    ReachableNext(s, Local(1, Feed));
    s := Apply(s, Local(1, Feed));
  }

  /** Process 1 then fails. */
  lemma Fails(s: Sys) returns (t: Sys)
    requires Reachable(s) && WellFormed(s) && |s.procs| == 3
    requires s.procs[1] == Ready(1).(box := Advance(Put(Empty(), LinkSig(2))))
    ensures Reachable(t) && WellFormed(t) && |t.procs| == 3 && t.procs[2] == s.procs[2]
    ensures t.procs[1] == Ready(1).(box := s.procs[1].box, phase := Releasing, runner := Finished(false),
                                    ending := t.procs[1].ending)
    ensures t.procs[1].ending.reason == Some(Exception("boom"))
  {
    var back := Local(1, Return(PlainErr("boom"), false));
    ReachableNext(s, back);
    t := Apply(s, back);
    ReachableNext(t, Local(1, SeeDone));
    t := Apply(t, Local(1, SeeDone));
  }

  /** And reads out its inbox, in which nothing is queued. */
  lemma ReadsOut(s: Sys) returns (t: Sys)
    requires Reachable(s) && WellFormed(s) && |s.procs| == 3 && s.procs[1].ending.reason == Some(Exception("boom"))
    requires s.procs[1] == Ready(1).(box := Advance(Put(Empty(), LinkSig(2))), phase := Releasing,
                                     runner := Finished(false), ending := s.procs[1].ending)
    ensures Reachable(t) && WellFormed(t) && |t.procs| == 3 && t.procs[2] == s.procs[2]
    ensures t.procs[1].Told() && t.procs[1].out == [] && t.procs[1].ending.lastLinks == []
    ensures LinkSig(2) in t.procs[1].box.accepted && ExitReason(t.procs[1]) == Exception("boom")
  {
    ReachableNext(s, Local(1, Release));
    t := Apply(s, Local(1, Release));
    ReachableNext(t, Local(1, Drain([])));
    t := Apply(t, Local(1, Drain([])));
  }

  /** A link can be lost in the same way: process 1 has accepted the link signal and failed, and has nobody to tell,
      while process 2 has the link on its side and runs on. */
  lemma SwallowedLink() returns (s: Sys)
    ensures Reachable(s) && |s.procs| == 3 && s.procs[1].Told() && s.procs[1].out == []
    ensures LinkSig(2) in s.procs[1].box.accepted && ExitReason(s.procs[1]) == Exception("boom")
    ensures s.procs[1].ending.lastLinks == []
    ensures IsRunning(s, 2) && s.procs[2].book.links == [1] && s.procs[2].box.queue == [] && s.procs[2].box.slot == []
    ensures s.procs[2].mail == Empty()
  {
    s := Offered();
    s := Fails(s);
    s := ReadsOut(s);
    ReachableNext(s, Local(2, Feed));
    s := Apply(s, Local(2, Feed));
    ReachableNext(s, Local(2, Handle));
    s := Apply(s, Local(2, Handle));
  }
}
