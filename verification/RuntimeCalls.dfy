/** What the calls of the API come to, whatever happens meanwhile: every signal that a call sends is accepted by its
    receiver, or the receiver is no longer running; and then whoever asked for a link or a monitor gets the answer. */
module RuntimeCalls {
  import opened Types
  import opened Inboxes
  import opened Runtime
  import opened RuntimeLocal
  import opened RuntimeFacts
  import opened RuntimeOrder
  import opened RuntimeSafety
  import opened RuntimeOnward

  predicate OwedBy(p: Proc, side: Side, to: Pid, sig: Signal) {
    Send(to, sig) in Program(p, side) || Enqueue(to, sig) in Program(p, side)
  }

  /** Accepted by the receiver, or refused by one that is no longer running. */
  ghost predicate Arrived(s: Sys, to: Pid, sig: Signal) {
    to < |s.procs| && (sig in s.procs[to].box.accepted || (!IsRunning(s, to) && LostSignal(to, sig) in s.lost))
  }

  /** The answer that a process which is no longer running owes, and to whom: that there is no such process. */
  function Answer(to: Pid, sig: Signal): Option<(Pid, Signal)> {
    match sig
    case LinkSig(pid) => Some((pid, ExitSig(to, pid, NoProc, true)))
    case MonitorSig(ref, monitor, _) => Some((monitor, DownSig(to, ref, NoProc)))
    case _ => None
  }

  /** The signal has arrived, or its receiver is no longer running and the answer has arrived. */
  ghost predicate Settled(s: Sys, to: Pid, sig: Signal) {
    || Arrived(s, to, sig)
    || (to < |s.procs| && !IsRunning(s, to) && Answer(to, sig).Some?
        && Arrived(s, Answer(to, sig).value.0, Answer(to, sig).value.1))
  }

  ghost predicate Underway(s: Sys, i: Pid, side: Side, to: Pid, sig: Signal)
    requires i < |s.procs|
  {
    to < |s.procs| && (Arrived(s, to, sig) || OwedBy(s.procs[i], side, to, sig))
  }

  /** The signal, or the answer to it, has arrived or is still to be sent. */
  ghost predicate InHand(s: Sys, i: Pid, side: Side, to: Pid, sig: Signal)
    requires i < |s.procs|
  {
    || Underway(s, i, side, to, sig)
    || (to < |s.procs| && !IsRunning(s, to) && Answer(to, sig).Some?
        && Underway(s, i, side, Answer(to, sig).value.0, Answer(to, sig).value.1))
  }

  // ---------------------------------------------------------------- steps

  lemma ArrivedLater(s: Sys, t: Sys, to: Pid, sig: Signal)
    requires Later(s, t) && s.lost <= t.lost && Arrived(s, to, sig)
    ensures Arrived(t, to, sig)
  {
    assert ProcLater(s.procs[to], t.procs[to]);
    if LostSignal(to, sig) in s.lost {
      var k :| 0 <= k < |s.lost| && s.lost[k] == LostSignal(to, sig);
      assert t.lost[k] == s.lost[k];
    }
  }

  /** The program of one's own goroutine is changed by its own operations only, or when it is empty. */
  lemma ProgramStays(s: Sys, a: Action, i: Pid, side: Side)
    requires AllLocalOk(s) && Enabled(s, a) && i < |s.procs| && a != Perform(i, side)
    requires Program(s.procs[i], side) != []
    ensures i < |Apply(s, a).procs| && Program(Apply(s, a).procs[i], side) == Program(s.procs[i], side)
  {
    match a
    case Perform(j, other) => OtherPerform(s, j, other, i, side);
    case Local(j, step) => OwnProgramStays(s.procs[j], step, s.clock, |s.refs|, side, i);
    case _ =>
  }

  lemma OtherPerform(s: Sys, j: Pid, other: Side, i: Pid, side: Side)
    requires AllLocalOk(s) && i < |s.procs| && j < |s.procs| && Program(s.procs[j], other) != []
    requires j != i || other != side
    ensures i < |PerformOp(s, j, other).procs|
    ensures Program(PerformOp(s, j, other).procs[i], side) == Program(s.procs[i], side)
  {
    PerformShape(s, j, other, i);
  }

  lemma OwnProgramStays(p: Proc, step: Own, clock: nat, ref: Ref, side: Side, i: Pid)
    requires LocalOk(p) && CanOwn(p, step)
    ensures p.id == i && Program(p, side) != [] ==> Program(OwnStep(p, step, clock, ref).p, side) == Program(p, side)
  {
  }

  /** What the first operation of a program leaves of another one. */
  lemma RestStays(p: Proc, side: Side, alive: bool, op: Op)
    requires Program(p, side) != [] && op in Program(p, side) && op != Program(p, side)[0]
    ensures op in Program(Progress(p, side, alive), side)
  {
    var ops := Program(p, side);
    var rest := ops[1..];
    assert op in rest;
    var q := Program(Progress(p, side, alive), side);
    assert exists front: seq<Op> :: q == front + rest by {
      if ops[0].Send? {
        assert q == (if alive then [Enqueue(ops[0].to, ops[0].sig)] else Bounce(ops[0].to, ops[0].sig)) + rest;
      } else {
        assert q == [] + rest;
      }
    }
  }

  lemma OwnerProgram(s: Sys, i: Pid, side: Side)
    requires WellFormed(s) && i < |s.procs| && Program(s.procs[i], side) != []
    ensures i < |PerformOp(s, i, side).procs|
    ensures Program(PerformOp(s, i, side).procs[i], side)
         == Program(Progress(s.procs[i], side, IsRunning(s, Target(Program(s.procs[i], side)[0]))), side)
  {
    PerformShape(s, i, side, i);
  }

  /** An enqueuing succeeds, or is refused by a process that is no longer running. */
  lemma EnqueueArrives(s: Sys, i: Pid, side: Side, to: Pid, sig: Signal)
    requires AllLocalOk(s) && i < |s.procs| && to < |s.procs|
    requires Program(s.procs[i], side) != [] && Program(s.procs[i], side)[0] == Enqueue(to, sig)
    ensures Arrived(PerformOp(s, i, side), to, sig)
  {
    PerformShape(s, i, side, to);
    assert LocalOk(s.procs[to]);
  }

  /** A send reads the status: the signal is to be enqueued, or answered, or lost. */
  lemma SendDecides(s: Sys, i: Pid, side: Side, to: Pid, sig: Signal)
    requires AllLocalOk(s) && i < |s.procs| && to < |s.procs|
    requires Program(s.procs[i], side) != [] && Program(s.procs[i], side)[0] == Send(to, sig)
    requires Answer(to, sig).Some? ==> Answer(to, sig).value.0 < |s.procs|
    ensures i < |PerformOp(s, i, side).procs| && InHand(PerformOp(s, i, side), i, side, to, sig)
  {
    var t := PerformOp(s, i, side);
    OwnerProgram(s, i, side);
    PerformShape(s, i, side, to);
    if IsRunning(s, to) {
      assert Program(t.procs[i], side)[0] == Enqueue(to, sig);
    } else if Answer(to, sig).Some? {
      assert Program(t.procs[i], side)[0] == Send(Answer(to, sig).value.0, Answer(to, sig).value.1);
    } else {
      assert t.lost[|s.lost|] == LostSignal(to, sig);
    }
  }

  lemma UnderwayStep(s: Sys, a: Action, i: Pid, side: Side, to: Pid, sig: Signal)
    requires Safe(s) && Enabled(s, a) && i < |s.procs| && Underway(s, i, side, to, sig)
    ensures i < |Apply(s, a).procs| && InHand(Apply(s, a), i, side, to, sig)
  {
    StepLater(s, a);
    LossStays(s, a);
    if Arrived(s, to, sig) {
      ArrivedLater(s, Apply(s, a), to, sig);
    } else if a != Perform(i, side) {
      ProgramStays(s, a, i, side);
    } else {
      OwedStep(s, i, side, to, sig);
    }
  }

  lemma OwedStep(s: Sys, i: Pid, side: Side, to: Pid, sig: Signal)
    requires Safe(s) && i < |s.procs| && to < |s.procs| && OwedBy(s.procs[i], side, to, sig)
    ensures i < |PerformOp(s, i, side).procs| && InHand(PerformOp(s, i, side), i, side, to, sig)
  {
    var p := s.procs[i];
    var op := Program(p, side)[0];
    OwnerProgram(s, i, side);
    if op == Enqueue(to, sig) {
      EnqueueArrives(s, i, side, to, sig);
    } else if op == Send(to, sig) {
      assert ProcFacts(s, p) && GoodOp(s, i, op);
      SendDecides(s, i, side, to, sig);
    } else {
      OtherStays(p, side, IsRunning(s, Target(op)), to, sig);
    }
  }

  lemma OtherStays(p: Proc, side: Side, alive: bool, to: Pid, sig: Signal)
    requires Program(p, side) != [] && OwedBy(p, side, to, sig)
    requires Program(p, side)[0] != Send(to, sig) && Program(p, side)[0] != Enqueue(to, sig)
    ensures OwedBy(Progress(p, side, alive), side, to, sig)
  {
    if Send(to, sig) in Program(p, side) {
      RestStays(p, side, alive, Send(to, sig));
    } else {
      RestStays(p, side, alive, Enqueue(to, sig));
    }
  }

  /** The answer itself is answered by nobody. */
  lemma InHandStep(s: Sys, a: Action, i: Pid, side: Side, to: Pid, sig: Signal)
    requires Safe(s) && Enabled(s, a) && i < |s.procs| && InHand(s, i, side, to, sig)
    ensures i < |Apply(s, a).procs| && InHand(Apply(s, a), i, side, to, sig)
  {
    if Underway(s, i, side, to, sig) {
      UnderwayStep(s, a, i, side, to, sig);
    } else {
      var answer := Answer(to, sig).value;
      UnderwayStep(s, a, i, side, answer.0, answer.1);
      StaysGone(s, a, to);
    }
  }

  lemma StaysGone(s: Sys, a: Action, to: Pid)
    requires AllLocalOk(s) && Enabled(s, a) && to < |s.procs| && !IsRunning(s, to)
    ensures to < |Apply(s, a).procs| && !IsRunning(Apply(s, a), to)
  {
    StepLater(s, a);
    assert ProcLater(s.procs[to], Apply(s, a).procs[to]);
  }

  lemma {:induction false} OnwardInHand(s: Sys, actions: seq<Action>, t: Sys, i: Pid, side: Side, to: Pid, sig: Signal)
    requires Reachable(s) && Onward(s, actions, t) && i < |s.procs| && InHand(s, i, side, to, sig)
    ensures Reachable(t) && i < |t.procs| && InHand(t, i, side, to, sig)
    decreases |actions|
  {
    if actions != [] {
      var n := |actions| - 1;
      var mid :| Through(s, actions, mid, t);
      OnwardInHand(s, actions[..n], mid, i, side, to, sig);
      ReachableIsSafe(mid);
      ReachableNext(mid, actions[n]);
      InHandStep(mid, actions[n], i, side, to, sig);
    }
  }

  // ---------------------------------------------------------------- the calls

  /** Once a goroutine has nothing left to send, all that it had to send before is settled. */
  lemma SentIsSettled(s: Sys, actions: seq<Action>, t: Sys, i: Pid, side: Side, to: Pid, sig: Signal)
    requires Reachable(s) && Onward(s, actions, t) && i < |s.procs| && OwedBy(s.procs[i], side, to, sig)
    ensures i < |t.procs| && (Program(t.procs[i], side) == [] ==> Settled(t, to, sig))
  {
    ReachableIsSafe(s);
    assert ProcFacts(s, s.procs[i]);
    var op := if Send(to, sig) in Program(s.procs[i], side) then Send(to, sig) else Enqueue(to, sig);
    assert op in Program(s.procs[i], side) && GoodOp(s, i, op);
    OnwardInHand(s, actions, t, i, side, to, sig);
  }

  /** What has to have arrived when a call is over; `ref` is the reference that a monitor call drew. */
  ghost predicate Done(s: Sys, call: Call, ref: Ref) {
    match call
    case CallMonitor(self, pid) =>
      Settled(s, self, MonitorSig(ref, self, pid)) && Settled(s, pid, MonitorSig(ref, self, pid))
    case CallDemonitor(self, target) => Settled(s, self, DemonitorSig(target, self))
    case CallLink(self, pid) => Settled(s, self, LinkSig(pid)) && Settled(s, pid, LinkSig(self))
    case CallUnlink(self, pid) => Settled(s, self, UnlinkSig(pid)) && Settled(s, pid, UnlinkSig(self))
    case CallSend(pid, term) => Settled(s, pid, MessageSig(term))
    case CallExit(self, pid, reason) => Settled(s, pid, ExitSig(self, pid, reason, false))
  }

  /** Every call, in every state, against every interleaving: when the caller is through with it, all its signals have
      arrived, or their receivers are gone and the answers have arrived. */
  lemma CallIsDone(s: Sys, i: Pid, call: Call, actions: seq<Action>, t: Sys)
    requires Reachable(s) && WellFormed(s) && Enabled(s, Local(i, Begin(call)))
    requires Onward(Apply(s, Local(i, Begin(call))), actions, t)
    ensures i < |t.procs| && (t.procs[i].api == [] ==> Done(t, call, |s.refs|))
  {
    var s1 := Apply(s, Local(i, Begin(call)));
    ReachableNext(s, Local(i, Begin(call)));
    var ops := s1.procs[i].api;
    assert ops == CallProgram(call, |s.refs|) && ops[0] in ops && ops[|ops| - 1] in ops;
    SentIsSettled(s1, actions, t, i, ApiSide, ops[0].to, ops[0].sig);
    SentIsSettled(s1, actions, t, i, ApiSide, ops[|ops| - 1].to, ops[|ops| - 1].sig);
  }

  /** A process that is spawned with a link has sent its parent the link signal when its set-up is over. */
  lemma SpawnLinkIsDone(s: Sys, parent: Pid, actions: seq<Action>, t: Sys)
    requires Reachable(s) && WellFormed(s) && parent < |s.procs|
    requires Onward(Apply(s, SpawnLink(parent)), actions, t)
    ensures |s.procs| < |t.procs|
    ensures t.procs[|s.procs|].out == [] ==> Settled(t, parent, LinkSig(|s.procs|))
  {
    var s1 := Apply(s, SpawnLink(parent));
    ReachableNext(s, SpawnLink(parent));
    var n := |s.procs|;
    assert s1.procs[n].out[0] == Send(parent, LinkSig(n));
    SentIsSettled(s1, actions, t, n, LoopSide, parent, LinkSig(n));
  }
}
