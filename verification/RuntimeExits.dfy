/** Why processes die: which exit signals end a process, told from the signals it handled and its trap flag at each of
    them, in both directions; and with which reason a process ends whose runnable has returned. */
module RuntimeExits {
  import opened Types
  import opened Inboxes
  import opened Runtime
  import opened RuntimeLocal
  import opened RuntimeFacts
  import opened RuntimeOrder
  import opened RuntimeLinks
  import opened RuntimeSafety

  /** The exit signal must end the process: a kill that was sent directly does, trapped or not; any other one does if it
      is not trapped, except that the normal exit of another, linked process is ignored. */
  predicate MustEnd(self: Pid, trap: bool, sig: Signal) {
    && sig.ExitSig?
    && (if sig.reason == Kill && !sig.link then true
        else if trap then false
        else if sig.reason == Normal && sig.link && sig.sender != self then false
        else true)
  }

  /** A process that an exit signal has ended: the last signal it handled is this one, and it had to end it. */
  ghost predicate EndedByLaw(p: Proc) {
    (p.ending.cause.Linked? || p.ending.cause.Asked?) && |p.traps| == |p.box.taken| ==>
      && p.box.taken != []
      && var k := |p.box.taken| - 1;
         var sig := p.box.taken[k];
         && MustEnd(p.id, p.traps[k], sig)
         && p.ending.reason == Some(sig.reason)
         && p.ending.cause == (if sig.link then Linked(sig.sender) else Asked(sig.sender))
  }

  ghost predicate AllEndedByLaw(s: Sys) {
    forall i :: 0 <= i < |s.procs| ==> EndedByLaw(s.procs[i])
  }

  lemma HandleByLaw(p: Proc, stamp: nat)
    requires LocalOk(p) && CanOwn(p, Handle)
    ensures EndedByLaw(OwnStep(p, Handle, stamp, 0).p)
  {
    var sig := p.box.slot[0];
    var q := OwnStep(p, Handle, stamp, 0).p;
    HandleBook(Received(p), sig, stamp);
    HandleOutcome(p, sig, stamp);
    assert q.box.taken == p.box.taken + [sig] && q.traps == p.traps + [p.trap];
    if !q.Running() {
      DeadlyIsLaw(p, sig, stamp);
    }
  }

  lemma DeadlyIsLaw(p: Proc, sig: Signal, stamp: nat)
    requires p.box.slot != [] && p.Running() && !HandleSignal(Received(p), sig, stamp).p.Running()
    ensures MustEnd(p.id, p.trap, sig)
  {
  }

  lemma OtherByLaw(p: Proc, step: Own, clock: nat, ref: Ref)
    requires LocalOk(p) && EndedByLaw(p) && CanOwn(p, step) && !step.Handle?
    ensures EndedByLaw(OwnStep(p, step, clock, ref).p)
  {
  }

  lemma SameByLaw(p: Proc, q: Proc)
    requires EndedByLaw(p) && q.id == p.id && q.ending == p.ending && q.traps == p.traps && q.box.taken == p.box.taken
    ensures EndedByLaw(q)
  {
  }

  lemma LawStep(s: Sys, a: Action)
    requires AllLocalOk(s) && AllEndedByLaw(s) && Enabled(s, a)
    ensures AllEndedByLaw(Apply(s, a))
  {
    forall j | 0 <= j < |Apply(s, a).procs|
      ensures EndedByLaw(Apply(s, a).procs[j])
    {
      if j < |s.procs| {
        LawStepAt(s, a, j);
      }
    }
  }

  lemma LawStepAt(s: Sys, a: Action, j: Pid)
    requires AllLocalOk(s) && AllEndedByLaw(s) && Enabled(s, a) && j < |s.procs|
    ensures j < |Apply(s, a).procs| && EndedByLaw(Apply(s, a).procs[j])
  {
    var p := s.procs[j];
    assert EndedByLaw(p) && LocalOk(p);
    if a.Perform? {
      PerformKeeps(s, a.p, a.side, j);
      SameByLaw(p, Apply(s, a).procs[j]);
    } else if a.Local? && a.p == j {
      if a.step.Handle? {
        HandleByLaw(p, s.clock);
      } else {
        OtherByLaw(p, a.step, s.clock, |s.refs|);
      }
    }
  }

  lemma {:induction false} RunIsLawful(actions: seq<Action>, s: Sys)
    requires Run(actions, s)
    ensures AllEndedByLaw(s)
    decreases |actions|
  {
    if actions != [] {
      var before :| Follows(actions, before, s);
      RunIsLawful(actions[..|actions| - 1], before);
      RunIsSafe(actions[..|actions| - 1], before);
      LawStep(before, actions[|actions| - 1]);
    }
  }

  /** In every reachable state: a process that an exit signal has ended had to end, with that reason and for that
      sender; and a process that is still running has handled no exit signal that must end it. */
  lemma EndsByLaw(s: Sys, i: Pid)
    requires Reachable(s) && i < |s.procs|
    ensures var p := s.procs[i];
            && |p.traps| == |p.box.taken|
            && (p.ending.cause.Linked? || p.ending.cause.Asked? ==>
                  && p.box.taken != []
                  && var k := |p.box.taken| - 1;
                     && MustEnd(i, p.traps[k], p.box.taken[k])
                     && p.ending.reason == Some(p.box.taken[k].reason)
                     && p.ending.cause.source == p.box.taken[k].sender)
            && (p.Running() ==>
                  forall k :: 0 <= k < |p.box.taken| ==> !MustEnd(i, p.traps[k], p.box.taken[k]))
  {
    ReachableIsSafe(s);
    var actions :| Run(actions, s);
    RunIsLawful(actions, s);
    var p := s.procs[i];
    assert LocalOk(p) && EndedByLaw(p) && Survived(p);
    if p.Running() {
      forall k | 0 <= k < |p.box.taken|
        ensures !MustEnd(i, p.traps[k], p.box.taken[k])
      {
        assert Harmless(p, k);
      }
    }
  }

  // ---------------------------------------------------------------- the runnable returns

  /** With which reason a process ends after its runnable has returned: nothing means Normal, an exit reason is taken
      over, any other error is wrapped, and a panic is an exception. Between the return and the moment the loop sees it
      anything may happen to the process that leaves its runner alone. */
  lemma ReturnDecides(p: Proc, err: Err, panicked: bool, clock: nat, ref: Ref, q: Proc, stamp: nat)
    requires CanOwn(p, Return(err, panicked)) && CanOwn(q, SeeDone)
    requires q.runner == OwnStep(p, Return(err, panicked), clock, ref).p.runner
    ensures var e := OwnStep(q, SeeDone, stamp, ref).p.ending;
            && e.cause == OwnReturn && e.reason.Some?
            && (panicked ==> e.reason.value.Exception?)
            && (!panicked && err == NilErr ==> e.reason == Some(Normal))
            && (!panicked && err.ReasonErr? ==> e.reason == Some(err.reason))
            && (!panicked && err.PlainErr? ==> e.reason == Some(Exception(err.text)))
  {
  }

  /** What the trap flag is for: once it is set, an exit signal other than a direct kill becomes a message; once it is
      cleared, it ends the process, unless it is the normal exit of another, linked process. */
  lemma TrapDecides(p: Proc, v: bool, clock: nat, ref: Ref, sender: Pid, reason: Reason, link: bool)
    requires LocalOk(p) && CanOwn(p, SetTrap(v)) && CanOwn(p, Handle)
    requires p.box.slot[0] == ExitSig(sender, p.id, reason, link)
    ensures var q := OwnStep(p, SetTrap(v), clock, ref).p;
            && CanOwn(q, Handle)
            && var r := OwnStep(q, Handle, clock, ref).p;
               && (v && (reason != Kill || link) ==>
                     r.Running() && r.mail.accepted == p.mail.accepted + [ExitMsg(sender, reason, link)])
               && (!v && !(reason == Normal && link && sender != p.id) ==> !r.Running())
  {
  }
}
