/** Runs that go on from a given state, and what stays as it is for ever: a lost monitor request stays lost. */
module RuntimeOnward {
  import opened Types
  import opened Inboxes
  import opened Runtime
  import opened RuntimeLocal
  import opened RuntimeFacts
  import opened RuntimeOrder
  import opened RuntimeLosses
  import opened RuntimeSafety

  ghost predicate Step(s: Sys, a: Action, t: Sys) {
    WellFormed(s) && Enabled(s, a) && t == Apply(s, a)
  }

  /** `actions` lead from `s` to `t`. */
  ghost predicate Onward(s: Sys, actions: seq<Action>, t: Sys)
    decreases |actions|
  {
    if actions == [] then t == s else exists mid :: Through(s, actions, mid, t)
  }

  /** All but the last action lead from `s` to `mid`, and the last one on to `t`. */
  ghost predicate Through(s: Sys, actions: seq<Action>, mid: Sys, t: Sys)
    requires actions != []
    decreases |actions|, 0
  {
    var n := |actions| - 1;
    Onward(s, actions[..n], mid) && Step(mid, actions[n], t)
  }

  /** The request of `r` was refused, or the process that it was for has exited with the request in its slot. */
  ghost predicate LostForGood(s: Sys, r: Ref) {
    Refused(s, r) || (StuckInSlot(s, r) && s.procs[s.refs[r].monitored].Told())
  }

  /** A slot that nobody will ever read again. */
  lemma OwnSlotStays(p: Proc, step: Own, clock: nat, ref: Ref)
    requires LocalOk(p) && p.Told() && CanOwn(p, step)
    ensures OwnStep(p, step, clock, ref).p.box.slot == p.box.slot
  {
  }

  lemma PerformSlotStays(s: Sys, i: Pid, side: Side, m: Pid)
    requires AllLocalOk(s) && i < |s.procs| && Program(s.procs[i], side) != [] && m < |s.procs| && s.procs[m].Told()
    ensures PerformOp(s, i, side).procs[m].box.slot == s.procs[m].box.slot
  {
    PerformShape(s, i, side, m);
  }

  lemma SlotStays(s: Sys, a: Action, m: Pid)
    requires AllLocalOk(s) && Enabled(s, a) && m < |s.procs| && s.procs[m].Told()
    ensures m < |Apply(s, a).procs| && Apply(s, a).procs[m].box.slot == s.procs[m].box.slot
  {
    match a
    case Perform(i, side) => PerformSlotStays(s, i, side, m);
    case Local(i, step) =>
      if i == m {
        OwnSlotStays(s.procs[i], step, s.clock, |s.refs|);
      }
    case _ =>
  }

  lemma LossStays(s: Sys, a: Action)
    requires AllLocalOk(s) && Enabled(s, a)
    ensures s.lost <= Apply(s, a).lost
  {
  }

  lemma LostStep(s: Sys, a: Action, r: Ref)
    requires AllLocalOk(s) && Enabled(s, a) && LostForGood(s, r)
    ensures LostForGood(Apply(s, a), r)
  {
    var t := Apply(s, a);
    StepLater(s, a);
    assert t.refs[r] == s.refs[r];
    if Refused(s, r) {
      LossStays(s, a);
      assert forall l :: l in s.lost ==> l in t.lost;
    } else {
      SlotStays(s, a, s.refs[r].monitored);
      assert ProcLater(s.procs[s.refs[r].monitored], t.procs[s.refs[r].monitored]);
    }
  }

  lemma {:induction false} OnwardLost(s: Sys, actions: seq<Action>, t: Sys, r: Ref)
    requires Reachable(s) && Onward(s, actions, t) && LostForGood(s, r)
    ensures Reachable(t) && LostForGood(t, r) && t.refs[r] == s.refs[r]
    decreases |actions|
  {
    if actions != [] {
      var n := |actions| - 1;
      var mid :| Through(s, actions, mid, t);
      OnwardLost(s, actions[..n], mid, r);
      ReachableNext(mid, actions[n]);
      ReachableIsSafe(mid);
      StepLater(mid, actions[n]);
      LostStep(mid, actions[n], r);
    }
  }

  /** Once a request is lost, no continuation of the run ever gives a down message for it to anybody. */
  lemma NeverTold(s: Sys, actions: seq<Action>, t: Sys, r: Ref, i: Pid, k: nat)
    requires Reachable(s) && Onward(s, actions, t) && LostForGood(s, r)
    requires s.refs[r].monitor != s.refs[r].monitored
    requires i < |t.procs| && k < |t.procs[i].mail.accepted| && t.procs[i].mail.accepted[k].DownMsg?
    ensures t.procs[i].mail.accepted[k].ref != r
  {
    OnwardLost(s, actions, t, r);
    NoDownElsewhere(t, r, i, k);
  }
}
