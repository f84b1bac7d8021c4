/** The theorems about every reachable state of the runtime. */
module RuntimeSafety {
  import opened Types
  import opened Sums
  import opened Inboxes
  import opened Runtime
  import opened RuntimeLocal
  import opened RuntimeFacts
  import opened RuntimeOrder
  import opened RuntimeTokens
  import opened RuntimeLinks
  import opened RuntimeLosses

  ghost predicate Safe(s: Sys) {
    Conserved(s) && Cascading(s) && Accounted(s)
  }

  lemma SafeInit()
    ensures Safe(Init())
  {
    ConservedInit();
    CascadingInit();
    AccountedInit();
  }

  lemma SafeStep(s: Sys, a: Action)
    requires Safe(s) && Enabled(s, a)
    ensures Safe(Apply(s, a))
  {
    ConservedStep(s, a);
    CascadingStep(s, a);
    AccountedStep(s, a);
  }

  lemma {:induction false} RunIsSafe(actions: seq<Action>, s: Sys)
    requires Run(actions, s)
    ensures Safe(s)
    decreases |actions|
  {
    if actions == [] {
      SafeInit();
    } else {
      var before :| Follows(actions, before, s);
      RunIsSafe(actions[..|actions| - 1], before);
      SafeStep(before, actions[|actions| - 1]);
    }
  }

  lemma ReachableIsSafe(s: Sys)
    requires Reachable(s)
    ensures Safe(s)
  {
    var actions :| Run(actions, s);
    RunIsSafe(actions, s);
  }

  lemma Extend(actions: seq<Action>, s: Sys, a: Action)
    requires Run(actions, s) && WellFormed(s) && Enabled(s, a)
    ensures Run(actions + [a], Apply(s, a))
  {
    var all := actions + [a];
    assert all[..|all| - 1] == actions;
    assert Follows(all, s, Apply(s, a));
  }

  lemma ReachableNext(s: Sys, a: Action)
    requires Reachable(s) && WellFormed(s) && Enabled(s, a)
    ensures Reachable(Apply(s, a))
  {
    var actions :| Run(actions, s);
    Extend(actions, s, a);
  }

  // ---------------------------------------------------------------- monitors

  /** One token for every reference, in every reachable state: queued, entered, on its way, delivered or lost. */
  lemma TokenConservation(s: Sys, r: Ref)
    requires Reachable(s)
    ensures Tokens(s, r) == Drawn(s.refs, r)
  {
    ReachableIsSafe(s);
  }

  /** No reference ever gives two down messages, at whatever runnable. */
  lemma OneDownMessage(s: Sys, r: Ref, i: Pid, j: Pid, k: nat, l: nat)
    requires Reachable(s) && i < |s.procs| && j < |s.procs|
    requires k < |s.procs[i].mail.accepted| && l < |s.procs[j].mail.accepted|
    requires s.procs[i].mail.accepted[k].DownMsg? && s.procs[i].mail.accepted[k].ref == r
    requires s.procs[j].mail.accepted[l].DownMsg? && s.procs[j].mail.accepted[l].ref == r
    ensures i == j && k == l
  {
    ReachableIsSafe(s);
    assert Tokens(s, r) <= 1;
    DownMessageWeighs(s, r, i, k);
    DownMessageWeighs(s, r, j, l);
    if i != j {
      SumPair(s.procs, if i < j then i else j, if i < j then j else i, ProcTokens(r));
    } else if k != l {
      assert ProcFacts(s, s.procs[i]);
      SumPair(s.procs[i].mail.accepted, if k < l then k else l, if k < l then l else k, MsgToken(i, r));
      SumAtLeast(s.procs, i, ProcTokens(r));
    }
  }

  lemma DownMessageWeighs(s: Sys, r: Ref, i: Pid, k: nat)
    requires Facts(s) && i < |s.procs| && k < |s.procs[i].mail.accepted|
    requires s.procs[i].mail.accepted[k].DownMsg? && s.procs[i].mail.accepted[k].ref == r
    ensures OfProc(s.procs[i], r) >= 1 && MsgToken(i, r)(s.procs[i].mail.accepted[k]) == 1
  {
    assert ProcFacts(s, s.procs[i]);
    assert s.procs[i].mail.accepted[k] in s.procs[i].mail.accepted;
    SumAtLeast(s.procs[i].mail.accepted, k, MsgToken(i, r));
  }

  /** Nothing is left to do for the signal loops: no send is pending, and a process is either idle or gone. */
  ghost predicate Quiescent(s: Sys) {
    forall i :: 0 <= i < |s.procs| ==> Idle(s.procs[i])
  }

  predicate Idle(p: Proc) {
    && p.out == [] && p.api == []
    && (p.Running() || p.Told())
    && (p.Running() ==> p.box.queue == [] && p.box.slot == [])
  }

  /** The signal that the feeding goroutine of a dead process holds for ever. */
  ghost predicate StuckInSlot(s: Sys, r: Ref) {
    r < |s.refs| && s.refs[r].monitored < |s.procs|
    && Copy(s, r) in s.procs[s.refs[r].monitored].box.slot
  }

  /** The monitoring process has been given the down message of `r`. */
  ghost predicate HasDown(s: Sys, r: Ref) {
    && r < |s.refs| && s.refs[r].monitor < |s.procs|
    && exists reason :: DownMsg(s.refs[r].monitored, r, reason) in s.procs[s.refs[r].monitor].mail.accepted
  }

  /** While the token of a reference is among the losses, or in the slot at the monitored process, nobody has a down
      message for it. */
  lemma NoDownElsewhere(s: Sys, r: Ref, i: Pid, k: nat)
    requires Reachable(s) && r < |s.refs| && s.refs[r].monitor != s.refs[r].monitored
    requires Refused(s, r) || StuckInSlot(s, r)
    requires i < |s.procs| && k < |s.procs[i].mail.accepted|
    ensures s.procs[i].mail.accepted[k].DownMsg? ==> s.procs[i].mail.accepted[k].ref != r
  {
    ReachableIsSafe(s);
    assert Tokens(s, r) <= 1;
    var m := s.refs[r].monitored;
    if s.procs[i].mail.accepted[k].DownMsg? && s.procs[i].mail.accepted[k].ref == r {
      DownMessageWeighs(s, r, i, k);
      SumAtLeast(s.procs, i, ProcTokens(r));
      if Refused(s, r) {
        RefusalWeighs(s, r);
      } else {
        SlotWeighs(s, r);
        if i != m {
          SumPair(s.procs, if i < m then i else m, if i < m then m else i, ProcTokens(r));
        } else {
          SumAtLeast(s.procs[i].mail.accepted, k, MsgToken(i, r));
        }
      }
    }
  }

  lemma RefusalWeighs(s: Sys, r: Ref)
    requires Refused(s, r) && s.refs[r].monitor != s.refs[r].monitored
    ensures Sum(s.lost, LossToken(r)) >= 1
  {
    var l := LostSignal(s.refs[r].monitored, Copy(s, r));
    var k :| 0 <= k < |s.lost| && s.lost[k] == l;
    SumAtLeast(s.lost, k, LossToken(r));
  }

  lemma SlotWeighs(s: Sys, r: Ref)
    requires WellFormed(s) && StuckInSlot(s, r) && s.refs[r].monitor != s.refs[r].monitored
    ensures InboxTokens(s.procs[s.refs[r].monitored], r) >= 1
  {
    var m := s.refs[r].monitored;
    var slot := s.procs[m].box.slot;
    var k :| 0 <= k < |slot| && slot[k] == Copy(s, r);
    SumAtLeast(slot, k, SigToken(m, r));
  }

  /** When everything has settled, a faithful monitor of a process that has exited has its down message, with the exit
      reason or NoProc, if and only if its request was neither swallowed by the one slot of the inbox nor refused
      between the reading of the status and the enqueuing. */
  lemma DownIsCertain(s: Sys, r: Ref)
    requires Reachable(s) && Quiescent(s) && Faithful(s, r)
    requires s.refs[r].monitored < |s.procs| && s.procs[s.refs[r].monitored].Told()
    ensures HasDown(s, r) <==> !Refused(s, r) && !StuckInSlot(s, r)
    ensures forall reason ::
              DownMsg(s.refs[r].monitored, r, reason) in s.procs[s.refs[r].monitor].mail.accepted
              ==> HasTold(s, s.refs[r].monitored, reason) || reason == NoProc
  {
    ReachableIsSafe(s);
    var p := s.procs[s.refs[r].monitor];
    forall reason | DownMsg(s.refs[r].monitored, r, reason) in p.mail.accepted
      ensures HasTold(s, s.refs[r].monitored, reason) || reason == NoProc
      ensures !Refused(s, r) && !StuckInSlot(s, r)
    {
      var m := DownMsg(s.refs[r].monitored, r, reason);
      assert ProcFacts(s, p) && GoodSig(s, p.id, DownSig(m.proc, r, m.reason));
      var k :| 0 <= k < |p.mail.accepted| && p.mail.accepted[k] == m;
      if Refused(s, r) || StuckInSlot(s, r) {
        NoDownElsewhere(s, r, p.id, k);
      }
    }
    if !Refused(s, r) && !StuckInSlot(s, r) {
      DownHasCome(s, r);
    }
  }

  lemma DownHasCome(s: Sys, r: Ref)
    requires Safe(s) && Quiescent(s) && Faithful(s, r)
    requires s.refs[r].monitored < |s.procs| && s.procs[s.refs[r].monitored].Told()
    requires !Refused(s, r) && !StuckInSlot(s, r)
    ensures HasDown(s, r)
  {
    if Sum(s.lost, LossToken(r)) > 0 {
      FaithfulLoss(s, r);
    }
    assert Tokens(s, r) == 1;
    SumPositive(s.procs, ProcTokens(r));
    var i :| 0 <= i < |s.procs| && ProcTokens(r)(s.procs[i]) > 0;
    assert Idle(s.procs[i]);
    var p := s.procs[i];
    if MessageTokens(p, r) == 0 {
      NoOtherToken(s, r, i);
      assert false;
    }
    MessageTokenIsDown(s, r, i);
  }

  lemma MessageTokenIsDown(s: Sys, r: Ref, i: Pid)
    requires Facts(s) && i < |s.procs| && MessageTokens(s.procs[i], r) > 0
    ensures HasDown(s, r)
  {
    var p := s.procs[i];
    SumPositive(p.mail.accepted, MsgToken(i, r));
    var k :| 0 <= k < |p.mail.accepted| && MsgToken(i, r)(p.mail.accepted[k]) > 0;
    var m := p.mail.accepted[k];
    assert ProcFacts(s, p) && m in p.mail.accepted;
    assert GoodSig(s, i, DownSig(m.proc, r, m.reason));
    assert m == DownMsg(s.refs[r].monitored, r, m.reason);
  }

  lemma SlotTokenWhere(s: Sys, r: Ref, i: Pid)
    requires Facts(s) && i < |s.procs| && Sum(s.procs[i].box.slot, SigToken(i, r)) > 0
    ensures r < |s.refs|
    ensures i == s.refs[r].monitor || (i == s.refs[r].monitored && Copy(s, r) in s.procs[i].box.slot)
  {
    var p := s.procs[i];
    SumPositive(p.box.slot, SigToken(i, r));
    var k :| 0 <= k < |p.box.slot| && SigToken(i, r)(p.box.slot[k]) > 0;
    assert p.box.slot[k] in p.box.slot && LocalOk(p);
    QueueIsAccepted(p, p.box.slot[k]);
    assert ProcFacts(s, p) && GoodSig(s, i, p.box.slot[k]);
  }

  lemma EntryTokenWhere(s: Sys, r: Ref, i: Pid)
    requires Facts(s) && i < |s.procs| && Sum(s.procs[i].book.monitors, EntryToken(i, r)) > 0
    ensures r < |s.refs| && i == s.refs[r].monitored
  {
    var es := s.procs[i].book.monitors;
    SumPositive(es, EntryToken(i, r));
    var k :| 0 <= k < |es| && EntryToken(i, r)(es[k]) > 0;
    assert es[k] in es && ProcFacts(s, s.procs[i]) && GoodEntry(s, i, es[k]);
  }

  /** In a settled state the token is nowhere but in a message. */
  lemma NoOtherToken(s: Sys, r: Ref, i: Pid)
    requires Facts(s) && i < |s.procs| && Idle(s.procs[i]) && Faithful(s, r) && !StuckInSlot(s, r)
    requires s.refs[r].monitored < |s.procs| && s.procs[s.refs[r].monitored].Told()
    ensures InboxTokens(s.procs[i], r) + EntryTokens(s.procs[i], r) + ProgramTokens(s.procs[i], r) == 0
  {
    if Sum(s.procs[i].box.slot, SigToken(i, r)) > 0 {
      SlotTokenWhere(s, r, i);
    }
    if EntryTokens(s.procs[i], r) > 0 {
      EntryTokenWhere(s, r, i);
    }
  }

  /** A down signal never reaches a running process before the process knows the reference. */
  lemma DownNeverOutrunsMonitor(s: Sys, i: Pid)
    requires Reachable(s) && IsRunning(s, i) && s.procs[i].box.slot != [] && s.procs[i].box.slot[0].DownSig?
    ensures var p := s.procs[i];
            var r := p.box.slot[0].ref;
            r in p.book.monitoring || DemonitorSig(r, i) in p.box.taken
  {
    ReachableIsSafe(s);
    DownIsExpected(s, i);
  }

  // ---------------------------------------------------------------- links

  /** After an abnormal exit every process of the final links is dead, has the signal pending, or trapped it. */
  lemma AbnormalExitReachesLinks(s: Sys, i: Pid, x: Pid)
    requires Reachable(s) && 0 < i < |s.procs| && s.procs[i].Told() && s.procs[i].out == []
    requires x in s.procs[i].ending.lastLinks && ExitReason(s.procs[i]) != Normal
    ensures var sig := ExitSig(i, x, ExitReason(s.procs[i]), true);
            || !IsRunning(s, x)
            || sig in s.procs[x].box.queue || sig in s.procs[x].box.slot
            || ExitMsg(i, ExitReason(s.procs[i]), true) in s.procs[x].mail.accepted
  {
    ReachableIsSafe(s);
    if IsRunning(s, x) {
      LinkedFate(s, i, x);
    }
  }

  /** Once settled, whoever still runs has trapped the exits of all abnormally ended processes it was linked to. */
  lemma SurvivorsTrapped(s: Sys, i: Pid, x: Pid)
    requires Reachable(s) && Quiescent(s) && 0 < i < |s.procs| && s.procs[i].Told()
    requires x in s.procs[i].ending.lastLinks && ExitReason(s.procs[i]) != Normal && IsRunning(s, x)
    ensures ExitMsg(i, ExitReason(s.procs[i]), true) in s.procs[x].mail.accepted
  {
    assert Idle(s.procs[i]) && Idle(s.procs[x]);
    AbnormalExitReachesLinks(s, i, x);
  }

  /** A process that died through a link is the end of a chain of links: each process of the chain was told by the next
      one, whose final links it was among; all died of the same reason; and the chain starts from a process that was not
      ended by the exit of another one. */
  lemma CascadeKeepsReason(s: Sys, i: Pid) returns (chain: seq<Pid>)
    requires Reachable(s) && i < |s.procs| && s.procs[i].ending.cause.Linked?
    ensures IsCascade(s, chain) && chain[0] == i && Originator(s, chain[|chain| - 1])
    ensures forall k :: 0 <= k < |chain| ==> s.procs[chain[k]].ending.reason == s.procs[i].ending.reason
    ensures s.procs[i].ending.reason != Some(NoProc) ==>
              |chain| > 1 && !s.procs[chain[|chain| - 1]].ending.cause.Linked?
  {
    ReachableIsSafe(s);
    assert LocalOk(s.procs[i]);
    chain := CascadeChain(s, i);
    forall k | 0 <= k < |chain|
      ensures s.procs[chain[k]].ending.reason == s.procs[i].ending.reason
    {
      CascadeReason(s, chain, k);
    }
  }

  /** An exit signal through a link comes from a process that has exited, carries its exit reason, and goes only to one
      of its final links; or it is the answer NoProc of a dead process. */
  lemma LinkedExitSpeaksTrue(s: Sys, i: Pid, sig: Signal)
    requires Reachable(s) && i < |s.procs| && sig in s.procs[i].box.accepted && sig.ExitSig? && sig.link
    ensures sig.sender < |s.procs| && !IsRunning(s, sig.sender)
    ensures sig.reason == NoProc
            || (ExitReason(s.procs[sig.sender]) == sig.reason && i in s.procs[sig.sender].ending.lastLinks)
  {
    ReachableIsSafe(s);
    assert ProcFacts(s, s.procs[i]) && GoodSig(s, i, sig);
  }

  // ---------------------------------------------------------------- names

  /** Whoever hears of an exit from the dying process itself finds its name already given up. A down signal of a
      `SpawnMonitor` always comes from the process itself; in general so does every reason but NoProc, which may
      also be the answer to a request that came after the status had changed and before the name was gone. */
  lemma NameGoneBeforeDown(s: Sys, at: Pid, sig: Signal)
    requires Reachable(s) && at < |s.procs| && sig in s.procs[at].box.accepted
    requires sig.DownSig? && sig.proc != at
    ensures sig.ref < |s.refs|
    ensures sig.reason != NoProc || s.refs[sig.ref].spawned ==>
              sig.proc < |s.procs| && s.procs[sig.proc].name == "" && !IsRunning(s, sig.proc)
  {
    ReachableIsSafe(s);
    assert ProcFacts(s, s.procs[at]) && GoodSig(s, at, sig);
    assert LocalOk(s.procs[sig.proc]);
  }

  /** The same for what was handed to a runnable. */
  lemma NameGoneBeforeMessage(s: Sys, i: Pid, m: Msg)
    requires Reachable(s) && i < |s.procs| && m in s.procs[i].mail.accepted && m.DownMsg?
    ensures m.ref < |s.refs|
    ensures m.reason != NoProc || s.refs[m.ref].spawned ==>
              m.proc < |s.procs| && s.procs[m.proc].name == "" && !IsRunning(s, m.proc)
  {
    ReachableIsSafe(s);
    assert ProcFacts(s, s.procs[i]);
    assert GoodSig(s, i, DownSig(m.proc, m.ref, m.reason));
    assert m.proc < |s.procs| && LocalOk(s.procs[m.proc]);
  }

  lemma NameGoneBeforeExit(s: Sys, i: Pid, sig: Signal)
    requires Reachable(s) && i < |s.procs| && sig in s.procs[i].box.accepted
    requires sig.ExitSig? && sig.link && sig.reason != NoProc
    ensures sig.sender < |s.procs| && s.procs[sig.sender].name == "" && !IsRunning(s, sig.sender)
  {
    ReachableIsSafe(s);
    assert ProcFacts(s, s.procs[i]) && GoodSig(s, i, sig);
    assert LocalOk(s.procs[sig.sender]);
  }

  /** The exception is real: a monitor request that meets a process which is exiting but still has its name is
      answered with NoProc at once. */
  lemma EarlyAnswer(s: Sys, i: Pid, side: Side)
    requires Safe(s) && i < |s.procs| && Program(s.procs[i], side) != []
    requires var op := Program(s.procs[i], side)[0];
             op.Send? && op.sig.MonitorSig? && op.to < |s.procs| && op.to != i
             && s.procs[op.to].phase == Releasing && s.procs[op.to].name != ""
    ensures var op := Program(s.procs[i], side)[0];
            var t := Apply(s, Perform(i, side));
            && Program(t.procs[i], side)[0] == Send(op.sig.monitor, DownSig(op.to, op.sig.ref, NoProc))
            && t.procs[op.to].name == s.procs[op.to].name != ""
  {
  }

  // ---------------------------------------------------------------- order

  /** Handled signals, then at most one in the slot, then the queue, are exactly what was accepted; `exit` gets the
      queue from `Drain` and so skips at most the one in the slot. */
  lemma NothingReordered(s: Sys, i: Pid)
    requires Reachable(s) && i < |s.procs|
    ensures var b := s.procs[i].box;
            b.accepted == b.taken + b.slot + b.queue && |b.slot| <= 1
  {
    ReachableIsSafe(s);
    assert LocalOk(s.procs[i]);
  }

  /** What a runnable has read is a prefix of the translation of what was accepted for its process. */
  lemma ReadsInOrder(s: Sys, i: Pid)
    requires Reachable(s) && i < |s.procs|
    ensures var p := s.procs[i];
            && |p.traps| == |p.box.taken|
            && p.box.taken <= p.box.accepted
            && p.mail.taken <= Translate(i, p.box.taken, p.traps)
  {
    ReachableIsSafe(s);
    var p := s.procs[i];
    assert LocalOk(p);
    assert p.box.accepted == p.box.taken + (p.box.slot + p.box.queue);
    assert p.mail.accepted == p.mail.taken + (p.mail.slot + p.mail.queue);
  }
}
