/** Demonitors reach the process that is monitored: one that a process handles is passed on, and one is made by `exit`
    for every monitor that is left. */
module RuntimeRelays {
  import opened Types
  import opened Inboxes
  import opened Runtime
  import opened RuntimeLocal
  import opened RuntimeFacts
  import opened RuntimeOrder
  import opened RuntimeLinks
  import opened RuntimeSafety
  import opened RuntimeBook

  /** The receiver has accepted the signal or is gone, or the signal has still to be sent to it. */
  ghost predicate Served(s: Sys, p: Proc, to: Pid, sig: Signal) {
    to < |s.procs| && (IsRunning(s, to) ==> Owed(p, to, sig) || sig in s.procs[to].box.accepted)
  }

  predicate IsOwnMonitor(p: Proc, sig: Signal) {
    sig.MonitorSig? && sig.monitor == p.id
  }

  /** A monitor that the process was given is one it still knows, or the other side is told that it is over. */
  ghost predicate RelayOk(s: Sys, p: Proc, sig: Signal) {
    IsOwnMonitor(p, sig) ==>
      || (!p.Told() && sig.ref in p.book.monitoring)
      || Served(s, p, sig.monitored, DemonitorSig(sig.ref, p.id))
  }

  ghost predicate RelaysOk(s: Sys, p: Proc) {
    forall sig :: sig in Honoured(p) ==> RelayOk(s, p, sig)
  }

  ghost predicate AllRelaysOk(s: Sys) {
    forall i :: 0 <= i < |s.procs| ==> RelaysOk(s, s.procs[i])
  }

  // ---------------------------------------------------------------- steps of others

  lemma ServedLater(s: Sys, t: Sys, p: Proc, q: Proc, to: Pid, sig: Signal)
    requires Later(s, t) && Served(s, p, to, sig)
    requires Owed(p, to, sig) ==> Owed(q, to, sig)
    ensures Served(t, q, to, sig)
  {
    assert ProcLater(s.procs[to], t.procs[to]);
  }

  /** The process itself has not changed in what matters, or only its program has grown. */
  lemma SameRelays(s: Sys, t: Sys, p: Proc, q: Proc)
    requires Later(s, t) && RelaysOk(s, p)
    requires q.id == p.id && (q.Told() <==> p.Told()) && Honoured(q) == Honoured(p)
    requires q.out == p.out && (p.Told() || q.book.monitoring == p.book.monitoring)
    ensures RelaysOk(t, q)
  {
    forall sig | sig in Honoured(q)
      ensures RelayOk(t, q, sig)
    {
      assert RelayOk(s, p, sig);
      if IsOwnMonitor(p, sig) && Served(s, p, sig.monitored, DemonitorSig(sig.ref, p.id)) {
        ServedLater(s, t, p, q, sig.monitored, DemonitorSig(sig.ref, p.id));
      }
    }
  }

  // ---------------------------------------------------------------- steps of the process

  /** What a process that is taken out of the monitoring map is told. */
  lemma NoteRelays(self: Pid, b: Book, sig: Signal, r: Ref)
    ensures var n := Note(self, b, sig);
            && (r in b.monitoring ==>
                  (r in n.book.monitoring && (n.book.monitoring[r] == b.monitoring[r] || sig.MonitorSig?))
                  || Send(b.monitoring[r], DemonitorSig(r, self)) in n.ops)
            && (sig.MonitorSig? && sig.monitor == self && sig.ref == r ==> r in n.book.monitoring)
  {
  }

  lemma HandleRelay(s: Sys, t: Sys, p: Proc, q: Proc, x: Signal, sig: Signal)
    requires Later(s, t) && LocalOk(p) && CanOwn(p, Handle) && x == p.box.slot[0] && RelaysOk(s, p)
    requires q.id == p.id && !q.Told() && q.book == Note(p.id, p.book, x).book
    requires q.out == p.out + Note(p.id, p.book, x).ops && q.box.taken == p.box.taken + [x]
    requires BookOk(s, p.id, p.book) && SigsOk(s, p.id, p.box.accepted)
    requires sig in q.box.taken
    ensures RelayOk(t, q, sig)
  {
    if IsOwnMonitor(p, sig) {
      NoteRelays(p.id, p.book, x, sig.ref);
      if sig in p.box.taken {
        assert RelayOk(s, p, sig);
        TakenIsGood(s, p, sig);
        if sig.ref !in p.book.monitoring {
          ServedLater(s, t, p, q, sig.monitored, DemonitorSig(sig.ref, p.id));
        } else if sig.ref !in q.book.monitoring {
          assert Watches(s, p.id, sig.ref, p.book.monitoring[sig.ref]);
          assert Send(sig.monitored, DemonitorSig(sig.ref, p.id)) in q.out;
        }
      }
    }
  }

  lemma TakenIsGood(s: Sys, p: Proc, sig: Signal)
    requires LocalOk(p) && SigsOk(s, p.id, p.box.accepted) && sig in p.box.taken
    ensures GoodSig(s, p.id, sig)
  {
    assert p.box.accepted == p.box.taken + (p.box.slot + p.box.queue);
  }

  lemma HandleRelays(s: Sys, t: Sys, i: Pid)
    requires Safe(s) && Enabled(s, Local(i, Handle)) && t == Apply(s, Local(i, Handle)) && Later(s, t)
    requires RelaysOk(s, s.procs[i])
    ensures RelaysOk(t, t.procs[i])
  {
    var p, q := s.procs[i], t.procs[i];
    var x := p.box.slot[0];
    assert LocalOk(p) && ProcFacts(s, p);
    HandleKeeps(p, x, s.clock);
    HandleSends(p, x, s.clock);
    forall sig | sig in Honoured(q)
      ensures RelayOk(t, q, sig)
    {
      HandleRelay(s, t, p, q, x, sig);
    }
  }

  lemma HandleSends(p: Proc, sig: Signal, clock: nat)
    requires p.box.slot != [] && p.Running()
    ensures HandleSignal(Received(p), sig, clock).p.out == p.out + Note(p.id, p.book, sig).ops
  {
  }

  /** The references that are still in the map after a drain, and those that were passed on. */
  lemma {:induction false} DrainRelays(s: Sys, self: Pid, b: Book, sigs: seq<Signal>, r: Ref)
    requires BookOk(s, self, b) && SigsOk(s, self, sigs) && r < |s.refs|
    ensures var n := DrainAll(self, b, sigs);
            && (|| r in b.monitoring
                || (exists sig :: sig in sigs && sig.MonitorSig? && sig.monitor == self && sig.ref == r) ==>
                  (r in n.book.monitoring && n.book.monitoring[r] == s.refs[r].monitored)
                  || Send(s.refs[r].monitored, DemonitorSig(r, self)) in n.ops)
  {
    if sigs == [] {
      assert r in b.monitoring ==> Watches(s, self, r, b.monitoring[r]);
    } else {
      var k := |sigs| - 1;
      DrainRelays(s, self, b, sigs[..k], r);
      assert sigs == sigs[..k] + [sigs[k]] && sigs[k] in sigs && GoodSig(s, self, sigs[k]);
    }
  }

  lemma DrainRelay(s: Sys, t: Sys, p: Proc, order: seq<Ref>, sig: Signal)
    requires Later(s, t) && LocalOk(p) && ProcFacts(s, p) && RelaysOk(s, p) && CanOwn(p, Drain(order))
    requires sig in Honoured(DrainProc(p, order))
    ensures RelayOk(t, DrainProc(p, order), sig)
  {
    var q := DrainProc(p, order);
    if IsOwnMonitor(p, sig) {
      HonouredIsGood(s, p, sig);
      if sig in p.box.queue || sig.ref in p.book.monitoring {
        DrainOwes(s, p, order, sig.ref);
        assert ProcLater(s.procs[sig.monitored], t.procs[sig.monitored]);
      } else {
        assert RelayOk(s, p, sig) && p.out == [];
        ServedLater(s, t, p, q, sig.monitored, DemonitorSig(sig.ref, p.id));
      }
    }
  }

  lemma HonouredIsGood(s: Sys, p: Proc, sig: Signal)
    requires LocalOk(p) && ProcFacts(s, p) && (sig in p.box.taken || sig in p.box.queue)
    ensures GoodSig(s, p.id, sig)
  {
    assert p.box.accepted == (p.box.taken + p.box.slot) + p.box.queue && sig in p.box.accepted;
  }

  lemma DemonitorsGoOut(p: Proc, order: seq<Ref>, op: Op)
    requires CanOwn(p, Drain(order)) && op in DemonitorOps(p.id, Drained(p).book.monitoring, order)
    ensures op in DrainProc(p, order).out
  {
    var n := Drained(p);
    var reason := ExitReason(p);
    var ops := DemonitorOps(p.id, n.book.monitoring, order);
    assert DrainProc(p, order).out
        == n.ops + (LinkOps(p.id, n.book.links, reason) + DownOps(p.id, n.book.monitors, reason) + ops);
  }

  /** A monitor that was known or is found in the inbox: its demonitor is among what a drained process has to send. */
  lemma DrainOwes(s: Sys, p: Proc, order: seq<Ref>, r: Ref)
    requires LocalOk(p) && ProcFacts(s, p) && CanOwn(p, Drain(order)) && r < |s.refs|
    requires r in p.book.monitoring
             || exists sig :: sig in p.box.queue && sig.MonitorSig? && sig.monitor == p.id && sig.ref == r
    ensures Owed(DrainProc(p, order), s.refs[r].monitored, DemonitorSig(r, p.id))
  {
    var n := Drained(p);
    forall sig | sig in p.box.queue
      ensures GoodSig(s, p.id, sig)
    {
      HonouredIsGood(s, p, sig);
    }
    DrainRelays(s, p.id, p.book, p.box.queue, r);
    if Send(s.refs[r].monitored, DemonitorSig(r, p.id)) !in n.ops {
      var k :| 0 <= k < |order| && order[k] == r;
      var ops := DemonitorOps(p.id, n.book.monitoring, order);
      assert ops[k] == Send(s.refs[r].monitored, DemonitorSig(r, p.id));
      DemonitorsGoOut(p, order, ops[k]);
    }
  }

  lemma OwnRelays(s: Sys, t: Sys, i: Pid, step: Own)
    requires Safe(s) && Enabled(s, Local(i, step)) && t == Apply(s, Local(i, step)) && Later(s, t)
    requires RelaysOk(s, s.procs[i])
    ensures RelaysOk(t, t.procs[i])
  {
    var p := s.procs[i];
    assert LocalOk(p) && ProcFacts(s, p);
    if step.Handle? {
      HandleRelays(s, t, i);
    } else if step.Drain? {
      forall sig | sig in Honoured(t.procs[i])
        ensures RelayOk(t, t.procs[i], sig)
      {
        DrainRelay(s, t, p, step.order, sig);
      }
    } else {
      OtherKeeps(p, step, s.clock, |s.refs|);
      SameRelays(s, t, p, t.procs[i]);
    }
  }

  lemma ProgressRelay(s: Sys, t: Sys, i: Pid, side: Side, to: Pid, sig: Signal)
    requires AllLocalOk(s) && i < |s.procs| && Program(s.procs[i], side) != []
    requires t == PerformOp(s, i, side) && Later(s, t) && Served(s, s.procs[i], to, sig)
    ensures Served(t, t.procs[i], to, sig)
  {
    var p := s.procs[i];
    var op := Program(p, side)[0];
    PerformKeeps(s, i, side, i);
    assert ProcLater(s.procs[to], t.procs[to]);
    if IsRunning(t, to) && Owed(p, to, sig) {
      if side == LoopSide && op == Enqueue(to, sig) {
        Arrives(s, i, side);
      } else {
        SentOrOwed(p, side, IsRunning(s, Target(op)), to, sig);
      }
    }
  }

  lemma PerformRelays(s: Sys, t: Sys, i: Pid, side: Side, j: Pid)
    requires Safe(s) && i < |s.procs| && Program(s.procs[i], side) != [] && j < |s.procs|
    requires t == PerformOp(s, i, side) && Later(s, t) && RelaysOk(s, s.procs[j])
    ensures RelaysOk(t, t.procs[j])
  {
    var p, q := s.procs[j], t.procs[j];
    PerformBookKeeps(s, t, i, side, j);
    PerformKeeps(s, i, side, j);
    assert LocalOk(p);
    forall sig | sig in Honoured(q)
      ensures RelayOk(t, q, sig)
    {
      assert RelayOk(s, p, sig);
      if IsOwnMonitor(p, sig) && Served(s, p, sig.monitored, DemonitorSig(sig.ref, p.id)) {
        if j == i {
          ProgressRelay(s, t, i, side, sig.monitored, DemonitorSig(sig.ref, p.id));
        } else {
          ServedLater(s, t, p, q, sig.monitored, DemonitorSig(sig.ref, p.id));
        }
      }
    }
  }

  lemma PerformBookKeeps(s: Sys, t: Sys, i: Pid, side: Side, j: Pid)
    requires AllLocalOk(s) && i < |s.procs| && Program(s.procs[i], side) != [] && j < |s.procs|
    requires t == PerformOp(s, i, side) && j < |t.procs|
    ensures t.procs[j].book.monitoring == s.procs[j].book.monitoring
    ensures Honoured(t.procs[j]) == Honoured(s.procs[j])
  {
    PerformShape(s, i, side, j);
    assert LocalOk(s.procs[j]);
  }

  lemma RelaysStep(s: Sys, a: Action)
    requires Safe(s) && AllRelaysOk(s) && Enabled(s, a)
    ensures AllRelaysOk(Apply(s, a))
  {
    StepLater(s, a);
    forall j | 0 <= j < |Apply(s, a).procs|
      ensures RelaysOk(Apply(s, a), Apply(s, a).procs[j])
    {
      if j < |s.procs| {
        RelaysStepAt(s, a, j);
      } else {
        BornRelays(s, a, j);
      }
    }
  }

  lemma BornRelays(s: Sys, a: Action, j: Pid)
    requires WellFormed(s) && Enabled(s, a) && |s.procs| <= j < |Apply(s, a).procs|
    ensures RelaysOk(Apply(s, a), Apply(s, a).procs[j])
  {
    assert Honoured(Apply(s, a).procs[j]) == [];
  }

  lemma RelaysStepAt(s: Sys, a: Action, j: Pid)
    requires Safe(s) && Enabled(s, a) && j < |s.procs| && RelaysOk(s, s.procs[j]) && Later(s, Apply(s, a))
    ensures RelaysOk(Apply(s, a), Apply(s, a).procs[j])
  {
    var t := Apply(s, a);
    if a.Perform? {
      PerformRelays(s, t, a.p, a.side, j);
    } else if a.Local? && a.p == j {
      OwnRelays(s, t, j, a.step);
    } else {
      SameRelays(s, t, s.procs[j], t.procs[j]);
    }
  }

  lemma {:induction false} RunRelays(actions: seq<Action>, s: Sys)
    requires Run(actions, s)
    ensures AllRelaysOk(s)
    decreases |actions|
  {
    if actions != [] {
      var before :| Follows(actions, before, s);
      RunRelays(actions[..|actions| - 1], before);
      RunIsSafe(actions[..|actions| - 1], before);
      RelaysStep(before, actions[|actions| - 1]);
    }
  }

  // ---------------------------------------------------------------- what it means

  /** A process that was given a monitor of its own under `r`, and no longer knows it, or is gone, has told the
      monitored process, if that one still runs. */
  lemma DemonitorArrives(s: Sys, i: Pid, r: Ref, monitored: Pid)
    requires Reachable(s) && i < |s.procs| && s.procs[i].out == []
    requires MonitorSig(r, i, monitored) in Honoured(s.procs[i])
    requires s.procs[i].Told() || r !in s.procs[i].book.monitoring
    ensures monitored < |s.procs|
    ensures !IsRunning(s, monitored) || DemonitorSig(r, i) in s.procs[monitored].box.accepted
  {
    ReachableIsSafe(s);
    var actions :| Run(actions, s);
    RunRelays(actions, s);
    assert LocalOk(s.procs[i]) && RelayOk(s, s.procs[i], MonitorSig(r, i, monitored));
  }
}
