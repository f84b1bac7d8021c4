/** Exits travel along links: every process that an exiting process was linked to is told, with the exact reason,
    and a process that goes on running after such a signal has trapped it. */
module RuntimeLinks {
  import opened Types
  import opened Inboxes
  import opened Runtime
  import opened RuntimeLocal
  import opened RuntimeFacts
  import opened RuntimeOrder

  /** The exit signal that `p` owes to the process `x` it was linked to. */
  function Notice(p: Proc, x: Pid): Signal {
    ExitSig(p.id, x, ExitReason(p), true)
  }

  /** The loop of `p` has still to send the signal. */
  predicate Owed(p: Proc, to: Pid, sig: Signal) {
    Send(to, sig) in p.out || Enqueue(to, sig) in p.out
  }

  predicate Pending(p: Proc, x: Pid) {
    Owed(p, x, Notice(p, x))
  }

  /** A linked process that is still running has accepted the notice, or `exit` has still to send it. */
  ghost predicate Notified(s: Sys, p: Proc, x: Pid) {
    x < |s.procs| && (IsRunning(s, x) ==> Pending(p, x) || Notice(p, x) in s.procs[x].box.accepted)
  }

  ghost predicate LinksTold(s: Sys, p: Proc) {
    p.Told() && p.id != UNDEFINED ==> forall x :: x in p.ending.lastLinks ==> Notified(s, p, x)
  }

  /** No exit signal that a running process handled was deadly for it. */
  ghost predicate Survived(p: Proc) {
    p.Running() && |p.traps| == |p.box.taken| ==>
      forall k :: 0 <= k < |p.box.taken| ==> Harmless(p, k)
  }

  ghost predicate Harmless(p: Proc, k: nat)
    requires k < |p.box.taken| && k < |p.traps|
  {
    var sig := p.box.taken[k];
    sig.ExitSig? ==> !Deadly(p.id, p.traps[k], sig.sender, sig.reason, sig.link)
  }

  ghost predicate Cascading(s: Sys) {
    Ordered(s) && AllToldSurvived(s)
  }

  ghost predicate AllToldSurvived(s: Sys) {
    forall i :: 0 <= i < |s.procs| ==> LinksTold(s, s.procs[i]) && Survived(s.procs[i])
  }

  // ---------------------------------------------------------------- steps

  lemma NotifiedLater(s: Sys, t: Sys, p: Proc, x: Pid)
    requires Later(s, t) && Notified(s, p, x)
    ensures Notified(t, p, x)
  {
    assert ProcLater(s.procs[x], t.procs[x]);
  }

  lemma ToldLater(s: Sys, t: Sys, p: Proc, q: Proc)
    requires Later(s, t) && LinksTold(s, p)
    requires q.id == p.id && q.out == p.out && q.ending == p.ending && (q.Told() ==> p.Told())
    ensures LinksTold(t, q)
  {
    if q.Told() && q.id != UNDEFINED {
      forall x | x in q.ending.lastLinks
        ensures Notified(t, q, x)
      {
        NotifiedLater(s, t, p, x);
      }
    }
  }

  /** A drained process has the notices for all its links in its program. */
  lemma DrainTold(t: Sys, p: Proc, order: seq<Ref>)
    requires CanOwn(p, Drain(order)) && BookOk(t, p.id, DrainProc(p, order).book)
    ensures LinksTold(t, DrainProc(p, order))
  {
    var q := DrainProc(p, order);
    var links := LinkOps(p.id, q.book.links, ExitReason(p));
    forall x | x in q.ending.lastLinks
      ensures Notified(t, q, x)
    {
      var k :| 0 <= k < |q.book.links| && q.book.links[k] == x;
      assert links[k] == Send(x, Notice(q, x));
      assert links[k] in q.out;
    }
  }

  /** The program of an exiting process shrinks only by notices that arrive. */
  lemma ProgressTold(s: Sys, t: Sys, i: Pid, side: Side, q: Proc)
    requires Cascading(s) && i < |s.procs| && Program(s.procs[i], side) != []
    requires t == PerformOp(s, i, side) && Later(s, t)
    requires q.id == i && q.ending == s.procs[i].ending && q.phase == s.procs[i].phase
    requires q.out == Progress(s.procs[i], side, IsRunning(s, Target(Program(s.procs[i], side)[0]))).out
    ensures LinksTold(t, q)
  {
    var p := s.procs[i];
    if q.Told() && i != UNDEFINED {
      forall x | x in q.ending.lastLinks
        ensures Notified(t, q, x)
      {
        assert LinksTold(s, p) && Notified(s, p, x);
        NotifiedLater(s, t, p, x);
        assert ProcLater(s.procs[x], t.procs[x]);
        if IsRunning(t, x) && Pending(p, x) {
          PendingProgress(s, t, i, side, q, x);
        }
      }
    }
  }

  lemma PendingProgress(s: Sys, t: Sys, i: Pid, side: Side, q: Proc, x: Pid)
    requires Cascading(s) && i < |s.procs| && Program(s.procs[i], side) != []
    requires t == PerformOp(s, i, side) && Later(s, t)
    requires q.id == i && q.ending == s.procs[i].ending && q.phase == s.procs[i].phase
    requires q.out == Progress(s.procs[i], side, IsRunning(s, Target(Program(s.procs[i], side)[0]))).out
    requires q.Told() && x in q.ending.lastLinks && x < |s.procs| && IsRunning(s, x) && IsRunning(t, x)
    requires Pending(s.procs[i], x)
    ensures Notified(t, q, x)
  {
    var p := s.procs[i];
    var op := Program(p, side)[0];
    if side == LoopSide && op == Enqueue(x, Notice(p, x)) {
      Arrives(s, i, side);
    } else {
      SentOrOwed(p, side, IsRunning(s, Target(op)), x, Notice(p, x));
    }
  }

  /** A signal that is sent has still to be enqueued; another operation leaves it where it is. */
  lemma SentOrOwed(p: Proc, side: Side, alive: bool, to: Pid, sig: Signal)
    requires Program(p, side) != [] && Owed(p, to, sig)
    requires side == LoopSide ==> p.out[0] != Enqueue(to, sig) && (p.out[0] == Send(to, sig) ==> alive)
    ensures Owed(Progress(p, side, alive), to, sig)
  {
    var q := Progress(p, side, alive);
    if side == LoopSide && p.out[0] == Send(to, sig) {
      assert q.out[0] == Enqueue(to, sig);
    } else {
      StillOwed(p, side, alive, to, sig);
    }
  }

  lemma StillOwed(p: Proc, side: Side, alive: bool, to: Pid, sig: Signal)
    requires Program(p, side) != [] && Owed(p, to, sig)
    requires side == LoopSide ==> p.out[0] != Send(to, sig) && p.out[0] != Enqueue(to, sig)
    ensures Owed(Progress(p, side, alive), to, sig)
  {
    var q := Progress(p, side, alive);
    if side == LoopSide {
      var rest := p.out[1..];
      var op := if Send(to, sig) in p.out then Send(to, sig) else Enqueue(to, sig);
      assert op in rest;
      assert exists front: seq<Op> :: q.out == front + rest by {
        if p.out[0].Send? {
          assert q.out == (if alive then [Enqueue(p.out[0].to, p.out[0].sig)]
                           else Bounce(p.out[0].to, p.out[0].sig)) + rest;
        } else {
          assert q.out == [] + rest;
        }
      }
    }
  }

  lemma HandleSurvived(p: Proc, stamp: nat)
    requires LocalOk(p) && Survived(p) && CanOwn(p, Handle)
    ensures Survived(OwnStep(p, Handle, stamp, 0).p)
  {
    var sig := p.box.slot[0];
    var q := OwnStep(p, Handle, stamp, 0).p;
    HandleBook(Received(p), sig, stamp);
    if q.Running() {
      forall k | 0 <= k < |q.box.taken|
        ensures Harmless(q, k)
      {
        if k < |p.box.taken| {
          assert Harmless(p, k);
        } else {
          assert q.box.taken[k] == sig && q.traps[k] == p.trap;
        }
      }
    }
  }

  lemma OwnSurvived(p: Proc, step: Own, clock: nat, ref: Ref)
    requires LocalOk(p) && Survived(p) && CanOwn(p, step)
    ensures Survived(OwnStep(p, step, clock, ref).p)
  {
    if step.Handle? {
      HandleSurvived(p, clock);
    } else {
      OwnKeeps(p, step, clock, ref);
      var q := OwnStep(p, step, clock, ref).p;
      if q.Running() {
        forall k | 0 <= k < |q.box.taken|
          ensures Harmless(q, k)
        {
          assert Harmless(p, k);
        }
      }
    }
  }

  /** The steps that neither handle nor drain leave programs of the loop and the handled signals alone. */
  lemma OwnKeeps(p: Proc, step: Own, clock: nat, ref: Ref)
    requires CanOwn(p, step) && !step.Handle?
    ensures var q := OwnStep(p, step, clock, ref).p;
            && q.id == p.id && q.traps == p.traps && q.box.taken == p.box.taken
            && (q.Running() ==> p.Running())
            && (!step.Drain? ==> q.out == p.out && (q.Told() ==> p.Told() && q.ending == p.ending))
  {
  }

  lemma OwnTold(s: Sys, t: Sys, i: Pid, step: Own)
    requires Cascading(s) && Enabled(s, Local(i, step)) && t == Apply(s, Local(i, step)) && Later(s, t)
    requires ProcFacts(t, t.procs[i])
    ensures LinksTold(t, t.procs[i])
  {
    var p := s.procs[i];
    if step.Drain? {
      DrainTold(t, p, step.order);
    } else if step.Handle? {
      HandleOutcome(p, p.box.slot[0], s.clock);
      assert !t.procs[i].Told() by { HandleShapes(p, p.box.slot[0], s.clock); }
    } else {
      OwnKeeps(p, step, s.clock, |s.refs|);
      assert LinksTold(s, p);
      if t.procs[i].Told() {
        ToldLater(s, t, p, t.procs[i]);
      }
    }
  }

  lemma HandleShapes(p: Proc, sig: Signal, stamp: nat)
    requires p.box.slot != [] && p.Running()
    ensures !HandleSignal(Received(p), sig, stamp).p.Told()
  {
  }

  lemma LocalCascades(s: Sys, i: Pid, step: Own)
    requires Cascading(s) && Enabled(s, Local(i, step))
    ensures Cascading(Apply(s, Local(i, step)))
  {
    var t := Apply(s, Local(i, step));
    OrderedStep(s, Local(i, step));
    StepLater(s, Local(i, step));
    forall j | 0 <= j < |t.procs|
      ensures LinksTold(t, t.procs[j]) && Survived(t.procs[j])
    {
      assert LinksTold(s, s.procs[j]) && Survived(s.procs[j]) && LocalOk(s.procs[j]) && ProcFacts(t, t.procs[j]);
      if i == j {
        OwnTold(s, t, i, step);
        OwnSurvived(s.procs[i], step, s.clock, |s.refs|);
      } else {
        ToldLater(s, t, s.procs[j], t.procs[j]);
      }
    }
  }

  lemma SurvivedSame(p: Proc, q: Proc)
    requires Survived(p) && q.id == p.id && q.traps == p.traps && q.box.taken == p.box.taken
    requires q.Running() ==> p.Running()
    ensures Survived(q)
  {
    if q.Running() && |q.traps| == |q.box.taken| {
      forall k | 0 <= k < |q.box.taken|
        ensures Harmless(q, k)
      {
        assert Harmless(p, k);
      }
    }
  }

  lemma PerformKeeps(s: Sys, i: Pid, side: Side, j: Pid)
    requires WellFormed(s) && i < |s.procs| && Program(s.procs[i], side) != [] && j < |s.procs|
    ensures var p := s.procs[j];
            var q := PerformOp(s, i, side).procs[j];
            && q.id == p.id && q.phase == p.phase && q.ending == p.ending && q.traps == p.traps
            && q.box.taken == p.box.taken
            && q.out == if j == i then Progress(p, side, IsRunning(s, Target(Program(p, side)[0]))).out else p.out
  {
    PerformShape(s, i, side, j);
  }

  lemma PerformCascadesAt(s: Sys, t: Sys, i: Pid, side: Side, j: Pid)
    requires Cascading(s) && i < |s.procs| && Program(s.procs[i], side) != [] && j < |s.procs|
    requires t == PerformOp(s, i, side) && Later(s, t)
    ensures LinksTold(t, t.procs[j]) && Survived(t.procs[j])
  {
    assert LinksTold(s, s.procs[j]) && Survived(s.procs[j]);
    PerformKeeps(s, i, side, j);
    SurvivedSame(s.procs[j], t.procs[j]);
    if j == i {
      ProgressTold(s, t, i, side, t.procs[i]);
    } else {
      ToldLater(s, t, s.procs[j], t.procs[j]);
    }
  }

  lemma PerformAllToldSurvived(s: Sys, i: Pid, side: Side)
    requires Cascading(s) && i < |s.procs| && Program(s.procs[i], side) != []
    ensures AllToldSurvived(PerformOp(s, i, side))
  {
    var t := PerformOp(s, i, side);
    PerformLater(s, i, side);
    forall j | 0 <= j < |t.procs|
      ensures LinksTold(t, t.procs[j]) && Survived(t.procs[j])
    {
      PerformCascadesAt(s, t, i, side, j);
    }
  }

  lemma PerformCascades(s: Sys, i: Pid, side: Side)
    requires Cascading(s) && i < |s.procs| && Program(s.procs[i], side) != []
    ensures Cascading(PerformOp(s, i, side))
  {
    PerformMet(s, i, side);
    PerformAllToldSurvived(s, i, side);
  }

  lemma BirthCascades(s: Sys, a: Action)
    requires Cascading(s) && Enabled(s, a) && !a.Local? && !a.Perform?
    ensures Cascading(Apply(s, a))
  {
    var t := Apply(s, a);
    OrderedStep(s, a);
    StepLater(s, a);
    forall j | 0 <= j < |s.procs|
      ensures LinksTold(t, t.procs[j]) && Survived(t.procs[j])
    {
      assert LinksTold(s, s.procs[j]) && Survived(s.procs[j]);
      ToldLater(s, t, s.procs[j], t.procs[j]);
    }
    assert LinksTold(t, Born(s, a)) && Survived(Born(s, a));
  }

  lemma CascadingStep(s: Sys, a: Action)
    requires Cascading(s) && Enabled(s, a)
    ensures Cascading(Apply(s, a))
  {
    match a
    case Perform(i, side) => PerformCascades(s, i, side);
    case Local(i, step) => LocalCascades(s, i, step);
    case _ => BirthCascades(s, a);
  }

  lemma CascadingInit()
    ensures Cascading(Init())
  {
    OrderedInit();
  }

  // ---------------------------------------------------------------- what it means

  /** An exit signal that was trapped is among the messages for the runnable. */
  lemma {:induction false} TrappedIsDelivered(self: Pid, h: seq<Signal>, traps: seq<bool>, k: nat)
    requires |h| == |traps| && k < |h| && h[k].ExitSig? && traps[k] && (h[k].reason != Kill || h[k].link)
    ensures ExitMsg(h[k].sender, h[k].reason, h[k].link) in Translate(self, h, traps)
  {
    var n := |h| - 1;
    if k < n {
      TrappedIsDelivered(self, h[..n], traps[..n], k);
    }
  }

  /** An exit signal that a running process has handled was trapped, or had the reason Normal. */
  lemma HandledNotice(q: Proc, sig: Signal)
    requires LocalOk(q) && q.Running() && Survived(q) && sig.ExitSig? && sig.link
    requires sig in q.box.accepted && sig !in q.box.queue && sig !in q.box.slot
    ensures ExitMsg(sig.sender, sig.reason, true) in q.mail.accepted || sig.reason == Normal
  {
    assert q.box.accepted == q.box.taken + (q.box.slot + q.box.queue);
    var k :| 0 <= k < |q.box.taken| && q.box.taken[k] == sig;
    assert Harmless(q, k);
    if q.traps[k] {
      TrappedIsDelivered(q.id, q.box.taken, q.traps, k);
    }
  }

  /** A process that goes on running after the exit of a process it was linked to still has the signal before it,
      or trapped it; only the reason Normal can also be ignored. */
  lemma LinkedFate(s: Sys, i: Pid, x: Pid)
    requires Cascading(s) && 0 < i < |s.procs| && s.procs[i].Told() && s.procs[i].out == []
    requires x in s.procs[i].ending.lastLinks && IsRunning(s, x)
    ensures var q := s.procs[x];
            var reason := ExitReason(s.procs[i]);
            var sig := ExitSig(i, x, reason, true);
            || sig in q.box.queue || sig in q.box.slot
            || ExitMsg(i, reason, true) in q.mail.accepted
            || reason == Normal
  {
    var q := s.procs[x];
    var sig := Notice(s.procs[i], x);
    assert LinksTold(s, s.procs[i]) && Notified(s, s.procs[i], x) && LocalOk(q) && Survived(q);
    if sig !in q.box.queue && sig !in q.box.slot {
      HandledNotice(q, sig);
    }
  }

  /** A chain of links along which an exit travelled: every process of it but the last was ended by the next one, which
      had exited before, had it among its final links and told it; and all have the same reason. */
  ghost predicate IsCascade(s: Sys, chain: seq<Pid>) {
    && chain != []
    && (forall k :: 0 <= k < |chain| ==> chain[k] < |s.procs|)
    && (forall k :: 0 <= k < |chain| - 1 ==> InheritedFrom(s, chain[k], chain[k + 1]))
  }

  ghost predicate InheritedFrom(s: Sys, i: Pid, source: Pid)
    requires i < |s.procs| && source < |s.procs|
  {
    var p := s.procs[i];
    && Inherited(s, p) && p.ending.cause == Linked(source)
    && s.procs[source].ending.reason == p.ending.reason
  }

  /** What a chain starts from: a process that ended by itself or was asked to, or one that wanted a link to a process
      that was already dead and was told NoProc. */
  ghost predicate Originator(s: Sys, o: Pid) {
    && o < |s.procs| && !IsRunning(s, o)
    && (s.procs[o].ending.cause.Linked? ==>
          && s.procs[o].ending.reason == Some(NoProc)
          && Knows(s, s.procs[o].ending.cause.source) && !IsRunning(s, s.procs[o].ending.cause.source))
  }

  lemma LongerCascade(s: Sys, i: Pid, rest: seq<Pid>)
    requires IsCascade(s, rest) && i < |s.procs| && InheritedFrom(s, i, rest[0])
    ensures IsCascade(s, [i] + rest)
  {
    var chain := [i] + rest;
    forall k | 0 <= k < |chain| - 1
      ensures InheritedFrom(s, chain[k], chain[k + 1])
    {
      if k > 0 {
        assert InheritedFrom(s, rest[k - 1], rest[k - 1 + 1]);
      }
    }
  }

  /** From every process that a link ended a chain leads to an originator, with the same reason all the way. */
  lemma {:induction false} CascadeChain(s: Sys, i: Pid) returns (chain: seq<Pid>)
    requires Cascading(s) && i < |s.procs| && !IsRunning(s, i)
    ensures IsCascade(s, chain) && chain[0] == i && Originator(s, chain[|chain| - 1])
    decreases s.procs[i].ending.stamp
  {
    var p := s.procs[i];
    assert ProcFacts(s, p);
    if Inherited(s, p) {
      var source := p.ending.cause.source;
      var rest := CascadeChain(s, source);
      chain := [i] + rest;
      LongerCascade(s, i, rest);
      assert chain[|chain| - 1] == rest[|rest| - 1];
    } else {
      chain := [i];
    }
  }

  lemma {:induction false} CascadeReason(s: Sys, chain: seq<Pid>, k: nat)
    requires IsCascade(s, chain) && k < |chain|
    ensures s.procs[chain[k]].ending.reason == s.procs[chain[0]].ending.reason
  {
    if k > 0 {
      CascadeReason(s, chain, k - 1);
      assert InheritedFrom(s, chain[k - 1], chain[k - 1 + 1]);
    }
  }
}
