/** Why a token can be lost. Together with conservation this says when a down message is certain. */
module RuntimeLosses {
  import opened Types
  import opened Sums
  import opened Inboxes
  import opened Runtime
  import opened RuntimeLocal
  import opened RuntimeFacts
  import opened RuntimeOrder
  import opened RuntimeTokens

  /** `at` has accepted some demonitor that comes from `origin`. */
  ghost predicate DemonitoredBy(s: Sys, at: Pid, origin: Pid) {
    at < |s.procs| && exists r: Ref :: DemonitorSig(r, origin) in s.procs[at].box.accepted
  }

  /** Losses carry true information too. */
  ghost predicate GoodLoss(s: Sys, l: Loss) {
    match l
    case LostSignal(at, sig) => GoodSig(s, at, sig)
    case LostEntry(at, e) => GoodEntry(s, at, e)
  }

  /** `at` has accepted the demonitor of just this reference by itself. */
  predicate TookBack(s: Sys, at: Pid, r: Ref) {
    at < |s.procs| && DemonitorSig(r, at) in s.procs[at].box.accepted
  }

  /** The possible causes of a loss. An entry goes only because its own watcher demonitored something at this process
      (the filter drops all entries of a watcher); a down signal because its receiver is dying or took just this
      monitor back; a monitor signal because the inbox was closed between the reading of the status and the
      enqueuing. */
  ghost predicate Justified(s: Sys, l: Loss) {
    GoodLoss(s, l)
    && match l
       case LostEntry(at, e) => DemonitoredBy(s, at, e.pid)
       case LostSignal(at, sig) =>
         && (sig.DownSig? && at != sig.proc ==> !IsRunning(s, at) || TookBack(s, at, sig.ref))
         && (sig.MonitorSig? && at != sig.monitor ==> !IsRunning(s, at))
  }

  ghost predicate AllJustified(s: Sys, ls: seq<Loss>) {
    forall l :: l in ls ==> Justified(s, l)
  }

  ghost predicate Accounted(s: Sys) {
    Ordered(s) && AllJustified(s, s.lost)
  }

  lemma DemonitoredLater(s: Sys, t: Sys, at: Pid, origin: Pid)
    requires Later(s, t) && DemonitoredBy(s, at, origin)
    ensures DemonitoredBy(t, at, origin)
  {
    var r: Ref :| DemonitorSig(r, origin) in s.procs[at].box.accepted;
    assert ProcLater(s.procs[at], t.procs[at]);
    assert DemonitorSig(r, origin) in t.procs[at].box.accepted;
  }

  lemma JustifiedLater(s: Sys, t: Sys, l: Loss)
    requires Later(s, t) && Justified(s, l)
    ensures Justified(t, l)
  {
    match l
    case LostEntry(at, e) => DemonitoredLater(s, t, at, e.pid);
    case LostSignal(at, sig) =>
      GoodSigLater(s, t, at, sig);
      assert ProcLater(s.procs[at], t.procs[at]);
  }

  // ---------------------------------------------------------------- the losses of one step

  lemma {:induction false} FilteredJustified(s: Sys, self: Pid, es: seq<Entry>, ref: Ref, origin: Pid)
    requires self < |s.procs| && DemonitorSig(ref, origin) in s.procs[self].box.accepted && origin != self
    requires GoodSig(s, self, DemonitorSig(ref, origin))
    requires forall e :: e in es ==> GoodEntry(s, self, e)
    ensures AllJustified(s, Filtered(self, es, ref, origin))
  {
    if es != [] {
      FilteredJustified(s, self, es[..|es| - 1], ref, origin);
      assert GoodEntry(s, self, es[|es| - 1]);
      if !Kept(es[|es| - 1], ref, origin) {
        assert es[|es| - 1].pid == origin;
        assert DemonitoredBy(s, self, origin);
      }
    }
  }

  lemma NoteJustified(s: Sys, self: Pid, b: Book, sig: Signal)
    requires self < |s.procs| && BookOk(s, self, b) && GoodSig(s, self, sig) && sig in s.procs[self].box.accepted
    ensures AllJustified(s, Note(self, b, sig).lost)
  {
    if sig.DemonitorSig? && sig.origin != self {
      FilteredJustified(s, self, b.monitors, sig.ref, sig.origin);
    }
  }

  lemma {:induction false} DrainJustified(s: Sys, self: Pid, b: Book, sigs: seq<Signal>)
    requires self < |s.procs| && !IsRunning(s, self) && BookOk(s, self, b) && SigsOk(s, self, sigs)
    requires forall sig :: sig in sigs ==> sig in s.procs[self].box.accepted
    ensures AllJustified(s, DrainAll(self, b, sigs).lost)
  {
    if sigs != [] {
      var front, last := sigs[..|sigs| - 1], sigs[|sigs| - 1];
      DrainJustified(s, self, b, front);
      DrainOk(s, self, b, front);
      NoteJustified(s, self, DrainAll(self, b, front).book, last);
    }
  }

  lemma HandleJustified(s: Sys, i: Pid)
    requires Accounted(s) && i < |s.procs| && CanOwn(s.procs[i], Handle)
    ensures AllJustified(s, HandleSignal(Received(s.procs[i]), s.procs[i].box.slot[0], s.clock).lost)
  {
    var p := s.procs[i];
    var sig := p.box.slot[0];
    assert LocalOk(p) && ProcFacts(s, p);
    QueueIsAccepted(p, sig);
    NoteJustified(s, i, p.book, sig);
    HandleShape(p, sig, s.clock);
    if sig.DownSig? && sig.ref !in p.book.monitoring {
      UnknownIsTakenBack(s, i);
    }
  }

  lemma UnknownIsTakenBack(s: Sys, i: Pid)
    requires Ordered(s) && i < |s.procs| && CanOwn(s.procs[i], Handle) && s.procs[i].box.slot[0].DownSig?
    requires s.procs[i].box.slot[0].ref !in s.procs[i].book.monitoring
    ensures TookBack(s, i, s.procs[i].box.slot[0].ref)
  {
    var p := s.procs[i];
    DownIsExpected(s, i);
    assert LocalOk(p);
    assert p.box.accepted == p.box.taken + (p.box.slot + p.box.queue);
  }

  lemma OwnJustified(s: Sys, i: Pid, step: Own)
    requires Accounted(s) && i < |s.procs| && CanOwn(s.procs[i], step)
    ensures AllJustified(s, OwnStep(s.procs[i], step, s.clock, |s.refs|).lost)
  {
    match step
    case Handle => HandleJustified(s, i);
    case Drain(_) =>
      var p := s.procs[i];
      assert LocalOk(p) && ProcFacts(s, p);
      forall sig | sig in p.box.queue
        ensures sig in p.box.accepted
      {
        QueueIsAccepted(p, sig);
      }
      DrainJustified(s, i, p.book, p.box.queue);
    case _ =>
  }

  lemma OpJustified(s: Sys, i: Pid, side: Side)
    requires Accounted(s) && i < |s.procs| && Program(s.procs[i], side) != []
    ensures AllJustified(s, OpLoss(s, Program(s.procs[i], side)[0]))
  {
    var op := Program(s.procs[i], side)[0];
    assert ProcFacts(s, s.procs[i]) && GoodOp(s, i, op);
    if op.Enqueue? && !Accepts(s, op.to) {
      assert LocalOk(s.procs[op.to]);
    }
  }

  lemma LossesLater(s: Sys, t: Sys, news: seq<Loss>)
    requires Later(s, t) && AllJustified(s, s.lost) && AllJustified(s, news)
    ensures AllJustified(t, s.lost + news)
  {
    forall l | l in s.lost + news
      ensures Justified(t, l)
    {
      JustifiedLater(s, t, l);
    }
  }

  lemma AccountedStep(s: Sys, a: Action)
    requires Accounted(s) && Enabled(s, a)
    ensures Accounted(Apply(s, a))
  {
    OrderedStep(s, a);
    StepLater(s, a);
    match a
    case Perform(i, side) =>
      OpJustified(s, i, side);
      LossesLater(s, Apply(s, a), OpLoss(s, Program(s.procs[i], side)[0]));
    case Local(i, step) =>
      OwnJustified(s, i, step);
      LossesLater(s, Apply(s, a), OwnStep(s.procs[i], step, s.clock, |s.refs|).lost);
    case _ =>
      LossesLater(s, Apply(s, a), []);
      assert s.lost + [] == s.lost;
  }

  lemma AccountedInit()
    ensures Accounted(Init())
  {
    OrderedInit();
  }

  // ---------------------------------------------------------------- when a down message is certain

  /** The monitoring process of `r` is running, has not taken `r` back, and has demonitored nothing at the monitored
      process. */
  ghost predicate Faithful(s: Sys, r: Ref) {
    r < |s.refs|
    && s.refs[r].monitor != s.refs[r].monitored
    && IsRunning(s, s.refs[r].monitor)
    && !TookBack(s, s.refs[r].monitor, r)
    && !DemonitoredBy(s, s.refs[r].monitored, s.refs[r].monitor)
  }

  /** The monitor signal found the inbox of the monitored process closed, after its status was read as RUNNING. */
  ghost predicate Refused(s: Sys, r: Ref) {
    r < |s.refs|
    && LostSignal(s.refs[r].monitored, MonitorSig(r, s.refs[r].monitor, s.refs[r].monitored)) in s.lost
  }

  /** The token of a faithful monitor is lost only by that refusal. */
  lemma FaithfulLoss(s: Sys, r: Ref)
    requires Accounted(s) && Faithful(s, r) && Sum(s.lost, LossToken(r)) > 0
    ensures Refused(s, r)
  {
    SumPositive(s.lost, LossToken(r));
    var k :| 0 <= k < |s.lost| && LossToken(r)(s.lost[k]) > 0;
    var l := s.lost[k];
    assert Justified(s, l) && OfLoss(l, r) == 1;
  }
}
