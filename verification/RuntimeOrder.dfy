/** A down signal never overtakes the monitor signal it answers: the copy of the monitor signal that goes to the
    monitoring process itself is accepted there before anything that can lead to a down signal is under way. */
module RuntimeOrder {
  import opened Types
  import opened Inboxes
  import opened Runtime
  import opened RuntimeLocal
  import opened RuntimeFacts

  /** The copy of the monitor signal that goes to the monitoring process. */
  function Copy(s: Sys, r: Ref): Signal
    requires r < |s.refs|
  {
    MonitorSig(r, s.refs[r].monitor, s.refs[r].monitored)
  }

  /** If the monitoring process of `r` is still running, it has accepted its copy of the monitor signal. */
  ghost predicate Met(s: Sys, r: Ref) {
    && r < |s.refs| && s.refs[r].monitor < |s.procs|
    && (IsRunning(s, s.refs[r].monitor) ==> Copy(s, r) in s.procs[s.refs[r].monitor].box.accepted)
  }

  /** A signal at `at` that leads, or may lead, to a down signal for the reference, or is one. */
  predicate SigLeads(at: Pid, sig: Signal) {
    (sig.MonitorSig? && sig.monitor != at) || sig.DownSig?
  }

  predicate Leads(op: Op) {
    op.AddMonitor? || ((op.Send? || op.Enqueue?) && SigLeads(op.to, op.sig))
  }

  function LeadsTo(op: Op): Ref
    requires Leads(op)
  {
    if op.AddMonitor? then op.ref else op.sig.ref
  }

  predicate SendsCopy(s: Sys, op: Op, r: Ref) {
    r < |s.refs| && (op.Send? || op.Enqueue?) && op.to == s.refs[r].monitor && op.sig == Copy(s, r)
  }

  /** An operation that leads to a down signal is due, or comes right after the one that sends the copy. */
  ghost predicate OpMet(s: Sys, ops: seq<Op>, k: nat)
    requires k < |ops|
  {
    Leads(ops[k]) ==> Met(s, LeadsTo(ops[k])) || (k > 0 && SendsCopy(s, ops[k - 1], LeadsTo(ops[k])))
  }

  ghost predicate ProgramMet(s: Sys, ops: seq<Op>) {
    forall k :: 0 <= k < |ops| ==> OpMet(s, ops, k)
  }

  ghost predicate InboxMet(s: Sys, p: Proc) {
    forall sig :: sig in p.box.accepted && SigLeads(p.id, sig) ==> Met(s, sig.ref)
  }

  ghost predicate EntriesMet(s: Sys, es: seq<Entry>) {
    forall e :: e in es ==> Met(s, e.ref)
  }

  ghost predicate Before(s: Sys, sigs: seq<Signal>, j: nat)
    requires j < |sigs|
  {
    sigs[j].DownSig? ==> sigs[j].ref < |s.refs| && Copy(s, sigs[j].ref) in sigs[..j]
  }

  /** In what a running process has accepted, every down signal comes after its monitor signal. */
  ghost predicate DownsAfter(s: Sys, p: Proc) {
    p.Running() ==> forall j :: 0 <= j < |p.box.accepted| ==> Before(s, p.box.accepted, j)
  }

  ghost predicate ProcMet(s: Sys, p: Proc) {
    && ProgramMet(s, p.out) && ProgramMet(s, p.api)
    && InboxMet(s, p) && EntriesMet(s, p.book.monitors)
    && DownsAfter(s, p)
  }

  ghost predicate Ordered(s: Sys) {
    && Facts(s)
    && forall i :: 0 <= i < |s.procs| ==> ProcMet(s, s.procs[i])
  }

  // ---------------------------------------------------------------- later states

  lemma MetLater(s: Sys, t: Sys, r: Ref)
    requires Later(s, t) && Met(s, r)
    ensures Met(t, r)
  {
    var m := s.refs[r].monitor;
    assert ProcLater(s.procs[m], t.procs[m]);
    assert t.refs[r] == s.refs[r];
  }

  lemma ProgramLater(s: Sys, t: Sys, ops: seq<Op>)
    requires Later(s, t) && ProgramMet(s, ops)
    ensures ProgramMet(t, ops)
  {
    forall k | 0 <= k < |ops|
      ensures OpMet(t, ops, k)
    {
      assert OpMet(s, ops, k);
      if Leads(ops[k]) && Met(s, LeadsTo(ops[k])) {
        MetLater(s, t, LeadsTo(ops[k]));
      }
    }
  }

  lemma InboxLater(s: Sys, t: Sys, p: Proc)
    requires Later(s, t) && InboxMet(s, p)
    ensures InboxMet(t, p)
  {
    forall sig | sig in p.box.accepted && SigLeads(p.id, sig)
      ensures Met(t, sig.ref)
    {
      MetLater(s, t, sig.ref);
    }
  }

  lemma EntriesLater(s: Sys, t: Sys, es: seq<Entry>)
    requires Later(s, t) && EntriesMet(s, es)
    ensures EntriesMet(t, es)
  {
    forall e | e in es
      ensures Met(t, e.ref)
    {
      MetLater(s, t, e.ref);
    }
  }

  lemma DownsLater(s: Sys, t: Sys, p: Proc)
    requires Later(s, t) && DownsAfter(s, p)
    ensures DownsAfter(t, p)
  {
    if p.Running() {
      forall j | 0 <= j < |p.box.accepted|
        ensures Before(t, p.box.accepted, j)
      {
        assert Before(s, p.box.accepted, j);
      }
    }
  }

  lemma ProcMetLater(s: Sys, t: Sys, p: Proc)
    requires Later(s, t) && ProcMet(s, p)
    ensures ProcMet(t, p)
  {
    ProgramLater(s, t, p.out);
    ProgramLater(s, t, p.api);
    InboxLater(s, t, p);
    EntriesLater(s, t, p.book.monitors);
    DownsLater(s, t, p);
  }

  // ---------------------------------------------------------------- one process

  lemma NoteMet(s: Sys, self: Pid, b: Book, sig: Signal)
    requires EntriesMet(s, b.monitors) && (SigLeads(self, sig) ==> Met(s, sig.ref))
    ensures EntriesMet(s, Note(self, b, sig).book.monitors)
  {
    if sig.DemonitorSig? {
      forall e | e in Keep(b.monitors, sig.ref, sig.origin)
        ensures e in b.monitors
      {
        KeepIn(b.monitors, sig.ref, sig.origin, e);
      }
    }
  }

  ghost predicate Quiet(ops: seq<Op>) {
    forall k :: 0 <= k < |ops| ==> !Leads(ops[k])
  }

  lemma NoteQuiet(self: Pid, b: Book, sig: Signal)
    ensures Quiet(Note(self, b, sig).ops)
  {
  }

  lemma {:induction false} DrainMet(s: Sys, self: Pid, b: Book, sigs: seq<Signal>)
    requires EntriesMet(s, b.monitors)
    requires forall sig :: sig in sigs && SigLeads(self, sig) ==> Met(s, sig.ref)
    ensures EntriesMet(s, DrainAll(self, b, sigs).book.monitors)
    ensures Quiet(DrainAll(self, b, sigs).ops)
  {
    if sigs != [] {
      DrainMet(s, self, b, sigs[..|sigs| - 1]);
      NoteMet(s, self, DrainAll(self, b, sigs[..|sigs| - 1]).book, sigs[|sigs| - 1]);
      NoteQuiet(self, DrainAll(self, b, sigs[..|sigs| - 1]).book, sigs[|sigs| - 1]);
    }
  }

  lemma ProgramAppend(s: Sys, a: seq<Op>, b: seq<Op>)
    requires ProgramMet(s, a) && ProgramMet(s, b)
    ensures ProgramMet(s, a + b)
  {
    forall k | 0 <= k < |a + b|
      ensures OpMet(s, a + b, k)
    {
      if k < |a| {
        assert OpMet(s, a, k);
      } else {
        assert OpMet(s, b, k - |a|);
      }
    }
  }

  lemma NoticesMet(s: Sys, self: Pid, b: Book, reason: Reason, order: seq<Ref>)
    requires EntriesMet(s, b.monitors)
    requires forall i :: 0 <= i < |order| ==> order[i] in b.monitoring
    ensures ProgramMet(s, Notices(self, b, reason, order))
  {
    var links, downs := LinkOps(self, b.links, reason), DownOps(self, b.monitors, reason);
    assert forall k :: 0 <= k < |downs| ==> downs[k].sig.ref == b.monitors[k].ref && b.monitors[k] in b.monitors;
    assert ProgramMet(s, links) && ProgramMet(s, downs);
    ProgramAppend(s, links, downs);
    ProgramAppend(s, links + downs, DemonitorOps(self, b.monitoring, order));
  }

  lemma DrainProcMet(s: Sys, p: Proc, order: seq<Ref>)
    requires LocalOk(p) && ProcMet(s, p) && CanOwn(p, Drain(order))
    ensures ProcMet(s, DrainProc(p, order))
  {
    forall sig | sig in p.box.queue && SigLeads(p.id, sig)
      ensures Met(s, sig.ref)
    {
      QueueIsAccepted(p, sig);
    }
    DrainMet(s, p.id, p.book, p.box.queue);
    NoticesMet(s, p.id, Drained(p).book, ExitReason(p), order);
    assert ProgramMet(s, Drained(p).ops);
    ProgramAppend(s, Drained(p).ops, Notices(p.id, Drained(p).book, ExitReason(p), order));
  }

  lemma HandleMet(s: Sys, p: Proc, stamp: nat)
    requires LocalOk(p) && ProcMet(s, p) && CanOwn(p, Handle)
    ensures ProcMet(s, OwnStep(p, Handle, stamp, 0).p)
  {
    var sig := p.box.slot[0];
    var q := OwnStep(p, Handle, stamp, 0).p;
    QueueIsAccepted(p, sig);
    HandleOut(p, sig, stamp);
    NoteMet(s, p.id, p.book, sig);
    NoteQuiet(p.id, p.book, sig);
    assert ProgramMet(s, Note(p.id, p.book, sig).ops);
    ProgramAppend(s, p.out, Note(p.id, p.book, sig).ops);
  }

  lemma CallMet(s: Sys, call: Call, ref: Ref)
    requires call.CallMonitor? ==> ref < |s.refs| && s.refs[ref] == RefInfo(call.self, call.pid, false)
    ensures ProgramMet(s, CallProgram(call, ref))
  {
  }

  lemma OwnMet(s: Sys, p: Proc, step: Own, clock: nat, ref: Ref)
    requires LocalOk(p) && ProcMet(s, p) && CanOwn(p, step)
    requires step.Begin? && step.call.CallMonitor? ==>
               ref < |s.refs| && s.refs[ref] == RefInfo(step.call.self, step.call.pid, false)
    ensures ProcMet(s, OwnStep(p, step, clock, ref).p)
  {
    match step
    case Handle => HandleMet(s, p, clock);
    case Drain(order) => DrainProcMet(s, p, order);
    case Begin(call) => CallMet(s, call, ref);
    case _ =>
  }

  /** What replaces the first operation must be due itself, and a copy must have been delivered if it is gone. */
  lemma ReplaceFirst(s: Sys, ops: seq<Op>, news: seq<Op>)
    requires ops != [] && ProgramMet(s, ops) && ProgramMet(s, news)
    requires forall r: Ref :: SendsCopy(s, ops[0], r) ==> Met(s, r) || (|news| == 1 && SendsCopy(s, news[0], r))
    ensures ProgramMet(s, news + ops[1..])
  {
    var rest := ops[1..];
    var all := news + rest;
    forall k | 0 <= k < |all|
      ensures OpMet(s, all, k)
    {
      if k < |news| {
        assert OpMet(s, news, k);
      } else {
        assert OpMet(s, ops, k - |news| + 1);
      }
    }
  }

  /** The program of an operation that was carried out, seen from the state after it. */
  lemma ProgressProgramMet(s: Sys, t: Sys, ops: seq<Op>, alive: bool)
    requires Later(s, t) && ops != [] && ProgramMet(s, ops)
    requires (ops[0].Send? || ops[0].Enqueue?) ==> GoodSig(s, ops[0].to, ops[0].sig)
    requires alive == IsRunning(s, Target(ops[0]))
    requires ops[0].Enqueue? && IsRunning(s, ops[0].to) ==> ops[0].sig in t.procs[ops[0].to].box.accepted
    ensures ops[0].Send? ==> ProgramMet(t, (if alive then [Enqueue(ops[0].to, ops[0].sig)]
                                             else Bounce(ops[0].to, ops[0].sig)) + ops[1..])
    ensures !ops[0].Send? ==> ProgramMet(t, ops[1..])
  {
    ProgramLater(s, t, ops);
    var op := ops[0];
    assert op.Send? || op.Enqueue? ==> op.to < |s.procs| && ProcLater(s.procs[op.to], t.procs[op.to]);
    if op.Send? {
      var news := if alive then [Enqueue(op.to, op.sig)] else Bounce(op.to, op.sig);
      assert OpMet(t, ops, 0);
      assert ProgramMet(t, news);
      ReplaceFirst(t, ops, news);
    } else {
      ReplaceFirst(t, ops, []);
      assert [] + ops[1..] == ops[1..];
    }
  }

  // ---------------------------------------------------------------- the system

  lemma WithProgramMet(s: Sys, p: Proc, side: Side, ops: seq<Op>)
    requires ProcMet(s, p) && ProgramMet(s, ops)
    ensures ProcMet(s, WithProgram(p, side, ops))
  {
  }

  lemma ProgressMet(s: Sys, t: Sys, p: Proc, side: Side, alive: bool)
    requires Later(s, t) && ProcMet(s, p) && Program(p, side) != []
    requires var op := Program(p, side)[0];
             && (op.Send? || op.Enqueue? ==> GoodSig(s, op.to, op.sig))
             && alive == IsRunning(s, Target(op))
             && (op.Enqueue? && IsRunning(s, op.to) ==> op.sig in t.procs[op.to].box.accepted)
    ensures ProcMet(t, Progress(p, side, alive))
  {
    var ops := Program(p, side);
    ProcMetLater(s, t, p);
    ProgressProgramMet(s, t, ops, alive);
    match ops[0]
    case Send(to, sig) =>
      WithProgramMet(t, p, side, (if alive then [Enqueue(to, sig)] else Bounce(to, sig)) + ops[1..]);
    case Enqueue(_, _) => WithProgramMet(t, p, side, ops[1..]);
    case AddMonitor(pid, ref) =>
      assert OpMet(t, ops, 0);
      var q := p.(book := p.book.(monitors := p.book.monitors + [Entry(pid, ref)]));
      assert EntriesMet(t, q.book.monitors);
      WithProgramMet(t, q, side, ops[1..]);
    case AddLink(pid) => WithProgramMet(t, p.(book := p.book.(links := p.book.links + [pid])), side, ops[1..]);
    case OpenChannel => WithProgramMet(t, p.(open := true), side, ops[1..]);
  }

  lemma AcceptMet(t: Sys, p: Proc, sig: Signal)
    requires ProcMet(t, p) && (SigLeads(p.id, sig) ==> Met(t, sig.ref))
    requires p.Running() && sig.DownSig? ==> sig.ref < |t.refs| && Copy(t, sig.ref) in p.box.accepted
    ensures ProcMet(t, Accept(p, sig))
  {
    var q := Accept(p, sig);
    if p.Running() {
      forall j | 0 <= j < |q.box.accepted|
        ensures Before(t, q.box.accepted, j)
      {
        if j < |p.box.accepted| {
          assert Before(t, p.box.accepted, j);
          assert q.box.accepted[..j] == p.box.accepted[..j];
        } else {
          assert q.box.accepted[..j] == p.box.accepted;
        }
      }
    }
  }

  /** Nothing but an operation of its own, or an arrival, changes a process. */
  lemma PerformShape(s: Sys, i: Pid, side: Side, j: Pid)
    requires WellFormed(s) && i < |s.procs| && Program(s.procs[i], side) != [] && j < |s.procs|
    ensures var op := Program(s.procs[i], side)[0];
            var q := if j == i then Progress(s.procs[i], side, IsRunning(s, Target(op))) else s.procs[j];
            q.id == j && q.box == s.procs[j].box && q.phase == s.procs[j].phase
            && PerformOp(s, i, side).procs[j]
               == if op.Enqueue? && op.to == j && Accepts(s, j) then Accept(q, op.sig) else q
  {
  }

  /** A signal enqueued for a running process arrives. */
  lemma Arrives(s: Sys, i: Pid, side: Side)
    requires AllLocalOk(s) && i < |s.procs| && Program(s.procs[i], side) != [] && Program(s.procs[i], side)[0].Enqueue?
    requires IsRunning(s, Program(s.procs[i], side)[0].to)
    ensures var op := Program(s.procs[i], side)[0];
            op.sig in PerformOp(s, i, side).procs[op.to].box.accepted
  {
    var op := Program(s.procs[i], side)[0];
    PerformShape(s, i, side, op.to);
    assert LocalOk(s.procs[op.to]);
  }

  lemma OwnerMet(s: Sys, t: Sys, i: Pid, side: Side)
    requires Ordered(s) && i < |s.procs| && Program(s.procs[i], side) != []
    requires t == PerformOp(s, i, side) && Later(s, t)
    ensures ProcMet(t, Progress(s.procs[i], side, IsRunning(s, Target(Program(s.procs[i], side)[0]))))
  {
    var op := Program(s.procs[i], side)[0];
    assert ProcFacts(s, s.procs[i]) && GoodOp(s, i, op);
    if op.Enqueue? && IsRunning(s, op.to) {
      Arrives(s, i, side);
    }
    ProgressMet(s, t, s.procs[i], side, IsRunning(s, Target(op)));
  }

  lemma PerformMetAt(s: Sys, t: Sys, i: Pid, side: Side, j: Pid)
    requires Ordered(s) && i < |s.procs| && Program(s.procs[i], side) != [] && j < |s.procs|
    requires t == PerformOp(s, i, side) && Later(s, t)
    ensures ProcMet(t, t.procs[j])
  {
    var op := Program(s.procs[i], side)[0];
    PerformShape(s, i, side, j);
    ProcMetLater(s, t, s.procs[j]);
    if j == i {
      OwnerMet(s, t, i, side);
    }
    if op.Enqueue? && op.to == j && Accepts(s, j) {
      assert ProcFacts(s, s.procs[i]) && GoodOp(s, i, op) && OpMet(s, Program(s.procs[i], side), 0);
      if SigLeads(j, op.sig) {
        MetLater(s, t, op.sig.ref);
      }
      AcceptMet(t, if j == i then Progress(s.procs[i], side, IsRunning(s, op.to)) else s.procs[j], op.sig);
    }
  }

  lemma PerformMetAll(s: Sys, t: Sys, i: Pid, side: Side)
    requires Ordered(s) && i < |s.procs| && Program(s.procs[i], side) != []
    requires t == PerformOp(s, i, side) && Later(s, t)
    ensures forall j :: 0 <= j < |t.procs| ==> ProcMet(t, t.procs[j])
  {
    forall j | 0 <= j < |t.procs|
      ensures ProcMet(t, t.procs[j])
    {
      PerformMetAt(s, t, i, side, j);
    }
  }

  lemma PerformMet(s: Sys, i: Pid, side: Side)
    requires Ordered(s) && i < |s.procs| && Program(s.procs[i], side) != []
    ensures Ordered(PerformOp(s, i, side))
  {
    PerformFacts(s, i, side);
    PerformLater(s, i, side);
    PerformMetAll(s, PerformOp(s, i, side), i, side);
  }

  lemma BirthMet(s: Sys, a: Action)
    requires Ordered(s) && Enabled(s, a) && !a.Local? && !a.Perform?
    ensures Ordered(Apply(s, a))
  {
    var t := Apply(s, a);
    FactsStep(s, a);
    OldMet(s, a);
    BornMet(s, a);
  }

  /** The processes that were there before a birth. */
  lemma OldMet(s: Sys, a: Action)
    requires Ordered(s) && Enabled(s, a) && !a.Local? && !a.Perform?
    ensures forall j :: 0 <= j < |s.procs| ==> ProcMet(Apply(s, a), Apply(s, a).procs[j])
  {
    var t := Apply(s, a);
    StepLater(s, a);
    forall j | 0 <= j < |s.procs|
      ensures ProcMet(t, t.procs[j])
    {
      assert t.procs[j] == s.procs[j];
      ProcMetLater(s, t, s.procs[j]);
    }
  }

  lemma BornMet(s: Sys, a: Action)
    requires Ordered(s) && Enabled(s, a) && !a.Local? && !a.Perform?
    ensures ProcMet(Apply(s, a), Born(s, a))
  {
    var t := Apply(s, a);
    var out := Born(s, a).out;
    if a.SpawnMonitor? {
      assert SendsCopy(t, out[0], |s.refs|) && LeadsTo(out[1]) == |s.refs|;
    }
    assert ProgramMet(t, out);
  }

  lemma LocalMet(s: Sys, i: Pid, step: Own)
    requires Ordered(s) && Enabled(s, Local(i, step))
    ensures Ordered(Apply(s, Local(i, step)))
  {
    var t := Apply(s, Local(i, step));
    FactsStep(s, Local(i, step));
    StepLater(s, Local(i, step));
    forall j | 0 <= j < |s.procs|
      ensures ProcMet(t, t.procs[j])
    {
      ProcMetLater(s, t, s.procs[j]);
      if i == j {
        OwnMet(t, s.procs[i], step, s.clock, |s.refs|);
      }
    }
  }

  lemma OrderedStep(s: Sys, a: Action)
    requires Ordered(s) && Enabled(s, a)
    ensures Ordered(Apply(s, a))
  {
    match a
    case Perform(i, side) => PerformMet(s, i, side);
    case Local(i, step) => LocalMet(s, i, step);
    case _ => BirthMet(s, a);
  }

  lemma OrderedInit()
    ensures Ordered(Init())
  {
    FactsInit();
  }

  // ---------------------------------------------------------------- what the order means

  /** A monitor of one's own that was handled and not taken back is known. */
  lemma {:induction false} HandledIsKnown(self: Pid, h: seq<Signal>, r: Ref, monitored: Pid)
    requires MonitorSig(r, self, monitored) in h && DemonitorSig(r, self) !in h
    ensures r in Known(self, h)
  {
    var n := |h| - 1;
    if MonitorSig(r, self, monitored) in h[..n] {
      HandledIsKnown(self, h[..n], r, monitored);
      assert h[n] in h;
    }
  }

  /** A down signal that reaches a running process matches a reference it is monitoring, unless the process took
      the monitor back before: the log line "could not match Ref" has no other cause. */
  lemma DownIsExpected(s: Sys, i: Pid)
    requires Ordered(s) && IsRunning(s, i) && s.procs[i].box.slot != [] && s.procs[i].box.slot[0].DownSig?
    ensures var p := s.procs[i];
            var r := p.box.slot[0].ref;
            r in p.book.monitoring || DemonitorSig(r, i) in p.box.taken
  {
    var p := s.procs[i];
    var sig := p.box.slot[0];
    var k := |p.box.taken|;
    assert LocalOk(p) && ProcMet(s, p) && ProcFacts(s, p);
    assert p.box.accepted[k] == sig && p.box.accepted[..k] == p.box.taken;
    assert GoodSig(s, i, sig) && Before(s, p.box.accepted, k);
    if DemonitorSig(sig.ref, i) !in p.box.taken {
      HandledIsKnown(i, p.box.taken, sig.ref, s.refs[sig.ref].monitored);
    }
  }
}
