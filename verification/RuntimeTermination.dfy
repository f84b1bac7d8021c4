/** Signal processing comes to an end: without new API calls and spawns, every sequence of steps of the loops, the
    feeders and the readers is finite, through exit cascades, link cycles and forwarded demonitors alike. */
module RuntimeTermination {
  import opened Types
  import opened Sums
  import opened Inboxes
  import opened Runtime
  import opened RuntimeLocal
  import opened RuntimeSafety

  /** Steps that nobody outside asks for. */
  predicate Internal(a: Action) {
    match a
    case Perform(_, _) => true
    case Local(_, step) => !step.Begin? && !step.SetTrap? && !step.Register? && !step.Unregister?
    case _ => false
  }

  // ---------------------------------------------------------------- the measure

  function PhaseRank(ph: Phase): nat {
    match ph
    case Looping => 5
    case Releasing => 4
    case Draining => 3
    case Notifying => 2
    case Awaiting => 1
    case Done => 0
  }

  /** How far a process is from being gone. */
  function Rank(p: Proc): nat {
    PhaseRank(p.phase) + if p.runner == Live then 1 else 0
  }

  /** The work in a signal that waits in a slot. A monitor signal may leave an entry in `monitoring` that a demonitor
      turns into another send; a link signal may be answered. */
  function SigWork(sig: Signal): nat {
    if sig.MonitorSig? || sig.LinkSig? then 5 else 3
  }

  const ENTRY_WORK := 4

  function OpWork(op: Op): nat {
    match op
    case Send(_, sig) => SigWork(sig) + 3
    case Enqueue(_, sig) => SigWork(sig) + 2
    case _ => 1
  }

  function QueueWork(sig: Signal): nat {
    SigWork(sig) + 1
  }

  function MailWork(mail: Box<Msg>): nat {
    2 * |mail.queue| + |mail.slot|
  }

  function BoxWork(b: Box<Signal>): nat {
    Sum(b.queue, QueueWork) + Sum(b.slot, SigWork)
  }

  function Work(p: Proc): nat {
    BoxWork(p.box) + Sum(p.out, OpWork) + Sum(p.api, OpWork) + MailWork(p.mail) + ENTRY_WORK * |p.book.monitoring|
  }

  function TotalRank(s: Sys): nat {
    Sum(s.procs, Rank)
  }

  function TotalWork(s: Sys): nat {
    Sum(s.procs, Work)
  }

  ghost predicate Less(t: Sys, s: Sys) {
    TotalRank(t) < TotalRank(s) || (TotalRank(t) == TotalRank(s) && TotalWork(t) < TotalWork(s))
  }

  // ---------------------------------------------------------------- one process

  lemma MapUpdateSize(m: map<Ref, Pid>, r: Ref, v: Pid)
    ensures |m[r := v]| <= |m| + 1
  {
    assert m[r := v].Keys == m.Keys + {r};
  }

  lemma MapRemoveSize(m: map<Ref, Pid>, r: Ref)
    ensures |m - {r}| == if r in m then |m| - 1 else |m|
  {
    assert (m - {r}).Keys == m.Keys - {r};
  }

  /** Noting a signal costs no more than the signal brought, and one unit less. */
  lemma NoteWork(self: Pid, b: Book, sig: Signal)
    ensures var n := Note(self, b, sig);
            Sum(n.ops, OpWork) + ENTRY_WORK * |n.book.monitoring| < SigWork(sig) + ENTRY_WORK * |b.monitoring|
  {
    match sig
    case MonitorSig(ref, _, monitored) => MapUpdateSize(b.monitoring, ref, monitored);
    case DemonitorSig(ref, origin) =>
      MapRemoveSize(b.monitoring, ref);
      if origin == self && ref in b.monitoring {
        SumOne(Send(b.monitoring[ref], sig), OpWork);
      }
    case _ =>
  }

  lemma HandleMailWork(p: Proc, sig: Signal, stamp: nat)
    ensures var q := HandleSignal(p, sig, stamp).p;
            MailWork(q.mail) <= MailWork(p.mail) + if IsBookkeeping(sig) then 0 else 2
  {
  }

  lemma HandleParts(p: Proc, sig: Signal, stamp: nat)
    requires p.box.slot != []
    ensures var q := HandleSignal(Received(p), sig, stamp).p;
            && q.id == p.id && q.api == p.api && q.box == Take(p.box) && q.runner == p.runner
            && q.book == Note(p.id, p.book, sig).book && q.out == p.out + Note(p.id, p.book, sig).ops
            && (q.phase == p.phase || q.phase == Releasing)
  {
  }

  lemma HandleLess(p: Proc, stamp: nat)
    requires CanOwn(p, Handle) && |p.box.slot| == 1
    ensures var q := OwnStep(p, Handle, stamp, 0).p;
            Rank(q) < Rank(p) || (Rank(q) == Rank(p) && Work(q) < Work(p))
  {
    var sig := p.box.slot[0];
    HandleParts(p, sig, stamp);
    HandleMailWork(Received(p), sig, stamp);
    NoteWork(p.id, p.book, sig);
    SumAppend(p.out, Note(p.id, p.book, sig).ops, OpWork);
    assert p.box.slot == [sig];
    SumOne(sig, SigWork);
  }

  lemma OwnLess(p: Proc, step: Own, clock: nat, ref: Ref)
    requires CanOwn(p, step) && Internal(Local(p.id, step)) && Fifo(p.box)
    ensures var q := OwnStep(p, step, clock, ref).p;
            Rank(q) < Rank(p) || (Rank(q) == Rank(p) && Work(q) < Work(p))
  {
    match step
    case Handle => HandleLess(p, clock);
    case Feed =>
      SumFirst(p.box.queue, QueueWork);
      SumOne(p.box.queue[0], SigWork);
    case _ =>
  }

  lemma BounceWork(to: Pid, sig: Signal)
    ensures Sum(Bounce(to, sig), OpWork) < SigWork(sig) + 3
  {
    if Bounces(sig) {
      SumOne(Bounce(to, sig)[0], OpWork);
    }
  }

  lemma WithProgramWork(p: Proc, side: Side, ops: seq<Op>)
    ensures Rank(WithProgram(p, side, ops)) == Rank(p)
    ensures Work(WithProgram(p, side, ops)) + Sum(Program(p, side), OpWork) == Work(p) + Sum(ops, OpWork)
  {
  }

  lemma SendLess(to: Pid, sig: Signal, alive: bool, rest: seq<Op>)
    ensures Sum((if alive then [Enqueue(to, sig)] else Bounce(to, sig)) + rest, OpWork)
          < SigWork(sig) + 3 + Sum(rest, OpWork)
  {
    BounceWork(to, sig);
    SumOne(Enqueue(to, sig), OpWork);
    SumAppend(if alive then [Enqueue(to, sig)] else Bounce(to, sig), rest, OpWork);
  }

  /** An operation costs its owner at least one unit, and what it enqueues elsewhere is paid for. */
  lemma ProgressLess(p: Proc, side: Side, alive: bool)
    requires Program(p, side) != []
    ensures var op := Program(p, side)[0];
            var q := Progress(p, side, alive);
            Rank(q) == Rank(p) && Work(q) + (if op.Enqueue? then QueueWork(op.sig) else 0) < Work(p)
  {
    var ops := Program(p, side);
    SumFirst(ops, OpWork);
    match ops[0]
    case Send(to, sig) =>
      SendLess(to, sig, alive, ops[1..]);
      WithProgramWork(p, side, (if alive then [Enqueue(to, sig)] else Bounce(to, sig)) + ops[1..]);
    case Enqueue(_, _) => WithProgramWork(p, side, ops[1..]);
    case _ =>
      var q := SetUp(p, ops[0]);
      SetUpWork(p, ops[0]);
      WithProgramWork(q, side, ops[1..]);
  }

  /** The effect of a set-up operation on its process. */
  function SetUp(p: Proc, op: Op): Proc {
    match op
    case AddMonitor(pid, ref) => p.(book := p.book.(monitors := p.book.monitors + [Entry(pid, ref)]))
    case AddLink(pid) => p.(book := p.book.(links := p.book.links + [pid]))
    case OpenChannel => p.(open := true)
    case _ => p
  }

  lemma SetUpWork(p: Proc, op: Op)
    ensures Work(SetUp(p, op)) == Work(p) && Rank(SetUp(p, op)) == Rank(p)
  {
  }

  lemma AcceptWork(p: Proc, sig: Signal)
    ensures Rank(Accept(p, sig)) == Rank(p)
    ensures Work(Accept(p, sig)) <= Work(p) + QueueWork(sig)
  {
    SumSnoc(p.box.queue, sig, QueueWork);
  }

  // ---------------------------------------------------------------- the system

  lemma SetProcMeasure(s: Sys, q: Proc)
    requires WellFormed(s) && q.id < |s.procs|
    ensures TotalRank(SetProc(s, q)) + Rank(s.procs[q.id]) == TotalRank(s) + Rank(q)
    ensures TotalWork(SetProc(s, q)) + Work(s.procs[q.id]) == TotalWork(s) + Work(q)
  {
    SumUpdate(s.procs, q.id, q, Rank);
    SumUpdate(s.procs, q.id, q, Work);
  }

  lemma PerformLess(s: Sys, i: Pid, side: Side)
    requires WellFormed(s) && i < |s.procs| && Program(s.procs[i], side) != []
    ensures Less(PerformOp(s, i, side), s)
  {
    var op := Program(s.procs[i], side)[0];
    var alive := IsRunning(s, Target(op));
    var q := Progress(s.procs[i], side, alive);
    ProgressLess(s.procs[i], side, alive);
    SetProcMeasure(s, q);
    if op.Enqueue? && Accepts(s, op.to) {
      var s1 := SetProc(s, q);
      AcceptWork(s1.procs[op.to], op.sig);
      SetProcMeasure(s1, Accept(s1.procs[op.to], op.sig));
    }
  }

  /** Every internal step makes the measure smaller: first the ranks, then the work. */
  lemma InternalStepDecreases(s: Sys, a: Action)
    requires AllLocalOk(s) && Enabled(s, a) && Internal(a)
    ensures Less(Apply(s, a), s)
  {
    match a
    case Perform(i, side) => PerformLess(s, i, side);
    case Local(i, step) =>
      var q := OwnStep(s.procs[i], step, s.clock, |s.refs|).p;
      OwnLess(s.procs[i], step, s.clock, |s.refs|);
      SumUpdate(s.procs, i, q, Rank);
      SumUpdate(s.procs, i, q, Work);
  }

  ghost predicate InternalStep(s: Sys, a: Action, t: Sys) {
    WellFormed(s) && Enabled(s, a) && Internal(a) && t == Apply(s, a)
  }

  lemma InternalStepGoesOn(s: Sys, a: Action, t: Sys)
    requires Reachable(s) && InternalStep(s, a, t)
    ensures Reachable(t) && Less(t, s)
  {
    ReachableIsSafe(s);
    InternalStepDecreases(s, a);
    ReachableNext(s, a);
  }

  /** A pair of naturals cannot get smaller for ever. */
  lemma DescentStops(rank: nat -> nat, work: nat -> nat, from: nat) returns (n: nat)
    ensures n >= from
    ensures rank(n + 1) > rank(n) || (rank(n + 1) == rank(n) && work(n + 1) >= work(n))
    decreases rank(from), work(from)
  {
    if rank(from + 1) > rank(from) || (rank(from + 1) == rank(from) && work(from + 1) >= work(from)) {
      n := from;
    } else {
      n := DescentStops(rank, work, from + 1);
    }
  }

  lemma {:induction false} InternalRunReaches(states: nat -> Sys, actions: nat -> Action, n: nat)
    requires Reachable(states(0))
    requires forall k: nat :: k < n ==> InternalStep(states(k), actions(k), states(k + 1))
    ensures Reachable(states(n))
  {
    if n > 0 {
      InternalRunReaches(states, actions, n - 1);
      InternalStepGoesOn(states(n - 1), actions(n - 1), states(n));
    }
  }

  /** From a reachable state, no infinite sequence consists of internal steps only. */
  lemma SignalProcessingStops(states: nat -> Sys, actions: nat -> Action)
    requires Reachable(states(0))
    ensures exists n: nat :: !InternalStep(states(n), actions(n), states(n + 1))
  {
    var n := DescentStops(k => TotalRank(states(k)), k => TotalWork(states(k)), 0);
    if forall k: nat :: k < n ==> InternalStep(states(k), actions(k), states(k + 1)) {
      InternalRunReaches(states, actions, n);
      if InternalStep(states(n), actions(n), states(n + 1)) {
        InternalStepGoesOn(states(n), actions(n), states(n + 1));
      }
    }
  }
}
