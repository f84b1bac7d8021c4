/** Facts that never stop being true (`Later`), and what every signal on its way therefore says truly (`GoodSig`):
    a link's exit signal carries the sender's own exit reason, a down signal names a process that is no longer
    running, and so on. */
module RuntimeFacts {
  import opened Types
  import opened Inboxes
  import opened Runtime
  import opened RuntimeLocal

  /** What one process keeps from one state to a later one. */
  ghost predicate ProcLater(p: Proc, q: Proc) {
    && (q.Running() ==> p.Running())
    && (p.Released() ==> q.Released())
    && (p.Told() ==> q.Told() && q.ending.lastLinks == p.ending.lastLinks)
    && (!p.Running() ==> q.ending.reason == p.ending.reason && q.ending.cause == p.ending.cause
                         && q.ending.stamp == p.ending.stamp)
    && p.box.accepted <= q.box.accepted
    && p.box.taken <= q.box.taken
    && p.mail.accepted <= q.mail.accepted
    && p.id == q.id
  }

  /** Time moves forward: processes, references and histories only grow, and nobody comes back to life. */
  ghost predicate Later(s: Sys, t: Sys) {
    && |s.procs| <= |t.procs|
    && s.refs <= t.refs
    && s.clock <= t.clock
    && forall i :: 0 <= i < |s.procs| ==> ProcLater(s.procs[i], t.procs[i])
  }

  predicate HasTold(s: Sys, i: Pid, reason: Reason) {
    i < |s.procs| && s.procs[i].Told() && s.procs[i].ending.reason == Some(reason)
  }

  predicate Knows(s: Sys, i: Pid) {
    i < |s.procs|
  }

  /** `sender` has exited with `reason`, and `receiver` is one of the links that it told. */
  predicate TellsLink(s: Sys, sender: Pid, receiver: Pid, reason: Reason) {
    HasTold(s, sender, reason) && receiver in s.procs[sender].ending.lastLinks
  }

  /** `monitor` drew the reference `r` to monitor `monitored`. */
  predicate Watches(s: Sys, monitor: Pid, r: Ref, monitored: Pid) {
    r < |s.refs| && s.refs[r].monitor == monitor && s.refs[r].monitored == monitored
  }

  /** What holds of a signal that is addressed to, or was accepted by, `at`. */
  ghost predicate GoodSig(s: Sys, at: Pid, sig: Signal) {
    && Knows(s, at)
    && match sig
       case MonitorSig(r, monitor, monitored) =>
         && Knows(s, monitor) && Knows(s, monitored)
         && r < |s.refs| && s.refs[r].monitor == monitor && s.refs[r].monitored == monitored
         && (at != monitor ==> at == monitored && !s.refs[r].spawned)
       case DemonitorSig(r, origin) => Knows(s, origin) && (at != origin ==> Watches(s, origin, r, at))
       case LinkSig(pid) => Knows(s, pid)
       case UnlinkSig(pid) => Knows(s, pid)
       case MessageSig(_) => true
       case DownSig(proc, r, reason) =>
         && Knows(s, proc) && !IsRunning(s, proc)
         && r < |s.refs| && s.refs[r].monitor == at
         && (proc != at ==>
               && s.refs[r].monitored == proc
               && (HasTold(s, proc, reason) || (reason == NoProc && !s.refs[r].spawned)))
       case ExitSig(sender, receiver, reason, link) =>
         && Knows(s, sender) && receiver == at
         && (link ==> !IsRunning(s, sender) && (TellsLink(s, sender, at, reason) || reason == NoProc))
  }

  ghost predicate GoodEntry(s: Sys, self: Pid, e: Entry) {
    && Knows(s, e.pid) && e.pid != self
    && e.ref < |s.refs| && s.refs[e.ref].monitor == e.pid && s.refs[e.ref].monitored == self
  }

  ghost predicate GoodOp(s: Sys, self: Pid, op: Op) {
    match op
    case Send(to, sig) => GoodSig(s, to, sig)
    case Enqueue(to, sig) => GoodSig(s, to, sig)
    case AddMonitor(pid, r) => GoodEntry(s, self, Entry(pid, r))
    case AddLink(pid) => Knows(s, pid)
    case OpenChannel => true
  }

  ghost predicate OpsOk(s: Sys, self: Pid, ops: seq<Op>) {
    forall op :: op in ops ==> GoodOp(s, self, op)
  }

  ghost predicate SigsOk(s: Sys, self: Pid, sigs: seq<Signal>) {
    forall sig :: sig in sigs ==> GoodSig(s, self, sig)
  }

  ghost predicate BookOk(s: Sys, self: Pid, b: Book) {
    && (forall x :: x in b.links ==> Knows(s, x))
    && (forall e :: e in b.monitors ==> GoodEntry(s, self, e))
    && (forall r :: r in b.monitoring ==> Knows(s, b.monitoring[r]) && Watches(s, self, r, b.monitoring[r]))
  }

  /** A down message names another process, which had exited. */
  ghost predicate MsgsOk(s: Sys, self: Pid, ms: seq<Msg>) {
    forall m :: m in ms && m.DownMsg? ==> m.proc != self && GoodSig(s, self, DownSig(m.proc, m.ref, m.reason))
  }

  /** The process ended through a link by the exit of another one, which told it. */
  predicate Inherited(s: Sys, p: Proc) {
    && p.ending.cause.Linked? && p.ending.reason.Some?
    && TellsLink(s, p.ending.cause.source, p.id, p.ending.reason.value)
    && s.procs[p.ending.cause.source].ending.stamp < p.ending.stamp
  }

  /** A process that an exit signal through a link ended was ended by a process that had exited before, and had it
      among its links, with the same reason; the one exception is the answer NoProc of a dead process to a link
      request that came too late. */
  ghost predicate EndingOk(s: Sys, p: Proc) {
    && (p.id != UNDEFINED && !p.Running() ==> p.ending.stamp < s.clock)
    && (p.ending.cause.Linked? ==>
          && Knows(s, p.ending.cause.source) && !IsRunning(s, p.ending.cause.source)
          && (Inherited(s, p) || p.ending.reason == Some(NoProc)))
  }

  ghost predicate ProcFacts(s: Sys, p: Proc) {
    && OpsOk(s, p.id, p.out) && OpsOk(s, p.id, p.api)
    && SigsOk(s, p.id, p.box.accepted)
    && BookOk(s, p.id, p.book)
    && MsgsOk(s, p.id, p.mail.accepted)
    && EndingOk(s, p)
  }

  ghost predicate Facts(s: Sys) {
    && AllLocalOk(s)
    && forall i :: 0 <= i < |s.procs| ==> ProcFacts(s, s.procs[i])
  }

  // ---------------------------------------------------------------- facts stay true

  lemma ToldIsNotRunning(p: Proc)
    requires p.Told()
    ensures !p.Running()
  {
  }

  lemma HasToldLater(s: Sys, t: Sys, i: Pid, reason: Reason)
    requires Later(s, t) && HasTold(s, i, reason)
    ensures HasTold(t, i, reason)
  {
    assert ProcLater(s.procs[i], t.procs[i]);
  }

  lemma TellsLinkLater(s: Sys, t: Sys, sender: Pid, receiver: Pid, reason: Reason)
    requires Later(s, t) && TellsLink(s, sender, receiver, reason)
    ensures TellsLink(t, sender, receiver, reason)
  {
    assert ProcLater(s.procs[sender], t.procs[sender]);
  }

  lemma NotRunningLater(s: Sys, t: Sys, i: Pid)
    requires Later(s, t) && Knows(s, i) && !IsRunning(s, i)
    ensures Knows(t, i) && !IsRunning(t, i)
  {
    assert ProcLater(s.procs[i], t.procs[i]);
  }

  lemma GoodSigLater(s: Sys, t: Sys, at: Pid, sig: Signal)
    requires Later(s, t) && GoodSig(s, at, sig)
    ensures GoodSig(t, at, sig)
  {
    match sig
    case DownSig(proc, r, reason) =>
      NotRunningLater(s, t, proc);
      if HasTold(s, proc, reason) {
        HasToldLater(s, t, proc, reason);
      }
    case ExitSig(sender, _, reason, link) =>
      if link {
        NotRunningLater(s, t, sender);
        if TellsLink(s, sender, at, reason) {
          TellsLinkLater(s, t, sender, at, reason);
        }
      }
    case _ =>
  }

  lemma OpsLater(s: Sys, t: Sys, self: Pid, ops: seq<Op>)
    requires Later(s, t) && OpsOk(s, self, ops)
    ensures OpsOk(t, self, ops)
  {
    forall op | op in ops
      ensures GoodOp(t, self, op)
    {
      assert GoodOp(s, self, op);
      if op.Send? || op.Enqueue? {
        GoodSigLater(s, t, op.to, op.sig);
      }
    }
  }

  lemma SigsLater(s: Sys, t: Sys, self: Pid, sigs: seq<Signal>)
    requires Later(s, t) && SigsOk(s, self, sigs)
    ensures SigsOk(t, self, sigs)
  {
    forall sig | sig in sigs
      ensures GoodSig(t, self, sig)
    {
      GoodSigLater(s, t, self, sig);
    }
  }

  lemma EndingLater(s: Sys, t: Sys, p: Proc)
    requires Later(s, t) && EndingOk(s, p)
    ensures EndingOk(t, p)
  {
    if p.ending.cause.Linked? {
      NotRunningLater(s, t, p.ending.cause.source);
      if Inherited(s, p) {
        TellsLinkLater(s, t, p.ending.cause.source, p.id, p.ending.reason.value);
        ToldIsNotRunning(s.procs[p.ending.cause.source]);
        assert ProcLater(s.procs[p.ending.cause.source], t.procs[p.ending.cause.source]);
      }
    }
  }

  lemma BookLater(s: Sys, t: Sys, self: Pid, b: Book)
    requires Later(s, t) && BookOk(s, self, b)
    ensures BookOk(t, self, b)
  {
  }

  lemma MsgsLater(s: Sys, t: Sys, self: Pid, ms: seq<Msg>)
    requires Later(s, t) && MsgsOk(s, self, ms)
    ensures MsgsOk(t, self, ms)
  {
    forall m | m in ms && m.DownMsg?
      ensures GoodSig(t, self, DownSig(m.proc, m.ref, m.reason))
    {
      GoodSigLater(s, t, self, DownSig(m.proc, m.ref, m.reason));
    }
  }

  lemma FactsLater(s: Sys, t: Sys, p: Proc)
    requires Later(s, t) && ProcFacts(s, p)
    ensures ProcFacts(t, p)
  {
    OpsLater(s, t, p.id, p.out);
    OpsLater(s, t, p.id, p.api);
    SigsLater(s, t, p.id, p.box.accepted);
    BookLater(s, t, p.id, p.book);
    MsgsLater(s, t, p.id, p.mail.accepted);
    EndingLater(s, t, p);
  }

  // ---------------------------------------------------------------- every step moves forward

  lemma HandleLater(p: Proc, stamp: nat)
    requires LocalOk(p) && CanOwn(p, Handle)
    ensures ProcLater(p, OwnStep(p, Handle, stamp, 0).p)
  {
    HandleBook(Received(p), p.box.slot[0], stamp);
    HandleMessages(Received(p), p.box.slot[0], stamp);
  }

  lemma OwnLater(p: Proc, step: Own, clock: nat, ref: Ref)
    requires LocalOk(p) && CanOwn(p, step)
    ensures ProcLater(p, OwnStep(p, step, clock, ref).p)
  {
    match step
    case Handle => HandleLater(p, clock);
    case _ =>
  }

  lemma ProgressLater(p: Proc, side: Side, alive: bool)
    requires LocalOk(p) && Program(p, side) != []
    ensures ProcLater(p, Progress(p, side, alive))
  {
  }

  lemma AcceptLater(p: Proc, sig: Signal)
    requires LocalOk(p)
    ensures ProcLater(p, Accept(p, sig))
  {
  }

  lemma ProcLaterSame(p: Proc)
    ensures ProcLater(p, p)
  {
  }

  lemma SetProcLater(s: Sys, p: Proc)
    requires WellFormed(s) && p.id < |s.procs| && ProcLater(s.procs[p.id], p)
    ensures Later(s, SetProc(s, p))
  {
    forall i | 0 <= i < |s.procs|
      ensures ProcLater(s.procs[i], SetProc(s, p).procs[i])
    {
      ProcLaterSame(s.procs[i]);
    }
  }

  lemma ProcLaterTrans(p: Proc, q: Proc, r: Proc)
    requires ProcLater(p, q) && ProcLater(q, r)
    ensures ProcLater(p, r)
  {
  }

  lemma LaterTrans(s: Sys, t: Sys, u: Sys)
    requires Later(s, t) && Later(t, u)
    ensures Later(s, u)
  {
    forall i | 0 <= i < |s.procs|
      ensures ProcLater(s.procs[i], u.procs[i])
    {
      ProcLaterTrans(s.procs[i], t.procs[i], u.procs[i]);
    }
  }

  lemma PerformLater(s: Sys, i: Pid, side: Side)
    requires AllLocalOk(s) && i < |s.procs| && Program(s.procs[i], side) != []
    ensures Later(s, PerformOp(s, i, side))
  {
    var op := Program(s.procs[i], side)[0];
    var alive := IsRunning(s, Target(op));
    var q := Progress(s.procs[i], side, alive);
    ProgressLater(s.procs[i], side, alive);
    ProgressLocal(s.procs[i], side, alive);
    SetProcLater(s, q);
    var s1 := SetProc(s, q).(lost := s.lost + OpLoss(s, op));
    SetProcLocal(s, q);
    if op.Enqueue? && Accepts(s, op.to) {
      AcceptLater(s1.procs[op.to], op.sig);
      SetProcLater(s1, Accept(s1.procs[op.to], op.sig));
      LaterTrans(s, s1, PerformOp(s, i, side));
    }
  }

  lemma StepLater(s: Sys, a: Action)
    requires AllLocalOk(s) && Enabled(s, a)
    ensures Later(s, Apply(s, a))
  {
    match a
    case Perform(i, side) => PerformLater(s, i, side);
    case Local(i, step) => OwnLater(s.procs[i], step, s.clock, |s.refs|);
    case _ =>
  }

  // ---------------------------------------------------------------- every step keeps the facts

  lemma {:induction false} KeepIn(es: seq<Entry>, ref: Ref, origin: Pid, e: Entry)
    requires e in Keep(es, ref, origin)
    ensures e in es
  {
    if es != [] && e in Keep(es[..|es| - 1], ref, origin) {
      KeepIn(es[..|es| - 1], ref, origin, e);
    }
  }

  lemma {:induction false} RemoveFirstIn(xs: seq<Pid>, x: Pid, y: Pid)
    requires y in RemoveFirst(xs, x)
    ensures y in xs
  {
    if xs[0] != x && y != xs[0] {
      RemoveFirstIn(xs[1..], x, y);
    }
  }

  lemma NoteOk(s: Sys, self: Pid, b: Book, sig: Signal)
    requires BookOk(s, self, b) && GoodSig(s, self, sig)
    ensures BookOk(s, self, Note(self, b, sig).book)
    ensures OpsOk(s, self, Note(self, b, sig).ops)
  {
    match sig
    case DemonitorSig(ref, origin) =>
      forall e | e in Keep(b.monitors, ref, origin)
        ensures e in b.monitors
      {
        KeepIn(b.monitors, ref, origin, e);
      }
    case UnlinkSig(pid) =>
      forall y | y in RemoveFirst(b.links, pid)
        ensures y in b.links
      {
        RemoveFirstIn(b.links, pid, y);
      }
    case _ =>
  }

  lemma {:induction false} DrainOk(s: Sys, self: Pid, b: Book, sigs: seq<Signal>)
    requires BookOk(s, self, b) && SigsOk(s, self, sigs)
    ensures BookOk(s, self, DrainAll(self, b, sigs).book)
    ensures OpsOk(s, self, DrainAll(self, b, sigs).ops)
  {
    if sigs != [] {
      DrainOk(s, self, b, sigs[..|sigs| - 1]);
      NoteOk(s, self, DrainAll(self, b, sigs[..|sigs| - 1]).book, sigs[|sigs| - 1]);
    }
  }

  lemma NoticesOk(s: Sys, self: Pid, b: Book, reason: Reason, order: seq<Ref>)
    requires BookOk(s, self, b) && HasTold(s, self, reason) && s.procs[self].ending.lastLinks == b.links
    requires forall i :: 0 <= i < |order| ==> order[i] in b.monitoring
    ensures OpsOk(s, self, Notices(self, b, reason, order))
  {
    ToldIsNotRunning(s.procs[self]);
    assert OpsOk(s, self, LinkOps(self, b.links, reason));
    forall op | op in DownOps(self, b.monitors, reason)
      ensures GoodOp(s, self, op)
    {
      var k :| 0 <= k < |b.monitors| && op == DownOps(self, b.monitors, reason)[k];
      assert GoodEntry(s, self, b.monitors[k]);
    }
    assert OpsOk(s, self, DemonitorOps(self, b.monitoring, order));
  }

  lemma CallOk(s: Sys, self: Pid, call: Call, ref: Ref)
    requires CallKnows(call, |s.procs|)
    requires call.CallMonitor? ==> ref < |s.refs| && s.refs[ref] == RefInfo(call.self, call.pid, false)
    ensures OpsOk(s, self, CallProgram(call, ref))
  {
  }

  lemma BounceOk(s: Sys, self: Pid, to: Pid, sig: Signal)
    requires GoodSig(s, to, sig) && !IsRunning(s, to)
    ensures OpsOk(s, self, Bounce(to, sig))
  {
  }

  /** Signals still in an inbox were accepted. */
  lemma QueueIsAccepted(p: Proc, sig: Signal)
    requires LocalOk(p) && (sig in p.box.queue || sig in p.box.slot)
    ensures sig in p.box.accepted
  {
    if sig in p.box.queue {
      var k :| 0 <= k < |p.box.queue| && p.box.queue[k] == sig;
      assert p.box.accepted[|p.box.taken + p.box.slot| + k] == sig;
    } else {
      var k :| 0 <= k < |p.box.slot| && p.box.slot[k] == sig;
      assert (p.box.taken + p.box.slot)[|p.box.taken| + k] == sig;
      assert p.box.accepted[|p.box.taken| + k] == sig;
    }
  }

  /** What a handled exit signal leaves as the ending of its receiver. */
  lemma ExitEnding(s: Sys, t: Sys, q: Proc, sig: Signal)
    requires Facts(s) && Later(s, t) && IsRunning(s, q.id) && s.clock < t.clock
    requires GoodSig(s, q.id, sig) && sig.ExitSig?
    requires q.ending.reason == Some(sig.reason) && q.ending.stamp == s.clock
    requires q.ending.cause == if sig.link then Linked(sig.sender) else Asked(sig.sender)
    ensures EndingOk(t, q)
  {
    if sig.link {
      var x := s.procs[sig.sender];
      NotRunningLater(s, t, x.id);
      assert ProcFacts(s, x) && LocalOk(x);
      if TellsLink(s, x.id, q.id, sig.reason) {
        TellsLinkLater(s, t, x.id, q.id, sig.reason);
        assert ProcLater(x, t.procs[x.id]);
      }
    }
  }

  lemma HandleOutcome(p: Proc, sig: Signal, stamp: nat)
    requires p.box.slot != [] && p.Running()
    ensures var q := HandleSignal(Received(p), sig, stamp).p;
            && (q.Running() ==> q.ending == p.ending)
            && (!q.Running() ==>
                  sig.ExitSig?
                  && q.ending == Ending(Some(sig.reason), if sig.link then Linked(sig.sender) else Asked(sig.sender),
                                        stamp, []))
  {
  }

  lemma HandleFacts(s: Sys, t: Sys, i: Pid)
    requires Facts(s) && Enabled(s, Local(i, Handle)) && t == Apply(s, Local(i, Handle)) && Later(s, t)
    requires ProcFacts(t, s.procs[i])
    ensures ProcFacts(t, t.procs[i])
  {
    var p := s.procs[i];
    var sig := p.box.slot[0];
    var q := t.procs[i];
    QueueIsAccepted(p, sig);
    HandleOutcome(p, sig, s.clock);
    if !q.Running() {
      ExitEnding(s, t, q, sig);
    }
    NoteOk(t, i, p.book, sig);
    HandleOut(p, sig, s.clock);
    HandleMessages(Received(p), sig, s.clock);
    assert GoodSig(s, i, sig) && GoodSig(t, i, sig);
    assert OpsOk(t, i, q.out);
    assert MsgsOk(t, i, q.mail.accepted);
  }

  lemma HandleOut(p: Proc, sig: Signal, stamp: nat)
    requires p.box.slot != []
    ensures var q := HandleSignal(Received(p), sig, stamp).p;
            && q.id == p.id && q.api == p.api && q.box.accepted == p.box.accepted
            && q.book == Note(p.id, p.book, sig).book && q.out == p.out + Note(p.id, p.book, sig).ops
  {
  }

  lemma DrainFacts(s: Sys, t: Sys, i: Pid, order: seq<Ref>)
    requires Facts(s) && Enabled(s, Local(i, Drain(order))) && t == Apply(s, Local(i, Drain(order))) && Later(s, t)
    requires ProcFacts(t, s.procs[i])
    ensures ProcFacts(t, t.procs[i])
  {
    var p := s.procs[i];
    forall sig | sig in p.box.queue
      ensures GoodSig(t, i, sig)
    {
      QueueIsAccepted(p, sig);
    }
    DrainOk(t, i, p.book, p.box.queue);
    assert i != UNDEFINED;
    NoticesOk(t, i, Drained(p).book, ExitReason(p), order);
  }

  lemma OwnFacts(s: Sys, t: Sys, i: Pid, step: Own)
    requires Facts(s) && Enabled(s, Local(i, step)) && t == Apply(s, Local(i, step)) && Later(s, t)
    requires ProcFacts(t, s.procs[i])
    ensures ProcFacts(t, t.procs[i])
  {
    match step
    case Begin(call) => CallOk(t, i, call, |s.refs|);
    case Handle => HandleFacts(s, t, i);
    case Drain(order) => DrainFacts(s, t, i, order);
    case _ =>
  }

  lemma ProgressOps(s: Sys, t: Sys, p: Proc, op: Op, alive: bool)
    requires GoodOp(s, p.id, op) && op.Send? && alive == IsRunning(s, op.to) && Later(s, t)
    ensures OpsOk(t, p.id, if alive then [Enqueue(op.to, op.sig)] else Bounce(op.to, op.sig))
  {
    GoodSigLater(s, t, op.to, op.sig);
    if !alive {
      BounceOk(s, p.id, op.to, op.sig);
      OpsLater(s, t, p.id, Bounce(op.to, op.sig));
    }
  }

  lemma ReplaceOps(s: Sys, self: Pid, ops: seq<Op>, news: seq<Op>)
    requires OpsOk(s, self, ops) && OpsOk(s, self, news) && ops != []
    ensures OpsOk(s, self, news + ops[1..]) && OpsOk(s, self, ops[1..]) && GoodOp(s, self, ops[0])
  {
  }

  lemma WithProgramFacts(s: Sys, p: Proc, side: Side, ops: seq<Op>)
    requires ProcFacts(s, p) && OpsOk(s, p.id, ops)
    ensures ProcFacts(s, WithProgram(p, side, ops))
  {
  }

  lemma ProgressFacts(s: Sys, t: Sys, p: Proc, side: Side, alive: bool)
    requires ProcFacts(t, p) && Program(p, side) != []
    requires alive == IsRunning(s, Target(Program(p, side)[0]))
    requires Later(s, t) && OpsOk(s, p.id, Program(p, side))
    ensures ProcFacts(t, Progress(p, side, alive))
  {
    var ops := Program(p, side);
    var op := ops[0];
    ReplaceOps(t, p.id, ops, []);
    if op.Send? {
      ProgressOps(s, t, p, op, alive);
      ReplaceOps(t, p.id, ops, if alive then [Enqueue(op.to, op.sig)] else Bounce(op.to, op.sig));
      WithProgramFacts(t, p, side, (if alive then [Enqueue(op.to, op.sig)] else Bounce(op.to, op.sig)) + ops[1..]);
    } else {
      WithProgramFacts(t, p, side, ops[1..]);
      BookOpFacts(t, p, side, alive);
    }
  }

  /** The set-up operations of `run` only add what the operation itself knows. */
  lemma BookOpFacts(t: Sys, p: Proc, side: Side, alive: bool)
    requires Program(p, side) != [] && !Program(p, side)[0].Send?
    requires OpsOk(t, p.id, Program(p, side)) && ProcFacts(t, WithProgram(p, side, Program(p, side)[1..]))
    ensures ProcFacts(t, Progress(p, side, alive))
  {
    var op := Program(p, side)[0];
    var w := WithProgram(p, side, Program(p, side)[1..]);
    assert op in Program(p, side) && GoodOp(t, p.id, op);
    match op
    case AddMonitor(pid, r) =>
      NewBookFacts(t, w, w.book.(monitors := w.book.monitors + [Entry(pid, r)]));
    case AddLink(pid) => NewBookFacts(t, w, w.book.(links := w.book.links + [pid]));
    case _ =>
  }

  lemma NewBookFacts(t: Sys, p: Proc, b: Book)
    requires ProcFacts(t, p) && BookOk(t, p.id, b)
    ensures ProcFacts(t, p.(book := b))
  {
  }

  lemma AcceptFacts(s: Sys, p: Proc, sig: Signal)
    requires ProcFacts(s, p) && GoodSig(s, p.id, sig)
    ensures ProcFacts(s, Accept(p, sig))
  {
  }

  /** One process changed; the others only have to be seen from the later state. */
  lemma ChangeFacts(s: Sys, t: Sys, q: Proc)
    requires Facts(s) && AllLocalOk(t) && Later(s, t)
    requires q.id < |s.procs| && t.procs == s.procs[q.id := q] && ProcFacts(t, q)
    ensures Facts(t)
  {
    forall j | 0 <= j < |t.procs|
      ensures ProcFacts(t, t.procs[j])
    {
      if j != q.id {
        FactsLater(s, t, s.procs[j]);
      }
    }
  }

  lemma AcceptStep(s: Sys, to: Pid, sig: Signal)
    requires Facts(s) && GoodSig(s, to, sig)
    ensures Facts(SetProc(s, Accept(s.procs[to], sig)))
  {
    var q := Accept(s.procs[to], sig);
    var t := SetProc(s, q);
    AcceptLocal(s.procs[to], sig);
    SetProcLocal(s, q);
    AcceptLater(s.procs[to], sig);
    SetProcLater(s, q);
    GoodSigLater(s, t, to, sig);
    FactsLater(s, t, s.procs[to]);
    AcceptFacts(t, s.procs[to], sig);
    ChangeFacts(s, t, q);
  }

  lemma OwnerStep(s: Sys, i: Pid, side: Side, lost: seq<Loss>)
    requires Facts(s) && i < |s.procs| && Program(s.procs[i], side) != []
    ensures var alive := IsRunning(s, Target(Program(s.procs[i], side)[0]));
            var t := SetProc(s, Progress(s.procs[i], side, alive)).(lost := lost);
            Later(s, t) && Facts(t)
  {
    var alive := IsRunning(s, Target(Program(s.procs[i], side)[0]));
    var q := Progress(s.procs[i], side, alive);
    var t := SetProc(s, q).(lost := lost);
    ProgressLocal(s.procs[i], side, alive);
    SetProcLocal(s, q);
    ProgressLater(s.procs[i], side, alive);
    SetProcLater(s, q);
    FactsLater(s, t, s.procs[i]);
    ProgressFacts(s, t, s.procs[i], side, alive);
    ChangeFacts(s, t, q);
  }

  lemma PerformFacts(s: Sys, i: Pid, side: Side)
    requires Facts(s) && i < |s.procs| && Program(s.procs[i], side) != []
    ensures Facts(PerformOp(s, i, side))
  {
    var op := Program(s.procs[i], side)[0];
    OwnerStep(s, i, side, s.lost + OpLoss(s, op));
    if op.Enqueue? && Accepts(s, op.to) {
      var s1 := SetProc(s, Progress(s.procs[i], side, IsRunning(s, op.to))).(lost := s.lost + OpLoss(s, op));
      assert GoodOp(s, i, op);
      GoodSigLater(s, s1, op.to, op.sig);
      AcceptStep(s1, op.to, op.sig);
    }
  }

  lemma LocalFacts(s: Sys, i: Pid, step: Own)
    requires Facts(s) && Enabled(s, Local(i, step))
    ensures Facts(Apply(s, Local(i, step)))
  {
    var t := Apply(s, Local(i, step));
    LocalStep(s, Local(i, step));
    StepLater(s, Local(i, step));
    FactsLater(s, t, s.procs[i]);
    OwnFacts(s, t, i, step);
    OwnIdentity(s.procs[i], step, s.clock, |s.refs|);
    ChangeFacts(s, t, t.procs[i]);
  }

  lemma BirthOthers(s: Sys, a: Action, j: Pid)
    requires Facts(s) && Enabled(s, a) && !a.Local? && !a.Perform? && j < |s.procs|
    ensures ProcFacts(Apply(s, a), s.procs[j])
  {
    StepLater(s, a);
    FactsLater(s, Apply(s, a), s.procs[j]);
  }

  lemma BirthFacts(s: Sys, a: Action)
    requires Facts(s) && Enabled(s, a) && !a.Local? && !a.Perform?
    ensures Facts(Apply(s, a))
  {
    var t := Apply(s, a);
    LocalStep(s, a);
    forall j | 0 <= j < |s.procs|
      ensures ProcFacts(t, s.procs[j])
    {
      BirthOthers(s, a, j);
    }
    BornFacts(s, a);
    assert t.procs == s.procs + [Born(s, a)];
  }

  lemma BornFacts(s: Sys, a: Action)
    requires Facts(s) && Enabled(s, a) && !a.Local? && !a.Perform?
    ensures ProcFacts(Apply(s, a), Born(s, a))
  {
    var t := Apply(s, a);
    StepLater(s, a);
    assert OpsOk(t, |s.procs|, Born(s, a).out);
  }

  lemma FactsStep(s: Sys, a: Action)
    requires Facts(s) && Enabled(s, a)
    ensures Facts(Apply(s, a))
  {
    match a
    case Perform(i, side) => PerformFacts(s, i, side);
    case Local(i, step) => LocalFacts(s, i, step);
    case _ => BirthFacts(s, a);
  }

  lemma FactsInit()
    ensures Facts(Init())
  {
    LocalInit();
  }
}
