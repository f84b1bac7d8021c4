/** Invariants of one process on its own: its two inboxes keep their order, what its runnable can read is the
    in-order translation of what its loop handled, and its phase agrees with its name, inboxes and sends. */
module RuntimeLocal {
  import opened Types
  import opened Inboxes
  import opened Runtime

  function KnownAfter(self: Pid, before: set<Ref>, sig: Signal): set<Ref> {
    match sig
    case MonitorSig(ref, monitor, _) => if monitor == self then before + {ref} else before
    case DemonitorSig(ref, origin) => if origin == self then before - {ref} else before
    case _ => before
  }

  /** The references a process is monitoring after handling `h`. */
  function Known(self: Pid, h: seq<Signal>): set<Ref> {
    if h == [] then {} else KnownAfter(self, Known(self, h[..|h| - 1]), h[|h| - 1])
  }

  /** The messages that one handled signal makes for the runnable. */
  function MessagesOf(self: Pid, known: set<Ref>, sig: Signal, trap: bool): seq<Msg> {
    match sig
    case MessageSig(term) => [Term(term)]
    case DownSig(proc, ref, reason) => if ref in known then [DownMsg(proc, ref, reason)] else []
    case ExitSig(sender, _, reason, link) =>
      if trap && (reason != Kill || link) then [ExitMsg(sender, reason, link)] else []
    case _ => []
  }

  /** The messages for the runnable, in the order of the signals they come from. */
  function Translate(self: Pid, h: seq<Signal>, traps: seq<bool>): seq<Msg>
    requires |h| == |traps|
  {
    if h == [] then []
    else
      var n := |h| - 1;
      Translate(self, h[..n], traps[..n]) + MessagesOf(self, Known(self, h[..n]), h[n], traps[n])
  }

  /** The inboxes keep their order, and the second one holds the translation of what came through the first. */
  ghost predicate MailOk(p: Proc) {
    && Fifo(p.box) && Fifo(p.mail)
    && |p.traps| == |p.box.taken|
    && p.mail.accepted == Translate(p.id, p.box.taken, p.traps)
    && (!p.Told() ==> p.book.monitoring.Keys == Known(p.id, p.box.taken))
  }

  ghost predicate OnlySends(ops: seq<Op>) {
    forall k :: 0 <= k < |ops| ==> ops[k].Send? || ops[k].Enqueue?
  }

  /** The set-up operations of `run` are the loop's own, and done before anything is handled. */
  ghost predicate ProgramOk(p: Proc) {
    OnlySends(p.api) && (!p.Running() ==> OnlySends(p.out))
  }

  /** What the phase says about the name, the inboxes, the pending sends and the exit reason. */
  ghost predicate PhaseOk(p: Proc) {
    && (p.box.closed <==> p.Told())
    && (p.mail.closed <==> p.phase == Awaiting || p.phase == Done)
    && (p.Released() ==> p.name == "")
    && (p.phase != Looping && p.phase != Notifying ==> p.out == [])
    && (p.id == UNDEFINED ==> p.phase == Done && p.runner == Live && p.mail.slot == [] && p.ending.reason == None)
    && (p.Running() ==> p.ending.reason == None && p.ending.cause == NotExited)
    && (p.id != UNDEFINED && !p.Running() ==> p.ending.reason.Some? && p.ending.cause != NotExited)
    && (p.phase == Notifying || p.phase == Awaiting ==> p.ending.lastLinks == p.book.links)
  }

  ghost predicate LocalOk(p: Proc) {
    MailOk(p) && PhaseOk(p) && ProgramOk(p)
  }

  ghost predicate AllLocalOk(s: Sys) {
    && WellFormed(s)
    && forall i :: 0 <= i < |s.procs| ==> LocalOk(s.procs[i])
  }

  lemma KnownStep(self: Pid, h: seq<Signal>, sig: Signal)
    ensures Known(self, h + [sig]) == KnownAfter(self, Known(self, h), sig)
  {
    assert (h + [sig])[..|h|] == h;
  }

  lemma TranslateStep(self: Pid, h: seq<Signal>, traps: seq<bool>, sig: Signal, trap: bool)
    requires |h| == |traps|
    ensures Translate(self, h + [sig], traps + [trap])
         == Translate(self, h, traps) + MessagesOf(self, Known(self, h), sig, trap)
  {
    assert (h + [sig])[..|h|] == h && (traps + [trap])[..|h|] == traps;
  }

  lemma HandleBook(p: Proc, sig: Signal, stamp: nat)
    ensures HandleSignal(p, sig, stamp).p.book == Note(p.id, p.book, sig).book
    ensures HandleSignal(p, sig, stamp).p.box == p.box && HandleSignal(p, sig, stamp).p.traps == p.traps
    ensures HandleSignal(p, sig, stamp).p.id == p.id
  {
  }

  lemma HandleMessages(p: Proc, sig: Signal, stamp: nat)
    ensures var news := MessagesOf(p.id, p.book.monitoring.Keys, sig, p.trap);
            HandleSignal(p, sig, stamp).p.mail == if news == [] then p.mail else Put(p.mail, news[0])
  {
  }

  lemma HandleMail(p: Proc, stamp: nat)
    requires MailOk(p) && p.Running() && !p.mail.closed && p.box.slot != []
    ensures MailOk(HandleSignal(Received(p), p.box.slot[0], stamp).p)
  {
    var sig := p.box.slot[0];
    var q := Received(p);
    var o := HandleSignal(q, sig, stamp).p;
    HandleBook(q, sig, stamp);
    HandleMessages(q, sig, stamp);
    var known := p.book.monitoring.Keys;
    var news := MessagesOf(p.id, known, sig, p.trap);
    assert Fifo(o.box) && o.box.taken == p.box.taken + [sig] by { TakeFifo(p.box); }
    assert Fifo(o.mail) && o.mail.accepted == p.mail.accepted + news by {
      if news != [] {
        PutFifo(p.mail, news[0]);
      }
    }
    assert o.mail.accepted == Translate(o.id, o.box.taken, o.traps) by {
      TranslateStep(p.id, p.box.taken, p.traps, sig, p.trap);
    }
    assert o.book.monitoring.Keys == Known(o.id, o.box.taken) by {
      KnownStep(p.id, p.box.taken, sig);
    }
  }

  lemma HandlePhase(p: Proc, sig: Signal, stamp: nat)
    requires PhaseOk(p) && p.Running() && p.out == []
    ensures PhaseOk(HandleSignal(p, sig, stamp).p)
  {
  }

  lemma OwnMail(p: Proc, step: Own, clock: nat, ref: Ref)
    requires LocalOk(p) && CanOwn(p, step)
    ensures MailOk(OwnStep(p, step, clock, ref).p)
  {
    match step
    case Handle => HandleMail(p, clock);
    case Feed => FeedFifo(p.box);
    case FeedMail => FeedFifo(p.mail);
    case Read => TakeFifo(p.mail);
    case _ =>
  }

  lemma OwnPhase(p: Proc, step: Own, clock: nat, ref: Ref)
    requires PhaseOk(p) && CanOwn(p, step)
    ensures PhaseOk(OwnStep(p, step, clock, ref).p)
  {
    if step.Handle? {
      HandlePhase(Received(p), p.box.slot[0], clock);
    }
  }

  lemma OwnProgram(p: Proc, step: Own, clock: nat, ref: Ref)
    requires ProgramOk(p) && CanOwn(p, step)
    ensures ProgramOk(OwnStep(p, step, clock, ref).p)
  {
    match step
    case Drain(order) => DrainSends(p.id, p.book, p.box.queue);
    case _ =>
  }

  lemma {:induction false} DrainSends(self: Pid, b: Book, sigs: seq<Signal>)
    ensures OnlySends(DrainAll(self, b, sigs).ops)
  {
    if sigs != [] {
      DrainSends(self, b, sigs[..|sigs| - 1]);
    }
  }

  lemma OwnIdentity(p: Proc, step: Own, clock: nat, ref: Ref)
    requires CanOwn(p, step)
    ensures OwnStep(p, step, clock, ref).p.id == p.id
  {
  }

  lemma SetProcLocal(s: Sys, p: Proc)
    requires AllLocalOk(s) && p.id < |s.procs| && LocalOk(p)
    ensures AllLocalOk(SetProc(s, p))
  {
  }

  lemma ProgressProgram(p: Proc, side: Side, alive: bool)
    requires ProgramOk(p) && Program(p, side) != []
    ensures ProgramOk(Progress(p, side, alive))
  {
    var rest := Program(p, side)[1..];
    assert forall ops: seq<Op> {:trigger OnlySends(ops + rest)} ::
        OnlySends(ops) && OnlySends(Program(p, side)) ==> OnlySends(ops + rest);
    assert OnlySends(Program(p, side)) ==> OnlySends(rest);
  }

  lemma ProgressLocal(p: Proc, side: Side, alive: bool)
    requires LocalOk(p) && Program(p, side) != []
    ensures LocalOk(Progress(p, side, alive))
  {
    ProgressProgram(p, side, alive);
    var q := Progress(p, side, alive);
    var op := Program(p, side)[0];
    if op.AddMonitor? || op.AddLink? || op.OpenChannel? {
      assert p.Running() && q.book.monitoring == p.book.monitoring;
    } else {
      assert q == WithProgram(p, side, Program(q, side));
    }
  }

  lemma AcceptLocal(p: Proc, sig: Signal)
    requires LocalOk(p)
    ensures LocalOk(Accept(p, sig))
  {
    PutFifo(p.box, sig);
  }

  lemma PerformLocal(s: Sys, i: Pid, side: Side)
    requires AllLocalOk(s) && i < |s.procs| && Program(s.procs[i], side) != []
    ensures AllLocalOk(PerformOp(s, i, side))
  {
    var op := Program(s.procs[i], side)[0];
    var q := Progress(s.procs[i], side, IsRunning(s, Target(op)));
    ProgressLocal(s.procs[i], side, IsRunning(s, Target(op)));
    SetProcLocal(s, q);
    if op.Enqueue? && Accepts(s, op.to) {
      var s1 := SetProc(s, q);
      AcceptLocal(s1.procs[op.to], op.sig);
      SetProcLocal(s1, Accept(s1.procs[op.to], op.sig));
    }
  }

  lemma OwnLocal(p: Proc, step: Own, clock: nat, ref: Ref)
    requires LocalOk(p) && CanOwn(p, step)
    ensures LocalOk(OwnStep(p, step, clock, ref).p) && OwnStep(p, step, clock, ref).p.id == p.id
  {
    OwnMail(p, step, clock, ref);
    OwnPhase(p, step, clock, ref);
    OwnProgram(p, step, clock, ref);
    OwnIdentity(p, step, clock, ref);
  }

  lemma BirthLocal(s: Sys, a: Action)
    requires AllLocalOk(s) && Enabled(s, a) && !a.Local? && !a.Perform?
    ensures AllLocalOk(Apply(s, a))
  {
    var p := Born(s, a);
    assert LocalOk(p) && p.id == |s.procs|;
    assert Apply(s, a).procs == s.procs + [p];
  }

  lemma LocalStep(s: Sys, a: Action)
    requires AllLocalOk(s) && Enabled(s, a)
    ensures AllLocalOk(Apply(s, a))
  {
    match a
    case Perform(i, side) => PerformLocal(s, i, side);
    case Local(i, step) =>
      OwnLocal(s.procs[i], step, s.clock, |s.refs|);
      SetProcLocal(s, OwnStep(s.procs[i], step, s.clock, |s.refs|).p);
    case _ => BirthLocal(s, a);
  }

  lemma LocalInit()
    ensures AllLocalOk(Init())
  {
  }
}
