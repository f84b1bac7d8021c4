/** The token of a monitor reference. It starts as the monitor signal on its way to the monitored process, becomes
    an entry there, then a down signal, then a message to the runnable; or it is recorded as lost. There is exactly
    one token for every reference, in every reachable state: none is ever duplicated and none vanishes. */
module RuntimeTokens {
  import opened Types
  import opened Sums
  import opened Inboxes
  import opened Runtime
  import opened RuntimeLocal

  /** Whether a signal at (or addressed to) `at` carries the token of `r`. The copy of a monitor signal that goes
      to the monitoring process itself does not, nor does an answer of a process to itself. */
  function OfSig(at: Pid, sig: Signal, r: Ref): nat {
    match sig
    case MonitorSig(x, monitor, _) => if x == r && at != monitor then 1 else 0
    case DownSig(proc, x, _) => if x == r && at != proc then 1 else 0
    case _ => 0
  }

  function OfEntry(self: Pid, e: Entry, r: Ref): nat {
    if e.ref == r && e.pid != self then 1 else 0
  }

  function OfOp(self: Pid, op: Op, r: Ref): nat {
    match op
    case Send(to, sig) => OfSig(to, sig, r)
    case Enqueue(to, sig) => OfSig(to, sig, r)
    case AddMonitor(pid, x) => OfEntry(self, Entry(pid, x), r)
    case _ => 0
  }

  function OfMsg(self: Pid, m: Msg, r: Ref): nat {
    if m.DownMsg? && m.ref == r && m.proc != self then 1 else 0
  }

  function OfLoss(l: Loss, r: Ref): nat {
    match l
    case LostSignal(at, sig) => OfSig(at, sig, r)
    case LostEntry(at, e) => OfEntry(at, e, r)
  }

  function SigToken(at: Pid, r: Ref): Signal -> nat {
    sig => OfSig(at, sig, r)
  }

  function EntryToken(self: Pid, r: Ref): Entry -> nat {
    e => OfEntry(self, e, r)
  }

  function OpToken(self: Pid, r: Ref): Op -> nat {
    op => OfOp(self, op, r)
  }

  function MsgToken(self: Pid, r: Ref): Msg -> nat {
    m => OfMsg(self, m, r)
  }

  function LossToken(r: Ref): Loss -> nat {
    l => OfLoss(l, r)
  }

  function InboxTokens(p: Proc, r: Ref): nat {
    Sum(p.box.slot, SigToken(p.id, r)) + if p.Told() then 0 else Sum(p.box.queue, SigToken(p.id, r))
  }

  function EntryTokens(p: Proc, r: Ref): nat {
    if p.Told() then 0 else Sum(p.book.monitors, EntryToken(p.id, r))
  }

  function ProgramTokens(p: Proc, r: Ref): nat {
    Sum(p.out, OpToken(p.id, r)) + Sum(p.api, OpToken(p.id, r))
  }

  /** Down messages that were handed to the runnable, read or not. */
  function MessageTokens(p: Proc, r: Ref): nat {
    Sum(p.mail.accepted, MsgToken(p.id, r))
  }

  function OfProc(p: Proc, r: Ref): nat {
    InboxTokens(p, r) + EntryTokens(p, r) + ProgramTokens(p, r) + MessageTokens(p, r)
  }

  function ProcTokens(r: Ref): Proc -> nat {
    p => OfProc(p, r)
  }

  function Tokens(s: Sys, r: Ref): nat {
    Sum(s.procs, ProcTokens(r)) + Sum(s.lost, LossToken(r))
  }

  /** The token that a drawn reference stands for; a process that monitors itself has none. */
  function Drawn(refs: seq<RefInfo>, r: Ref): nat {
    if r < |refs| && refs[r].monitor != refs[r].monitored then 1 else 0
  }

  ghost predicate Conserved(s: Sys) {
    && AllLocalOk(s)
    && forall r: Ref :: Tokens(s, r) == Drawn(s.refs, r)
  }

  // ---------------------------------------------------------------- bookkeeping

  lemma {:induction false} FilterTokens(self: Pid, es: seq<Entry>, ref: Ref, origin: Pid, r: Ref)
    ensures Sum(es, EntryToken(self, r))
         == Sum(Keep(es, ref, origin), EntryToken(self, r)) + Sum(Filtered(self, es, ref, origin), LossToken(r))
  {
    if es != [] {
      var n := |es| - 1;
      FilterTokens(self, es[..n], ref, origin, r);
      FilterLast(self, es[n], Keep(es[..n], ref, origin), Filtered(self, es[..n], ref, origin), ref, origin, r);
      assert Sum(es, EntryToken(self, r)) == Sum(es[..n], EntryToken(self, r)) + OfEntry(self, es[n], r);
    }
  }

  lemma FilterLast(self: Pid, e: Entry, keep: seq<Entry>, out: seq<Loss>, ref: Ref, origin: Pid, r: Ref)
    ensures Sum(keep + if Kept(e, ref, origin) then [e] else [], EntryToken(self, r))
            + Sum(out + if Kept(e, ref, origin) then [] else [LostEntry(self, e)], LossToken(r))
         == Sum(keep, EntryToken(self, r)) + Sum(out, LossToken(r)) + OfEntry(self, e, r)
  {
    if Kept(e, ref, origin) {
      SumSnoc(keep, e, EntryToken(self, r));
      assert out + [] == out;
    } else {
      SumSnoc(out, LostEntry(self, e), LossToken(r));
      assert keep + [] == keep;
    }
  }

  /** A signal hands its token on: to an entry, or to the losses. */
  lemma NoteTokens(self: Pid, b: Book, sig: Signal, r: Ref)
    ensures var n := Note(self, b, sig);
            Sum(n.book.monitors, EntryToken(self, r)) + Sum(n.lost, LossToken(r))
            == Sum(b.monitors, EntryToken(self, r)) + if IsBookkeeping(sig) then OfSig(self, sig, r) else 0
    ensures Sum(Note(self, b, sig).ops, OpToken(self, r)) == 0
  {
    match sig
    case MonitorSig(ref, monitor, _) =>
      SumAppend(b.monitors, [Entry(monitor, ref)], EntryToken(self, r));
      SumOne(Entry(monitor, ref), EntryToken(self, r));
    case DemonitorSig(ref, origin) => FilterTokens(self, b.monitors, ref, origin, r);
    case _ =>
  }

  lemma {:induction false} DrainTokens(self: Pid, b: Book, sigs: seq<Signal>, r: Ref)
    ensures var n := DrainAll(self, b, sigs);
            Sum(n.book.monitors, EntryToken(self, r)) + Sum(n.lost, LossToken(r))
            == Sum(b.monitors, EntryToken(self, r)) + Sum(sigs, SigToken(self, r))
    ensures Sum(DrainAll(self, b, sigs).ops, OpToken(self, r)) == 0
  {
    if sigs != [] {
      var last := sigs[|sigs| - 1];
      var before := DrainAll(self, b, sigs[..|sigs| - 1]);
      var n := Note(self, before.book, last);
      var ignored := if IsBookkeeping(last) then [] else [LostSignal(self, last)];
      DrainTokens(self, b, sigs[..|sigs| - 1], r);
      NoteTokens(self, before.book, last, r);
      SumAppend(before.ops, n.ops, OpToken(self, r));
      SumAppend(before.lost + n.lost, ignored, LossToken(r));
      SumAppend(before.lost, n.lost, LossToken(r));
      SumOne(LostSignal(self, last), LossToken(r));
    }
  }

  /** Every entry becomes one down signal. */
  lemma NoticeTokens(self: Pid, b: Book, reason: Reason, order: seq<Ref>, r: Ref)
    requires forall i :: 0 <= i < |order| ==> order[i] in b.monitoring
    ensures Sum(Notices(self, b, reason, order), OpToken(self, r)) == Sum(b.monitors, EntryToken(self, r))
  {
    var links, downs := LinkOps(self, b.links, reason), DownOps(self, b.monitors, reason);
    var demonitors := DemonitorOps(self, b.monitoring, order);
    SumAppend(links + downs, demonitors, OpToken(self, r));
    SumAppend(links, downs, OpToken(self, r));
    NoTokens(self, links, r);
    NoTokens(self, demonitors, r);
    SumSame(b.monitors, downs, EntryToken(self, r), OpToken(self, r));
  }

  lemma NoTokens(self: Pid, ops: seq<Op>, r: Ref)
    requires forall k :: 0 <= k < |ops| ==> ops[k].Send? && !ops[k].sig.MonitorSig? && !ops[k].sig.DownSig?
    ensures Sum(ops, OpToken(self, r)) == 0
  {
    SumZero(ops, OpToken(self, r));
  }

  lemma CallTokens(self: Pid, call: Call, ref: Ref, r: Ref)
    ensures Sum(CallProgram(call, ref), OpToken(self, r))
         == if call.CallMonitor? && call.self != call.pid && ref == r then 1 else 0
  {
    var ops := CallProgram(call, ref);
    SumFirst(ops, OpToken(self, r));
    SumOne(ops[0], OpToken(self, r));
    if |ops| == 2 {
      assert ops[1..] == [ops[1]];
      SumOne(ops[1], OpToken(self, r));
    } else {
      assert ops[1..] == [];
    }
  }

  // ---------------------------------------------------------------- one process

  /** How handling one signal moves its token. */
  lemma HandleTokens(p: Proc, stamp: nat, r: Ref)
    requires LocalOk(p) && CanOwn(p, Handle)
    ensures var o := HandleSignal(Received(p), p.box.slot[0], stamp);
            OfProc(o.p, r) + Sum(o.lost, LossToken(r)) == OfProc(p, r)
  {
    var sig := p.box.slot[0];
    var o := HandleSignal(Received(p), sig, stamp);
    var n := Note(p.id, p.book, sig);
    HandleShape(p, sig, stamp);
    NoteTokens(p.id, p.book, sig, r);
    assert InboxTokens(p, r) == InboxTokens(o.p, r) + OfSig(p.id, sig, r) by {
      assert p.box.slot == [sig];
      SumOne(sig, SigToken(p.id, r));
    }
    assert ProgramTokens(o.p, r) == ProgramTokens(p, r) by {
      SumAppend(p.out, n.ops, OpToken(p.id, r));
    }
    HandleMessageTokens(p, sig, stamp, r);
  }

  /** The token in the messages that a signal makes: that of a down signal with a known reference. */
  lemma NewsTokens(self: Pid, accepted: seq<Msg>, known: set<Ref>, sig: Signal, trap: bool, r: Ref)
    ensures Sum(accepted + MessagesOf(self, known, sig, trap), MsgToken(self, r))
         == Sum(accepted, MsgToken(self, r)) + if sig.DownSig? && sig.ref in known then OfSig(self, sig, r) else 0
  {
    var news := MessagesOf(self, known, sig, trap);
    if news == [] {
      assert accepted + [] == accepted;
    } else {
      SumSnoc(accepted, news[0], MsgToken(self, r));
    }
  }

  lemma HandleAccepted(p: Proc, sig: Signal, stamp: nat)
    requires LocalOk(p) && p.Running() && p.box.slot != []
    ensures HandleSignal(Received(p), sig, stamp).p.mail.accepted
         == p.mail.accepted + MessagesOf(p.id, p.book.monitoring.Keys, sig, p.trap)
  {
    HandleMessages(Received(p), sig, stamp);
  }

  lemma HandleMessageTokens(p: Proc, sig: Signal, stamp: nat, r: Ref)
    requires LocalOk(p) && p.Running() && p.box.slot != []
    ensures var o := HandleSignal(Received(p), sig, stamp);
            MessageTokens(o.p, r) + Sum(o.lost, LossToken(r))
            == MessageTokens(p, r) + Sum(Note(p.id, p.book, sig).lost, LossToken(r))
               + if IsBookkeeping(sig) then 0 else OfSig(p.id, sig, r)
  {
    HandleShape(p, sig, stamp);
    HandleAccepted(p, sig, stamp);
    NewsTokens(p.id, p.mail.accepted, p.book.monitoring.Keys, sig, p.trap, r);
    if sig.DownSig? && sig.ref !in p.book.monitoring {
      SumOne(LostSignal(p.id, sig), LossToken(r));
    }
  }

  /** The parts of a process that handling a signal can change. */
  lemma HandleShape(p: Proc, sig: Signal, stamp: nat)
    requires p.box.slot != [] && p.Running()
    ensures var o := HandleSignal(Received(p), sig, stamp);
            var n := Note(p.id, p.book, sig);
            && o.p.id == p.id && o.p.api == p.api && o.p.box == Take(p.box) && !o.p.Told()
            && o.p.book == n.book && o.p.out == p.out + n.ops
            && o.lost == if sig.DownSig? && sig.ref !in p.book.monitoring then [LostSignal(p.id, sig)] else n.lost
  {
  }

  lemma DrainProcTokens(p: Proc, order: seq<Ref>, r: Ref)
    requires LocalOk(p) && CanOwn(p, Drain(order))
    ensures OfProc(DrainProc(p, order), r) + Sum(Drained(p).lost, LossToken(r)) == OfProc(p, r)
  {
    DrainTokens(p.id, p.book, p.box.queue, r);
    NoticeTokens(p.id, Drained(p).book, ExitReason(p), order, r);
    SumAppend(Drained(p).ops, Notices(p.id, Drained(p).book, ExitReason(p), order), OpToken(p.id, r));
  }

  lemma OwnTokens(p: Proc, step: Own, clock: nat, ref: Ref, r: Ref)
    requires LocalOk(p) && CanOwn(p, step)
    ensures var o := OwnStep(p, step, clock, ref);
            OfProc(o.p, r) + Sum(o.lost, LossToken(r))
            == OfProc(p, r) + if step.Begin? then Sum(CallProgram(step.call, ref), OpToken(p.id, r)) else 0
  {
    if step.Handle? {
      HandleTokens(p, clock, r);
    } else if step.Drain? {
      DrainProcTokens(p, step.order, r);
    } else if step.Feed? {
      FeedTokens(p, r);
    } else if step.Begin? {
      BeginTokens(p, step, clock, ref, r);
    } else if step.Finish? || step.CloseMail? || step.FeedMail? || step.Read? {
      EndTokens(p, step, clock, ref, r);
    } else {
      QuietTokens(p, step, clock, ref, r);
    }
  }

  lemma BeginTokens(p: Proc, step: Own, clock: nat, ref: Ref, r: Ref)
    requires LocalOk(p) && CanOwn(p, step) && step.Begin?
    ensures var o := OwnStep(p, step, clock, ref);
            OfProc(o.p, r) + Sum(o.lost, LossToken(r))
            == OfProc(p, r) + Sum(CallProgram(step.call, ref), OpToken(p.id, r))
  {
  }

  lemma EndTokens(p: Proc, step: Own, clock: nat, ref: Ref, r: Ref)
    requires LocalOk(p) && CanOwn(p, step) && (step.Finish? || step.CloseMail? || step.FeedMail? || step.Read?)
    ensures var o := OwnStep(p, step, clock, ref);
            OfProc(o.p, r) + Sum(o.lost, LossToken(r)) == OfProc(p, r)
  {
  }

  lemma QuietTokens(p: Proc, step: Own, clock: nat, ref: Ref, r: Ref)
    requires LocalOk(p) && CanOwn(p, step)
    requires step.SetTrap? || step.Register? || step.Unregister? || step.Return? || step.SeeDone? || step.Release?
    ensures var o := OwnStep(p, step, clock, ref);
            OfProc(o.p, r) + Sum(o.lost, LossToken(r)) == OfProc(p, r)
  {
  }

  lemma FeedTokens(p: Proc, r: Ref)
    requires LocalOk(p) && CanOwn(p, Feed)
    ensures OfProc(p.(box := Advance(p.box)), r) == OfProc(p, r)
  {
    SumFirst(p.box.queue, SigToken(p.id, r));
    SumOne(p.box.queue[0], SigToken(p.id, r));
  }

  lemma BounceTokens(self: Pid, to: Pid, sig: Signal, r: Ref)
    ensures Sum(Bounce(to, sig), OpToken(self, r)) == if Bounces(sig) then OfSig(to, sig, r) else 0
  {
    if Bounces(sig) {
      SumOne(Bounce(to, sig)[0], OpToken(self, r));
    }
  }

  /** The token that the first operation of a program takes out of its process. */
  function Carried(p: Proc, op: Op, alive: bool, r: Ref): nat {
    match op
    case Send(to, sig) => if alive || Bounces(sig) then 0 else OfSig(to, sig, r)
    case Enqueue(to, sig) => OfSig(to, sig, r)
    case _ => 0
  }

  lemma ProgressProgramTokens(p: Proc, ops: seq<Op>, alive: bool, r: Ref)
    requires ops != [] && ops[0].Send?
    ensures Sum((if alive then [Enqueue(ops[0].to, ops[0].sig)] else Bounce(ops[0].to, ops[0].sig)) + ops[1..],
                OpToken(p.id, r)) + Carried(p, ops[0], alive, r) == Sum(ops, OpToken(p.id, r))
  {
    var news := if alive then [Enqueue(ops[0].to, ops[0].sig)] else Bounce(ops[0].to, ops[0].sig);
    SumFirst(ops, OpToken(p.id, r));
    SumAppend(news, ops[1..], OpToken(p.id, r));
    SumOne(Enqueue(ops[0].to, ops[0].sig), OpToken(p.id, r));
    BounceTokens(p.id, ops[0].to, ops[0].sig, r);
  }

  lemma WithProgramTokens(p: Proc, side: Side, ops: seq<Op>, r: Ref)
    ensures OfProc(WithProgram(p, side, ops), r) + Sum(Program(p, side), OpToken(p.id, r))
         == OfProc(p, r) + Sum(ops, OpToken(p.id, r))
  {
  }

  lemma AddMonitorTokens(p: Proc, e: Entry, r: Ref)
    requires !p.Told()
    ensures OfProc(p.(book := p.book.(monitors := p.book.monitors + [e])), r) == OfProc(p, r) + OfEntry(p.id, e, r)
  {
    SumSnoc(p.book.monitors, e, EntryToken(p.id, r));
  }

  lemma ProgressTokens(p: Proc, side: Side, alive: bool, r: Ref)
    requires LocalOk(p) && Program(p, side) != []
    ensures OfProc(Progress(p, side, alive), r) + Carried(p, Program(p, side)[0], alive, r) == OfProc(p, r)
  {
    match Program(p, side)[0]
    case Send(_, _) => ProgressSend(p, side, alive, r);
    case AddMonitor(_, _) => ProgressMonitor(p, side, alive, r);
    case _ => ProgressOther(p, side, alive, r);
  }

  lemma ProgressSend(p: Proc, side: Side, alive: bool, r: Ref)
    requires Program(p, side) != [] && Program(p, side)[0].Send?
    ensures OfProc(Progress(p, side, alive), r) + Carried(p, Program(p, side)[0], alive, r) == OfProc(p, r)
  {
    var ops := Program(p, side);
    var news := if alive then [Enqueue(ops[0].to, ops[0].sig)] else Bounce(ops[0].to, ops[0].sig);
    ProgressProgramTokens(p, ops, alive, r);
    WithProgramTokens(p, side, news + ops[1..], r);
  }

  lemma ProgressMonitor(p: Proc, side: Side, alive: bool, r: Ref)
    requires LocalOk(p) && Program(p, side) != [] && Program(p, side)[0].AddMonitor?
    ensures OfProc(Progress(p, side, alive), r) + Carried(p, Program(p, side)[0], alive, r) == OfProc(p, r)
  {
    var ops := Program(p, side);
    var e := Entry(ops[0].pid, ops[0].ref);
    SumFirst(ops, OpToken(p.id, r));
    AddMonitorTokens(p, e, r);
    WithProgramTokens(p.(book := p.book.(monitors := p.book.monitors + [e])), side, ops[1..], r);
  }

  lemma ProgressOther(p: Proc, side: Side, alive: bool, r: Ref)
    requires Program(p, side) != [] && !Program(p, side)[0].Send? && !Program(p, side)[0].AddMonitor?
    ensures OfProc(Progress(p, side, alive), r) + Carried(p, Program(p, side)[0], alive, r) == OfProc(p, r)
  {
    var ops := Program(p, side);
    SumFirst(ops, OpToken(p.id, r));
    if ops[0].AddLink? {
      var linked := p.(book := p.book.(links := p.book.links + [ops[0].pid]));
      assert OfProc(linked, r) == OfProc(p, r);
      WithProgramTokens(linked, side, ops[1..], r);
    } else if ops[0].OpenChannel? {
      WithProgramTokens(p.(open := true), side, ops[1..], r);
    } else {
      WithProgramTokens(p, side, ops[1..], r);
    }
  }

  lemma AcceptTokens(p: Proc, sig: Signal, r: Ref)
    requires LocalOk(p) && !p.box.closed
    ensures OfProc(Accept(p, sig), r) == OfProc(p, r) + OfSig(p.id, sig, r)
  {
    SumAppend(p.box.queue, [sig], SigToken(p.id, r));
    SumOne(sig, SigToken(p.id, r));
  }

  // ---------------------------------------------------------------- the system

  lemma SetProcTokens(s: Sys, q: Proc, r: Ref)
    requires WellFormed(s) && q.id < |s.procs|
    ensures Sum(SetProc(s, q).procs, ProcTokens(r)) + OfProc(s.procs[q.id], r)
         == Sum(s.procs, ProcTokens(r)) + OfProc(q, r)
  {
    SumUpdate(s.procs, q.id, q, ProcTokens(r));
  }

  /** What an operation takes out of its program without handing it over is lost. */
  lemma LossTokens(s: Sys, p: Proc, op: Op, r: Ref)
    ensures Sum(s.lost + OpLoss(s, op), LossToken(r))
            + (if op.Enqueue? && Accepts(s, op.to) then OfSig(op.to, op.sig, r) else 0)
         == Sum(s.lost, LossToken(r)) + Carried(p, op, IsRunning(s, Target(op)), r)
  {
    if OpLoss(s, op) == [] {
      assert s.lost + [] == s.lost;
    } else {
      SumSnoc(s.lost, OpLoss(s, op)[0], LossToken(r));
    }
  }

  lemma MoreLost(s: Sys, lost: seq<Loss>, r: Ref)
    requires AllLocalOk(s)
    ensures AllLocalOk(s.(lost := lost))
    ensures Tokens(s.(lost := lost), r) + Sum(s.lost, LossToken(r)) == Tokens(s, r) + Sum(lost, LossToken(r))
  {
  }

  /** One process gives away `carried` tokens. */
  lemma SwapTokens(s: Sys, q: Proc, carried: nat, r: Ref)
    requires AllLocalOk(s) && q.id < |s.procs| && LocalOk(q)
    requires OfProc(q, r) + carried == OfProc(s.procs[q.id], r)
    ensures AllLocalOk(SetProc(s, q)) && Tokens(SetProc(s, q), r) + carried == Tokens(s, r)
  {
    SetProcTokens(s, q, r);
    SetProcLocal(s, q);
  }

  lemma OwnerProc(s: Sys, i: Pid, side: Side, alive: bool, r: Ref)
    requires AllLocalOk(s) && i < |s.procs| && Program(s.procs[i], side) != []
    ensures var t := SetProc(s, Progress(s.procs[i], side, alive));
            && AllLocalOk(t) && t.lost == s.lost
            && Tokens(t, r) + Carried(s.procs[i], Program(s.procs[i], side)[0], alive, r) == Tokens(s, r)
  {
    ProgressTokens(s.procs[i], side, alive, r);
    ProgressLocal(s.procs[i], side, alive);
    SwapTokens(s, Progress(s.procs[i], side, alive), Carried(s.procs[i], Program(s.procs[i], side)[0], alive, r), r);
  }

  /** The owner's side of an operation: what left its program is on its way, or lost. */
  lemma OwnerTokens(s: Sys, i: Pid, side: Side, r: Ref)
    requires AllLocalOk(s) && i < |s.procs| && Program(s.procs[i], side) != []
    ensures var op := Program(s.procs[i], side)[0];
            var t := SetProc(s, Progress(s.procs[i], side, IsRunning(s, Target(op)))).(lost := s.lost + OpLoss(s, op));
            AllLocalOk(t)
            && Tokens(s, r) == Tokens(t, r) + if op.Enqueue? && Accepts(s, op.to) then OfSig(op.to, op.sig, r) else 0
  {
    var op := Program(s.procs[i], side)[0];
    var mid := SetProc(s, Progress(s.procs[i], side, IsRunning(s, Target(op))));
    OwnerProc(s, i, side, IsRunning(s, Target(op)), r);
    LossTokens(s, s.procs[i], op, r);
    MoreLost(mid, s.lost + OpLoss(s, op), r);
  }

  lemma AcceptStepTokens(s: Sys, to: Pid, sig: Signal, r: Ref)
    requires AllLocalOk(s) && Accepts(s, to)
    ensures Tokens(SetProc(s, Accept(s.procs[to], sig)), r) == Tokens(s, r) + OfSig(to, sig, r)
  {
    AcceptTokens(s.procs[to], sig, r);
    SetProcTokens(s, Accept(s.procs[to], sig), r);
  }

  lemma PerformTokens(s: Sys, i: Pid, side: Side, r: Ref)
    requires AllLocalOk(s) && i < |s.procs| && Program(s.procs[i], side) != []
    ensures Tokens(PerformOp(s, i, side), r) == Tokens(s, r)
  {
    var op := Program(s.procs[i], side)[0];
    OwnerTokens(s, i, side, r);
    if op.Enqueue? && Accepts(s, op.to) {
      var t := SetProc(s, Progress(s.procs[i], side, IsRunning(s, op.to))).(lost := s.lost + OpLoss(s, op));
      ProgressLocal(s.procs[i], side, IsRunning(s, op.to));
      assert Accepts(t, op.to);
      AcceptStepTokens(t, op.to, op.sig, r);
    }
  }

  lemma BornTokens(s: Sys, a: Action, r: Ref)
    requires Enabled(s, a) && !a.Local? && !a.Perform?
    ensures OfProc(Born(s, a), r) == if a.SpawnMonitor? && r == |s.refs| then 1 else 0
  {
    var out := Born(s, a).out;
    SumFirst(out, OpToken(|s.procs|, r));
    if |out| == 3 {
      SumFirst(out[1..], OpToken(|s.procs|, r));
      SumOne(out[2], OpToken(|s.procs|, r));
      assert out[1..][1..] == [out[2]];
    }
  }

  lemma BirthTokens(s: Sys, a: Action, r: Ref)
    requires WellFormed(s) && Enabled(s, a) && !a.Local? && !a.Perform?
    ensures Tokens(Apply(s, a), r) == Tokens(s, r) + if a.SpawnMonitor? && r == |s.refs| then 1 else 0
  {
    BornTokens(s, a, r);
    SumSnoc(s.procs, Born(s, a), ProcTokens(r));
  }

  lemma LocalTokens(s: Sys, i: Pid, step: Own, r: Ref)
    requires AllLocalOk(s) && Enabled(s, Local(i, step))
    ensures Tokens(Apply(s, Local(i, step)), r) == Tokens(s, r)
         + if step.Begin? then Sum(CallProgram(step.call, |s.refs|), OpToken(i, r)) else 0
  {
    var o := OwnStep(s.procs[i], step, s.clock, |s.refs|);
    OwnTokens(s.procs[i], step, s.clock, |s.refs|, r);
    SumUpdate(s.procs, i, o.p, ProcTokens(r));
    SumAppend(s.lost, o.lost, LossToken(r));
  }

  lemma ConservedStep(s: Sys, a: Action)
    requires Conserved(s) && Enabled(s, a)
    ensures Conserved(Apply(s, a))
  {
    LocalStep(s, a);
    var t := Apply(s, a);
    forall r: Ref
      ensures Tokens(t, r) == Drawn(t.refs, r)
    {
      match a
      case Perform(i, side) => PerformTokens(s, i, side, r);
      case Local(i, step) =>
        LocalTokens(s, i, step, r);
        if step.Begin? {
          CallTokens(i, step.call, |s.refs|, r);
        }
      case _ => BirthTokens(s, a, r);
    }
  }

  lemma ConservedInit()
    ensures Conserved(Init())
  {
    LocalInit();
    forall r: Ref
      ensures Tokens(Init(), r) == 0
    {
      SumOne(UndefinedProc(), ProcTokens(r));
    }
  }
}
