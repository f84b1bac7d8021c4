/** The process runtime as a transition system: `erl/process.go`, `erl/erl.go` and `erl/signals.go`.

    One step of the system is one action of one goroutine. Every process owns two goroutines that send signals:
    its signal loop (`run` and `exit`), whose remaining sends are `out`, and its runnable, which makes API calls
    one after the other and whose remaining sends are `api`. A send is two steps, as in `Process.send`: first the
    status of the receiver is read, then the signal is enqueued. */
module Runtime {
  import opened Types
  import opened Inboxes

  /** Where the signal loop stands. `Looping` is RUNNING, `Done` is EXITED, everything between is EXITING. */
  datatype Phase = Looping | Releasing | Draining | Notifying | Awaiting | Done

  /** The goroutine of the runnable: working, blocked handing over its result on `done`, or finished.
      After a panic `done` is never closed. */
  datatype Runner = Live | Handing(err: Err, panicked: bool) | Finished(panicked: bool)

  /** Why a process left the RUNNING status. */
  datatype Cause = NotExited | OwnReturn | Linked(source: Pid) | Asked(source: Pid)

  /** An entry of `monitors`: who is watching, and under which reference. */
  datatype Entry = Entry(pid: Pid, ref: Ref)

  /** What is left to do of a send (`Send`: the receiver's status is still to be read; `Enqueue`: it was read as
      RUNNING) and of the set-up part of `run`. */
  datatype Op =
    | Send(to: Pid, sig: Signal)
    | Enqueue(to: Pid, sig: Signal)
    | AddMonitor(pid: Pid, ref: Ref)
    | AddLink(pid: Pid)
    | OpenChannel

  /** What a process keeps about others: its links, who monitors it, and whom it monitors. */
  datatype Book = Book(links: seq<Pid>, monitors: seq<Entry>, monitoring: map<Ref, Pid>)

  /** How and when a process left RUNNING; `lastLinks` are the links it notified. */
  datatype Ending = Ending(reason: Option<Reason>, cause: Cause, stamp: nat, lastLinks: seq<Pid>)

  /** A process. `traps` and `ending` are history: the trap flag as it was when each signal was handled, and the
      circumstances of the exit. */
  datatype Proc = Proc(
    id: Pid,
    phase: Phase,
    book: Book,
    trap: bool,
    name: string,
    box: Box<Signal>,
    open: bool,
    mail: Box<Msg>,
    out: seq<Op>,
    api: seq<Op>,
    runner: Runner,
    traps: seq<bool>,
    ending: Ending)
  {
    predicate Running() {
      phase == Looping
    }

    /** The name was given up: `exit` is past `Unregister`. */
    predicate Released() {
      phase != Looping && phase != Releasing
    }

    /** `exit` has read out its inbox and computed what it has to tell. */
    predicate Told() {
      Released() && phase != Draining
    }
  }

  /** Who monitors whom under a reference, and whether `SpawnMonitor` made it. */
  datatype RefInfo = RefInfo(monitor: Pid, monitored: Pid, spawned: bool)

  /** Things that carried information and were discarded: a signal that a closed inbox refused, that `exit` or a
      handler ignored, or that found its receiver dead; and a monitor entry that a demonitor filtered out. */
  datatype Loss = LostSignal(at: Pid, sig: Signal) | LostEntry(at: Pid, entry: Entry)

  /** `clock` numbers the exits in the order in which they begin. */
  datatype Sys = Sys(procs: seq<Proc>, refs: seq<RefInfo>, lost: seq<Loss>, clock: nat)

  // ---------------------------------------------------------------- handling one signal

  function FreshProc(id: Pid, out: seq<Op>): Proc {
    Proc(id, Looping, Book([], [], map[]), false, "", Empty(), false, Empty(), out, [], Live, [],
         Ending(None, NotExited, 0, []))
  }

  /** `UndefinedPID`: never running; the goroutine of the main program is its runnable. */
  function UndefinedProc(): Proc {
    FreshProc(UNDEFINED, []).(phase := Done, open := true, box := Shut(Empty()), mail := Shut(Empty()))
  }

  predicate Kept(e: Entry, ref: Ref, origin: Pid) {
    e.ref != ref && e.pid != origin
  }

  /** The entries that a demonitor leaves: those with another reference and another watcher. */
  function Keep(es: seq<Entry>, ref: Ref, origin: Pid): seq<Entry> {
    if es == [] then []
    else Keep(es[..|es| - 1], ref, origin) + if Kept(es[|es| - 1], ref, origin) then [es[|es| - 1]] else []
  }

  function Filtered(at: Pid, es: seq<Entry>, ref: Ref, origin: Pid): seq<Loss> {
    if es == [] then []
    else
      Filtered(at, es[..|es| - 1], ref, origin)
      + if Kept(es[|es| - 1], ref, origin) then [] else [LostEntry(at, es[|es| - 1])]
  }

  /** The list without the first occurrence of `x`. */
  function RemoveFirst(xs: seq<Pid>, x: Pid): seq<Pid> {
    if xs == [] then []
    else if xs[0] == x then xs[1..]
    else [xs[0]] + RemoveFirst(xs[1..], x)
  }

  /** The effect of a signal on the book: the new book, what has to be sent, what was discarded. */
  datatype Noted = Noted(book: Book, ops: seq<Op>, lost: seq<Loss>)

  predicate IsBookkeeping(sig: Signal) {
    sig.MonitorSig? || sig.DemonitorSig? || sig.LinkSig? || sig.UnlinkSig?
  }

  /** A monitor of our own is remembered under its reference; one of another process is an entry. */
  function NoteMonitor(self: Pid, b: Book, ref: Ref, monitor: Pid, monitored: Pid): Noted {
    if monitor == self then Noted(b.(monitoring := b.monitoring[ref := monitored]), [], [])
    else Noted(b.(monitors := b.monitors + [Entry(monitor, ref)]), [], [])
  }

  /** A demonitor of our own is passed on to the monitored process; one from outside drops entries. */
  function NoteDemonitor(self: Pid, b: Book, ref: Ref, origin: Pid): Noted {
    if origin == self then
      Noted(b.(monitoring := b.monitoring - {ref}),
            if ref in b.monitoring then [Send(b.monitoring[ref], DemonitorSig(ref, origin))] else [], [])
    else
      Noted(b.(monitors := Keep(b.monitors, ref, origin)), [], Filtered(self, b.monitors, ref, origin))
  }

  function NoteLink(b: Book, pid: Pid): Noted {
    if pid in b.links then Noted(b, [], []) else Noted(b.(links := b.links + [pid]), [], [])
  }

  /** The four bookkeeping signals; any other signal leaves the book alone. */
  function Note(self: Pid, b: Book, sig: Signal): Noted {
    match sig
    case MonitorSig(ref, monitor, monitored) => NoteMonitor(self, b, ref, monitor, monitored)
    case DemonitorSig(ref, origin) => NoteDemonitor(self, b, ref, origin)
    case LinkSig(pid) => NoteLink(b, pid)
    case UnlinkSig(pid) => Noted(b.(links := RemoveFirst(b.links, pid)), [], [])
    case _ => Noted(b, [], [])
  }

  function Deliver(p: Proc, m: Msg): Proc {
    p.(mail := Put(p.mail, m))
  }

  /** The first step of `exit`: the status is no longer RUNNING. */
  function BeginExit(p: Proc, e: Err, cause: Cause, stamp: nat): Proc {
    p.(phase := Releasing, ending := Ending(Some(ToReason(e)), cause, stamp, []))
  }

  /** Whether an exit signal ends the process; if not, it is trapped or ignored. */
  predicate Deadly(self: Pid, trap: bool, sender: Pid, reason: Reason, link: bool) {
    || (reason == Kill && !link)
    || (!trap && !(reason == Normal && link && sender != self))
  }

  function OnExit(p: Proc, sender: Pid, reason: Reason, link: bool, stamp: nat): Proc {
    if Deadly(p.id, p.trap, sender, reason, link) then
      BeginExit(p, ReasonErr(reason), if link then Linked(sender) else Asked(sender), stamp)
    else if p.trap then Deliver(p, ExitMsg(sender, reason, link))
    else p
  }

  /** The process with what the loop took from the inbox recorded. */
  function Received(p: Proc): Proc
    requires p.box.slot != []
  {
    p.(box := Take(p.box), traps := p.traps + [p.trap])
  }

  datatype Outcome = Outcome(p: Proc, lost: seq<Loss>)

  /** One turn of the signal loop of a running process. */
  function HandleSignal(p: Proc, sig: Signal, stamp: nat): Outcome {
    match sig
    case MessageSig(term) => Outcome(Deliver(p, Term(term)), [])
    case DownSig(proc, ref, reason) =>
      if ref in p.book.monitoring then Outcome(Deliver(p, DownMsg(proc, ref, reason)), [])
      else Outcome(p, [LostSignal(p.id, sig)])
    case ExitSig(sender, _, reason, link) => Outcome(OnExit(p, sender, reason, link, stamp), [])
    case _ =>
      var n := Note(p.id, p.book, sig);
      Outcome(p.(book := n.book, out := p.out + n.ops), n.lost)
  }

  /** The signals that `exit` finds in its inbox: only the bookkeeping signals still count. */
  function DrainAll(self: Pid, b: Book, sigs: seq<Signal>): Noted {
    if sigs == [] then Noted(b, [], [])
    else
      var last := sigs[|sigs| - 1];
      var before := DrainAll(self, b, sigs[..|sigs| - 1]);
      var n := Note(self, before.book, last);
      Noted(n.book, before.ops + n.ops,
            before.lost + n.lost + if IsBookkeeping(last) then [] else [LostSignal(self, last)])
  }

  // ---------------------------------------------------------------- what an exiting process tells

  function LinkOps(self: Pid, links: seq<Pid>, reason: Reason): seq<Op> {
    seq(|links|, i requires 0 <= i < |links| => Send(links[i], ExitSig(self, links[i], reason, true)))
  }

  function DownOps(self: Pid, monitors: seq<Entry>, reason: Reason): seq<Op> {
    seq(|monitors|, i requires 0 <= i < |monitors| => Send(monitors[i].pid, DownSig(self, monitors[i].ref, reason)))
  }

  /** A map is ranged over in any order. */
  ghost predicate IsOrder(order: seq<Ref>, keys: set<Ref>) {
    && (forall i :: 0 <= i < |order| ==> order[i] in keys)
    && (forall r :: r in keys ==> r in order)
    && (forall i, j :: 0 <= i < j < |order| ==> order[i] != order[j])
  }

  function DemonitorOps(self: Pid, monitoring: map<Ref, Pid>, order: seq<Ref>): seq<Op>
    requires forall i :: 0 <= i < |order| ==> order[i] in monitoring
  {
    seq(|order|, i requires 0 <= i < |order| => Send(monitoring[order[i]], DemonitorSig(order[i], self)))
  }

  function Notices(self: Pid, b: Book, reason: Reason, order: seq<Ref>): seq<Op>
    requires forall i :: 0 <= i < |order| ==> order[i] in b.monitoring
  {
    LinkOps(self, b.links, reason) + DownOps(self, b.monitors, reason) + DemonitorOps(self, b.monitoring, order)
  }

  // ---------------------------------------------------------------- sending

  /** What a process that is not running answers to a signal. */
  function Bounce(to: Pid, sig: Signal): seq<Op> {
    match sig
    case LinkSig(pid) => [Send(pid, ExitSig(to, pid, NoProc, true))]
    case MonitorSig(ref, monitor, _) => [Send(monitor, DownSig(to, ref, NoProc))]
    case _ => []
  }

  predicate Bounces(sig: Signal) {
    sig.LinkSig? || sig.MonitorSig?
  }

  datatype Side = LoopSide | ApiSide

  function Program(p: Proc, side: Side): seq<Op> {
    if side == LoopSide then p.out else p.api
  }

  function WithProgram(p: Proc, side: Side, ops: seq<Op>): Proc {
    if side == LoopSide then p.(out := ops) else p.(api := ops)
  }

  function SetProc(s: Sys, p: Proc): Sys
    requires p.id < |s.procs|
  {
    s.(procs := s.procs[p.id := p])
  }

  predicate IsRunning(s: Sys, i: Pid) {
    i < |s.procs| && s.procs[i].Running()
  }

  /** The inbox of `i` still takes signals. */
  predicate Accepts(s: Sys, i: Pid) {
    i < |s.procs| && !s.procs[i].box.closed
  }

  /** The owner of a program after its first operation; `alive` is the status that a `Send` reads. */
  function Progress(p: Proc, side: Side, alive: bool): Proc
    requires Program(p, side) != []
  {
    var rest := Program(p, side)[1..];
    match Program(p, side)[0]
    case Send(to, sig) => WithProgram(p, side, (if alive then [Enqueue(to, sig)] else Bounce(to, sig)) + rest)
    case Enqueue(to, sig) => WithProgram(p, side, rest)
    case AddMonitor(pid, ref) =>
      WithProgram(p.(book := p.book.(monitors := p.book.monitors + [Entry(pid, ref)])), side, rest)
    case AddLink(pid) => WithProgram(p.(book := p.book.(links := p.book.links + [pid])), side, rest)
    case OpenChannel => WithProgram(p.(open := true), side, rest)
  }

  function Accept(p: Proc, sig: Signal): Proc {
    p.(box := Put(p.box, sig))
  }

  /** A signal is lost when its receiver is no longer running and owes no answer, or has closed its inbox since. */
  function OpLoss(s: Sys, op: Op): seq<Loss> {
    match op
    case Send(to, sig) => if IsRunning(s, to) || Bounces(sig) then [] else [LostSignal(to, sig)]
    case Enqueue(to, sig) => if Accepts(s, to) then [] else [LostSignal(to, sig)]
    case _ => []
  }

  function Target(op: Op): Pid {
    if op.Send? || op.Enqueue? then op.to else UNDEFINED
  }

  /** The first operation of a program of process `i` is carried out. */
  function PerformOp(s: Sys, i: Pid, side: Side): Sys
    requires WellFormed(s) && i < |s.procs| && Program(s.procs[i], side) != []
  {
    var op := Program(s.procs[i], side)[0];
    var s1 := SetProc(s, Progress(s.procs[i], side, IsRunning(s, Target(op)))).(lost := s.lost + OpLoss(s, op));
    if op.Enqueue? && Accepts(s, op.to) then SetProc(s1, Accept(s1.procs[op.to], op.sig)) else s1
  }

  // ---------------------------------------------------------------- API calls

  datatype Call =
    | CallMonitor(self: Pid, pid: Pid)
    | CallDemonitor(self: Pid, ref: Ref)
    | CallLink(self: Pid, pid: Pid)
    | CallUnlink(self: Pid, pid: Pid)
    | CallSend(pid: Pid, term: int)
    | CallExit(self: Pid, pid: Pid, reason: Reason)

  /** The sends that a call makes, in order; `ref` is the fresh reference a monitor call draws. */
  function CallProgram(c: Call, ref: Ref): seq<Op> {
    match c
    case CallMonitor(self, pid) => [Send(self, MonitorSig(ref, self, pid)), Send(pid, MonitorSig(ref, self, pid))]
    case CallDemonitor(self, target) => [Send(self, DemonitorSig(target, self))]
    case CallLink(self, pid) => [Send(self, LinkSig(pid)), Send(pid, LinkSig(self))]
    case CallUnlink(self, pid) => [Send(self, UnlinkSig(pid)), Send(pid, UnlinkSig(self))]
    case CallSend(pid, term) => [Send(pid, MessageSig(term))]
    case CallExit(self, pid, reason) => [Send(pid, ExitSig(self, pid, reason, false))]
  }

  /** The processes that a call names exist. */
  predicate CallKnows(c: Call, n: nat) {
    match c
    case CallMonitor(self, pid) => self < n && pid < n
    case CallDemonitor(self, _) => self < n
    case CallLink(self, pid) => self < n && pid < n
    case CallUnlink(self, pid) => self < n && pid < n
    case CallSend(pid, _) => pid < n
    case CallExit(self, pid, _) => self < n && pid < n
  }

  // ---------------------------------------------------------------- steps of one process

  /** What a process, its runnable or the outside does to the process alone. */
  datatype Own =
    | Begin(call: Call)
    | SetTrap(v: bool)
    | Register(name: string)
    | Unregister
    | Return(err: Err, panicked: bool)
    | Feed
    | Handle
    | SeeDone
    | Release
    | Drain(order: seq<Ref>)
    | CloseMail
    | Finish
    | FeedMail
    | Read

  ghost predicate CanOwn(p: Proc, step: Own) {
    match step
    case Begin(_) => p.open && p.runner == Live && p.api == []
    case SetTrap(_) => p.id != UNDEFINED
    case Register(name) => p.Running() && p.name == "" && name != ""
    case Unregister => true
    case Return(_, _) => p.id != UNDEFINED && p.open && p.runner == Live && p.api == []
    case Feed => p.open && CanFeed(p.box)
    case Handle => p.Running() && p.out == [] && p.box.slot != []
    case SeeDone => p.Running() && p.out == [] && p.runner.Handing?
    case Release => p.phase == Releasing
    case Drain(order) => p.phase == Draining && IsOrder(order, Drained(p).book.monitoring.Keys)
    case CloseMail => p.phase == Notifying && p.out == []
    case Finish => p.phase == Awaiting && (p.runner.Handing? || p.runner == Finished(false))
    case FeedMail => p.open && CanFeed(p.mail)
    case Read => p.runner == Live && p.mail.slot != []
  }

  /** The book of an exiting process brought up to date with what `Drain` returned. */
  function Drained(p: Proc): Noted {
    DrainAll(p.id, p.book, p.box.queue)
  }

  function ExitReason(p: Proc): Reason {
    if p.ending.reason.Some? then p.ending.reason.value else Normal
  }

  /** `Drain` closes the inbox; what it returns is processed and the notices are put together. */
  function DrainProc(p: Proc, order: seq<Ref>): Proc
    requires forall k :: 0 <= k < |order| ==> order[k] in Drained(p).book.monitoring
  {
    var n := Drained(p);
    p.(book := n.book, box := Shut(p.box), phase := Notifying, ending := p.ending.(lastLinks := n.book.links),
       out := n.ops + Notices(p.id, n.book, ExitReason(p), order))
  }

  /** The loop takes the result of the runnable from `done`. */
  function SeeDoneProc(p: Proc, stamp: nat): Proc
    requires p.runner.Handing?
  {
    BeginExit(p, p.runner.err, OwnReturn, stamp).(runner := Finished(p.runner.panicked))
  }

  /** `exit` waits for the runnable and forgets its book. */
  function FinishProc(p: Proc): Proc {
    p.(phase := Done, book := Book([], [], map[]),
       runner := if p.runner.Handing? then Finished(p.runner.panicked) else p.runner)
  }

  /** A panic becomes an exception; a runnable that returned nothing has the reason Normal. */
  function Result(e: Err, panicked: bool): Err {
    if panicked then ReasonErr(Exception("panic")) else if e == NilErr then ReasonErr(Normal) else e
  }

  function OwnStep(p: Proc, step: Own, clock: nat, ref: Ref): Outcome
    requires CanOwn(p, step)
  {
    match step
    case Begin(call) => Outcome(p.(api := CallProgram(call, ref)), [])
    case SetTrap(v) => Outcome(p.(trap := v), [])
    case Register(name) => Outcome(p.(name := name), [])
    case Unregister => Outcome(p.(name := ""), [])
    case Return(err, panicked) => Outcome(p.(runner := Handing(Result(err, panicked), panicked)), [])
    case Feed => Outcome(p.(box := Advance(p.box)), [])
    case Handle => HandleSignal(Received(p), p.box.slot[0], clock)
    case SeeDone => Outcome(SeeDoneProc(p, clock), [])
    case Release => Outcome(p.(phase := Draining, name := ""), [])
    case Drain(order) => Outcome(DrainProc(p, order), Drained(p).lost)
    case CloseMail => Outcome(p.(phase := Awaiting, mail := Shut(p.mail)), [])
    case Finish => Outcome(FinishProc(p), [])
    case FeedMail => Outcome(p.(mail := Advance(p.mail)), [])
    case Read => Outcome(p.(mail := Take(p.mail)), [])
  }

  // ---------------------------------------------------------------- steps of the system

  datatype Action =
    | Spawn
    | SpawnLink(parent: Pid)
    | SpawnMonitor(parent: Pid)
    | Perform(p: Pid, side: Side)
    | Local(p: Pid, step: Own)

  ghost predicate WellFormed(s: Sys) {
    && s.procs != []
    && forall i :: 0 <= i < |s.procs| ==> s.procs[i].id == i
  }

  function Init(): Sys {
    Sys([UndefinedProc()], [], [], 0)
  }

  ghost predicate NameFree(s: Sys, name: string) {
    forall j :: 0 <= j < |s.procs| ==> s.procs[j].name != name
  }

  ghost predicate Enabled(s: Sys, a: Action) {
    match a
    case Spawn => true
    case SpawnLink(parent) => parent < |s.procs|
    case SpawnMonitor(parent) => parent < |s.procs|
    case Perform(i, side) => i < |s.procs| && Program(s.procs[i], side) != []
    case Local(i, step) =>
      && i < |s.procs|
      && CanOwn(s.procs[i], step)
      && (step.Begin? ==> CallKnows(step.call, |s.procs|))
      && (step.Register? ==> NameFree(s, step.name))
  }

  /** The references that a step draws: one for every monitor. */
  function NewRefs(s: Sys, a: Action): seq<RefInfo> {
    match a
    case SpawnMonitor(parent) => [RefInfo(parent, |s.procs|, true)]
    case Local(_, Begin(CallMonitor(self, pid))) => [RefInfo(self, pid, false)]
    case _ => []
  }

  /** The process that a spawn starts, and what `run` does before it opens the inbox. */
  function Born(s: Sys, a: Action): Proc {
    var n := |s.procs|;
    FreshProc(n, match a
      case SpawnLink(parent) => [Send(parent, LinkSig(n)), AddLink(parent), OpenChannel]
      case SpawnMonitor(parent) =>
        [Send(parent, MonitorSig(|s.refs|, parent, n)), AddMonitor(parent, |s.refs|), OpenChannel]
      case _ => [OpenChannel])
  }

  function Apply(s: Sys, a: Action): Sys
    requires WellFormed(s) && Enabled(s, a)
  {
    match a
    case Perform(i, side) => PerformOp(s, i, side)
    case Local(i, step) =>
      var o := OwnStep(s.procs[i], step, s.clock, |s.refs|);
      Sys(s.procs[i := o.p], s.refs + NewRefs(s, a), s.lost + o.lost,
          if s.procs[i].Running() && !o.p.Running() then s.clock + 1 else s.clock)
    case _ => Sys(s.procs + [Born(s, a)], s.refs + NewRefs(s, a), s.lost, s.clock)
  }

  // ---------------------------------------------------------------- runs

  /** The state that a sequence of actions leads to from the start, if every action was enabled. */
  ghost predicate Run(actions: seq<Action>, s: Sys)
    decreases |actions|
  {
    if actions == [] then s == Init()
    else exists before :: Follows(actions, before, s)
  }

  ghost predicate Follows(actions: seq<Action>, before: Sys, s: Sys)
    requires actions != []
    decreases |actions|, 0
  {
    var n := |actions| - 1;
    Run(actions[..n], before) && WellFormed(before) && Enabled(before, actions[n]) && s == Apply(before, actions[n])
  }

  ghost predicate Reachable(s: Sys) {
    exists actions :: Run(actions, s)
  }
}
