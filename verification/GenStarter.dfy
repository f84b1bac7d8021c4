/** The synchronous start of a GenServer for a caller that traps exits: the interlocutor of
    `erl/genserver/gen_starter.go`, and `doStart` of `erl/genserver/api.go`. */
module GenStarter {
  import opened Types
  import opened Inboxes
  import opened Runtime
  import opened RuntimeLocal
  import opened RuntimeSafety
  import Trace = GenServerTrace

  /** What the select statement of the starter yields. `Term(SHUTDOWN)` stands for `genStarterShutdown`. */
  datatype Turn = Read(msg: Msg) | Timer | Closed

  const SHUTDOWN := 0

  /** How a starter ends; only the first two close `sig`, which is what a failed start waits for. */
  datatype End = ServerDown | TimedOut | Dismissed | ParentDown | InboxClosed

  predicate Signals(e: End) {
    e == ServerDown || e == TimedOut
  }

  predicate IsServerDown(m: Msg, server: Pid, ref: Ref) {
    m.DownMsg? && m.ref == ref && m.proc == server
  }

  /** The end that one turn leads to, if any. */
  function EndOf(turn: Turn, server: Pid, ref: Ref, parent: Pid, parentRef: Ref): Option<End> {
    match turn
    case Timer => Some(TimedOut)
    case Closed => Some(InboxClosed)
    case Read(m) =>
      if m == Term(SHUTDOWN) then Some(Dismissed)
      else if IsServerDown(m, server, ref) then Some(ServerDown)
      else if IsServerDown(m, parent, parentRef) then Some(ParentDown)
      else None
  }

  /** The turn is none of those that a starter waits for. */
  predicate Unheeded(turn: Turn, server: Pid, ref: Ref, parent: Pid, parentRef: Ref) {
    && turn.Read? && turn.msg != Term(SHUTDOWN)
    && (turn.msg.DownMsg? ==>
          && !(turn.msg.proc == server && turn.msg.ref == ref)
          && !(turn.msg.proc == parent && turn.msg.ref == parentRef))
  }

  /** The first turn that is heeded is at `k`. */
  ghost predicate FirstAt(turns: seq<Turn>, k: nat, server: Pid, ref: Ref, parent: Pid, parentRef: Ref) {
    && k < |turns| && !Unheeded(turns[k], server, ref, parent, parentRef)
    && forall j :: 0 <= j < k ==> Unheeded(turns[j], server, ref, parent, parentRef)
  }

  /** Whether a turn that is heeded frees the caller: the timer does, and the down message of the server. */
  predicate Frees(turn: Turn, server: Pid, ref: Ref) {
    match turn
    case Timer => true
    case Closed => false
    case Read(DownMsg(proc, r, _)) => proc == server && r == ref
    case Read(_) => false
  }

  /** Whether it makes the starter stop the server: the down message of the parent does. */
  predicate Orphans(turn: Turn, server: Pid, ref: Ref) {
    turn.Read? && turn.msg.DownMsg? && !(turn.msg.proc == server && turn.msg.ref == ref)
  }

  class Starter {
    const server: Pid
    const ref: Ref
    const parent: Pid
    const parentRef: Ref
    var sigClosed: bool
    var killsServer: bool

    constructor (server: Pid, ref: Ref, parent: Pid, parentRef: Ref)
      ensures this.server == server && this.ref == ref && this.parent == parent && this.parentRef == parentRef
      ensures !sigClosed && !killsServer
    {
      this.server := server;
      this.ref := ref;
      this.parent := parent;
      this.parentRef := parentRef;
      sigClosed := false;
      killsServer := false;
    }

    /** `Receive`, after the server was spawned, for the turns so far: the first turn that means an end is the last. */
    method Receive(turns: seq<Turn>) returns (end: Option<End>, used: nat)
      requires !sigClosed && !killsServer
      modifies this
      ensures used <= |turns| && (used < |turns| ==> end.Some?)
      ensures forall i :: 0 <= i < used - 1 ==> EndOf(turns[i], server, ref, parent, parentRef) == None
      ensures end == if used == 0 then None else EndOf(turns[used - 1], server, ref, parent, parentRef)
      ensures sigClosed == (end.Some? && Signals(end.value))
      ensures killsServer == (end == Some(ParentDown))
      ensures forall k: nat :: FirstAt(turns, k, server, ref, parent, parentRef) ==>
                && used == k + 1
                && sigClosed == Frees(turns[k], server, ref) && killsServer == Orphans(turns[k], server, ref)
      ensures (forall j :: 0 <= j < |turns| ==> Unheeded(turns[j], server, ref, parent, parentRef)) ==>
                used == |turns| && !sigClosed && !killsServer
    {
      used := 0;
      end := None;
      while used < |turns| && end == None
        invariant 0 <= used <= |turns|
        invariant forall i :: 0 <= i < used - 1 ==> EndOf(turns[i], server, ref, parent, parentRef) == None
        invariant end == if used == 0 then None else EndOf(turns[used - 1], server, ref, parent, parentRef)
        invariant sigClosed == (end.Some? && Signals(end.value))
        invariant killsServer == (end == Some(ParentDown))
        decreases |turns| - used
      {
        var turn := turns[used];
        used := used + 1;
        match turn
        case Closed => end := Some(InboxClosed);
        case Timer =>
          sigClosed := true;
          end := Some(TimedOut);
        case Read(m) =>
          if m == Term(SHUTDOWN) {
            end := Some(Dismissed);
          } else if m.DownMsg? {
            if m.ref == ref && m.proc == server {
              sigClosed := true;
              end := Some(ServerDown);
            } else if m.ref == parentRef && m.proc == parent {
              killsServer := true;
              end := Some(ParentDown);
            }
          }
      }
    }
  }

  // ---------------------------------------------------------------- a whole start

  datatype Started = Success | Refused(reason: Reason) | StillWaiting

  /** The branch of `doStart` for a caller that traps exits: `ack` is what the server acknowledged before the start
      timeout, if it did; `signalled` whether the starter has closed its signal. */
  function DoStart(ack: Option<Trace.Ack>, signalled: bool): Started {
    match ack
    case None => Refused(Timeout)
    case Some(AckOk) => Success
    case Some(AckIgnore) => if signalled then Refused(Ignore) else StillWaiting
    case Some(AckError(reason)) => if signalled then Refused(reason) else StillWaiting
  }

  /** The process is not running, and its name is free. */
  predicate Gone(s: Sys, server: Pid) {
    server < |s.procs| && !IsRunning(s, server) && s.procs[server].name == ""
  }

  /** When a starter has read the down message of the server it spawned, in any reachable state, the server is gone. The
      reference is one of `SpawnMonitor`, so not even the early answer NoProc is possible. */
  lemma ServerDownMeansGone(s: Sys, i: Pid, ref: Ref, server: Pid, m: Msg)
    requires Reachable(s) && i < |s.procs| && ref < |s.refs| && s.refs[ref] == RefInfo(i, server, true)
    requires m in s.procs[i].mail.taken && IsServerDown(m, server, ref)
    ensures Gone(s, server)
  {
    ReachableIsSafe(s);
    var p := s.procs[i];
    assert LocalOk(p);
    var k :| 0 <= k < |p.mail.taken| && p.mail.taken[k] == m;
    assert m == p.mail.accepted[k];
    NameGoneBeforeMessage(s, i, m);
  }

  /** What the server did so far, its name and its parent given, and the acknowledgement that `doStart` got from it. */
  ghost predicate Acknowledged(hasName: bool, parent: Pid, trace: seq<Trace.Event>, ack: Option<Trace.Ack>) {
    && Trace.After(Trace.Start(hasName, parent), trace).Some?
    && (ack.Some? ==> Trace.Acked(ack.value) in trace)
  }

  /** The start failed inside the server for this reason, and the server does nothing any more and holds no name. */
  ghost predicate FailedWith(hasName: bool, parent: Pid, trace: seq<Trace.Event>, reason: Reason) {
    && (Trace.HasFailed(trace, Trace.AckError(reason)) || (reason == Ignore && Trace.HasFailed(trace, Trace.AckIgnore)))
    && !Trace.HoldsName(trace)
  }

  lemma AckTold(hasName: bool, parent: Pid, trace: seq<Trace.Event>, ack: Trace.Ack)
    requires Acknowledged(hasName, parent, trace, Some(ack))
    ensures ack == Trace.AckOk ==> Trace.HasStarted(trace)
    ensures ack != Trace.AckOk ==> Trace.HasFailed(trace, ack) && !Trace.HoldsName(trace)
  {
    var k :| 0 <= k < |trace| && trace[k] == Trace.Acked(ack);
    Trace.AckIsTrue(hasName, parent, trace, k);
    if ack == Trace.AckOk {
      var j :| 0 <= j < k && Trace.InitDone(trace[..k][j]);
      assert trace[..k][j] == trace[j];
    } else {
      Trace.FailedStartHoldsNoName(hasName, parent, trace, k);
      assert trace[..k + 1] == trace;
      var j :| 0 <= j < k && Trace.Accounts(trace[..k][j], ack);
      assert trace[..k][j] == trace[j];
    }
  }

  /** The first turn that ends the starter is one after which the signal is closed. */
  ghost predicate FirstSignal(turns: seq<Turn>, server: Pid, ref: Ref, parent: Pid, parentRef: Ref) {
    exists k :: 0 <= k < |turns| && EndsAt(turns, k, server, ref, parent, parentRef)
  }

  ghost predicate EndsAt(turns: seq<Turn>, k: nat, server: Pid, ref: Ref, parent: Pid, parentRef: Ref)
    requires k < |turns|
  {
    FirstAt(turns, k, server, ref, parent, parentRef) && Frees(turns[k], server, ref)
  }

  /** A start from its beginning to its end, for a caller that traps exits: the starter `i` has spawned the server under
      `ref` and takes its turns in any reachable state of any system; `ack` is what `doStart` heard from the server
      before the start timeout. An error of the server is returned only with the reason it really had, and, unless the
      starter's timer has fired, only when the server's process is gone; success only after `Init` succeeded. And such
      an error is returned as soon as the starter has read the down message. */
  method Start(server: Pid, ref: Ref, parent: Pid, parentRef: Ref, ack: Option<Trace.Ack>, turns: seq<Turn>,
               ghost hasName: bool, ghost trace: seq<Trace.Event>, ghost s: Sys, ghost i: Pid)
    returns (result: Started)
    requires Reachable(s) && i < |s.procs| && ref < |s.refs| && s.refs[ref] == RefInfo(i, server, true)
    requires forall m :: Turn.Read(m) in turns ==> m in s.procs[i].mail.taken
    requires Acknowledged(hasName, parent, trace, ack)
    ensures ack == None ==> result == Refused(Timeout)
    ensures result == Success ==> Trace.HasStarted(trace)
    ensures ack.Some? && result.Refused? ==> FailedWith(hasName, parent, trace, result.reason)
    ensures ack.Some? && result.Refused? && Timer !in turns ==> Gone(s, server)
    ensures ack.Some? && result == StillWaiting ==>
              ack != Some(Trace.AckOk) && !FirstSignal(turns, server, ref, parent, parentRef)
  {
    var starter := new Starter(server, ref, parent, parentRef);
    var end, used := starter.Receive(turns);
    result := DoStart(ack, starter.sigClosed);
    if ack.Some? {
      AckTold(hasName, parent, trace, ack.value);
      if starter.sigClosed && Timer !in turns {
        assert turns[used - 1] in turns;
        ServerDownMeansGone(s, i, ref, server, turns[used - 1].msg);
      }
    }
  }
}
