/** The helper process that shuts one child down (`erl/supervisor/child_killer.go`): it reports to the supervisor when
    the down message of the child has come. */
module ChildKiller {
  import opened Types
  import opened Sums
  import opened Inboxes
  import opened Runtime
  import opened RuntimeLocal
  import opened RuntimeFacts
  import opened RuntimeTokens
  import opened RuntimeLosses
  import opened RuntimeSafety
  import opened RuntimeOnward
  import opened Children

  /** How a child is shut down; a timeout is in seconds, the unit the program hands to the timer. */
  datatype ShutdownOpt = BrutalKill | Infinity | After(seconds: nat)

  /** What the killer tells: nothing, or the reason of an exit that was not expected. */
  type Report = Option<Reason>

  predicate Expected(asked: Reason, restart: Restart, reason: Reason) {
    reason == asked || ((reason.Shutdown? || reason == Normal) && restart != Permanent)
  }

  /** The report about a child that exited with `reason` after an exit signal with the reason `asked`. */
  function Verdict(asked: Reason, restart: Restart, reason: Reason): Report {
    if Expected(asked, restart, reason) then None else Some(reason)
  }

  /** The exit reasons in the down messages under the reference `ref`. */
  function Downs(ms: seq<Msg>, ref: Ref): seq<Reason> {
    if ms == [] then []
    else
      var m := ms[|ms| - 1];
      Downs(ms[..|ms| - 1], ref) + if m.DownMsg? && m.ref == ref then [m.reason] else []
  }

  function Verdicts(asked: Reason, restart: Restart, reasons: seq<Reason>): seq<Report> {
    seq(|reasons|, i requires 0 <= i < |reasons| => Verdict(asked, restart, reasons[i]))
  }

  /** How many messages are read by a loop that stops after its first down message, of whatever reference. */
  function UpToDown(ms: seq<Msg>): (n: nat)
    ensures n <= |ms|
    ensures forall i :: 0 <= i < n - 1 ==> !ms[i].DownMsg?
    ensures n < |ms| ==> n > 0 && ms[n - 1].DownMsg?
  {
    if ms == [] then 0
    else
      var n := UpToDown(ms[..|ms| - 1]);
      if n < |ms| - 1 || (n > 0 && ms[n - 1].DownMsg?) then n else |ms|
  }

  /** What the select statement of `handleTimeout` yields: a message, or the timer, after which one message is waited
      for (`None`: the inbox was closed). */
  datatype Turn = Message(msg: Msg) | Expired(next: Option<Msg>)

  function MessagesIn(turn: Turn): seq<Msg> {
    match turn
    case Message(m) => [m]
    case Expired(next) => if next.Some? then [next.value] else []
  }

  function KillIn(turn: Turn): seq<Reason> {
    if turn.Expired? then [Kill] else []
  }

  /** Only a down message that the select statement itself reads ends the loop. */
  predicate Ends(turn: Turn) {
    turn.Message? && turn.msg.DownMsg?
  }

  /** How many turns are taken by a loop that stops after the first one that ends it. */
  function UpToEnd(turns: seq<Turn>): (n: nat)
    ensures n <= |turns|
    ensures forall i :: 0 <= i < n - 1 ==> !Ends(turns[i])
    ensures n < |turns| ==> n > 0 && Ends(turns[n - 1])
  {
    if turns == [] then 0
    else
      var n := UpToEnd(turns[..|turns| - 1]);
      if n < |turns| - 1 || (n > 0 && Ends(turns[n - 1])) then n else |turns|
  }

  /** The messages read in some turns, in order. */
  function ReadIn(turns: seq<Turn>): seq<Msg> {
    if turns == [] then [] else ReadIn(turns[..|turns| - 1]) + MessagesIn(turns[|turns| - 1])
  }

  /** The reason of the exit signal that a killer begins with. */
  function Asked(shutdown: ShutdownOpt): Reason {
    if shutdown.BrutalKill? then Kill else SupervisorShutdown
  }

  /** The messages that the killer's loop takes notice of; without a timer every turn is a message. */
  function Consumed(shutdown: ShutdownOpt, turns: seq<Turn>): seq<Msg> {
    match shutdown
    case BrutalKill => ReadIn(turns)
    case Infinity => ReadIn(turns)[..UpToDown(ReadIn(turns))]
    case After(_) => ReadIn(turns[..UpToEnd(turns)])
  }

  /** What a killer reports, all told. */
  function ReportsOf(shutdown: ShutdownOpt, restart: Restart, ref: Ref, turns: seq<Turn>): seq<Report> {
    Verdicts(Asked(shutdown), restart, Downs(Consumed(shutdown, turns), ref))
  }

  /** One exit signal for every time the timer fired. */
  function Kills(turns: seq<Turn>): seq<Reason> {
    if turns == [] then []
    else Kills(turns[..|turns| - 1]) + KillIn(turns[|turns| - 1])
  }

  /** The killer sends one kill for each time its timer fires, and nothing else. */
  lemma {:induction false} KillsAreExpiries(turns: seq<Turn>)
    ensures |Kills(turns)| == |ExpiriesIn(turns)| && forall k :: 0 <= k < |Kills(turns)| ==> Kills(turns)[k] == Kill
  {
    if turns != [] {
      KillsAreExpiries(turns[..|turns| - 1]);
    }
  }

  /** The places at which the timer fired. */
  function ExpiriesIn(turns: seq<Turn>): (places: seq<nat>)
    ensures forall k :: 0 <= k < |turns| ==> (k in places <==> turns[k].Expired?)
    ensures forall i, j :: 0 <= i < j < |places| ==> places[i] < places[j]
    ensures forall i :: 0 <= i < |places| ==> places[i] < |turns|
  {
    if turns == [] then []
    else
      var n := |turns| - 1;
      ExpiriesIn(turns[..n]) + match turns[n] { case Expired(_) => [n] case Message(_) => [] }
  }

  lemma TurnsNext(turns: seq<Turn>, k: nat)
    requires k < |turns|
    ensures ReadIn(turns[..k + 1]) == ReadIn(turns[..k]) + MessagesIn(turns[k])
    ensures Kills(turns[..k + 1]) == Kills(turns[..k]) + KillIn(turns[k])
  {
    assert turns[..k + 1][..k] == turns[..k];
  }

  lemma DownsNext(ms: seq<Msg>, k: nat, ref: Ref)
    requires k < |ms|
    ensures Downs(ms[..k + 1], ref)
         == Downs(ms[..k], ref) + if ms[k].DownMsg? && ms[k].ref == ref then [ms[k].reason] else []
  {
    assert ms[..k + 1][..k] == ms[..k];
  }

  lemma DownsSnoc(ms: seq<Msg>, m: Msg, ref: Ref)
    ensures Downs(ms + [m], ref) == Downs(ms, ref) + if m.DownMsg? && m.ref == ref then [m.reason] else []
  {
    assert (ms + [m])[..|ms|] == ms;
  }

  lemma VerdictsSnoc(asked: Reason, restart: Restart, reasons: seq<Reason>, reason: Reason)
    ensures Verdicts(asked, restart, reasons + [reason])
         == Verdicts(asked, restart, reasons) + [Verdict(asked, restart, reason)]
  {
  }

  function Reports(ref: Ref, restart: Restart, turn: Turn): seq<Report> {
    var ms := MessagesIn(turn);
    if ms != [] && ms[0].DownMsg? && ms[0].ref == ref then [Verdict(SupervisorShutdown, restart, ms[0].reason)] else []
  }

  /** What one more turn adds to the reports. */
  lemma ReportTurn(ref: Ref, restart: Restart, before: seq<Msg>, turn: Turn)
    ensures Verdicts(SupervisorShutdown, restart, Downs(before + MessagesIn(turn), ref))
         == Verdicts(SupervisorShutdown, restart, Downs(before, ref)) + Reports(ref, restart, turn)
  {
    var ms := MessagesIn(turn);
    if ms == [] {
      assert before + [] == before;
    } else {
      DownsSnoc(before, ms[0], ref);
      if Reports(ref, restart, turn) != [] {
        VerdictsSnoc(SupervisorShutdown, restart, Downs(before, ref), ms[0].reason);
      }
    }
  }

  /** The signals and reports sent in some turns, behind the ones sent before. */
  ghost predicate Told(ref: Ref, restart: Restart, turns: seq<Turn>, exits0: seq<Reason>, sent0: seq<Report>,
                       exits: seq<Reason>, sent: seq<Report>) {
    && exits == exits0 + Kills(turns)
    && sent == sent0 + Verdicts(SupervisorShutdown, restart, Downs(ReadIn(turns), ref))
  }

  lemma ToldNext(ref: Ref, restart: Restart, turns: seq<Turn>, k: nat, exits0: seq<Reason>, sent0: seq<Report>,
                 exits: seq<Reason>, sent: seq<Report>)
    requires k < |turns| && Told(ref, restart, turns[..k], exits0, sent0, exits, sent)
    ensures Told(ref, restart, turns[..k + 1], exits0, sent0, exits + KillIn(turns[k]),
                 sent + Reports(ref, restart, turns[k]))
  {
    ReportsNext(ref, restart, turns, k);
    TurnsNext(turns, k);
    Assoc(exits0, Kills(turns[..k]), KillIn(turns[k]));
    var reports := Verdicts(SupervisorShutdown, restart, Downs(ReadIn(turns[..k]), ref));
    Assoc(sent0, reports, Reports(ref, restart, turns[k]));
  }

  lemma ReportsNext(ref: Ref, restart: Restart, turns: seq<Turn>, k: nat)
    requires k < |turns|
    ensures Verdicts(SupervisorShutdown, restart, Downs(ReadIn(turns[..k + 1]), ref))
         == Verdicts(SupervisorShutdown, restart, Downs(ReadIn(turns[..k]), ref)) + Reports(ref, restart, turns[k])
  {
    TurnsNext(turns, k);
    ReportTurn(ref, restart, ReadIn(turns[..k]), turns[k]);
  }

  lemma Assoc<T>(a: seq<T>, b: seq<T>, c: seq<T>)
    ensures (a + b) + c == a + (b + c)
  {
  }

  lemma {:induction false} UpToEndIs(turns: seq<Turn>, k: nat)
    requires k <= |turns| && forall i :: 0 <= i < k - 1 ==> !Ends(turns[i])
    requires k < |turns| ==> k > 0 && Ends(turns[k - 1])
    ensures UpToEnd(turns) == k
  {
    var n := |turns| - 1;
    if k < n {
      UpToEndIs(turns[..n], k);
    } else if n >= 0 {
      var u := UpToEnd(turns[..n]);
    }
  }

  class Killer {
    const child: Pid
    const restart: Restart
    const shutdown: ShutdownOpt
    const monitorRef: Ref
    var sent: seq<Report>
    var exits: seq<Reason>

    constructor (child: Pid, restart: Restart, shutdown: ShutdownOpt, monitorRef: Ref)
      ensures this.child == child && this.restart == restart && this.shutdown == shutdown
      ensures this.monitorRef == monitorRef && sent == [] && exits == []
    {
      this.child := child;
      this.restart := restart;
      this.shutdown := shutdown;
      this.monitorRef := monitorRef;
      sent := [];
      exits := [];
    }

    /** `Receive`, after the child was monitored and unlinked. */
    method Receive(turns: seq<Turn>)
      modifies this
      ensures sent == old(sent) + ReportsOf(shutdown, restart, monitorRef, turns)
    {
      match shutdown
      case BrutalKill => HandleBrutalKill(ReadIn(turns));
      case Infinity => var read := HandleInfinity(ReadIn(turns));
      case After(_) => var used := HandleTimeout(turns);
    }

    /** `handleDown`. */
    method HandleDown(msg: Msg)
      requires msg.DownMsg?
      modifies this`sent
      ensures sent == old(sent)
                      + if msg.ref == monitorRef then [Verdict(SupervisorShutdown, restart, msg.reason)] else []
    {
      if msg.ref != monitorRef {
        return;
      }
      if msg.reason == SupervisorShutdown {
        sent := sent + [None];
      } else if msg.reason.Shutdown? && restart != Permanent {
        sent := sent + [None];
      } else if msg.reason == Normal && restart != Permanent {
        sent := sent + [None];
      } else {
        sent := sent + [Some(msg.reason)];
      }
    }

    /** `handleBrutalKill`, for all the messages that come before the inbox is closed: it does not stop after the
        report. */
    method HandleBrutalKill(inbox: seq<Msg>)
      modifies this
      ensures exits == old(exits) + [Kill]
      ensures sent == old(sent) + Verdicts(Kill, restart, Downs(inbox, monitorRef))
    {
      exits := exits + [Kill];
      ghost var reports: seq<Report> := [];
      var k := 0;
      while k < |inbox|
        invariant 0 <= k <= |inbox| && exits == old(exits) + [Kill]
        invariant reports == Verdicts(Kill, restart, Downs(inbox[..k], monitorRef))
        invariant sent == old(sent) + reports
      {
        DownsNext(inbox, k, monitorRef);
        var msg := inbox[k];
        if msg.DownMsg? && msg.ref == monitorRef {
          VerdictsSnoc(Kill, restart, Downs(inbox[..k], monitorRef), msg.reason);
          reports := reports + [Verdict(Kill, restart, msg.reason)];
          if msg.reason == Kill {
            sent := sent + [None];
          } else if msg.reason.Shutdown? && restart != Permanent {
            sent := sent + [None];
          } else if msg.reason == Normal && restart != Permanent {
            sent := sent + [None];
          } else {
            sent := sent + [Some(msg.reason)];
          }
        }
        k := k + 1;
      }
      assert inbox[..k] == inbox;
    }

    /** The loop for `Infinity`: it ends with the first down message, whether that is its own or not. */
    method HandleInfinity(inbox: seq<Msg>) returns (read: nat)
      modifies this
      ensures exits == old(exits) + [SupervisorShutdown]
      ensures read == UpToDown(inbox)
      ensures sent == old(sent) + Verdicts(SupervisorShutdown, restart, Downs(inbox[..read], monitorRef))
    {
      exits := exits + [SupervisorShutdown];
      read := 0;
      while read < |inbox|
        invariant 0 <= read <= |inbox| && exits == old(exits) + [SupervisorShutdown] && sent == old(sent)
        invariant Downs(inbox[..read], monitorRef) == []
        invariant forall i :: 0 <= i < read ==> !inbox[i].DownMsg?
      {
        DownsNext(inbox, read, monitorRef);
        read := read + 1;
        if inbox[read - 1].DownMsg? {
          HandleDown(inbox[read - 1]);
          return;
        }
      }
    }

    /** `handleTimeout`: after the timer the child is killed and one message awaited, but the loop goes on, whatever
        that message was; only a down message read by the select statement itself ends it. */
    method HandleTimeout(turns: seq<Turn>) returns (used: nat)
      modifies this
      ensures used == UpToEnd(turns)
      ensures exits == old(exits) + [SupervisorShutdown] + Kills(turns[..used])
      ensures sent == old(sent) + Verdicts(SupervisorShutdown, restart, Downs(ReadIn(turns[..used]), monitorRef))
    {
      exits := exits + [SupervisorShutdown];
      ghost var exits0, sent0 := exits, sent;
      used := 0;
      var stop := false;
      while used < |turns| && !stop
        invariant 0 <= used <= |turns|
        invariant forall i :: 0 <= i < used - 1 ==> !Ends(turns[i])
        invariant stop <==> used > 0 && Ends(turns[used - 1])
        invariant Told(monitorRef, restart, turns[..used], exits0, sent0, exits, sent)
      {
        stop := TakeNext(turns, used, exits0, sent0);
        used := used + 1;
      }
      UpToEndIs(turns, used);
    }

    /** The next turn, after what was told before. */
    method TakeNext(turns: seq<Turn>, k: nat, ghost exits0: seq<Reason>, ghost sent0: seq<Report>) returns (stop: bool)
      requires k < |turns| && Told(monitorRef, restart, turns[..k], exits0, sent0, exits, sent)
      modifies this
      ensures stop == Ends(turns[k])
      ensures Told(monitorRef, restart, turns[..k + 1], exits0, sent0, exits, sent)
    {
      ToldNext(monitorRef, restart, turns, k, exits0, sent0, exits, sent);
      stop := TakeTurn(turns[k]);
    }

    /** One turn of the loop. */
    method TakeTurn(turn: Turn) returns (stop: bool)
      modifies this
      ensures stop == Ends(turn)
      ensures exits == old(exits) + KillIn(turn)
      ensures sent == old(sent) + Reports(monitorRef, restart, turn)
    {
      match turn
      case Message(msg) =>
        if msg.DownMsg? {
          HandleDown(msg);
        }
        stop := msg.DownMsg?;
      case Expired(next) =>
        exits := exits + [Kill];
        if next.Some? && next.value.DownMsg? {
          HandleDown(next.value);
        }
        stop := false;
    }
  }

  // ---------------------------------------------------------------- in the running system

  lemma {:induction false} DownIsAmong(ms: seq<Msg>, ref: Ref, k: nat)
    requires k < |ms| && ms[k].DownMsg? && ms[k].ref == ref
    ensures ms[k].reason in Downs(ms, ref)
  {
    if k < |ms| - 1 {
      DownIsAmong(ms[..|ms| - 1], ref, k);
    }
  }

  lemma {:induction false} ReadAt(turns: seq<Turn>, k: nat, m: Msg)
    requires k < |turns| && (turns[k] == Message(m) || turns[k] == Expired(Some(m)))
    ensures m in ReadIn(turns)
  {
    if k < |turns| - 1 {
      ReadAt(turns[..|turns| - 1], k, m);
    }
  }

  /** A killer with a timer reports an own down message as well when it is the message waited for after the kill. */
  lemma DownAfterKillIsReported(restart: Restart, seconds: nat, ref: Ref, turns: seq<Turn>, k: nat, m: Msg)
    returns (report: Report)
    requires k < |turns| && (turns[k] == Message(m) || turns[k] == Expired(Some(m))) && m.DownMsg? && m.ref == ref
    requires forall j :: 0 <= j < k ==> !(turns[j].Message? && turns[j].msg.DownMsg?)
    ensures report in ReportsOf(After(seconds), restart, ref, turns)
    ensures ReportFits(After(seconds), restart, m.reason, report)
  {
    var part := turns[..UpToEnd(turns)];
    assert part[k] == turns[k];
    ReadAt(part, k, m);
    var ms := ReadIn(part);
    var i :| 0 <= i < |ms| && ms[i] == m;
    DownIsAmong(ms, ref, i);
    report := VerdictIsAmong(restart, seconds, Downs(ms, ref), m.reason);
  }

  lemma VerdictIsAmong(restart: Restart, seconds: nat, reasons: seq<Reason>, reason: Reason) returns (report: Report)
    requires reason in reasons
    ensures report in Verdicts(SupervisorShutdown, restart, reasons)
    ensures ReportFits(After(seconds), restart, reason, report)
  {
    var j :| 0 <= j < |reasons| && reasons[j] == reason;
    report := Verdict(SupervisorShutdown, restart, reason);
    assert Verdicts(SupervisorShutdown, restart, reasons)[j] == report;
  }

  lemma {:induction false} OneDown(ms: seq<Msg>, ref: Ref) returns (k: nat)
    requires Downs(ms, ref) != []
    ensures k < |ms| && ms[k].DownMsg? && ms[k].ref == ref
  {
    var n := |ms| - 1;
    if ms[n].DownMsg? && ms[n].ref == ref {
      k := n;
    } else {
      k := OneDown(ms[..n], ref);
    }
  }

  lemma {:induction false} TwoDowns(ms: seq<Msg>, ref: Ref) returns (k: nat, l: nat)
    requires |Downs(ms, ref)| >= 2
    ensures k < l < |ms|
    ensures ms[k].DownMsg? && ms[k].ref == ref && ms[l].DownMsg? && ms[l].ref == ref
  {
    var n := |ms| - 1;
    if ms[n].DownMsg? && ms[n].ref == ref {
      k := OneDown(ms[..n], ref);
      l := n;
    } else {
      k, l := TwoDowns(ms[..n], ref);
    }
  }

  /** In every reachable state: a killer has read at most one down message under its reference, so with whatever
      shutdown option it has reported at most once; and if it has, the child it monitors is no longer running. */
  lemma ReportsOnceAfterDeath(s: Sys, i: Pid, ref: Ref, asked: Reason, restart: Restart, read: seq<Msg>)
    requires Reachable(s) && i < |s.procs| && read <= s.procs[i].mail.taken
    ensures |Verdicts(asked, restart, Downs(read, ref))| <= 1
    ensures Downs(read, ref) != [] ==>
              && ref < |s.refs|
              && Watches(s, i, ref, s.refs[ref].monitored)
              && Knows(s, s.refs[ref].monitored) && !IsRunning(s, s.refs[ref].monitored)
  {
    ReachableIsSafe(s);
    var p := s.procs[i];
    assert LocalOk(p);
    assert read <= p.mail.accepted;
    if Downs(read, ref) != [] {
      var k := OneDown(read, ref);
      assert p.mail.accepted[k] == read[k];
      assert read[k] in p.mail.accepted;
      assert ProcFacts(s, p) && GoodSig(s, i, DownSig(read[k].proc, ref, read[k].reason));
    }
    if |Downs(read, ref)| >= 2 {
      var k, l := TwoDowns(read, ref);
      OneDownMessage(s, ref, i, i, k, l);
    }
  }

  // ---------------------------------------------------------------- exactly once

  /** The process `i` has monitored one process only, under `r`: what `Receive` does before its loops. */
  ghost predicate WatchesOnly(s: Sys, i: Pid, r: Ref) {
    && r < |s.refs| && s.refs[r].monitor == i && i < |s.procs|
    && forall q :: 0 <= q < |s.refs| && q != r ==> s.refs[q].monitor != i
  }

  ghost predicate OnlyOwn(ms: seq<Msg>, ref: Ref) {
    forall k :: 0 <= k < |ms| && ms[k].DownMsg? ==> ms[k].ref == ref
  }

  /** Such a process gets no foreign down message. */
  lemma NoForeignDowns(s: Sys, i: Pid, r: Ref)
    requires Reachable(s) && WatchesOnly(s, i, r)
    ensures OnlyOwn(s.procs[i].mail.accepted, r)
  {
    ReachableIsSafe(s);
    var p := s.procs[i];
    forall k | 0 <= k < |p.mail.accepted| && p.mail.accepted[k].DownMsg?
      ensures p.mail.accepted[k].ref == r
    {
      var m := p.mail.accepted[k];
      assert m in p.mail.accepted && ProcFacts(s, p) && GoodSig(s, i, DownSig(m.proc, m.ref, m.reason));
    }
  }

  lemma {:induction false} SomeDown(ms: seq<Msg>, ref: Ref, k: nat)
    requires k < |ms| && ms[k].DownMsg? && ms[k].ref == ref
    ensures Downs(ms, ref) != []
  {
    if k < |ms| - 1 {
      SomeDown(ms[..|ms| - 1], ref, k);
    }
  }

  lemma {:induction false} DownsPrefix(ms: seq<Msg>, n: nat, ref: Ref)
    requires n <= |ms|
    ensures Downs(ms[..n], ref) <= Downs(ms, ref)
  {
    if n < |ms| {
      var last := |ms| - 1;
      DownsPrefix(ms[..last], n, ref);
      assert ms[..last][..n] == ms[..n];
    } else {
      assert ms[..n] == ms;
    }
  }

  lemma {:induction false} ReadInPrefix(turns: seq<Turn>, n: nat)
    requires n <= |turns|
    ensures ReadIn(turns[..n]) <= ReadIn(turns)
  {
    if n < |turns| {
      var last := |turns| - 1;
      ReadInPrefix(turns[..last], n);
      assert turns[..last][..n] == turns[..n];
    } else {
      assert turns[..n] == turns;
    }
  }

  lemma ConsumedPrefix(shutdown: ShutdownOpt, turns: seq<Turn>)
    ensures Consumed(shutdown, turns) <= ReadIn(turns)
  {
    ReadInPrefix(turns, UpToEnd(turns));
  }

  /** A loop that ends early has read a down message. */
  lemma EndedByDown(shutdown: ShutdownOpt, turns: seq<Turn>, ref: Ref)
    requires OnlyOwn(ReadIn(turns), ref) && Consumed(shutdown, turns) != ReadIn(turns)
    ensures Downs(Consumed(shutdown, turns), ref) != []
  {
    var all, ms := ReadIn(turns), Consumed(shutdown, turns);
    ConsumedPrefix(shutdown, turns);
    assert all[..|all|] == all && turns[..|turns|] == turns;
    if shutdown.Infinity? {
      var n := UpToDown(all);
      assert ms[n - 1] == all[n - 1];
      SomeDown(ms, ref, n - 1);
    } else {
      var n := UpToEnd(turns);
      TurnsNext(turns, n - 1);
      assert ms[|ms| - 1] == turns[n - 1].msg;
      assert all[|ms| - 1] == turns[n - 1].msg;
      SomeDown(ms, ref, |ms| - 1);
    }
  }

  /** If there is one down message and it is the killer's own, the loop reads it, whichever loop it is. */
  lemma OwnDownIsConsumed(shutdown: ShutdownOpt, turns: seq<Turn>, ref: Ref)
    requires OnlyOwn(ReadIn(turns), ref) && |Downs(ReadIn(turns), ref)| <= 1
    ensures Downs(Consumed(shutdown, turns), ref) == Downs(ReadIn(turns), ref)
  {
    var all, ms := ReadIn(turns), Consumed(shutdown, turns);
    if ms != all {
      ConsumedPrefix(shutdown, turns);
      EndedByDown(shutdown, turns, ref);
      assert ms == all[..|ms|];
      DownsPrefix(all, |ms|, ref);
    }
  }

  /** The killer of a child that has exited, once everything has settled and all that was delivered to it has been
      offered to it: it has reported exactly once, with each of the three shutdown options; unless its monitor request
      was lost, and then it has not reported, and its loop is still waiting. */
  lemma ReportsExactlyOnce(s: Sys, i: Pid, r: Ref, shutdown: ShutdownOpt, restart: Restart, turns: seq<Turn>)
    requires Reachable(s) && Quiescent(s) && WatchesOnly(s, i, r) && Faithful(s, r)
    requires s.refs[r].monitored < |s.procs| && s.procs[s.refs[r].monitored].Told()
    requires ReadIn(turns) == s.procs[i].mail.accepted
    ensures |ReportsOf(shutdown, restart, r, turns)| == if LostForGood(s, r) then 0 else 1
    ensures LostForGood(s, r) ==>
              Consumed(shutdown, turns) == ReadIn(turns)
              && forall k :: 0 <= k < |ReadIn(turns)| ==> !ReadIn(turns)[k].DownMsg?
  {
    var ms := s.procs[i].mail.accepted;
    NoForeignDowns(s, i, r);
    DownIsCertain(s, r);
    if |Downs(ms, r)| >= 2 {
      var k, l := TwoDowns(ms, r);
      OneDownMessage(s, r, i, i, k, l);
      assert false;
    }
    OwnDownIsConsumed(shutdown, turns, r);
    if HasDown(s, r) {
      var reason :| DownMsg(s.refs[r].monitored, r, reason) in ms;
      var k :| 0 <= k < |ms| && ms[k] == DownMsg(s.refs[r].monitored, r, reason);
      SomeDown(ms, r, k);
    } else {
      NothingForLost(s, i, r);
      if Consumed(shutdown, turns) != ReadIn(turns) {
        EndedByDown(shutdown, turns, r);
      }
    }
  }

  /** No error is reported for the exit that was asked for, nor, unless the child is permanent, for a clean one; for any
      other exit its reason is. */
  predicate ReportFits(shutdown: ShutdownOpt, restart: Restart, reason: Reason, report: Report) {
    if reason == (if shutdown.BrutalKill? then Kill else SupervisorShutdown) then report == None
    else if restart != Permanent && (reason == Normal || reason.Shutdown?) then report == None
    else report == Some(reason)
  }

  lemma {:induction false} TheDown(ms: seq<Msg>, ref: Ref) returns (k: nat)
    requires |Downs(ms, ref)| == 1
    ensures k < |ms| && ms[k].DownMsg? && ms[k].ref == ref && Downs(ms, ref) == [ms[k].reason]
  {
    var n := |ms| - 1;
    if ms[n].DownMsg? && ms[n].ref == ref {
      k := n;
    } else {
      k := TheDown(ms[..n], ref);
    }
  }

  /** What the one report says: it fits the reason the child really had, or NoProc if it was gone before. */
  lemma ReportIsTrue(s: Sys, i: Pid, r: Ref, shutdown: ShutdownOpt, restart: Restart, turns: seq<Turn>)
    returns (reason: Reason)
    requires Reachable(s) && Quiescent(s) && WatchesOnly(s, i, r) && Faithful(s, r) && !LostForGood(s, r)
    requires s.refs[r].monitored < |s.procs| && s.procs[s.refs[r].monitored].Told()
    requires ReadIn(turns) == s.procs[i].mail.accepted
    ensures HasTold(s, s.refs[r].monitored, reason) || reason == NoProc
    ensures |ReportsOf(shutdown, restart, r, turns)| == 1
    ensures ReportFits(shutdown, restart, reason, ReportsOf(shutdown, restart, r, turns)[0])
  {
    ReportsExactlyOnce(s, i, r, shutdown, restart, turns);
    var ms := Consumed(shutdown, turns);
    ConsumedPrefix(shutdown, turns);
    var k := TheDown(ms, r);
    reason := ms[k].reason;
    ReadDownIsTrue(s, i, r, k, ms[k]);
  }

  lemma ReadDownIsTrue(s: Sys, i: Pid, r: Ref, k: nat, m: Msg)
    requires Reachable(s) && Quiescent(s) && WatchesOnly(s, i, r) && Faithful(s, r)
    requires s.refs[r].monitored < |s.procs| && s.procs[s.refs[r].monitored].Told()
    requires k < |s.procs[i].mail.accepted| && s.procs[i].mail.accepted[k] == m && m.DownMsg? && m.ref == r
    ensures HasTold(s, s.refs[r].monitored, m.reason) || m.reason == NoProc
  {
    ReachableIsSafe(s);
    DownIsCertain(s, r);
    assert m in s.procs[i].mail.accepted && ProcFacts(s, s.procs[i]);
    assert GoodSig(s, i, DownSig(m.proc, m.ref, m.reason));
    assert m == DownMsg(s.refs[r].monitored, r, m.reason);
  }

  lemma NothingForLost(s: Sys, i: Pid, r: Ref)
    requires Reachable(s) && WatchesOnly(s, i, r) && LostForGood(s, r) && s.refs[r].monitored != i
    ensures forall k :: 0 <= k < |s.procs[i].mail.accepted| ==> !s.procs[i].mail.accepted[k].DownMsg?
    ensures Downs(s.procs[i].mail.accepted, r) == []
  {
    NoForeignDowns(s, i, r);
    var ms := s.procs[i].mail.accepted;
    forall k | 0 <= k < |ms|
      ensures !ms[k].DownMsg?
    {
      NoDownElsewhere(s, r, i, k);
    }
    NoDowns(ms, r);
  }

  /** When the request was lost, the supervisor waits for ever: however the run goes on, whatever the killer reads, it
      sends no report. */
  lemma WaitNeverEnds(s: Sys, actions: seq<Action>, t: Sys, i: Pid, r: Ref, shutdown: ShutdownOpt, restart: Restart,
                      turns: seq<Turn>)
    requires Reachable(s) && Onward(s, actions, t) && LostForGood(s, r)
    requires s.refs[r].monitor == i != s.refs[r].monitored
    requires i < |t.procs| && ReadIn(turns) <= t.procs[i].mail.accepted
    ensures ReportsOf(shutdown, restart, r, turns) == []
  {
    var ms := Consumed(shutdown, turns);
    ConsumedPrefix(shutdown, turns);
    if Downs(ms, r) != [] {
      var k := OneDown(ms, r);
      assert t.procs[i].mail.accepted[k] == ms[k];
      NeverTold(s, actions, t, r, i, k);
    }
  }

  /** The killer as an object, in a settled system: as many reports as that. */
  method ShutDownChild(killer: Killer, turns: seq<Turn>, ghost s: Sys, ghost i: Pid)
    requires killer.sent == []
    requires Reachable(s) && Quiescent(s) && WatchesOnly(s, i, killer.monitorRef) && Faithful(s, killer.monitorRef)
    requires s.refs[killer.monitorRef] == RefInfo(i, killer.child, false)
    requires killer.child < |s.procs| && s.procs[killer.child].Told()
    requires ReadIn(turns) == s.procs[i].mail.accepted
    modifies killer
    ensures |killer.sent| == if LostForGood(s, killer.monitorRef) then 0 else 1
    ensures killer.sent != [] ==> !IsRunning(s, killer.child)
  {
    ReportsExactlyOnce(s, i, killer.monitorRef, killer.shutdown, killer.restart, turns);
    killer.Receive(turns);
  }

  /** A process that exits before the killer looks is reported no differently: a killer that has only ever monitored its
      child, and so reads no foreign down message, has reported exactly when its loop was ended by a message. */
  lemma InfinityReportsIffEnded(inbox: seq<Msg>, ref: Ref, asked: Reason, restart: Restart)
    requires forall i :: 0 <= i < |inbox| && inbox[i].DownMsg? ==> inbox[i].ref == ref
    ensures var n := UpToDown(inbox);
            |Verdicts(asked, restart, Downs(inbox[..n], ref))|
            == if n > 0 && inbox[n - 1].DownMsg? then 1 else 0
  {
    var n := UpToDown(inbox);
    if n > 0 {
      NoDowns(inbox[..n - 1], ref);
      DownsNext(inbox, n - 1, ref);
    }
  }

  lemma {:induction false} NoDowns(ms: seq<Msg>, ref: Ref)
    requires forall i :: 0 <= i < |ms| ==> !ms[i].DownMsg?
    ensures Downs(ms, ref) == []
  {
    if ms != [] {
      NoDowns(ms[..|ms| - 1], ref);
    }
  }

  /** A foreign down message ends the loops of `Infinity` and `After` without any report: nothing would ever be sent to
      the waiting supervisor. */
  lemma ForeignDownEndsSilently(inbox: seq<Msg>, ref: Ref, asked: Reason, restart: Restart, k: nat)
    requires k < |inbox| && inbox[k].DownMsg? && inbox[k].ref != ref
    requires forall i :: 0 <= i < k ==> !inbox[i].DownMsg?
    ensures UpToDown(inbox) == k + 1
    ensures Verdicts(asked, restart, Downs(inbox[..k + 1], ref)) == []
  {
    var n := UpToDown(inbox);
    NoDowns(inbox[..k], ref);
    DownsNext(inbox, k, ref);
    UpToDownIs(inbox, k);
  }

  lemma {:induction false} UpToDownIs(ms: seq<Msg>, k: nat)
    requires k < |ms| && ms[k].DownMsg? && forall i :: 0 <= i < k ==> !ms[i].DownMsg?
    ensures UpToDown(ms) == k + 1
  {
    var n := |ms| - 1;
    if k < n {
      UpToDownIs(ms[..n], k);
    } else {
      var u := UpToDown(ms[..n]);
    }
  }
}
