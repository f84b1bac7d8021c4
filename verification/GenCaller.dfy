/** The client side of a call: the process that stands between the caller and the server (`erl/genserver/gen_caller.go`)
    and `Call` (`erl/genserver/api.go`), over the runtime's own inboxes. */
module GenCaller {
  import opened Types
  import opened Inboxes
  import opened Runtime
  import opened RuntimeLocal
  import opened RuntimeSafety

  datatype Status = StatusOk | StatusStopped | StatusOther | StatusTimeout

  datatype Content = Value(term: int) | Because(reason: Reason) | Nothing

  datatype CallReply = CallReply(status: Status, content: Content)

  /** How a term that was sent reads as a reply, if it is one. */
  type Decoder = int -> Option<CallReply>

  /** `handleMsg`: what one message makes the proxy forward, if anything. */
  function Handled(decode: Decoder, ref: Ref, m: Msg): Option<CallReply> {
    match m
    case Term(x) => decode(x)
    case DownMsg(_, r, reason) =>
      if r != ref then None
      else if reason == Normal || reason.Shutdown? then Some(CallReply(StatusStopped, Because(reason)))
      else Some(CallReply(StatusOther, Because(reason)))
    case ExitMsg(_, _, _) => None
  }

  predicate IsReply(decode: Decoder, m: Msg) {
    m.Term? && decode(m.term).Some?
  }

  /** What the select statement of the proxy yields. */
  datatype Turn = Read(msg: Msg) | Timer

  function Forwards(decode: Decoder, ref: Ref, turn: Turn): Option<CallReply> {
    match turn
    case Read(m) => Handled(decode, ref, m)
    case Timer => Some(CallReply(StatusTimeout, Nothing))
  }

  /** No timer, no reply and no down message of the server among the first `k` turns. */
  predicate Quiet(decode: Decoder, ref: Ref, turns: seq<Turn>, k: nat)
    requires k <= |turns|
  {
    forall j :: 0 <= j < k ==>
      && turns[j].Read?
      && (turns[j].msg.Term? ==> decode(turns[j].msg.term) == None)
      && (turns[j].msg.DownMsg? ==> turns[j].msg.ref != ref)
  }

  /** The first turn that is not quiet is at `k`. */
  predicate FirstLoud(decode: Decoder, ref: Ref, turns: seq<Turn>, k: nat) {
    k < |turns| && Quiet(decode, ref, turns, k) && !Quiet(decode, ref, turns, k + 1)
  }

  /** What is forwarded at the first turn that is not quiet: the reply; for the server's down message whether the server
      stopped or failed, and why; for the timer that it has expired. */
  predicate Forwarded(decode: Decoder, turn: Turn, reply: CallReply) {
    match turn
    case Read(Term(x)) => decode(x) == Some(reply)
    case Read(DownMsg(_, _, Normal)) => reply == CallReply(StatusStopped, Because(Normal))
    case Read(DownMsg(_, _, Shutdown(info))) => reply == CallReply(StatusStopped, Because(Shutdown(info)))
    case Read(DownMsg(_, _, reason)) => reply == CallReply(StatusOther, Because(reason))
    case Read(ExitMsg(_, _, _)) => false
    case Timer => reply == CallReply(StatusTimeout, Nothing)
  }

  lemma QuietForwardsNothing(decode: Decoder, ref: Ref, turns: seq<Turn>, k: nat)
    requires k <= |turns|
    ensures Quiet(decode, ref, turns, k) <==> forall j :: 0 <= j < k ==> Forwards(decode, ref, turns[j]) == None
  {
  }

  class Proxy {
    const decode: Decoder
    const gsRef: Ref
    var out: seq<CallReply>

    constructor (decode: Decoder, gsRef: Ref)
      ensures this.decode == decode && this.gsRef == gsRef && out == []
    {
      this.decode := decode;
      this.gsRef := gsRef;
      out := [];
    }

    /** `handleMsg`; whether the proxy is finished. */
    method HandleMsg(m: Msg) returns (finished: bool)
      modifies this`out
      ensures finished == Handled(decode, gsRef, m).Some?
      ensures out == old(out) + if finished then [Handled(decode, gsRef, m).value] else []
    {
      match m
      case Term(x) =>
        finished := decode(x).Some?;
        if finished {
          out := out + [decode(x).value];
        }
      case DownMsg(_, r, reason) =>
        finished := r == gsRef;
        if finished {
          var status := if reason == Normal || reason.Shutdown? then StatusStopped else StatusOther;
          out := out + [CallReply(status, Because(reason))];
        }
      case ExitMsg(_, _, _) => finished := false;
    }

    /** `Receive`, for the turns so far: the first one that has something to forward is the last one. */
    method Receive(turns: seq<Turn>) returns (used: nat)
      requires out == []
      modifies this`out
      ensures used <= |turns|
      ensures forall i :: 0 <= i < used - 1 ==> Forwards(decode, gsRef, turns[i]) == None
      ensures used < |turns| ==> out != []
      ensures out == if used > 0 && Forwards(decode, gsRef, turns[used - 1]).Some?
                     then [Forwards(decode, gsRef, turns[used - 1]).value] else []
      ensures forall k: nat :: FirstLoud(decode, gsRef, turns, k) ==>
                used == k + 1 && |out| == 1 && Forwarded(decode, turns[k], out[0])
      ensures Quiet(decode, gsRef, turns, |turns|) ==> used == |turns| && out == []
    {
      used := 0;
      var finished := false;
      while used < |turns| && !finished
        invariant 0 <= used <= |turns|
        invariant forall i :: 0 <= i < used - 1 ==> Forwards(decode, gsRef, turns[i]) == None
        invariant finished <==> used > 0 && Forwards(decode, gsRef, turns[used - 1]).Some?
        invariant out == if finished then [Forwards(decode, gsRef, turns[used - 1]).value] else []
        decreases |turns| - used
      {
        match turns[used] {
          case Read(m) => finished := HandleMsg(m);
          case Timer =>
            out := out + [CallReply(StatusTimeout, Nothing)];
            finished := true;
        }
        used := used + 1;
      }
    }
  }

  /** What `Call` returns. */
  datatype Result = Returned(content: Content) | Failed(reason: Reason)

  /** The switch of `Call` over what it receives on the channel, or nothing before its own timer fires. */
  function ResultOf(received: Option<CallReply>): Result {
    match received
    case None => Failed(Timeout)
    case Some(CallReply(status, content)) =>
      match status
      case StatusOk => Returned(content)
      case StatusStopped => Failed(Stopped)
      case StatusOther => Failed(Exception("Got error"))
      case StatusTimeout => Failed(Timeout)
  }

  /** How the call ends when the proxy meets this turn first. */
  predicate Decides(decode: Decoder, turn: Turn, result: Result) {
    match turn
    case Read(Term(x)) =>
      && decode(x).Some?
      && match decode(x).value.status {
           case StatusOk => result == Returned(decode(x).value.content)
           case StatusStopped => result == Failed(Stopped)
           case StatusOther => result == Failed(Exception("Got error"))
           case StatusTimeout => result == Failed(Timeout)
         }
    case Read(DownMsg(_, _, reason)) =>
      if reason == Normal || reason.Shutdown? then result == Failed(Stopped)
      else result == Failed(Exception("Got error"))
    case Read(ExitMsg(_, _, _)) => false
    case Timer => result == Failed(Timeout)
  }

  lemma ForwardedDecides(decode: Decoder, turn: Turn, reply: CallReply)
    requires Forwarded(decode, turn, reply)
    ensures Decides(decode, turn, ResultOf(Some(reply)))
  {
  }

  // ---------------------------------------------------------------- messages and signals

  /** The message at a place comes from one handled signal; the messages before it are the translation of the signals
      before that one. */
  lemma {:induction false} OriginOf(self: Pid, h: seq<Signal>, traps: seq<bool>, k: nat) returns (b: nat)
    requires |h| == |traps| && k < |Translate(self, h, traps)|
    ensures b < |h|
    ensures Translate(self, h, traps)[..k] == Translate(self, h[..b], traps[..b])
    ensures MessagesOf(self, Known(self, h[..b]), h[b], traps[b]) == [Translate(self, h, traps)[k]]
  {
    var n := |h| - 1;
    var front := Translate(self, h[..n], traps[..n]);
    if k < |front| {
      b := OriginOf(self, h[..n], traps[..n], k);
      assert h[..n][..b] == h[..b] && traps[..n][..b] == traps[..b];
    } else {
      b := n;
      assert k == |front|;
    }
  }

  /** A message signal that was handled is among the messages. */
  lemma {:induction false} TermIsThere(self: Pid, h: seq<Signal>, traps: seq<bool>, a: nat)
    requires |h| == |traps| && a < |h| && h[a].MessageSig?
    ensures Term(h[a].term) in Translate(self, h, traps)
  {
    var n := |h| - 1;
    if a < n {
      TermIsThere(self, h[..n], traps[..n], a);
    }
  }

  /** The first thing among `ms` that the proxy forwards is at `f`. */
  ghost predicate FirstHandled(decode: Decoder, ref: Ref, ms: seq<Msg>, f: nat) {
    && f < |ms| && Handled(decode, ref, ms[f]).Some?
    && forall i :: 0 <= i < f ==> Handled(decode, ref, ms[i]) == None
  }

  /** A reply that was accepted by the proxy's process before any down signal under its reference. */
  ghost predicate RepliedBeforeDown(decode: Decoder, ref: Ref, accepted: seq<Signal>, a: nat) {
    && a < |accepted| && accepted[a].MessageSig? && decode(accepted[a].term).Some?
    && forall b :: 0 <= b < |accepted| && accepted[b].DownSig? && accepted[b].ref == ref ==> a < b
  }

  lemma HandledPrefix(s: Sys, i: Pid, read: seq<Msg>, f: nat) returns (b: nat)
    requires Reachable(s) && i < |s.procs| && read <= s.procs[i].mail.taken && f < |read|
    ensures var p := s.procs[i];
            && |p.traps| == |p.box.taken| && b < |p.box.taken| && p.box.taken <= p.box.accepted
            && read[..f] == Translate(i, p.box.taken[..b], p.traps[..b])
            && MessagesOf(i, Known(i, p.box.taken[..b]), p.box.taken[b], p.traps[b]) == [read[f]]
  {
    ReadsInOrder(s, i);
    var p := s.procs[i];
    var t := Translate(i, p.box.taken, p.traps);
    assert read <= t;
    b := OriginOf(i, p.box.taken, p.traps, f);
    assert t[..f] == read[..f] && t[f] == read[f];
  }

  /** Whatever the proxy `i` of a call has read, in any reachable state of any system: if a reply reached it before the
      down signal of the server, then what it forwards is a reply, never the down message. */
  lemma ReplyBeatsDown(decode: Decoder, s: Sys, i: Pid, ref: Ref, read: seq<Msg>, f: nat, a: nat)
    requires Reachable(s) && i < |s.procs| && read <= s.procs[i].mail.taken
    requires FirstHandled(decode, ref, read, f)
    requires RepliedBeforeDown(decode, ref, s.procs[i].box.accepted, a)
    ensures IsReply(decode, read[f])
  {
    if read[f].DownMsg? {
      var p := s.procs[i];
      var b := HandledPrefix(s, i, read, f);
      var sig := p.box.taken[b];
      assert sig.DownSig? && sig.ref == ref;
      assert p.box.accepted[b] == sig && p.box.accepted[a] == p.box.taken[a];
      assert p.box.taken[..b][a] == p.box.taken[a];
      TermIsThere(i, p.box.taken[..b], p.traps[..b], a);
    }
  }

  /** A reply that a proxy forwards is the first one that was sent to that very process: no reply was accepted for it
      earlier. */
  lemma ForwardsFirstReply(decode: Decoder, s: Sys, i: Pid, ref: Ref, read: seq<Msg>, f: nat) returns (b: nat)
    requires Reachable(s) && i < |s.procs| && read <= s.procs[i].mail.taken
    requires FirstHandled(decode, ref, read, f) && IsReply(decode, read[f])
    ensures var sigs := s.procs[i].box.accepted;
            && b < |sigs| && sigs[b] == MessageSig(read[f].term)
            && forall a :: 0 <= a < b && sigs[a].MessageSig? ==> decode(sigs[a].term) == None
  {
    var p := s.procs[i];
    b := HandledPrefix(s, i, read, f);
    assert p.box.accepted[b] == p.box.taken[b];
    forall a | 0 <= a < b && p.box.accepted[a].MessageSig?
      ensures decode(p.box.accepted[a].term) == None
    {
      assert p.box.taken[..b][a] == p.box.accepted[a];
      TermIsThere(i, p.box.taken[..b], p.traps[..b], a);
      var m := Term(p.box.accepted[a].term);
      assert m in read[..f];
      var j :| 0 <= j < f && read[..f][j] == m;
      assert Handled(decode, ref, read[j]) == None;
    }
  }

  // ---------------------------------------------------------------- a whole call

  /** The messages read in some turns, in order. */
  function ReadIn(turns: seq<Turn>): seq<Msg> {
    if turns == [] then []
    else
      var t := turns[|turns| - 1];
      ReadIn(turns[..|turns| - 1]) + match t { case Read(m) => [m] case Timer => [] }
  }

  /** Turns before the one that has something to forward are all messages. */
  lemma {:induction false} AllRead(decode: Decoder, ref: Ref, turns: seq<Turn>)
    requires forall i :: 0 <= i < |turns| ==> Forwards(decode, ref, turns[i]) == None
    ensures |ReadIn(turns)| == |turns|
    ensures forall i :: 0 <= i < |turns| ==> turns[i] == Turn.Read(ReadIn(turns)[i])
  {
    if turns != [] {
      AllRead(decode, ref, turns[..|turns| - 1]);
      assert turns[|turns| - 1].Read?;
    }
  }

  /** The first turn that forwards something, if it is a message, is the first message that is handled. */
  lemma FirstForwarded(decode: Decoder, ref: Ref, turns: seq<Turn>)
    requires turns != [] && turns[|turns| - 1].Read?
    requires Forwards(decode, ref, turns[|turns| - 1]).Some?
    requires forall i :: 0 <= i < |turns| - 1 ==> Forwards(decode, ref, turns[i]) == None
    ensures FirstHandled(decode, ref, ReadIn(turns), |turns| - 1)
    ensures Turn.Read(ReadIn(turns)[|turns| - 1]) == turns[|turns| - 1]
  {
    var n := |turns| - 1;
    AllRead(decode, ref, turns[..n]);
    var ms := ReadIn(turns);
    assert ms == ReadIn(turns[..n]) + [turns[n].msg];
    forall i | 0 <= i < n
      ensures Handled(decode, ref, ms[i]) == None
    {
      assert turns[..n][i] == Turn.Read(ms[i]);
    }
  }

  /** A reply with this content was accepted by the process `i`, and no other reply before it. */
  ghost predicate FirstReplyTo(decode: Decoder, s: Sys, i: Pid, content: Content)
    requires i < |s.procs|
  {
    var sigs := s.procs[i].box.accepted;
    exists b :: 0 <= b < |sigs| && FirstReplyAt(decode, sigs, b, content)
  }

  ghost predicate FirstReplyAt(decode: Decoder, sigs: seq<Signal>, b: nat, content: Content)
    requires b < |sigs|
  {
    && sigs[b].MessageSig? && decode(sigs[b].term) == Some(CallReply(StatusOk, content))
    && forall a :: 0 <= a < b && sigs[a].MessageSig? ==> decode(sigs[a].term) == None
  }

  /** All replies are sent with the status OK, as `Reply` and the server do. */
  ghost predicate RepliesAreOk(decode: Decoder) {
    forall x :: decode(x).Some? ==> decode(x).value.status == StatusOk
  }

  lemma {:induction false} ReadInPrefix(turns: seq<Turn>, n: nat)
    requires n <= |turns|
    ensures ReadIn(turns[..n]) <= ReadIn(turns)
  {
    if n < |turns| {
      var last := |turns| - 1;
      ReadInPrefix(turns[..last], n);
      assert turns[..last][..n] == turns[..n];
    } else {
      assert turns[..n] == turns;
    }
  }

  /** What the proxy forwards, if it is not its timer, is the first message that is handled among those it has read. */
  lemma ReadSoFar(decode: Decoder, ref: Ref, turns: seq<Turn>, used: nat) returns (read: seq<Msg>)
    requires 0 < used <= |turns| && turns[used - 1].Read? && Forwards(decode, ref, turns[used - 1]).Some?
    requires forall k :: 0 <= k < used - 1 ==> Forwards(decode, ref, turns[k]) == None
    ensures read <= ReadIn(turns) && FirstHandled(decode, ref, read, used - 1)
    ensures turns[used - 1] == Turn.Read(read[used - 1])
  {
    var part := turns[..used];
    assert part[used - 1] == turns[used - 1];
    ReadInPrefix(turns, used);
    FirstForwarded(decode, ref, part);
    read := ReadIn(part);
  }

  lemma HandledFirst(decode: Decoder, s: Sys, i: Pid, ref: Ref, read: seq<Msg>, f: nat, a: nat)
    requires Reachable(s) && i < |s.procs| && read <= s.procs[i].mail.taken && FirstHandled(decode, ref, read, f)
    ensures var reply := Handled(decode, ref, read[f]).value;
            IsReply(decode, read[f]) && reply.status == StatusOk ==> FirstReplyTo(decode, s, i, reply.content)
    ensures RepliedBeforeDown(decode, ref, s.procs[i].box.accepted, a) ==> IsReply(decode, read[f])
  {
    if RepliedBeforeDown(decode, ref, s.procs[i].box.accepted, a) {
      ReplyBeatsDown(decode, s, i, ref, read, f, a);
    }
    if IsReply(decode, read[f]) {
      var b := ForwardsFirstReply(decode, s, i, ref, read, f);
      var reply := decode(read[f].term).value;
      if reply.status == StatusOk {
        assert FirstReplyAt(decode, s.procs[i].box.accepted, b, reply.content);
      }
    }
  }

  /** A call from its beginning to its end: the destination is resolved, the proxy runs as the process `i`, and takes
      its turns in any reachable state of any system; `inTime` tells whether the caller's own timer waits for what the
      proxy sends. A value is returned only if it is the first reply that was sent to that very proxy. If some reply
      reached it before the server's down signal, the call does not fail because of the server's end: it returns a
      value, or it has timed out. And what the proxy meets first decides: a reply is returned, the server's down message
      makes the call fail, with Stopped if the server stopped in order, and the timer gives Timeout. */
  method Call(self: Pid, gensrv: Option<Pid>, decode: Decoder, ref: Ref, turns: seq<Turn>, inTime: bool,
              ghost s: Sys, ghost i: Pid, ghost a: nat)
    returns (result: Result)
    requires Reachable(s) && i < |s.procs| && ReadIn(turns) <= s.procs[i].mail.taken
    ensures gensrv == None ==> result == Failed(NoProc)
    ensures gensrv == Some(self) ==> result == Failed(Exception("cannot call self"))
    ensures result.Returned? ==> FirstReplyTo(decode, s, i, result.content)
    ensures RepliesAreOk(decode) && RepliedBeforeDown(decode, ref, s.procs[i].box.accepted, a)
            && gensrv.Some? && gensrv != Some(self) ==>
              result.Returned? || result == Failed(Timeout)
    ensures gensrv.Some? && gensrv != Some(self) && !inTime ==> result == Failed(Timeout)
    ensures gensrv.Some? && gensrv != Some(self) && inTime ==>
              && (Quiet(decode, ref, turns, |turns|) ==> result == Failed(Timeout))
              && forall k: nat :: FirstLoud(decode, ref, turns, k) ==> Decides(decode, turns[k], result)
  {
    if gensrv == None {
      return Failed(NoProc);
    }
    if gensrv == Some(self) {
      return Failed(Exception("cannot call self"));
    }
    var proxy := new Proxy(decode, ref);
    var used := proxy.Receive(turns);
    var received := if proxy.out != [] && inTime then Some(proxy.out[0]) else None;
    result := ResultOf(received);
    if proxy.out != [] && turns[used - 1].Read? {
      ghost var read := ReadSoFar(decode, ref, turns, used);
      HandledFirst(decode, s, i, ref, read, used - 1, a);
    }
    forall k: nat | FirstLoud(decode, ref, turns, k) && inTime
      ensures Decides(decode, turns[k], result)
    {
      ForwardedDecides(decode, turns[k], proxy.out[0]);
    }
  }
}
