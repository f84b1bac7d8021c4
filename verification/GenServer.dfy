/** The loop of `erl/genserver/gen_server.go`. The callbacks are an oracle: `script` holds what they return, in the
    order in which they are called; a run that uses it up is a run in which a callback has not returned yet. */
module GenServerObject {
  import opened Types
  import opened GenServerTrace

  /** How a part of the loop ends: with a callback still running, normally, or with the end of the server. */
  datatype Flow = Pending | Fine | Stop(err: Err)

  function MessagesIn(trace: seq<Event>): seq<Inbound> {
    if trace == [] then []
    else
      MessagesIn(trace[..|trace| - 1])
      + if trace[|trace| - 1].Received? then [trace[|trace| - 1].msg] else []
  }

  function OutcomesIn(trace: seq<Event>): seq<Outcome> {
    if trace == [] then []
    else
      OutcomesIn(trace[..|trace| - 1])
      + if trace[|trace| - 1].Ran? then [trace[|trace| - 1].outcome] else []
  }

  lemma InSnoc(trace: seq<Event>, e: Event)
    ensures MessagesIn(trace + [e]) == MessagesIn(trace) + if e.Received? then [e.msg] else []
    ensures OutcomesIn(trace + [e]) == OutcomesIn(trace) + if e.Ran? then [e.outcome] else []
  {
    assert (trace + [e])[..|trace|] == trace;
  }

  predicate IsContinuation(e: Event) {
    e.Ran? && e.cb.ContinueCb?
  }

  /** From `from` on there are continuations only; `Terminate`, if at all, comes last. */
  predicate ChainFrom(trace: seq<Event>, from: nat) {
    && from <= |trace|
    && forall k :: from <= k < |trace| ==> IsContinuation(trace[k]) || (k == |trace| - 1 && trace[k].Terminated?)
  }

  predicate IsAnswered(msg: Inbound, outcome: Outcome) {
    msg.CallMsg? && !outcome.Panicked? && outcome.reply.Some?
  }

  /** From `from` on a message is handled: its callback runs, then a call that is answered gets its reply, and only then
      come the continuations or `Terminate`. If the callback does not return, there is nothing. */
  predicate HandledFrom(trace: seq<Event>, from: nat, msg: Inbound) {
    && from <= |trace|
    && (from < |trace| ==>
          && trace[from].Ran? && trace[from].cb == HandlerCb(msg)
          && if IsAnswered(msg, trace[from].outcome) then
               && from + 1 < |trace|
               && trace[from + 1] == Replied(msg.from, trace[from].outcome.reply.value)
               && ChainFrom(trace, from + 2)
             else
               ChainFrom(trace, from + 1))
  }

  /** A stop request, or the exit message of the process that started the server. */
  predicate IsGoodbye(parent: Pid, m: Inbound) {
    m.StopMsg? || (m.ExitOf? && m.proc == parent)
  }

  /** Before its last message a server has read no goodbye; and if the last one is a goodbye, it is about to terminate,
      or has. `ms` are the messages read, `last` is the last event. */
  ghost predicate ReadsOn(parent: Pid, ms: seq<Inbound>, last: Option<Event>, phase: Phase) {
    && (forall i :: 0 <= i < |ms| - 1 ==> !IsGoodbye(parent, ms[i]))
    && (phase.Handling? ==> ms != [] && ms[|ms| - 1] == phase.msg)
    && (phase.Acking? || phase.Replying? ==>
          !phase.after.Handling? && !phase.after.Acking? && !phase.after.Replying?)
    && (ms != [] && IsGoodbye(parent, ms[|ms| - 1]) ==>
          phase == Handling(ms[|ms| - 1]) || HasTerminated(last, ms[|ms| - 1].reason, phase))
  }

  predicate HasTerminated(last: Option<Event>, reason: Reason, phase: Phase) {
    last.Some? && IsTermination(last.value, reason) && phase == Ended(ReasonErr(reason))
  }

  function LastOf(trace: seq<Event>): Option<Event> {
    if trace == [] then None else Some(trace[|trace| - 1])
  }

  lemma {:induction false} GoodbyeIsLast(hasName: bool, parent: Pid, trace: seq<Event>)
    requires After(Start(hasName, parent), trace).Some?
    ensures ReadsOn(parent, MessagesIn(trace), LastOf(trace), After(Start(hasName, parent), trace).value.phase)
  {
    if trace != [] {
      var n := |trace| - 1;
      GoodbyeIsLast(hasName, parent, trace[..n]);
      FieldsFollowTrace(hasName, parent, trace[..n]);
      var before := After(Start(hasName, parent), trace[..n]).value;
      GoodbyeNext(before, MessagesIn(trace[..n]), LastOf(trace[..n]), trace[n]);
    }
  }

  lemma GoodbyeNext(c: Config, ms: seq<Inbound>, last: Option<Event>, e: Event)
    requires ReadsOn(c.parent, ms, last, c.phase) && Next(c, e).Some?
    ensures ReadsOn(c.parent, ms + if e.Received? then [e.msg] else [], Some(e), Next(c, e).value.phase)
  {
    if e.Received? {
      assert ms != [] ==> !IsGoodbye(c.parent, ms[|ms| - 1]);
    } else {
      assert ms + [] == ms;
    }
  }

  lemma CallHandled(before: seq<Event>, e: Event, trace: seq<Event>, msg: Inbound)
    requires msg.CallMsg? && e.Ran? && e.cb == HandlerCb(msg)
    requires var reply := if IsAnswered(msg, e.outcome) then [Replied(msg.from, e.outcome.reply.value)] else [];
             before + [e] + reply <= trace && ChainFrom(trace, |before + [e] + reply|)
    ensures before <= trace && HandledFrom(trace, |before|, msg)
  {
    var reply := if IsAnswered(msg, e.outcome) then [Replied(msg.from, e.outcome.reply.value)] else [];
    var part := before + [e] + reply;
    assert part[|before|] == e;
    assert part[|before| + 1..] == reply;
  }

  class Server {
    const hasName: bool
    const parent: Pid
    /** The answer of `Register`: nothing, or why the name is refused. */
    const refusal: Option<Reason>
    const script: seq<Outcome>
    var pos: nat
    var state: State
    var nameRegistered: bool
    var trace: seq<Event>

    /** The trace is one that a server can produce, and used the script up to `pos`. */
    ghost predicate Valid()
      reads this
    {
      && After(Start(hasName, parent), trace).Some?
      && pos <= |script| && OutcomesIn(trace) == script[..pos]
    }

    ghost function Now(): Config
      requires Valid()
      reads this
    {
      After(Start(hasName, parent), trace).value
    }

    constructor (hasName: bool, parent: Pid, refusal: Option<Reason>, script: seq<Outcome>)
      ensures Valid() && trace == [] && state == NO_STATE && !nameRegistered
      ensures this.hasName == hasName && this.parent == parent && this.refusal == refusal && this.script == script
    {
      this.hasName := hasName;
      this.parent := parent;
      this.refusal := refusal;
      this.script := script;
      pos := 0;
      state := NO_STATE;
      nameRegistered := false;
      trace := [];
    }

    method Note(e: Event)
      requires Valid() && !e.Ran? && Next(Now(), e).Some?
      modifies this`trace
      ensures Valid() && trace == old(trace) + [e] && Now() == Next(old(Now()), e).value
      ensures MessagesIn(trace) == old(MessagesIn(trace)) + if e.Received? then [e.msg] else []
    {
      AfterSnoc(Start(hasName, parent), trace, e);
      InSnoc(trace, e);
      trace := trace + [e];
    }

    /** A callback is called; `None` if it does not return. */
    method Run(cb: Callback, given: State) returns (outcome: Option<Outcome>)
      requires Valid() && Runs(Now(), cb, given)
      modifies this`trace, this`pos
      ensures Valid() && MessagesIn(trace) == old(MessagesIn(trace))
      ensures trace == old(trace) + if outcome == None then [] else [Ran(cb, given, outcome.value)]
      ensures outcome == None ==> pos == |script| && Now() == old(Now())
      ensures outcome.Some? ==> Now() == AfterRun(old(Now()), outcome.value) && pos == old(pos) + 1
    {
      if pos == |script| {
        return None;
      }
      var e := Ran(cb, given, script[pos]);
      AfterSnoc(Start(hasName, parent), trace, e);
      InSnoc(trace, e);
      assert script[..pos + 1] == script[..pos] + [script[pos]];
      outcome := Some(script[pos]);
      trace := trace + [e];
      pos := pos + 1;
    }

    /** `doContinue`: follows a chain of continuations; a panic is recovered here, and `Terminate` gets the field. */
    method DoContinue(inCont: Cont, inState: State) returns (s: State, flow: Flow)
      requires Valid() && Now().phase == Continuing(inCont, inState) && Now().state == state
      modifies this`trace, this`pos
      ensures Valid() && MessagesIn(trace) == old(MessagesIn(trace))
      ensures old(trace) <= trace && ChainFrom(trace, |old(trace)|)
      ensures flow == Fine ==> Now().phase == Waiting && Now().state == s
      ensures flow.Stop? ==> Now().phase == Ended(flow.err)
      ensures flow == Pending ==> pos == |script| && Now().phase.Continuing?
    {
      s := inState;
      var cont := inCont;
      while true
        invariant Valid() && MessagesIn(trace) == old(MessagesIn(trace))
        invariant old(trace) <= trace && forall k :: |old(trace)| <= k < |trace| ==> IsContinuation(trace[k])
        invariant Now().phase == Continuing(cont, s) && Now().state == state
        decreases |script| - pos
      {
        var outcome := Run(ContinueCb(cont), s);
        if outcome == None {
          return s, Pending;
        }
        match outcome.value
        case Done(next, again, _) =>
          s := next;
          if again == None {
            return s, Fine;
          }
          cont := again.value;
        case Failed(err, next, _) =>
          return next, Stop(err);
        case Panicked(err) =>
          Note(Terminated(PanicReason(err), state));
          return s, Stop(ReasonErr(PanicReason(err)));
      }
    }

    /** The end of every handler that succeeded. */
    method Proceed(next: Option<Cont>, s: State) returns (flow: Flow)
      requires Valid() && Now().phase == Onward(next, s) && Now().state == s
      modifies this`trace, this`pos, this`state
      ensures Valid() && MessagesIn(trace) == old(MessagesIn(trace))
      ensures old(trace) <= trace && ChainFrom(trace, |old(trace)|)
      ensures flow == Fine ==> Now().phase == Waiting && Now().state == state
      ensures flow.Stop? ==> Now().phase == Ended(flow.err)
      ensures flow == Pending ==> pos == |script| && Now().phase.Continuing?
    {
      state := s;
      if next == None {
        return Fine;
      }
      var t;
      t, flow := DoContinue(next.value, s);
      if flow == Fine {
        state := t;
      }
    }

    /** A call that the callback has answered gets its reply. */
    method Respond(msg: Inbound, reply: Option<Reply>, ghost after: Phase)
      requires Valid() && msg.CallMsg? && Now().phase == Answer(msg, reply, after)
      modifies this`trace
      ensures Valid() && MessagesIn(trace) == old(MessagesIn(trace)) && Now() == old(Now()).(phase := after)
      ensures trace == old(trace) + if reply.Some? then [Replied(msg.from, reply.value)] else []
    {
      if reply.Some? {
        Note(Replied(msg.from, reply.value));
      }
    }

    /** `Terminate` is called, and the server ends. */
    method Finish(reason: Reason) returns (flow: Flow)
      requires Valid() && Now().phase == Stopping(reason) && Now().state == state
      modifies this`trace
      ensures Valid() && MessagesIn(trace) == old(MessagesIn(trace))
      ensures trace == old(trace) + [Terminated(reason, state)]
      ensures flow == Stop(ReasonErr(reason)) && Now().phase == Ended(flow.err)
    {
      Note(Terminated(reason, state));
      flow := Stop(ReasonErr(reason));
    }

    method AnswerAndProceed(msg: Inbound, reply: Option<Reply>, next: Option<Cont>, s: State) returns (flow: Flow)
      requires Valid() && msg.CallMsg? && Now().phase == Answer(msg, reply, Onward(next, s)) && Now().state == s
      modifies this`trace, this`pos, this`state
      ensures Valid() && MessagesIn(trace) == old(MessagesIn(trace))
      ensures var answered := old(trace) + if reply.Some? then [Replied(msg.from, reply.value)] else [];
              answered <= trace && ChainFrom(trace, |answered|)
      ensures flow == Fine ==> Now().phase == Waiting && Now().state == state
      ensures flow.Stop? ==> Now().phase == Ended(flow.err)
      ensures flow == Pending ==> pos == |script| && Now().phase.Continuing?
    {
      Respond(msg, reply, Onward(next, s));
      flow := Proceed(next, s);
    }

    method AnswerAndFinish(msg: Inbound, reply: Option<Reply>, reason: Reason) returns (flow: Flow)
      requires Valid() && msg.CallMsg? && Now().phase == Answer(msg, reply, Stopping(reason)) && Now().state == state
      modifies this`trace
      ensures Valid() && MessagesIn(trace) == old(MessagesIn(trace))
      ensures var answered := old(trace) + if reply.Some? then [Replied(msg.from, reply.value)] else [];
              trace == answered + [Terminated(reason, state)]
      ensures flow == Stop(ReasonErr(reason)) && Now().phase == Ended(flow.err)
    {
      Respond(msg, reply, Stopping(reason));
      flow := Finish(reason);
    }

    /** `handleCallRequest`. */
    method HandleCall(msg: Inbound) returns (flow: Flow)
      requires Valid() && Now().phase == Handling(msg) && msg.CallMsg? && Now().state == state
      modifies this`trace, this`pos, this`state
      ensures Valid() && MessagesIn(trace) == old(MessagesIn(trace))
      ensures old(trace) <= trace && HandledFrom(trace, |old(trace)|, msg)
      ensures flow == Fine ==> Now().phase == Waiting && Now().state == state
      ensures flow.Stop? ==> Now().phase == Ended(flow.err)
      ensures flow == Pending ==> pos == |script| && (Now().phase.Continuing? || Now().phase.Handling?)
    {
      var outcome := Run(HandlerCb(msg), state);
      if outcome == None {
        return Pending;
      }
      match outcome.value {
        case Done(s, next, reply) => flow := AnswerAndProceed(msg, reply, next, s);
        case Failed(err, _, reply) => flow := AnswerAndFinish(msg, reply, Wrap(err));
        case Panicked(err) => flow := Finish(PanicReason(err));
      }
      CallHandled(old(trace), Ran(HandlerCb(msg), old(state), outcome.value), trace, msg);
    }

    /** `handleCastRequest`. */
    method HandleCast(msg: Inbound) returns (flow: Flow)
      requires Valid() && Now().phase == Handling(msg) && msg.CastMsg? && Now().state == state
      modifies this`trace, this`pos, this`state
      ensures Valid() && MessagesIn(trace) == old(MessagesIn(trace))
      ensures old(trace) <= trace && HandledFrom(trace, |old(trace)|, msg)
      ensures flow == Fine ==> Now().phase == Waiting && Now().state == state
      ensures flow.Stop? ==> Now().phase == Ended(flow.err)
      ensures flow == Pending ==> pos == |script| && (Now().phase.Continuing? || Now().phase.Handling?)
    {
      var outcome := Run(HandlerCb(msg), state);
      if outcome == None {
        return Pending;
      }
      match outcome.value
      case Done(s, next, _) => flow := Proceed(next, s);
      case Failed(err, _, _) =>
        flow := Finish(Wrap(err));
      case Panicked(err) =>
        flow := Finish(PanicReason(err));
    }

    /** `handleInfoRequest`: the state is taken over before the error is looked at. */
    method HandleInfo(msg: Inbound) returns (flow: Flow)
      requires Valid() && Now().phase == Handling(msg) && !Ending(Now(), msg) && Now().state == state
      requires !msg.CallMsg? && !msg.CastMsg?
      modifies this`trace, this`pos, this`state
      ensures Valid() && MessagesIn(trace) == old(MessagesIn(trace))
      ensures old(trace) <= trace && HandledFrom(trace, |old(trace)|, msg)
      ensures flow == Fine ==> Now().phase == Waiting && Now().state == state
      ensures flow.Stop? ==> Now().phase == Ended(flow.err)
      ensures flow == Pending ==> pos == |script| && (Now().phase.Continuing? || Now().phase.Handling?)
    {
      var outcome := Run(HandlerCb(msg), state);
      if outcome == None {
        return Pending;
      }
      match outcome.value
      case Done(s, next, _) => flow := Proceed(next, s);
      case Failed(err, s, _) =>
        state := s;
        flow := Finish(Wrap(err));
      case Panicked(err) =>
        flow := Finish(PanicReason(err));
    }

    /** One message of the loop. */
    method Dispatch(msg: Inbound) returns (flow: Flow)
      requires Valid() && Now().phase == Handling(msg) && Now().state == state && Now().parent == parent
      modifies this`trace, this`pos, this`state
      ensures Valid() && MessagesIn(trace) == old(MessagesIn(trace))
      ensures if Ending(old(Now()), msg) then trace == old(trace) + [Terminated(msg.reason, old(state))]
              else old(trace) <= trace && HandledFrom(trace, |old(trace)|, msg)
      ensures IsGoodbye(parent, msg) ==> flow.Stop?
      ensures flow == Fine ==> Now().phase == Waiting && Now().state == state
      ensures flow.Stop? ==> Now().phase == Ended(flow.err)
      ensures flow == Pending ==> pos == |script| && (Now().phase.Continuing? || Now().phase.Handling?)
    {
      match msg
      case CallMsg(_, _) => flow := HandleCall(msg);
      case CastMsg(_) => flow := HandleCast(msg);
      case StopMsg(reason) =>
        Note(Terminated(reason, state));
        flow := Stop(ReasonErr(reason));
      case ExitOf(proc, reason) =>
        if proc == parent {
          Note(Terminated(reason, state));
          flow := Stop(ReasonErr(reason));
        } else {
          flow := HandleInfo(msg);
        }
      case OtherMsg(_) => flow := HandleInfo(msg);
    }

    /** The name is refused, and the server ends. */
    method Refuse(reason: Reason) returns (flow: Flow)
      requires Valid() && trace == [] && Now().phase == Naming
      modifies this`trace
      ensures Valid() && MessagesIn(trace) == []
      ensures flow == Stop(ReasonErr(reason)) && Now().phase == Ended(flow.err)
    {
      Note(Refused(reason));
      Note(Acked(AckError(reason)));
      flow := Stop(ReasonErr(reason));
    }

    /** Registration of the name; whether the server goes on to `Init`. */
    method RegisterName() returns (flow: Flow)
      requires Valid() && trace == [] && !nameRegistered
      modifies this`trace, this`nameRegistered
      ensures Valid() && MessagesIn(trace) == []
      ensures flow == Fine ==> Now() == Config(Starting, NO_STATE, nameRegistered, parent)
      ensures flow != Fine ==> flow.Stop? && Now().phase == Ended(flow.err)
    {
      if !hasName {
        return Fine;
      }
      if refusal.Some? {
        flow := Refuse(refusal.value);
        return;
      }
      Note(Registered);
      nameRegistered := true;
      flow := Fine;
    }

    /** The part of `Receive` before its loop: registration, `Init`, the acknowledgement and a first continuation. */
    method Initialize() returns (flow: Flow)
      requires Valid() && trace == [] && state == NO_STATE && !nameRegistered
      modifies this
      ensures Valid() && MessagesIn(trace) == []
      ensures flow == Fine ==> Now().phase == Waiting && Now().state == state
      ensures flow.Stop? ==> Now().phase == Ended(flow.err)
      ensures flow == Pending ==> pos == |script| && (Now().phase == Starting || Now().phase.Continuing?)
    {
      flow := RegisterName();
      if flow != Fine {
        return;
      }
      var outcome := Run(InitCb, NO_STATE);
      if outcome == None {
        return Pending;
      }
      match outcome.value
      case Done(s, next, _) =>
        Note(Acked(AckOk));
        flow := Proceed(next, s);
      case Failed(err, _, _) =>
        if err == ReasonErr(Ignore) {
          flow := GiveUp(AckIgnore, ReasonErr(Normal));
        } else {
          flow := GiveUp(AckError(Wrap(err)), ReasonErr(Wrap(err)));
        }
      case Panicked(err) =>
        flow := GiveUp(AckError(PanicReason(err)), ReasonErr(PanicReason(err)));
    }

    /** `unregisterName`, then the acknowledgement. */
    method GiveUp(ack: Ack, result: Err) returns (flow: Flow)
      requires Valid() && Now().phase == Releasing(ack, result) && Now().named == nameRegistered
      modifies this`trace
      ensures Valid() && MessagesIn(trace) == old(MessagesIn(trace))
      ensures flow == Stop(result) && Now().phase == Ended(result)
    {
      if nameRegistered {
        Note(Unregistered);
      }
      Note(Acked(ack));
      flow := Stop(result);
    }

    /** What a goodbye among the messages that were read has led to. */
    lemma SaidGoodbye(inbox: seq<Inbound>, read: nat, flow: Flow)
      requires Valid() && read <= |inbox| && MessagesIn(trace) == inbox[..read]
      requires flow == Fine ==> Now().phase == Waiting
      requires flow.Stop? ==> Now().phase == Ended(flow.err)
      requires flow == Pending && read > 0 ==> !IsGoodbye(parent, inbox[read - 1])
      ensures forall i :: 0 <= i < read && (inbox[i].StopMsg? || (inbox[i].ExitOf? && inbox[i].proc == parent)) ==>
                && i == read - 1 && flow == Stop(ReasonErr(inbox[i].reason))
                && trace != [] && trace[|trace| - 1] == Terminated(inbox[i].reason, FieldState(trace))
    {
      GoodbyeIsLast(hasName, parent, trace);
      forall i | 0 <= i < read && (inbox[i].StopMsg? || (inbox[i].ExitOf? && inbox[i].proc == parent))
        ensures i == read - 1 && flow == Stop(ReasonErr(inbox[i].reason))
                && trace != [] && trace[|trace| - 1] == Terminated(inbox[i].reason, FieldState(trace))
      {
        assert MessagesIn(trace)[i] == inbox[i] && IsGoodbye(parent, inbox[i]);
        StateIsHandedOn(hasName, parent, trace, |trace| - 1);
      }
    }

    /** `Receive`, over the messages that come in until the inbox is closed, or until now. The trace is one that the
        rules allow; the messages are taken one by one in their order; and the server stops reading only because it
        has ended, a callback has not returned, or there is nothing to read. */
    method Receive(inbox: seq<Inbound>, closed: bool) returns (flow: Flow, read: nat)
      requires Valid() && trace == [] && state == NO_STATE && !nameRegistered
      modifies this
      ensures Valid() && read <= |inbox| && MessagesIn(trace) == inbox[..read]
      ensures flow.Stop? ==> Now().phase == Ended(flow.err)
      ensures flow == Pending ==> pos == |script|
      ensures flow == Fine ==> read == |inbox| && !closed && Now().phase == Waiting
      ensures flow == Fine ==> forall m :: m in inbox ==> !m.StopMsg? && (m.ExitOf? ==> m.proc != parent)
      ensures forall i :: 0 <= i < read && (inbox[i].StopMsg? || (inbox[i].ExitOf? && inbox[i].proc == parent)) ==>
                && i == read - 1 && flow == Stop(ReasonErr(inbox[i].reason))
                && trace != [] && trace[|trace| - 1] == Terminated(inbox[i].reason, FieldState(trace))
    {
      read := 0;
      flow := Initialize();
      while flow == Fine && read < |inbox|
        invariant Valid() && 0 <= read <= |inbox| && MessagesIn(trace) == inbox[..read]
        invariant flow == Fine ==> Now().phase == Waiting && Now().state == state
        invariant flow.Stop? ==> Now().phase == Ended(flow.err)
        invariant flow == Pending ==> pos == |script| && (read > 0 ==> !IsGoodbye(parent, inbox[read - 1]))
        decreases |inbox| - read
      {
        FieldsFollowTrace(hasName, parent, trace);
        var msg := inbox[read];
        read := read + 1;
        Note(Received(msg));
        flow := Dispatch(msg);
      }
      if flow == Fine && closed {
        Note(Closed);
        flow := Stop(NilErr);
      }
      SaidGoodbye(inbox, read, flow);
    }
  }
}
