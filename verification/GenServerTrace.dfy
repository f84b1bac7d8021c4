/** What a GenServer may do, one event after the other: the order of callbacks, replies, acknowledgements and name
    registration in `erl/genserver/gen_server.go`, and what follows from that order. */
module GenServerTrace {
  import opened Types

  type State = int
  type Cont = int
  type Reply = int

  datatype Inbound =
    | CallMsg(from: Pid, request: int)
    | CastMsg(request: int)
    | StopMsg(reason: Reason)
    | ExitOf(proc: Pid, reason: Reason)
    | OtherMsg(info: int)

  datatype Callback = InitCb | HandlerCb(msg: Inbound) | ContinueCb(cont: Cont)

  /** How a callback ends. The reply counts only for a call; without one the caller is answered later, or never. */
  datatype Outcome =
    | Done(state: State, next: Option<Cont>, reply: Option<Reply>)
    | Failed(err: Err, state: State, reply: Option<Reply>)
    | Panicked(err: Err)

  datatype Ack = AckOk | AckIgnore | AckError(reason: Reason)

  datatype Event =
    | Registered
    | Refused(reason: Reason)
    | Unregistered
    | Acked(ack: Ack)
    | Received(msg: Inbound)
    | Closed
    | Ran(cb: Callback, given: State, outcome: Outcome)
    | Replied(to: Pid, term: Reply)
    | Terminated(reason: Reason, given: State)

  /** What the server is about to do. */
  datatype Phase =
    | Naming
    | Starting
    | Releasing(ack: Ack, result: Err)
    | Acking(ack: Ack, after: Phase)
    | Waiting
    | Handling(msg: Inbound)
    | Replying(to: Pid, term: Reply, after: Phase)
    | Continuing(cont: Cont, state: State)
    | Stopping(reason: Reason)
    | Ended(result: Err)

  /** `state` and `named` are the fields of the server; `parent` is whoever started it. */
  datatype Config = Config(phase: Phase, state: State, named: bool, parent: Pid)

  const NO_STATE: State := 0

  function Start(hasName: bool, parent: Pid): Config {
    Config(if hasName then Naming else Starting, NO_STATE, false, parent)
  }

  /** `exitreason.Wrap`. */
  function Wrap(e: Err): Reason {
    ToReason(e)
  }

  /** `panicToException`. */
  function PanicReason(e: Err): Reason {
    match e
    case ReasonErr(Exception(detail)) => Exception(detail)
    case ReasonErr(_) => Exception("panic")
    case PlainErr(text) => Exception(text)
    case NilErr => Exception("panic")
  }

  /** Back to the inbox, or first through a continuation. */
  function Onward(next: Option<Cont>, state: State): Phase {
    if next.Some? then Continuing(next.value, state) else Waiting
  }

  /** A call is answered before anything else happens. */
  function Answer(msg: Inbound, reply: Option<Reply>, after: Phase): Phase {
    if msg.CallMsg? && reply.Some? then Replying(msg.from, reply.value, after) else after
  }

  /** After `Init`: success is acknowledged; otherwise the name is given up first. */
  function AfterInit(c: Config, outcome: Outcome): Config {
    match outcome
    case Done(state, next, _) => c.(phase := Acking(AckOk, Onward(next, state)), state := state)
    case Failed(err, _, _) =>
      if err == ReasonErr(Ignore) then c.(phase := Releasing(AckIgnore, ReasonErr(Normal)))
      else c.(phase := Releasing(AckError(Wrap(err)), ReasonErr(Wrap(err))))
    case Panicked(err) => c.(phase := Releasing(AckError(PanicReason(err)), ReasonErr(PanicReason(err))))
  }

  /** After a handler: an error or panic leads to `Terminate`; only `HandleInfo` takes over the state in spite of an
      error. */
  function AfterHandler(c: Config, msg: Inbound, outcome: Outcome): Config {
    match outcome
    case Done(state, next, reply) => c.(phase := Answer(msg, reply, Onward(next, state)), state := state)
    case Failed(err, state, reply) =>
      c.(phase := Answer(msg, reply, Stopping(Wrap(err))),
         state := if msg.CallMsg? || msg.CastMsg? then c.state else state)
    case Panicked(err) => c.(phase := Stopping(PanicReason(err)))
  }

  /** After `HandleContinue`: an error ends the server at once, without `Terminate`. */
  function AfterContinue(c: Config, outcome: Outcome): Config {
    match outcome
    case Done(state, next, _) =>
      if next.Some? then c.(phase := Continuing(next.value, state)) else c.(phase := Waiting, state := state)
    case Failed(err, _, _) => c.(phase := Ended(err))
    case Panicked(err) => c.(phase := Stopping(PanicReason(err)))
  }

  /** A message that ends the server through `Terminate`. */
  predicate Ending(c: Config, msg: Inbound) {
    msg.StopMsg? || (msg.ExitOf? && msg.proc == c.parent)
  }

  predicate Runs(c: Config, cb: Callback, given: State) {
    match c.phase
    case Starting => cb == InitCb && given == NO_STATE
    case Handling(msg) => !Ending(c, msg) && cb == HandlerCb(msg) && given == c.state
    case Continuing(cont, state) => cb == ContinueCb(cont) && given == state
    case _ => false
  }

  function AfterRun(c: Config, outcome: Outcome): Config {
    match c.phase
    case Starting => AfterInit(c, outcome)
    case Handling(msg) => AfterHandler(c, msg, outcome)
    case _ => AfterContinue(c, outcome)
  }

  /** The one step that an event stands for, if the server can do it now. */
  function Next(c: Config, e: Event): Option<Config> {
    match e
    case Registered => if c.phase == Naming then Some(c.(phase := Starting, named := true)) else None
    case Refused(reason) =>
      if c.phase == Naming then Some(c.(phase := Acking(AckError(reason), Ended(ReasonErr(reason))))) else None
    case Unregistered =>
      if c.phase.Releasing? && c.named then
        Some(c.(phase := Acking(c.phase.ack, Ended(c.phase.result)), named := false))
      else None
    case Acked(ack) =>
      if c.phase.Acking? && ack == c.phase.ack then Some(c.(phase := c.phase.after))
      else if c.phase.Releasing? && !c.named && ack == c.phase.ack then Some(c.(phase := Ended(c.phase.result)))
      else None
    case Received(msg) => if c.phase == Waiting then Some(c.(phase := Handling(msg))) else None
    case Closed => if c.phase == Waiting then Some(c.(phase := Ended(NilErr))) else None
    case Ran(cb, given, outcome) => if Runs(c, cb, given) then Some(AfterRun(c, outcome)) else None
    case Replied(to, term) =>
      if c.phase.Replying? && to == c.phase.to && term == c.phase.term then Some(c.(phase := c.phase.after)) else None
    case Terminated(reason, given) =>
      if given == c.state && c.phase == Stopping(reason) then Some(c.(phase := Ended(ReasonErr(reason))))
      else if given == c.state && c.phase.Handling? && Ending(c, c.phase.msg) && reason == c.phase.msg.reason then
        Some(c.(phase := Ended(ReasonErr(reason))))
      else None
  }

  /** The configuration after a trace, if the server can produce it. */
  function After(start: Config, trace: seq<Event>): Option<Config> {
    if trace == [] then Some(start)
    else
      var c := After(start, trace[..|trace| - 1]);
      if c == None then None else Next(c.value, trace[|trace| - 1])
  }

  lemma AfterSnoc(start: Config, trace: seq<Event>, e: Event)
    ensures After(start, trace + [e])
         == if After(start, trace) == None then None else Next(After(start, trace).value, e)
  {
    assert (trace + [e])[..|trace|] == trace;
  }

  lemma {:induction false} AfterPrefix(start: Config, trace: seq<Event>, k: nat)
    requires After(start, trace).Some? && k <= |trace|
    ensures After(start, trace[..k]).Some?
  {
    if k < |trace| {
      var n := |trace| - 1;
      AfterPrefix(start, trace[..n], k);
      assert trace[..n][..k] == trace[..k];
    } else {
      assert trace[..k] == trace;
    }
  }

  /** One step inside a trace. */
  lemma StepAt(start: Config, trace: seq<Event>, k: nat)
    requires After(start, trace).Some? && k < |trace|
    ensures After(start, trace[..k]).Some? && After(start, trace[..k + 1]).Some?
    ensures Next(After(start, trace[..k]).value, trace[k]) == After(start, trace[..k + 1])
  {
    AfterPrefix(start, trace, k);
    AfterPrefix(start, trace, k + 1);
    AfterSnoc(start, trace[..k], trace[k]);
    assert trace[..k] + [trace[k]] == trace[..k + 1];
  }

  // ---------------------------------------------------------------- how a server ends

  /** `Terminate` is called at most once, and nothing comes after it. */
  lemma TerminateIsLast(start: Config, trace: seq<Event>, k: nat)
    requires After(start, trace).Some? && k < |trace| && trace[k].Terminated?
    ensures k == |trace| - 1
    ensures After(start, trace).value.phase == Ended(ReasonErr(trace[k].reason))
  {
    StepAt(start, trace, k);
    if k + 1 < |trace| {
      StepAt(start, trace, k + 1);
      assert false;
    }
    assert trace[..k + 1] == trace;
  }

  /** After a failed `HandleContinue` nothing happens any more, not even `Terminate`. */
  lemma FailedContinueIsLast(start: Config, trace: seq<Event>, k: nat)
    requires After(start, trace).Some? && k < |trace|
    requires trace[k].Ran? && trace[k].cb.ContinueCb? && trace[k].outcome.Failed?
    ensures k == |trace| - 1
  {
    StepAt(start, trace, k);
    if k + 1 < |trace| {
      StepAt(start, trace, k + 1);
      assert false;
    }
  }

  predicate Fails(e: Event) {
    e.Ran? && !e.outcome.Done?
  }

  /** What `Terminate` gets to know about a failed callback. */
  function FailureReason(outcome: Outcome): Reason
    requires !outcome.Done?
  {
    if outcome.Failed? then Wrap(outcome.err) else PanicReason(outcome.err)
  }

  predicate IsTermination(e: Event, reason: Reason) {
    e.Terminated? && e.reason == reason
  }

  lemma StoppingTerminates(start: Config, trace: seq<Event>, k: nat, reason: Reason)
    requires After(start, trace).Some? && k < |trace|
    requires After(start, trace[..k]).Some? && After(start, trace[..k]).value.phase == Stopping(reason)
    ensures IsTermination(trace[k], reason) && k + 1 == |trace|
  {
    StepAt(start, trace, k);
    TerminateIsLast(start, trace, k);
  }

  /** The reason for which a server ends after a callback like this: an error that is an exit reason is that reason, any
      other error is wrapped as an exception; whatever is thrown becomes an exception unless it is one. */
  predicate ReasonFits(outcome: Outcome, reason: Reason) {
    match outcome
    case Done(_, _, _) => false
    case Failed(ReasonErr(r), _, _) => reason == r
    case Failed(PlainErr(text), _, _) => reason == Exception(text)
    case Failed(NilErr, _, _) => reason.Exception?
    case Panicked(PlainErr(text)) => reason == Exception(text)
    case Panicked(ReasonErr(Exception(detail))) => reason == Exception(detail)
    case Panicked(_) => reason.Exception?
  }

  lemma FailureFits(outcome: Outcome)
    requires !outcome.Done?
    ensures ReasonFits(outcome, FailureReason(outcome))
  {
  }

  /** A failed handler, and a continuation that panics, is followed by `Terminate` with its reason; between the two
      there is at most the reply to the call. */
  lemma FailureTerminates(start: Config, trace: seq<Event>, k: nat)
    requires After(start, trace).Some? && k < |trace| && Fails(trace[k])
    requires trace[k].cb.HandlerCb? || (trace[k].cb.ContinueCb? && trace[k].outcome.Panicked?)
    ensures var reason := FailureReason(trace[k].outcome);
            && ReasonFits(trace[k].outcome, reason)
            && (k + 1 < |trace| ==>
                  || (IsTermination(trace[k + 1], reason) && k + 2 == |trace|)
                  || (trace[k + 1].Replied?
                      && (k + 2 < |trace| ==> IsTermination(trace[k + 2], reason) && k + 3 == |trace|)))
  {
    FailureFits(trace[k].outcome);
    var reason := FailureReason(trace[k].outcome);
    StepAt(start, trace, k);
    if k + 1 < |trace| {
      if After(start, trace[..k + 1]).value.phase == Stopping(reason) {
        StoppingTerminates(start, trace, k + 1, reason);
      } else {
        StepAt(start, trace, k + 1);
        if k + 2 < |trace| {
          StoppingTerminates(start, trace, k + 2, reason);
        }
      }
    }
  }

  // ---------------------------------------------------------------- continuations and replies

  predicate Asks(e: Event, cont: Cont, state: State) {
    e.Ran? && e.outcome.Done? && e.outcome.next == Some(cont) && e.outcome.state == state
  }

  predicate Continues(e: Event, cont: Cont, state: State) {
    e.Ran? && e.cb == ContinueCb(cont) && e.given == state
  }

  lemma ContinuingContinues(start: Config, trace: seq<Event>, k: nat, cont: Cont, state: State)
    requires After(start, trace).Some? && k < |trace|
    requires After(start, trace[..k]).Some? && After(start, trace[..k]).value.phase == Continuing(cont, state)
    ensures Continues(trace[k], cont, state)
  {
    StepAt(start, trace, k);
  }

  /** When a callback asks for a continuation, the next thing is that continuation, with the state the callback
      returned; before it come at most the acknowledgement of the start or the reply to the call. */
  lemma AskedIsContinued(start: Config, trace: seq<Event>, k: nat, cont: Cont, state: State)
    requires After(start, trace).Some? && k < |trace| && Asks(trace[k], cont, state)
    ensures k + 1 < |trace| ==>
              || Continues(trace[k + 1], cont, state)
              || (trace[k + 1] == Acked(AckOk) && (k + 2 < |trace| ==> Continues(trace[k + 2], cont, state)))
              || (trace[k + 1].Replied? && (k + 2 < |trace| ==> Continues(trace[k + 2], cont, state)))
  {
    StepAt(start, trace, k);
    if k + 1 < |trace| {
      if After(start, trace[..k + 1]).value.phase == Continuing(cont, state) {
        ContinuingContinues(start, trace, k + 1, cont, state);
      } else {
        StepAt(start, trace, k + 1);
        if k + 2 < |trace| {
          ContinuingContinues(start, trace, k + 2, cont, state);
        }
      }
    }
  }

  predicate AnswersCall(e: Event, to: Pid, term: Reply) {
    && e.Ran? && e.cb.HandlerCb? && e.cb.msg.CallMsg? && e.cb.msg.from == to
    && !e.outcome.Panicked? && e.outcome.reply == Some(term)
  }

  /** A call that is answered is answered at once: before its continuation, before `Terminate`, before anything. */
  lemma AnsweredAtOnce(start: Config, trace: seq<Event>, k: nat, to: Pid, term: Reply)
    requires After(start, trace).Some? && k < |trace| && AnswersCall(trace[k], to, term)
    ensures k + 1 < |trace| ==> trace[k + 1] == Replied(to, term)
  {
    StepAt(start, trace, k);
    if k + 1 < |trace| {
      StepAt(start, trace, k + 1);
    }
  }

  // ---------------------------------------------------------------- what each phase knows about the past

  predicate InitDone(e: Event) {
    e.Ran? && e.cb == InitCb && e.outcome.Done?
  }

  ghost predicate HasStarted(trace: seq<Event>) {
    exists k :: 0 <= k < |trace| && InitDone(trace[k])
  }

  /** The last event asked for the continuation, or the one before it did and the last one is what may come between. */
  ghost predicate JustAsked(trace: seq<Event>, cont: Cont, state: State) {
    var n := |trace|;
    || (n > 0 && Asks(trace[n - 1], cont, state))
    || (n > 1 && (trace[n - 1] == Acked(AckOk) || trace[n - 1].Replied?) && Asks(trace[n - 2], cont, state))
  }

  ghost predicate AskedLast(trace: seq<Event>, cont: Cont, state: State) {
    trace != [] && Asks(trace[|trace| - 1], cont, state)
  }

  /** The event is why the start ends with this acknowledgement. */
  predicate Accounts(e: Event, ack: Ack) {
    || (e.Refused? && ack == AckError(e.reason))
    || (Fails(e) && e.cb == InitCb
        && if e.outcome.Failed? && e.outcome.err == ReasonErr(Ignore) then ack == AckIgnore
           else ack.AckError? && ReasonFits(e.outcome, ack.reason))
  }

  ghost predicate HasFailed(trace: seq<Event>, ack: Ack) {
    exists k :: 0 <= k < |trace| && Accounts(trace[k], ack)
  }

  /** What a server that did not start returns: Normal if the start was ignored, else the reason acknowledged. */
  predicate FailsWith(ack: Ack, result: Err) {
    match ack
    case AckOk => false
    case AckIgnore => result == ReasonErr(Normal)
    case AckError(reason) => result == ReasonErr(reason)
  }

  /** Where a server goes when something has been acknowledged or answered. */
  ghost predicate GoesOn(trace: seq<Event>, after: Phase) {
    after.Continuing? ==> AskedLast(trace, after.cont, after.state)
  }

  ghost predicate PhaseKnows(trace: seq<Event>, phase: Phase) {
    match phase
    case Naming => trace == []
    case Starting => forall e :: e in trace ==> e == Registered
    case Releasing(ack, result) => ack != AckOk && HasFailed(trace, ack) && FailsWith(ack, result)
    case Acking(ack, after) =>
      && (ack == AckOk ==> HasStarted(trace) && (after == Waiting || after.Continuing?) && GoesOn(trace, after))
      && (ack != AckOk ==> after.Ended? && HasFailed(trace, ack) && FailsWith(ack, after.result))
    case Replying(to, term, after) =>
      && HasStarted(trace) && (after == Waiting || after.Continuing? || after.Stopping?) && GoesOn(trace, after)
      && trace != [] && AnswersCall(trace[|trace| - 1], to, term)
    case Continuing(cont, state) => HasStarted(trace) && JustAsked(trace, cont, state)
    case Ended(_) => true
    case _ => HasStarted(trace)
  }

  lemma StartedStays(trace: seq<Event>, e: Event)
    requires HasStarted(trace)
    ensures HasStarted(trace + [e])
  {
    var k :| 0 <= k < |trace| && InitDone(trace[k]);
    assert (trace + [e])[k] == trace[k];
  }

  lemma FailedStays(trace: seq<Event>, e: Event, ack: Ack)
    ensures HasFailed(trace, ack) || Accounts(e, ack) ==> HasFailed(trace + [e], ack)
  {
    if Accounts(e, ack) {
      assert (trace + [e])[|trace|] == e;
    } else if HasFailed(trace, ack) {
      var k :| 0 <= k < |trace| && Accounts(trace[k], ack);
      assert (trace + [e])[k] == trace[k];
    }
  }

  lemma KnowsNext(c: Config, trace: seq<Event>, e: Event)
    requires PhaseKnows(trace, c.phase) && Next(c, e).Some?
    ensures PhaseKnows(trace + [e], Next(c, e).value.phase)
  {
    var more := trace + [e];
    assert more[|trace|] == e;
    assert |trace| > 0 ==> more[|trace| - 1] == trace[|trace| - 1];
    if HasStarted(trace) {
      StartedStays(trace, e);
    }
    if InitDone(e) {
      assert HasStarted(more);
    }
    var next := Next(c, e).value.phase;
    if next.Releasing? || next.Acking? {
      FailedStays(trace, e, next.ack);
    }
  }

  lemma {:induction false} Knows(hasName: bool, parent: Pid, trace: seq<Event>)
    requires After(Start(hasName, parent), trace).Some?
    ensures PhaseKnows(trace, After(Start(hasName, parent), trace).value.phase)
  {
    if trace != [] {
      var n := |trace| - 1;
      Knows(hasName, parent, trace[..n]);
      KnowsNext(After(Start(hasName, parent), trace[..n]).value, trace[..n], trace[n]);
      assert trace[..n] + [trace[n]] == trace;
    }
  }

  /** `Init` runs first and once: everything before it is registration of the name. */
  lemma InitOnceAndFirst(hasName: bool, parent: Pid, trace: seq<Event>, k: nat)
    requires After(Start(hasName, parent), trace).Some? && k < |trace|
    requires trace[k].Ran? && trace[k].cb == InitCb
    ensures forall j :: 0 <= j < k ==> trace[j] == Registered
  {
    StepAt(Start(hasName, parent), trace, k);
    Knows(hasName, parent, trace[..k]);
    forall j | 0 <= j < k
      ensures trace[j] == Registered
    {
      assert trace[..k][j] in trace[..k];
    }
  }

  /** No message is read, no other callback runs and `Terminate` is not called unless `Init` has succeeded before. */
  lemma NothingBeforeInit(hasName: bool, parent: Pid, trace: seq<Event>, k: nat)
    requires After(Start(hasName, parent), trace).Some? && k < |trace|
    requires trace[k].Received? || trace[k].Terminated? || (trace[k].Ran? && trace[k].cb != InitCb)
    ensures HasStarted(trace[..k])
  {
    StepAt(Start(hasName, parent), trace, k);
    Knows(hasName, parent, trace[..k]);
  }

  /** A continuation runs only when the callback just before it asked for it, with the state that callback returned. */
  lemma ContinuedWasAsked(hasName: bool, parent: Pid, trace: seq<Event>, k: nat, cont: Cont, state: State)
    requires After(Start(hasName, parent), trace).Some? && k < |trace| && Continues(trace[k], cont, state)
    ensures JustAsked(trace[..k], cont, state)
  {
    StepAt(Start(hasName, parent), trace, k);
    Knows(hasName, parent, trace[..k]);
  }

  /** A reply is sent only to the caller of the call that has just been handled, and only what was returned for it. */
  lemma RepliedWasAnswered(hasName: bool, parent: Pid, trace: seq<Event>, k: nat)
    requires After(Start(hasName, parent), trace).Some? && k < |trace| && trace[k].Replied?
    ensures k > 0 && AnswersCall(trace[k - 1], trace[k].to, trace[k].term)
  {
    StepAt(Start(hasName, parent), trace, k);
    Knows(hasName, parent, trace[..k]);
  }

  // ---------------------------------------------------------------- the state and the name

  /** The field `state`, told from the events alone: continuations work on a copy until their chain is complete. */
  function FieldState(trace: seq<Event>): State {
    if trace == [] then NO_STATE
    else
      var e := trace[|trace| - 1];
      var before := FieldState(trace[..|trace| - 1]);
      if !e.Ran? then before
      else
        match e.outcome
        case Done(state, next, _) => if e.cb.ContinueCb? && next.Some? then before else state
        case Failed(_, state, _) =>
          if e.cb.HandlerCb? && !e.cb.msg.CallMsg? && !e.cb.msg.CastMsg? then state else before
        case Panicked(_) => before
  }

  /** The name is registered, and not given up yet. */
  function HoldsName(trace: seq<Event>): bool {
    if trace == [] then false
    else
      var e := trace[|trace| - 1];
      e == Registered || (e != Unregistered && HoldsName(trace[..|trace| - 1]))
  }

  lemma {:induction false} FieldsFollowTrace(hasName: bool, parent: Pid, trace: seq<Event>)
    requires After(Start(hasName, parent), trace).Some?
    ensures var c := After(Start(hasName, parent), trace).value;
            c.state == FieldState(trace) && c.named == HoldsName(trace) && c.parent == parent
  {
    if trace != [] {
      FieldsFollowTrace(hasName, parent, trace[..|trace| - 1]);
    }
  }

  /** A handler gets the state of the field, and so does `Terminate`: after a panic in a chain of continuations that
      is the state from before the chain. */
  lemma StateIsHandedOn(hasName: bool, parent: Pid, trace: seq<Event>, k: nat)
    requires After(Start(hasName, parent), trace).Some? && k < |trace|
    requires trace[k].Terminated? || (trace[k].Ran? && trace[k].cb.HandlerCb?)
    ensures trace[k].given == FieldState(trace[..k])
  {
    StepAt(Start(hasName, parent), trace, k);
    FieldsFollowTrace(hasName, parent, trace[..k]);
  }

  /** What a server acknowledges is true: success only after `Init` succeeded, an error only for the reason for which
      the name was refused or `Init` failed. */
  lemma AckIsTrue(hasName: bool, parent: Pid, trace: seq<Event>, k: nat)
    requires After(Start(hasName, parent), trace).Some? && k < |trace| && trace[k].Acked?
    ensures trace[k].ack == AckOk ==> HasStarted(trace[..k])
    ensures trace[k].ack != AckOk ==> HasFailed(trace[..k], trace[k].ack)
  {
    StepAt(Start(hasName, parent), trace, k);
    Knows(hasName, parent, trace[..k]);
  }

  /** What a message is for: a stop request, and an exit message of the very process that started the server, are
      followed by `Terminate` with their reason and the state of the field, and that is the end; every other message,
      exit messages of others included, goes to its handler. */
  lemma MessageIsServed(hasName: bool, parent: Pid, trace: seq<Event>, k: nat)
    requires After(Start(hasName, parent), trace).Some? && k + 1 < |trace| && trace[k].Received?
    ensures forall reason :: trace[k].msg == StopMsg(reason) || trace[k].msg == ExitOf(parent, reason) ==>
              trace[k + 1] == Terminated(reason, FieldState(trace[..k])) && k + 2 == |trace|
    ensures (forall reason :: trace[k].msg != StopMsg(reason) && trace[k].msg != ExitOf(parent, reason)) ==>
              trace[k + 1].Ran? && trace[k + 1].cb == HandlerCb(trace[k].msg)
              && trace[k + 1].given == FieldState(trace[..k])
  {
    var start := Start(hasName, parent);
    var m := trace[k].msg;
    StepAt(start, trace, k);
    StepAt(start, trace, k + 1);
    FieldsFollowTrace(hasName, parent, trace[..k]);
    if trace[k + 1].Terminated? {
      TerminateIsLast(start, trace, k + 1);
    }
    assert m.StopMsg? ==> m == StopMsg(m.reason);
    assert m.ExitOf? && m.proc == parent ==> m == ExitOf(parent, m.reason);
  }

  /** A server has ended only for one of four reasons, and returns what belongs to it: `Terminate` was called; a
      continuation returned an error; its inbox was closed; or it did not start, and has said so. So a handler that
      failed and a continuation that panicked never end it without `Terminate`. */
  lemma EndedBecause(hasName: bool, parent: Pid, trace: seq<Event>)
    requires After(Start(hasName, parent), trace).Some? && After(Start(hasName, parent), trace).value.phase.Ended?
    ensures trace != []
    ensures var last := trace[|trace| - 1];
            var result := After(Start(hasName, parent), trace).value.phase.result;
            match last
            case Terminated(reason, given) => result == ReasonErr(reason) && given == FieldState(trace)
            case Ran(cb, _, outcome) => cb.ContinueCb? && outcome.Failed? && result == outcome.err
            case Closed => result == NilErr
            case Acked(ack) => FailsWith(ack, result)
            case _ => false
  {
    var n := |trace| - 1;
    Knows(hasName, parent, trace[..n]);
    FieldsFollowTrace(hasName, parent, trace[..n]);
  }

  /** A start that failed or was ignored is reported when the name is no longer held, and is the last thing. */
  lemma FailedStartHoldsNoName(hasName: bool, parent: Pid, trace: seq<Event>, k: nat)
    requires After(Start(hasName, parent), trace).Some? && k < |trace| && trace[k].Acked? && trace[k].ack != AckOk
    ensures !HoldsName(trace[..k + 1]) && k == |trace| - 1
  {
    var start := Start(hasName, parent);
    StepAt(start, trace, k);
    Knows(hasName, parent, trace[..k]);
    FieldsFollowTrace(hasName, parent, trace[..k + 1]);
    NamelessWhenAcking(hasName, parent, trace[..k]);
    if k + 1 < |trace| {
      StepAt(start, trace, k + 1);
      assert false;
    }
  }

  lemma {:induction false} NamelessWhenAcking(hasName: bool, parent: Pid, trace: seq<Event>)
    requires After(Start(hasName, parent), trace).Some?
    ensures var c := After(Start(hasName, parent), trace).value;
            c.phase == Naming || (c.phase.Acking? && c.phase.ack != AckOk) ==> !c.named
  {
    if trace != [] {
      NamelessWhenAcking(hasName, parent, trace[..|trace| - 1]);
      Knows(hasName, parent, trace[..|trace| - 1]);
    }
  }
}
