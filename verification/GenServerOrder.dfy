/** The order of the callbacks alone: Init Continue* (Handler Continue*)* Terminate?, with every continuation asked for
    by the callback right before it. */
module GenServerOrder {
  import opened Types
  import opened GenServerTrace

  predicate IsCallback(e: Event) {
    e.Ran? || e.Terminated?
  }

  /** The callbacks of a trace, in order. */
  function CallbacksOf(trace: seq<Event>): seq<Event> {
    if trace == [] then []
    else CallbacksOf(trace[..|trace| - 1]) + if IsCallback(trace[|trace| - 1]) then [trace[|trace| - 1]] else []
  }

  /** What the next callback may be. */
  datatype Expect = AnInit | AHandler | AContinue(cont: Cont) | ATerminate | Nothing

  function Following(next: Option<Cont>): Expect {
    if next.Some? then AContinue(next.value) else AHandler
  }

  /** One callback, by what is expected. A message that ends the server may call for `Terminate` in place
      of a handler. */
  function Accept(x: Expect, e: Event): Option<Expect> {
    match x
    case AnInit =>
      if !(e.Ran? && e.cb == InitCb) then None
      else if e.outcome.Done? then Some(Following(e.outcome.next)) else Some(Nothing)
    case AHandler =>
      if e.Terminated? then Some(Nothing)
      else if !(e.Ran? && e.cb.HandlerCb?) then None
      else if e.outcome.Done? then Some(Following(e.outcome.next)) else Some(ATerminate)
    case AContinue(cont) =>
      if !(e.Ran? && e.cb == ContinueCb(cont)) then None
      else if e.outcome.Done? then Some(Following(e.outcome.next))
      else Some(if e.outcome.Failed? then Nothing else ATerminate)
    case ATerminate => if e.Terminated? then Some(Nothing) else None
    case Nothing => None
  }

  /** What is expected after some callbacks, if their order is right. */
  function Expected(word: seq<Event>): Option<Expect> {
    if word == [] then Some(AnInit)
    else
      var x := Expected(word[..|word| - 1]);
      if x == None then None else Accept(x.value, word[|word| - 1])
  }

  /** What a server in some phase may call next. */
  predicate Fits(phase: Phase, x: Expect)
    decreases phase
  {
    match phase
    case Naming => x == AnInit
    case Starting => x == AnInit
    case Releasing(_, _) => x == Nothing
    case Acking(_, after) => Fits(after, x)
    case Waiting => x == AHandler
    case Handling(_) => x == AHandler
    case Replying(_, _, after) => Fits(after, x)
    case Continuing(cont, _) => x == AContinue(cont)
    case Stopping(_) => x == ATerminate
    case Ended(_) => true
  }

  /** An event that is no callback changes nothing about what is expected; a callback is one that is expected. */
  lemma StepFits(c: Config, e: Event, x: Expect)
    requires Next(c, e).Some? && Fits(c.phase, x)
    ensures !IsCallback(e) ==> Fits(Next(c, e).value.phase, x)
    ensures IsCallback(e) ==> Accept(x, e).Some? && Fits(Next(c, e).value.phase, Accept(x, e).value)
  {
  }

  lemma {:induction false} TraceFits(hasName: bool, parent: Pid, trace: seq<Event>)
    requires After(Start(hasName, parent), trace).Some?
    ensures Expected(CallbacksOf(trace)).Some?
    ensures Fits(After(Start(hasName, parent), trace).value.phase, Expected(CallbacksOf(trace)).value)
  {
    if trace != [] {
      var n := |trace| - 1;
      TraceFits(hasName, parent, trace[..n]);
      var word := CallbacksOf(trace[..n]);
      StepFits(After(Start(hasName, parent), trace[..n]).value, trace[n], Expected(word).value);
      if IsCallback(trace[n]) {
        assert (word + [trace[n]])[..|word|] == word;
      } else {
        assert word + [] == word;
      }
    }
  }

  // ---------------------------------------------------------------- the words

  predicate IsInit(e: Event) {
    e.Ran? && e.cb == InitCb
  }

  /** A handler or a continuation. */
  predicate IsInner(e: Event) {
    e.Ran? && e.cb != InitCb
  }

  predicate IsContinue(e: Event, cont: Cont) {
    e.Ran? && e.cb == ContinueCb(cont)
  }

  /** `Init`, then handlers and continuations, then perhaps `Terminate`. */
  ghost predicate InOrder(word: seq<Event>) {
    && (word != [] ==> IsInit(word[0]))
    && (forall i :: 0 < i < |word| - 1 ==> IsInner(word[i]))
    && (|word| > 1 ==> IsInner(word[|word| - 1]) || word[|word| - 1].Terminated?)
  }

  /** A continuation comes exactly where the callback before asked for it. */
  ghost predicate Chained(word: seq<Event>) {
    forall i :: 0 <= i < |word| - 1 ==> ChainedAt(word[i], word[i + 1])
  }

  ghost predicate ChainedAt(e: Event, next: Event) {
    e.Ran? ==> forall cont :: IsContinue(next, cont) <==> e.outcome.Done? && e.outcome.next == Some(cont)
  }

  /** What is expected tells how the word ends. */
  ghost predicate EndsSo(word: seq<Event>, x: Expect) {
    match x
    case AnInit => word == []
    case Nothing => word != []
    case ATerminate => word != [] && word[|word| - 1].Ran? && !word[|word| - 1].outcome.Done?
    case AHandler =>
      word != [] && word[|word| - 1].Ran? && word[|word| - 1].outcome.Done? && word[|word| - 1].outcome.next == None
    case AContinue(cont) =>
      && word != [] && word[|word| - 1].Ran?
      && word[|word| - 1].outcome.Done? && word[|word| - 1].outcome.next == Some(cont)
  }

  lemma {:induction false} WordsInOrder(word: seq<Event>)
    requires Expected(word).Some?
    ensures InOrder(word) && Chained(word) && EndsSo(word, Expected(word).value)
  {
    if word != [] {
      var n := |word| - 1;
      var front := word[..n];
      WordsInOrder(front);
      forall i | 0 <= i < n
        ensures ChainedAt(word[i], word[i + 1])
      {
        if i < n - 1 {
          assert ChainedAt(front[i], front[i + 1]);
        } else {
          assert front[|front| - 1] == word[i] && Accept(Expected(front).value, word[n]).Some?;
        }
      }
      assert forall i :: 0 <= i < n ==> front[i] == word[i];
    }
  }

  /** Whatever messages come and whatever the callbacks do: they are called in this order. */
  lemma CallbackOrder(hasName: bool, parent: Pid, trace: seq<Event>)
    requires After(Start(hasName, parent), trace).Some?
    ensures InOrder(CallbacksOf(trace)) && Chained(CallbacksOf(trace))
  {
    TraceFits(hasName, parent, trace);
    WordsInOrder(CallbacksOf(trace));
  }
}
