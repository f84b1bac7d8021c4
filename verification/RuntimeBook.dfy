/** What a process keeps about others is what the signals it was given say: its links, and who monitors it, are told
    from the sequence of handled signals alone, by the last word on each of them; and those it is left with when it
    exits are the ones it would have if it had handled all that its inbox still held. */
module RuntimeBook {
  import opened Types
  import opened Inboxes
  import opened Runtime
  import opened RuntimeLocal
  import opened RuntimeFacts
  import opened RuntimeOrder
  import opened RuntimeSafety

  // ---------------------------------------------------------------- the last word

  /** Whether one is linked to `x` after one more signal. */
  predicate LinkWord(before: bool, sig: Signal, x: Pid) {
    match sig
    case LinkSig(pid) => before || pid == x
    case UnlinkSig(pid) => before && pid != x
    case _ => before
  }

  predicate LinkedBy(first: bool, h: seq<Signal>, x: Pid) {
    if h == [] then first else LinkWord(LinkedBy(first, h[..|h| - 1], x), h[|h| - 1], x)
  }

  /** Whether one is monitored by `e.pid` under `e.ref` after one more signal: a demonitor of another process ends all
      that has its reference, and all that has its origin. */
  predicate EntryWord(self: Pid, before: bool, sig: Signal, e: Entry) {
    match sig
    case MonitorSig(ref, monitor, _) => before || (monitor != self && monitor == e.pid && ref == e.ref)
    case DemonitorSig(ref, origin) => before && (origin == self || (ref != e.ref && origin != e.pid))
    case _ => before
  }

  predicate EntryBy(self: Pid, first: bool, h: seq<Signal>, e: Entry) {
    if h == [] then first else EntryWord(self, EntryBy(self, first, h[..|h| - 1], e), h[|h| - 1], e)
  }

  lemma LinkedNext(first: bool, h: seq<Signal>, sig: Signal, x: Pid)
    ensures LinkedBy(first, h + [sig], x) == LinkWord(LinkedBy(first, h, x), sig, x)
  {
    assert (h + [sig])[..|h|] == h;
  }

  lemma EntryNext(self: Pid, first: bool, h: seq<Signal>, sig: Signal, e: Entry)
    ensures EntryBy(self, first, h + [sig], e) == EntryWord(self, EntryBy(self, first, h, e), sig, e)
  {
    assert (h + [sig])[..|h|] == h;
  }

  /** A link signal for `x` at `k`, and no unlink signal for it later; or linked from the start, and no unlink
      signal. */
  ghost predicate Joined(first: bool, h: seq<Signal>, x: Pid) {
    || (first && forall j :: 0 <= j < |h| ==> h[j] != UnlinkSig(x))
    || exists k :: 0 <= k < |h| && JoinedAt(h, x, k)
  }

  ghost predicate JoinedAt(h: seq<Signal>, x: Pid, k: nat)
    requires k < |h|
  {
    h[k] == LinkSig(x) && forall j :: k < j < |h| ==> h[j] != UnlinkSig(x)
  }

  /** To be joined is to have the last word. */
  lemma {:induction false} JoinedIsLastWord(first: bool, h: seq<Signal>, x: Pid)
    ensures Joined(first, h, x) <==> LinkedBy(first, h, x)
  {
    if h != [] {
      var g := h[..|h| - 1];
      JoinedIsLastWord(first, g, x);
      if LinkedBy(first, h, x) {
        JoinedStays(first, h, x);
      }
      if Joined(first, h, x) {
        JoinedBefore(first, h, x);
      }
    }
  }

  lemma JoinedStays(first: bool, h: seq<Signal>, x: Pid)
    requires h != [] && h[|h| - 1] != UnlinkSig(x)
    requires Joined(first, h[..|h| - 1], x) || h[|h| - 1] == LinkSig(x)
    ensures Joined(first, h, x)
  {
    var n := |h| - 1;
    if h[n] == LinkSig(x) {
      assert JoinedAt(h, x, n);
    } else if k: nat :| k < n && JoinedAt(h[..n], x, k) {
      assert JoinedAt(h, x, k);
    }
  }

  lemma JoinedBefore(first: bool, h: seq<Signal>, x: Pid)
    requires h != [] && Joined(first, h, x)
    ensures h[|h| - 1] != UnlinkSig(x)
    ensures Joined(first, h[..|h| - 1], x) || h[|h| - 1] == LinkSig(x)
  {
    var n := |h| - 1;
    if k: nat :| k < n && JoinedAt(h, x, k) {
      assert JoinedAt(h[..n], x, k);
    }
  }

  // ---------------------------------------------------------------- the book

  ghost predicate Distinct(xs: seq<Pid>) {
    forall i, j :: 0 <= i < j < |xs| ==> xs[i] != xs[j]
  }

  lemma {:induction false} RemovedHas(xs: seq<Pid>, x: Pid)
    requires Distinct(xs)
    ensures Distinct(RemoveFirst(xs, x))
    ensures forall y :: y in RemoveFirst(xs, x) <==> y in xs && y != x
  {
    if xs != [] {
      var rest := xs[1..];
      assert xs == [xs[0]] + rest && xs[0] !in rest;
      if xs[0] != x {
        RemovedHas(rest, x);
        var r := RemoveFirst(rest, x);
        assert forall i :: 0 <= i < |r| ==> r[i] in r && r[i] != xs[0];
      }
    }
  }

  lemma {:induction false} KeepHas(es: seq<Entry>, ref: Ref, origin: Pid)
    ensures forall e :: e in Keep(es, ref, origin) <==> e in es && e.ref != ref && e.pid != origin
  {
    if es != [] {
      KeepHas(es[..|es| - 1], ref, origin);
      assert es == es[..|es| - 1] + [es[|es| - 1]];
    }
  }

  lemma NoteLinks(self: Pid, b: Book, sig: Signal)
    requires Distinct(b.links)
    ensures var n := Note(self, b, sig).book;
            Distinct(n.links) && forall x :: x in n.links <==> LinkWord(x in b.links, sig, x)
  {
    if sig.UnlinkSig? {
      RemovedHas(b.links, sig.pid);
    }
  }

  lemma NoteEntries(self: Pid, b: Book, sig: Signal)
    ensures var n := Note(self, b, sig).book;
            forall e :: e in n.monitors <==> EntryWord(self, e in b.monitors, sig, e)
  {
    if sig.DemonitorSig? {
      KeepHas(b.monitors, sig.ref, sig.origin);
    }
  }

  lemma {:induction false} DrainLinks(self: Pid, b: Book, sigs: seq<Signal>)
    requires Distinct(b.links)
    ensures var n := DrainAll(self, b, sigs).book;
            Distinct(n.links) && forall x :: x in n.links <==> LinkedBy(x in b.links, sigs, x)
  {
    if sigs != [] {
      var k := |sigs| - 1;
      DrainLinks(self, b, sigs[..k]);
      NoteLinks(self, DrainAll(self, b, sigs[..k]).book, sigs[k]);
    }
  }

  lemma {:induction false} DrainEntries(self: Pid, b: Book, sigs: seq<Signal>)
    ensures var n := DrainAll(self, b, sigs).book;
            forall e :: e in n.monitors <==> EntryBy(self, e in b.monitors, sigs, e)
  {
    if sigs != [] {
      var k := |sigs| - 1;
      DrainEntries(self, b, sigs[..k]);
      NoteEntries(self, DrainAll(self, b, sigs[..k]).book, sigs[k]);
    }
  }

  lemma {:induction false} LinkedByParts(first: bool, g: seq<Signal>, h: seq<Signal>, x: Pid)
    ensures LinkedBy(first, g + h, x) == LinkedBy(LinkedBy(first, g, x), h, x)
  {
    if h == [] {
      assert g + h == g;
    } else {
      var n := |h| - 1;
      LinkedByParts(first, g, h[..n], x);
      assert g + h == (g + h[..n]) + [h[n]];
      LinkedNext(first, g + h[..n], h[n], x);
    }
  }

  lemma {:induction false} EntryByParts(self: Pid, first: bool, g: seq<Signal>, h: seq<Signal>, e: Entry)
    ensures EntryBy(self, first, g + h, e) == EntryBy(self, EntryBy(self, first, g, e), h, e)
  {
    if h == [] {
      assert g + h == g;
    } else {
      var n := |h| - 1;
      EntryByParts(self, first, g, h[..n], e);
      assert g + h == (g + h[..n]) + [h[n]];
      EntryNext(self, first, g + h[..n], h[n], e);
    }
  }

  // ---------------------------------------------------------------- set-up

  /** The links and entries that the set-up part of `run` has still to make. */
  function LinksDue(ops: seq<Op>): seq<Pid> {
    if ops == [] then [] else (if ops[0].AddLink? then [ops[0].pid] else []) + LinksDue(ops[1..])
  }

  function EntriesDue(ops: seq<Op>): seq<Entry> {
    if ops == [] then []
    else (if ops[0].AddMonitor? then [Entry(ops[0].pid, ops[0].ref)] else []) + EntriesDue(ops[1..])
  }

  lemma {:induction false} NothingDue(ops: seq<Op>)
    requires OnlySends(ops)
    ensures LinksDue(ops) == [] && EntriesDue(ops) == []
  {
    if ops != [] {
      NothingDue(ops[1..]);
    }
  }

  lemma DueAfter(news: seq<Op>, rest: seq<Op>)
    requires |news| <= 1 && OnlySends(news)
    ensures LinksDue(news + rest) == LinksDue(rest) && EntriesDue(news + rest) == EntriesDue(rest)
  {
    if news == [] {
      assert news + rest == rest;
    } else {
      assert (news + rest)[1..] == rest;
    }
  }

  // ---------------------------------------------------------------- the invariant

  /** Who started each process with a link to itself, told from the actions of a run. */
  function Sponsors(actions: seq<Action>): seq<Option<Pid>> {
    if actions == [] then [None]
    else
      Sponsors(actions[..|actions| - 1])
      + match actions[|actions| - 1] {
          case Spawn => [None]
          case SpawnLink(parent) => [Some(parent)]
          case SpawnMonitor(_) => [None]
          case _ => []
        }
  }

  /** What a process that has exited was given to handle: what it handled, and what `exit` found in its inbox. */
  function Honoured(p: Proc): seq<Signal> {
    if p.Told() then p.box.taken + p.box.queue else p.box.taken
  }

  ghost predicate LinksDueOk(p: Proc, sponsor: Option<Pid>) {
    || LinksDue(p.out) == []
    || (p.Running() && sponsor.Some? && LinksDue(p.out) == [sponsor.value] && p.box.taken == [] && p.book.links == [])
  }

  ghost predicate LinksOk(p: Proc, sponsor: Option<Pid>) {
    && Distinct(p.book.links) && LinksDueOk(p, sponsor)
    && (!p.Told() ==> forall x :: x in p.book.links <==> LinkedBy(FromStart(p, sponsor, x), p.box.taken, x))
    && (p.Told() ==> forall x :: x in p.ending.lastLinks <==> LinkedBy(sponsor == Some(x), Honoured(p), x))
  }

  /** Started with a link to `x`, and past that point of its set-up. */
  predicate FromStart(p: Proc, sponsor: Option<Pid>, x: Pid) {
    sponsor == Some(x) && LinksDue(p.out) == []
  }

  /** The reference of an entry that `SpawnMonitor` made. */
  predicate FromSpawn(refs: seq<RefInfo>, self: Pid, e: Entry) {
    e.ref < |refs| && refs[e.ref] == RefInfo(e.pid, self, true)
  }

  ghost predicate EntriesDueOk(p: Proc, refs: seq<RefInfo>) {
    || EntriesDue(p.out) == []
    || (p.Running() && |EntriesDue(p.out)| == 1 && p.box.taken == [] && p.book.monitors == []
        && forall e :: FromSpawn(refs, p.id, e) <==> e == EntriesDue(p.out)[0])
  }

  ghost predicate EntriesOk(p: Proc, refs: seq<RefInfo>) {
    && EntriesDueOk(p, refs)
    && (p.phase != Done ==>
          forall e :: e in p.book.monitors
                 <==> EntryBy(p.id, FromSpawn(refs, p.id, e) && EntriesDue(p.out) == [], Honoured(p), e))
  }

  ghost predicate Held(s: Sys, sponsors: seq<Option<Pid>>, i: Pid)
    requires i < |s.procs| && i < |sponsors|
  {
    LinksOk(s.procs[i], sponsors[i]) && EntriesOk(s.procs[i], s.refs)
  }

  ghost predicate Booked(s: Sys, sponsors: seq<Option<Pid>>) {
    && AllLocalOk(s) && |sponsors| == |s.procs|
    && (forall r :: 0 <= r < |s.refs| && s.refs[r].spawned ==> s.refs[r].monitored < |s.procs|)
    && forall i :: 0 <= i < |s.procs| ==> Held(s, sponsors, i)
  }

  // ---------------------------------------------------------------- steps of one process

  lemma HandleLinks(p: Proc, sponsor: Option<Pid>, clock: nat)
    requires LocalOk(p) && LinksOk(p, sponsor) && CanOwn(p, Handle)
    ensures LinksOk(OwnStep(p, Handle, clock, 0).p, sponsor)
  {
    var sig := p.box.slot[0];
    var q := OwnStep(p, Handle, clock, 0).p;
    HandleKeeps(p, sig, clock);
    NoteLinks(p.id, p.book, sig);
    forall x
      ensures x in q.book.links <==> LinkedBy(FromStart(q, sponsor, x), q.box.taken, x)
    {
      LinkedNext(FromStart(p, sponsor, x), p.box.taken, sig, x);
    }
  }

  lemma HandleEntries(p: Proc, refs: seq<RefInfo>, clock: nat)
    requires LocalOk(p) && EntriesOk(p, refs) && CanOwn(p, Handle)
    ensures EntriesOk(OwnStep(p, Handle, clock, 0).p, refs)
  {
    var sig := p.box.slot[0];
    var q := OwnStep(p, Handle, clock, 0).p;
    HandleKeeps(p, sig, clock);
    NoteEntries(p.id, p.book, sig);
    forall e
      ensures e in q.book.monitors <==> EntryBy(p.id, FromSpawn(refs, p.id, e), q.box.taken, e)
    {
      EntryNext(p.id, FromSpawn(refs, p.id, e), p.box.taken, sig, e);
    }
  }

  /** What handling a signal does to the parts of a process that matter here. */
  lemma HandleKeeps(p: Proc, sig: Signal, clock: nat)
    requires LocalOk(p) && CanOwn(p, Handle) && sig == p.box.slot[0]
    ensures var q := OwnStep(p, Handle, clock, 0).p;
            && q.id == p.id && !q.Told() && q.phase != Done && q.book == Note(p.id, p.book, sig).book
            && q.box.taken == p.box.taken + [sig]
            && LinksDue(q.out) == [] && EntriesDue(q.out) == []
  {
    HandleBook(Received(p), sig, clock);
    HandleDue(p, sig, clock);
  }

  lemma HandleDue(p: Proc, sig: Signal, clock: nat)
    requires p.box.slot != [] && p.Running() && p.out == []
    ensures var q := HandleSignal(Received(p), sig, clock).p;
            LinksDue(q.out) == [] && EntriesDue(q.out) == [] && !q.Told() && q.phase != Done
  {
    var ops := HandleSignal(Received(p), sig, clock).p.out;
    assert ops == [] || ops == Note(p.id, p.book, sig).ops;
    NothingDue(ops);
  }

  /** The other steps of a process leave alone what matters here, except that `exit` reads out the inbox. */
  lemma OtherKeeps(p: Proc, step: Own, clock: nat, ref: Ref)
    requires LocalOk(p) && CanOwn(p, step) && !step.Handle? && !step.Drain?
    ensures var q := OwnStep(p, step, clock, ref).p;
            && q.id == p.id && q.out == p.out && q.box.taken == p.box.taken
            && (q.Told() <==> p.Told())
            && (q.book == p.book || (q.phase == Done && q.book == Book([], [], map[])))
            && (q.phase == Done <== p.phase == Done)
            && (q.Told() ==> q.ending.lastLinks == p.ending.lastLinks && q.box.queue == p.box.queue)
            && (p.out != [] && p.Running() ==> q.Running())
  {
  }

  lemma NotRunningDue(p: Proc)
    requires LocalOk(p) && !p.Running()
    ensures LinksDue(p.out) == [] && EntriesDue(p.out) == []
  {
    NothingDue(p.out);
  }

  lemma OtherLinks(p: Proc, step: Own, clock: nat, ref: Ref, sponsor: Option<Pid>)
    requires LocalOk(p) && LinksOk(p, sponsor) && CanOwn(p, step) && !step.Handle? && !step.Drain?
    ensures LinksOk(OwnStep(p, step, clock, ref).p, sponsor)
  {
    OtherKeeps(p, step, clock, ref);
  }

  lemma OtherEntries(p: Proc, step: Own, clock: nat, ref: Ref, refs: seq<RefInfo>)
    requires LocalOk(p) && EntriesOk(p, refs) && CanOwn(p, step) && !step.Handle? && !step.Drain?
    ensures EntriesOk(OwnStep(p, step, clock, ref).p, refs)
  {
    OtherKeeps(p, step, clock, ref);
  }

  lemma DrainedLinks(p: Proc, sponsor: Option<Pid>, order: seq<Ref>)
    requires LocalOk(p) && LinksOk(p, sponsor) && CanOwn(p, Drain(order))
    ensures LinksOk(DrainProc(p, order), sponsor)
  {
    var q := DrainProc(p, order);
    DrainLinks(p.id, p.book, p.box.queue);
    DrainSends(p.id, p.book, p.box.queue);
    NothingDue(q.out);
    forall x
      ensures x in q.ending.lastLinks <==> LinkedBy(sponsor == Some(x), Honoured(q), x)
    {
      LinkedByParts(sponsor == Some(x), p.box.taken, p.box.queue, x);
    }
  }

  lemma DrainedEntries(p: Proc, refs: seq<RefInfo>, order: seq<Ref>)
    requires LocalOk(p) && EntriesOk(p, refs) && CanOwn(p, Drain(order))
    ensures EntriesOk(DrainProc(p, order), refs)
  {
    var q := DrainProc(p, order);
    DrainEntries(p.id, p.book, p.box.queue);
    DrainSends(p.id, p.book, p.box.queue);
    NothingDue(q.out);
    forall e
      ensures e in q.book.monitors <==> EntryBy(p.id, FromSpawn(refs, p.id, e), Honoured(q), e)
    {
      EntryByParts(p.id, FromSpawn(refs, p.id, e), p.box.taken, p.box.queue, e);
    }
  }

  lemma OwnLinks(p: Proc, step: Own, clock: nat, ref: Ref, sponsor: Option<Pid>)
    requires LocalOk(p) && LinksOk(p, sponsor) && CanOwn(p, step)
    ensures LinksOk(OwnStep(p, step, clock, ref).p, sponsor)
  {
    if step.Handle? {
      HandleLinks(p, sponsor, clock);
    } else if step.Drain? {
      DrainedLinks(p, sponsor, step.order);
    } else {
      OtherLinks(p, step, clock, ref, sponsor);
    }
  }

  lemma OwnEntries(p: Proc, step: Own, clock: nat, ref: Ref, refs: seq<RefInfo>)
    requires LocalOk(p) && EntriesOk(p, refs) && CanOwn(p, step)
    ensures EntriesOk(OwnStep(p, step, clock, ref).p, refs)
  {
    if step.Handle? {
      HandleEntries(p, refs, clock);
    } else if step.Drain? {
      DrainedEntries(p, refs, step.order);
    } else {
      OtherEntries(p, step, clock, ref, refs);
    }
  }

  // ---------------------------------------------------------------- sends and set-up

  /** What is due after the first operation of the loop's program. */
  lemma ProgressDue(p: Proc, alive: bool)
    requires p.out != []
    ensures var q := Progress(p, LoopSide, alive);
            && (LinksDue(p.out) == (if p.out[0].AddLink? then [p.out[0].pid] else []) + LinksDue(q.out))
            && (EntriesDue(p.out)
                == (if p.out[0].AddMonitor? then [Entry(p.out[0].pid, p.out[0].ref)] else []) + EntriesDue(q.out))
  {
    var rest := p.out[1..];
    if p.out[0].Send? {
      DueAfter(if alive then [Enqueue(p.out[0].to, p.out[0].sig)] else Bounce(p.out[0].to, p.out[0].sig), rest);
    }
  }

  /** An operation of the loop's program but the one that makes the link, or the entry, of the set-up. */
  lemma LoopKeeps(p: Proc, alive: bool)
    requires p.out != []
    ensures var q := Progress(p, LoopSide, alive);
            && q.id == p.id && q.phase == p.phase && q.box == p.box && q.ending == p.ending
            && (!p.out[0].AddLink? ==> q.book.links == p.book.links && LinksDue(q.out) == LinksDue(p.out))
            && (!p.out[0].AddMonitor? ==>
                  q.book.monitors == p.book.monitors && EntriesDue(q.out) == EntriesDue(p.out))
  {
    ProgressDue(p, alive);
  }

  lemma ApiKeeps(p: Proc, alive: bool)
    requires LocalOk(p) && p.api != []
    ensures var q := Progress(p, ApiSide, alive);
            && q.id == p.id && q.phase == p.phase && q.box == p.box && q.ending == p.ending
            && q.book == p.book && q.out == p.out
  {
    assert p.api[0].Send? || p.api[0].Enqueue?;
  }

  lemma SameLinks(p: Proc, q: Proc, sponsor: Option<Pid>)
    requires LinksOk(p, sponsor)
    requires q.phase == p.phase && q.box == p.box && q.ending == p.ending
    requires q.book.links == p.book.links && LinksDue(q.out) == LinksDue(p.out)
    ensures LinksOk(q, sponsor)
  {
  }

  lemma SameEntries(p: Proc, q: Proc, refs: seq<RefInfo>)
    requires EntriesOk(p, refs)
    requires q.id == p.id && q.phase == p.phase && q.box == p.box
    requires q.book.monitors == p.book.monitors && EntriesDue(q.out) == EntriesDue(p.out)
    ensures EntriesOk(q, refs)
  {
  }

  lemma LinkIsMade(p: Proc, alive: bool, sponsor: Option<Pid>)
    requires LinksOk(p, sponsor) && p.out != [] && p.out[0].AddLink?
    ensures LinksOk(Progress(p, LoopSide, alive), sponsor)
  {
    ProgressDue(p, alive);
    var q := Progress(p, LoopSide, alive);
    assert q.book.links == [sponsor.value] && LinksDue(q.out) == [];
  }

  lemma EntryIsMade(p: Proc, alive: bool, refs: seq<RefInfo>)
    requires EntriesOk(p, refs) && p.out != [] && p.out[0].AddMonitor?
    ensures EntriesOk(Progress(p, LoopSide, alive), refs)
  {
    ProgressDue(p, alive);
    var q := Progress(p, LoopSide, alive);
    assert q.book.monitors == [EntriesDue(p.out)[0]] && EntriesDue(q.out) == [];
  }

  lemma ProgressLinks(p: Proc, side: Side, alive: bool, sponsor: Option<Pid>)
    requires LocalOk(p) && LinksOk(p, sponsor) && Program(p, side) != []
    ensures LinksOk(Progress(p, side, alive), sponsor)
  {
    if side == LoopSide && p.out[0].AddLink? {
      LinkIsMade(p, alive, sponsor);
    } else {
      if side == LoopSide {
        LoopKeeps(p, alive);
      } else {
        ApiKeeps(p, alive);
      }
      SameLinks(p, Progress(p, side, alive), sponsor);
    }
  }

  lemma ProgressEntries(p: Proc, side: Side, alive: bool, refs: seq<RefInfo>)
    requires LocalOk(p) && EntriesOk(p, refs) && Program(p, side) != []
    ensures EntriesOk(Progress(p, side, alive), refs)
  {
    if side == LoopSide && p.out[0].AddMonitor? {
      EntryIsMade(p, alive, refs);
    } else {
      if side == LoopSide {
        LoopKeeps(p, alive);
      } else {
        ApiKeeps(p, alive);
      }
      SameEntries(p, Progress(p, side, alive), refs);
    }
  }

  lemma AcceptKeeps(p: Proc, sig: Signal, sponsor: Option<Pid>, refs: seq<RefInfo>)
    requires LocalOk(p) && LinksOk(p, sponsor) && EntriesOk(p, refs)
    ensures LinksOk(Accept(p, sig), sponsor) && EntriesOk(Accept(p, sig), refs)
  {
    assert Honoured(Accept(p, sig)) == Honoured(p);
  }

  // ---------------------------------------------------------------- steps of the system

  /** New references do not change what a process was born with. */
  lemma MoreRefs(p: Proc, refs: seq<RefInfo>, more: seq<RefInfo>)
    requires EntriesOk(p, refs)
    requires forall r :: 0 <= r < |more| && more[r].spawned ==> more[r].monitored != p.id
    ensures EntriesOk(p, refs + more)
  {
    forall e
      ensures FromSpawn(refs + more, p.id, e) <==> FromSpawn(refs, p.id, e)
    {
    }
  }

  lemma PerformBooked(s: Sys, sponsors: seq<Option<Pid>>, i: Pid, side: Side)
    requires Booked(s, sponsors) && i < |s.procs| && Program(s.procs[i], side) != []
    ensures Booked(PerformOp(s, i, side), sponsors)
  {
    var t := PerformOp(s, i, side);
    PerformLocal(s, i, side);
    forall j | 0 <= j < |t.procs|
      ensures Held(t, sponsors, j)
    {
      assert Held(s, sponsors, j);
      PerformKept(s, sponsors, i, side, j);
    }
  }

  lemma PerformKept(s: Sys, sponsors: seq<Option<Pid>>, i: Pid, side: Side, j: Pid)
    requires Booked(s, sponsors) && i < |s.procs| && Program(s.procs[i], side) != [] && j < |s.procs|
    ensures Held(PerformOp(s, i, side), sponsors, j)
  {
    var op := Program(s.procs[i], side)[0];
    var alive := IsRunning(s, Target(op));
    var p := s.procs[j];
    PerformShape(s, i, side, j);
    assert Held(s, sponsors, j) && LocalOk(p);
    var q := p;
    if j == i {
      ProgressLinks(p, side, alive, sponsors[j]);
      ProgressEntries(p, side, alive, s.refs);
      ProgressLocal(p, side, alive);
      q := Progress(p, side, alive);
    }
    if op.Enqueue? && op.to == j {
      AcceptKeeps(q, op.sig, sponsors[j], s.refs);
    }
  }

  lemma LocalBooked(s: Sys, sponsors: seq<Option<Pid>>, i: Pid, step: Own)
    requires Booked(s, sponsors) && Enabled(s, Local(i, step))
    ensures Booked(Apply(s, Local(i, step)), sponsors)
  {
    var t := Apply(s, Local(i, step));
    LocalStep(s, Local(i, step));
    var more := NewRefs(s, Local(i, step));
    forall j | 0 <= j < |t.procs|
      ensures Held(t, sponsors, j)
    {
      assert Held(s, sponsors, j) && LocalOk(s.procs[j]);
      if i == j {
        OwnLinks(s.procs[i], step, s.clock, |s.refs|, sponsors[i]);
        OwnEntries(s.procs[i], step, s.clock, |s.refs|, s.refs);
      }
      MoreRefs(t.procs[j], s.refs, more);
    }
  }

  lemma BirthBooked(s: Sys, sponsors: seq<Option<Pid>>, a: Action, sponsor: Option<Pid>)
    requires Booked(s, sponsors) && Enabled(s, a) && !a.Local? && !a.Perform?
    requires sponsor == if a.SpawnLink? then Some(a.parent) else None
    ensures Booked(Apply(s, a), sponsors + [sponsor])
  {
    var t := Apply(s, a);
    LocalStep(s, a);
    forall j | 0 <= j < |t.procs|
      ensures Held(t, sponsors + [sponsor], j)
    {
      if j < |s.procs| {
        assert Held(s, sponsors, j);
        MoreRefs(s.procs[j], s.refs, NewRefs(s, a));
      } else {
        BornKept(s, a, sponsor);
      }
    }
  }

  lemma BornKept(s: Sys, a: Action, sponsor: Option<Pid>)
    requires WellFormed(s) && Enabled(s, a) && !a.Local? && !a.Perform?
    requires sponsor == if a.SpawnLink? then Some(a.parent) else None
    requires forall r :: 0 <= r < |s.refs| && s.refs[r].spawned ==> s.refs[r].monitored < |s.procs|
    ensures LinksOk(Born(s, a), sponsor) && EntriesOk(Born(s, a), s.refs + NewRefs(s, a))
  {
    var p := Born(s, a);
    NothingDue([]);
    if a.SpawnLink? {
      var rest := [AddLink(a.parent), OpenChannel];
      assert rest[1..] == [OpenChannel] && p.out[1..] == rest;
      assert LinksDue(rest[1..]) == [] && EntriesDue(rest[1..]) == [];
      assert LinksDue(rest) == [a.parent] && EntriesDue(rest) == [];
    } else if a.SpawnMonitor? {
      var rest := [AddMonitor(a.parent, |s.refs|), OpenChannel];
      assert rest[1..] == [OpenChannel] && p.out[1..] == rest;
      assert LinksDue(rest[1..]) == [] && EntriesDue(rest[1..]) == [];
      assert LinksDue(rest) == [] && EntriesDue(rest) == [Entry(a.parent, |s.refs|)];
    }
  }

  /** Every step keeps the books in order. */
  lemma BookedStep(s: Sys, sponsors: seq<Option<Pid>>, a: Action)
    requires Booked(s, sponsors) && Enabled(s, a)
    ensures a.Perform? || a.Local? ==> Booked(Apply(s, a), sponsors)
    ensures a.SpawnLink? ==> Booked(Apply(s, a), sponsors + [Some(a.parent)])
    ensures a.Spawn? || a.SpawnMonitor? ==> Booked(Apply(s, a), sponsors + [None])
  {
    match a
    case Perform(i, side) => PerformBooked(s, sponsors, i, side);
    case Local(i, step) => LocalBooked(s, sponsors, i, step);
    case SpawnLink(parent) => BirthBooked(s, sponsors, a, Some(parent));
    case _ => BirthBooked(s, sponsors, a, None);
  }

  lemma {:induction false} RunIsBooked(actions: seq<Action>, s: Sys)
    requires Run(actions, s)
    ensures Booked(s, Sponsors(actions))
    decreases |actions|
  {
    if actions == [] {
      LocalInit();
    } else {
      var n := |actions| - 1;
      var before :| Follows(actions, before, s);
      RunIsBooked(actions[..n], before);
      BookedStep(before, Sponsors(actions[..n]), actions[n]);
      assert Sponsors(actions[..n]) + [] == Sponsors(actions[..n]);
    }
  }
}
