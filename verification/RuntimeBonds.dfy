/** Who is linked to whom, and who monitors whom, told from the signals alone; and what that means when a process exits:
    all that were linked to it are told, and nobody else. */
module RuntimeBonds {
  import opened Types
  import opened Inboxes
  import opened Runtime
  import opened RuntimeLocal
  import opened RuntimeSafety
  import opened RuntimeBook

  /** What process `i` of a run has to do with `x`: it was given a link to it, in a signal or when it was spawned, that
      was not taken back later. */
  ghost predicate Bound(actions: seq<Action>, s: Sys, i: Pid, x: Pid)
    requires i < |s.procs| && i < |Sponsors(actions)|
  {
    Joined(Sponsors(actions)[i] == Some(x), Honoured(s.procs[i]), x)
  }

  /** The links of a process that has not read out its inbox yet, and is past its set-up, are exactly those; each of
      them is there once. */
  lemma LinksAreBonds(actions: seq<Action>, s: Sys, i: Pid)
    requires Run(actions, s) && i < |s.procs| && !s.procs[i].Told() && LinksDue(s.procs[i].out) == []
    ensures i < |Sponsors(actions)| && Distinct(s.procs[i].book.links)
    ensures forall x :: x in s.procs[i].book.links <==> Bound(actions, s, i, x)
  {
    RunIsBooked(actions, s);
    var p := s.procs[i];
    assert Held(s, Sponsors(actions), i);
    forall x
      ensures x in p.book.links <==> Bound(actions, s, i, x)
    {
      JoinedIsLastWord(Sponsors(actions)[i] == Some(x), p.box.taken, x);
    }
  }

  /** And those that `exit` notifies are exactly those too, with all that was still in the queue of the inbox. */
  lemma FinalLinksAreBonds(actions: seq<Action>, s: Sys, i: Pid, x: Pid)
    requires Run(actions, s) && i < |s.procs| && s.procs[i].Told()
    ensures i < |Sponsors(actions)|
    ensures x in s.procs[i].ending.lastLinks <==> Bound(actions, s, i, x)
  {
    RunIsBooked(actions, s);
    assert Held(s, Sponsors(actions), i);
    JoinedIsLastWord(Sponsors(actions)[i] == Some(x), Honoured(s.procs[i]), x);
  }

  /** A link that was accepted and never taken back counts, unless it was in the one slot of the inbox. */
  lemma AcceptedLinkCounts(p: Proc, x: Pid, k: nat)
    requires LocalOk(p) && p.Told() && k < |p.box.accepted|
    requires p.box.accepted[k] == LinkSig(x) && (p.box.slot == [] || k != |p.box.taken|)
    requires forall j :: k < j < |p.box.accepted| ==> p.box.accepted[j] != UnlinkSig(x)
    ensures Joined(false, Honoured(p), x)
  {
    var h := Honoured(p);
    var m := if k < |p.box.taken| then k else k - |p.box.slot|;
    forall j | m < j < |h|
      ensures h[j] != UnlinkSig(x)
    {
      var j' := if j < |p.box.taken| then j else j + |p.box.slot|;
      assert h[j] == p.box.accepted[j'];
    }
    assert h[m] == p.box.accepted[k];
    assert JoinedAt(h, x, m);
  }

  /** After an abnormal exit everybody whose link to the process was not taken back is dead, has the signal pending, or
      trapped it. */
  lemma AbnormalExitReachesBonds(actions: seq<Action>, s: Sys, i: Pid, x: Pid)
    requires Run(actions, s) && 0 < i < |s.procs| && s.procs[i].Told() && s.procs[i].out == []
    requires ExitReason(s.procs[i]) != Normal && i < |Sponsors(actions)| && Bound(actions, s, i, x)
    ensures var sig := ExitSig(i, x, ExitReason(s.procs[i]), true);
            || !IsRunning(s, x)
            || sig in s.procs[x].box.queue || sig in s.procs[x].box.slot
            || ExitMsg(i, ExitReason(s.procs[i]), true) in s.procs[x].mail.accepted
  {
    FinalLinksAreBonds(actions, s, i, x);
    AbnormalExitReachesLinks(s, i, x);
  }

  /** Once settled, whoever still runs has trapped the exits of all abnormally ended processes that had a link to it. */
  lemma SurvivorsTrappedBonds(actions: seq<Action>, s: Sys, i: Pid, x: Pid)
    requires Run(actions, s) && Quiescent(s) && 0 < i < |s.procs| && s.procs[i].Told()
    requires ExitReason(s.procs[i]) != Normal && i < |Sponsors(actions)| && Bound(actions, s, i, x) && IsRunning(s, x)
    ensures ExitMsg(i, ExitReason(s.procs[i]), true) in s.procs[x].mail.accepted
  {
    FinalLinksAreBonds(actions, s, i, x);
    SurvivorsTrapped(s, i, x);
  }

  /** And nobody else is told: an exit signal through a link comes from a process that had the link, or is the answer
      NoProc of a dead one. */
  lemma OnlyBondsAreTold(actions: seq<Action>, s: Sys, x: Pid, sig: Signal)
    requires Run(actions, s) && x < |s.procs| && sig in s.procs[x].box.accepted && sig.ExitSig? && sig.link
    requires sig.reason != NoProc
    ensures sig.sender < |s.procs| && sig.sender < |Sponsors(actions)| && Bound(actions, s, sig.sender, x)
    ensures ExitReason(s.procs[sig.sender]) == sig.reason
  {
    ReachableIsSafe(s);
    LinkedExitSpeaksTrue(s, x, sig);
    assert s.procs[sig.sender].Told() by {
      assert RuntimeFacts.ProcFacts(s, s.procs[x]) && RuntimeFacts.GoodSig(s, x, sig);
    }
    FinalLinksAreBonds(actions, s, sig.sender, x);
  }

  // ---------------------------------------------------------------- who monitors

  /** Who monitors a process, and under which references, is told from the signals it was given too: `SpawnMonitor` and
      every monitor signal of another process count until a demonitor with the reference or of the watcher. For a
      process that has read out its inbox, and still has its book, that is with what was in the queue. */
  lemma WatchersAreTold(actions: seq<Action>, s: Sys, i: Pid, e: Entry)
    requires Run(actions, s) && i < |s.procs| && s.procs[i].phase != Done && EntriesDue(s.procs[i].out) == []
    ensures e in s.procs[i].book.monitors
       <==> EntryBy(i, e.ref < |s.refs| && s.refs[e.ref] == RefInfo(e.pid, i, true), Honoured(s.procs[i]), e)
  {
    RunIsBooked(actions, s);
    assert Held(s, Sponsors(actions), i);
    assert LocalOk(s.procs[i]) && s.procs[i].id == i;
  }

  /** A demonitor that was given to the process ends the monitor, unless its request comes later still. */
  lemma DemonitorEndsEntry(actions: seq<Action>, s: Sys, i: Pid, e: Entry, k: nat)
    requires Run(actions, s) && i < |s.procs| && s.procs[i].phase != Done && EntriesDue(s.procs[i].out) == []
    requires k < |Honoured(s.procs[i])| && Honoured(s.procs[i])[k] == DemonitorSig(e.ref, e.pid) && e.pid != i
    requires forall j :: k < j < |Honoured(s.procs[i])| ==>
               var sig := Honoured(s.procs[i])[j];
               !(sig.MonitorSig? && sig.monitor == e.pid && sig.ref == e.ref)
    ensures e !in s.procs[i].book.monitors
  {
    WatchersAreTold(actions, s, i, e);
    EndedStays(i, e.ref < |s.refs| && s.refs[e.ref] == RefInfo(e.pid, i, true), Honoured(s.procs[i]), e, k);
  }

  lemma {:induction false} EndedStays(self: Pid, first: bool, h: seq<Signal>, e: Entry, k: nat)
    requires k < |h| && h[k] == DemonitorSig(e.ref, e.pid) && e.pid != self
    requires forall j :: k < j < |h| ==> !(h[j].MonitorSig? && h[j].monitor == e.pid && h[j].ref == e.ref)
    ensures !EntryBy(self, first, h, e)
  {
    if k < |h| - 1 {
      EndedStays(self, first, h[..|h| - 1], e, k);
    }
  }
}
