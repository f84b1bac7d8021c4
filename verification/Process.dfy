/** `erl/process.go`: the process object, its signal handlers and the reading out of the inbox in `exit`, proved
    against the functions that the transition system is made of. */
module ProcessObject {
  import opened Types
  import opened Inboxes
  import opened InboxObject
  import opened Runtime

  class Process {
    const id: Pid
    const receive: Inbox<Signal>
    const runnableReceive: Inbox<Msg>
    var phase: Phase
    var links: seq<Pid>
    var monitors: seq<Entry>
    var monitoring: map<Ref, Pid>
    var trapExits: bool
    var name: string
    var open: bool
    var out: seq<Op>
    var api: seq<Op>
    var runner: Runner
    ghost var traps: seq<bool>
    ghost var ending: Ending

    ghost function ThisBook(): Book
      reads this
    {
      Book(links, monitors, monitoring)
    }

    ghost function View(): Proc
      reads this, receive, runnableReceive
    {
      Proc(id, phase, ThisBook(), trapExits, name, receive.View(), open, runnableReceive.View(), out, api, runner,
           traps, ending)
    }

    ghost predicate Valid()
      reads this, receive, runnableReceive
    {
      && receive as object != runnableReceive as object
      && receive.Valid() && runnableReceive.Valid()
    }

    /** `NewProcess`; `setUp` is what `run` has to do before it opens the inbox. */
    constructor (id: Pid, setUp: seq<Op>)
      ensures Valid() && View() == FreshProc(id, setUp)
      ensures fresh(receive) && fresh(runnableReceive)
    {
      this.id := id;
      var r := new Inbox<Signal>();
      var m := new Inbox<Msg>();
      receive, runnableReceive := r, m;
      phase, links, monitors, monitoring := Looping, [], [], map[];
      trapExits, name, open, out, api, runner := false, "", false, setUp, [], Live;
      traps, ending := [], Ending(None, NotExited, 0, []);
    }

    /** `handleMonitorSignal`: a monitor we took, or one that another process took of us. */
    method HandleMonitorSignal(ref: Ref, monitor: Pid, monitored: Pid)
      modifies this`monitoring, this`monitors
      ensures ThisBook() == NoteMonitor(id, old(ThisBook()), ref, monitor, monitored).book
    {
      if monitor == id {
        monitoring := monitoring[ref := monitored];
      } else {
        monitors := monitors + [Entry(monitor, ref)];
      }
    }

    /** `handleDemonitorSignal`: the filter keeps an entry only if both its reference and its watcher differ. */
    method HandleDemonitorSignal(ref: Ref, origin: Pid) returns (ghost lost: seq<Loss>)
      modifies this`monitoring, this`monitors, this`out
      ensures var n := NoteDemonitor(id, old(ThisBook()), ref, origin);
              ThisBook() == n.book && out == old(out) + n.ops && lost == n.lost
    {
      lost := [];
      if origin == id {
        if ref in monitoring {
          out := out + [Send(monitoring[ref], DemonitorSig(ref, origin))];
        }
        monitoring := monitoring - {ref};
      } else {
        var kept: seq<Entry> := [];
        ghost var all := monitors;
        var i := 0;
        while i < |monitors|
          invariant 0 <= i <= |monitors| && monitors == all
          invariant kept == Keep(all[..i], ref, origin)
          invariant lost == Filtered(id, all[..i], ref, origin)
        {
          assert all[..i + 1][..i] == all[..i];
          if monitors[i].ref != ref && monitors[i].pid != origin {
            kept := kept + [monitors[i]];
          } else {
            lost := lost + [LostEntry(id, monitors[i])];
          }
          i := i + 1;
        }
        assert all[..i] == all;
        monitors := kept;
      }
    }

    method HandleLinkSignal(pid: Pid)
      modifies this`links
      ensures ThisBook() == NoteLink(old(ThisBook()), pid).book
    {
      if pid !in links {
        links := links + [pid];
      }
    }

    /** `handleUnlinkSignal`: only the first occurrence goes. */
    method HandleUnlinkSignal(pid: Pid)
      modifies this`links
      ensures links == RemoveFirst(old(links), pid)
    {
      var i := 0;
      while i < |links| && links[i] != pid
        invariant 0 <= i <= |links|
        invariant RemoveFirst(links, pid) == links[..i] + RemoveFirst(links[i..], pid)
      {
        assert links[i..] == [links[i]] + links[i + 1..];
        i := i + 1;
      }
      if i < |links| {
        links := links[..i] + links[i + 1..];
      }
    }

    /** The four bookkeeping signals, as both the loop and `exit` treat them. */
    method NoteSignal(sig: Signal) returns (ghost lost: seq<Loss>)
      requires IsBookkeeping(sig)
      modifies this`links, this`monitors, this`monitoring, this`out
      ensures var n := Note(id, old(ThisBook()), sig);
              ThisBook() == n.book && out == old(out) + n.ops && lost == n.lost
    {
      lost := [];
      match sig
      case MonitorSig(ref, monitor, monitored) => HandleMonitorSignal(ref, monitor, monitored);
      case DemonitorSig(ref, origin) => lost := HandleDemonitorSignal(ref, origin);
      case LinkSig(pid) => HandleLinkSignal(pid);
      case UnlinkSig(pid) => HandleUnlinkSignal(pid);
    }

    method BeginToExit(e: Err, ghost cause: Cause, ghost stamp: nat)
      requires Valid()
      modifies this`phase, this`ending
      ensures Valid() && View() == BeginExit(old(View()), e, cause, stamp)
    {
      phase := Releasing;
      ending := Ending(Some(ToReason(e)), cause, stamp, []);
    }

    /** A kill that was sent to us cannot be trapped; any other exit signal can, and a normal one that comes through a
        link is ignored when it is not trapped. */
    method HandleExitSignal(sender: Pid, reason: Reason, link: bool, ghost stamp: nat)
      requires Valid()
      modifies this`phase, this`ending, runnableReceive
      ensures Valid() && View() == OnExit(old(View()), sender, reason, link, stamp)
    {
      ghost var cause := if link then Linked(sender) else Asked(sender);
      if reason == Kill && !link {
        BeginToExit(ReasonErr(reason), cause, stamp);
        return;
      }
      if trapExits {
        var ok := runnableReceive.Enqueue(ExitMsg(sender, reason, link));
      } else {
        if reason == Normal && link && sender != id {
          return;
        }
        BeginToExit(ReasonErr(reason), cause, stamp);
      }
    }

    /** The body of the signal case of `run`, for a running process. */
    method HandleOne(sig: Signal, ghost stamp: nat) returns (ghost lost: seq<Loss>)
      requires Valid()
      modifies this, runnableReceive
      ensures Valid()
      ensures View() == HandleSignal(old(View()), sig, stamp).p && lost == HandleSignal(old(View()), sig, stamp).lost
    {
      lost := [];
      match sig
      case MessageSig(term) =>
        var ok := runnableReceive.Enqueue(Term(term));
      case DownSig(proc, ref, reason) =>
        if ref in monitoring {
          var ok := runnableReceive.Enqueue(DownMsg(proc, ref, reason));
        } else {
          lost := [LostSignal(id, sig)];
        }
      case ExitSig(sender, _, reason, link) => HandleExitSignal(sender, reason, link, stamp);
      case _ => lost := NoteSignal(sig);
    }

    /** The loop of `exit` over what `Drain` returned: bookkeeping signals are still honoured, others ignored. */
    method ReadOut() returns (ghost lost: seq<Loss>)
      requires Valid()
      modifies this`links, this`monitors, this`monitoring, this`out, receive
      ensures Valid() && receive.View() == Shut(old(receive.View()))
      ensures var n := Drained(old(View()));
              ThisBook() == n.book && out == old(out) + n.ops && lost == n.lost
    {
      ghost var book0, out0 := ThisBook(), out;
      var sigs := receive.Drain();
      lost := [];
      var i := 0;
      while i < |sigs|
        invariant 0 <= i <= |sigs|
        invariant receive.View() == Shut(old(receive.View())) && Valid()
        invariant var n := DrainAll(id, book0, sigs[..i]);
                  ThisBook() == n.book && out == out0 + n.ops && lost == n.lost
      {
        assert sigs[..i + 1][..i] == sigs[..i];
        if IsBookkeeping(sigs[i]) {
          ghost var more := NoteSignal(sigs[i]);
          lost := lost + more;
        } else {
          lost := lost + [LostSignal(id, sigs[i])];
        }
        i := i + 1;
      }
      assert sigs[..i] == sigs;
    }

    /** The three loops of `exit` that tell the others, in the order of the code: links, watchers, watched. */
    method Notify(reason: Reason, order: seq<Ref>)
      requires forall k :: 0 <= k < |order| ==> order[k] in monitoring
      modifies this`out
      ensures out == old(out) + Notices(id, ThisBook(), reason, order)
    {
      NotifyLinks(reason);
      NotifyMonitors(reason);
      CancelMonitoring(order);
    }

    method NotifyLinks(reason: Reason)
      modifies this`out
      ensures out == old(out) + LinkOps(id, links, reason)
    {
      var i := 0;
      while i < |links|
        invariant 0 <= i <= |links| && out == old(out) + LinkOps(id, links[..i], reason)
      {
        assert LinkOps(id, links[..i + 1], reason)
            == LinkOps(id, links[..i], reason) + [Send(links[i], ExitSig(id, links[i], reason, true))];
        out := out + [Send(links[i], ExitSig(id, links[i], reason, true))];
        i := i + 1;
      }
      assert links[..i] == links;
    }

    method NotifyMonitors(reason: Reason)
      modifies this`out
      ensures out == old(out) + DownOps(id, monitors, reason)
    {
      var i := 0;
      while i < |monitors|
        invariant 0 <= i <= |monitors| && out == old(out) + DownOps(id, monitors[..i], reason)
      {
        assert DownOps(id, monitors[..i + 1], reason)
            == DownOps(id, monitors[..i], reason) + [Send(monitors[i].pid, DownSig(id, monitors[i].ref, reason))];
        out := out + [Send(monitors[i].pid, DownSig(id, monitors[i].ref, reason))];
        i := i + 1;
      }
      assert monitors[..i] == monitors;
    }

    method CancelMonitoring(order: seq<Ref>)
      requires forall k :: 0 <= k < |order| ==> order[k] in monitoring
      modifies this`out
      ensures out == old(out) + DemonitorOps(id, monitoring, order)
    {
      var i := 0;
      while i < |order|
        invariant 0 <= i <= |order| && out == old(out) + DemonitorOps(id, monitoring, order[..i])
      {
        assert DemonitorOps(id, monitoring, order[..i + 1])
            == DemonitorOps(id, monitoring, order[..i]) + [Send(monitoring[order[i]], DemonitorSig(order[i], id))];
        out := out + [Send(monitoring[order[i]], DemonitorSig(order[i], id))];
        i := i + 1;
      }
      assert order[..i] == order;
    }
  }
}
