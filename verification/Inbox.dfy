/** `erl/internal/inbox/inbox.go`: the mutex-protected queue and the goroutine behind `Channel`. */
module InboxObject {
  import opened Types
  import opened Inboxes

  /** The three ways a pop can end; a blocking pop goes to sleep where `Pop` reports nothing. */
  datatype Popped<+M> = Got(item: M) | Nothing | ClosedBox

  class Inbox<M> {
    var msgQ: seq<M>
    var closed: bool
    /** The item that the channel's goroutine has popped and is blocked on. */
    var offered: seq<M>
    ghost var accepted: seq<M>
    ghost var taken: seq<M>

    ghost function View(): Box<M>
      reads this
    {
      Box(msgQ, offered, closed, accepted, taken)
    }

    ghost predicate Valid()
      reads this
    {
      Fifo(View())
    }

    constructor ()
      ensures Valid() && View() == Empty()
    {
      msgQ, closed, offered, accepted, taken := [], false, [], [], [];
    }

    method Enqueue(msg: M) returns (ok: bool)
      requires Valid()
      modifies this
      ensures Valid() && View() == Put(old(View()), msg)
      ensures ok == !old(closed)
      ensures ok ==> accepted == old(accepted) + [msg]
    {
      PutFifo(View(), msg);
      if closed {
        return false;
      }
      msgQ := msgQ + [msg];
      accepted := accepted + [msg];
      return true;
    }

    /** `Pop` and the end of `BlockingPop`, as one turn of the channel's goroutine: a closed inbox gives nothing away
        even when items are left. */
    method FeedTurn() returns (r: Popped<M>)
      requires Valid() && offered == []
      modifies this
      ensures Valid()
      ensures r.ClosedBox? <==> old(closed)
      ensures r.Nothing? <==> !old(closed) && old(msgQ) == []
      ensures r.Got? ==> View() == Advance(old(View())) && old(msgQ) == [r.item] + msgQ
      ensures !r.Got? ==> View() == old(View())
    {
      if closed {
        return ClosedBox;
      }
      if |msgQ| == 0 {
        return Nothing;
      }
      FeedFifo(View());
      var head := msgQ[0];
      msgQ := msgQ[1..];
      offered := [head];
      return Got(head);
    }

    /** The reader receives from the channel. */
    method Receive() returns (item: M)
      requires Valid() && offered != []
      modifies this
      ensures Valid() && View() == Take(old(View()))
      ensures taken == old(taken) + [item]
    {
      TakeFifo(View());
      item := offered[0];
      taken := taken + offered;
      offered := [];
    }

    /** Closes the inbox and returns what was queued; the slices stay where they are. A second call returns the same. */
    method Drain() returns (left: seq<M>)
      requires Valid()
      modifies this
      ensures Valid() && View() == Shut(old(View()))
      ensures left == msgQ == old(msgQ)
      ensures accepted == taken + offered + left
    {
      if !closed {
        closed := true;
      }
      left := msgQ;
    }

    method Close()
      requires Valid()
      modifies this
      ensures Valid() && View() == Shut(old(View()))
    {
      if closed {
        return;
      }
      closed := true;
    }
  }
}
