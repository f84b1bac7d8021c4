/** The abstract inbox: an unbounded queue, read through a channel that holds at most one item. */
module Inboxes {

  /** `queue` is `msgQ`; `slot` is the item, if any, that the goroutine behind `Channel` has popped and is
      still offering. `accepted` and `taken` are histories: all that `Enqueue` took in and all that was read. */
  datatype Box<M> = Box(queue: seq<M>, slot: seq<M>, closed: bool, accepted: seq<M>, taken: seq<M>)

  const CAPACITY_OF_SLOT := 1

  function Empty<M>(): Box<M> {
    Box([], [], false, [], [])
  }

  /** Nothing is reordered, duplicated or lost on the way from `Enqueue` to the reader. */
  ghost predicate Fifo<M>(b: Box<M>) {
    && |b.slot| <= CAPACITY_OF_SLOT
    && b.accepted == b.taken + b.slot + b.queue
  }

  /** `Enqueue`: refused once the box is closed. */
  function Put<M>(b: Box<M>, m: M): Box<M> {
    if b.closed then b else b.(queue := b.queue + [m], accepted := b.accepted + [m])
  }

  predicate CanFeed<M>(b: Box<M>) {
    !b.closed && b.queue != [] && b.slot == []
  }

  /** One turn of the goroutine behind `Channel`: the head of the queue moves into the slot. */
  function Advance<M>(b: Box<M>): Box<M>
    requires CanFeed(b)
  {
    b.(queue := b.queue[1..], slot := [b.queue[0]])
  }

  /** The reader receives what the slot holds. */
  function Take<M>(b: Box<M>): Box<M>
    requires b.slot != []
  {
    b.(slot := [], taken := b.taken + b.slot)
  }

  /** `Close`, and the effect of `Drain`, which also returns the queue: both leave the queue as it was. */
  function Shut<M>(b: Box<M>): Box<M> {
    b.(closed := true)
  }

  lemma PutFifo<M>(b: Box<M>, m: M)
    requires Fifo(b)
    ensures Fifo(Put(b, m))
    ensures b.accepted <= Put(b, m).accepted && b.taken == Put(b, m).taken
  {
    if !b.closed {
      assert b.taken + b.slot + b.queue + [m] == b.taken + b.slot + (b.queue + [m]);
    }
  }

  lemma FeedFifo<M>(b: Box<M>)
    requires Fifo(b) && CanFeed(b)
    ensures Fifo(Advance(b))
  {
    assert b.queue == [b.queue[0]] + b.queue[1..];
    assert b.taken + b.slot + b.queue == b.taken + [b.queue[0]] + b.queue[1..];
  }

  lemma TakeFifo<M>(b: Box<M>)
    requires Fifo(b) && b.slot != []
    ensures Fifo(Take(b))
  {
    assert b.taken + b.slot + b.queue == (b.taken + b.slot) + [] + b.queue;
  }
}
