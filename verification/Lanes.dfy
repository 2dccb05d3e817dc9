// The two bounded lanes between the callers and the driver's tasks
// (src/driver.rs): a byte budget and an item queue in each direction. The
// values and their operations are the atomic steps of module Machine; the
// classes perform them in place.
module Lanes {
  import opened Errors
  import opened Sums

  type byte = x: int | 0 <= x < 256

  datatype InboundMessage = Binary(payload: seq<byte>) | Text(payload: seq<byte>)

  // A queued send: the call that made it and the bytes it holds.
  datatype Command = Command(id: nat, size: nat)

  // What the reply channel of an accepted send ends up carrying.
  datatype Reply = Delivered | Refused(error: DriverError) | Dropped

  // free: byte permits left; reserved: item permits handed out but not yet
  // used; closed: the writer's receiver is gone; abandoned: the driver's own
  // sender is gone.
  datatype Outbound = Outbound(
    free: nat, reserved: nat, queue: seq<Command>, closed: bool, abandoned: bool, replies: map<nat, Reply>)

  // closed: the reader's sender is gone; gone: the driver's receiver is gone;
  // active: the ReceiveGuard flag; locked: the mutex around the receiver.
  datatype Inbound = Inbound(
    free: nat, queue: seq<InboundMessage>, closed: bool, gone: bool, active: bool, locked: bool)

  function SizeOf(m: InboundMessage): nat { |m.payload| }

  function CommandSize(c: Command): nat { c.size }

  function CommandBytes(queue: seq<Command>): nat { Sum(CommandSize, queue) }

  function MessageBytes(queue: seq<InboundMessage>): nat { Sum(SizeOf, queue) }

  // ----- outbound operations -----

  predicate HasSlot(o: Outbound, maxQueue: nat) { o.reserved + |o.queue| < maxQueue }

  function Acquire(o: Outbound, size: nat): Outbound
    requires size <= o.free
  {
    o.(free := o.free - size)
  }

  function Release(o: Outbound, size: nat): Outbound { o.(free := o.free + size) }

  function Reserve(o: Outbound): Outbound { o.(reserved := o.reserved + 1) }

  function Unreserve(o: Outbound): Outbound
    requires o.reserved > 0
  {
    o.(reserved := o.reserved - 1)
  }

  // OwnedPermit::send: the item permit becomes a queue entry.
  function Enqueue(o: Outbound, c: Command): Outbound
    requires o.reserved > 0
  {
    o.(reserved := o.reserved - 1, queue := o.queue + [c])
  }

  function Dequeue(o: Outbound): Outbound
    requires o.queue != []
  {
    o.(queue := o.queue[1..])
  }

  function Answer(o: Outbound, id: nat, reply: Reply): Outbound { o.(replies := o.replies[id := reply]) }

  // Dropping a command drops its reply sender and returns its bytes.
  function DropCommand(o: Outbound, c: Command): Outbound {
    o.(replies := o.replies[c.id := Dropped], free := o.free + c.size)
  }

  function DropHead(o: Outbound): Outbound
    requires o.queue != []
  {
    DropCommand(o, o.queue[0]).(queue := o.queue[1..])
  }

  function DropAt(o: Outbound, k: nat): Outbound
    requires k < |o.queue|
  {
    DropCommand(o, o.queue[k]).(queue := o.queue[..k] + o.queue[k + 1..])
  }

  function Shut(o: Outbound): Outbound { o.(closed := true) }

  function Drained(o: Outbound): Outbound
    decreases |o.queue|
  {
    if o.queue == [] then o else Drained(DropHead(o))
  }

  // Draining returns exactly the bytes the queue held.
  lemma {:induction false} DrainedReturnsBytes(o: Outbound)
    ensures Drained(o).free == o.free + CommandBytes(o.queue)
    ensures Drained(o) == o.(free := Drained(o).free, queue := [], replies := Drained(o).replies)
    decreases |o.queue|
  {
    if o.queue == [] {
    } else {
      SumHead(CommandSize, o.queue);
      DrainedReturnsBytes(DropHead(o));
    }
  }

  predicate Queues(queue: seq<Command>, id: nat) { exists k :: 0 <= k < |queue| && queue[k].id == id }

  // Every queued send gets a dropped reply, and nobody else's reply changes.
  lemma {:induction false} DrainedDropsReplies(o: Outbound, id: nat)
    ensures Queues(o.queue, id) ==> id in Drained(o).replies && Drained(o).replies[id] == Dropped
    ensures !Queues(o.queue, id) ==> (id in Drained(o).replies <==> id in o.replies)
    ensures !Queues(o.queue, id) && id in o.replies ==> Drained(o).replies[id] == o.replies[id]
    decreases |o.queue|
  {
    if o.queue == [] {
    } else {
      DrainedDropsReplies(DropHead(o), id);
      assert forall k :: 0 < k < |o.queue| ==> o.queue[k] == o.queue[1..][k - 1];
    }
  }

  // ----- inbound operations -----

  function AcquireIn(n: Inbound, size: nat): Inbound
    requires size <= n.free
  {
    n.(free := n.free - size)
  }

  function ReleaseIn(n: Inbound, size: nat): Inbound { n.(free := n.free + size) }

  function EnqueueIn(n: Inbound, m: InboundMessage): Inbound { n.(queue := n.queue + [m]) }

  function DequeueIn(n: Inbound): Inbound
    requires n.queue != []
  {
    n.(queue := n.queue[1..])
  }

  // Dropping the receiver drops what is still queued.
  function Forsake(n: Inbound): Inbound {
    n.(gone := true, queue := [], free := n.free + MessageBytes(n.queue))
  }

  // ----- the outbound lane as an object -----

  datatype Admission = Admitted | Full(error: DriverError) | QueueClosed

  class OutboundLane {
    const capacity: nat
    const maxQueue: nat
    var free: nat
    var reserved: nat
    var queue: seq<Command>
    var closed: bool
    var abandoned: bool
    var replies: map<nat, Reply>
    // Bytes lent to admissions and to the command the writer is working on.
    ghost var lent: nat

    function Contents(): Outbound reads this {
      Outbound(free, reserved, queue, closed, abandoned, replies)
    }

    // Conservation of bytes, and the bound on items.
    ghost predicate Valid() reads this {
      && free + lent + CommandBytes(queue) == capacity
      && reserved + |queue| <= maxQueue
    }

    constructor (capacity: nat, maxQueue: nat)
      ensures Valid() && this.capacity == capacity && this.maxQueue == maxQueue && lent == 0
      ensures Contents() == Outbound(capacity, 0, [], false, false, map[])
    {
      this.capacity, this.maxQueue := capacity, maxQueue;
      free, reserved, queue, closed, abandoned, replies, lent := capacity, 0, [], false, false, map[], 0;
    }

    // try_admit_outbound after validation: bytes first, then an item slot; a
    // refusal hands the bytes back, so both budgets are as they were.
    method TryAdmit(size: nat) returns (r: Admission)
      requires Valid()
      modifies this
      ensures Valid()
      ensures r.Admitted? <==> size <= old(free) && !old(closed) && HasSlot(old(Contents()), maxQueue)
      ensures r.QueueClosed? <==> size <= old(free) && old(closed)
      ensures r.Full? ==> r.error.ResourceLimit?
      ensures r.Admitted? ==>
                size <= old(free) && Contents() == Reserve(Acquire(old(Contents()), size)) && lent == old(lent) + size
      ensures !r.Admitted? ==> Contents() == old(Contents()) && lent == old(lent)
    {
      hide Sum;
      if size > free {
        return Full(ResourceLimit("outbound byte budget is exhausted; retry after an accepted send completes"));
      }
      free, lent := free - size, lent + size;
      if closed {
        free, lent := free + size, lent - size;
        return QueueClosed;
      }
      if reserved + |queue| >= maxQueue {
        free, lent := free + size, lent - size;
        return Full(ResourceLimit("outbound item queue is full; retry after an accepted send completes"));
      }
      reserved := reserved + 1;
      return Admitted;
    }

    // Dropping an admission undoes it: bytes, then the item permit.
    method DropAdmission(size: nat)
      requires Valid() && reserved > 0 && size <= lent
      modifies this
      ensures Valid()
      ensures Contents() == Unreserve(Release(old(Contents()), size)) && lent == old(lent) - size
    {
      free, lent := free + size, lent - size;
      reserved := reserved - 1;
    }

    // send_admitted up to its await: the admission becomes a queued command.
    method Submit(c: Command)
      requires Valid() && reserved > 0 && c.size <= lent
      modifies this
      ensures Valid()
      ensures Contents() == Enqueue(old(Contents()), c) && lent == old(lent) - c.size
    {
      SumAppend(CommandSize, queue, c);
      reserved, queue, lent := reserved - 1, queue + [c], lent - c.size;
    }

    // recv(): the command keeps its bytes while the writer works on it.
    method Take() returns (c: Command)
      requires Valid() && queue != []
      modifies this
      ensures Valid()
      ensures c == old(queue)[0] && Contents() == Dequeue(old(Contents())) && lent == old(lent) + c.size
    {
      SumHead(CommandSize, queue);
      c := queue[0];
      queue, lent := queue[1..], lent + c.size;
    }

    // The reply goes out first, the bytes come back after it.
    method Finish(c: Command, reply: Reply)
      requires Valid() && c.size <= lent
      modifies this
      ensures Valid()
      ensures Contents() == Release(Answer(old(Contents()), c.id, reply), c.size) && lent == old(lent) - c.size
    {
      replies := replies[c.id := reply];
      free, lent := free + c.size, lent - c.size;
    }

    // Dropping the receiver closes the channel and drains it.
    method DropReceiver()
      requires Valid()
      modifies this
      ensures Valid()
      ensures Contents() == Drained(Shut(old(Contents()))) && lent == old(lent)
    {
      hide Sum;
      closed := true;
      ghost var start := Contents();
      while queue != []
        invariant Valid() && lent == old(lent)
        invariant Drained(Contents()) == Drained(start)
        decreases |queue|
      {
        var c := queue[0];
        SumHead(CommandSize, queue);
        replies := replies[c.id := Dropped];
        free, queue := free + c.size, queue[1..];
      }
    }
  }

  // ----- the inbound lane as an object -----

  datatype Offer = Queued | NoRoom | Gone

  class InboundLane {
    const capacity: nat
    const maxQueue: nat
    var free: nat
    var queue: seq<InboundMessage>
    var closed: bool
    var gone: bool
    var active: bool
    var locked: bool
    // Bytes lent to the reader and to a receive that has taken a message.
    ghost var lent: nat

    function Contents(): Inbound reads this { Inbound(free, queue, closed, gone, active, locked) }

    ghost predicate Valid() reads this {
      && free + lent + MessageBytes(queue) == capacity
      && |queue| <= maxQueue
      && (gone ==> queue == [])
    }

    constructor (capacity: nat, maxQueue: nat)
      ensures Valid() && this.capacity == capacity && this.maxQueue == maxQueue && lent == 0
      ensures Contents() == Inbound(capacity, [], false, false, false, false)
    {
      this.capacity, this.maxQueue := capacity, maxQueue;
      free, queue, closed, gone, active, locked, lent := capacity, [], false, false, false, false, 0;
    }

    // queue_inbound asks for the bytes of a message. A message that fits the
    // budget is refused only while others hold bytes of it.
    method TryAcquire(size: nat) returns (acquired: bool)
      requires Valid()
      modifies this
      ensures Valid()
      ensures acquired <==> size <= old(free)
      ensures acquired ==>
                size <= old(free) && Contents() == AcquireIn(old(Contents()), size) && lent == old(lent) + size
      ensures !acquired ==> Contents() == old(Contents()) && lent == old(lent)
      ensures !acquired && size <= capacity ==> lent > 0 || queue != []
    {
      acquired := size <= free;
      if acquired {
        free, lent := free - size, lent + size;
      }
    }

    // The permit is dropped without a message.
    method GiveBack(size: nat)
      requires Valid() && size <= lent
      modifies this
      ensures Valid() && Contents() == ReleaseIn(old(Contents()), size) && lent == old(lent) - size
    {
      free, lent := free + size, lent - size;
    }

    // send(): the message takes its bytes into the queue.
    method Send(m: InboundMessage) returns (r: Offer)
      requires Valid() && SizeOf(m) <= lent
      modifies this
      ensures Valid()
      ensures r.Gone? <==> old(gone)
      ensures r.NoRoom? <==> !old(gone) && |old(queue)| == maxQueue
      ensures Contents() == if r.Queued? then EnqueueIn(old(Contents()), m) else old(Contents())
      ensures lent == if r.Queued? then old(lent) - SizeOf(m) else old(lent)
    {
      if gone {
        return Gone;
      }
      if |queue| == maxQueue {
        return NoRoom;
      }
      SumAppend(SizeOf, queue, m);
      queue, lent := queue + [m], lent - SizeOf(m);
      return Queued;
    }

    // recv(), and the release of the permit with the envelope: a receive gives
    // back exactly the bytes of the message it returns.
    method Take() returns (m: Option<InboundMessage>)
      requires Valid()
      modifies this
      ensures Valid() && lent == old(lent)
      ensures m.Some? <==> old(queue) != []
      ensures m.Some? ==>
                m.value == old(queue)[0] && Contents() == ReleaseIn(DequeueIn(old(Contents())), SizeOf(m.value))
      ensures m.None? ==> Contents() == old(Contents())
    {
      if queue == [] {
        return None;
      }
      SumHead(SizeOf, queue);
      m := Some(queue[0]);
      free, queue := free + SizeOf(queue[0]), queue[1..];
    }

    // Dropping the receiver gives every queued byte back.
    method DropReceiver()
      requires Valid()
      modifies this
      ensures Valid() && Contents() == Forsake(old(Contents())) && free + lent == capacity
    {
      gone := true;
      ghost var start := Contents();
      while queue != []
        invariant gone && free + lent + MessageBytes(queue) == capacity && |queue| <= maxQueue
        invariant lent == old(lent) && Forsake(Contents()) == Forsake(start)
        decreases |queue|
      {
        SumHead(SizeOf, queue);
        free, queue := free + SizeOf(queue[0]), queue[1..];
      }
    }
  }

  // ----- the receive guard as an object -----

  class ReceiveFlag {
    var active: bool

    constructor () ensures !active { active := false; }

    // compare_exchange(false, true)
    method Claim() returns (error: Option<DriverError>)
      modifies this
      ensures active
      ensures error.None? <==> !old(active)
      ensures error.Some? ==> error.value.Concurrency?
    {
      if active {
        return Some(Concurrency("only one receive operation may be active per connection"));
      }
      active := true;
      return None;
    }

    method Drop() modifies this ensures !active { active := false; }
  }
}
