/** The bounded, dynamically aged request queue of model_scheduler/request_queue.py. */
module RequestQueue {
  import opened Prelude
  import opened BookModel

  datatype WaitKind = Interactive | Session

  datatype WaitState = Waiting | GrantedWait | Claimed | Cancelled | Expired

  datatype Item = Item(
    requestId: RequestId,
    modelId: ModelId,
    priority: int,
    enqueuedAt: Time,
    deadline: Time,
    sequence: nat,
    state: WaitState,
    kind: WaitKind)

  datatype Queue = Queue(capacity: nat, aging: Time, items: map<RequestId, Item>, sequence: nat)

  datatype QueueReply = Queued(item: Item) | DuplicateWaiter | QueueFull

  // ---- ordering --------------------------------------------------------------------------

  /** Every full aging interval waited is worth one priority step. */
  function Priority(aging: Time, item: Item, now: Time): (p: int)
    requires aging > 0.0
  {
    var waited := if now - item.enqueuedAt > 0.0 then now - item.enqueuedAt else 0.0;
    item.priority + (waited / aging).Floor
  }

  /** So exactly: a waiter is `steps` above its own priority at an instant if and only if it has waited that
      many whole intervals by then, and not one more. */
  lemma OneStepPerInterval(aging: Time, item: Item, now: Time, steps: nat)
    requires aging > 0.0 && now >= item.enqueuedAt
    ensures Priority(aging, item, now) == item.priority + steps <==>
              (steps as real) * aging <= now - item.enqueuedAt < ((steps + 1) as real) * aging
  {
    var waited := now - item.enqueuedAt;
    var x, lo, hi := waited / aging, steps as real, (steps + 1) as real;
    assert waited == 0.0 ==> x == 0.0;
    assert Priority(aging, item, now) == item.priority + x.Floor;
    assert x.Floor == steps <==> lo <= x < hi;
    Divided(lo, waited, aging);
    Divided(hi, waited, aging);
  }

  lemma Divided(a: real, waited: real, aging: real)
    requires aging > 0.0
    ensures a <= waited / aging <==> a * aging <= waited
  {
    var b := waited / aging;
    assert waited == b * aging;
    assert (b - a) * aging == waited - a * aging;
    if a <= b { assert (b - a) * aging >= 0.0; } else { assert (b - a) * aging < 0.0; }
  }

  /** The order `min` uses on the key `(-priority, sequence)`. */
  predicate Ahead(aging: Time, x: Item, y: Item, now: Time)
    requires aging > 0.0
  {
    var px, py := Priority(aging, x, now), Priority(aging, y, now);
    px > py || (px == py && x.sequence < y.sequence)
  }

  lemma FloorShift(y: real, d: int)
    ensures (y + d as real).Floor == y.Floor + d
  {
  }

  /** Dividing by the aging interval keeps a difference of whole intervals. */
  lemma WholeIntervals(u: real, v: real, d: int, aging: Time)
    requires aging > 0.0 && u >= v + (d as real) * aging
    ensures u / aging >= v / aging + d as real
  {
    assert (v + (d as real) * aging) / aging == v / aging + d as real;
    assert (u - (v + (d as real) * aging)) / aging >= 0.0;
  }

  lemma LateEnoughStaysBehind(aging: Time, i: Item, j: Item, now: Time)
    requires aging > 0.0
    requires i.sequence < j.sequence && i.enqueuedAt <= j.enqueuedAt <= now
    requires j.enqueuedAt - i.enqueuedAt >= ((j.priority - i.priority) as real) * aging
    ensures Ahead(aging, i, j, now)
  {
    var d := j.priority - i.priority;
    var u, v := now - i.enqueuedAt, now - j.enqueuedAt;
    WholeIntervals(u, v, d, aging);
    FloorShift(v / aging, d);
    assert (u / aging).Floor >= (v / aging).Floor + d;
    assert u == 0.0 ==> u / aging == 0.0;
    assert v == 0.0 ==> v / aging == 0.0;
  }

  lemma TooEarlyOvertakes(aging: Time, i: Item, j: Item)
    requires aging > 0.0 && i.enqueuedAt <= j.enqueuedAt
    requires j.enqueuedAt - i.enqueuedAt < ((j.priority - i.priority) as real) * aging
    ensures Ahead(aging, j, i, j.enqueuedAt)
  {
    var d := j.priority - i.priority;
    var u := j.enqueuedAt - i.enqueuedAt;
    assert u / aging < d as real by {
      assert ((d as real) * aging) / aging == d as real;
      assert ((d as real) * aging - u) / aging > 0.0;
    }
    assert (u / aging).Floor < d;
    assert 0.0 / aging == 0.0;
    assert u == 0.0 ==> u / aging == 0.0;
  }

  /** Bounded overtaking, exactly: a later arrival never passes an earlier one, at any later
      instant, if and only if it arrives at least one aging interval later for every priority
      step it is above it. */
  lemma BoundedOvertaking(aging: Time, i: Item, j: Item)
    requires aging > 0.0
    requires i.sequence < j.sequence && i.enqueuedAt <= j.enqueuedAt
    ensures (forall now :: now >= j.enqueuedAt ==> Ahead(aging, i, j, now))
       <==> j.enqueuedAt - i.enqueuedAt >= ((j.priority - i.priority) as real) * aging
  {
    if j.enqueuedAt - i.enqueuedAt >= ((j.priority - i.priority) as real) * aging {
      forall now | now >= j.enqueuedAt
        ensures Ahead(aging, i, j, now)
      {
        LateEnoughStaysBehind(aging, i, j, now);
      }
    } else {
      TooEarlyOvertakes(aging, i, j);
      assert !Ahead(aging, i, j, j.enqueuedAt);
    }
  }

  // ---- the queue as a value --------------------------------------------------------------

  ghost predicate QueueInv(q: Queue) {
    && q.capacity > 0 && q.aging > 0.0
    && |q.items| <= q.capacity
    && (forall id :: id in q.items ==>
          q.items[id].requestId == id && q.items[id].sequence <= q.sequence && q.items[id].state.Waiting?)
    && (forall id, id' :: id in q.items && id' in q.items && q.items[id].sequence == q.items[id'].sequence ==>
        id == id')
  }

  function ExpireAt(q: Queue, now: Time): (q': Queue) {
    q.(items := map id | id in q.items && now < q.items[id].deadline :: q.items[id])
  }

  function Put(q: Queue, item: Item): (q': Queue) {
    q.(items := q.items[item.requestId := item])
  }

  /** What `enqueue` answers and leaves behind, on a queue whose due waiters are already gone: a
      new waiter gets the largest sequence number ever, and a refusal changes nothing. */
  ghost predicate Enqueues(q: Queue, q': Queue, reply: QueueReply, id: RequestId, m: ModelId, priority: int,
                           deadline: Time, now: Time, kind: WaitKind)
  {
    && (reply.DuplicateWaiter? <==> id in q.items)
    && (reply.QueueFull? <==> id !in q.items && |q.items| >= q.capacity)
    && (!reply.Queued? ==> q' == q)
    && (reply.Queued? ==>
          && reply.item == NewItem(q, id, m, priority, deadline, now, kind)
          && q' == Put(q, reply.item).(sequence := q.sequence + 1))
  }

  lemma PutKeeps(q: Queue, item: Item)
    requires QueueInv(q) && |q.items| < q.capacity && item.requestId !in q.items && item.state.Waiting?
    requires item.sequence <= q.sequence
    requires forall id :: id in q.items ==> q.items[id].sequence != item.sequence
    ensures QueueInv(Put(q, item))
  {
    var q' := Put(q, item);
    assert q'.items.Keys == q.items.Keys + {item.requestId};
  }

  lemma EnqueueKeeps(q: Queue, item: Item)
    requires QueueInv(q) && |q.items| < q.capacity && item.requestId !in q.items && item.state.Waiting?
    requires item.sequence == q.sequence + 1
    ensures QueueInv(Put(q, item).(sequence := q.sequence + 1))
  {
    PutKeeps(q.(sequence := q.sequence + 1), item);
  }

  /** Which request every sequence number was handed to. */
  ghost predicate IssuedBy(q: Queue, issued: map<nat, RequestId>) {
    && (forall id :: id in q.items ==> q.items[id].sequence in issued && issued[q.items[id].sequence] == id)
    && (forall n :: n in issued ==> n <= q.sequence)
  }

  lemma EnqueueIssues(q: Queue, item: Item, issued: map<nat, RequestId>)
    requires IssuedBy(q, issued) && item.sequence == q.sequence + 1
    ensures IssuedBy(Put(q, item).(sequence := q.sequence + 1), issued[q.sequence + 1 := item.requestId])
  {
  }

  function Without(q: Queue, id: RequestId): (q': Queue) {
    q.(items := q.items - {id})
  }

  function NewItem(q: Queue, id: RequestId, m: ModelId, priority: int, deadline: Time, now: Time,
                   kind: WaitKind): (item: Item) {
    Item(id, m, priority, now, deadline, q.sequence + 1, Waiting, kind)
  }

  /** The waiters `head` compares: the eligible ones that are not past their deadline. */
  function Contenders(q: Queue, now: Time, eligible: Item -> bool): (ids: set<RequestId>) {
    set id | id in q.items && now < q.items[id].deadline && eligible(q.items[id])
  }

  /** The head: a contender ahead of every other contender. */
  ghost predicate IsHead(q: Queue, now: Time, eligible: Item -> bool, id: RequestId)
    requires q.aging > 0.0
  {
    && id in Contenders(q, now, eligible)
    && forall other :: other in Contenders(q, now, eligible) && other != id ==>
         Ahead(q.aging, q.items[id], q.items[other], now)
  }

  lemma HeadIsUnique(q: Queue, now: Time, eligible: Item -> bool, x: RequestId, y: RequestId)
    requires q.aging > 0.0 && IsHead(q, now, eligible, x) && IsHead(q, now, eligible, y)
    ensures x == y
  {
    assert x != y ==> Ahead(q.aging, q.items[x], q.items[y], now);
  }

  /** A waiting, eligible request is only ever passed by earlier arrivals and by arrivals in a
      finite window after it: no head it loses to arrived later than its priority lead is worth. */
  lemma OnlyWindowArrivalsPass(q: Queue, now: Time, eligible: Item -> bool, i: RequestId, j: RequestId)
    requires QueueInv(q) && i in Contenders(q, now, eligible)
    requires IsHead(q, now, eligible, j) && j != i
    requires q.items[i].sequence < q.items[j].sequence ==> q.items[i].enqueuedAt <= q.items[j].enqueuedAt <= now
    ensures || q.items[j].sequence < q.items[i].sequence
            || q.items[j].enqueuedAt - q.items[i].enqueuedAt
                 < ((q.items[j].priority - q.items[i].priority) as real) * q.aging
  {
    var x, y := q.items[i], q.items[j];
    if x.sequence < y.sequence && y.enqueuedAt - x.enqueuedAt >= ((y.priority - x.priority) as real) * q.aging {
      LateEnoughStaysBehind(q.aging, x, y, now);
    }
  }

  lemma ExpireKeeps(q: Queue, now: Time)
    requires QueueInv(q)
    ensures QueueInv(ExpireAt(q, now))
  {
    var q' := ExpireAt(q, now);
    assert q'.items.Keys <= q.items.Keys;
    SubsetSize(q'.items.Keys, q.items.Keys);
  }

  lemma WithoutKeeps(q: Queue, id: RequestId)
    requires QueueInv(q)
    ensures QueueInv(Without(q, id))
  {
    assert Without(q, id).items.Keys <= q.items.Keys;
    SubsetSize(Without(q, id).items.Keys, q.items.Keys);
  }

  lemma SubsetSize<T>(a: set<T>, b: set<T>)
    requires a <= b
    ensures |a| <= |b|
  {
    assert b == a + (b - a);
  }
}

/** The queue object, updated in place by the scheduler. */
module RequestQueueObject {
  import opened Prelude
  import opened BookModel
  import opened RequestQueue

  class WaitQueue {
    const capacity: nat
    const aging: Time
    var items: map<RequestId, Item>
    var sequence: nat
    /** Which request every sequence number was handed to. */
    ghost var issued: map<nat, RequestId>

    ghost function State(): (q: Queue)
      reads this
    {
      Queue(capacity, aging, items, sequence)
    }

    ghost predicate Valid()
      reads this
    {
      QueueInv(State()) && IssuedBy(State(), issued)
    }

    constructor (capacity: nat, aging: Time)
      requires capacity >= 1 && aging > 0.0
      ensures Valid() && State() == Queue(capacity, aging, map[], 0)
    {
      this.capacity := capacity;
      this.aging := aging;
      this.items := map[];
      this.sequence := 0;
      this.issued := map[];
    }

    method ExpireDue(now: Time) returns (expired: map<RequestId, Item>)
      requires Valid()
      modifies this
      ensures Valid() && issued == old(issued)
      ensures State() == ExpireAt(old(State()), now)
      ensures expired == map id | id in old(items) && now >= old(items)[id].deadline ::
                old(items)[id].(state := Expired)
    {
      ExpireKeeps(State(), now);
      expired := map id | id in items && now >= items[id].deadline :: items[id].(state := Expired);
      items := map id | id in items && now < items[id].deadline :: items[id];
    }

    method Enqueue(id: RequestId, m: ModelId, priority: int, deadline: Time, now: Time, kind: WaitKind)
      returns (reply: QueueReply)
      requires Valid()
      modifies this
      ensures Valid()
      ensures Enqueues(ExpireAt(old(State()), now), State(), reply, id, m, priority, deadline, now, kind)
    {
      var _ := ExpireDue(now);
      reply := Append(id, m, priority, deadline, now, kind);
    }

    /** `enqueue` after its expiry pass. */
    method Append(id: RequestId, m: ModelId, priority: int, deadline: Time, now: Time, kind: WaitKind)
      returns (reply: QueueReply)
      requires Valid()
      modifies this
      ensures Valid()
      ensures Enqueues(old(State()), State(), reply, id, m, priority, deadline, now, kind)
    {
      if id in items {
        return DuplicateWaiter;
      }
      if |items| >= capacity {
        return QueueFull;
      }
      var item := Item(id, m, priority, now, deadline, sequence + 1, Waiting, kind);
      Number(item);
      return Queued(item);
    }

    /** The last lines of `enqueue`: the next sequence number goes to this waiter. */
    method Number(item: Item)
      requires Valid() && |items| < capacity && item.requestId !in items
      requires item.state.Waiting? && item.sequence == sequence + 1
      modifies this
      ensures Valid() && State() == Put(old(State()), item).(sequence := old(sequence) + 1)
    {
      hide QueueInv, IssuedBy;
      EnqueueKeeps(State(), item);
      EnqueueIssues(State(), item, issued);
      ghost var q := Put(State(), item).(sequence := sequence + 1);
      ghost var numbered := issued[sequence + 1 := item.requestId];
      sequence := sequence + 1;
      items := items[item.requestId := item];
      issued := numbered;
      assert State() == q;
    }

    /** A retained waiter goes back with its sequence, arrival time and deadline unchanged. Any item
        is taken; the order of waiters stays strict if its sequence was handed to it here. */
    method Requeue(item: Item) returns (reply: QueueReply)
      requires Valid()
      modifies this
      ensures issued == old(issued)
      ensures !reply.Queued? || (item.sequence in issued && issued[item.sequence] == item.requestId) ==> Valid()
      ensures reply.DuplicateWaiter? <==> item.requestId in old(items)
      ensures reply.QueueFull? <==> item.requestId !in old(items) && |old(items)| == capacity
      ensures reply.Queued? ==>
                && reply.item == item.(state := Waiting)
                && State() == old(State()).(items := old(items)[item.requestId := reply.item])
      ensures !reply.Queued? ==> State() == old(State())
    {
      if item.requestId in items {
        return DuplicateWaiter;
      }
      if |items| >= capacity {
        return QueueFull;
      }
      var back := item.(state := Waiting);
      if item.sequence in issued && issued[item.sequence] == item.requestId {
        PutKeeps(State(), back);
      }
      hide QueueInv;
      items := items[item.requestId := back];
      return Queued(back);
    }

    method Remove(id: RequestId, state: WaitState) returns (item: Option<Item>)
      requires Valid()
      modifies this
      ensures Valid() && State() == Without(old(State()), id)
      ensures item == if id in old(items) then Some(old(items)[id].(state := state)) else None
    {
      WithoutKeeps(State(), id);
      item := if id in items then Some(items[id].(state := state)) else None;
      items := items - {id};
    }

    /** The best of a set of waiters: the loop inside `min`. */
    method BestOf(ids: set<RequestId>, now: Time) returns (best: RequestId)
      requires Valid() && ids <= items.Keys && ids != {}
      ensures best in ids
      ensures forall other :: other in ids && other != best ==> Ahead(aging, items[best], items[other], now)
    {
      best :| best in ids;
      var rest := ids - {best};
      while rest != {}
        invariant rest <= ids && best in ids && best !in rest
        invariant forall other :: other in ids && other !in rest && other != best ==>
          Ahead(aging, items[best], items[other], now)
        decreases |rest|
      {
        var next :| next in rest;
        if !Ahead(aging, items[best], items[next], now) {
          best := next;
        }
        rest := rest - {next};
      }
    }

    /** Expire what is due, then pick the unique best eligible waiter. */
    method Head(now: Time, eligible: Item -> bool) returns (head: Option<Item>)
      requires Valid()
      modifies this
      ensures Valid() && issued == old(issued)
      ensures State() == ExpireAt(old(State()), now)
      ensures head.None? <==> Contenders(old(State()), now, eligible) == {}
      ensures head.Some? ==>
                && IsHead(old(State()), now, eligible, head.value.requestId)
                && head.value == old(items)[head.value.requestId]
    {
      var _ := ExpireDue(now);
      var ids := set id | id in items && eligible(items[id]);
      assert ids == Contenders(old(State()), now, eligible);
      if ids == {} {
        return None;
      }
      var best := BestOf(ids, now);
      return Some(items[best]);
    }
  }
}
