/** What the blocks of `acquire` answer, said on the fields of the scheduler before and after: who gets a
    lease, who is let in, what starts a load and what starts a switch. And so that waiting is fair: a
    lease goes to the head of the queue, in every schedule. */
module SchedulerAnswers {
  import opened Prelude
  import opened BookModel
  import opened BookRuns
  import opened RequestQueue
  import opened SessionManager
  import opened Scheduler
  import opened SchedulerRuns
  import SessionRuns
  import BookAnswers
  import Eviction = EvictionPolicy

  // ---- the queue as a look sees it ---------------------------------------------------------------

  /** The switch intent is over time, or its request is no longer queued. */
  predicate Stale(s: Sched, now: Time) {
    s.intent.Some? && (s.intent.value.expiresAt <= now || s.intent.value.requestId !in s.queue.items)
  }

  /** From when on a cold start of this model may be tried again. */
  function NotBefore(s: Sched, m: ModelId, now: Time): (t: Time) {
    if Stale(s, now) && s.intent.value.targetId == m then now + s.tuning.switchRetry
    else if m in s.nextSwitch then s.nextSwitch[m] else 0.0
  }

  /** The waiter could be served: no session holds it back, and its model is neither on its way up or
      down nor barred from a cold start. */
  predicate Servable(s: Sched, item: Item, now: Time) {
    && (item.kind == Interactive ==> s.sessionFreeze == None)
    && item.modelId in s.world.book.runtime
    && var state := s.world.book.runtime[item.modelId].state;
       && state != Loading && state != Evicting
       && (state == Unloaded ==> s.coldNotBefore <= now && NotBefore(s, item.modelId, now) <= now)
  }

  predicate Waits(s: Sched, id: RequestId, now: Time) {
    id in s.queue.items && now < s.queue.items[id].deadline && Servable(s, s.queue.items[id], now)
  }

  /** Nobody else who could be served has a higher aged priority, or the same and came earlier. */
  ghost predicate First(s: Sched, id: RequestId, now: Time)
    requires s.queue.aging > 0.0
  {
    && Waits(s, id, now)
    && forall o :: Waits(s, o, now) && o != id ==>
         var own, other := s.queue.items[id], s.queue.items[o];
         var p, q := Priority(s.queue.aging, own, now), Priority(s.queue.aging, other, now);
         q < p || (q == p && own.sequence < other.sequence)
  }

  /** The call cannot go on: the service is going down, it is too late, or nobody knows the request or
      the model any more. */
  predicate TooLate(s: Sched, w: Waiter, now: Time) {
    || s.shuttingDown || s.storageLost || w.deadline <= now || w.requestId !in s.queue.items
    || w.modelId !in s.world.book.runtime || w.modelId !in s.world.book.policy.ledger
  }

  /** The model can take one more lease now: the guard lets it, it is ready with a free slot and not
      frozen (a stale intent no longer freezes), the sample is fresh and plausible with the floor of
      memory free, and the request holds no lease yet. */
  predicate Open(s: Sched, w: Waiter, now: Time, sample: MemorySample, admitted: bool)
    requires w.modelId in s.world.book.runtime && w.modelId in s.world.book.policy.ledger
  {
    var b := s.world.book;
    var r := b.runtime[w.modelId];
    && admitted && !b.recovering && r.state == Ready && |r.leases| < b.policy.ledger[w.modelId].maxConcurrency
    && (r.admissionBlocked ==> Thaws(s, w.modelId, now))
    && sample.sampledAt <= now <= sample.sampledAt + b.policy.maxSampleAge
    && 0 <= sample.available <= sample.total && sample.total != 0 && b.policy.freeFloor <= sample.available
    && forall x, id :: x in b.runtime && id in b.runtime[x].leases ==> b.runtime[x].leases[id].requestId != w.requestId
  }

  /** A stale intent gives this model back. */
  predicate Thaws(s: Sched, m: ModelId, now: Time) {
    && Stale(s, now) && m in s.world.book.runtime && s.world.book.runtime[m].state == Ready
    && s.world.book.runtime[m].operationId == None && m in Registered(s.world.book, s.intent.value.frozen)
  }

  ghost predicate Granted(s: Sched, w: Waiter, now: Time, sample: MemorySample, admitted: bool)
    requires s.queue.aging > 0.0
  {
    !TooLate(s, w, now) && First(s, w.requestId, now) && Open(s, w, now, sample, admitted)
  }

  // ---- a look -----------------------------------------------------------------------------------

  lemma StaleBook(s: Sched, now: Time)
    ensures var s1, b := ExpireIntent(s, now), s.world.book;
            && s1.queue == s.queue && s1.tasks == s.tasks && s1.sessionFreeze == s.sessionFreeze
            && s1.coldNotBefore == s.coldNotBefore && s1.loads == s.loads && s1.evicting == s.evicting
            && s1.shuttingDown == s.shuttingDown && s1.storageLost == s.storageLost
            && s1.interactive == s.interactive
  {
    hide Next;
  }

  lemma StaleIntent(s: Sched, now: Time)
    ensures var s1, b := ExpireIntent(s, now), s.world.book;
            && s1.intent == (if Stale(s, now) then None else s.intent)
            && s1.world.book == (if Stale(s, now) then UnfreezeSwitch(b, s.intent.value.frozen) else b)
  {
    hide Draws, Issues, UnfreezeSwitch;
  }

  lemma StaleRetry(s: Sched, now: Time, m: ModelId)
    ensures RetryAfter(ExpireIntent(s, now), m) == NotBefore(s, m, now)
  {
    hide Next;
  }

  lemma ThawedBook(s: Sched, now: Time, m: ModelId)
    requires m in s.world.book.runtime
    ensures var b, b1 := s.world.book, ExpireIntent(s, now).world.book;
            && b1.policy == b.policy && b1.recovering == b.recovering && b1.runtime.Keys == b.runtime.Keys
            && b1.runtime[m].state == b.runtime[m].state && b1.runtime[m].leases == b.runtime[m].leases
            && b1.runtime[m].generation == b.runtime[m].generation
            && (b1.runtime[m].admissionBlocked <==> b.runtime[m].admissionBlocked && !Thaws(s, m, now))
  {
    StaleIntent(s, now);
    hide ExpireIntent, Registered;
  }

  lemma ServableIff(s: Sched, now: Time, item: Item)
    ensures ColdEligible(ExpireIntent(s, now), item, now) <==> Servable(s, item, now)
  {
    StaleBook(s, now);
    StaleRetry(s, now, item.modelId);
    StaleIntent(s, now);
    if item.modelId in s.world.book.runtime { ThawedBook(s, now, item.modelId); }
    hide ExpireIntent, Stale, NotBefore, RetryAfter, UnfreezeSwitch;
  }

  lemma FirstIff(s: Sched, now: Time, id: RequestId)
    requires s.queue.aging > 0.0
    ensures var s1 := ExpireIntent(s, now);
            s1.queue == s.queue && (IsHead(s1.queue, now, EligibleAt(s1, now), id) <==> First(s, id, now))
  {
    var s1 := ExpireIntent(s, now);
    StaleBook(s, now);
    hide ExpireIntent, Stale, UnfreezeSwitch;
    forall o
      ensures o in Contenders(s1.queue, now, EligibleAt(s1, now)) <==> Waits(s, o, now)
    {
      if o in s.queue.items { ServableIff(s, now, s.queue.items[o]); }
      hide ColdEligible, Servable;
    }
    hide Waits, Contenders, ColdEligible;
  }

  lemma OpenIff(s: Sched, w: Waiter, now: Time, sample: MemorySample, admitted: bool, uuid: Uuid)
    requires w.modelId in s.world.book.runtime && w.modelId in s.world.book.policy.ledger
    ensures var b1 := ExpireIntent(s, now).world.book;
            && w.modelId in b1.runtime && w.modelId in b1.policy.ledger
            && (Open(s, w, now, sample, admitted) <==>
                  && admitted && CanAdmitReady(b1, w.modelId, sample, now)
                  && Apply(b1, Acquire(w.modelId, w.requestId, uuid)).Ok?)
  {
    var b, b1 := s.world.book, ExpireIntent(s, now).world.book;
    forall x | x in b.runtime
      ensures x in b1.runtime && b1.runtime[x].leases == b.runtime[x].leases
    {
      ThawedBook(s, now, x);
    }
    ThawedBook(s, now, w.modelId);
    hide ExpireIntent, Thaws;
    assert OwnsLease(b1, w.requestId) <==> OwnsLease(b, w.requestId);
  }

  /** The call asks for a sample, to start a load or to make room for one. */
  ghost predicate Asks(s: Sched, w: Waiter, now: Time) {
    && w.modelId in s.world.book.runtime && s.world.book.runtime[w.modelId].state == Unloaded
    && w.modelId !in s.loads && !s.evicting && NotBefore(s, w.modelId, now) <= now
    && (s.intent.None? || Stale(s, now) || s.intent.value.requestId == w.requestId)
  }

  /** The request is served no more: its model has failed. */
  ghost predicate Dashed(s: Sched, w: Waiter, now: Time, sample: MemorySample, admitted: bool)
    requires s.queue.aging > 0.0
  {
    && !TooLate(s, w, now) && First(s, w.requestId, now) && !Open(s, w, now, sample, admitted)
    && s.world.book.runtime[w.modelId].state == Error
  }

  /** What one look leaves of the waiting call. */
  ghost predicate CallGoesSo(s: Sched, t: TaskId, now: Time, sample: MemorySample, admitted: bool, s': Sched)
    requires t in s.tasks && s.queue.aging > 0.0
  {
    var w := s.tasks[t];
    var ends := TooLate(s, w, now) || Granted(s, w, now, sample, admitted) || Dashed(s, w, now, sample, admitted);
    && t in s'.tasks && s'.tasks == s.tasks[t := s'.tasks[t]]
    && s'.tasks[t] == w.(leaving := w.leaving || ends,
                         wantsSample := if ends || !First(s, w.requestId, now) then w.wantsSample else Asks(s, w, now))
  }

  /** What it leaves of the queue: nobody past a deadline, and not the request itself once it is served or
      too late. */
  ghost predicate QueueGoesSo(s: Sched, t: TaskId, now: Time, sample: MemorySample, admitted: bool, s': Sched)
    requires t in s.tasks && s.queue.aging > 0.0
  {
    var w := s.tasks[t];
    forall id :: (id in s'.queue.items <==> id in s.queue.items && StaysQueued(s, w, now, sample, admitted, id))
              && (id in s'.queue.items ==> s'.queue.items[id] == s.queue.items[id])
  }

  ghost predicate StaysQueued(s: Sched, w: Waiter, now: Time, sample: MemorySample, admitted: bool, id: RequestId)
    requires s.queue.aging > 0.0 && id in s.queue.items
  {
    || s.shuttingDown || s.storageLost
    || (if TooLate(s, w, now) then id != w.requestId
        else now < s.queue.items[id].deadline && !(Granted(s, w, now, sample, admitted) && id == w.requestId))
  }

  /** The block in its cases. */
  ghost function LookBy(s: Sched, t: TaskId, now: Time, sample: MemorySample, admitted: bool, uuid: Uuid): (s': Sched)
    requires t in s.tasks && s.queue.aging > 0.0
    requires ExpireIntent(s, now).queue == s.queue && ExpireIntent(s, now).tasks == s.tasks
  {
    var w, s1 := s.tasks[t], ExpireIntent(s, now);
    var s2 := s1.(queue := ExpireAt(s1.queue, now));
    if s.shuttingDown || s.storageLost then Leaving(s1, t)
    else if TooLate(s, w, now) then Leaving(s1.(queue := Without(s1.queue, w.requestId)), t)
    else if !First(s, w.requestId, now) then s2
    else if Open(s, w, now, sample, admitted) then Grant(s2, t, uuid)
    else if s.world.book.runtime[w.modelId].state == Error then Leaving(s2, t)
    else s2.(tasks := s2.tasks[t := w.(wantsSample := Asks(s, w, now))])
  }

  lemma AsksIff(s: Sched, w: Waiter, now: Time)
    requires w.modelId in s.world.book.runtime
    ensures var s1 := ExpireIntent(s, now);
            && w.modelId in s1.world.book.runtime
            && s1.world.book.runtime[w.modelId].state == s.world.book.runtime[w.modelId].state
            && (Asks(s, w, now) <==>
                  && s1.world.book.runtime[w.modelId].state.Unloaded? && w.modelId !in s1.loads && !s1.evicting
                  && (s1.intent.None? || s1.intent.value.requestId == w.requestId) && now >= RetryAfter(s1, w.modelId))
  {
    StaleBook(s, now);
    StaleIntent(s, now);
    StaleRetry(s, now, w.modelId);
    ThawedBook(s, now, w.modelId);
    hide ExpireIntent, UnfreezeSwitch, NotBefore, RetryAfter;
  }

  lemma SameRetries(s: Sched, s': Sched, m: ModelId)
    requires s'.nextSwitch == s.nextSwitch
    ensures RetryAfter(s', m) == RetryAfter(s, m)
  {
  }

  lemma KnownAsBefore(s: Sched, now: Time)
    ensures ExpireIntent(s, now).world.book.runtime.Keys == s.world.book.runtime.Keys
    ensures ExpireIntent(s, now).world.book.policy == s.world.book.policy
  {
    StaleIntent(s, now);
    hide ExpireIntent, Registered;
  }

  lemma LookIs(s: Sched, t: TaskId, now: Time, sample: MemorySample, admitted: bool, uuid: Uuid)
    requires t in s.tasks && s.queue.aging > 0.0
    ensures ExpireIntent(s, now).queue == s.queue && ExpireIntent(s, now).tasks == s.tasks
    ensures Look(s, t, now, sample, admitted, uuid) == LookBy(s, t, now, sample, admitted, uuid)
  {
    var w, s1 := s.tasks[t], ExpireIntent(s, now);
    StaleBook(s, now);
    KnownAsBefore(s, now);
    FirstIff(s, now, w.requestId);
    if w.modelId in s.world.book.runtime { AsksIff(s, w, now); }
    if w.modelId in s.world.book.runtime && w.modelId in s.world.book.policy.ledger {
      OpenIff(s, w, now, sample, admitted, uuid);
    }
    SameRetries(s1, s1.(queue := ExpireAt(s1.queue, now)), w.modelId);
    hide ExpireIntent, First, Open, IsHead, CanAdmitReady, Apply, RetryAfter, Grant, Leaving, ExpireAt, Without, Asks;
  }

  lemma LeavingTables(s: Sched, t: TaskId)
    requires t in s.tasks
    ensures Leaving(s, t).tasks == s.tasks[t := s.tasks[t].(leaving := true)] && Leaving(s, t).queue == s.queue
  {
  }

  lemma LookTables(s: Sched, t: TaskId, now: Time, sample: MemorySample, admitted: bool, uuid: Uuid)
    requires t in s.tasks && s.queue.aging > 0.0
    ensures var w, s' := s.tasks[t], Look(s, t, now, sample, admitted, uuid);
            var late, first := TooLate(s, w, now), First(s, w.requestId, now);
            && s'.tasks == (if late then s.tasks[t := w.(leaving := true)]
                            else if !first then s.tasks
                            else if Open(s, w, now, sample, admitted)
                                    || s.world.book.runtime[w.modelId].state == Error
                            then s.tasks[t := w.(leaving := true)]
                            else s.tasks[t := w.(wantsSample := Asks(s, w, now))])
            && s'.queue == (if s.shuttingDown || s.storageLost then s.queue
                            else if late then Without(s.queue, w.requestId)
                            else if first && Open(s, w, now, sample, admitted)
                            then Without(ExpireAt(s.queue, now), w.requestId)
                            else ExpireAt(s.queue, now))
  {
    LookIs(s, t, now, sample, admitted, uuid);
    var w, s1 := s.tasks[t], ExpireIntent(s, now);
    var s2 := s1.(queue := ExpireAt(s1.queue, now));
    hide Look, ExpireIntent, First, Open, Asks, Grant, ExpireAt, Without, Leaving;
    if s.shuttingDown || s.storageLost {
      LeavingTables(s1, t);
    } else if TooLate(s, w, now) {
      LeavingTables(s1.(queue := Without(s1.queue, w.requestId)), t);
    } else if !First(s, w.requestId, now) {
    } else if Open(s, w, now, sample, admitted) {
      GrantLeaves(s2, t, uuid);
    } else if s.world.book.runtime[w.modelId].state == Error {
      LeavingTables(s2, t);
    }
  }

  lemma CallGoes(s: Sched, t: TaskId, now: Time, sample: MemorySample, admitted: bool, uuid: Uuid)
    requires t in s.tasks && s.queue.aging > 0.0
    ensures CallGoesSo(s, t, now, sample, admitted, Look(s, t, now, sample, admitted, uuid))
  {
    LookTables(s, t, now, sample, admitted, uuid);
    assert s.tasks == s.tasks[t := s.tasks[t]];
    hide Look, First, Open, Asks, ExpireAt, Without, TooLate;
  }

  lemma QueueGoes(s: Sched, t: TaskId, now: Time, sample: MemorySample, admitted: bool, uuid: Uuid)
    requires t in s.tasks && s.queue.aging > 0.0
    ensures QueueGoesSo(s, t, now, sample, admitted, Look(s, t, now, sample, admitted, uuid))
  {
    LookTables(s, t, now, sample, admitted, uuid);
    hide Look, First, Open, Asks;
  }

  lemma GrantLeaves(s: Sched, t: TaskId, uuid: Uuid)
    requires t in s.tasks
    ensures var s' := Grant(s, t, uuid);
            && s'.tasks == s.tasks[t := s.tasks[t].(leaving := true)]
            && s'.queue == Without(s.queue, s.tasks[t].requestId)
            && s'.world.book == After(s.world.book, Acquire(s.tasks[t].modelId, s.tasks[t].requestId, uuid))
            && s'.interactive == if s.tasks[t].session.None? then s.interactive + {uuid} else s.interactive
  {
    hide After, Issues, Draws;
  }

  // ---- who gets a lease -------------------------------------------------------------------------------

  lemma LeavingBook(s: Sched, t: TaskId)
    requires t in s.tasks
    ensures Leaving(s, t).world == s.world && Leaving(s, t).interactive == s.interactive
  {
  }

  lemma LookBook(s: Sched, t: TaskId, now: Time, sample: MemorySample, admitted: bool, uuid: Uuid)
    requires t in s.tasks && s.queue.aging > 0.0
    ensures var w, s', b1 := s.tasks[t], Look(s, t, now, sample, admitted, uuid), ExpireIntent(s, now).world.book;
            var granted := Granted(s, w, now, sample, admitted);
            && s'.world.book == (if granted then After(b1, Acquire(w.modelId, w.requestId, uuid)) else b1)
            && s'.interactive == if granted && w.session.None? then s.interactive + {uuid} else s.interactive
  {
    LookIs(s, t, now, sample, admitted, uuid);
    var w, s1 := s.tasks[t], ExpireIntent(s, now);
    var s2 := s1.(queue := ExpireAt(s1.queue, now));
    StaleBook(s, now);
    hide Look, ExpireIntent, First, Open, Asks, Grant, ExpireAt, Without, Leaving, After;
    if s.shuttingDown || s.storageLost {
      LeavingBook(s1, t);
    } else if TooLate(s, w, now) {
      LeavingBook(s1.(queue := Without(s1.queue, w.requestId)), t);
    } else if !First(s, w.requestId, now) {
    } else if Open(s, w, now, sample, admitted) {
      GrantLeaves(s2, t, uuid);
    } else if s.world.book.runtime[w.modelId].state == Error {
      LeavingBook(s2, t);
    }
  }

  /** This lease is out on this model. */
  predicate IsLent(b: BookState, m: ModelId, lease: Lease) {
    m in b.runtime && lease.leaseId in b.runtime[m].leases && b.runtime[m].leases[lease.leaseId] == lease
  }

  lemma AcquireLends(b: BookState, m: ModelId, req: RequestId, uuid: Uuid, x: ModelId, lease: Lease)
    requires Apply(b, Acquire(m, req, uuid)).Ok? && !LeasedIn(b, x, uuid)
    ensures m in b.runtime
    ensures IsLent(After(b, Acquire(m, req, uuid)), x, lease) <==>
              IsLent(b, x, lease) || (x == m && lease == Lease(uuid, req, m, b.runtime[m].generation))
  {
  }

  /** A look lends exactly what it grants. */
  lemma LookLends(s: Sched, e: Scheduler.Step, x: ModelId, lease: Lease)
    requires e.LookAcquire? && Enabled(s, e) && WorldInv(s.world)
    ensures var w := s.tasks[e.t];
            && (Granted(s, w, e.now, e.sample, e.admitted) ==> w.modelId in s.world.book.runtime)
            && (IsLent(Do(s, e).world.book, x, lease) <==>
                  || IsLent(s.world.book, x, lease)
                  || (&& Granted(s, w, e.now, e.sample, e.admitted) && x == w.modelId
                      && lease == Lease(e.uuid, w.requestId, x, s.world.book.runtime[x].generation)))
  {
    var w, b1 := s.tasks[e.t], ExpireIntent(s, e.now).world.book;
    assert !LeasedIn(s.world.book, x, e.uuid);
    assert Do(s, e) == Look(s, e.t, e.now, e.sample, e.admitted, e.uuid);
    LookBook(s, e.t, e.now, e.sample, e.admitted, e.uuid);
    StaleIntent(s, e.now);
    if x in s.world.book.runtime { ThawedBook(s, e.now, x); }
    if Granted(s, w, e.now, e.sample, e.admitted) {
      OpenIff(s, w, e.now, e.sample, e.admitted, e.uuid);
      hide Do, Look, ExpireIntent, After, Apply, Granted, WorldInv, CanAdmitReady, Open, UnfreezeSwitch;
      ThawedBook(s, e.now, w.modelId);
      AcquireLends(b1, w.modelId, w.requestId, e.uuid, x, lease);
    } else {
      hide Do, Look, ExpireIntent, After, Granted, WorldInv;
    }
  }

  lemma CallLendsNothing(b: BookState, c: Call, x: ModelId, lease: Lease)
    requires WellFormed(c) && !c.Acquire? && IsLent(After(b, c), x, lease)
    ensures IsLent(b, x, lease)
  {
    hide CanLoad, Vet, EvictableNow, CleanableNow, FreezableNow, Registered;
  }

  lemma CancelLendsNothing(s: Sched, req: RequestId, x: ModelId, lease: Lease)
    requires IsLent(CancelIntent(s, req).world.book, x, lease)
    ensures IsLent(s.world.book, x, lease)
  {
    if s.intent.Some? && s.intent.value.requestId == req {
      BookOf(s, Unfreeze(s.intent.value.frozen));
      hide OnBook, After;
      CallLendsNothing(s.world.book, Unfreeze(s.intent.value.frozen), x, lease);
    }
  }

  lemma SwitchLendsNothing(s: Sched, w: Waiter, now: Time, chosen: seq<ModelId>, uuids: map<ModelId, Uuid>, x: ModelId,
                           lease: Lease)
    requires forall m :: m in chosen ==> m in uuids
    requires s.intent.Some? ==> forall m :: m in s.intent.value.frozen ==> m in uuids
    requires IsLent(Switch(s, w, now, chosen, uuids).world.book, x, lease)
    ensures IsLent(s.world.book, x, lease)
  {
    hide *;
    var s1 := Establish(s, w, now, chosen);
    SwitchIsBoth(s, w, now, chosen, uuids);
    EvictionLendsNothing(s1, w, uuids, x, lease);
    FreezeLendsNothing(s, w, now, chosen, x, lease);
  }

  lemma SwitchIsBoth(s: Sched, w: Waiter, now: Time, chosen: seq<ModelId>, uuids: map<ModelId, Uuid>)
    requires forall m :: m in chosen ==> m in uuids
    requires s.intent.Some? ==> forall m :: m in s.intent.value.frozen ==> m in uuids
    ensures var s1 := Establish(s, w, now, chosen);
            && (s1.intent.Some? ==> forall m :: m in s1.intent.value.frozen ==> m in uuids)
            && Switch(s, w, now, chosen, uuids) == EvictDrained(s1, w, uuids)
  {
    hide Next, Apply, EvictDrained;
  }

  lemma EvictionLendsNothing(s: Sched, w: Waiter, uuids: map<ModelId, Uuid>, x: ModelId, lease: Lease)
    requires s.intent.Some? ==> forall m :: m in s.intent.value.frozen ==> m in uuids
    requires IsLent(EvictDrained(s, w, uuids).world.book, x, lease)
    ensures IsLent(s.world.book, x, lease)
  {
    EvictIs(s, w, uuids);
    hide EvictDrained, After, IsLent, BatchTaken, Acts;
    if Acts(s, w) {
      assert s.intent.Some? by { OwnsIntent(s, w); }
      if BatchTaken(s.world.book, s.intent.value.frozen, uuids) {
        CallLendsNothing(s.world.book, Evict(s.intent.value.frozen, true, uuids), x, lease);
      } else {
        CallLendsNothing(s.world.book, Unfreeze(s.intent.value.frozen), x, lease);
      }
    }
  }

  lemma OwnsIntent(s: Sched, w: Waiter)
    requires Acts(s, w)
    ensures s.intent.Some?
  {
  }

  lemma FreezeLendsNothing(s: Sched, w: Waiter, now: Time, chosen: seq<ModelId>, x: ModelId, lease: Lease)
    requires IsLent(Establish(s, w, now, chosen).world.book, x, lease)
    ensures IsLent(s.world.book, x, lease)
  {
    EstablishIs(s, w, now, chosen);
    hide Establish, After, IsLent, BookAnswers.Joins;
    if Establish(s, w, now, chosen).world.book != s.world.book {
      CallLendsNothing(s.world.book, Freeze(chosen), x, lease);
    }
  }

  lemma AdvanceLendsNothing(s: Sched, e: Scheduler.Step, x: ModelId, lease: Lease)
    requires e.AdvanceAcquire? && Enabled(s, e) && IsLent(Do(s, e).world.book, x, lease)
    ensures IsLent(s.world.book, x, lease)
  {
    hide *;
    AdvanceIs(s, e);
    var w := s.tasks[e.t];
    var s0 := s.(tasks := s.tasks[e.t := w.(wantsSample := false)]);
    if LoadStarts(s, e) {
      LoadLendsNothing(s0, Load(w.modelId, e.sample, e.now, e.uuid), s.loads + {w.modelId}, x, lease);
    } else if NeedsRoom(s, e) && ChoiceRaises(s, e) {
      LeavingBook(s0, e.t);
    } else if NeedsRoom(s, e) {
      SwitchLendsNothing(s0, w, e.now, Picked(e.picked), e.uuids, x, lease);
    }
  }

  lemma LoadLendsNothing(s: Sched, c: Call, loads: set<ModelId>, x: ModelId, lease: Lease)
    requires c.Load? && IsLent(OnBook(s, c).(loads := loads).world.book, x, lease)
    ensures IsLent(s.world.book, x, lease)
  {
    BookOf(s, c);
    hide OnBook, After, IsLent;
    CallLendsNothing(s.world.book, c, x, lease);
  }

  lemma EntryLendsNothing(s: Sched, e: Scheduler.Step, x: ModelId, lease: Lease)
    requires Enabled(s, e) && (e.EnterAcquire? || e.LeaveAcquire? || e.CutLeave? || e.OtherBlock?)
    requires IsLent(Do(s, e).world.book, x, lease)
    ensures IsLent(s.world.book, x, lease)
  {
    if e.OtherBlock? {
      BookOf(s, e.c);
      hide OnBook, After;
      CallLendsNothing(s.world.book, e.c, x, lease);
    } else if e.LeaveAcquire? {
      var req := s.tasks[e.t].requestId;
      hide CancelIntent;
      CancelLendsNothing(s.(queue := Without(s.queue, req), tasks := s.tasks - {e.t}), req, x, lease);
    } else {
      hide IsLive, ExpireAt, NewItem;
    }
  }

  lemma OthersLendNothing(s: Sched, e: Scheduler.Step, x: ModelId, lease: Lease)
    requires Enabled(s, e) && !e.LookAcquire? && IsLent(Do(s, e).world.book, x, lease)
    ensures IsLent(s.world.book, x, lease)
  {
    hide Do, Enabled, IsLent;
    if e.AdvanceAcquire? {
      AdvanceLendsNothing(s, e, x, lease);
    } else if e.EnterAcquire? || e.LeaveAcquire? || e.CutLeave? || e.OtherBlock? {
      EntryLendsNothing(s, e, x, lease);
    } else if IsSessionStep(e) {
      SessionStepSpares(s, e);
    } else if IsPlanStep(e) {
      PlanSpares(s, e);
    } else {
      WorkSpares(s, e);
    }
  }

  /** Who gets a lease, in every schedule: a lease is out after a step that was not out before it if and
      only if the step is the look of a call, the call's own request is first in the queue and its model
      can take it; and then the lease is that request's, on that model, in its current generation. An
      interactive request gets none while a session holds the freeze. */
  lemma LentIffFirst(ss: seq<Sched>, es: seq<Scheduler.Step>, i: nat, m: ModelId, lease: Lease)
    requires IsSchedule(ss, es) && Fresh(ss[0]) && i < |es| && !IsLent(ss[i].world.book, m, lease)
    ensures IsLent(ss[i + 1].world.book, m, lease) <==>
              && es[i].LookAcquire? && es[i].t in ss[i].tasks && ss[i].queue.aging > 0.0
              && var w := ss[i].tasks[es[i].t];
                 && Granted(ss[i], w, es[i].now, es[i].sample, es[i].admitted) && m == w.modelId
                 && lease == Lease(es[i].uuid, w.requestId, m, ss[i].world.book.runtime[m].generation)
    ensures IsLent(ss[i + 1].world.book, m, lease) && ss[i].tasks[es[i].t].session.None? ==>
              ss[i].sessionFreeze.None?
  {
    var s, e := ss[i], es[i];
    ScheduleKeeps(ss, es, i);
    assert WorldInv(s.world) && SessionInv(s);
    if e.LookAcquire? {
      LookLends(s, e, m, lease);
      var w := s.tasks[e.t];
      if Granted(s, w, e.now, e.sample, e.admitted) && w.session.None? {
        FirstIsFree(s, e.t, e.now);
      }
      hide SchedInv, Do, WorldInv, SessionInv, Fresh, Granted, IsLent;
    } else {
      hide SchedInv, Do, Enabled, WorldInv, SessionInv, Fresh, IsLent;
      if IsLent(ss[i + 1].world.book, m, lease) { OthersLendNothing(s, e, m, lease); }
    }
  }

  lemma FirstIsFree(s: Sched, t: TaskId, now: Time)
    requires SessionInv(s) && t in s.tasks && s.tasks[t].session.None? && First(s, s.tasks[t].requestId, now)
    ensures s.sessionFreeze.None?
  {
    hide ActiveNamed, NoInteractiveLease;
    assert Waits(s, s.tasks[t].requestId, now);
    assert KindsApart(s);
  }

  // ---- who is let in -------------------------------------------------------------------------------

  /** The session is active and neither its hard deadline nor its time to live has passed. */
  predicate Alive(s: Sched, sid: SessionId, now: Time) {
    && sid in s.sessions.records && s.sessions.records[sid].phase == Active
    && var r := s.sessions.records[sid];
       && now < r.hardDeadline
       && now - r.ttlSeconds < (if r.heartbeatAt.Some? then r.heartbeatAt.value
                                else if r.activatedAt.Some? then r.activatedAt.value else r.createdAt)
  }

  function Unexpired(q: Queue, now: Time): (ids: set<RequestId>) {
    set id | id in q.items && now < q.items[id].deadline
  }

  /** A call may join the queue: for a known model and in time, while the service is up; for a session only
      if it is alive, owns the model and a slot may still come; without one only while no session holds
      or takes the model; not twice, and not into a full queue. */
  predicate LetIn(s: Sched, req: RequestId, m: ModelId, deadline: Time, session: Option<SessionId>, now: Time) {
    var b := s.world.book;
    && m in b.policy.ledger && m in b.runtime && now < deadline && !s.shuttingDown && !s.storageLost
    && (match session
        case None => s.sessionFreeze.None?
        case Some(sid) =>
          && Alive(s, sid, now) && s.sessions.records[sid].modelId == m
          && (b.runtime[m].state == Ready ==> |b.runtime[m].leases| < b.policy.ledger[m].maxConcurrency))
    && req !in Unexpired(s.queue, now) && |Unexpired(s.queue, now)| < s.queue.capacity
  }

  lemma AliveIff(s: Sched, sid: SessionId, now: Time)
    ensures IsLive(s.sessions, sid, now) <==> Alive(s, sid, now)
  {
  }

  lemma UnexpiredKeys(q: Queue, now: Time)
    ensures ExpireAt(q, now).items.Keys == Unexpired(q, now) && |ExpireAt(q, now).items| == |Unexpired(q, now)|
  {
    assert ExpireAt(q, now).items.Keys == Unexpired(q, now);
  }

  /** Entering the queue: a call waits afterwards if and only if it may join, with its own deadline, the
      priority of its model and the next number; nobody else's place changes. */
  lemma EntersIff(s: Sched, t: TaskId, req: RequestId, m: ModelId, deadline: Time, session: Option<SessionId>,
                  now: Time)
    requires t !in s.tasks
    ensures var s' := Enter(s, t, req, m, deadline, session, now);
            var let := LetIn(s, req, m, deadline, session, now);
            && (t in s'.tasks <==> let)
            && s'.tasks == (if let then s.tasks[t := Waiter(req, m, deadline, session, false, false)] else s.tasks)
            && (let ==> req in s'.queue.items && s'.queue.sequence == s.queue.sequence + 1
                        && s'.queue.items[req] == Item(req, m, s.world.book.policy.ledger[m].priority, now, deadline,
                                                       s.queue.sequence + 1, Waiting,
                                                       if session.Some? then Session else Interactive))
            && (forall id :: id in s'.queue.items && !(let && id == req) ==>
                  id in s.queue.items && s'.queue.items[id] == s.queue.items[id])
            && (forall id :: id in Unexpired(s.queue, now) ==> id in s'.queue.items)
            && (!let ==> s'.queue.sequence == s.queue.sequence)
  {
    if session.Some? { AliveIff(s, session.value, now); }
    UnexpiredKeys(s.queue, now);
    hide IsLive, Alive;
  }

  // ---- waiting is fair -----------------------------------------------------------------------------

  predicate Thins(q: Queue, q': Queue) {
    && q'.aging == q.aging && q'.sequence == q.sequence
    && forall id :: id in q'.items ==> id in q.items && q'.items[id] == q.items[id]
  }

  /** One waiter more, at the end of the line. */
  predicate Grows(q: Queue, q': Queue, id: RequestId, now: Time) {
    && q'.aging == q.aging && q'.sequence == q.sequence + 1 && id in q'.items
    && q'.items[id].requestId == id && q'.items[id].sequence == q'.sequence && q'.items[id].enqueuedAt == now
    && forall o :: o in q'.items && o != id ==> o in q.items && q'.items[o] == q.items[o]
  }

  predicate QueueMoves(s: Sched, e: Scheduler.Step, s': Sched) {
    || Thins(s.queue, s'.queue)
    || (e.EnterAcquire? && Grows(s.queue, s'.queue, e.req, e.now))
    || (e.RegisterSession? && Grows(s.queue, s'.queue, e.sid, e.now))
  }

  lemma LookThins(s: Sched, e: Scheduler.Step)
    requires e.LookAcquire? && Enabled(s, e)
    ensures Thins(s.queue, Do(s, e).queue)
  {
    LookTables(s, e.t, e.now, e.sample, e.admitted, e.uuid);
    hide Look, First, Open, Asks, TooLate;
  }

  lemma SwitchKeepsQueue(s: Sched, w: Waiter, now: Time, chosen: seq<ModelId>, uuids: map<ModelId, Uuid>)
    requires forall m :: m in chosen ==> m in uuids
    requires s.intent.Some? ==> forall m :: m in s.intent.value.frozen ==> m in uuids
    ensures Switch(s, w, now, chosen, uuids).queue == s.queue
  {
    hide Next, Apply;
  }

  lemma AdvanceKeepsQueue(s: Sched, e: Scheduler.Step)
    requires e.AdvanceAcquire? && Enabled(s, e)
    ensures Do(s, e).queue == s.queue
  {
    var w := s.tasks[e.t];
    SwitchKeepsQueue(s.(tasks := s.tasks[e.t := w.(wantsSample := false)]), w, e.now, Picked(e.picked), e.uuids);
    hide Next, Switch, CanLoad, ChooseRaises, Eviction.IsRanking, Eviction.IsChoice, FreshIds;
  }

  lemma EntryMovesQueue(s: Sched, e: Scheduler.Step)
    requires Enabled(s, e) && (e.EnterAcquire? || e.LeaveAcquire? || e.CutLeave? || e.OtherBlock?)
    ensures QueueMoves(s, e, Do(s, e))
  {
    if e.EnterAcquire? {
      EntersIff(s, e.t, e.req, e.m, e.deadline, e.session, e.now);
      EnterKeepsAging(s, e);
      hide Enter, LetIn, Unexpired;
    } else {
      hide Next;
    }
  }

  lemma EnterKeepsAging(s: Sched, e: Scheduler.Step)
    requires e.EnterAcquire?
    ensures Enter(s, e.t, e.req, e.m, e.deadline, e.session, e.now).queue.aging == s.queue.aging
  {
    hide IsLive;
  }

  lemma RegisterQueue(s: Sched, e: Scheduler.Step)
    requires e.RegisterSession?
    ensures var q, q' := ExpireAt(s.queue, e.now), Register(s, e.sid, e.m, e.priority, e.hard, e.now).queue;
            || q' == s.queue || q' == q
            || exists deadline ::
                 q' == RequestQueue.Put(q, NewItem(q, e.sid, e.m, e.priority, deadline, e.now, Session))
                       .(sequence := q.sequence + 1)
  {
    hide NewRecord, NewItem, RequestQueue.Put, ExpireAt, SessionManager.Put;
  }

  lemma RegisterMovesQueue(s: Sched, e: Scheduler.Step)
    requires e.RegisterSession?
    ensures QueueMoves(s, e, Register(s, e.sid, e.m, e.priority, e.hard, e.now))
  {
    RegisterQueue(s, e);
    hide Register;
  }

  lemma SessionMovesQueue(s: Sched, e: Scheduler.Step)
    requires Enabled(s, e) && IsSessionStep(e)
    ensures QueueMoves(s, e, Do(s, e))
  {
    if e.RegisterSession? {
      hide Register, QueueMoves;
      RegisterMovesQueue(s, e);
    } else {
      hide Heartbeat, BeginDrain, Drained, Register;
    }
  }

  lemma BlocksThin(s: Sched, sid: SessionId, now: Time)
    requires sid in s.sessions.records
    ensures Thins(s.queue, DoExpire(s, sid).queue) && Thins(s.queue, Activate(s, sid, now).queue)
    ensures ClaimFreeze(s, sid).queue == s.queue && Close(s, sid).queue == s.queue
  {
    ExpiryThins(s, sid);
    hide MarkClosed, MarkActive, DoExpire;
  }

  lemma ExpiryThins(s: Sched, sid: SessionId)
    requires sid in s.sessions.records
    ensures Thins(s.queue, DoExpire(s, sid).queue)
  {
    hide MarkClosed, BeginDrain;
  }

  lemma MoreBlocksThin(s: Sched, sid: SessionId, now: Time)
    ensures YieldFreeze(s, sid, now).queue == s.queue && Block(s, sid, now).queue == s.queue
  {
    hide MarkBlocked, YieldPrepare;
  }

  lemma WorkMovesQueue(s: Sched, e: Scheduler.Step)
    requires Enabled(s, e) && !IsSessionStep(e) && !SessionRuns.IsAcquireStep(e)
    ensures Thins(s.queue, Do(s, e).queue)
  {
    if IsPlanStep(e) {
      hide HasExpired, RetryDue, AnyExpired, AnyRetryDue, Contenders, IsHead, MayPrepare;
    } else {
      if e.WorkExpire? || e.WorkClaim? || e.WorkReady? || e.WorkAbandoned? || e.WorkStopDone? {
        BlocksThin(s, s.worker.sid, TimeOf(e));
      }
      if e.WorkYield? || e.WorkFailed? || e.WorkStopDone? { MoreBlocksThin(s, s.worker.sid, TimeOf(e)); }
      hide DoExpire, ClaimFreeze, YieldFreeze, Activate, Block, Close, AnyLease;
    }
  }

  lemma QueueStep(s: Sched, e: Scheduler.Step)
    requires Enabled(s, e)
    ensures QueueMoves(s, e, Do(s, e))
  {
    hide Do, Enabled;
    if e.LookAcquire? {
      LookThins(s, e);
    } else if e.AdvanceAcquire? {
      AdvanceKeepsQueue(s, e);
    } else if SessionRuns.IsAcquireStep(e) {
      EntryMovesQueue(s, e);
    } else if IsSessionStep(e) {
      SessionMovesQueue(s, e);
    } else {
      WorkMovesQueue(s, e);
    }
  }

  /** Whose place in the queue a step leaves alone. */
  ghost predicate KeepsPlace(s: Sched, e: Scheduler.Step, id: RequestId)
    requires Enabled(s, e) && id in s.queue.items
  {
    match e
    case LookAcquire(t, now, sample, admitted, _) => StaysQueued(s, s.tasks[t], now, sample, admitted, id)
    case LeaveAcquire(t) => id != s.tasks[t].requestId
    case LoseStorage => false
    case Shutdown => false
    case EndSession(sid) => id == sid ==> sid !in s.sessions.records || s.sessions.records[sid].phase == Closed
    case PlanExpire(sid, _) => id == sid ==> s.sessions.records[sid].phase != Preparing
    case PlanPrepare(_, now) => now < s.queue.items[id].deadline
    case PlanClose(_, now) => now < s.queue.items[id].deadline
    case WorkExpire => id == s.worker.sid ==> s.sessions.records[id].phase != Preparing
    case WorkReady(_) =>
      id == s.worker.sid ==>
        s.sessions.records[id].phase != Preparing || (s.sessions.activeId.Some? && s.sessions.activeId.value != id)
    case _ => true
  }

  /** When a waiter leaves the queue: its call ends, it is served, it is past its deadline when somebody
      looks, its session ends, expires or becomes active, or the service goes down; and never otherwise. */
  lemma LeavesQueueIff(s: Sched, e: Scheduler.Step, id: RequestId)
    requires Enabled(s, e) && id in s.queue.items && !e.EnterAcquire? && !e.RegisterSession?
    ensures id in Do(s, e).queue.items <==> KeepsPlace(s, e, id)
  {
    hide Do, Enabled, KeepsPlace;
    if SessionRuns.IsAcquireStep(e) {
      CallFreesPlace(s, e, id);
    } else if IsSessionStep(e) {
      SessionFreesPlace(s, e, id);
    } else if IsPlanStep(e) {
      PlanFreesPlace(s, e, id);
    } else if e.WorkExpire? || e.WorkReady? {
      EndFreesPlace(s, e, id);
    } else {
      WorkerFreesPlace(s, e, id);
    }
  }

  lemma CallFreesPlace(s: Sched, e: Scheduler.Step, id: RequestId)
    requires Enabled(s, e) && id in s.queue.items && SessionRuns.IsAcquireStep(e) && !e.EnterAcquire?
    ensures id in Do(s, e).queue.items <==> KeepsPlace(s, e, id)
  {
    if e.LookAcquire? {
      QueueGoes(s, e.t, e.now, e.sample, e.admitted, e.uuid);
      hide Look, StaysQueued;
    } else if e.AdvanceAcquire? {
      AdvanceKeepsQueue(s, e);
      hide Do, Enabled;
    } else {
      hide Next, FreshCall;
    }
  }

  lemma EndedQueue(s: Sched, sid: SessionId)
    ensures CloseSession(s, sid).queue ==
              if sid in s.sessions.records && s.sessions.records[sid].phase != Closed then Without(s.queue, sid)
              else s.queue
  {
    hide BeginDrain, Without;
  }

  lemma SessionFreesPlace(s: Sched, e: Scheduler.Step, id: RequestId)
    requires Enabled(s, e) && id in s.queue.items && IsSessionStep(e) && !e.RegisterSession?
    ensures id in Do(s, e).queue.items <==> KeepsPlace(s, e, id)
  {
    if e.EndSession? { EndedQueue(s, e.sid); }
    hide Heartbeat, CloseSession, Drained;
  }

  lemma PlanFreesPlace(s: Sched, e: Scheduler.Step, id: RequestId)
    requires Enabled(s, e) && id in s.queue.items && IsPlanStep(e)
    ensures id in Do(s, e).queue.items <==> KeepsPlace(s, e, id)
  {
    hide HasExpired, RetryDue, AnyExpired, AnyRetryDue, Contenders, IsHead, MayPrepare;
  }

  lemma EndQueues(s: Sched, sid: SessionId, now: Time)
    requires sid in s.sessions.records
    ensures DoExpire(s, sid).queue ==
              if s.sessions.records[sid].phase == Preparing then Without(s.queue, sid) else s.queue
    ensures Activate(s, sid, now).queue ==
              if s.sessions.records[sid].phase == Preparing
                 && (s.sessions.activeId.Some? ==> s.sessions.activeId.value == sid)
              then Without(s.queue, sid) else s.queue
  {
    ExpireQueue(s, sid);
    hide DoExpire, Without;
  }

  lemma ExpireQueue(s: Sched, sid: SessionId)
    requires sid in s.sessions.records
    ensures DoExpire(s, sid).queue ==
              if s.sessions.records[sid].phase == Preparing then Without(s.queue, sid) else s.queue
  {
    hide MarkClosed, BeginDrain, Without;
  }

  lemma EndFreesPlace(s: Sched, e: Scheduler.Step, id: RequestId)
    requires Enabled(s, e) && id in s.queue.items && (e.WorkExpire? || e.WorkReady?)
    ensures id in Do(s, e).queue.items <==> KeepsPlace(s, e, id)
  {
    EndQueues(s, s.worker.sid, TimeOf(e));
    hide DoExpire, Activate;
  }

  lemma WorkerFreesPlace(s: Sched, e: Scheduler.Step, id: RequestId)
    requires Enabled(s, e) && id in s.queue.items
    requires !SessionRuns.IsAcquireStep(e) && !IsSessionStep(e) && !IsPlanStep(e) && !e.WorkExpire? && !e.WorkReady?
    ensures id in Do(s, e).queue.items <==> KeepsPlace(s, e, id)
  {
    if e.WorkClaim? || e.WorkAbandoned? || e.WorkStopDone? { BlocksThin(s, s.worker.sid, TimeOf(e)); }
    if e.WorkYield? || e.WorkFailed? || e.WorkStopDone? { MoreBlocksThin(s, s.worker.sid, TimeOf(e)); }
    hide ClaimFreeze, YieldFreeze, Block, Close, AnyLease;
  }

  /** Numbers are handed out in the order of arrival. */
  ghost predicate InOrder(q: Queue) {
    && (forall id :: id in q.items ==> q.items[id].requestId == id && q.items[id].sequence <= q.sequence)
    && (forall a, b :: a in q.items && b in q.items && a != b ==> q.items[a].sequence != q.items[b].sequence)
    && (forall a, b :: a in q.items && b in q.items && q.items[a].sequence < q.items[b].sequence ==>
          q.items[a].enqueuedAt <= q.items[b].enqueuedAt)
  }

  predicate ArrivedBy(q: Queue, now: Time) {
    forall id :: id in q.items ==> q.items[id].enqueuedAt <= now
  }

  /** When a waiter arrives or a call looks. */
  function ClockOf(e: Scheduler.Step): (t: Option<Time>) {
    match e
    case EnterAcquire(_, _, _, _, _, now) => Some(now)
    case RegisterSession(_, _, _, _, now) => Some(now)
    case LookAcquire(_, now, _, _, _) => Some(now)
    case _ => None
  }

  /** The clock does not run backwards. */
  predicate Clocked(es: seq<Scheduler.Step>) {
    forall i, j :: 0 <= i < j < |es| && ClockOf(es[i]).Some? && ClockOf(es[j]).Some? ==>
      ClockOf(es[i]).value <= ClockOf(es[j]).value
  }

  lemma ThinningKeepsOrder(q: Queue, q': Queue)
    requires InOrder(q) && Thins(q, q')
    ensures InOrder(q') && forall t :: ArrivedBy(q, t) ==> ArrivedBy(q', t)
  {
  }

  lemma GrowthKeepsOrder(q: Queue, q': Queue, id: RequestId, now: Time)
    requires InOrder(q) && Grows(q, q', id, now) && ArrivedBy(q, now)
    ensures InOrder(q') && forall t :: ArrivedBy(q, t) && now <= t ==> ArrivedBy(q', t)
  {
  }

  lemma MoveKeepsOrder(s: Sched, e: Scheduler.Step, s': Sched)
    requires InOrder(s.queue) && QueueMoves(s, e, s')
    requires e.EnterAcquire? || e.RegisterSession? ==> ArrivedBy(s.queue, e.now)
    ensures InOrder(s'.queue) && s'.queue.aging == s.queue.aging
    ensures forall t :: ArrivedBy(s.queue, t) && (e.EnterAcquire? || e.RegisterSession? ==> e.now <= t) ==>
              ArrivedBy(s'.queue, t)
  {
    hide InOrder, ArrivedBy;
    if Thins(s.queue, s'.queue) {
      ThinningKeepsOrder(s.queue, s'.queue);
    } else if e.EnterAcquire? {
      GrowthKeepsOrder(s.queue, s'.queue, e.req, e.now);
    } else {
      GrowthKeepsOrder(s.queue, s'.queue, e.sid, e.now);
    }
  }

  lemma NobodyWaits(s: Sched)
    requires Fresh(s)
    ensures InOrder(s.queue) && forall t :: ArrivedBy(s.queue, t)
  {
    hide WorldInv;
  }

  lemma {:induction false} QueueStaysInOrder(ss: seq<Sched>, es: seq<Scheduler.Step>, i: nat)
    requires IsSchedule(ss, es) && Fresh(ss[0]) && Clocked(es) && i < |ss|
    ensures InOrder(ss[i].queue) && ss[i].queue.aging == ss[0].queue.aging
    ensures forall j :: i <= j < |es| && ClockOf(es[j]).Some? ==> ArrivedBy(ss[i].queue, ClockOf(es[j]).value)
  {
    hide Do, Enabled, InOrder, ArrivedBy, QueueMoves, Fresh;
    if i == 0 {
      NobodyWaits(ss[0]);
    } else {
      QueueStaysInOrder(ss, es, i - 1);
      QueueStep(ss[i - 1], es[i - 1]);
      MoveKeepsOrder(ss[i - 1], es[i - 1], ss[i]);
    }
  }

  /** Bounded overtaking, about the leases themselves: in every schedule whose clock does not run backwards,
      whoever gets a lease while another request waits that could be served as well came before it, or
      less than one aging interval per step of its priority lead after it. */
  lemma GrantsPassOnlyTheWindow(ss: seq<Sched>, es: seq<Scheduler.Step>, i: nat, m: ModelId, lease: Lease, o: RequestId)
    requires IsSchedule(ss, es) && Fresh(ss[0]) && Clocked(es) && i < |es|
    requires !IsLent(ss[i].world.book, m, lease) && IsLent(ss[i + 1].world.book, m, lease)
    requires es[i].LookAcquire? && o != lease.requestId && Waits(ss[i], o, es[i].now)
    ensures lease.requestId in ss[i].queue.items
    ensures var own, other := ss[i].queue.items[lease.requestId], ss[i].queue.items[o];
            || own.sequence < other.sequence
            || own.enqueuedAt - other.enqueuedAt < ((own.priority - other.priority) as real) * ss[0].queue.aging
  {
    hide *;
    ScheduleLength(ss, es);
    LentIffFirst(ss, es, i, m, lease);
    QueueStaysInOrder(ss, es, i);
    LookClock(es[i]);
    GrantedIsFirst(ss[i], ss[i].tasks[es[i].t], es[i].now, es[i].sample, es[i].admitted);
    WaitsInQueue(ss[i], o, es[i].now);
    FirstPasses(ss[i], lease.requestId, o, es[i].now);
  }

  lemma ScheduleLength(ss: seq<Sched>, es: seq<Scheduler.Step>)
    requires IsSchedule(ss, es)
    ensures |ss| == |es| + 1
  {
    hide Do, Enabled;
  }

  lemma LookClock(e: Scheduler.Step)
    requires e.LookAcquire?
    ensures ClockOf(e) == Some(e.now)
  {
  }

  lemma GrantedIsFirst(s: Sched, w: Waiter, now: Time, sample: MemorySample, admitted: bool)
    requires s.queue.aging > 0.0 && Granted(s, w, now, sample, admitted)
    ensures First(s, w.requestId, now) && w.requestId in s.queue.items
  {
    hide First, Open;
  }

  lemma WaitsInQueue(s: Sched, id: RequestId, now: Time)
    requires Waits(s, id, now)
    ensures id in s.queue.items
  {
  }

  lemma FirstPasses(s: Sched, id: RequestId, o: RequestId, now: Time)
    requires s.queue.aging > 0.0 && First(s, id, now) && o != id && Waits(s, o, now)
    requires InOrder(s.queue) && ArrivedBy(s.queue, now)
    ensures id in s.queue.items && o in s.queue.items
    ensures var own, other := s.queue.items[id], s.queue.items[o];
            || own.sequence < other.sequence
            || own.enqueuedAt - other.enqueuedAt < ((own.priority - other.priority) as real) * s.queue.aging
  {
    var own, other := s.queue.items[id], s.queue.items[o];
    var ahead := Ahead(s.queue.aging, other, own, now);
    hide Servable, Priority;
    assert own.sequence != other.sequence && !ahead;
    assert other.sequence < own.sequence ==> other.enqueuedAt <= own.enqueuedAt <= now;
    hide First, InOrder, Ahead;
    var lead := ((own.priority - other.priority) as real) * s.queue.aging;
    if other.sequence < own.sequence && own.enqueuedAt - other.enqueuedAt >= lead {
      LateEnoughStaysBehind(s.queue.aging, other, own, now);
    }
  }

  // ---- a cold start ------------------------------------------------------------------------------------

  /** The model of the call is stopped, nobody is loading it yet, and the guard lets it start. */
  predicate Cold(s: Sched, w: Waiter, admitted: bool) {
    && admitted && w.modelId in s.world.book.runtime && w.modelId in s.world.book.policy.ledger
    && s.world.book.runtime[w.modelId].state == Unloaded && w.modelId !in s.loads
  }

  ghost predicate LoadStarts(s: Sched, e: Scheduler.Step)
    requires e.AdvanceAcquire? && e.t in s.tasks
  {
    var w := s.tasks[e.t];
    Cold(s, w, e.admitted) && BookAnswers.Loads(s.world.book, Load(w.modelId, e.sample, e.now, e.uuid), w.modelId)
  }

  /** There is no room for the load, and no eviction under way that could make some. */
  ghost predicate NeedsRoom(s: Sched, e: Scheduler.Step)
    requires e.AdvanceAcquire? && e.t in s.tasks
  {
    Cold(s, s.tasks[e.t], e.admitted) && !LoadStarts(s, e) && !s.evicting
  }

  /** Choosing victims raises: bytes are missing, no switch is under way, and a v2 model is ready and open. */
  ghost predicate ChoiceRaises(s: Sched, e: Scheduler.Step)
    requires e.AdvanceAcquire? && e.t in s.tasks
  {
    && NeedsRoom(s, e) && s.intent.None?
    && Eviction.LoadDeficit(s.world.book, s.tasks[e.t].modelId, e.sample) > 0
    && exists x :: x in s.world.book.runtime && x in s.world.book.policy.ledger
                   && s.world.book.policy.ledger[x].registration == RegisteredV2
                   && s.world.book.runtime[x].state == Ready && !s.world.book.runtime[x].admissionBlocked
  }

  /** The switch in force for this block: the current one, or one over exactly the chosen victims if all of
      them can be frozen, until the deadline of the call or the end of the drain time. */
  ghost function InForce(s: Sched, e: Scheduler.Step): (intent: Option<Intent>)
    requires e.AdvanceAcquire? && e.t in s.tasks
  {
    var w, victims := s.tasks[e.t], Picked(e.picked);
    if s.intent.Some? || !NeedsRoom(s, e) || ChoiceRaises(s, e) then s.intent
    else if victims != [] && BookAnswers.Joins(s.world.book, Freeze(victims), victims[0]) then
      var drained := e.now + s.tuning.switchDrain;
      Some(Intent(w.requestId, w.modelId, victims, if w.deadline <= drained then w.deadline else drained))
    else None
  }

  /** Its owner finds the frozen models drained. */
  ghost predicate FindsDrained(s: Sched, e: Scheduler.Step)
    requires e.AdvanceAcquire? && e.t in s.tasks
  {
    && NeedsRoom(s, e) && !ChoiceRaises(s, e) && InForce(s, e).Some?
    && InForce(s, e).value.requestId == s.tasks[e.t].requestId
    && forall x :: x in InForce(s, e).value.frozen && x in s.world.book.runtime ==>
         s.world.book.runtime[x].leases == map[]
  }

  /** The book takes the whole batch of frozen models. */
  ghost predicate BatchTaken(b: BookState, ms: seq<ModelId>, uuids: map<ModelId, Uuid>)
    requires forall m :: m in ms ==> m in uuids
  {
    ms != [] && BookAnswers.Joins(b, Evict(ms, true, uuids), ms[0])
  }

  /** What becomes of the book: the load, or the freeze that begins a switch and then, once it is drained,
      the eviction of exactly the frozen models or their release. */
  ghost function BookDue(s: Sched, e: Scheduler.Step): (b: BookState)
    requires e.AdvanceAcquire? && e.t in s.tasks
    requires InForce(s, e).Some? ==> forall m :: m in InForce(s, e).value.frozen ==> m in e.uuids
  {
    var w, b := s.tasks[e.t], s.world.book;
    if LoadStarts(s, e) then After(b, Load(w.modelId, e.sample, e.now, e.uuid))
    else
      var b1 := if s.intent.None? && InForce(s, e).Some? then After(b, Freeze(InForce(s, e).value.frozen)) else b;
      if !FindsDrained(s, e) then b1
      else if BatchTaken(s.world.book, InForce(s, e).value.frozen, e.uuids)
      then After(b1, Evict(InForce(s, e).value.frozen, true, e.uuids))
      else After(b1, Unfreeze(InForce(s, e).value.frozen))
  }

  /** The block of a call that asked for a sample: it starts the load if and only if the load fits; a switch
      is in force afterwards if and only if one was or begins here and is not found drained; an eviction
      starts if and only if it is found drained and the book takes the batch; and the call ends if and
      only if choosing raises. */
  ghost predicate AdvancesSo(s: Sched, e: Scheduler.Step, s': Sched)
    requires e.AdvanceAcquire? && e.t in s.tasks
    requires InForce(s, e).Some? ==> forall m :: m in InForce(s, e).value.frozen ==> m in e.uuids
  {
    var w := s.tasks[e.t];
    && s'.loads == (if LoadStarts(s, e) then s.loads + {w.modelId} else s.loads)
    && s'.intent == (if FindsDrained(s, e) then None else InForce(s, e))
    && (s'.evicting <==>
          s.evicting || (FindsDrained(s, e) && BatchTaken(s.world.book, InForce(s, e).value.frozen, e.uuids)))
    && s'.world.book == BookDue(s, e)
    && s'.tasks == s.tasks[e.t := w.(wantsSample := false, leaving := w.leaving || ChoiceRaises(s, e))]
  }

  lemma ForceHasTokens(s: Sched, e: Scheduler.Step)
    requires e.AdvanceAcquire? && Enabled(s, e)
    ensures InForce(s, e).Some? ==> forall m :: m in InForce(s, e).value.frozen ==> m in e.uuids
  {
    hide NeedsRoom, ChoiceRaises, Eviction.IsRanking, Eviction.IsChoice, FreshIds, BookAnswers.Joins;
  }

  lemma StartsIff(s: Sched, e: Scheduler.Step)
    requires e.AdvanceAcquire? && e.t in s.tasks && Cold(s, s.tasks[e.t], e.admitted)
    ensures LoadStarts(s, e) <==> CanLoad(s.world.book, s.tasks[e.t].modelId, e.sample, e.now)
  {
    BookAnswers.AdmissibleIff(s.world.book, s.tasks[e.t].modelId, e.sample, e.now);
    hide CanLoad, BookAnswers.Fits;
  }

  lemma RaisesIff(s: Sched, e: Scheduler.Step)
    requires e.AdvanceAcquire? && e.t in s.tasks && NeedsRoom(s, e)
    ensures s.tasks[e.t].modelId in s.world.book.policy.ledger
    ensures ChoiceRaises(s, e) <==>
              s.intent.None? && ChooseRaises(s.world.book, s.tasks[e.t].modelId, e.sample)
  {
    hide Eviction.LoadDeficit, LoadStarts;
  }

  lemma FreezeKeepsMembers(b: BookState, victims: seq<ModelId>, ms: seq<ModelId>, uuids: map<ModelId, Uuid>)
    requires forall m :: m in ms ==> m in uuids
    ensures var b1 := After(b, Freeze(victims));
            && b1.runtime.Keys == b.runtime.Keys
            && (forall x :: x in b.runtime ==> b1.runtime[x].leases == b.runtime[x].leases)
            && (BatchTaken(b1, ms, uuids) <==> BatchTaken(b, ms, uuids))
  {
    var b1 := After(b, Freeze(victims));
    FreezeOnlyBlocks(b, victims);
    hide After;
    forall x
      ensures BookAnswers.MayJoin(b1, Evict(ms, true, uuids), x) <==> BookAnswers.MayJoin(b, Evict(ms, true, uuids), x)
    {
    }
    hide BookAnswers.MayJoin;
  }

  lemma FreezeOnlyBlocks(b: BookState, victims: seq<ModelId>)
    ensures var b1 := After(b, Freeze(victims));
            && b1.policy == b.policy && b1.recovering == b.recovering && b1.runtime.Keys == b.runtime.Keys
            && forall x :: x in b.runtime ==>
                 b1.runtime[x] == b.runtime[x].(admissionBlocked := b1.runtime[x].admissionBlocked)
  {
    hide Vet, FreezableNow;
  }

  lemma EstablishIs(s: Sched, w: Waiter, now: Time, victims: seq<ModelId>)
    ensures var s1 := Establish(s, w, now, victims);
            var ok := s.intent.None? && victims != [] && BookAnswers.Joins(s.world.book, Freeze(victims), victims[0]);
            && s1.intent == (if ok then Some(Intent(w.requestId, w.modelId, victims,
                                                    MinTime(w.deadline, now + s.tuning.switchDrain)))
                             else s.intent)
            && s1.world.book == (if ok then After(s.world.book, Freeze(victims)) else s.world.book)
            && s1.loads == s.loads && s1.evicting == s.evicting && s1.tasks == s.tasks
  {
    BookAnswers.JoinsIff(s.world.book, Freeze(victims));
    BookOf(s, Freeze(victims));
    hide OnBook, After, Apply, BookAnswers.Joins;
  }

  /** The owner of the intent finds nobody using the frozen models. */
  ghost predicate Acts(s: Sched, w: Waiter) {
    && s.intent.Some? && s.intent.value.requestId == w.requestId
    && forall x :: x in s.intent.value.frozen && x in s.world.book.runtime ==> s.world.book.runtime[x].leases == map[]
  }

  ghost predicate EvictsSo(s: Sched, w: Waiter, uuids: map<ModelId, Uuid>, s': Sched)
    requires s.intent.Some? ==> forall m :: m in s.intent.value.frozen ==> m in uuids
  {
    var b := s.world.book;
    && s'.intent == (if Acts(s, w) then None else s.intent)
    && (s'.evicting <==> s.evicting || (Acts(s, w) && BatchTaken(b, s.intent.value.frozen, uuids)))
    && s'.world.book == (if !Acts(s, w) then b
                         else if BatchTaken(b, s.intent.value.frozen, uuids)
                         then After(b, Evict(s.intent.value.frozen, true, uuids))
                         else After(b, Unfreeze(s.intent.value.frozen)))
    && s'.loads == s.loads && s'.tasks == s.tasks
  }

  lemma EvictIs(s: Sched, w: Waiter, uuids: map<ModelId, Uuid>)
    requires s.intent.Some? ==> forall m :: m in s.intent.value.frozen ==> m in uuids
    ensures EvictsSo(s, w, uuids, EvictDrained(s, w, uuids))
  {
    if s.intent.Some? {
      BookOf(s, Evict(s.intent.value.frozen, true, uuids));
      BookOf(s, Unfreeze(s.intent.value.frozen));
      BookAnswers.JoinsIff(s.world.book, Evict(s.intent.value.frozen, true, uuids));
    }
    hide OnBook, After, Apply, BookAnswers.Joins;
  }

  lemma ForceIs(s: Sched, e: Scheduler.Step, s0: Sched)
    requires e.AdvanceAcquire? && e.t in s.tasks && NeedsRoom(s, e) && !ChoiceRaises(s, e)
    requires s0 == s.(tasks := s.tasks[e.t := s.tasks[e.t].(wantsSample := false)])
    ensures var s1, b := Establish(s0, s.tasks[e.t], e.now, Picked(e.picked)), s.world.book;
            && s1.intent == InForce(s, e)
            && s1.world.book == (if s.intent.None? && InForce(s, e).Some?
                                 then After(b, Freeze(InForce(s, e).value.frozen)) else b)
            && s1.loads == s.loads && s1.evicting == s.evicting && s1.tasks == s0.tasks
  {
    EstablishIs(s0, s.tasks[e.t], e.now, Picked(e.picked));
    hide Establish, After, BookAnswers.Joins, NeedsRoom, ChoiceRaises, Picked;
  }

  lemma SwitchIs(s: Sched, e: Scheduler.Step, s0: Sched)
    requires e.AdvanceAcquire? && e.t in s.tasks && NeedsRoom(s, e) && !ChoiceRaises(s, e)
    requires s0 == s.(tasks := s.tasks[e.t := s.tasks[e.t].(wantsSample := false)])
    requires InForce(s, e).Some? ==> forall m :: m in InForce(s, e).value.frozen ==> m in e.uuids
    requires forall m :: m in Picked(e.picked) ==> m in e.uuids
    requires s.intent.Some? ==> forall m :: m in s.intent.value.frozen ==> m in e.uuids
    ensures AdvancesSo(s, e, Switch(s0, s.tasks[e.t], e.now, Picked(e.picked), e.uuids))
  {
    var w, victims := s.tasks[e.t], Picked(e.picked);
    var s1 := Establish(s0, w, e.now, victims);
    assert !LoadStarts(s, e);
    ForceIs(s, e, s0);
    hide Establish, EvictDrained, After, BookAnswers.Joins, InForce, NeedsRoom, ChoiceRaises, Picked, LoadStarts,
         AdvancesSo, BatchTaken, Acts;
    if s1.intent.Some? {
      FreezeKeepsMembers(s.world.book, s1.intent.value.frozen, s1.intent.value.frozen, e.uuids);
    }
    EvictIs(s1, w, e.uuids);
    SwitchReads(s, e, s1, EvictDrained(s1, w, e.uuids));
  }

  lemma SwitchReads(s: Sched, e: Scheduler.Step, s1: Sched, s': Sched)
    requires e.AdvanceAcquire? && e.t in s.tasks && NeedsRoom(s, e) && !ChoiceRaises(s, e) && !LoadStarts(s, e)
    requires InForce(s, e).Some? ==> forall m :: m in InForce(s, e).value.frozen ==> m in e.uuids
    requires s1.intent == InForce(s, e) && s1.loads == s.loads && s1.evicting == s.evicting
    requires s1.tasks == s.tasks[e.t := s.tasks[e.t].(wantsSample := false)]
    requires s1.world.book == if s.intent.None? && InForce(s, e).Some?
                              then After(s.world.book, Freeze(InForce(s, e).value.frozen)) else s.world.book
    requires s1.world.book.runtime.Keys == s.world.book.runtime.Keys
    requires forall x :: x in s.world.book.runtime ==>
               s1.world.book.runtime[x].leases == s.world.book.runtime[x].leases
    requires s1.intent.Some? ==>
               (BatchTaken(s1.world.book, s1.intent.value.frozen, e.uuids) <==>
                  BatchTaken(s.world.book, s1.intent.value.frozen, e.uuids))
    requires EvictsSo(s1, s.tasks[e.t], e.uuids, s')
    ensures AdvancesSo(s, e, s')
  {
    var w := s.tasks[e.t];
    assert w.(wantsSample := false) == w.(wantsSample := false, leaving := w.leaving);
    assert FindsDrained(s, e) <==> Acts(s1, w);
    hide FindsDrained, Acts, After, BookAnswers.Joins, InForce, NeedsRoom, ChoiceRaises, LoadStarts;
  }

  lemma AdvanceIs(s: Sched, e: Scheduler.Step)
    requires e.AdvanceAcquire? && Enabled(s, e)
    ensures e.t in s.tasks && (forall m :: m in Picked(e.picked) ==> m in e.uuids)
    ensures s.intent.Some? ==> forall m :: m in s.intent.value.frozen ==> m in e.uuids
    ensures var w := s.tasks[e.t];
            var s0 := s.(tasks := s.tasks[e.t := w.(wantsSample := false)]);
            Do(s, e) == if LoadStarts(s, e) then
                          OnBook(s0, Load(w.modelId, e.sample, e.now, e.uuid)).(loads := s.loads + {w.modelId})
                        else if !NeedsRoom(s, e) then s0
                        else if ChoiceRaises(s, e) then Leaving(s0, e.t)
                        else Switch(s0, w, e.now, Picked(e.picked), e.uuids)
  {
    var w := s.tasks[e.t];
    if Cold(s, w, e.admitted) {
      StartsIff(s, e);
      if NeedsRoom(s, e) { RaisesIff(s, e); }
    }
    hide FreshIds, Eviction.IsRanking, Eviction.IsChoice, Switch, CanLoad, ChooseRaises, ChoiceRaises, OnBook, Leaving,
         Picked, BookAnswers.Loads;
  }

  /** Every such block answers so. */
  lemma AdvanceAnswers(s: Sched, e: Scheduler.Step)
    requires e.AdvanceAcquire? && Enabled(s, e)
    ensures e.t in s.tasks && (InForce(s, e).Some? ==> forall m :: m in InForce(s, e).value.frozen ==> m in e.uuids)
    ensures AdvancesSo(s, e, Do(s, e))
  {
    hide *;
    ForceHasTokens(s, e);
    AdvanceIs(s, e);
    var w := s.tasks[e.t];
    var s0 := s.(tasks := s.tasks[e.t := w.(wantsSample := false)]);
    if NeedsRoom(s, e) && !ChoiceRaises(s, e) {
      RoomIsForNoLoad(s, e);
      SwitchIs(s, e, s0);
    } else {
      PlainAnswers(s, e, s0, Do(s, e));
    }
  }

  lemma RoomIsForNoLoad(s: Sched, e: Scheduler.Step)
    requires e.AdvanceAcquire? && e.t in s.tasks && NeedsRoom(s, e)
    ensures !LoadStarts(s, e)
  {
  }

  lemma PlainAnswers(s: Sched, e: Scheduler.Step, s0: Sched, s': Sched)
    requires e.AdvanceAcquire? && e.t in s.tasks && !(NeedsRoom(s, e) && !ChoiceRaises(s, e))
    requires InForce(s, e).Some? ==> forall m :: m in InForce(s, e).value.frozen ==> m in e.uuids
    requires s0 == s.(tasks := s.tasks[e.t := s.tasks[e.t].(wantsSample := false)])
    requires s' == if LoadStarts(s, e) then
                     OnBook(s0, Load(s.tasks[e.t].modelId, e.sample, e.now, e.uuid))
                     .(loads := s.loads + {s.tasks[e.t].modelId})
                   else if !NeedsRoom(s, e) then s0
                   else Leaving(s0, e.t)
    ensures AdvancesSo(s, e, s')
  {
    var w := s.tasks[e.t];
    if LoadStarts(s, e) { assert !NeedsRoom(s, e); }
    assert ChoiceRaises(s, e) ==> NeedsRoom(s, e);
    BookOf(s0, Load(w.modelId, e.sample, e.now, e.uuid));
    hide OnBook, After, LoadStarts, NeedsRoom, ChoiceRaises, InForce, AdvancesSo;
    assert w.(wantsSample := false) == w.(wantsSample := false, leaving := w.leaving);
    PlainlyAdvances(s, e, s');
  }

  lemma PlainlyAdvances(s: Sched, e: Scheduler.Step, s': Sched)
    requires e.AdvanceAcquire? && e.t in s.tasks && !(NeedsRoom(s, e) && !ChoiceRaises(s, e))
    requires InForce(s, e).Some? ==> forall m :: m in InForce(s, e).value.frozen ==> m in e.uuids
    requires s'.intent == s.intent && s'.evicting == s.evicting
    requires s'.loads == (if LoadStarts(s, e) then s.loads + {s.tasks[e.t].modelId} else s.loads)
    requires s'.world.book == if LoadStarts(s, e)
                              then After(s.world.book, Load(s.tasks[e.t].modelId, e.sample, e.now, e.uuid))
                              else s.world.book
    requires s'.tasks == s.tasks[e.t := s.tasks[e.t].(wantsSample := false,
                                                      leaving := s.tasks[e.t].leaving || ChoiceRaises(s, e))]
    ensures AdvancesSo(s, e, s')
  {
    assert InForce(s, e) == s.intent && !FindsDrained(s, e);
    hide InForce, FindsDrained, LoadStarts, After;
  }

  /** In every schedule a switch begins if and only if such a block finds victims it can freeze all, some of
      them still lent out; and it is then exactly that switch. */
  lemma SwitchBeginsIff(ss: seq<Sched>, es: seq<Scheduler.Step>, i: nat)
    requires IsSchedule(ss, es) && i < |es| && ss[i].intent.None?
    ensures ss[i + 1].intent.Some? <==>
              && es[i].AdvanceAcquire? && es[i].t in ss[i].tasks && InForce(ss[i], es[i]).Some?
              && !FindsDrained(ss[i], es[i])
    ensures ss[i + 1].intent.Some? ==> ss[i + 1].intent == InForce(ss[i], es[i])
  {
    hide Do, Enabled, InForce, FindsDrained;
    if es[i].AdvanceAcquire? {
      AdvanceAnswers(ss[i], es[i]);
    } else if es[i].LookAcquire? {
      LookBegins(ss[i], es[i]);
    } else if es[i].LeaveAcquire? {
      LeaveEndsIntent(ss[i], es[i]);
    } else {
      OthersKeepIntent(ss[i], es[i]);
    }
  }

  lemma LookBegins(s: Sched, e: Scheduler.Step)
    requires e.LookAcquire? && Enabled(s, e) && s.intent.None?
    ensures Do(s, e).intent.None?
  {
    hide Next, IsHead, Apply, CanAdmitReady;
  }
}
