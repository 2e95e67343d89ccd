/** What every run of the scheduler keeps: a switch never loses a freeze, exclusive sessions are
    exclusive, and each run is a run of the residency book. */
module SchedulerRuns {
  import opened Prelude
  import opened BookModel
  import opened BookRuns
  import opened RequestQueue
  import opened SessionManager
  import opened Scheduler
  import Eviction = EvictionPolicy

  // ---- what one book call does to the parts the scheduler relies on -----------------------

  predicate LeasedIn(b: BookState, m: ModelId, id: Uuid) {
    m in b.runtime && id in b.runtime[m].leases
  }

  lemma CallKeepsKeys(b: BookState, c: Call)
    requires WellFormed(c)
    ensures After(b, c).runtime.Keys == b.runtime.Keys && After(b, c).policy == b.policy
  {
    hide CanLoad, Vet, OwnsLease, EvictableNow, CleanableNow, FreezableNow, AnyLease, Distinct;
  }

  /** Only `acquire_ready` adds a lease, and it adds the one it drew. */
  lemma LeasesComeFromAcquire(b: BookState, c: Call, m: ModelId, id: Uuid)
    requires WellFormed(c) && LeasedIn(After(b, c), m, id)
    ensures LeasedIn(b, m, id) || (c.Acquire? && id == c.uuid)
  {
  }

  lemma EvictedIsNotReady(b: BookState, c: Call, m: ModelId)
    requires WellFormed(c) && c.Evict? && Apply(b, c).Ok? && m in c.ms
    ensures !FrozenReady(After(b, c), m)
  {
  }

  /** A freeze is accepted only for known models. */
  lemma FrozenAreKnown(b: BookState, ms: seq<ModelId>, m: ModelId)
    requires Apply(b, Freeze(ms)).Ok? && m in ms
    ensures m in b.runtime
  {
    VetMeaning(b, ms, FreezableNow(b));
  }

  // ---- every scheduler run is a run of the book -------------------------------------------

  ghost predicate Reaches(w: World, w': World) {
    exists ws, cs :: IsRun(ws, cs) && ws[0] == w && ws[|cs|] == w'
  }

  lemma ReachesItself(w: World)
    ensures Reaches(w, w)
  {
    var ws: seq<World>, cs: seq<Call> := [w], [];
    assert IsRun(ws, cs);
  }

  lemma ReachesNext(w: World, w': World, c: Call)
    requires Reaches(w, w') && FreshCall(w', c)
    ensures Reaches(w, Next(w', c))
  {
    hide Next;
    var ws, cs :| IsRun(ws, cs) && ws[0] == w && ws[|cs|] == w';
    var ws', cs' := ws + [Next(w', c)], cs + [c];
    forall i | 0 <= i < |cs'|
      ensures BookRuns.Step(ws'[i], cs'[i], ws'[i + 1])
    {
      assert i < |cs| ==> BookRuns.Step(ws[i], cs[i], ws[i + 1]);
    }
    assert IsRun(ws', cs') && ws'[|cs'|] == Next(w', c);
  }

  lemma ReachesOn(w: World, w': World, w'': World)
    requires Reaches(w, w') && Reaches(w', w'')
    ensures Reaches(w, w'')
  {
    hide BookRuns.Step;
    var ws, cs :| IsRun(ws, cs) && ws[0] == w && ws[|cs|] == w';
    var ws', cs' :| IsRun(ws', cs') && ws'[0] == w' && ws'[|cs'|] == w'';
    var vs, ds := ws + ws'[1..], cs + cs';
    forall i | 0 <= i < |ds|
      ensures BookRuns.Step(vs[i], ds[i], vs[i + 1])
    {
      if i < |cs| {
        assert BookRuns.Step(ws[i], cs[i], ws[i + 1]);
      } else {
        var k := i - |cs|;
        assert BookRuns.Step(ws'[k], cs'[k], ws'[k + 1]);
        assert vs[i] == ws'[k] && vs[i + 1] == ws'[k + 1];
      }
    }
    assert IsRun(vs, ds) && vs[|ds|] == w'';
  }

  // ---- the invariant ----------------------------------------------------------------------

  predicate HasWaiter(s: Sched, req: RequestId) {
    exists t :: t in s.tasks && s.tasks[t].requestId == req
  }

  /** A live `acquire` for this request, or one that was cut before it could clean up. */
  predicate Owned(s: Sched, req: RequestId) {
    HasWaiter(s, req) || req in s.cut
  }

  /** Every frozen ready model belongs to the current intent, and that is owned. */
  ghost predicate SwitchInv(s: Sched) {
    && WorldInv(s.world)
    && (forall m :: FrozenReady(s.world.book, m) ==> s.intent.Some? && m in s.intent.value.frozen)
    && (s.intent.Some? ==>
          && (forall m :: m in s.intent.value.frozen ==> m in s.world.book.runtime)
          && Owned(s, s.intent.value.requestId))
  }

  predicate StillPreparing(s: Sched, sid: SessionId) {
    sid in s.sessions.records && s.sessions.records[sid].phase.Preparing?
  }

  /** From the end of the drain wait of a session still preparing until it stops being active. */
  predicate Exclusive(s: Sched) {
    || s.sessions.activeId.Some?
    || (s.worker.Preloading? && StillPreparing(s, s.worker.sid))
  }

  predicate NamesSession(w: Worker) {
    !w.Dead? && !w.Exiting? && !w.Idle?
  }

  predicate IsGranting(w: Worker) {
    (w.Planned? && w.action.ActPrepare?) || w.DrainWait? || w.TimedOut? || w.Preloading? || w.Abandoning?
  }

  ghost predicate NoInteractiveLease(s: Sched) {
    forall m, id :: LeasedIn(s.world.book, m, id) ==> id !in s.interactive
  }

  /** An interactive `acquire` never waits behind a session's queue entry. */
  ghost predicate KindsApart(s: Sched) {
    forall t :: t in s.tasks && s.tasks[t].session.None? && s.tasks[t].requestId in s.queue.items ==>
                  s.queue.items[s.tasks[t].requestId].kind.Interactive?
  }

  predicate WorkerOk(s: Sched) {
    && (NamesSession(s.worker) ==> s.worker.sid in s.sessions.records)
    && (IsGranting(s.worker) ==> s.sessions.activeId.None?)
    && ((s.worker.DrainWait? || s.worker.TimedOut? || s.worker.Preloading?) && StillPreparing(s, s.worker.sid) ==>
          s.sessionFreeze == Some(s.worker.sid))
  }

  ghost predicate SessionInv(s: Sched) {
    && s.queue.aging > 0.0
    && ActiveNamed(s.sessions)
    && (s.sessions.activeId.Some? ==> s.sessionFreeze == s.sessions.activeId)
    && WorkerOk(s)
    && (Exclusive(s) ==> NoInteractiveLease(s))
    && s.interactive <= s.world.drawn
    && KindsApart(s)
  }

  // ---- book calls keep it -----------------------------------------------------------------

  lemma OnBookKeeps(s: Sched, c: Call)
    requires SwitchInv(s) && FreshCall(s.world, c) && !c.Freeze?
    ensures SwitchInv(OnBook(s, c)) && Reaches(s.world, OnBook(s, c).world)
  {
    hide WorldInv, After, Apply, Issues, Inv;
    var s' := OnBook(s, c);
    assert s'.world.book == After(s.world.book, c);
    ReachesItself(s.world);
    ReachesNext(s.world, s.world, c);
    CallKeepsWorld(s.world, c);
    assert Inv(s.world.book) by { InvOf(s.world); }
    CallKeepsKeys(s.world.book, c);
    forall m | FrozenReady(s'.world.book, m)
      ensures FrozenReady(s.world.book, m)
    {
      OnlyFreezeBlocksReady(s.world.book, c, m);
    }
    assert s'.tasks == s.tasks && s'.intent == s.intent;
    assert s.intent.Some? ==> Owned(s', s.intent.value.requestId);
  }

  lemma InvOf(w: World)
    requires WorldInv(w)
    ensures Inv(w.book)
  {
  }

  lemma OnBookKeepsSessions(s: Sched, c: Call)
    requires SessionInv(s) && FreshCall(s.world, c) && !c.Acquire?
    ensures SessionInv(OnBook(s, c))
  {
    hide After, Issues, ActiveNamed;
    var s' := OnBook(s, c);
    forall m, id | LeasedIn(s'.world.book, m, id)
      ensures LeasedIn(s.world.book, m, id)
    {
      LeasesComeFromAcquire(s.world.book, c, m, id);
    }
    assert KindsApart(s');
  }

  /** Dropping the intent reopens every ready model. */
  lemma DropIntentKeeps(s: Sched)
    requires SwitchInv(s) && s.intent.Some?
    ensures SwitchInv(DropIntent(s)) && Reaches(s.world, DropIntent(s).world)
    ensures forall m :: !FrozenReady(DropIntent(s).world.book, m)
  {
    hide WorldInv, After, Next, OnBook, Inv;
    var c := Unfreeze(s.intent.value.frozen);
    OnBookKeeps(s, c);
    assert OnBook(s, c).world.book == After(s.world.book, c) by { BookOf(s, c); }
    assert Inv(s.world.book) by { InvOf(s.world); }
    assert DropIntent(s).world == OnBook(s, c).world;
    forall m | m in s.intent.value.frozen
      ensures !FrozenReady(After(s.world.book, c), m)
    {
      UnfreezeReopens(s.world.book, s.intent.value.frozen, m);
    }
    assert OnBook(s, c).intent == s.intent by { BookOf(s, c); }
  }

  lemma BookOf(s: Sched, c: Call)
    requires WellFormed(c)
    ensures OnBook(s, c).world.book == After(s.world.book, c)
    ensures OnBook(s, c) == s.(world := OnBook(s, c).world)
  {
    hide After, Issues;
  }

  // ---- the blocks of acquire --------------------------------------------------------------

  ghost predicate SchedInv(s: Sched) {
    SwitchInv(s) && SessionInv(s)
  }

  ghost predicate Keeps(s: Sched, s': Sched) {
    SchedInv(s') && Reaches(s.world, s'.world)
  }

  predicate SameWaiter(w: Waiter, w': Waiter) {
    w'.requestId == w.requestId && w'.session == w.session
  }

  lemma WaiterChangeKeeps(s: Sched, t: TaskId, w: Waiter)
    requires SchedInv(s) && t in s.tasks && SameWaiter(s.tasks[t], w)
    ensures SchedInv(s.(tasks := s.tasks[t := w]))
  {
    hide WorldInv, ActiveNamed;
    var s' := s.(tasks := s.tasks[t := w]);
    if s.intent.Some? && HasWaiter(s, s.intent.value.requestId) {
      var x :| x in s.tasks && s.tasks[x].requestId == s.intent.value.requestId;
      assert x in s'.tasks && s'.tasks[x].requestId == s.intent.value.requestId;
      assert Owned(s', s.intent.value.requestId);
    }
    assert NoInteractiveLease(s) ==> NoInteractiveLease(s');
    assert KindsApart(s');
  }

  predicate Shrinks(q: Queue, q': Queue) {
    q'.aging == q.aging && forall id :: id in q'.items ==> id in q.items && q'.items[id] == q.items[id]
  }

  lemma QueueShrinkKeeps(s: Sched, q: Queue)
    requires SchedInv(s) && Shrinks(s.queue, q)
    ensures SchedInv(s.(queue := q))
  {
    hide WorldInv, ActiveNamed;
    var s' := s.(queue := q);
    assert s.intent.Some? ==> Owned(s', s.intent.value.requestId);
    assert NoInteractiveLease(s) ==> NoInteractiveLease(s');
    assert KindsApart(s');
  }

  lemma DropKeeps(s: Sched)
    requires SchedInv(s) && s.intent.Some?
    ensures Keeps(s, DropIntent(s))
    ensures forall m :: !FrozenReady(DropIntent(s).world.book, m)
  {
    hide WorldInv, Next;
    DropIntentKeeps(s);
    var c := Unfreeze(s.intent.value.frozen);
    OnBookKeepsSessions(s, c);
    var s1, s' := OnBook(s, c), DropIntent(s);
    assert s' == s1.(intent := None);
    assert NoInteractiveLease(s1) ==> NoInteractiveLease(s');
    assert KindsApart(s');
  }

  lemma RetryTimesKeep(s: Sched, next: map<ModelId, Time>)
    requires SchedInv(s)
    ensures SchedInv(s.(nextSwitch := next))
  {
    hide WorldInv, ActiveNamed;
    var s' := s.(nextSwitch := next);
    assert s.intent.Some? ==> Owned(s', s.intent.value.requestId);
    assert NoInteractiveLease(s) ==> NoInteractiveLease(s');
    assert KindsApart(s');
  }

  lemma ExpireKeepsIntent(s: Sched, now: Time)
    requires SchedInv(s)
    ensures Keeps(s, ExpireIntent(s, now))
    ensures ExpireIntent(s, now).tasks == s.tasks && ExpireIntent(s, now).queue == s.queue
    ensures ExpireIntent(s, now).world.drawn == s.world.drawn
  {
    hide SchedInv, Reaches;
    ReachesItself(s.world);
    if s.intent.Some? {
      DropKeeps(s);
      RetryTimesKeep(DropIntent(s), s.nextSwitch[s.intent.value.targetId := now + s.tuning.switchRetry]);
    }
  }

  /** A new waiter, of either kind, whose id no other kind of waiter is using. */
  lemma ArrivalKeeps(s: Sched, q: Queue, item: Item, t: TaskId, w: Waiter)
    requires SchedInv(s) && Shrinks(s.queue, q) && t !in s.tasks && item.requestId == w.requestId
    requires w.session.None? ==> item.kind.Interactive?
    requires w.session.Some? ==> ApartFromInteractive(s, w.requestId)
    requires item.requestId !in q.items
    ensures SchedInv(s.(queue := RequestQueue.Put(q, item).(sequence := q.sequence + 1), tasks := s.tasks[t := w]))
  {
    hide WorldInv, ActiveNamed;
    var s' := s.(queue := RequestQueue.Put(q, item).(sequence := q.sequence + 1), tasks := s.tasks[t := w]);
    if s.intent.Some? && HasWaiter(s, s.intent.value.requestId) {
      var x :| x in s.tasks && s.tasks[x].requestId == s.intent.value.requestId;
      assert x in s'.tasks && s'.tasks[x].requestId == s.intent.value.requestId;
      assert Owned(s', s.intent.value.requestId);
    }
    assert NoInteractiveLease(s) ==> NoInteractiveLease(s');
    assert KindsApart(s');
  }

  lemma EnterKeeps(s: Sched, t: TaskId, req: RequestId, m: ModelId, deadline: Time, session: Option<SessionId>,
                   now: Time)
    requires SchedInv(s) && t !in s.tasks && (session.Some? ==> ApartFromInteractive(s, req))
    ensures Keeps(s, Enter(s, t, req, m, deadline, session, now))
  {
    hide SchedInv, Reaches, ApartFromInteractive;
    var s' := Enter(s, t, req, m, deadline, session, now);
    ReachesItself(s.world);
    var q := ExpireAt(s.queue, now);
    QueueShrinkKeeps(s, q);
    if t in s'.tasks {
      ArrivalKeeps(s, q, s'.queue.items[req], t, s'.tasks[t]);
      assert s'.queue == RequestQueue.Put(q, s'.queue.items[req]).(sequence := q.sequence + 1);
    }
  }

  /** The eligibility filter at work: while a session holds the freeze no interactive waiter is
      ever the head. */
  lemma FreezeFiltersInteractive(s: Sched, t: TaskId, now: Time)
    requires SessionInv(s) && t in s.tasks && s.tasks[t].session.None?
    requires IsHead(s.queue, now, EligibleAt(s, now), s.tasks[t].requestId)
    ensures s.sessionFreeze.None?
  {
    hide ActiveNamed, NoInteractiveLease, IsHead;
    var req := s.tasks[t].requestId;
    assert req in Contenders(s.queue, now, EligibleAt(s, now)) by {
      HeadContends(s.queue, now, EligibleAt(s, now), req);
    }
    assert KindsApart(s);
    assert ColdEligible(s, s.queue.items[req], now);
  }

  lemma HeadContends(q: Queue, now: Time, eligible: Item -> bool, id: RequestId)
    requires q.aging > 0.0 && IsHead(q, now, eligible, id)
    ensures id in Contenders(q, now, eligible)
  {
  }

  lemma GrantKeeps(s: Sched, t: TaskId, uuid: Uuid)
    requires SchedInv(s) && t in s.tasks && uuid !in s.world.drawn
    requires s.tasks[t].session.None? ==> s.sessionFreeze.None?
    ensures Keeps(s, Grant(s, t, uuid))
  {
    hide WorldInv, ActiveNamed, After, Issues, Reaches;
    var w := s.tasks[t];
    var c := Acquire(w.modelId, w.requestId, uuid);
    OnBookKeeps(s, c);
    var s1 := OnBook(s, c);
    var s' := Grant(s, t, uuid);
    assert s'.world == s1.world && s1.world.drawn == s.world.drawn + {uuid};
    forall m, id | Exclusive(s') && LeasedIn(s'.world.book, m, id)
      ensures id !in s'.interactive
    {
      LeasesComeFromAcquire(s.world.book, c, m, id);
    }
    if s.intent.Some? && HasWaiter(s, s.intent.value.requestId) {
      var x :| x in s.tasks && s.tasks[x].requestId == s.intent.value.requestId;
      assert x in s'.tasks && s'.tasks[x].requestId == s.intent.value.requestId;
      assert Owned(s', s.intent.value.requestId);
    }
    assert KindsApart(s');
  }

  lemma LookKeeps(s: Sched, e: Scheduler.Step)
    requires SchedInv(s) && e.LookAcquire? && Enabled(s, e)
    ensures Keeps(s, Do(s, e))
  {
    hide SchedInv, SessionInv, SwitchInv, Reaches, ExpireIntent, IsHead, CanAdmitReady, Apply, OnBook, Grant,
         WorldInv, After, Issues;
    var t, now := e.t, e.now;
    ExpireKeepsIntent(s, now);
    var s1 := ExpireIntent(s, now);
    var w := s.tasks[t];
    ReachesItself(s1.world);
    var s2 := s1.(queue := ExpireAt(s1.queue, now));
    QueueShrinkKeeps(s1, Without(s1.queue, w.requestId));
    QueueShrinkKeeps(s1, ExpireAt(s1.queue, now));
    WaiterChangeKeeps(s1, t, w.(leaving := true));
    WaiterChangeKeeps(s1.(queue := Without(s1.queue, w.requestId)), t, w.(leaving := true));
    WaiterChangeKeeps(s2, t, w.(leaving := true));
    WaiterChangeKeeps(s2, t, w.(wantsSample := true));
    WaiterChangeKeeps(s2, t, w.(wantsSample := false));
    if IsHead(s1.queue, now, EligibleAt(s1, now), w.requestId) {
      if w.session.None? {
        assert SessionInv(s1) by { PartsOf(s1); }
        FreezeFiltersInteractive(s1, t, now);
      }
      GrantKeeps(s2, t, e.uuid);
      ReachesOn(s.world, s2.world, Grant(s2, t, e.uuid).world);
    }
  }

  lemma PartsOf(s: Sched)
    requires SchedInv(s)
    ensures SwitchInv(s) && SessionInv(s)
  {
    hide SwitchInv, SessionInv;
  }

  lemma LeaveKeeps(s: Sched, t: TaskId)
    requires SchedInv(s) && t in s.tasks
    ensures Keeps(s, Leave(s, t))
  {
    hide WorldInv, ActiveNamed, Reaches, Next;
    var req := s.tasks[t].requestId;
    var q, tasks := Without(s.queue, req), s.tasks - {t};
    var s' := Leave(s, t);
    ReachesItself(s.world);
    if s.intent.Some? && s.intent.value.requestId == req {
      DropKeeps(s);
      var d := DropIntent(s);
      assert s' == d.(queue := q, tasks := tasks);
      assert NoInteractiveLease(d) ==> NoInteractiveLease(s');
      assert KindsApart(s');
    } else {
      assert s' == s.(queue := q, tasks := tasks);
      if s.intent.Some? && HasWaiter(s, s.intent.value.requestId) {
        var x :| x in s.tasks && s.tasks[x].requestId == s.intent.value.requestId;
        assert x in s'.tasks && s'.tasks[x].requestId == s.intent.value.requestId;
        assert Owned(s', s.intent.value.requestId);
      }
      assert NoInteractiveLease(s) ==> NoInteractiveLease(s');
      assert KindsApart(s');
    }
  }

  lemma IntentChangeKeepsSessions(s: Sched, intent: Option<Intent>, evicting: bool)
    requires SessionInv(s)
    ensures SessionInv(s.(intent := intent, evicting := evicting))
  {
    hide ActiveNamed;
    var s' := s.(intent := intent, evicting := evicting);
    assert NoInteractiveLease(s) ==> NoInteractiveLease(s');
    assert KindsApart(s');
  }

  /** A cut leaves everything but the waiter as it is, and is remembered. */
  lemma CutKeeps(s: Sched, t: TaskId)
    requires SchedInv(s) && t in s.tasks
    ensures Keeps(s, SkipLeave(s, t))
  {
    hide WorldInv, ActiveNamed, Reaches;
    var s' := SkipLeave(s, t);
    ReachesItself(s.world);
    if s.intent.Some? && HasWaiter(s, s.intent.value.requestId) {
      var x :| x in s.tasks && s.tasks[x].requestId == s.intent.value.requestId;
      assert x == t || x in s'.tasks;
      assert Owned(s', s.intent.value.requestId);
    }
    assert NoInteractiveLease(s) ==> NoInteractiveLease(s');
    assert KindsApart(s');
  }

  lemma FreezeKeeps(s: Sched, intent: Intent)
    requires SchedInv(s) && s.intent.None? && Apply(s.world.book, Freeze(intent.frozen)).Ok?
    requires HasWaiter(s, intent.requestId)
    ensures Keeps(s, OnBook(s, Freeze(intent.frozen)).(intent := Some(intent)))
  {
    hide WorldInv, After, Apply, Issues, Inv, SessionInv;
    var c := Freeze(intent.frozen);
    var s1 := OnBook(s, c);
    var s' := s1.(intent := Some(intent));
    ReachesItself(s.world);
    ReachesNext(s.world, s.world, c);
    CallKeepsWorld(s.world, c);
    InvOf(s.world);
    CallKeepsKeys(s.world.book, c);
    forall m | FrozenReady(s'.world.book, m)
      ensures m in intent.frozen
    {
      OnlyFreezeBlocksReady(s.world.book, c, m);
    }
    forall m | m in intent.frozen
      ensures m in s'.world.book.runtime
    {
      FrozenAreKnown(s.world.book, intent.frozen, m);
    }
    assert s'.tasks == s.tasks;
    OnBookKeepsSessions(s, c);
    IntentChangeKeepsSessions(s1, Some(intent), s1.evicting);
    assert s' == s1.(intent := Some(intent), evicting := s1.evicting);
  }

  lemma EvictFrozenKeeps(s: Sched, uuids: map<ModelId, Uuid>)
    requires SchedInv(s) && s.intent.Some?
    requires FreshCall(s.world, Evict(s.intent.value.frozen, true, uuids))
    requires Apply(s.world.book, Evict(s.intent.value.frozen, true, uuids)).Ok?
    ensures Keeps(s, OnBook(s, Evict(s.intent.value.frozen, true, uuids)).(intent := None, evicting := true))
  {
    hide WorldInv, After, Apply, Issues, Inv, SessionInv;
    var c := Evict(s.intent.value.frozen, true, uuids);
    OnBookKeeps(s, c);
    OnBookKeepsSessions(s, c);
    var s1 := OnBook(s, c);
    assert s1.world.book == After(s.world.book, c);
    forall m | m in s.intent.value.frozen
      ensures !FrozenReady(s1.world.book, m)
    {
      EvictedIsNotReady(s.world.book, c, m);
    }
    IntentChangeKeepsSessions(s1, None, true);
  }

  lemma FreshEvict(w: World, ms: seq<ModelId>, uuids: map<ModelId, Uuid>)
    requires forall m :: m in ms ==> m in uuids
    requires Range(uuids) !! w.drawn
    requires forall m, m' :: m in uuids && m' in uuids && uuids[m] == uuids[m'] ==> m == m'
    ensures FreshCall(w, Evict(ms, true, uuids))
  {
    var c := Evict(ms, true, uuids);
    forall id | id in Draws(c)
      ensures id in Range(uuids)
    {
    }
  }

  lemma SwitchKeeps(s: Sched, w: Waiter, now: Time, chosen: seq<ModelId>, uuids: map<ModelId, Uuid>)
    requires SchedInv(s) && HasWaiter(s, w.requestId)
    requires forall m :: m in chosen ==> m in uuids
    requires s.intent.Some? ==> forall m :: m in s.intent.value.frozen ==> m in uuids
    requires Range(uuids) !! s.world.drawn
    requires forall m, m' :: m in uuids && m' in uuids && uuids[m] == uuids[m'] ==> m == m'
    ensures Keeps(s, Switch(s, w, now, chosen, uuids))
  {
    hide SchedInv, Reaches, Establish, EvictDrained;
    EstablishKeeps(s, w, now, chosen);
    var s1 := Establish(s, w, now, chosen);
    EvictDrainedKeeps(s1, w, uuids);
    ReachesOn(s.world, s1.world, EvictDrained(s1, w, uuids).world);
  }

  lemma EstablishKeeps(s: Sched, w: Waiter, now: Time, chosen: seq<ModelId>)
    requires SchedInv(s) && HasWaiter(s, w.requestId)
    ensures var s1 := Establish(s, w, now, chosen);
            && Keeps(s, s1) && s1.world.drawn == s.world.drawn
            && (s1.intent == s.intent || (s1.intent.Some? && s1.intent.value.frozen == chosen))
  {
    hide SchedInv, Reaches, Apply, After, Issues;
    ReachesItself(s.world);
    if s.intent.None? && chosen != [] && Apply(s.world.book, Freeze(chosen)).Ok? {
      FreezeKeeps(s, Intent(w.requestId, w.modelId, chosen, MinTime(w.deadline, now + s.tuning.switchDrain)));
    }
  }

  lemma EvictDrainedKeeps(s: Sched, w: Waiter, uuids: map<ModelId, Uuid>)
    requires SchedInv(s) && (s.intent.Some? ==> forall m :: m in s.intent.value.frozen ==> m in uuids)
    requires Range(uuids) !! s.world.drawn
    requires forall m, m' :: m in uuids && m' in uuids && uuids[m] == uuids[m'] ==> m == m'
    ensures Keeps(s, EvictDrained(s, w, uuids))
  {
    hide SchedInv, Reaches, Apply, After, Issues;
    ReachesItself(s.world);
    if s.intent.Some? {
      var frozen := s.intent.value.frozen;
      FreshEvict(s.world, frozen, uuids);
      hide Next, FreshCall;
      if Apply(s.world.book, Evict(frozen, true, uuids)).Ok? { EvictFrozenKeeps(s, uuids); }
      DropKeeps(s);
    }
  }

  lemma LoadsChangeKeeps(s: Sched, loads: set<ModelId>, evicting: bool, cold: Time)
    requires SchedInv(s)
    ensures SchedInv(s.(loads := loads, evicting := evicting, coldNotBefore := cold))
  {
    hide WorldInv, ActiveNamed;
    var s' := s.(loads := loads, evicting := evicting, coldNotBefore := cold);
    assert s.intent.Some? ==> Owned(s', s.intent.value.requestId);
    assert NoInteractiveLease(s) ==> NoInteractiveLease(s');
    assert KindsApart(s');
  }

  lemma OtherKeeps(s: Sched, c: Call, loads: set<ModelId>, evicting: bool, cold: Time)
    requires SchedInv(s) && FreshCall(s.world, c) && !c.Acquire? && !c.Freeze?
    ensures Keeps(s, OnBook(s, c).(loads := loads, evicting := evicting, coldNotBefore := cold))
  {
    hide SwitchInv, SessionInv, Reaches;
    OnBookKeeps(s, c);
    OnBookKeepsSessions(s, c);
    LoadsChangeKeeps(OnBook(s, c), loads, evicting, cold);
  }

  lemma AdvanceKeeps(s: Sched, t: TaskId, now: Time, sample: MemorySample, admitted: bool, uuid: Uuid,
                     chosen: seq<ModelId>, uuids: map<ModelId, Uuid>)
    requires SchedInv(s) && t in s.tasks && FreshIds(s, uuid, uuids)
    requires forall m :: m in chosen ==> m in uuids
    requires s.intent.Some? ==> forall m :: m in s.intent.value.frozen ==> m in uuids
    ensures Keeps(s, Advance(s, t, now, sample, admitted, uuid, chosen, uuids))
  {
    hide SchedInv, Reaches, CanLoad, Switch, Next, ChooseRaises;
    var w := s.tasks[t];
    var s0 := s.(tasks := s.tasks[t := w.(wantsSample := false)]);
    ReachesItself(s.world);
    WaiterChangeKeeps(s, t, w.(wantsSample := false));
    assert t in s0.tasks && s0.tasks[t].requestId == w.requestId;
    assert HasWaiter(s0, w.requestId);
    OtherKeeps(s0, Load(w.modelId, sample, now, uuid), s.loads + {w.modelId}, s.evicting, s.coldNotBefore);
    assert OnBook(s0, Load(w.modelId, sample, now, uuid)).(loads := s.loads + {w.modelId})
        == OnBook(s0, Load(w.modelId, sample, now, uuid)).(loads := s.loads + {w.modelId}, evicting := s.evicting,
                                                           coldNotBefore := s.coldNotBefore);
    SwitchKeeps(s0, w, now, chosen, uuids);
    WaiterChangeKeeps(s0, t, s0.tasks[t].(leaving := true));
  }

  // ---- the session blocks -----------------------------------------------------------------

  /** The blocks below touch neither the book nor the waiting calls. */
  predicate SameSwitch(s: Sched, s': Sched) {
    s'.world == s.world && s'.tasks == s.tasks && s'.intent == s.intent && s'.interactive == s.interactive
    && s'.cut == s.cut
  }

  lemma SessionBlockKeeps(s: Sched, s': Sched)
    requires SchedInv(s) && SameSwitch(s, s') && SessionInv(s')
    ensures Keeps(s, s')
  {
    hide WorldInv, SessionInv;
    ReachesItself(s.world);
    assert s.intent.Some? ==> Owned(s', s.intent.value.requestId);
  }

  ghost predicate SessionSafe(s: Sched) {
    && ActiveNamed(s.sessions)
    && (s.sessions.activeId.Some? ==> s.sessionFreeze == s.sessions.activeId)
    && WorkerOk(s)
  }

  /** What a session block has to show: the queue only loses entries, and nothing becomes
      exclusive that was not. */
  lemma SessionStep(s: Sched, s': Sched)
    requires SchedInv(s) && SameSwitch(s, s') && Shrinks(s.queue, s'.queue)
    requires SessionSafe(s')
    requires Exclusive(s') ==> Exclusive(s) || NoInteractiveLease(s)
    ensures Keeps(s, s')
  {
    hide WorldInv, ActiveNamed, WorkerOk;
    assert NoInteractiveLease(s) ==> NoInteractiveLease(s');
    assert KindsApart(s');
    SessionBlockKeeps(s, s');
  }

  lemma SafeOf(s: Sched)
    requires SchedInv(s)
    ensures SessionSafe(s)
  {
    hide WorldInv, ActiveNamed, WorkerOk;
  }

  lemma RegisterKeeps(s: Sched, sid: SessionId, m: ModelId, priority: int, hard: Time, now: Time)
    requires SchedInv(s) && ApartFromInteractive(s, sid)
    ensures Keeps(s, Register(s, sid, m, priority, hard, now))
  {
    hide SchedInv, Reaches, NewRecord, NewItem, ApartFromInteractive;
    var s' := Register(s, sid, m, priority, hard, now);
    ReachesItself(s.world);
    var q := ExpireAt(s.queue, now);
    QueueShrinkKeeps(s, q);
    if s'.sessions != s.sessions {
      var r := NewRecord(s.sessions.limits, m, now, MinTime(hard, s.sessions.limits.hardSeconds));
      var item := NewItem(q, sid, m, priority, r.waitDeadline, now, Session);
      NewIsPreparing(s.sessions.limits, m, now, MinTime(hard, s.sessions.limits.hardSeconds));
      NewAsAsked(q, sid, m, priority, r.waitDeadline, now, Session);
      SessionArrives(s, q, item, sid, r);
    }
  }

  lemma SessionArrives(s: Sched, q: Queue, item: Item, sid: SessionId, r: SessionRecord)
    requires SchedInv(s) && Shrinks(s.queue, q) && ApartFromInteractive(s, sid)
    requires item.requestId == sid && r.phase.Preparing? && sid !in s.sessions.records
    ensures Keeps(s, EnsureWorker(s.(queue := RequestQueue.Put(q, item).(sequence := q.sequence + 1),
                                     sessions := SessionManager.Put(s.sessions, sid, r))))
  {
    hide SchedInv, ActiveNamed, NoInteractiveLease, ApartFromInteractive, KindsApart;
    var s1 := s.(sessions := SessionManager.Put(s.sessions, sid, r));
    SafeOf(s);
    ArrivalKeepsActive(s.sessions, sid, r);
    SessionStep(s, EnsureWorker(s1));
    var q' := RequestQueue.Put(q, item).(sequence := q.sequence + 1);
    SessionWaiterArrives(EnsureWorker(s1), s, q, item);
    assert EnsureWorker(s1).(queue := q') == EnsureWorker(s1.(queue := q'));
    assert s1.(queue := q') == s.(queue := q', sessions := SessionManager.Put(s.sessions, sid, r));
  }

  lemma SessionWaiterArrives(s: Sched, before: Sched, q: Queue, item: Item)
    requires SchedInv(s) && Shrinks(s.queue, q) && s.tasks == before.tasks
    requires ApartFromInteractive(before, item.requestId)
    ensures SchedInv(s.(queue := RequestQueue.Put(q, item).(sequence := q.sequence + 1)))
  {
    hide WorldInv, ActiveNamed;
    var s' := s.(queue := RequestQueue.Put(q, item).(sequence := q.sequence + 1));
    assert s.intent.Some? ==> Owned(s', s.intent.value.requestId);
    assert NoInteractiveLease(s) ==> NoInteractiveLease(s');
    assert KindsApart(s');
  }

  lemma ArrivalKeepsActive(ses: Sessions, sid: SessionId, r: SessionRecord)
    requires ActiveNamed(ses) && r.phase.Preparing? && sid !in ses.records
    ensures ActiveNamed(SessionManager.Put(ses, sid, r))
  {
  }

  lemma NewAsAsked(q: Queue, id: RequestId, m: ModelId, priority: int, deadline: Time, now: Time, kind: WaitKind)
    ensures NewItem(q, id, m, priority, deadline, now, kind).requestId == id
  {
  }

  lemma NewIsPreparing(l: Limits, m: ModelId, now: Time, hard: Time)
    ensures NewRecord(l, m, now, hard).phase.Preparing?
  {
  }

  /** Drain, close and block all leave a phase that is neither active nor preparing. */
  lemma RetireKeepsActive(ses: Sessions, sid: SessionId, r: SessionRecord)
    requires ActiveNamed(ses) && sid in ses.records && !r.phase.Active?
    ensures var ses' := Deactivate(SessionManager.Put(ses, sid, r), sid);
            && ActiveNamed(ses') && ses'.records == ses.records[sid := r]
            && ses'.activeId == if ses.activeId == Some(sid) then None else ses.activeId
  {
  }

  lemma RetireOnly(s: Sched, sid: SessionId, r: SessionRecord, q: Queue, worker: Worker)
    requires SchedInv(s) && sid in s.sessions.records && Shrinks(s.queue, q)
    requires r.phase.Draining? || r.phase.Closed? || r.phase.Blocked?
    requires worker == s.worker || !NamesSession(worker)
    ensures Keeps(s, s.(sessions := Deactivate(SessionManager.Put(s.sessions, sid, r), sid), queue := q,
                        worker := worker))
  {
    hide SchedInv, NoInteractiveLease, ActiveNamed;
    SafeOf(s);
    RetireKeepsActive(s.sessions, sid, r);
    var ses := Deactivate(SessionManager.Put(s.sessions, sid, r), sid);
    hide SessionManager.Put, Deactivate, Shrinks;
    SessionStep(s, s.(sessions := ses, queue := q, worker := worker));
  }

  lemma RetireAndRelease(s: Sched, sid: SessionId, r: SessionRecord, q: Queue, worker: Worker)
    requires SchedInv(s) && sid in s.sessions.records && Shrinks(s.queue, q)
    requires r.phase.Draining? || r.phase.Closed? || r.phase.Blocked?
    requires worker == s.worker || !NamesSession(worker)
    ensures Keeps(s, ReleaseFreeze(s.(sessions := Deactivate(SessionManager.Put(s.sessions, sid, r), sid),
                                      queue := q, worker := worker), sid))
  {
    hide SchedInv, ActiveNamed, Shrinks, Reaches;
    SafeOf(s);
    RetireKeepsActive(s.sessions, sid, r);
    var s1 := s.(sessions := Deactivate(SessionManager.Put(s.sessions, sid, r), sid), queue := q, worker := worker);
    RetireOnly(s, sid, r, q, worker);
    RetiredGivesBack(s1, sid);
  }

  /** A retired session may give the freeze back. */
  lemma RetiredGivesBack(s: Sched, sid: SessionId)
    requires SchedInv(s) && sid in s.sessions.records
    requires !s.sessions.records[sid].phase.Active? && !s.sessions.records[sid].phase.Preparing?
    ensures Keeps(s, ReleaseFreeze(s, sid))
  {
    hide SchedInv, NoInteractiveLease;
    SafeOf(s);
    SessionStep(s, ReleaseFreeze(s, sid));
  }

  /** Retiring a session, and releasing its freeze or not, is safe for the other sessions. */
  lemma RetireKeeps(s: Sched, sid: SessionId, r: SessionRecord, q: Queue, release: bool, worker: Worker)
    requires SchedInv(s) && sid in s.sessions.records && Shrinks(s.queue, q)
    requires r.phase.Draining? || r.phase.Closed? || r.phase.Blocked?
    requires worker == s.worker || !NamesSession(worker)
    ensures var s1 := s.(sessions := Deactivate(SessionManager.Put(s.sessions, sid, r), sid), queue := q,
                         worker := worker);
            Keeps(s, if release then ReleaseFreeze(s1, sid) else s1)
  {
    hide SchedInv, Keeps, Shrinks;
    if release {
      RetireAndRelease(s, sid, r, q, worker);
    } else {
      RetireOnly(s, sid, r, q, worker);
    }
  }

  /** Moving the worker on, or releasing the freeze of a session that is not active. */
  lemma WorkerMoves(s: Sched, worker: Worker)
    requires SchedInv(s) && !NamesSession(worker)
    ensures Keeps(s, s.(worker := worker))
  {
    hide SchedInv, NoInteractiveLease, ActiveNamed;
    SafeOf(s);
    SessionStep(s, s.(worker := worker));
  }

  lemma EndSessionKeeps(s: Sched, sid: SessionId)
    requires SchedInv(s)
    ensures Keeps(s, CloseSession(s, sid))
  {
    hide SchedInv, Reaches;
    ReachesItself(s.world);
    if sid in s.sessions.records && !s.sessions.records[sid].phase.Closed? {
      var worker := if s.worker.Dead? then Idle else s.worker;
      RetireKeeps(s, sid, s.sessions.records[sid].(phase := Draining), Without(s.queue, sid), false, worker);
    }
  }

  lemma RenewKeepsActive(ses: Sessions, sid: SessionId, now: Time)
    requires ActiveNamed(ses) && Heartbeat(ses, sid, now).Done?
    ensures var ses' := Heartbeat(ses, sid, now).value;
            && ActiveNamed(ses') && ses'.activeId == ses.activeId && ses'.records.Keys == ses.records.Keys
            && forall x :: x in ses.records ==> ses'.records[x].phase == ses.records[x].phase
  {
  }

  lemma RenewKeeps(s: Sched, sid: SessionId, now: Time)
    requires SchedInv(s)
    ensures Keeps(s, Renew(s, sid, now))
  {
    hide SchedInv, NoInteractiveLease, ActiveNamed, Heartbeat;
    SafeOf(s);
    if Heartbeat(s.sessions, sid, now).Done? { RenewKeepsActive(s.sessions, sid, now); }
    SessionStep(s, Renew(s, sid, now));
  }

  lemma ShutdownKeeps(s: Sched)
    requires SchedInv(s)
    ensures Keeps(s, BeginShutdown(s))
  {
    hide SchedInv, NoInteractiveLease;
    SafeOf(s);
    SessionStep(s, BeginShutdown(s));
  }

  // ---- the worker's blocks ----------------------------------------------------------------

  lemma PlanKeeps(s: Sched, e: Scheduler.Step)
    requires SchedInv(s) && Enabled(s, e)
    requires e.PlanExpire? || e.PlanRetry? || e.PlanPrepare? || e.PlanClose?
    ensures Keeps(s, Do(s, e))
  {
    if e.PlanPrepare? {
      PreparePlanKeeps(s, e);
    } else {
      var action := if e.PlanExpire? then ActExpire else ActClose;
      PlanShape(s, e, action);
      hide SchedInv, Do, Shrinks, Enabled, Keeps;
      OtherPlanKeeps(s, action, e.sid, Do(s, e).queue);
    }
  }

  lemma PlanShape(s: Sched, e: Scheduler.Step, action: Action)
    requires (e.PlanExpire? || e.PlanRetry? || e.PlanClose?) && Enabled(s, e)
    requires action == if e.PlanExpire? then ActExpire else ActClose
    ensures s.worker.Idle? && e.sid in s.sessions.records && Shrinks(s.queue, Do(s, e).queue)
    ensures Do(s, e) == s.(worker := Planned(action, e.sid), queue := Do(s, e).queue)
  {
    hide HasExpired, RetryDue, AnyExpired, AnyRetryDue, Contenders;
  }

  lemma OtherPlanKeeps(s: Sched, action: Action, sid: SessionId, q: Queue)
    requires SchedInv(s) && s.worker.Idle? && !action.ActPrepare? && sid in s.sessions.records && Shrinks(s.queue, q)
    ensures Keeps(s, s.(worker := Planned(action, sid), queue := q))
  {
    hide SchedInv, NoInteractiveLease, ActiveNamed, Shrinks;
    SafeOf(s);
    SessionStep(s, s.(worker := Planned(action, sid), queue := q));
  }

  /** Nobody is active when a session is chosen to prepare. */
  lemma PreparePlanKeeps(s: Sched, e: Scheduler.Step)
    requires e.PlanPrepare? && SchedInv(s) && Enabled(s, e)
    ensures Keeps(s, Do(s, e))
  {
    hide SchedInv, NoInteractiveLease, IsHead, HasExpired, RetryDue;
    SafeOf(s);
    assert s.sessions.activeId.Some? ==> Holding(s.sessions.records[s.sessions.activeId.value].phase);
    SessionStep(s, Do(s, e));
  }

  lemma ExpiryKeeps(s: Sched, sid: SessionId)
    requires SchedInv(s) && sid in s.sessions.records
    ensures Keeps(s, DoExpire(s, sid))
  {
    hide SchedInv, Reaches;
    var r := s.sessions.records[sid];
    RetireKeeps(s, sid, r.(phase := Closed, retryAt := 0.0), Without(s.queue, sid), true, Idle);
    RetireKeeps(s, sid, r.(phase := Draining), s.queue, false, Idle);
    WorkerMoves(s, Idle);
  }

  lemma ClaimKeeps(s: Sched)
    requires SchedInv(s) && s.worker.Planned? && s.worker.action.ActPrepare? && s.worker.sid in s.sessions.records
    ensures Keeps(s, ClaimFreeze(s, s.worker.sid))
  {
    hide SchedInv, NoInteractiveLease, ActiveNamed;
    SafeOf(s);
    SessionStep(s, ClaimFreeze(s, s.worker.sid));
  }

  lemma YieldKeeps(s: Sched, now: Time)
    requires SchedInv(s) && s.worker.TimedOut?
    ensures Keeps(s, YieldFreeze(s, s.worker.sid, now))
  {
    hide SchedInv, NoInteractiveLease, ActiveNamed;
    SafeOf(s);
    if YieldPrepare(s.sessions, s.worker.sid, now).Done? { YieldKeepsActive(s.sessions, s.worker.sid, now); }
    SessionStep(s, YieldFreeze(s, s.worker.sid, now));
  }

  lemma YieldKeepsActive(ses: Sessions, sid: SessionId, now: Time)
    requires ActiveNamed(ses) && YieldPrepare(ses, sid, now).Done?
    ensures ActiveNamed(YieldPrepare(ses, sid, now).value)
  {
  }

  lemma BlockKeeps(s: Sched, sid: SessionId, now: Time)
    requires SchedInv(s)
    ensures Keeps(s, Block(s, sid, now))
  {
    hide SchedInv, Reaches;
    WorkerMoves(s, Exiting);
    if sid in s.sessions.records {
      RetireKeeps(s, sid,
                  s.sessions.records[sid].(phase := Blocked, retryAt := now + s.sessions.limits.reconcileSeconds),
                  s.queue, false, Idle);
    }
  }

  /** A closed session that still owns the freeze gives it back too. */
  lemma ReleaseKeepsIdle(s: Sched, sid: SessionId)
    requires SchedInv(s) && sid in s.sessions.records && s.sessions.records[sid].phase.Closed?
    ensures Keeps(s, ReleaseFreeze(s.(worker := Idle), sid))
  {
    hide SchedInv, NoInteractiveLease;
    SafeOf(s);
    SessionStep(s, ReleaseFreeze(s.(worker := Idle), sid));
  }

  lemma CloseKeeps(s: Sched, sid: SessionId)
    requires SchedInv(s) && sid in s.sessions.records
    ensures Keeps(s, Close(s, sid))
  {
    hide SchedInv, Reaches;
    if s.sessions.records[sid].phase.Closed? {
      ReleaseKeepsIdle(s, sid);
    } else {
      RetireKeeps(s, sid, s.sessions.records[sid].(phase := Closed, retryAt := 0.0), s.queue, true, Idle);
    }
  }

  lemma StopStartKeeps(s: Sched)
    requires SchedInv(s) && s.worker.Planned? && s.worker.action.ActClose?
    ensures Keeps(s, s.(worker := Stopping(s.worker.sid)))
  {
    hide SchedInv, NoInteractiveLease, ActiveNamed;
    SafeOf(s);
    SessionStep(s, s.(worker := Stopping(s.worker.sid)));
  }

  lemma TimeoutKeeps(s: Sched)
    requires SchedInv(s) && s.worker.DrainWait?
    ensures Keeps(s, s.(worker := TimedOut(s.worker.sid)))
  {
    hide SchedInv, NoInteractiveLease, ActiveNamed;
    SafeOf(s);
    SessionStep(s, s.(worker := TimedOut(s.worker.sid)));
  }

  /** The drain wait at work: it ends only when no lease is out at all. */
  lemma DrainedKeeps(s: Sched)
    requires SchedInv(s) && s.worker.DrainWait? && !AnyLease(s.world.book)
    ensures Keeps(s, s.(worker := Preloading(s.worker.sid)))
  {
    hide SchedInv;
    SafeOf(s);
    assert NoInteractiveLease(s);
    SessionStep(s, s.(worker := Preloading(s.worker.sid)));
  }

  lemma ActivateKeeps(s: Sched, now: Time)
    requires SchedInv(s) && s.worker.Preloading? && s.worker.sid in s.sessions.records
    ensures Keeps(s, Activate(s, s.worker.sid, now))
  {
    hide SchedInv, NoInteractiveLease, ActiveNamed;
    SafeOf(s);
    if MarkActive(s.sessions, s.worker.sid, now).Done? { ActivationKeepsActive(s.sessions, s.worker.sid, now); }
    SessionStep(s, Activate(s, s.worker.sid, now));
  }

  lemma ActivationKeepsActive(ses: Sessions, sid: SessionId, now: Time)
    requires ActiveNamed(ses) && MarkActive(ses, sid, now).Done?
    ensures ActiveNamed(MarkActive(ses, sid, now).value)
  {
  }

  lemma StorageKeeps(s: Sched, lost: bool, q: Queue)
    requires SchedInv(s) && Shrinks(s.queue, q)
    ensures Keeps(s, s.(storageLost := lost, queue := q))
  {
    hide SchedInv, NoInteractiveLease, ActiveNamed;
    SafeOf(s);
    SessionStep(s, s.(storageLost := lost, queue := q));
  }

  // ---- every step, every run --------------------------------------------------------------

  lemma WorkerStepKeeps(s: Sched, e: Scheduler.Step)
    requires SchedInv(s) && Enabled(s, e)
    requires e.WorkExpire? || e.WorkClaim? || e.WorkDrained? || e.WorkTimeout? || e.WorkYield? || e.WorkReady?
             || e.WorkFailed?
             || e.WorkAbandoned? || e.WorkStopStart? || e.WorkStopDone? || e.WorkReturn? || e.WorkGone? || e.WorkCrash?
    ensures Keeps(s, Do(s, e))
  {
    hide SchedInv, Keeps, DoExpire, ClaimFreeze, YieldFreeze, Activate, Block, Close, AnyLease;
    match e
    case WorkExpire => ExpiryKeeps(s, s.worker.sid);
    case WorkClaim => ClaimKeeps(s);
    case WorkDrained => DrainedKeeps(s);
    case WorkTimeout => TimeoutKeeps(s);
    case WorkYield(now) => YieldKeeps(s, now);
    case WorkReady(now) => ActivateKeeps(s, now);
    case WorkFailed(now) => BlockKeeps(s, s.worker.sid, now);
    case WorkAbandoned => CloseKeeps(s, s.worker.sid);
    case WorkStopStart => StopStartKeeps(s);
    case WorkStopDone(confirmed, now) =>
      if confirmed { CloseKeeps(s, s.worker.sid); } else { BlockKeeps(s, s.worker.sid, now); }
    case WorkReturn => WorkerMoves(s, Exiting);
    case WorkGone => WorkerMoves(s, Dead);
    case WorkCrash => WorkerMoves(s, Exiting);
  }

  lemma StepKeeps(s: Sched, e: Scheduler.Step)
    requires SchedInv(s) && Enabled(s, e)
    ensures Keeps(s, Do(s, e))
  {
    hide SchedInv, Keeps, Enter, Look, Advance, Leave, OnBook, Register, CloseSession, Renew, BeginShutdown, DoExpire,
         ClaimFreeze, YieldFreeze, Activate, Block, Close, AnyLease, IsHead, ApartFromInteractive, FreshIds, FreshCall;
    match e
    case EnterAcquire(t, req, m, deadline, session, now) => EnterKeeps(s, t, req, m, deadline, session, now);
    case LookAcquire(_, _, _, _, _) => LookKeeps(s, e);
    case AdvanceAcquire(t, now, sample, admitted, uuid, _, _, picked, uuids) =>
      AdvanceKeeps(s, t, now, sample, admitted, uuid, Picked(picked), uuids);
    case LeaveAcquire(t) => LeaveKeeps(s, t);
    case CutLeave(t) => CutKeeps(s, t);
    case OtherBlock(c, loads, evicting, cold) => OtherKeeps(s, c, loads, evicting, cold);
    case LoseStorage => StorageKeeps(s, true, s.queue.(items := map[]));
    case RegainStorage => StorageKeeps(s, false, s.queue);
    case RegisterSession(sid, m, priority, hard, now) => RegisterKeeps(s, sid, m, priority, hard, now);
    case EndSession(sid) => EndSessionKeeps(s, sid);
    case RenewSession(sid, now) => RenewKeeps(s, sid, now);
    case Shutdown => ShutdownKeeps(s);
    case _ =>
      if e.PlanExpire? || e.PlanRetry? || e.PlanPrepare? || e.PlanClose? {
        PlanKeeps(s, e);
      } else {
        WorkerStepKeeps(s, e);
      }
  }

  lemma FreshIsSound(s: Sched)
    requires Fresh(s)
    ensures SchedInv(s)
  {
    hide WorldInv;
  }

  lemma {:induction false} ScheduleKeeps(ss: seq<Sched>, es: seq<Scheduler.Step>, i: nat)
    requires IsSchedule(ss, es) && Fresh(ss[0]) && i < |ss|
    ensures SchedInv(ss[i])
  {
    hide SchedInv, Fresh, Do, Enabled;
    if i == 0 {
      FreshIsSound(ss[0]);
    } else {
      ScheduleKeeps(ss, es, i - 1);
      StepKeeps(ss[i - 1], es[i - 1]);
    }
  }

  /** Between any two moments of a schedule the book makes a run of its own, so everything proved
      about book runs holds of the scheduler. */
  lemma {:induction false} ScheduleIsBookRun(ss: seq<Sched>, es: seq<Scheduler.Step>, i: nat, j: nat)
    requires IsSchedule(ss, es) && Fresh(ss[0]) && i <= j < |ss|
    ensures Reaches(ss[i].world, ss[j].world)
    decreases j
  {
    hide SchedInv, Fresh, Do, Enabled, Reaches;
    if i == j {
      ReachesItself(ss[i].world);
    } else {
      ScheduleIsBookRun(ss, es, i, j - 1);
      ScheduleKeeps(ss, es, j - 1);
      StepKeeps(ss[j - 1], es[j - 1]);
      ReachesOn(ss[i].world, ss[j - 1].world, ss[j].world);
    }
  }

  // ---- what it means ----------------------------------------------------------------------

  /** This step cuts an `acquire` of this request before it could clean up. */
  predicate Cuts(s: Sched, e: Scheduler.Step, req: RequestId) {
    e.CutLeave? && e.t in s.tasks && s.tasks[e.t].requestId == req
  }

  ghost predicate CutBefore(ss: seq<Sched>, es: seq<Scheduler.Step>, i: nat, req: RequestId)
    requires i <= |ss| && i <= |es|
  {
    exists k :: 0 <= k < i && Cuts(ss[k], es[k], req)
  }

  /** No lost freeze: in every reachable state a ready model that refuses admission belongs to the
      current switch intent, and the `acquire` that owns the intent is still there to reopen it,
      unless an `acquire` of that request was cut before it could clean up. */
  lemma NoLostFreeze(ss: seq<Sched>, es: seq<Scheduler.Step>, i: nat, m: ModelId)
    requires IsSchedule(ss, es) && Fresh(ss[0]) && i < |ss|
    requires FrozenReady(ss[i].world.book, m)
    ensures ss[i].intent.Some? && m in ss[i].intent.value.frozen
    ensures HasWaiter(ss[i], ss[i].intent.value.requestId) || CutBefore(ss, es, i, ss[i].intent.value.requestId)
  {
    hide IsSchedule, Fresh, WorldInv, SessionInv, CutBefore;
    ScheduleKeeps(ss, es, i);
    CutsAreRemembered(ss, es, i, ss[i].intent.value.requestId);
  }

  lemma {:induction false} CutsAreRemembered(ss: seq<Sched>, es: seq<Scheduler.Step>, i: nat, req: RequestId)
    requires IsSchedule(ss, es) && Fresh(ss[0]) && i < |ss|
    ensures req in ss[i].cut <==> CutBefore(ss, es, i, req)
  {
    if i == 0 {
      hide WorldInv;
    } else {
      hide Do, Enabled, Fresh;
      var j := i - 1;
      CutsAreRemembered(ss, es, j, req);
      StepRemembersCut(ss[j], es[j], req);
      assert CutBefore(ss, es, i, req) <==> CutBefore(ss, es, j, req) || Cuts(ss[j], es[j], req);
    }
  }

  /** Where an intent ends: its owner leaves, a look finds it expired or its owner no longer queued,
      or its owner finds the frozen models drained and asks the book to evict them, whether the
      book then accepts or refuses. */
  ghost predicate EndsIntent(s: Sched, e: Scheduler.Step)
    requires s.intent.Some?
  {
    match e
    case LeaveAcquire(t) => t in s.tasks && s.tasks[t].requestId == s.intent.value.requestId
    case LookAcquire(_, now, _, _, _) => now >= s.intent.value.expiresAt || s.intent.value.requestId !in s.queue.items
    case AdvanceAcquire(t, now, sample, admitted, _, _, _, _, _) =>
      && t in s.tasks && s.tasks[t].requestId == s.intent.value.requestId
      && var b, m := s.world.book, s.tasks[t].modelId;
         && admitted && m in b.runtime && m in b.policy.ledger && b.runtime[m].state.Unloaded? && m !in s.loads
            && !s.evicting
         && !CanLoad(b, m, sample, now)
         && forall x :: x in s.intent.value.frozen && x in b.runtime ==> b.runtime[x].leases == map[]
    case _ => false
  }

  /** A switch ends exactly there, and however it ends every ready model is open again. */
  lemma LeavingReopens(ss: seq<Sched>, es: seq<Scheduler.Step>, i: nat, m: ModelId)
    requires IsSchedule(ss, es) && Fresh(ss[0]) && i < |es| && ss[i].intent.Some?
    ensures ss[i + 1].intent.None? <==> EndsIntent(ss[i], es[i])
    ensures ss[i + 1].intent == if EndsIntent(ss[i], es[i]) then None else ss[i].intent
    ensures EndsIntent(ss[i], es[i]) ==> !FrozenReady(ss[i + 1].world.book, m)
  {
    hide Fresh, WorldInv, SessionInv, EndsIntent, Do, Enabled;
    ScheduleKeeps(ss, es, i + 1);
    assert SwitchInv(ss[i + 1]);
    StepEndsIntent(ss[i], es[i]);
  }

  lemma StepEndsIntent(s: Sched, e: Scheduler.Step)
    requires Enabled(s, e) && s.intent.Some?
    ensures Do(s, e).intent == if EndsIntent(s, e) then None else s.intent
  {
    hide Do, Enabled, Next, CanLoad;
    if e.LookAcquire? {
      LookEndsIntent(s, e);
    } else if e.AdvanceAcquire? {
      AdvanceEndsIntent(s, e);
    } else if e.LeaveAcquire? {
      LeaveEndsIntent(s, e);
    } else {
      OthersKeepIntent(s, e);
    }
  }

  lemma LeaveEndsIntent(s: Sched, e: Scheduler.Step)
    requires Enabled(s, e) && e.LeaveAcquire?
    ensures Do(s, e).intent == if s.intent.Some? && EndsIntent(s, e) then None else s.intent
  {
    hide Next;
  }

  predicate IsSessionStep(e: Scheduler.Step) {
    e.RegisterSession? || e.EndSession? || e.RenewSession? || e.Shutdown? || e.LoseStorage? || e.RegainStorage?
  }

  predicate IsPlanStep(e: Scheduler.Step) {
    e.PlanExpire? || e.PlanRetry? || e.PlanPrepare? || e.PlanClose?
  }

  /** Only the blocks of `acquire` touch the intent. */
  lemma OthersKeepIntent(s: Sched, e: Scheduler.Step)
    requires Enabled(s, e) && !e.LookAcquire? && !e.AdvanceAcquire? && !e.LeaveAcquire?
    ensures Do(s, e).intent == s.intent
  {
    hide Do, Enabled;
    if e.EnterAcquire? || e.OtherBlock? || e.CutLeave? {
      EntryKeepsIntent(s, e);
    } else if IsSessionStep(e) {
      SessionStepSpares(s, e);
    } else if IsPlanStep(e) {
      PlanSpares(s, e);
    } else {
      WorkSpares(s, e);
    }
  }

  lemma EntryKeepsIntent(s: Sched, e: Scheduler.Step)
    requires Enabled(s, e) && (e.EnterAcquire? || e.OtherBlock? || e.CutLeave?)
    ensures Do(s, e).intent == s.intent
  {
    hide Next, IsLive, ExpireAt, NewItem;
  }

  lemma SessionStepSpares(s: Sched, e: Scheduler.Step)
    requires Enabled(s, e) && IsSessionStep(e)
    ensures SameSwitch(s, Do(s, e))
  {
    hide Renew, Register, CloseSession, BeginShutdown;
    SessionCallsSpare(s, e);
  }

  lemma SessionCallsSpare(s: Sched, e: Scheduler.Step)
    requires IsSessionStep(e)
    ensures e.RegisterSession? ==> SameSwitch(s, Register(s, e.sid, e.m, e.priority, e.hard, e.now))
    ensures e.EndSession? ==> SameSwitch(s, CloseSession(s, e.sid))
    ensures e.RenewSession? ==> SameSwitch(s, Renew(s, e.sid, e.now))
    ensures e.Shutdown? ==> SameSwitch(s, BeginShutdown(s))
  {
    hide Heartbeat, BeginDrain, NewRecord, NewItem, ExpireAt;
  }

  lemma PlanSpares(s: Sched, e: Scheduler.Step)
    requires Enabled(s, e) && IsPlanStep(e)
    ensures SameSwitch(s, Do(s, e))
  {
    hide ExpireAt, HasExpired, RetryDue, AnyExpired, AnyRetryDue, Contenders, IsHead, MayPrepare;
  }

  lemma WorkSpares(s: Sched, e: Scheduler.Step)
    requires Enabled(s, e) && !e.LookAcquire? && !e.AdvanceAcquire? && !e.LeaveAcquire? && !e.EnterAcquire?
    requires !e.OtherBlock? && !e.CutLeave?
    requires !IsSessionStep(e) && !IsPlanStep(e)
    ensures SameSwitch(s, Do(s, e))
  {
    if e.WorkExpire? || e.WorkClaim? || e.WorkReady? || e.WorkAbandoned? || e.WorkStopDone? {
      BlocksSpare(s, s.worker.sid, TimeOf(e));
    }
    if e.WorkYield? || e.WorkFailed? || e.WorkStopDone? { MoreBlocksSpare(s, s.worker.sid, TimeOf(e)); }
    hide DoExpire, ClaimFreeze, YieldFreeze, Activate, Block, Close, AnyLease;
  }

  function TimeOf(e: Scheduler.Step): (now: Time) {
    match e
    case WorkYield(now) => now
    case WorkReady(now) => now
    case WorkFailed(now) => now
    case WorkStopDone(_, now) => now
    case _ => 0.0
  }

  /** The worker's blocks leave the book, the waiting calls and the intent alone. */
  lemma BlocksSpare(s: Sched, sid: SessionId, now: Time)
    requires sid in s.sessions.records
    ensures SameSwitch(s, DoExpire(s, sid)) && SameSwitch(s, ClaimFreeze(s, sid))
    ensures SameSwitch(s, Activate(s, sid, now)) && SameSwitch(s, Close(s, sid))
  {
    ExpirySpares(s, sid);
    CloseSpares(s, sid);
    hide MarkActive, DoExpire, Close;
  }

  lemma ExpirySpares(s: Sched, sid: SessionId)
    requires sid in s.sessions.records
    ensures SameSwitch(s, DoExpire(s, sid))
  {
    hide MarkClosed, BeginDrain;
  }

  lemma CloseSpares(s: Sched, sid: SessionId)
    requires sid in s.sessions.records
    ensures SameSwitch(s, Close(s, sid))
  {
    hide MarkClosed;
  }

  lemma MoreBlocksSpare(s: Sched, sid: SessionId, now: Time)
    ensures SameSwitch(s, YieldFreeze(s, sid, now)) && SameSwitch(s, Block(s, sid, now))
  {
    hide YieldPrepare, MarkBlocked;
  }

  lemma LookEndsIntent(s: Sched, e: Scheduler.Step)
    requires Enabled(s, e) && e.LookAcquire? && s.intent.Some?
    ensures Do(s, e).intent == if EndsIntent(s, e) then None else s.intent
  {
    hide Next, IsHead, Apply, CanAdmitReady;
  }

  lemma AdvanceEndsIntent(s: Sched, e: Scheduler.Step)
    requires Enabled(s, e) && e.AdvanceAcquire? && s.intent.Some?
    ensures Do(s, e).intent == if EndsIntent(s, e) then None else s.intent
  {
    hide Next, Apply, CanLoad, Eviction.IsRanking, Eviction.IsChoice, FreshIds, ChooseRaises;
  }

  /** Session exclusivity: at most one session is active, `active_id` names it, it owns the freeze,
      and while it is active no interactive lease is out on any model. */
  lemma SessionExclusivity(ss: seq<Sched>, es: seq<Scheduler.Step>, i: nat, sid: SessionId)
    requires IsSchedule(ss, es) && Fresh(ss[0]) && i < |ss|
    requires sid in ss[i].sessions.records && ss[i].sessions.records[sid].phase.Active?
    ensures ss[i].sessions.activeId == Some(sid) && ss[i].sessionFreeze == Some(sid)
    ensures forall other :: other in ss[i].sessions.records && ss[i].sessions.records[other].phase.Active? ==>
              other == sid
    ensures forall m, id :: LeasedIn(ss[i].world.book, m, id) ==> id !in ss[i].interactive
  {
    hide IsSchedule, Fresh, SwitchInv;
    ScheduleKeeps(ss, es, i);
    assert ActiveNamed(ss[i].sessions);
    assert Exclusive(ss[i]);
  }

  /** Neither ledger leaves the budget under any schedule. */
  lemma ScheduleStaysWithinBudget(ss: seq<Sched>, es: seq<Scheduler.Step>, i: nat, j: nat)
    requires IsSchedule(ss, es) && Fresh(ss[0]) && i <= j < |ss|
    ensures Committed(ss[j].world.book) <= Max(Committed(ss[i].world.book), ss[i].world.book.policy.budget)
    ensures PhysicalCommitted(ss[j].world.book) <= Max(PhysicalCommitted(ss[i].world.book),
                                                       ss[i].world.book.policy.budget)
  {
    hide IsSchedule, Fresh, SessionInv, WorldInv, Committed, PhysicalCommitted, BookRuns.Step;
    ScheduleKeeps(ss, es, i);
    ScheduleIsBookRun(ss, es, i, j);
    var ws, cs :| IsRun(ws, cs) && ws[0] == ss[i].world && ws[|cs|] == ss[j].world;
    LedgersStayWithinBudget(ws, cs, 0, |cs|);
  }

  // ---- an intent without an owner -----------------------------------------------------------

  /** The same calls are waiting, for the same requests, and none was cut. */
  predicate SameTasks(s: Sched, s': Sched) {
    && s'.cut == s.cut && s'.tasks.Keys == s.tasks.Keys
    && forall t :: t in s.tasks ==> SameWaiter(s.tasks[t], s'.tasks[t])
  }

  lemma LookSparesTasks(s: Sched, t: TaskId, now: Time, sample: MemorySample, admitted: bool, uuid: Uuid)
    requires t in s.tasks && s.queue.aging > 0.0
    ensures SameTasks(s, Look(s, t, now, sample, admitted, uuid))
  {
    hide ExpireIntent, Next, IsHead, Apply, CanAdmitReady, ExpireAt, Without, EligibleAt, RetryAfter, SameTasks;
    ExpirySparesTasks(s, now);
    var s' := Look(s, t, now, sample, admitted, uuid);
    assert s'.cut == s.cut;
    assert s'.tasks == s.tasks[t := s'.tasks[t]] && SameWaiter(s.tasks[t], s'.tasks[t]);
    OneWaiterChanges(s, s', t, s'.tasks[t]);
  }

  lemma ExpirySparesTasks(s: Sched, now: Time)
    ensures ExpireIntent(s, now).tasks == s.tasks && ExpireIntent(s, now).cut == s.cut
  {
    hide Next;
  }

  lemma SwitchSparesTasks(s: Sched, w: Waiter, now: Time, chosen: seq<ModelId>, uuids: map<ModelId, Uuid>)
    requires forall m :: m in chosen ==> m in uuids
    requires s.intent.Some? ==> forall m :: m in s.intent.value.frozen ==> m in uuids
    ensures Switch(s, w, now, chosen, uuids).tasks == s.tasks && Switch(s, w, now, chosen, uuids).cut == s.cut
  {
    hide Next, Apply;
  }

  lemma AdvanceSparesTasks(s: Sched, e: Scheduler.Step)
    requires Enabled(s, e) && e.AdvanceAcquire?
    ensures SameTasks(s, Do(s, e))
  {
    AdvanceBlockSparesTasks(s, e.t, e.now, e.sample, e.admitted, e.uuid, Picked(e.picked), e.uuids);
    hide Advance, SameTasks, Eviction.IsRanking, Eviction.IsChoice, FreshIds;
  }

  lemma AdvanceBlockSparesTasks(s: Sched, t: TaskId, now: Time, sample: MemorySample, admitted: bool, uuid: Uuid,
                                chosen: seq<ModelId>, uuids: map<ModelId, Uuid>)
    requires t in s.tasks
    requires forall m :: m in chosen ==> m in uuids
    requires s.intent.Some? ==> forall m :: m in s.intent.value.frozen ==> m in uuids
    ensures SameTasks(s, Advance(s, t, now, sample, admitted, uuid, chosen, uuids))
  {
    var w, c := s.tasks[t], Load(s.tasks[t].modelId, sample, now, uuid);
    var w0 := w.(wantsSample := false);
    var s0 := s.(tasks := s.tasks[t := w0]);
    SwitchSparesTasks(s0, w, now, chosen, uuids);
    BookOf(s0, c);
    OneWaiterChanges(s, s0, t, w0);
    OneWaiterChanges(s, OnBook(s0, c).(loads := s.loads + {w.modelId}), t, w0);
    OneWaiterChanges(s, Leaving(s0, t), t, w0.(leaving := true));
    OneWaiterChanges(s, Switch(s0, w, now, chosen, uuids), t, w0);
    hide SameTasks, OnBook, Switch, CanLoad, ChooseRaises;
  }

  lemma OneWaiterChanges(s: Sched, s': Sched, t: TaskId, w: Waiter)
    requires t in s.tasks && SameWaiter(s.tasks[t], w) && s'.tasks == s.tasks[t := w] && s'.cut == s.cut
    ensures SameTasks(s, s')
  {
  }

  lemma CallSparesTasks(s: Sched, e: Scheduler.Step)
    requires Enabled(s, e) && e.OtherBlock?
    ensures SameTasks(s, Do(s, e))
  {
    hide Next, FreshCall;
  }

  /** Only entering, leaving and being cut change who waits. */
  lemma OthersSpareTasks(s: Sched, e: Scheduler.Step)
    requires Enabled(s, e) && !e.EnterAcquire? && !e.LeaveAcquire? && !e.CutLeave?
    ensures SameTasks(s, Do(s, e))
  {
    if e.LookAcquire? {
      LookSparesTasks(s, e.t, e.now, e.sample, e.admitted, e.uuid);
      hide Look, SameTasks;
    } else {
      hide Do, Enabled;
      if e.AdvanceAcquire? {
        AdvanceSparesTasks(s, e);
      } else if e.OtherBlock? {
        CallSparesTasks(s, e);
      } else if IsSessionStep(e) {
        SessionStepSpares(s, e);
      } else if IsPlanStep(e) {
        PlanSpares(s, e);
      } else {
        WorkSpares(s, e);
      }
    }
  }

  /** Entering adds one waiter at most, leaving takes exactly one away. */
  lemma EntryMovesTasks(s: Sched, e: Scheduler.Step)
    requires Enabled(s, e) && (e.EnterAcquire? || e.LeaveAcquire? || e.CutLeave?)
    ensures e.EnterAcquire? ==>
              var s' := Do(s, e);
              && s'.cut == s.cut && e.t !in s.tasks
              && (s'.tasks == s.tasks || (s'.tasks == s.tasks[e.t := s'.tasks[e.t]]
                                          && s'.tasks[e.t].requestId == e.req))
    ensures !e.EnterAcquire? ==> e.t in s.tasks && Do(s, e).tasks == s.tasks - {e.t}
    ensures e.LeaveAcquire? ==> Do(s, e).cut == s.cut
    ensures e.CutLeave? ==> Do(s, e).cut == s.cut + {s.tasks[e.t].requestId}
  {
    hide Next, IsLive, ExpireAt, NewItem;
  }

  lemma StepRemembersCut(s: Sched, e: Scheduler.Step, req: RequestId)
    requires Enabled(s, e)
    ensures req in Do(s, e).cut <==> req in s.cut || Cuts(s, e, req)
  {
    hide Do, Enabled;
    if e.EnterAcquire? || e.LeaveAcquire? || e.CutLeave? {
      EntryMovesTasks(s, e);
    } else {
      OthersSpareTasks(s, e);
    }
  }

  /** An intent loses its last owner in one way only: as long as it stands, a step leaves it without
      a waiter if and only if the step cuts the only `acquire` of its request. */
  lemma OwnerLostIffCut(s: Sched, e: Scheduler.Step)
    requires Enabled(s, e) && s.intent.Some? && HasWaiter(s, s.intent.value.requestId) && Do(s, e).intent == s.intent
    ensures !HasWaiter(Do(s, e), s.intent.value.requestId) <==>
              && Cuts(s, e, s.intent.value.requestId)
              && forall t :: t in s.tasks && t != e.t ==> s.tasks[t].requestId != s.intent.value.requestId
  {
    hide Do, Enabled, Cuts;
    var req, s' := s.intent.value.requestId, Do(s, e);
    var x :| x in s.tasks && s.tasks[x].requestId == req;
    if e.EnterAcquire? || e.LeaveAcquire? || e.CutLeave? {
      EntryMovesTasks(s, e);
      if e.LeaveAcquire? { LeaveEndsIntent(s, e); }
      OwnerAfterEntry(s, e, req);
    } else {
      OthersSpareTasks(s, e);
      assert x in s'.tasks && s'.tasks[x].requestId == req;
      NoCut(s, e, req);
    }
  }

  lemma NoCut(s: Sched, e: Scheduler.Step, req: RequestId)
    requires !e.CutLeave?
    ensures !Cuts(s, e, req)
  {
  }

  lemma OwnerAfterEntry(s: Sched, e: Scheduler.Step, req: RequestId)
    requires Enabled(s, e) && (e.EnterAcquire? || e.LeaveAcquire? || e.CutLeave?) && HasWaiter(s, req)
    requires e.LeaveAcquire? ==> e.t in s.tasks && s.tasks[e.t].requestId != req
    ensures !HasWaiter(Do(s, e), req) <==>
              Cuts(s, e, req) && forall t :: t in s.tasks && t != e.t ==> s.tasks[t].requestId != req
  {
    EntryMovesTasks(s, e);
    hide Do, Enabled;
    var s' := Do(s, e);
    var x :| x in s.tasks && s.tasks[x].requestId == req;
    assert x != e.t ==> x in s'.tasks && s'.tasks[x] == s.tasks[x];
    if HasWaiter(s', req) {
      var y :| y in s'.tasks && s'.tasks[y].requestId == req;
      assert e.CutLeave? ==> y in s.tasks && y != e.t && s.tasks[y].requestId == req;
    } else if e.CutLeave? {
      forall t | t in s.tasks && t != e.t ensures s.tasks[t].requestId != req {
        assert t in s'.tasks && s'.tasks[t] == s.tasks[t];
      }
    }
  }

  /** This look takes the intent back: it finds it expired, or its request no longer queued. */
  predicate TakesBack(s: Sched, e: Scheduler.Step)
    requires s.intent.Some?
  {
    e.LookAcquire? && (e.now >= s.intent.value.expiresAt || s.intent.value.requestId !in s.queue.items)
  }

  /** Without an owner an intent stands, unchanged, until some other request's look
      takes it back: no leaving, no eviction and no other step of any schedule ends it before that. */
  lemma {:induction false} OrphanedUntilLook(ss: seq<Sched>, es: seq<Scheduler.Step>, i: nat, j: nat)
    requires IsSchedule(ss, es) && i <= j < |ss| && ss[i].intent.Some?
    requires !HasWaiter(ss[i], ss[i].intent.value.requestId)
    requires forall k :: i <= k < j ==> !(es[k].EnterAcquire? && es[k].req == ss[i].intent.value.requestId)
    requires forall k :: i <= k < j && ss[k].intent.Some? ==> !TakesBack(ss[k], es[k])
    ensures ss[j].intent == ss[i].intent && !HasWaiter(ss[j], ss[i].intent.value.requestId)
    decreases j
  {
    hide Do, Enabled, TakesBack;
    if i < j {
      OrphanedUntilLook(ss, es, i, j - 1);
      OrphanStep(ss[j - 1], es[j - 1]);
    }
  }

  lemma OrphanStep(s: Sched, e: Scheduler.Step)
    requires Enabled(s, e) && s.intent.Some? && !HasWaiter(s, s.intent.value.requestId)
    requires !(e.EnterAcquire? && e.req == s.intent.value.requestId) && !TakesBack(s, e)
    ensures Do(s, e).intent == s.intent && !HasWaiter(Do(s, e), s.intent.value.requestId)
  {
    OrphanEndsOnlyByLook(s, e);
    hide Do, Enabled, TakesBack, EndsIntent;
    StepEndsIntent(s, e);
    if e.EnterAcquire? || e.LeaveAcquire? || e.CutLeave? {
      EntryMovesTasks(s, e);
    } else {
      OthersSpareTasks(s, e);
    }
  }

  lemma OrphanEndsOnlyByLook(s: Sched, e: Scheduler.Step)
    requires s.intent.Some? && !HasWaiter(s, s.intent.value.requestId) && !TakesBack(s, e)
    ensures !EndsIntent(s, e)
  {
    hide CanLoad;
  }

  // ---- switching between v2 models ----------------------------------------------------------

  /** Every model is registered the v2 way. */
  predicate AllV2(p: Policy) {
    forall m :: m in p.ledger ==> p.ledger[m].registration.RegisteredV2?
  }

  /** Where only v2 models are registered no schedule ever establishes a switch: `choose` would have
      to name a ready open model, and on any such model it raises instead. */
  lemma {:induction false} V2NeverSwitches(ss: seq<Sched>, es: seq<Scheduler.Step>, i: nat)
    requires IsSchedule(ss, es) && Fresh(ss[0]) && i < |ss| && AllV2(ss[0].world.book.policy)
    ensures ss[i].intent.None? && ss[i].world.book.policy == ss[0].world.book.policy
  {
    hide Do, Enabled, AllV2;
    if i > 0 {
      hide Fresh;
      V2NeverSwitches(ss, es, i - 1);
      StepKeepsPolicy(ss, es, i - 1);
      NoSwitchStep(ss[i - 1], es[i - 1]);
    }
  }

  lemma StepKeepsPolicy(ss: seq<Sched>, es: seq<Scheduler.Step>, i: nat)
    requires IsSchedule(ss, es) && Fresh(ss[0]) && i < |es|
    ensures ss[i + 1].world.book.policy == ss[i].world.book.policy
  {
    hide Do, Enabled, Fresh, BookRuns.Step, WorldInv, SessionInv;
    ScheduleKeeps(ss, es, i);
    ScheduleIsBookRun(ss, es, i, i + 1);
    var ws, cs :| IsRun(ws, cs) && ws[0] == ss[i].world && ws[|cs|] == ss[i + 1].world;
    LedgersStayWithinBudget(ws, cs, 0, |cs|);
  }

  lemma NoSwitchStep(s: Sched, e: Scheduler.Step)
    requires Enabled(s, e) && s.intent.None? && AllV2(s.world.book.policy)
    ensures Do(s, e).intent.None?
  {
    hide Do, Enabled, AllV2;
    if e.LookAcquire? {
      NoSwitchLook(s, e);
    } else if e.AdvanceAcquire? {
      NoSwitchAdvance(s, e);
    } else if e.LeaveAcquire? {
      LeaveEndsIntent(s, e);
    } else {
      OthersKeepIntent(s, e);
    }
  }

  lemma NoSwitchLook(s: Sched, e: Scheduler.Step)
    requires Enabled(s, e) && e.LookAcquire? && s.intent.None?
    ensures Do(s, e).intent.None?
  {
    hide Next, IsHead, Apply, CanAdmitReady;
  }

  lemma NoSwitchAdvance(s: Sched, e: Scheduler.Step)
    requires Enabled(s, e) && e.AdvanceAcquire? && s.intent.None? && AllV2(s.world.book.policy)
    ensures Do(s, e).intent.None?
  {
    if e.picked != [] {
      var m := e.picked[0].modelId;
      assert e.ranking[0] in e.ranking && Eviction.Eligible(s.world.book, m, true);
      assert Eviction.Trips(s.world.book, m, true);
      assert ChooseRaises(s.world.book, s.tasks[e.t].modelId, e.sample);
    }
    hide Next, Apply, CanLoad, Eviction.IsRanking, Eviction.IsChoice, FreshIds, ChooseRaises;
  }

  /** What the waiting request sees instead: with a v2 model ready and open, the look that finds its
      own model stopped and without room ends the call. */
  lemma RoomForV2Raises(s: Sched, e: Scheduler.Step, m: ModelId)
    requires Enabled(s, e) && e.AdvanceAcquire? && e.admitted && s.intent.None? && !s.evicting
    requires var b, target := s.world.book, s.tasks[e.t].modelId;
             && target in b.runtime && b.runtime[target].state.Unloaded? && target !in s.loads
             && !CanLoad(b, target, e.sample, e.now) && Eviction.LoadDeficit(b, target, e.sample) > 0
    requires Eviction.Trips(s.world.book, m, true)
    ensures e.t in Do(s, e).tasks && Do(s, e).tasks[e.t].leaving && Do(s, e).world == s.world
  {
    assert ChooseRaises(s.world.book, s.tasks[e.t].modelId, e.sample);
    hide Next, Apply, CanLoad, Eviction.IsRanking, Eviction.IsChoice, FreshIds, ChooseRaises, Eviction.Trips;
  }
}
