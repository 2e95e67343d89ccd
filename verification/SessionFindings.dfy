/** What a session worker that ends inside its drain wait leaves behind, that it happens, and how long
    it lasts. */
module SessionFindings {
  import opened Prelude
  import opened BookModel
  import opened BookRuns
  import opened RequestQueue
  import opened SessionManager
  import opened Scheduler
  import opened SchedulerRuns
  import opened SessionRuns
  import Eviction = EvictionPolicy

  /** The freeze of a session is set and no worker is left to take it back. */
  predicate Stranded(s: Sched) {
    s.sessionFreeze.Some? && (s.worker.Dead? || s.worker.Exiting?)
  }

  /** When the drain window runs out the freeze is given back if and only if the session is still
      preparing: `yield_prepare` raises for a session ended meanwhile, and the worker ends with it,
      leaving the scheduler stranded. */
  lemma YieldReleasesIffPreparing(s: Sched, sid: SessionId, now: Time)
    requires sid in s.sessions.records && s.sessionFreeze == Some(sid)
    ensures YieldFreeze(s, sid, now).sessionFreeze.None? <==> StillPreparing(s, sid)
    ensures Stranded(YieldFreeze(s, sid, now)) <==> !StillPreparing(s, sid)
  {
  }

  /** Every schedule that ends a session while its drain wait runs out gets there: from any state in
      which the worker waits for a lease to drain for a session that holds the freeze, a client ending
      that session before the lease is returned strands the scheduler. */
  lemma EndedDuringDrainStrands(s: Sched, now: Time) returns (ss: seq<Sched>, es: seq<Scheduler.Step>)
    requires SchedInv(s) && s.worker.DrainWait? && StillPreparing(s, s.worker.sid) && AnyLease(s.world.book)
    ensures IsSchedule(ss, es) && |es| == 4 && ss[0] == s && Stranded(ss[4]) && ss[4].worker.Dead?
  {
    hide *;
    var sid := s.worker.sid;
    OwnsFreeze(s);
    var s1 := CloseSession(s, sid);
    var s2 := s1.(worker := TimedOut(sid));
    var s3 := YieldFreeze(s2, sid, now);
    var s4 := s3.(worker := Dead);
    ss, es := [s, s1, s2, s3, s4], [EndSession(sid), WorkTimeout, WorkYield(now), WorkGone];
    EndedKeepsFreeze(s, sid);
    EndSteps(s, sid);
    TimeoutSteps(s1, sid);
    YieldStrands(s2, sid, now);
    GoneSteps(s3);
    FourSteps(ss, es);
  }

  ghost predicate StepsTo(s: Sched, e: Scheduler.Step, s': Sched) {
    Enabled(s, e) && s' == Do(s, e)
  }

  lemma ThreeSteps(ss: seq<Sched>, es: seq<Scheduler.Step>)
    requires |ss| == 4 && |es| == 3
    requires StepsTo(ss[0], es[0], ss[1]) && StepsTo(ss[1], es[1], ss[2]) && StepsTo(ss[2], es[2], ss[3])
    ensures IsSchedule(ss, es)
  {
    hide Enabled, Do;
  }

  lemma FourSteps(ss: seq<Sched>, es: seq<Scheduler.Step>)
    requires |ss| == 5 && |es| == 4
    requires StepsTo(ss[0], es[0], ss[1]) && StepsTo(ss[1], es[1], ss[2]) && StepsTo(ss[2], es[2], ss[3])
    requires StepsTo(ss[3], es[3], ss[4])
    ensures IsSchedule(ss, es)
  {
    hide Enabled, Do;
  }

  lemma SchedulesJoin(ss: seq<Sched>, es: seq<Scheduler.Step>, ss': seq<Sched>, es': seq<Scheduler.Step>)
    requires IsSchedule(ss, es) && IsSchedule(ss', es') && ss'[0] == ss[|es|]
    ensures IsSchedule(ss + ss'[1..], es + es')
  {
    hide Enabled, Do;
    var all, steps := ss + ss'[1..], es + es';
    forall i | 0 <= i < |steps|
      ensures Enabled(all[i], steps[i]) && all[i + 1] == Do(all[i], steps[i])
    {
      if i >= |es| {
        var k := i - |es|;
        assert all[i] == ss'[k] && all[i + 1] == ss'[k + 1] && steps[i] == es'[k];
      }
    }
  }

  lemma OwnsFreeze(s: Sched)
    requires SchedInv(s) && s.worker.DrainWait? && StillPreparing(s, s.worker.sid)
    ensures s.sessionFreeze == Some(s.worker.sid)
  {
    hide WorldInv, ActiveNamed;
  }

  lemma EndSteps(s: Sched, sid: SessionId)
    ensures StepsTo(s, EndSession(sid), CloseSession(s, sid))
  {
    hide CloseSession;
  }

  lemma YieldStrands(s: Sched, sid: SessionId, now: Time)
    requires s.worker == TimedOut(sid) && sid in s.sessions.records && !StillPreparing(s, sid)
    requires s.sessionFreeze == Some(sid)
    ensures StepsTo(s, WorkYield(now), YieldFreeze(s, sid, now)) && YieldFreeze(s, sid, now) == s.(worker := Exiting)
  {
  }

  lemma TimeoutSteps(s: Sched, sid: SessionId)
    requires s.worker == DrainWait(sid) && AnyLease(s.world.book)
    ensures var s' := s.(worker := TimedOut(sid));
            StepsTo(s, WorkTimeout, s') && (forall x :: StillPreparing(s', x) <==> StillPreparing(s, x))
  {
  }

  lemma GoneSteps(s: Sched)
    requires s.worker.Exiting?
    ensures StepsTo(s, WorkGone, s.(worker := Dead)) && (s.sessionFreeze.Some? ==> Stranded(s.(worker := Dead)))
  {
  }

  lemma EndedKeepsFreeze(s: Sched, sid: SessionId)
    requires StillPreparing(s, sid) && s.worker == DrainWait(sid)
    ensures var s1 := CloseSession(s, sid);
            && s1.sessionFreeze == s.sessionFreeze && s1.worker == s.worker && s1.world == s.world
            && sid in s1.sessions.records && !StillPreparing(s1, sid)
  {
  }

  // ---- such a wait is reached ----------------------------------------------------------------

  /** Nobody waits and no session was ever registered. */
  predicate Unused(s: Sched) {
    && s.queue.items == map[] && s.queue.aging > 0.0 && s.queue.capacity > 0 && s.tasks == map[] && s.intent.None?
    && s.sessions.records == map[] && s.sessions.activeId.None? && s.sessionFreeze.None? && s.worker.Dead?
    && !s.shuttingDown && !s.storageLost
  }

  predicate TakesSessions(s: Sched) {
    && s.sessions.limits.maxSessions > 0 && s.sessions.limits.hardSeconds > 0.0
    && s.sessions.limits.waitSeconds > 0.0 && s.sessions.limits.prepareSeconds > 0.0
    && forall x :: x in s.world.book.policy.ledger ==>
         !s.world.book.policy.ledger[x].pinned && !s.world.book.policy.ledger[x].preload
  }

  /** Register, plan, claim: the worker waits for the leases to drain, with the book as it was. */
  lemma SessionClaims(s: Sched, sid: SessionId, m: ModelId, hard: Time, now: Time)
    returns (ss: seq<Sched>, es: seq<Scheduler.Step>)
    requires Unused(s) && TakesSessions(s) && m in s.world.book.policy.ledger && hard > 0.0 && now >= 0.0
    ensures IsSchedule(ss, es) && |es| == 3 && |ss| == 4 && ss[0] == s && ss[3].world == s.world
    ensures ss[3].worker == DrainWait(sid) && StillPreparing(ss[3], sid)
  {
    hide *;
    var s1 := Register(s, sid, m, 0, hard, now);
    FirstSession(s, sid, m, hard, now);
    var s2 := s1.(worker := Planned(ActPrepare, sid), queue := ExpireAt(s1.queue, now));
    var s3 := s2.(sessionFreeze := Some(sid), worker := DrainWait(sid));
    ss, es := [s, s1, s2, s3], [RegisterSession(sid, m, 0, hard, now), PlanPrepare(sid, now), WorkClaim];
    RegisterSteps(s, sid, m, hard, now);
    PlanSteps(s1, sid, now);
    ClaimSteps(s2, sid);
    ThreeSteps(ss, es);
  }

  lemma RegisterSteps(s: Sched, sid: SessionId, m: ModelId, hard: Time, now: Time)
    requires ApartFromInteractive(s, sid)
    ensures StepsTo(s, RegisterSession(sid, m, 0, hard, now), Register(s, sid, m, 0, hard, now))
  {
    hide Register;
  }

  lemma PlanSteps(s: Sched, sid: SessionId, now: Time)
    requires s.worker.Idle? && !AnyExpired(s, now) && !AnyRetryDue(s, now) && s.queue.aging > 0.0
    requires IsHead(s.queue, now, MayPrepareAt(s, now), sid) && MayPrepare(s.sessions, sid, now)
    ensures var s' := s.(worker := Planned(ActPrepare, sid), queue := ExpireAt(s.queue, now));
            StepsTo(s, PlanPrepare(sid, now), s') && StillPreparing(s', sid)
  {
    assert StillPreparing(s, sid);
    hide IsHead, AnyExpired, AnyRetryDue, ExpireAt;
  }

  lemma ClaimSteps(s: Sched, sid: SessionId)
    requires s.worker == Planned(ActPrepare, sid) && StillPreparing(s, sid)
    ensures var s' := s.(sessionFreeze := Some(sid), worker := DrainWait(sid));
            StepsTo(s, WorkClaim, s') && s'.worker == DrainWait(sid) && StillPreparing(s', sid)
  {
  }

  lemma FirstSession(s: Sched, sid: SessionId, m: ModelId, hard: Time, now: Time)
    requires Unused(s) && TakesSessions(s) && m in s.world.book.policy.ledger && hard > 0.0 && now >= 0.0
    ensures ApartFromInteractive(s, sid)
    ensures var s1 := Register(s, sid, m, 0, hard, now);
            && s1.world == s.world && s1.worker == Idle && StillPreparing(s1, sid) && s1.queue.aging > 0.0
            && !AnyExpired(s1, now) && !AnyRetryDue(s1, now)
            && IsHead(s1.queue, now, MayPrepareAt(s1, now), sid) && MayPrepare(s1.sessions, sid, now)
  {
    var s1 := Register(s, sid, m, 0, hard, now);
    var q := ExpireAt(s.queue, now);
    assert q.items == map[];
    var r := NewRecord(s.sessions.limits, m, now, MinTime(hard, s.sessions.limits.hardSeconds));
    assert s1.sessions.records == map[sid := r];
    assert s1.queue.items == map[sid := NewItem(q, sid, m, 0, r.waitDeadline, now, Session)];
    assert MayPrepare(s1.sessions, sid, now);
    assert Contenders(s1.queue, now, MayPrepareAt(s1, now)) == {sid};
  }

  /** Enter, look, leave: an interactive request takes its lease and is gone. */
  lemma RequestTakesLease(s: Sched, t: TaskId, req: RequestId, m: ModelId, sample: MemorySample, now: Time, uuid: Uuid)
    returns (ss: seq<Sched>, es: seq<Scheduler.Step>)
    requires Unused(s) && uuid !in s.world.drawn && m in s.world.book.runtime && m in s.world.book.policy.ledger
    requires CanAdmitReady(s.world.book, m, sample, now) && Apply(s.world.book, Acquire(m, req, uuid)).Ok?
    ensures IsSchedule(ss, es) && |es| == 3 && |ss| == 4 && ss[0] == s && Unused(ss[3]) && ss[3].sessions == s.sessions
    ensures ss[3].world.book.policy == s.world.book.policy && AnyLease(ss[3].world.book)
  {
    hide *;
    var s1 := Enter(s, t, req, m, now + 1.0, None, now);
    EnterWaits(s, t, req, m, now);
    LookGrants(s1, s, t, req, m, sample, now, uuid);
    var s2 := Look(s1, t, now, sample, true, uuid);
    LeaveEmpties(s, s2, t, req, m);
    var s3 := Leave(s2, t);
    ss := [s, s1, s2, s3];
    es := [EnterAcquire(t, req, m, now + 1.0, None, now), LookAcquire(t, now, sample, true, uuid), LeaveAcquire(t)];
    ThreeSteps(ss, es);
  }

  /** One interactive request waits, and nothing else has changed. */
  predicate OneWaits(s: Sched, s1: Sched, t: TaskId, req: RequestId, m: ModelId, now: Time) {
    && s1 == s.(queue := s1.queue, tasks := map[t := Waiter(req, m, now + 1.0, None, false, false)])
    && s1.queue.aging == s.queue.aging && s1.queue.capacity == s.queue.capacity && s1.queue.items.Keys == {req}
    && s1.queue.items[req].modelId == m && s1.queue.items[req].deadline == now + 1.0
    && s1.queue.items[req].kind.Interactive?
  }

  lemma EnterWaits(s: Sched, t: TaskId, req: RequestId, m: ModelId, now: Time)
    requires Unused(s) && m in s.world.book.runtime && m in s.world.book.policy.ledger
    ensures var s1 := Enter(s, t, req, m, now + 1.0, None, now);
            StepsTo(s, EnterAcquire(t, req, m, now + 1.0, None, now), s1) && OneWaits(s, s1, t, req, m, now)
  {
    assert ExpireAt(s.queue, now).items == map[];
  }

  lemma LookGrants(s1: Sched, s: Sched, t: TaskId, req: RequestId, m: ModelId, sample: MemorySample, now: Time,
                   uuid: Uuid)
    requires Unused(s) && OneWaits(s, s1, t, req, m, now) && uuid !in s.world.drawn
    requires m in s.world.book.runtime && m in s.world.book.policy.ledger
    requires CanAdmitReady(s.world.book, m, sample, now) && Apply(s.world.book, Acquire(m, req, uuid)).Ok?
    ensures t in s1.tasks && s1.queue.aging > 0.0
    ensures StepsTo(s1, LookAcquire(t, now, sample, true, uuid), Look(s1, t, now, sample, true, uuid))
    ensures Granted(s, Look(s1, t, now, sample, true, uuid), t, req, m)
  {
    OnlyOneIsHead(s1, s, t, req, m, now);
    var s2 := Look(s1, t, now, sample, true, uuid);
    GrantLeases(s.world, m, req, uuid);
    assert ExpireIntent(s1, now) == s1;
    hide IsHead, EligibleAt, Apply, CanAdmitReady, Next, AnyLease;
    assert s2 == Grant(s1.(queue := ExpireAt(s1.queue, now)), t, uuid);
  }

  /** The lease is out, the call is on its way out, and nobody else is there. */
  predicate Granted(s: Sched, s2: Sched, t: TaskId, req: RequestId, m: ModelId) {
    && s2 == s.(world := s2.world, queue := s2.queue, tasks := s2.tasks, interactive := s2.interactive)
    && s2.queue.items == map[] && s2.queue.aging == s.queue.aging && s2.queue.capacity == s.queue.capacity
    && s2.tasks.Keys == {t} && s2.tasks[t].requestId == req
    && s2.world.book.policy == s.world.book.policy && AnyLease(s2.world.book)
    && Unused(s)
  }

  lemma GrantLeases(w: World, m: ModelId, req: RequestId, uuid: Uuid)
    requires Apply(w.book, Acquire(m, req, uuid)).Ok?
    ensures var w' := Next(w, Acquire(m, req, uuid)); w'.book.policy == w.book.policy && AnyLease(w'.book)
  {
    var w' := Next(w, Acquire(m, req, uuid));
    assert uuid in w'.book.runtime[m].leases;
  }

  lemma OnlyOneIsHead(s1: Sched, s: Sched, t: TaskId, req: RequestId, m: ModelId, now: Time)
    requires Unused(s) && OneWaits(s, s1, t, req, m, now) && m in s.world.book.runtime
    requires s.world.book.runtime[m].state.Ready?
    ensures s1.queue.aging > 0.0 && IsHead(s1.queue, now, EligibleAt(s1, now), req)
  {
    assert Contenders(s1.queue, now, EligibleAt(s1, now)) == {req};
  }

  lemma LeaveEmpties(s: Sched, s2: Sched, t: TaskId, req: RequestId, m: ModelId)
    requires Granted(s, s2, t, req, m)
    ensures t in s2.tasks && StepsTo(s2, LeaveAcquire(t), Leave(s2, t)) && Unused(Leave(s2, t))
    ensures Leave(s2, t).sessions == s.sessions && Leave(s2, t).world.book.policy == s.world.book.policy
    ensures AnyLease(Leave(s2, t).world.book)
  {
    hide AnyLease;
    assert Leave(s2, t).tasks == map[];
  }

  /** The three calls of a first load, as steps of other tasks. */
  lemma LoadAsSteps(s: Sched, ws: seq<World>, cs: seq<Call>) returns (ss: seq<Sched>, es: seq<Scheduler.Step>)
    requires IsRun(ws, cs) && |cs| == 3 && |ws| == 4 && ws[0] == s.world && Unused(s)
    requires cs[0].Bootstrap? && cs[1].Load? && cs[2].LoadDone?
    ensures IsSchedule(ss, es) && |es| == 3 && |ss| == 4 && ss[0] == s && Unused(ss[3])
    ensures ss[3].world == ws[3] && ss[3].sessions == s.sessions
  {
    var s1, s2, s3 := s.(world := ws[1]), s.(world := ws[2]), s.(world := ws[3]);
    var e := (c: Call) => OtherBlock(c, s.loads, s.evicting, s.coldNotBefore);
    ss, es := [s, s1, s2, s3], [e(cs[0]), e(cs[1]), e(cs[2])];
    CallSteps(s, ws[0], cs[0], ws[1]);
    CallSteps(s1, ws[1], cs[1], ws[2]);
    CallSteps(s2, ws[2], cs[2], ws[3]);
    hide StepsTo, BookRuns.Step;
    ThreeSteps(ss, es);
  }

  lemma CallSteps(s: Sched, w: World, c: Call, w': World)
    requires s.world == w && BookRuns.Step(w, c, w') && !c.Acquire? && !c.Freeze? && !c.Unfreeze?
    ensures StepsTo(s, OtherBlock(c, s.loads, s.evicting, s.coldNotBefore), s.(world := w'))
  {
    hide Next, FreshCall;
  }

  /** From every fresh scheduler over a booted book with one model that fits, a schedule reaches the
      drain wait of a session still preparing with a lease outstanding: load, loaded, an interactive
      grant, then register, plan and claim. */
  lemma DrainWaitIsReached(s: Sched, m: ModelId, spec: LedgerSpec, budget: nat, floor: nat, age: Time,
                           sid: SessionId, req: RequestId, hard: Time, now: Time)
    returns (ss: seq<Sched>, es: seq<Scheduler.Step>)
    requires Fresh(s) && !s.shuttingDown && !s.storageLost && TakesSessions(s) && hard > 0.0 && now >= 0.0
    requires s.world == World(Booted(Eviction.OneModel(m, spec, budget, floor, age)), {}, {})
    requires PolicyOk(Eviction.OneModel(m, spec, budget, floor, age))
    requires spec.reserved <= budget && (spec.physical.Some? ==> spec.physical.value <= budget)
    ensures IsSchedule(ss, es) && |es| == 9 && ss[0] == s
    ensures ss[9].worker == DrainWait(sid) && StillPreparing(ss[9], sid) && AnyLease(ss[9].world.book)
  {
    hide *;
    FreshIsUnused(s);
    var ws, cs := Eviction.LoadsFromBoot(m, spec, budget, floor, age, now, Uuid(0));
    var ss1, es1 := LoadAsSteps(s, ws, cs);
    var sample := MemorySample(floor + spec.reserved, floor + spec.reserved, now);
    ReadyAdmits(ws[3].book, m, spec, budget, floor, age, sample, now, req);
    var ss2, es2 := RequestTakesLease(ss1[3], 0, req, m, sample, now, Uuid(1));
    StillTakes(s, ss2[3], ws[3].book, m, spec, budget, floor, age);
    var ss3, es3 := SessionClaims(ss2[3], sid, m, hard, now);
    SchedulesJoin(ss1, es1, ss2, es2);
    SchedulesJoin(ss1 + ss2[1..], es1 + es2, ss3, es3);
    ss, es := ss1 + ss2[1..] + ss3[1..], es1 + es2 + es3;
  }

  lemma FreshIsUnused(s: Sched)
    requires Fresh(s) && !s.shuttingDown && !s.storageLost
    ensures Unused(s)
  {
    hide WorldInv, AnyLease;
  }

  lemma StillTakes(s: Sched, s': Sched, b: BookState, m: ModelId, spec: LedgerSpec, budget: nat, floor: nat, age: Time)
    requires TakesSessions(s) && s.world.book == Booted(Eviction.OneModel(m, spec, budget, floor, age))
    requires Eviction.IdleReady(b, m, spec, budget, floor, age)
    requires s'.sessions == s.sessions && s'.world.book.policy == b.policy
    ensures TakesSessions(s') && m in s'.world.book.policy.ledger
  {
  }

  lemma Lengths(ss: seq<Sched>, es: seq<Scheduler.Step>)
    requires IsSchedule(ss, es)
    ensures |ss| == |es| + 1
  {
  }

  lemma ReadyAdmits(b: BookState, m: ModelId, spec: LedgerSpec, budget: nat, floor: nat, age: Time,
                    sample: MemorySample, now: Time, req: RequestId)
    requires Eviction.IdleReady(b, m, spec, budget, floor, age)
    requires PolicyOk(Eviction.OneModel(m, spec, budget, floor, age))
    requires sample == MemorySample(floor + spec.reserved, floor + spec.reserved, now)
    ensures m in b.runtime && m in b.policy.ledger && CanAdmitReady(b, m, sample, now)
    ensures Apply(b, Acquire(m, req, Uuid(1))).Ok?
  {
    assert !OwnsLease(b, req);
  }

  /** So the scheduler can be stranded: one schedule from a fresh scheduler gets there. */
  lemma StrandedIsReached(s: Sched, m: ModelId, spec: LedgerSpec, budget: nat, floor: nat, age: Time,
                          sid: SessionId, req: RequestId, hard: Time, now: Time)
    returns (ss: seq<Sched>, es: seq<Scheduler.Step>)
    requires Fresh(s) && !s.shuttingDown && !s.storageLost && TakesSessions(s) && hard > 0.0 && now >= 0.0
    requires s.world == World(Booted(Eviction.OneModel(m, spec, budget, floor, age)), {}, {})
    requires PolicyOk(Eviction.OneModel(m, spec, budget, floor, age))
    requires spec.reserved <= budget && (spec.physical.Some? ==> spec.physical.value <= budget)
    ensures IsSchedule(ss, es) && |es| == 13 && ss[0] == s && Stranded(ss[13])
  {
    hide *;
    var ss1, es1 := DrainWaitIsReached(s, m, spec, budget, floor, age, sid, req, hard, now);
    Lengths(ss1, es1);
    ScheduleKeeps(ss1, es1, 9);
    var ss2, es2 := EndedDuringDrainStrands(ss1[9], now);
    Lengths(ss2, es2);
    SchedulesJoin(ss1, es1, ss2, es2);
    ss, es := ss1 + ss2[1..], es1 + es2;
  }

  // ---- and stays so --------------------------------------------------------------------------

  /** The calls that can start a worker or shut the scheduler down. */
  predicate Restarts(e: Scheduler.Step) {
    e.RegisterSession? || e.EndSession? || e.Shutdown?
  }

  /** Stranded, the scheduler refuses every interactive request: until a client registers or ends a
      session or the service shuts down, no step of any schedule takes the freeze back, no interactive
      lease is granted, and no interactive request is even queued. */
  lemma {:induction false} StrandedRefuses(ss: seq<Sched>, es: seq<Scheduler.Step>, i: nat, j: nat)
    requires IsSchedule(ss, es) && Fresh(ss[0]) && i <= j < |ss| && Stranded(ss[i])
    requires forall k :: i <= k < j ==> !Restarts(es[k])
    ensures Stranded(ss[j]) && ss[j].sessionFreeze == ss[i].sessionFreeze && ss[j].interactive == ss[i].interactive
    ensures j < |es| && es[j].EnterAcquire? && es[j].session.None? ==> ss[j + 1] == ss[j]
    decreases j
  {
    hide Do, Enabled, Fresh, SchedInv;
    if i < j {
      StrandedRefuses(ss, es, i, j - 1);
      ScheduleKeeps(ss, es, j - 1);
      StrandedStep(ss[j - 1], es[j - 1]);
    }
    if j < |es| && es[j].EnterAcquire? && es[j].session.None? {
      RefusedEntry(ss[j], es[j]);
    }
  }

  lemma RefusedEntry(s: Sched, e: Scheduler.Step)
    requires Enabled(s, e) && e.EnterAcquire? && e.session.None? && s.sessionFreeze.Some?
    ensures Do(s, e) == s
  {
    hide ExpireAt, NewItem, IsLive;
  }

  lemma StrandedStep(s: Sched, e: Scheduler.Step)
    requires SchedInv(s) && Enabled(s, e) && Stranded(s) && !Restarts(e)
    ensures Stranded(Do(s, e)) && Do(s, e).sessionFreeze == s.sessionFreeze && Do(s, e).interactive == s.interactive
  {
    hide Do, Enabled, SchedInv;
    if IsAcquireStep(e) {
      AcquireSparesSessions(s, e);
      NoInteractiveGrant(s, e);
    } else if e.RenewSession? || e.LoseStorage? || e.RegainStorage? {
      QuietSessionCall(s, e);
    } else {
      NoWorkerNoWork(s, e);
    }
  }

  lemma QuietSessionCall(s: Sched, e: Scheduler.Step)
    requires Enabled(s, e) && (e.RenewSession? || e.LoseStorage? || e.RegainStorage?)
    ensures Do(s, e).sessionFreeze == s.sessionFreeze && Do(s, e).worker == s.worker
    ensures Do(s, e).interactive == s.interactive
  {
    hide Heartbeat;
  }

  lemma NoWorkerNoWork(s: Sched, e: Scheduler.Step)
    requires Enabled(s, e) && Stranded(s) && !IsAcquireStep(e) && !IsSessionStep(e)
    ensures Do(s, e) == s.(worker := Dead)
  {
    hide AnyLease, HasExpired, RetryDue, AnyExpired, AnyRetryDue, Contenders, IsHead, MayPrepare, ExpireAt;
  }

  lemma NoInteractiveGrant(s: Sched, e: Scheduler.Step)
    requires SchedInv(s) && Enabled(s, e) && IsAcquireStep(e) && s.sessionFreeze.Some?
    ensures Do(s, e).interactive == s.interactive
  {
    hide Do, Enabled, SchedInv;
    if e.LookAcquire? {
      LookGrantsNoInteractive(s, e);
    } else if e.AdvanceAcquire? {
      AdvanceSparesSessions(s, e);
    } else {
      EntrySparesSessions(s, e);
    }
  }

  /** An interactive waiter is not eligible while any freeze is set, so it is never the head. */
  lemma LookGrantsNoInteractive(s: Sched, e: Scheduler.Step)
    requires SchedInv(s) && Enabled(s, e) && e.LookAcquire? && s.sessionFreeze.Some?
    ensures Do(s, e).interactive == s.interactive
  {
    ExpirySparesSessions(s, e.now);
    ExpiryGrantsNothing(s, e.now);
    NeverHead(s, e.t, e.now);
    hide SchedInv, Next, IsHead, Apply, CanAdmitReady, ExpireAt, ExpireIntent, EligibleAt;
  }

  lemma NeverHead(s: Sched, t: TaskId, now: Time)
    requires SchedInv(s) && t in s.tasks && s.sessionFreeze.Some? && s.queue.aging > 0.0
    ensures var s1 := ExpireIntent(s, now);
            s1.queue.aging > 0.0
                && (s.tasks[t].session.None? ==> !IsHead(s1.queue, now, EligibleAt(s1, now), s.tasks[t].requestId))
  {
    var s1 := ExpireIntent(s, now);
    ExpirySparesSessions(s, now);
    ExpireKeepsIntent(s, now);
    assert SessionInv(s1);
    hide SessionInv, SwitchInv, ExpireIntent, IsHead, EligibleAt;
    if s.tasks[t].session.None? && IsHead(s1.queue, now, EligibleAt(s1, now), s.tasks[t].requestId) {
      FreezeFiltersInteractive(s1, t, now);
      assert false;
    }
  }

  lemma ExpiryGrantsNothing(s: Sched, now: Time)
    ensures ExpireIntent(s, now).interactive == s.interactive
  {
    hide Next;
  }
}
