/** The scheduler of model_scheduler/scheduler.py as a machine whose steps are the blocks it runs
    under its one condition. Samples, the clock, backend answers and interleaving are free.
    Blocks that decide leases, switch freezes and sessions are modelled line by line; every other
    block (load and stop completions, unload, preload, reclaim, TTL sweep, recovery, shutdown
    cleanup, storage loss) appears as the book calls it makes, in any order and at any time. */
module Scheduler {
  import opened Prelude
  import opened BookModel
  import opened BookRuns
  import opened RequestQueue
  import opened SessionManager
  import Eviction = EvictionPolicy

  type TaskId = nat

  /** One running `acquire` call: its arguments, whether it asked for a sample in its last look,
      and whether it is on its way out through the `finally` block. */
  datatype Waiter = Waiter(
    requestId: RequestId,
    modelId: ModelId,
    deadline: Time,
    session: Option<SessionId>,
    wantsSample: bool,
    leaving: bool)

  datatype Intent = Intent(requestId: RequestId, targetId: ModelId, frozen: seq<ModelId>, expiresAt: Time)

  datatype Action = ActExpire | ActPrepare | ActClose

  /** Where the one session worker stands between two blocks. */
  datatype Worker =
    | Dead
    | Exiting
    | Idle
    | Planned(action: Action, sid: SessionId)
    | DrainWait(sid: SessionId)
    | TimedOut(sid: SessionId)
    | Preloading(sid: SessionId)
    | Abandoning(sid: SessionId)
    | Stopping(sid: SessionId)

  datatype Tuning = Tuning(switchDrain: Time, switchRetry: Time, maxEvictions: nat)

  datatype Sched = Sched(
    tuning: Tuning,
    world: World,
    queue: Queue,
    tasks: map<TaskId, Waiter>,
    intent: Option<Intent>,
    sessions: Sessions,
    sessionFreeze: Option<SessionId>,
    worker: Worker,
    shuttingDown: bool,
    storageLost: bool,
    nextSwitch: map<ModelId, Time>,
    coldNotBefore: Time,
    loads: set<ModelId>,
    evicting: bool,
    // what happened so far: the leases of interactive requests, and the requests whose call was
    // cancelled while it waited to clean up
    interactive: set<Uuid>,
    cut: set<RequestId>)

  // ---- the switch intent -----------------------------------------------------------------

  ghost function OnBook(s: Sched, c: Call): (s': Sched)
    requires WellFormed(c)
  {
    s.(world := Next(s.world, c))
  }

  ghost function DropIntent(s: Sched): (s': Sched)
    requires s.intent.Some?
  {
    OnBook(s, Unfreeze(s.intent.value.frozen)).(intent := None)
  }

  ghost function CancelIntent(s: Sched, req: RequestId): (s': Sched) {
    if s.intent.Some? && s.intent.value.requestId == req then DropIntent(s) else s
  }

  ghost function ExpireIntent(s: Sched, now: Time): (s': Sched) {
    if s.intent.Some? && (now >= s.intent.value.expiresAt || s.intent.value.requestId !in s.queue.items)
    then DropIntent(s).(nextSwitch := s.nextSwitch[s.intent.value.targetId := now + s.tuning.switchRetry])
    else s
  }

  // ---- acquire ---------------------------------------------------------------------------

  function RetryAfter(s: Sched, m: ModelId): (t: Time) {
    if m in s.nextSwitch then s.nextSwitch[m] else 0.0
  }

  /** `_cold_request_eligible`. */
  predicate ColdEligible(s: Sched, item: Item, now: Time) {
    && !(item.kind.Interactive? && s.sessionFreeze.Some?)
    && item.modelId in s.world.book.runtime
    && var state := s.world.book.runtime[item.modelId].state;
       && !state.Loading? && !state.Evicting?
       && (state.Unloaded? ==> now >= s.coldNotBefore && now >= RetryAfter(s, item.modelId))
  }

  ghost function EligibleAt(s: Sched, now: Time): (f: Item -> bool) {
    (item: Item) => ColdEligible(s, item, now)
  }

  /** The first block of `acquire`: refuse, or enqueue and start waiting. */
  ghost function Enter(s: Sched, t: TaskId, req: RequestId, m: ModelId, deadline: Time, session: Option<SessionId>,
                       now: Time): (s': Sched) {
    var b := s.world.book;
    if m !in b.policy.ledger || m !in b.runtime || deadline <= now || s.shuttingDown || s.storageLost then s
    else if session.Some? && !(&& IsLive(s.sessions, session.value, now)
                               && s.sessions.records[session.value].modelId == m
                               && !(b.runtime[m].state.Ready?
                                    && |b.runtime[m].leases| >= b.policy.ledger[m].maxConcurrency))
    then s
    else if session.None? && s.sessionFreeze.Some? then s
    else
      var q := ExpireAt(s.queue, now);
      if req in q.items || |q.items| >= q.capacity then s.(queue := q)
      else
        var item := NewItem(q, req, m, b.policy.ledger[m].priority, deadline, now,
                            if session.Some? then Session else Interactive);
        s.(queue := RequestQueue.Put(q, item).(sequence := q.sequence + 1),
           tasks := s.tasks[t := Waiter(req, m, deadline, session, false, false)])
  }

  function Leaving(s: Sched, t: TaskId): (s': Sched)
    requires t in s.tasks
  {
    s.(tasks := s.tasks[t := s.tasks[t].(leaving := true)])
  }

  ghost function Grant(s: Sched, t: TaskId, uuid: Uuid): (s': Sched)
    requires t in s.tasks
  {
    var w := s.tasks[t];
    Leaving(OnBook(s, Acquire(w.modelId, w.requestId, uuid)), t).(
      queue := Without(s.queue, w.requestId),
      interactive := if w.session.None? then s.interactive + {uuid} else s.interactive)
  }

  /** The waiting loop's first block: expire the intent, check deadlines, and grant the lease if
      this request is the head and the model can take it. */
  ghost function Look(s: Sched, t: TaskId, now: Time, sample: MemorySample, admitted: bool, uuid: Uuid): (s': Sched)
    requires t in s.tasks && s.queue.aging > 0.0
  {
    var w := s.tasks[t];
    var s1 := ExpireIntent(s, now);
    var b := s1.world.book;
    if s1.shuttingDown || s1.storageLost then Leaving(s1, t)
    else if now >= w.deadline || w.requestId !in s1.queue.items || w.modelId !in b.runtime
        || w.modelId !in b.policy.ledger
    then Leaving(s1.(queue := Without(s1.queue, w.requestId)), t)
    else
      var s2 := s1.(queue := ExpireAt(s1.queue, now));
      if !IsHead(s1.queue, now, EligibleAt(s1, now), w.requestId) then s2
      else if admitted && CanAdmitReady(b, w.modelId, sample, now)
          && Apply(b, Acquire(w.modelId, w.requestId, uuid)).Ok?
      then Grant(s2, t, uuid)
      else if b.runtime[w.modelId].state.Error? then Leaving(s2, t)
      else s2.(tasks := s2.tasks[t := w.(wantsSample :=
             && b.runtime[w.modelId].state.Unloaded? && w.modelId !in s2.loads && !s2.evicting
             && (s2.intent.None? || s2.intent.value.requestId == w.requestId)
             && now >= RetryAfter(s2, w.modelId))])
  }

  /** The first half of `_establish_or_advance_switch`: freeze one eviction set. */
  ghost function Establish(s: Sched, w: Waiter, now: Time, chosen: seq<ModelId>): (s': Sched) {
    if s.intent.Some? || chosen == [] || !Apply(s.world.book, Freeze(chosen)).Ok? then s
    else OnBook(s, Freeze(chosen)).(intent := Some(
      Intent(w.requestId, w.modelId, chosen, MinTime(w.deadline, now + s.tuning.switchDrain))))
  }

  /** The second half: the owner evicts the set once it has drained. */
  ghost function EvictDrained(s: Sched, w: Waiter, uuids: map<ModelId, Uuid>): (s': Sched)
    requires s.intent.Some? ==> forall m :: m in s.intent.value.frozen ==> m in uuids
  {
    if s.intent.None? || s.intent.value.requestId != w.requestId then s
    else
      var frozen := s.intent.value.frozen;
      var b := s.world.book;
      if exists m :: m in frozen && m in b.runtime && b.runtime[m].leases != map[] then s
      else if Apply(b, Evict(frozen, true, uuids)).Ok?
      then OnBook(s, Evict(frozen, true, uuids)).(intent := None, evicting := true)
      else CancelIntent(s, w.requestId)
  }

  ghost function Switch(s: Sched, w: Waiter, now: Time, chosen: seq<ModelId>, uuids: map<ModelId, Uuid>): (s': Sched)
    requires forall m :: m in chosen ==> m in uuids
    requires s.intent.Some? ==> forall m :: m in s.intent.value.frozen ==> m in uuids
  {
    EvictDrained(Establish(s, w, now, chosen), w, uuids)
  }

  /** `choose` is asked for this load and raises, because a v2 model is ready and open. */
  ghost predicate ChooseRaises(b: BookState, m: ModelId, sample: MemorySample)
    requires m in b.policy.ledger
  {
    Eviction.LoadDeficit(b, m, sample) > 0 && Eviction.AnyTrips(b, true)
  }

  /** The second block: start the cold load, or work on making room for it. An exception out of
      `choose` ends the call. */
  ghost function Advance(s: Sched, t: TaskId, now: Time, sample: MemorySample, admitted: bool, uuid: Uuid,
                         chosen: seq<ModelId>, uuids: map<ModelId, Uuid>): (s': Sched)
    requires t in s.tasks
    requires forall m :: m in chosen ==> m in uuids
    requires s.intent.Some? ==> forall m :: m in s.intent.value.frozen ==> m in uuids
  {
    var w := s.tasks[t];
    var s0 := s.(tasks := s.tasks[t := w.(wantsSample := false)]);
    var b := s.world.book;
    if !admitted || w.modelId !in b.runtime || w.modelId !in b.policy.ledger
       || !b.runtime[w.modelId].state.Unloaded? || w.modelId in s.loads
    then s0
    else if CanLoad(b, w.modelId, sample, now)
    then OnBook(s0, Load(w.modelId, sample, now, uuid)).(loads := s.loads + {w.modelId})
    else if s.evicting then s0
    else if s.intent.None? && ChooseRaises(b, w.modelId, sample) then Leaving(s0, t)
    else Switch(s0, w, now, chosen, uuids)
  }

  /** The `finally` block of `acquire`, which every call comes to however it ends. */
  ghost function Leave(s: Sched, t: TaskId): (s': Sched)
    requires t in s.tasks
  {
    var req := s.tasks[t].requestId;
    CancelIntent(s.(queue := Without(s.queue, req), tasks := s.tasks - {t}), req)
  }

  /** A cancellation that lands while the `finally` block waits for the condition skips it: the queue
      entry and the intent stay, without an owner. */
  function SkipLeave(s: Sched, t: TaskId): (s': Sched)
    requires t in s.tasks
  {
    s.(tasks := s.tasks - {t}, cut := s.cut + {s.tasks[t].requestId})
  }

  // ---- sessions --------------------------------------------------------------------------

  function ReleaseFreeze(s: Sched, sid: SessionId): (s': Sched) {
    if s.sessionFreeze == Some(sid) then s.(sessionFreeze := None) else s
  }

  function EnsureWorker(s: Sched): (s': Sched) {
    if s.worker.Dead? then s.(worker := Idle) else s
  }

  /** `register_session`: refused while shutting down, for an unknown model, beside pinned or
      preloaded models, for a known id, when full, or when the queue refuses the waiter. */
  function Register(s: Sched, sid: SessionId, m: ModelId, priority: int, hard: Time, now: Time): (s': Sched) {
    var p := s.world.book.policy;
    if || m !in p.ledger || s.shuttingDown || s.storageLost
       || (exists x :: x in p.ledger && (p.ledger[x].pinned || p.ledger[x].preload))
       || sid in s.sessions.records || |s.sessions.records| >= s.sessions.limits.maxSessions || hard <= 0.0
    then s
    else
      var r := NewRecord(s.sessions.limits, m, now, MinTime(hard, s.sessions.limits.hardSeconds));
      var q := ExpireAt(s.queue, now);
      if sid in q.items || |q.items| >= q.capacity then s.(queue := q)
      else
        EnsureWorker(s.(
          queue := RequestQueue.Put(q, NewItem(q, sid, m, priority, r.waitDeadline, now, Session))
                   .(sequence := q.sequence + 1),
          sessions := SessionManager.Put(s.sessions, sid, r)))
  }

  /** `close_session`, up to the wait for the worker. */
  function CloseSession(s: Sched, sid: SessionId): (s': Sched) {
    if sid !in s.sessions.records || s.sessions.records[sid].phase.Closed? then s
    else EnsureWorker(s.(sessions := BeginDrain(s.sessions, sid).value, queue := Without(s.queue, sid)))
  }

  function Renew(s: Sched, sid: SessionId, now: Time): (s': Sched) {
    var reply := Heartbeat(s.sessions, sid, now);
    if reply.Done? then s.(sessions := reply.value) else s
  }

  function Drained(r: SessionRecord): (r': SessionRecord) {
    if r.phase.Closed? then r else r.(phase := Draining)
  }

  /** The first block of `shutdown`: every open session starts draining and loses its freeze. */
  function BeginShutdown(s: Sched): (s': Sched) {
    var records := s.sessions.records;
    s.(shuttingDown := true,
       queue := s.queue.(items := map[]),
       sessions := s.sessions.(
         records := map id | id in records :: Drained(records[id]),
         activeId := if s.sessions.activeId.Some? && s.sessions.activeId.value in records
                        && !records[s.sessions.activeId.value].phase.Closed? then None else s.sessions.activeId),
       sessionFreeze := if s.sessionFreeze.Some? && s.sessionFreeze.value in records
                           && !records[s.sessionFreeze.value].phase.Closed? then None else s.sessionFreeze)
  }

  /** `_expire_session`. */
  function DoExpire(s: Sched, sid: SessionId): (s': Sched)
    requires sid in s.sessions.records
  {
    if s.sessions.records[sid].phase.Preparing?
    then ReleaseFreeze(s.(queue := Without(s.queue, sid), sessions := MarkClosed(s.sessions, sid).value,
                          worker := Idle), sid)
    else s.(sessions := BeginDrain(s.sessions, sid).value, worker := Idle)
  }

  /** `_prepare_session`, first block: claim the freeze if the session is still preparing. */
  function ClaimFreeze(s: Sched, sid: SessionId): (s': Sched)
    requires sid in s.sessions.records
  {
    if !s.sessions.records[sid].phase.Preparing? then s.(worker := Idle)
    else s.(sessionFreeze := Some(sid), worker := DrainWait(sid))
  }

  /** The drain window ran out, which the wait notices only while a lease is out; by the time this
      block runs the lease may be gone. `yield_prepare` raises if the session was closed meanwhile, and
      nothing catches that: the worker ends there, with the freeze still set. */
  function YieldFreeze(s: Sched, sid: SessionId, now: Time): (s': Sched) {
    var reply := YieldPrepare(s.sessions, sid, now);
    if reply.Done? then ReleaseFreeze(s.(sessions := reply.value, worker := Idle), sid)
    else s.(worker := Exiting)
  }

  /** The model is ready: activate, unless the session ended while its model was loading. */
  function Activate(s: Sched, sid: SessionId, now: Time): (s': Sched)
    requires sid in s.sessions.records
  {
    if !s.sessions.records[sid].phase.Preparing? then s.(worker := Abandoning(sid))
    else
      var reply := MarkActive(s.sessions, sid, now);
      if reply.Done? then s.(sessions := reply.value, queue := Without(s.queue, sid), worker := Idle)
      else s.(worker := Exiting)
  }

  function Block(s: Sched, sid: SessionId, now: Time): (s': Sched) {
    var reply := MarkBlocked(s.sessions, sid, now);
    if reply.Done? then s.(sessions := reply.value, worker := Idle) else s.(worker := Exiting)
  }

  function Close(s: Sched, sid: SessionId): (s': Sched)
    requires sid in s.sessions.records
  {
    ReleaseFreeze(s.(sessions := MarkClosed(s.sessions, sid).value, worker := Idle), sid)
  }

  // ---- the steps -------------------------------------------------------------------------

  datatype Step =
    | EnterAcquire(t: TaskId, req: RequestId, m: ModelId, deadline: Time, session: Option<SessionId>, now: Time)
    | LookAcquire(t: TaskId, now: Time, sample: MemorySample, admitted: bool, uuid: Uuid)
    | AdvanceAcquire(t: TaskId, now: Time, sample: MemorySample, admitted: bool, uuid: Uuid,
                     heat: map<ModelId, real>, ranking: seq<Eviction.Candidate>, picked: seq<Eviction.Candidate>,
                     uuids: map<ModelId, Uuid>)
    | LeaveAcquire(t: TaskId)
    | CutLeave(t: TaskId)
    | OtherBlock(c: Call, loads: set<ModelId>, evicting: bool, coldNotBefore: Time)
    | LoseStorage
    | RegainStorage
    | RegisterSession(sid: SessionId, m: ModelId, priority: int, hard: Time, now: Time)
    | EndSession(sid: SessionId)
    | RenewSession(sid: SessionId, now: Time)
    | Shutdown
    | PlanExpire(sid: SessionId, now: Time)
    | PlanRetry(sid: SessionId, now: Time)
    | PlanPrepare(sid: SessionId, now: Time)
    | PlanClose(sid: SessionId, now: Time)
    | WorkExpire
    | WorkClaim
    | WorkDrained
    | WorkTimeout
    | WorkYield(now: Time)
    | WorkReady(now: Time)
    | WorkFailed(now: Time)
    | WorkAbandoned
    | WorkStopStart
    | WorkStopDone(confirmed: bool, now: Time)
    | WorkReturn
    | WorkGone
    | WorkCrash

  function Picked(cs: seq<Eviction.Candidate>): (ms: seq<ModelId>) {
    seq(|cs|, i requires 0 <= i < |cs| => cs[i].modelId)
  }

  function Range(uuids: map<ModelId, Uuid>): (ids: set<Uuid>) {
    set m | m in uuids :: uuids[m]
  }

  /** Drawn identifiers are fresh, and different from each other. */
  predicate FreshIds(s: Sched, uuid: Uuid, uuids: map<ModelId, Uuid>) {
    && uuid !in s.world.drawn && Range(uuids) !! s.world.drawn && uuid !in Range(uuids)
    && (forall m, m' :: m in uuids && m' in uuids && uuids[m] == uuids[m'] ==> m == m')
  }

  predicate RetryDue(r: SessionRecord, now: Time) {
    r.phase.Blocked? && now >= r.retryAt
  }

  predicate AnyExpired(s: Sched, now: Time) {
    exists id :: id in s.sessions.records && HasExpired(s.sessions.records[id], now)
  }

  predicate AnyRetryDue(s: Sched, now: Time) {
    exists id :: id in s.sessions.records && RetryDue(s.sessions.records[id], now)
  }

  ghost function MayPrepareAt(s: Sched, now: Time): (f: Item -> bool) {
    (item: Item) => item.kind.Session? && MayPrepare(s.sessions, item.requestId, now)
  }

  /** Session ids, and the ids of acquires made for a session, are drawn by `uuid4`: they never
      coincide with the id of an interactive request that is still waiting. */
  predicate ApartFromInteractive(s: Sched, id: RequestId) {
    forall t :: t in s.tasks && s.tasks[t].session.None? ==> s.tasks[t].requestId != id
  }

  /** When a step can happen: the caller or the worker stands at that block. */
  ghost predicate Enabled(s: Sched, e: Step) {
    match e
    case EnterAcquire(t, req, _, _, session, _) => t !in s.tasks && (session.Some? ==> ApartFromInteractive(s, req))
    case LookAcquire(t, _, _, _, uuid) =>
      t in s.tasks && !s.tasks[t].leaving && !s.tasks[t].wantsSample && s.queue.aging > 0.0 && uuid !in s.world.drawn
    case AdvanceAcquire(t, now, sample, _, uuid, heat, ranking, picked, uuids) =>
      && t in s.tasks && !s.tasks[t].leaving && s.tasks[t].wantsSample
      && FreshIds(s, uuid, uuids)
      && (forall m :: m in Picked(picked) ==> m in uuids)
      && (s.intent.Some? ==> forall m :: m in s.intent.value.frozen ==> m in uuids)
      && s.tasks[t].modelId in s.world.book.policy.ledger
      && Eviction.IsRanking(s.world.book, heat, true, ranking)
      && Eviction.IsChoice(ranking, Eviction.LoadDeficit(s.world.book, s.tasks[t].modelId, sample),
                           s.tuning.maxEvictions, picked)
    case LeaveAcquire(t) => t in s.tasks
    case CutLeave(t) => t in s.tasks
    case OtherBlock(c, _, _, _) => FreshCall(s.world, c) && !c.Acquire? && !c.Freeze? && !c.Unfreeze?
    case RegisterSession(sid, _, _, _, _) => ApartFromInteractive(s, sid)
    case PlanExpire(sid, now) => s.worker.Idle? && sid in s.sessions.records && HasExpired(s.sessions.records[sid], now)
    case PlanRetry(sid, now) =>
      s.worker.Idle? && !AnyExpired(s, now) && sid in s.sessions.records && RetryDue(s.sessions.records[sid], now)
    case PlanPrepare(sid, now) =>
      && s.worker.Idle? && !AnyExpired(s, now) && !AnyRetryDue(s, now)
      && s.queue.aging > 0.0 && IsHead(s.queue, now, MayPrepareAt(s, now), sid) && MayPrepare(s.sessions, sid, now)
    case PlanClose(sid, now) =>
      && s.worker.Idle? && !AnyExpired(s, now) && !AnyRetryDue(s, now)
      && Contenders(s.queue, now, MayPrepareAt(s, now)) == {}
      && sid in s.sessions.records && s.sessions.records[sid].phase.Draining?
    case WorkExpire => s.worker.Planned? && s.worker.action.ActExpire? && s.worker.sid in s.sessions.records
    case WorkClaim => s.worker.Planned? && s.worker.action.ActPrepare? && s.worker.sid in s.sessions.records
    case WorkDrained => s.worker.DrainWait? && !AnyLease(s.world.book)
    case WorkTimeout => s.worker.DrainWait? && AnyLease(s.world.book)
    case WorkYield(_) => s.worker.TimedOut?
    case WorkReady(_) => s.worker.Preloading? && s.worker.sid in s.sessions.records
    case WorkFailed(_) => s.worker.Preloading?
    case WorkAbandoned => s.worker.Abandoning? && s.worker.sid in s.sessions.records
    case WorkStopStart => s.worker.Planned? && s.worker.action.ActClose?
    case WorkStopDone(_, _) => s.worker.Stopping? && s.worker.sid in s.sessions.records
    case WorkReturn => s.worker.Idle? && forall id :: id in s.sessions.records ==> s.sessions.records[id].phase.Closed?
    case WorkGone => s.worker.Exiting?
    case WorkCrash => !s.worker.Dead? && !s.worker.Exiting?
    case _ => true
  }

  ghost function Do(s: Sched, e: Step): (s': Sched)
    requires Enabled(s, e)
  {
    match e
    case EnterAcquire(t, req, m, deadline, session, now) => Enter(s, t, req, m, deadline, session, now)
    case LookAcquire(t, now, sample, admitted, uuid) => Look(s, t, now, sample, admitted, uuid)
    case AdvanceAcquire(t, now, sample, admitted, uuid, _, _, picked, uuids) =>
      Advance(s, t, now, sample, admitted, uuid, Picked(picked), uuids)
    case LeaveAcquire(t) => Leave(s, t)
    case CutLeave(t) => SkipLeave(s, t)
    case OtherBlock(c, loads, evicting, cold) =>
      OnBook(s, c).(loads := loads, evicting := evicting, coldNotBefore := cold)
    case LoseStorage => s.(storageLost := true, queue := s.queue.(items := map[]))
    case RegainStorage => s.(storageLost := false)
    case RegisterSession(sid, m, priority, hard, now) => Register(s, sid, m, priority, hard, now)
    case EndSession(sid) => CloseSession(s, sid)
    case RenewSession(sid, now) => Renew(s, sid, now)
    case Shutdown => BeginShutdown(s)
    case PlanExpire(sid, _) =>
      s.(worker := Planned(ActExpire, sid),
         queue := if s.sessions.records[sid].phase.Preparing? then Without(s.queue, sid) else s.queue)
    case PlanRetry(sid, _) => s.(worker := Planned(ActClose, sid))
    case PlanPrepare(sid, now) => s.(worker := Planned(ActPrepare, sid), queue := ExpireAt(s.queue, now))
    case PlanClose(sid, now) => s.(worker := Planned(ActClose, sid), queue := ExpireAt(s.queue, now))
    case WorkExpire => DoExpire(s, s.worker.sid)
    case WorkClaim => ClaimFreeze(s, s.worker.sid)
    case WorkDrained => s.(worker := Preloading(s.worker.sid))
    case WorkTimeout => s.(worker := TimedOut(s.worker.sid))
    case WorkYield(now) => YieldFreeze(s, s.worker.sid, now)
    case WorkReady(now) => Activate(s, s.worker.sid, now)
    case WorkFailed(now) => Block(s, s.worker.sid, now)
    case WorkAbandoned => Close(s, s.worker.sid)
    case WorkStopStart => s.(worker := Stopping(s.worker.sid))
    case WorkStopDone(confirmed, now) => if confirmed then Close(s, s.worker.sid) else Block(s, s.worker.sid, now)
    case WorkReturn => s.(worker := Exiting)
    case WorkGone => s.(worker := Dead)
    case WorkCrash => s.(worker := Exiting)
  }

  ghost predicate IsSchedule(ss: seq<Sched>, es: seq<Step>) {
    && |ss| == |es| + 1
    && (forall i :: 0 <= i < |es| ==> Enabled(ss[i], es[i]) && ss[i + 1] == Do(ss[i], es[i]))
  }

  /** A scheduler nobody has called yet, over a booted book. */
  ghost predicate Fresh(s: Sched) {
    && WorldInv(s.world) && !AnyLease(s.world.book) && (forall m :: !FrozenReady(s.world.book, m))
    && s.queue.items == map[] && s.queue.aging > 0.0 && s.queue.capacity > 0
    && s.tasks == map[] && s.intent.None?
    && s.sessions.records == map[] && s.sessions.activeId.None?
    && s.sessionFreeze.None? && s.worker.Dead? && s.interactive == {} && s.cut == {}
  }
}
