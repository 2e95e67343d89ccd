/** What every step of a schedule does to each session, to the freeze and to the one worker, said on the
    fields before and after: when a session is closed, blocked, drained or activated, and by whom. */
module SessionAnswers {
  import opened Prelude
  import opened BookModel
  import opened BookRuns
  import opened RequestQueue
  import opened SessionManager
  import opened Scheduler
  import opened SchedulerRuns
  import opened SessionRuns
  import SchedulerAnswers

  // ---- what happens to a session -----------------------------------------------------------------

  /** The worker is at this session's work. */
  predicate AtWork(s: Sched, sid: SessionId) {
    s.worker != Dead && s.worker != Exiting && s.worker != Idle && s.worker.sid == sid
  }

  predicate IsPhase(s: Sched, sid: SessionId, phase: Phase) {
    sid in s.sessions.records && s.sessions.records[sid].phase == phase
  }

  /** A session is closed on a confirmed stop, when it ended while its model was loading and was cleaned up,
      or when it ran out of time to prepare; nothing else closes one. */
  predicate Closes(s: Sched, e: Scheduler.Step, sid: SessionId) {
    && AtWork(s, sid) && sid in s.sessions.records && s.sessions.records[sid].phase != Closed
    && (|| (e.WorkStopDone? && e.confirmed) || e.WorkAbandoned?
        || (e.WorkExpire? && s.sessions.records[sid].phase == Preparing))
  }

  /** It is blocked when the stop of its model, or its preparation, is not confirmed. */
  predicate Blocks(s: Sched, e: Scheduler.Step, sid: SessionId) {
    && AtWork(s, sid) && sid in s.sessions.records && s.sessions.records[sid].phase != Closed
    && ((e.WorkStopDone? && !e.confirmed) || e.WorkFailed?)
  }

  /** It drains when its client ends it, when it has run out, or when the service shuts down. */
  predicate Drains(s: Sched, e: Scheduler.Step, sid: SessionId) {
    && sid in s.sessions.records && s.sessions.records[sid].phase != Closed
    && (|| e == EndSession(sid) || e.Shutdown?
        || (e.WorkExpire? && AtWork(s, sid) && s.sessions.records[sid].phase != Preparing))
  }

  predicate Activates(s: Sched, e: Scheduler.Step, sid: SessionId) {
    && e.WorkReady? && AtWork(s, sid) && IsPhase(s, sid, Preparing)
    && (s.sessions.activeId.Some? ==> s.sessions.activeId.value == sid)
  }

  predicate Yields(s: Sched, e: Scheduler.Step, sid: SessionId) {
    e.WorkYield? && AtWork(s, sid) && IsPhase(s, sid, Preparing)
  }

  /** A heartbeat counts while the session prepares, or is active and has not run out. */
  predicate Beats(s: Sched, e: Scheduler.Step, sid: SessionId) {
    && e.RenewSession? && e.sid == sid && sid in s.sessions.records
    && var r := s.sessions.records[sid];
       || r.phase == Preparing
       || (&& r.phase == Active && e.now < r.hardDeadline
           && e.now - r.ttlSeconds < (if r.heartbeatAt.Some? then r.heartbeatAt.value
                                      else if r.activatedAt.Some? then r.activatedAt.value else r.createdAt))
  }

  function RecordDue(s: Sched, e: Scheduler.Step, sid: SessionId): (r: SessionRecord)
    requires sid in s.sessions.records
  {
    var r := s.sessions.records[sid];
    if Closes(s, e, sid) then r.(phase := Closed, retryAt := 0.0)
    else if Blocks(s, e, sid) then r.(phase := Blocked, retryAt := e.now + s.sessions.limits.reconcileSeconds)
    else if Drains(s, e, sid) then r.(phase := Draining)
    else if Activates(s, e, sid) then
      r.(phase := Active, activatedAt := Some(e.now), heartbeatAt := Some(e.now), retryAt := 0.0)
    else if Yields(s, e, sid) then r.(retryAt := e.now + s.sessions.limits.retrySeconds)
    else if Beats(s, e, sid) then r.(heartbeatAt := Some(e.now))
    else r
  }

  /** A session may be registered: for a known model, while the service is up, in a deployment without
      pinned or preloaded models, once, with time left, and if there is room for it and for its waiter. */
  predicate Registers(s: Sched, e: Scheduler.Step) {
    && e.RegisterSession? && !s.shuttingDown && !s.storageLost && e.m in s.world.book.policy.ledger && e.hard > 0.0
    && (forall x :: x in s.world.book.policy.ledger ==>
          !s.world.book.policy.ledger[x].pinned && !s.world.book.policy.ledger[x].preload)
    && e.sid !in s.sessions.records && |s.sessions.records| < s.sessions.limits.maxSessions
    && var waiting := set id | id in s.queue.items && e.now < s.queue.items[id].deadline;
       e.sid !in waiting && |waiting| < s.queue.capacity
  }

  /** Its deadlines run from now: the asked hard limit cut to the configured one bounds the wait and the
      preparation as well. */
  function NewSession(s: Sched, e: Scheduler.Step): (r: SessionRecord)
    requires e.RegisterSession?
  {
    var l := s.sessions.limits;
    var hard := if e.hard <= l.hardSeconds then e.hard else l.hardSeconds;
    SessionRecord(e.m, e.now, e.now + (if l.waitSeconds <= hard then l.waitSeconds else hard),
                  e.now + (if l.prepareSeconds <= hard then l.prepareSeconds else hard), e.now + hard, l.ttlSeconds,
                  Preparing, None, None, 0.0)
  }

  /** The freeze is given back by the worker of the session that holds it, when it is done with it, or by a
      shutdown; and it is taken by the worker that prepares a session. */
  predicate GivesBackFreeze(s: Sched, e: Scheduler.Step) {
    && s.sessionFreeze.Some?
    && var sid := s.sessionFreeze.value;
       || (AtWork(s, sid) && ((e.WorkStopDone? && e.confirmed) || e.WorkAbandoned?))
       || (AtWork(s, sid) && (e.WorkExpire? || e.WorkYield?) && IsPhase(s, sid, Preparing))
       || (e.Shutdown? && sid in s.sessions.records && s.sessions.records[sid].phase != Closed)
  }

  function FreezeDue(s: Sched, e: Scheduler.Step): (f: Option<SessionId>) {
    if e.WorkClaim? && NamesSession(s.worker) && IsPhase(s, s.worker.sid, Preparing) then Some(s.worker.sid)
    else if GivesBackFreeze(s, e) then None
    else s.sessionFreeze
  }

  function ActiveDue(s: Sched, e: Scheduler.Step): (id: Option<SessionId>) {
    if e.WorkReady? && NamesSession(s.worker) && Activates(s, e, s.worker.sid) then Some(s.worker.sid)
    else if s.sessions.activeId.Some?
            && (var sid := s.sessions.activeId.value; Closes(s, e, sid) || Blocks(s, e, sid) || Drains(s, e, sid))
    then None
    else s.sessions.activeId
  }

  /** Where the one worker goes next. */
  function WorkerDue(s: Sched, e: Scheduler.Step): (w: Worker) {
    match e
    case RegisterSession(_, _, _, _, _) => if Registers(s, e) && s.worker == Dead then Idle else s.worker
    case EndSession(sid) =>
      if sid in s.sessions.records && s.sessions.records[sid].phase != Closed && s.worker == Dead then Idle
      else s.worker
    case PlanExpire(sid, _) => Planned(ActExpire, sid)
    case PlanRetry(sid, _) => Planned(ActClose, sid)
    case PlanPrepare(sid, _) => Planned(ActPrepare, sid)
    case PlanClose(sid, _) => Planned(ActClose, sid)
    case WorkReturn => Exiting
    case WorkCrash => Exiting
    case WorkGone => Dead
    case _ => if NamesSession(s.worker) then AtWorkDue(s, e, s.worker.sid) else s.worker
  }

  /** The worker at one session's work: it waits for the leases to drain only while the session prepares,
      cleans up after one that ended while its model was loading, and dies of a session that was closed or
      ended under it. */
  function AtWorkDue(s: Sched, e: Scheduler.Step, sid: SessionId): (w: Worker)
    requires AtWork(s, sid)
  {
    var preparing, open := IsPhase(s, sid, Preparing), sid in s.sessions.records && !IsPhase(s, sid, Closed);
    match e
    case WorkExpire => Idle
    case WorkClaim => if preparing then DrainWait(sid) else Idle
    case WorkDrained => Preloading(sid)
    case WorkTimeout => TimedOut(sid)
    case WorkYield(_) => if preparing then Idle else Exiting
    case WorkReady(_) => if !preparing then Abandoning(sid) else if Activates(s, e, sid) then Idle else Exiting
    case WorkFailed(_) => if open then Idle else Exiting
    case WorkAbandoned => Idle
    case WorkStopStart => Stopping(sid)
    case WorkStopDone(confirmed, _) => if confirmed || open then Idle else Exiting
    case _ => s.worker
  }

  predicate RecordFollows(s: Sched, e: Scheduler.Step, s': Sched, sid: SessionId) {
    && (sid in s'.sessions.records <==> sid in s.sessions.records || (Registers(s, e) && e.sid == sid))
    && (sid in s.sessions.records ==> s'.sessions.records[sid] == RecordDue(s, e, sid))
    && (sid !in s.sessions.records && sid in s'.sessions.records ==> s'.sessions.records[sid] == NewSession(s, e))
  }

  predicate HoldersFollow(s: Sched, e: Scheduler.Step, s': Sched) {
    s'.sessionFreeze == FreezeDue(s, e) && s'.sessions.activeId == ActiveDue(s, e) && s'.worker == WorkerDue(s, e)
  }

  predicate SessionFollows(s: Sched, e: Scheduler.Step, s': Sched, sid: SessionId) {
    RecordFollows(s, e, s', sid) && HoldersFollow(s, e, s')
  }

  // ---- proofs ---------------------------------------------------------------------------------------

  /** A step that is none of these leaves the sessions alone. */
  predicate Uneventful(e: Scheduler.Step) {
    !e.RegisterSession? && !e.EndSession? && !e.RenewSession? && !e.Shutdown? && !e.WorkExpire? && !e.WorkClaim?
    && !e.WorkYield? && !e.WorkReady? && !e.WorkFailed? && !e.WorkAbandoned? && !e.WorkStopDone?
  }

  lemma SameFollows(s: Sched, e: Scheduler.Step, s': Sched, sid: SessionId)
    requires Uneventful(e) && s'.sessions == s.sessions && s'.sessionFreeze == s.sessionFreeze
    requires s'.worker == WorkerDue(s, e)
    ensures SessionFollows(s, e, s', sid)
  {
    hide WorkerDue;
  }

  lemma QuietFollows(s: Sched, e: Scheduler.Step, sid: SessionId)
    requires Enabled(s, e) && Uneventful(e)
    ensures SessionFollows(s, e, Do(s, e), sid)
  {
    if IsAcquireStep(e) {
      assert WorkerDue(s, e) == s.worker;
      hide Do, Enabled, SessionFollows, WorkerDue;
      AcquireSparesSessions(s, e);
      SameFollows(s, e, Do(s, e), sid);
    } else {
      hide Do, Enabled, SessionFollows, WorkerDue;
      QuietSpares(s, e);
      SameFollows(s, e, Do(s, e), sid);
    }
  }

  lemma QuietSpares(s: Sched, e: Scheduler.Step)
    requires Enabled(s, e) && Uneventful(e) && !IsAcquireStep(e)
    ensures Do(s, e).sessions == s.sessions && Do(s, e).sessionFreeze == s.sessionFreeze
    ensures Do(s, e).worker == WorkerDue(s, e)
  {
    hide ExpireAt, HasExpired, RetryDue, AnyExpired, AnyRetryDue, Contenders, IsHead, MayPrepare, AnyLease;
  }

  lemma ExpireRecord(s: Sched, e: Scheduler.Step, sid: SessionId)
    requires e.WorkExpire? && NamesSession(s.worker) && s.worker.sid in s.sessions.records
    ensures RecordFollows(s, e, DoExpire(s, s.worker.sid), sid)
  {
  }

  lemma ExpireHolders(s: Sched, e: Scheduler.Step)
    requires e.WorkExpire? && NamesSession(s.worker) && s.worker.sid in s.sessions.records
    ensures HoldersFollow(s, e, DoExpire(s, s.worker.sid))
  {
    hide Beats;
  }

  lemma ExpireFollows(s: Sched, e: Scheduler.Step, sid: SessionId)
    requires e.WorkExpire? && NamesSession(s.worker) && s.worker.sid in s.sessions.records
    ensures SessionFollows(s, e, DoExpire(s, s.worker.sid), sid)
  {
    hide RecordFollows, HoldersFollow;
    ExpireRecord(s, e, sid);
    ExpireHolders(s, e);
  }

  lemma ClaimFollows(s: Sched, e: Scheduler.Step, sid: SessionId)
    requires e.WorkClaim? && NamesSession(s.worker) && s.worker.sid in s.sessions.records
    ensures SessionFollows(s, e, ClaimFreeze(s, s.worker.sid), sid)
  {
  }

  lemma YieldRecord(s: Sched, e: Scheduler.Step, sid: SessionId)
    requires e.WorkYield? && NamesSession(s.worker)
    ensures RecordFollows(s, e, YieldFreeze(s, s.worker.sid, e.now), sid)
  {
  }

  lemma YieldHolders(s: Sched, e: Scheduler.Step)
    requires e.WorkYield? && NamesSession(s.worker)
    ensures HoldersFollow(s, e, YieldFreeze(s, s.worker.sid, e.now))
  {
    hide Beats;
  }

  lemma YieldFollows(s: Sched, e: Scheduler.Step, sid: SessionId)
    requires e.WorkYield? && NamesSession(s.worker)
    ensures SessionFollows(s, e, YieldFreeze(s, s.worker.sid, e.now), sid)
  {
    hide RecordFollows, HoldersFollow;
    YieldRecord(s, e, sid);
    YieldHolders(s, e);
  }

  lemma ReadyRecord(s: Sched, e: Scheduler.Step, sid: SessionId)
    requires e.WorkReady? && NamesSession(s.worker) && s.worker.sid in s.sessions.records
    ensures RecordFollows(s, e, Activate(s, s.worker.sid, e.now), sid)
  {
  }

  lemma ReadyHolders(s: Sched, e: Scheduler.Step)
    requires e.WorkReady? && NamesSession(s.worker) && s.worker.sid in s.sessions.records
    ensures HoldersFollow(s, e, Activate(s, s.worker.sid, e.now))
  {
    hide Beats;
  }

  lemma ReadyFollows(s: Sched, e: Scheduler.Step, sid: SessionId)
    requires e.WorkReady? && NamesSession(s.worker) && s.worker.sid in s.sessions.records
    ensures SessionFollows(s, e, Activate(s, s.worker.sid, e.now), sid)
  {
    hide RecordFollows, HoldersFollow;
    ReadyRecord(s, e, sid);
    ReadyHolders(s, e);
  }

  lemma BlockRecord(s: Sched, e: Scheduler.Step, sid: SessionId)
    requires (e.WorkFailed? || (e.WorkStopDone? && !e.confirmed)) && NamesSession(s.worker)
    ensures RecordFollows(s, e, Block(s, s.worker.sid, e.now), sid)
  {
  }

  lemma BlockHolders(s: Sched, e: Scheduler.Step)
    requires (e.WorkFailed? || (e.WorkStopDone? && !e.confirmed)) && NamesSession(s.worker)
    ensures HoldersFollow(s, e, Block(s, s.worker.sid, e.now))
  {
    hide Beats;
  }

  lemma BlockFollows(s: Sched, e: Scheduler.Step, sid: SessionId)
    requires (e.WorkFailed? || (e.WorkStopDone? && !e.confirmed)) && NamesSession(s.worker)
    ensures SessionFollows(s, e, Block(s, s.worker.sid, e.now), sid)
  {
    hide RecordFollows, HoldersFollow;
    BlockRecord(s, e, sid);
    BlockHolders(s, e);
  }

  lemma CloseRecord(s: Sched, e: Scheduler.Step, sid: SessionId)
    requires (e.WorkAbandoned? || (e.WorkStopDone? && e.confirmed)) && NamesSession(s.worker)
    requires s.worker.sid in s.sessions.records
    ensures RecordFollows(s, e, Close(s, s.worker.sid), sid)
  {
  }

  lemma CloseHolders(s: Sched, e: Scheduler.Step)
    requires (e.WorkAbandoned? || (e.WorkStopDone? && e.confirmed)) && NamesSession(s.worker)
    requires s.worker.sid in s.sessions.records
    ensures HoldersFollow(s, e, Close(s, s.worker.sid))
  {
    hide Beats;
  }

  lemma CloseFollows(s: Sched, e: Scheduler.Step, sid: SessionId)
    requires (e.WorkAbandoned? || (e.WorkStopDone? && e.confirmed)) && NamesSession(s.worker)
    requires s.worker.sid in s.sessions.records
    ensures SessionFollows(s, e, Close(s, s.worker.sid), sid)
  {
    hide RecordFollows, HoldersFollow;
    CloseRecord(s, e, sid);
    CloseHolders(s, e);
  }

  lemma EndRecord(s: Sched, e: Scheduler.Step, sid: SessionId)
    requires e.EndSession?
    ensures RecordFollows(s, e, CloseSession(s, e.sid), sid)
  {
  }

  lemma EndHolders(s: Sched, e: Scheduler.Step)
    requires e.EndSession?
    ensures HoldersFollow(s, e, CloseSession(s, e.sid))
  {
    hide Beats;
  }

  lemma EndFollows(s: Sched, e: Scheduler.Step, sid: SessionId)
    requires e.EndSession?
    ensures SessionFollows(s, e, CloseSession(s, e.sid), sid)
  {
    hide RecordFollows, HoldersFollow;
    EndRecord(s, e, sid);
    EndHolders(s, e);
  }

  lemma ShutdownRecord(s: Sched, e: Scheduler.Step, sid: SessionId)
    requires e.Shutdown?
    ensures RecordFollows(s, e, BeginShutdown(s), sid)
  {
  }

  lemma ShutdownHolders(s: Sched, e: Scheduler.Step)
    requires e.Shutdown?
    ensures HoldersFollow(s, e, BeginShutdown(s))
  {
    hide Beats;
  }

  lemma ShutdownFollows(s: Sched, e: Scheduler.Step, sid: SessionId)
    requires e.Shutdown?
    ensures SessionFollows(s, e, BeginShutdown(s), sid)
  {
    hide RecordFollows, HoldersFollow;
    ShutdownRecord(s, e, sid);
    ShutdownHolders(s, e);
  }

  lemma RenewFollows(s: Sched, e: Scheduler.Step, sid: SessionId)
    requires e.RenewSession?
    ensures SessionFollows(s, e, Renew(s, e.sid, e.now), sid)
  {
  }

  lemma RegistersIff(s: Sched, e: Scheduler.Step)
    requires e.RegisterSession?
    ensures var s' := Register(s, e.sid, e.m, e.priority, e.hard, e.now);
            && s'.sessions == (if Registers(s, e) then SessionManager.Put(s.sessions, e.sid, NewSession(s, e))
                               else s.sessions)
            && s'.sessionFreeze == s.sessionFreeze
            && s'.worker == if Registers(s, e) && s.worker == Dead then Idle else s.worker
  {
    var waiting := set id | id in s.queue.items && e.now < s.queue.items[id].deadline;
    assert ExpireAt(s.queue, e.now).items.Keys == waiting;
    assert |ExpireAt(s.queue, e.now).items| == |waiting|;
    assert NewRecord(s.sessions.limits, e.m, e.now, MinTime(e.hard, s.sessions.limits.hardSeconds)) == NewSession(s, e);
    hide NewItem, ExpireAt, RequestQueue.Put, SessionManager.Put, NewRecord, NewSession;
  }

  lemma RegisterFollows(s: Sched, e: Scheduler.Step, sid: SessionId)
    requires e.RegisterSession?
    ensures SessionFollows(s, e, Register(s, e.sid, e.m, e.priority, e.hard, e.now), sid)
  {
    RegistersIff(s, e);
    assert Registers(s, e) ==> e.sid !in s.sessions.records;
    hide Register, Registers, NewSession;
  }

  /** Every step of every schedule moves every session, the freeze and the worker so. */
  lemma SessionsAnswer(s: Sched, e: Scheduler.Step, sid: SessionId)
    requires Enabled(s, e)
    ensures SessionFollows(s, e, Do(s, e), sid)
  {
    if Uneventful(e) {
      hide Do, Enabled, SessionFollows;
      QuietFollows(s, e, sid);
    } else {
      hide SessionFollows, DoExpire, ClaimFreeze, YieldFreeze, Activate, Block, Close, CloseSession, BeginShutdown,
           Renew, Register, ApartFromInteractive;
      match e
      case WorkExpire => ExpireFollows(s, e, sid);
      case WorkClaim => ClaimFollows(s, e, sid);
      case WorkYield(_) => YieldFollows(s, e, sid);
      case WorkReady(_) => ReadyFollows(s, e, sid);
      case WorkFailed(_) => BlockFollows(s, e, sid);
      case WorkAbandoned => CloseFollows(s, e, sid);
      case WorkStopDone(confirmed, _) =>
        if confirmed { CloseFollows(s, e, sid); } else { BlockFollows(s, e, sid); }
      case EndSession(_) => EndFollows(s, e, sid);
      case Shutdown => ShutdownFollows(s, e, sid);
      case RenewSession(_, _) => RenewFollows(s, e, sid);
      case RegisterSession(_, _, _, _, _) => RegisterFollows(s, e, sid);
    }
  }

  // ---- every schedule --------------------------------------------------------------------------------

  /** In every schedule a session becomes closed in a step if and only if its own worker reports the stop of
      its model confirmed, has cleaned up after a session that ended while its model was loading, or finds
      its preparation out of time. */
  lemma ClosedIff(ss: seq<Sched>, es: seq<Scheduler.Step>, i: nat, sid: SessionId)
    requires IsSchedule(ss, es) && i < |es| && sid in ss[i].sessions.records
    requires !ss[i].sessions.records[sid].phase.Closed?
    ensures sid in ss[i + 1].sessions.records
    ensures ss[i + 1].sessions.records[sid].phase.Closed? <==>
              || (ss[i].worker == Stopping(sid) && es[i].WorkStopDone? && es[i].confirmed)
              || (ss[i].worker == Abandoning(sid) && es[i].WorkAbandoned?)
              || (&& ss[i].worker == Planned(ActExpire, sid) && es[i].WorkExpire?
                  && ss[i].sessions.records[sid].phase.Preparing?)
  {
    hide Do;
    SessionsAnswer(ss[i], es[i], sid);
    StandsThere(ss[i], es[i]);
    hide Enabled, HoldersFollow, Beats, IsSchedule;
  }

  lemma StandsThere(s: Sched, e: Scheduler.Step)
    requires Enabled(s, e)
    ensures e.WorkStopDone? ==> s.worker.Stopping?
    ensures e.WorkAbandoned? ==> s.worker.Abandoning?
    ensures e.WorkExpire? ==> s.worker.Planned? && s.worker.action.ActExpire?
  {
    hide AnyLease, IsHead, Contenders, AnyExpired, AnyRetryDue, FreshIds;
  }

  /** A stop that is not confirmed never lets a session go: it is blocked until the next reconciliation, no
      longer active, and whoever held the freeze holds it still. */
  lemma UnconfirmedStopBlocks(ss: seq<Sched>, es: seq<Scheduler.Step>, i: nat)
    requires IsSchedule(ss, es) && i < |es| && es[i].WorkStopDone? && !es[i].confirmed
    ensures ss[i].worker.Stopping? && ss[i].worker.sid in ss[i].sessions.records
    ensures ss[i + 1].sessionFreeze == ss[i].sessionFreeze
    ensures var sid := ss[i].worker.sid;
            !ss[i].sessions.records[sid].phase.Closed? ==>
              && sid in ss[i + 1].sessions.records && ss[i + 1].sessions.records[sid].phase.Blocked?
              && ss[i + 1].sessions.records[sid].retryAt == es[i].now + ss[i].sessions.limits.reconcileSeconds
              && ss[i + 1].sessions.activeId != Some(sid)
  {
    hide Do;
    assert ss[i].worker.Stopping? && ss[i].worker.sid in ss[i].sessions.records;
    SessionsAnswer(ss[i], es[i], ss[i].worker.sid);
    hide Enabled, Beats, IsSchedule, WorkerDue;
  }

  /** In every schedule the freeze of a session is released in a step if and only if its own worker is done
      with it, gives up preparing it, or the service shuts down with it open; the worker that prepares
      another session takes it over. */
  lemma FreezeMovesOnlySo(ss: seq<Sched>, es: seq<Scheduler.Step>, i: nat, sid: SessionId)
    requires IsSchedule(ss, es) && i < |es| && ss[i].sessionFreeze == Some(sid)
    ensures ss[i + 1].sessionFreeze.None? <==>
              || (&& NamesSession(ss[i].worker) && ss[i].worker.sid == sid
                  && (|| (es[i].WorkStopDone? && es[i].confirmed) || es[i].WorkAbandoned?
                      || ((es[i].WorkExpire? || es[i].WorkYield?) && StillPreparing(ss[i], sid))))
              || (es[i].Shutdown? && sid in ss[i].sessions.records && !ss[i].sessions.records[sid].phase.Closed?)
    ensures ss[i + 1].sessionFreeze.Some? && ss[i + 1].sessionFreeze != Some(sid) ==>
              es[i].WorkClaim? && NamesSession(ss[i].worker) && ss[i + 1].sessionFreeze == Some(ss[i].worker.sid)
  {
    hide Do;
    SessionsAnswer(ss[i], es[i], sid);
    hide Enabled, RecordFollows, IsSchedule, WorkerDue, ActiveDue;
  }

  /** The session has run out: of its time to wait or prepare, or of its time to live. */
  predicate RanOut(r: SessionRecord, now: Time) {
    || (r.phase == Preparing && (r.waitDeadline <= now || r.prepareDeadline <= now))
    || (r.phase == Active && (r.hardDeadline <= now
                              || (if r.heartbeatAt.Some? then r.heartbeatAt.value
                                  else if r.activatedAt.Some? then r.activatedAt.value else r.createdAt)
                                 <= now - r.ttlSeconds))
  }

  /** The session waits in the queue, is past its backoff and has time left. */
  predicate CouldPrepare(s: Sched, sid: SessionId, now: Time) {
    && sid in s.queue.items && s.queue.items[sid].kind == Session && now < s.queue.items[sid].deadline
    && IsPhase(s, sid, Preparing)
    && var r := s.sessions.records[sid];
       r.retryAt <= now && now < r.waitDeadline && now < r.prepareDeadline && now < r.hardDeadline
  }

  /** Every waiter stands under its own id. */
  predicate OwnIds(q: Queue) {
    forall id :: id in q.items ==> q.items[id].requestId == id
  }

  lemma {:induction false} OwnIdsStay(ss: seq<Sched>, es: seq<Scheduler.Step>, i: nat)
    requires IsSchedule(ss, es) && Fresh(ss[0]) && i < |ss|
    ensures OwnIds(ss[i].queue)
  {
    hide Do, Enabled;
    if i > 0 {
      OwnIdsStay(ss, es, i - 1);
      SchedulerAnswers.QueueStep(ss[i - 1], es[i - 1]);
    }
  }

  lemma PreparesFirst(s: Sched, sid: SessionId, now: Time)
    requires OwnIds(s.queue) && s.queue.aging > 0.0 && IsHead(s.queue, now, MayPrepareAt(s, now), sid)
    ensures CouldPrepare(s, sid, now) && !SomeoneHolds(s.sessions)
    ensures forall o :: CouldPrepare(s, o, now) && o != sid ==>
              Ahead(s.queue.aging, s.queue.items[sid], s.queue.items[o], now)
  {
    HeadContends(s.queue, now, MayPrepareAt(s, now), sid);
    hide SomeoneHolds, Ahead;
  }

  predicate PlansSo(s: Sched, e: Scheduler.Step)
    requires IsPlanStep(e)
  {
    && s.worker.Idle?
    && (e.PlanExpire? ==> e.sid in s.sessions.records && RanOut(s.sessions.records[e.sid], e.now))
    && (!e.PlanExpire? ==> forall x :: x in s.sessions.records ==> !RanOut(s.sessions.records[x], e.now))
    && (e.PlanRetry? ==> IsPhase(s, e.sid, Blocked) && s.sessions.records[e.sid].retryAt <= e.now)
    && (e.PlanPrepare? || e.PlanClose? ==>
          forall x :: x in s.sessions.records && IsPhase(s, x, Blocked) ==> e.now < s.sessions.records[x].retryAt)
    && (e.PlanPrepare? ==>
          && s.queue.aging > 0.0 && CouldPrepare(s, e.sid, e.now)
          && (forall x :: x in s.sessions.records ==> s.sessions.records[x].phase in {Preparing, Closed})
          && (forall o :: o in s.queue.items && CouldPrepare(s, o, e.now) && o != e.sid ==>
                Ahead(s.queue.aging, s.queue.items[e.sid], s.queue.items[o], e.now)))
    && (e.PlanClose? ==> IsPhase(s, e.sid, Draining))
  }

  /** What the idle worker takes up, in this order: a session that ran out, a blocked one whose time to
      reconcile has come, the first waiting session that may prepare, and a draining one. So a session is
      prepared only when no session is active, draining, blocked or out of time, after its backoff, with
      time left, and ahead of every other one that could be. */
  lemma PlansInOrder(ss: seq<Sched>, es: seq<Scheduler.Step>, i: nat)
    requires IsSchedule(ss, es) && Fresh(ss[0]) && i < |es| && IsPlanStep(es[i])
    ensures PlansSo(ss[i], es[i])
  {
    hide Fresh, PlansSo, Do, Enabled, OwnIds;
    OwnIdsStay(ss, es, i);
    StepPlansSo(ss[i], es[i]);
  }

  lemma StepPlansSo(s: Sched, e: Scheduler.Step)
    requires Enabled(s, e) && IsPlanStep(e) && OwnIds(s.queue)
    ensures PlansSo(s, e)
  {
    if !e.PlanExpire? {
      forall x | x in s.sessions.records ensures !RanOut(s.sessions.records[x], e.now) {
        assert !HasExpired(s.sessions.records[x], e.now);
      }
    }
    if e.PlanPrepare? || e.PlanClose? {
      forall x | IsPhase(s, x, Blocked) ensures e.now < s.sessions.records[x].retryAt {
        assert !RetryDue(s.sessions.records[x], e.now);
      }
    }
    if e.PlanPrepare? {
      PreparesFirst(s, e.sid, e.now);
      forall x | x in s.sessions.records ensures s.sessions.records[x].phase in {Preparing, Closed} {
        assert !Holding(s.sessions.records[x].phase);
      }
    }
    hide IsHead, AnyExpired, AnyRetryDue, RanOut;
  }
}
