/** Exclusive sessions over every schedule: how a session's record can change, and that an expired
    session stays expired. */
module SessionRuns {
  import opened Prelude
  import opened BookModel
  import opened BookRuns
  import opened RequestQueue
  import opened SessionManager
  import opened Scheduler
  import opened SchedulerRuns
  import Eviction = EvictionPolicy

  // ---- one step ---------------------------------------------------------------------------

  predicate IsAcquireStep(e: Scheduler.Step) {
    e.EnterAcquire? || e.LookAcquire? || e.AdvanceAcquire? || e.LeaveAcquire? || e.CutLeave? || e.OtherBlock?
  }

  /** Sessions, the freeze and the worker as they were. */
  predicate SameSessions(s: Sched, s': Sched) {
    s'.sessions == s.sessions && s'.sessionFreeze == s.sessionFreeze && s'.worker == s.worker
  }

  predicate SameAround(s: Sched, s': Sched) {
    SameSessions(s, s') && s'.interactive == s.interactive
  }

  lemma LookSparesSessions(s: Sched, e: Scheduler.Step)
    requires Enabled(s, e) && e.LookAcquire?
    ensures SameSessions(s, Do(s, e))
  {
    LookBlockSparesSessions(s, e.t, e.now, e.sample, e.admitted, e.uuid);
    hide Look, SameSessions;
  }

  lemma LookBlockSparesSessions(s: Sched, t: TaskId, now: Time, sample: MemorySample, admitted: bool, uuid: Uuid)
    requires t in s.tasks && s.queue.aging > 0.0
    ensures SameSessions(s, Look(s, t, now, sample, admitted, uuid))
  {
    ExpirySparesSessions(s, now);
    var s1 := ExpireIntent(s, now);
    hide ExpireIntent;
    GrantSparesSessions(s1.(queue := ExpireAt(s1.queue, now)), t, uuid);
    hide Grant, IsHead, Apply, CanAdmitReady, ExpireAt;
  }

  lemma GrantSparesSessions(s: Sched, t: TaskId, uuid: Uuid)
    requires t in s.tasks
    ensures SameSessions(s, Grant(s, t, uuid))
  {
    hide Next;
  }

  lemma ExpirySparesSessions(s: Sched, now: Time)
    ensures SameSessions(s, ExpireIntent(s, now)) && ExpireIntent(s, now).tasks == s.tasks
    ensures ExpireIntent(s, now).queue == s.queue
  {
    hide Next;
  }

  lemma AdvanceSparesSessions(s: Sched, e: Scheduler.Step)
    requires Enabled(s, e) && e.AdvanceAcquire?
    ensures SameAround(s, Do(s, e))
  {
    var w := s.tasks[e.t];
    SwitchSparesSessions(s.(tasks := s.tasks[e.t := w.(wantsSample := false)]), w, e.now, Picked(e.picked), e.uuids);
    hide Next, Switch, CanLoad, Eviction.IsRanking, Eviction.IsChoice, FreshIds, ChooseRaises;
  }

  lemma SwitchSparesSessions(s: Sched, w: Waiter, now: Time, chosen: seq<ModelId>, uuids: map<ModelId, Uuid>)
    requires forall m :: m in chosen ==> m in uuids
    requires s.intent.Some? ==> forall m :: m in s.intent.value.frozen ==> m in uuids
    ensures SameAround(s, Switch(s, w, now, chosen, uuids))
  {
    EstablishSpares(s, w, now, chosen);
    EvictSpares(Establish(s, w, now, chosen), w, uuids);
    hide Establish, EvictDrained;
  }

  lemma EstablishSpares(s: Sched, w: Waiter, now: Time, chosen: seq<ModelId>)
    ensures SameAround(s, Establish(s, w, now, chosen))
    ensures var s1 := Establish(s, w, now, chosen);
            s1.intent == s.intent || (s1.intent.Some? && s1.intent.value.frozen == chosen)
  {
    CallSpares(s, Freeze(chosen));
    hide Next, Apply, OnBook;
  }

  lemma EvictSpares(s: Sched, w: Waiter, uuids: map<ModelId, Uuid>)
    requires s.intent.Some? ==> forall m :: m in s.intent.value.frozen ==> m in uuids
    ensures SameAround(s, EvictDrained(s, w, uuids))
  {
    CancelSpares(s, w.requestId);
    if s.intent.Some? { CallSpares(s, Evict(s.intent.value.frozen, true, uuids)); }
    hide Next, Apply, OnBook, CancelIntent;
  }

  lemma CallSpares(s: Sched, c: Call)
    requires WellFormed(c)
    ensures SameAround(s, OnBook(s, c))
  {
    hide Next;
  }

  lemma CancelSpares(s: Sched, req: RequestId)
    ensures SameAround(s, CancelIntent(s, req))
  {
    hide Next;
  }

  lemma EntrySparesSessions(s: Sched, e: Scheduler.Step)
    requires Enabled(s, e) && (e.EnterAcquire? || e.LeaveAcquire? || e.CutLeave? || e.OtherBlock?)
    ensures SameAround(s, Do(s, e))
  {
    hide Next, IsLive, ExpireAt, NewItem;
  }

  /** No block of `acquire`, and no other task's book call, touches a session. */
  lemma AcquireSparesSessions(s: Sched, e: Scheduler.Step)
    requires Enabled(s, e) && IsAcquireStep(e)
    ensures SameSessions(s, Do(s, e))
  {
    hide Do, Enabled;
    if e.LookAcquire? {
      LookSparesSessions(s, e);
    } else if e.AdvanceAcquire? {
      AdvanceSparesSessions(s, e);
    } else {
      EntrySparesSessions(s, e);
    }
  }

  ghost predicate Steady(s: Sessions, s': Sessions) {
    AllFollow(s, s') && ActiveAsBefore(s, s')
  }

  lemma SameIsSteady(s: Sessions)
    ensures Steady(s, s) && NoneActivated(s, s)
  {
  }

  lemma RegisterIsSteady(s: Sched, e: Scheduler.Step)
    requires e.RegisterSession?
    ensures var ses := Register(s, e.sid, e.m, e.priority, e.hard, e.now).sessions;
            Steady(s.sessions, ses) && NoneActivated(s.sessions, ses)
  {
    SameIsSteady(s.sessions);
    var r := NewRecord(s.sessions.limits, e.m, e.now, MinTime(e.hard, s.sessions.limits.hardSeconds));
    if e.sid !in s.sessions.records { ArrivalIsSteady(s.sessions, e.sid, r); }
    hide NewItem, ExpireAt, RequestQueue.Put, SessionManager.Put, NewRecord, Steady, NoneActivated;
  }

  lemma ArrivalIsSteady(ses: Sessions, sid: SessionId, r: SessionRecord)
    requires sid !in ses.records && r.phase.Preparing?
    ensures Steady(ses, SessionManager.Put(ses, sid, r)) && NoneActivated(ses, SessionManager.Put(ses, sid, r))
  {
  }

  lemma EndIsSteady(s: Sched, sid: SessionId)
    ensures Steady(s.sessions, CloseSession(s, sid).sessions)
    ensures NoneActivated(s.sessions, CloseSession(s, sid).sessions)
  {
    if sid in s.sessions.records { DrainFollows(s.sessions, sid); }
    SameIsSteady(s.sessions);
    hide BeginDrain, AllFollow, ActiveAsBefore, NoneActivated;
  }

  lemma ShutdownIsSteady(s: Sched)
    ensures Steady(s.sessions, BeginShutdown(s).sessions) && NoneActivated(s.sessions, BeginShutdown(s).sessions)
  {
  }

  lemma ExpireIsSteady(s: Sched, sid: SessionId)
    requires sid in s.sessions.records
    ensures Steady(s.sessions, DoExpire(s, sid).sessions) && NoneActivated(s.sessions, DoExpire(s, sid).sessions)
  {
    DrainFollows(s.sessions, sid);
    CloseFollows(s.sessions, sid);
    hide BeginDrain, MarkClosed, AllFollow, ActiveAsBefore, NoneActivated;
  }

  lemma CloseIsSteady(s: Sched, sid: SessionId)
    requires sid in s.sessions.records
    ensures Steady(s.sessions, Close(s, sid).sessions) && NoneActivated(s.sessions, Close(s, sid).sessions)
  {
    CloseFollows(s.sessions, sid);
    hide MarkClosed, AllFollow, ActiveAsBefore, NoneActivated;
  }

  lemma BlockIsSteady(s: Sched, sid: SessionId, now: Time)
    ensures Steady(s.sessions, Block(s, sid, now).sessions) && NoneActivated(s.sessions, Block(s, sid, now).sessions)
  {
    if MarkBlocked(s.sessions, sid, now).Done? { BlockFollows(s.sessions, sid, now); }
    SameIsSteady(s.sessions);
    hide MarkBlocked, AllFollow, ActiveAsBefore, NoneActivated;
  }

  lemma YieldIsSteady(s: Sched, sid: SessionId, now: Time)
    ensures Steady(s.sessions, YieldFreeze(s, sid, now).sessions)
    ensures NoneActivated(s.sessions, YieldFreeze(s, sid, now).sessions)
  {
    if YieldPrepare(s.sessions, sid, now).Done? { YieldFollows(s.sessions, sid, now); }
    SameIsSteady(s.sessions);
    hide YieldPrepare, AllFollow, ActiveAsBefore, NoneActivated;
  }

  lemma ActivateIsSteady(s: Sched, sid: SessionId, now: Time)
    requires sid in s.sessions.records
    ensures Steady(s.sessions, Activate(s, sid, now).sessions)
  {
    if MarkActive(s.sessions, sid, now).Done? { ActiveFollows(s.sessions, sid, now); }
    SameIsSteady(s.sessions);
    hide MarkActive, AllFollow, ActiveAsBefore, NoneActivated;
  }

  lemma WorkIsSteady(s: Sched, e: Scheduler.Step)
    requires Enabled(s, e) && !IsAcquireStep(e) && !IsSessionStep(e)
    ensures Steady(s.sessions, Do(s, e).sessions) && (!e.WorkReady? ==> NoneActivated(s.sessions, Do(s, e).sessions))
  {
    SameIsSteady(s.sessions);
    hide Steady, NoneActivated, DoExpire, ClaimFreeze, YieldFreeze, Activate, Block, Close, AnyLease, HasExpired,
         RetryDue, AnyExpired, AnyRetryDue,
         Contenders, IsHead, MayPrepare, ExpireAt;
    match e
    case WorkExpire => ExpireIsSteady(s, s.worker.sid);
    case WorkClaim => ClaimSpares(s, s.worker.sid);
    case WorkYield(now) => YieldIsSteady(s, s.worker.sid, now);
    case WorkReady(now) => ActivateIsSteady(s, s.worker.sid, now);
    case WorkFailed(now) => BlockIsSteady(s, s.worker.sid, now);
    case WorkAbandoned => CloseIsSteady(s, s.worker.sid);
    case WorkStopDone(confirmed, now) =>
      if confirmed { CloseIsSteady(s, s.worker.sid); } else { BlockIsSteady(s, s.worker.sid, now); }
    case _ =>
  }

  lemma ClaimSpares(s: Sched, sid: SessionId)
    requires sid in s.sessions.records
    ensures ClaimFreeze(s, sid).sessions == s.sessions
  {
  }

  lemma SessionCallIsSteady(s: Sched, e: Scheduler.Step)
    requires Enabled(s, e) && IsSessionStep(e) && !e.RenewSession?
    ensures Steady(s.sessions, Do(s, e).sessions) && NoneActivated(s.sessions, Do(s, e).sessions)
  {
    SameIsSteady(s.sessions);
    hide Steady, NoneActivated, Register, CloseSession, BeginShutdown;
    match e
    case RegisterSession(_, _, _, _, _) => RegisterIsSteady(s, e);
    case EndSession(sid) => EndIsSteady(s, sid);
    case Shutdown => ShutdownIsSteady(s);
    case _ =>
  }

  lemma StepIsSteady(s: Sched, e: Scheduler.Step)
    requires Enabled(s, e) && !e.RenewSession?
    ensures Steady(s.sessions, Do(s, e).sessions) && (!e.WorkReady? ==> NoneActivated(s.sessions, Do(s, e).sessions))
  {
    hide Do, Enabled, Steady, NoneActivated;
    if IsAcquireStep(e) {
      AcquireSparesSessions(s, e);
      SameIsSteady(s.sessions);
    } else if IsSessionStep(e) {
      SessionCallIsSteady(s, e);
    } else {
      WorkIsSteady(s, e);
    }
  }

  lemma RenewFollows(s: Sched, e: Scheduler.Step)
    requires Enabled(s, e) && e.RenewSession?
    ensures AllFollow(s.sessions, Do(s, e).sessions) && NoneActivated(s.sessions, Do(s, e).sessions)
  {
    SameIsSteady(s.sessions);
    if Heartbeat(s.sessions, e.sid, e.now).Done? { BeatFollows(s.sessions, e.sid, e.now); }
    hide Heartbeat, AllFollow, ActiveAsBefore, NoneActivated;
  }

  lemma StepFollows(s: Sched, e: Scheduler.Step, sid: SessionId)
    requires Enabled(s, e) && sid in s.sessions.records
    ensures sid in Do(s, e).sessions.records && Follows(s.sessions.records[sid], Do(s, e).sessions.records[sid])
  {
    hide Do, Enabled, ActiveAsBefore, Follows;
    if e.RenewSession? { RenewFollows(s, e); } else { StepIsSteady(s, e); }
  }

  // ---- every schedule ---------------------------------------------------------------------

  /** Between any two moments of any schedule a session keeps its identity and its deadlines, closed
      is final, and it is active or preparing later only if it was on its way there before. */
  lemma {:induction false} SessionsFollow(ss: seq<Sched>, es: seq<Scheduler.Step>, i: nat, j: nat, sid: SessionId)
    requires IsSchedule(ss, es) && i <= j < |ss| && sid in ss[i].sessions.records
    ensures sid in ss[j].sessions.records && Follows(ss[i].sessions.records[sid], ss[j].sessions.records[sid])
    decreases j
  {
    hide Do, Enabled;
    if i < j {
      SessionsFollow(ss, es, i, j - 1, sid);
      StepFollows(ss[j - 1], es[j - 1], sid);
      FollowsOn(ss[i].sessions.records[sid], ss[j - 1].sessions.records[sid], ss[j].sessions.records[sid]);
    }
  }

  /** A session becomes active only while preparing, and only when its model has been reported ready
      to the worker that prepared it. */
  lemma ActivationIsPrepared(ss: seq<Sched>, es: seq<Scheduler.Step>, i: nat, sid: SessionId)
    requires IsSchedule(ss, es) && i < |es| && sid in ss[i + 1].sessions.records
    requires ss[i + 1].sessions.records[sid].phase.Active?
    requires sid in ss[i].sessions.records ==> !ss[i].sessions.records[sid].phase.Active?
    ensures StillPreparing(ss[i], sid) && es[i].WorkReady? && ss[i].worker == Preloading(sid)
  {
    hide Do, Enabled;
    ActivationStep(ss[i], es[i], sid);
  }

  predicate ActiveIn(ses: Sessions, sid: SessionId) {
    sid in ses.records && ses.records[sid].phase.Active?
  }

  lemma ActivationStep(s: Sched, e: Scheduler.Step, sid: SessionId)
    requires Enabled(s, e) && ActiveIn(Do(s, e).sessions, sid) && !ActiveIn(s.sessions, sid)
    ensures StillPreparing(s, sid) && e.WorkReady? && s.worker == Preloading(sid)
  {
    hide Do, Enabled, Steady, AllFollow;
    if e.WorkReady? {
      ReadyActivates(s, e, sid);
    } else if e.RenewSession? {
      RenewFollows(s, e);
      assert false;
    } else {
      StepIsSteady(s, e);
      assert false;
    }
  }

  lemma ReadyActivates(s: Sched, e: Scheduler.Step, sid: SessionId)
    requires Enabled(s, e) && e.WorkReady? && ActiveIn(Do(s, e).sessions, sid) && !ActiveIn(s.sessions, sid)
    ensures StillPreparing(s, sid) && s.worker == Preloading(sid)
  {
    OnlyItselfActivates(s, s.worker.sid, e.now, sid);
    hide Activate, AnyLease;
  }

  lemma OnlyItselfActivates(s: Sched, x: SessionId, now: Time, sid: SessionId)
    requires x in s.sessions.records
    ensures ActiveIn(Activate(s, x, now).sessions, sid) && !ActiveIn(s.sessions, sid) ==>
              sid == x && StillPreparing(s, sid)
  {
  }

  /** An expired session is never live again: once an active session is past its deadline at `t`, and
      the clock does not run backwards, no heartbeat and no other step makes it live at any later
      instant. */
  lemma {:induction false} HeartbeatNeverRevives(ss: seq<Sched>, es: seq<Scheduler.Step>, i: nat, j: nat,
                                                 sid: SessionId, t: Time, later: Time)
    requires IsSchedule(ss, es) && i <= j < |ss| && t <= later
    requires ActiveIn(ss[i].sessions, sid) && !IsLive(ss[i].sessions, sid, t)
    requires forall k :: i <= k < j && es[k].RenewSession? && es[k].sid == sid ==> es[k].now >= t
    ensures sid in ss[j].sessions.records && !IsLive(ss[j].sessions, sid, later)
    ensures ActiveIn(ss[j].sessions, sid) ==> ss[j].sessions.records[sid] == ss[i].sessions.records[sid]
    ensures !ss[j].sessions.records[sid].phase.Preparing?
    decreases j
  {
    hide Do, Enabled;
    SessionsFollow(ss, es, i, j, sid);
    if i < j {
      HeartbeatNeverRevives(ss, es, i, j - 1, sid, t, later);
      ExpiredStep(ss[j - 1], es[j - 1], sid, t);
    }
  }

  lemma ExpiredStep(s: Sched, e: Scheduler.Step, sid: SessionId, t: Time)
    requires Enabled(s, e) && sid in s.sessions.records && !s.sessions.records[sid].phase.Preparing?
    requires ActiveIn(s.sessions, sid) ==> t >= ExpiresAt(s.sessions.records[sid])
    requires e.RenewSession? && e.sid == sid ==> e.now >= t
    ensures ActiveIn(Do(s, e).sessions, sid) ==>
              ActiveIn(s.sessions, sid) && Do(s, e).sessions.records[sid] == s.sessions.records[sid]
  {
    if e.RenewSession? {
    } else {
      hide Do, Enabled, Follows;
      StepIsSteady(s, e);
      StepFollows(s, e, sid);
      ActiveWasOnItsWay(s.sessions.records[sid], Do(s, e).sessions.records[sid]);
    }
  }

  lemma ActiveWasOnItsWay(r: SessionRecord, r': SessionRecord)
    requires Follows(r, r') && !r.phase.Preparing?
    ensures r'.phase.Active? ==> r.phase.Active?
  {
  }
}
