/** Exclusive sessions: the phase machine of model_scheduler/session_manager.py. A session id is
    also the id of its waiter in the request queue. */
module SessionManager {
  import opened Prelude
  import opened BookModel
  import opened RequestQueue

  type SessionId = RequestId

  datatype Phase = Preparing | Active | Draining | Closed | Blocked

  datatype SessionRecord = SessionRecord(
    modelId: ModelId,
    createdAt: Time,
    waitDeadline: Time,
    prepareDeadline: Time,
    hardDeadline: Time,
    ttlSeconds: Time,
    phase: Phase,
    heartbeatAt: Option<Time>,
    activatedAt: Option<Time>,
    retryAt: Time)

  datatype Limits = Limits(
    maxSessions: nat,
    waitSeconds: Time,
    hardSeconds: Time,
    ttlSeconds: Time,
    prepareSeconds: Time,
    retrySeconds: Time,
    reconcileSeconds: Time)

  datatype Sessions = Sessions(limits: Limits, records: map<SessionId, SessionRecord>, activeId: Option<SessionId>)

  datatype SessionReply<+T> = Done(value: T) | SessionConflict | SessionNotFound

  function MinTime(x: Time, y: Time): (z: Time) {
    if x <= y then x else y
  }

  /** The soft deadline runs from the last activity and never passes the hard one. */
  function ExpiresAt(r: SessionRecord): (t: Time) {
    var activity := if r.heartbeatAt.Some? then r.heartbeatAt.value
                    else if r.activatedAt.Some? then r.activatedAt.value
                    else r.createdAt;
    MinTime(r.hardDeadline, activity + r.ttlSeconds)
  }

  function PreparationExpiredAt(r: SessionRecord): (t: Time) {
    MinTime(r.waitDeadline, r.prepareDeadline)
  }

  predicate IsLive(s: Sessions, id: SessionId, now: Time) {
    id in s.records && s.records[id].phase.Active? && now < ExpiresAt(s.records[id])
  }

  predicate Holding(p: Phase) {
    p.Active? || p.Draining? || p.Blocked?
  }

  predicate SomeoneHolds(s: Sessions) {
    exists id :: id in s.records && Holding(s.records[id].phase)
  }

  /** `candidate`: this session may start preparing now. */
  predicate MayPrepare(s: Sessions, id: SessionId, now: Time) {
    && id in s.records && s.records[id].phase.Preparing?
    && now >= s.records[id].retryAt
    && now < PreparationExpiredAt(s.records[id])
    && now < s.records[id].hardDeadline
    && !SomeoneHolds(s)
  }

  predicate HasExpired(r: SessionRecord, now: Time) {
    || (r.phase.Preparing? && now >= PreparationExpiredAt(r))
    || (r.phase.Active? && now >= ExpiresAt(r))
  }

  function NewRecord(l: Limits, m: ModelId, now: Time, hard: Time): (r: SessionRecord) {
    SessionRecord(m, now, MinTime(now + l.waitSeconds, now + hard), MinTime(now + l.prepareSeconds, now + hard),
                  now + hard, l.ttlSeconds, Preparing, None, None, 0.0)
  }

  function Put(s: Sessions, id: SessionId, r: SessionRecord): (s': Sessions) {
    s.(records := s.records[id := r])
  }

  function Deactivate(s: Sessions, id: SessionId): (s': Sessions) {
    if s.activeId == Some(id) then s.(activeId := None) else s
  }

  function MarkActive(s: Sessions, id: SessionId, now: Time): (reply: SessionReply<Sessions>) {
    if id !in s.records then SessionNotFound
    else if !s.records[id].phase.Preparing? then SessionConflict
    else if s.activeId.Some? && s.activeId.value != id then SessionConflict
    else Done(Put(s, id, s.records[id].(phase := Active, activatedAt := Some(now), heartbeatAt := Some(now),
                                        retryAt := 0.0))
              .(activeId := Some(id)))
  }

  function BeginDrain(s: Sessions, id: SessionId): (reply: SessionReply<Sessions>) {
    if id !in s.records then SessionNotFound
    else if s.records[id].phase.Closed? then Done(s)
    else Done(Deactivate(Put(s, id, s.records[id].(phase := Draining)), id))
  }

  function MarkClosed(s: Sessions, id: SessionId): (reply: SessionReply<Sessions>) {
    if id !in s.records then SessionNotFound
    else if s.records[id].phase.Closed? then Done(s)
    else Done(Deactivate(Put(s, id, s.records[id].(phase := Closed, retryAt := 0.0)), id))
  }

  function MarkBlocked(s: Sessions, id: SessionId, now: Time): (reply: SessionReply<Sessions>) {
    if id !in s.records then SessionNotFound
    else if s.records[id].phase.Closed? then SessionConflict
    else Done(Deactivate(Put(s, id, s.records[id].(phase := Blocked, retryAt := now + s.limits.reconcileSeconds)), id))
  }

  function YieldPrepare(s: Sessions, id: SessionId, now: Time): (reply: SessionReply<Sessions>) {
    if id !in s.records then SessionNotFound
    else if !s.records[id].phase.Preparing? then SessionConflict
    else Done(Put(s, id, s.records[id].(retryAt := now + s.limits.retrySeconds)))
  }

  function Heartbeat(s: Sessions, id: SessionId, now: Time): (reply: SessionReply<Sessions>) {
    if id !in s.records then SessionNotFound
    else
      var r := s.records[id];
      if !r.phase.Preparing? && !r.phase.Active? then SessionConflict
      else if r.phase.Active? && now >= ExpiresAt(r) then SessionConflict
      else Done(Put(s, id, r.(heartbeatAt := Some(now))))
  }

  /** The active id names exactly the active session, so there is at most one. */
  ghost predicate ActiveNamed(s: Sessions) {
    forall id :: (id in s.records && s.records[id].phase.Active?) <==> s.activeId == Some(id)
  }

  // ---- how a record can change -----------------------------------------------------------

  /** What happens to a session's record over any stretch of time: its identity and its deadlines
      never move, a closed record is final, and a session neither starts preparing again nor
      becomes active from anything but preparing. */
  predicate Follows(r: SessionRecord, r': SessionRecord) {
    && r'.modelId == r.modelId && r'.createdAt == r.createdAt && r'.ttlSeconds == r.ttlSeconds
    && r'.waitDeadline == r.waitDeadline && r'.prepareDeadline == r.prepareDeadline && r'.hardDeadline == r.hardDeadline
    && (r.phase.Closed? ==> r' == r)
    && (r'.phase.Active? ==> r.phase.Active? || r.phase.Preparing?)
    && (r'.phase.Preparing? ==> r.phase.Preparing?)
  }

  ghost predicate AllFollow(s: Sessions, s': Sessions) {
    s.records.Keys <= s'.records.Keys && forall id :: id in s.records ==> Follows(s.records[id], s'.records[id])
  }

  /** A session that stays active keeps its record as it is; only a heartbeat touches it. */
  ghost predicate ActiveAsBefore(s: Sessions, s': Sessions) {
    forall id :: id in s.records && id in s'.records && s.records[id].phase.Active? && s'.records[id].phase.Active? ==>
      s'.records[id] == s.records[id]
  }

  ghost predicate NoneActivated(s: Sessions, s': Sessions) {
    forall id :: id in s'.records && s'.records[id].phase.Active? ==> id in s.records && s.records[id].phase.Active?
  }

  lemma DrainFollows(s: Sessions, id: SessionId)
    requires BeginDrain(s, id).Done?
    ensures AllFollow(s, BeginDrain(s, id).value) && ActiveAsBefore(s, BeginDrain(s, id).value)
    ensures NoneActivated(s, BeginDrain(s, id).value)
  {
  }

  lemma CloseFollows(s: Sessions, id: SessionId)
    requires MarkClosed(s, id).Done?
    ensures AllFollow(s, MarkClosed(s, id).value) && ActiveAsBefore(s, MarkClosed(s, id).value)
    ensures NoneActivated(s, MarkClosed(s, id).value)
  {
  }

  lemma BlockFollows(s: Sessions, id: SessionId, now: Time)
    requires MarkBlocked(s, id, now).Done?
    ensures AllFollow(s, MarkBlocked(s, id, now).value) && ActiveAsBefore(s, MarkBlocked(s, id, now).value)
    ensures NoneActivated(s, MarkBlocked(s, id, now).value)
  {
  }

  lemma ActiveFollows(s: Sessions, id: SessionId, now: Time)
    requires MarkActive(s, id, now).Done?
    ensures AllFollow(s, MarkActive(s, id, now).value) && ActiveAsBefore(s, MarkActive(s, id, now).value)
  {
  }

  lemma YieldFollows(s: Sessions, id: SessionId, now: Time)
    requires YieldPrepare(s, id, now).Done?
    ensures AllFollow(s, YieldPrepare(s, id, now).value) && ActiveAsBefore(s, YieldPrepare(s, id, now).value)
    ensures NoneActivated(s, YieldPrepare(s, id, now).value)
  {
  }

  lemma BeatFollows(s: Sessions, id: SessionId, now: Time)
    requires Heartbeat(s, id, now).Done?
    ensures AllFollow(s, Heartbeat(s, id, now).value) && NoneActivated(s, Heartbeat(s, id, now).value)
  {
  }

  lemma FollowsOn(r: SessionRecord, r': SessionRecord, r'': SessionRecord)
    requires Follows(r, r') && Follows(r', r'')
    ensures Follows(r, r'')
  {
  }
}

/** The manager object the scheduler calls under its lock. */
module SessionManagerObject {
  import opened Prelude
  import opened BookModel
  import opened SessionManager

  lemma SameHolders(s: Sessions, s': Sessions)
    requires s'.records.Keys == s.records.Keys && forall id :: id in s.records ==>
               s'.records[id].phase == s.records[id].phase
    ensures SomeoneHolds(s') <==> SomeoneHolds(s)
  {
    if SomeoneHolds(s) {
      var id :| id in s.records && Holding(s.records[id].phase);
      assert id in s'.records;
    }
    if SomeoneHolds(s') {
      var id :| id in s'.records && Holding(s'.records[id].phase);
      assert id in s.records;
    }
  }

  class Manager {
    const limits: Limits
    var records: map<SessionId, SessionRecord>
    var activeId: Option<SessionId>

    ghost function State(): (s: Sessions)
      reads this
    {
      Sessions(limits, records, activeId)
    }

    ghost predicate Valid()
      reads this
    {
      ActiveNamed(State())
    }

    constructor (limits: Limits)
      ensures Valid() && State() == Sessions(limits, map[], None)
    {
      this.limits := limits;
      this.records := map[];
      this.activeId := None;
    }

    method MarkActive(id: SessionId, now: Time) returns (reply: SessionReply<()>)
      requires Valid()
      modifies this
      ensures Valid()
      ensures var spec := SessionManager.MarkActive(old(State()), id, now);
              && (reply.Done? <==> spec.Done?) && (reply.SessionNotFound? <==> spec.SessionNotFound?)
              && State() == (if spec.Done? then spec.value else old(State()))
    {
      if id !in records {
        return SessionNotFound;
      }
      var r := records[id];
      if !r.phase.Preparing? {
        return SessionConflict;
      }
      if activeId.Some? && activeId.value != id {
        return SessionConflict;
      }
      records := records[id := r.(phase := Active, activatedAt := Some(now), heartbeatAt := Some(now), retryAt := 0.0)];
      activeId := Some(id);
      return Done(());
    }

    method BeginDrain(id: SessionId) returns (reply: SessionReply<()>)
      requires Valid()
      modifies this
      ensures Valid()
      ensures var spec := SessionManager.BeginDrain(old(State()), id);
              && (reply.Done? <==> spec.Done?)
              && State() == (if spec.Done? then spec.value else old(State()))
    {
      if id !in records {
        return SessionNotFound;
      }
      if records[id].phase.Closed? {
        return Done(());
      }
      records := records[id := records[id].(phase := Draining)];
      if activeId == Some(id) {
        activeId := None;
      }
      return Done(());
    }

    method MarkClosed(id: SessionId) returns (reply: SessionReply<()>)
      requires Valid()
      modifies this
      ensures Valid()
      ensures var spec := SessionManager.MarkClosed(old(State()), id);
              && (reply.Done? <==> spec.Done?)
              && State() == (if spec.Done? then spec.value else old(State()))
    {
      if id !in records {
        return SessionNotFound;
      }
      if records[id].phase.Closed? {
        return Done(());
      }
      records := records[id := records[id].(phase := Closed, retryAt := 0.0)];
      if activeId == Some(id) {
        activeId := None;
      }
      return Done(());
    }

    method MarkBlocked(id: SessionId, now: Time) returns (reply: SessionReply<()>)
      requires Valid()
      modifies this
      ensures Valid()
      ensures var spec := SessionManager.MarkBlocked(old(State()), id, now);
              && (reply.Done? <==> spec.Done?) && (reply.SessionNotFound? <==> spec.SessionNotFound?)
              && State() == (if spec.Done? then spec.value else old(State()))
    {
      if id !in records {
        return SessionNotFound;
      }
      if records[id].phase.Closed? {
        return SessionConflict;
      }
      records := records[id := records[id].(phase := Blocked, retryAt := now + limits.reconcileSeconds)];
      if activeId == Some(id) {
        activeId := None;
      }
      return Done(());
    }

    method YieldPrepare(id: SessionId, now: Time) returns (reply: SessionReply<()>)
      requires Valid()
      modifies this
      ensures Valid()
      ensures var spec := SessionManager.YieldPrepare(old(State()), id, now);
              && (reply.Done? <==> spec.Done?) && (reply.SessionNotFound? <==> spec.SessionNotFound?)
              && State() == (if spec.Done? then spec.value else old(State()))
      ensures reply.Done? ==> (forall t :: t < now + limits.retrySeconds ==> !MayPrepare(State(), id, t))
      ensures forall x, t :: x != id || !reply.Done? ==> (MayPrepare(State(), x, t) <==> old(MayPrepare(State(), x, t)))
    {
      if id !in records {
        return SessionNotFound;
      }
      if !records[id].phase.Preparing? {
        return SessionConflict;
      }
      records := records[id := records[id].(retryAt := now + limits.retrySeconds)];
      assert SomeoneHolds(State()) <==> old(SomeoneHolds(State())) by { SameHolders(old(State()), State()); }
      return Done(());
    }

    method Heartbeat(id: SessionId, now: Time) returns (reply: SessionReply<()>)
      requires Valid()
      modifies this
      ensures Valid()
      ensures var spec := SessionManager.Heartbeat(old(State()), id, now);
              && (reply.Done? <==> spec.Done?) && (reply.SessionNotFound? <==> spec.SessionNotFound?)
              && State() == (if spec.Done? then spec.value else old(State()))
      ensures reply.Done? <==>
                id in old(records) && (old(records)[id].phase.Preparing? || old(IsLive(State(), id, now)))
      ensures reply.Done? && old(IsLive(State(), id, now)) ==>
                forall t :: IsLive(State(), id, t) <==>
                      t < MinTime(old(records)[id].hardDeadline, now + old(records)[id].ttlSeconds)
      ensures forall x, t :: x != id || !reply.Done? ==> (IsLive(State(), x, t) <==> old(IsLive(State(), x, t)))
    {
      if id !in records {
        return SessionNotFound;
      }
      var r := records[id];
      if !r.phase.Preparing? && !r.phase.Active? {
        return SessionConflict;
      }
      if r.phase.Active? && now >= ExpiresAt(r) {
        return SessionConflict;
      }
      records := records[id := r.(heartbeatAt := Some(now))];
      reply := Done(());
    }
  }
}
