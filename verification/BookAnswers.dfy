/** What every call on the book answers, said on the fields of each model's runtime before and after:
    which call moves a model from which state to which, and what else of it changes. */
module BookAnswers {
  import opened Prelude
  import opened BookModel
  import opened BookRuns

  // ---- when a call is accepted ---------------------------------------------------------------------

  /** The token speaks for its model as it is now. */
  predicate Speaks(b: BookState, op: Operation) {
    && op.modelId in b.runtime && op.epoch == b.epoch
    && b.runtime[op.modelId].generation == op.generation
    && b.runtime[op.modelId].operationId == Some(op.operationId)
  }

  /** A load is admitted on a fresh, plausible sample taken no earlier than the last proven stop, with
      the whole reservation above the floor of free memory, and room in both ledgers. */
  ghost predicate Fits(b: BookState, m: ModelId, s: MemorySample, now: Time)
    requires m in b.runtime && m in b.policy.ledger
  {
    var r, spec := b.runtime[m], b.policy.ledger[m];
    && s.sampledAt <= now <= s.sampledAt + b.policy.maxSampleAge
    && 0 <= s.available <= s.total && s.total != 0
    && (r.stoppedAt.Some? ==> r.stoppedAt.value <= s.sampledAt)
    && s.available - spec.reserved >= b.policy.freeFloor
    && Committed(b) <= b.policy.budget - spec.reserved
    && ((exists x :: x in b.policy.ledger && b.policy.ledger[x].physical.Some?) ==>
          spec.physical.Some? && Sum(PhysicalTable(b) - {m}) <= b.policy.budget - spec.physical.value)
  }

  ghost predicate Loads(b: BookState, c: Call, m: ModelId) {
    && c.Load? && c.m == m && m in b.runtime && m in b.policy.ledger
    && !b.recovering && b.runtime[m].state.Unloaded? && !b.runtime[m].admissionBlocked && b.runtime[m].leases == map[]
    && Fits(b, m, c.sample, c.now)
  }

  predicate Grants(b: BookState, c: Call, m: ModelId) {
    && c.Acquire? && c.m == m && m in b.runtime && m in b.policy.ledger
    && !b.recovering && b.runtime[m].state.Ready? && !b.runtime[m].admissionBlocked
    && |b.runtime[m].leases| < b.policy.ledger[m].maxConcurrency
    && forall x, id :: x in b.runtime && id in b.runtime[x].leases ==> b.runtime[x].leases[id].requestId != c.req
  }

  /** Exactly this lease is out on the model, under its current generation. */
  predicate IsOut(b: BookState, lease: Lease, m: ModelId) {
    && lease.modelId == m && m in b.runtime && lease.leaseId in b.runtime[m].leases
    && b.runtime[m].leases[lease.leaseId] == lease && b.runtime[m].generation == lease.generation
  }

  predicate Frees(b: BookState, c: Call, m: ModelId) {
    c.Free? && IsOut(b, c.lease, m)
  }

  predicate Marks(b: BookState, c: Call, m: ModelId) {
    c.CancelLease? && IsOut(b, c.lease, m)
  }

  predicate StopsBatch(c: Call) {
    c.Evict? || c.Cleanup?
  }

  /** What a batch call asks of each member. */
  predicate MayJoin(b: BookState, c: Call, m: ModelId) {
    && m in b.runtime && b.runtime[m].operationId.None?
    && (c.Cleanup? ==> (b.runtime[m].state.Ready? || b.runtime[m].state.Error?) && b.runtime[m].leases == map[])
    && (c.Evict? || c.Freeze? ==> b.runtime[m].state.Ready? && m in b.policy.ledger && !b.policy.ledger[m].pinned)
    && (c.Evict? ==> b.runtime[m].leases == map[] && (c.automatic ==> b.policy.ledger[m].evictable))
    && (c.Freeze? ==> !b.runtime[m].admissionBlocked && b.policy.ledger[m].evictable)
  }

  /** A batch is taken as a whole: not empty, nobody twice, and every member may join. */
  predicate Joins(b: BookState, c: Call, m: ModelId) {
    && (StopsBatch(c) || c.Freeze?) && m in c.ms && !b.recovering
    && (forall i, j :: 0 <= i < j < |c.ms| ==> c.ms[i] != c.ms[j])
    && (forall x :: x in c.ms ==> MayJoin(b, c, x))
  }

  /** An unfreeze reaches its members up to the first unregistered one. */
  predicate Reopens(b: BookState, c: Call, m: ModelId) {
    && c.Unfreeze? && m in b.runtime && b.runtime[m].state.Ready? && b.runtime[m].operationId.None?
    && exists k :: 0 <= k < |c.ms| && c.ms[k] == m && forall j :: 0 <= j < k ==> c.ms[j] in b.runtime
  }

  predicate Fences(b: BookState, c: Call) {
    c.StartRecovery? && !b.recovering
  }

  predicate Clears(b: BookState, c: Call) {
    && c.EndRecovery? && b.recovering && c.epoch == b.epoch && c.confirmed == b.policy.ledger.Keys
    && forall m :: m in b.runtime ==> b.runtime[m].leases == map[]
  }

  /** The four ways a token moves its model. */
  predicate TokenFor(b: BookState, c: Call, m: ModelId) {
    IsTokenCall(c) && c.op.modelId == m && Speaks(b, c.op)
  }

  predicate Finishes(b: BookState, c: Call, m: ModelId) {
    c.LoadDone? && TokenFor(b, c, m) && b.runtime[m].state.Loading?
  }

  predicate Fails(b: BookState, c: Call, m: ModelId) {
    c.Fail? && TokenFor(b, c, m)
  }

  predicate RollsBack(b: BookState, c: Call, m: ModelId) {
    c.Rollback? && TokenFor(b, c, m) && b.runtime[m].state.Evicting? && b.runtime[m].leases == map[]
  }

  predicate Stops(b: BookState, c: Call, m: ModelId) {
    c.StopDone? && TokenFor(b, c, m) && b.runtime[m].state.Evicting? && b.runtime[m].leases == map[]
  }

  predicate Boots(b: BookState, c: Call, m: ModelId) {
    && c.Bootstrap? && c.m == m && m in b.runtime && b.runtime[m].state.Unknown?
    && b.runtime[m].operationId.None? && b.runtime[m].leases == map[]
  }

  // ---- field by field ----------------------------------------------------------------------------

  ghost function StateDue(b: BookState, c: Call, m: ModelId): (s: State)
    requires m in b.runtime
  {
    var s := b.runtime[m].state;
    if Loads(b, c, m) then Loading
    else if Finishes(b, c, m) || RollsBack(b, c, m) then Ready
    else if StopsBatch(c) && Joins(b, c, m) then Evicting
    else if Boots(b, c, m) || Stops(b, c, m) || Clears(b, c) then Unloaded
    else if Fails(b, c, m) || (Frees(b, c, m) && c.outcome.Aborted?) || (Fences(b, c) && !s.Unloaded?) then Error
    else s
  }

  ghost function LeasesDue(b: BookState, c: Call, m: ModelId): (leases: map<Uuid, Lease>)
    requires m in b.runtime
  {
    var leases := b.runtime[m].leases;
    if Grants(b, c, m) then leases[c.uuid := Lease(c.uuid, c.req, m, b.runtime[m].generation)]
    else if Frees(b, c, m) then leases - {c.lease.leaseId}
    else leases
  }

  ghost function CancellingDue(b: BookState, c: Call, m: ModelId): (leases: map<Uuid, Lease>)
    requires m in b.runtime
  {
    var marked := b.runtime[m].cancelling;
    if Frees(b, c, m) then marked - {c.lease.leaseId}
    else if Marks(b, c, m) then marked[c.lease.leaseId := c.lease]
    else marked
  }

  ghost predicate BlockedDue(b: BookState, c: Call, m: ModelId)
    requires m in b.runtime
  {
    if Finishes(b, c, m) || RollsBack(b, c, m) || Stops(b, c, m) || Clears(b, c) || Reopens(b, c, m) then false
    else b.runtime[m].admissionBlocked || Fails(b, c, m) || Joins(b, c, m) || Fences(b, c)
         || (Frees(b, c, m) && c.outcome.Aborted?)
  }

  ghost function TokenDue(b: BookState, c: Call, m: ModelId): (id: Option<Uuid>)
    requires m in b.runtime && WellFormed(c)
  {
    if Loads(b, c, m) then Some(c.uuid)
    else if StopsBatch(c) && Joins(b, c, m) then Some(c.uuids[m])
    else if Finishes(b, c, m) || RollsBack(b, c, m) || Stops(b, c, m) || Fails(b, c, m) || Fences(b, c) || Clears(b, c)
    then None
    else b.runtime[m].operationId
  }

  ghost function ReservationDue(b: BookState, c: Call, m: ModelId): (bytes: nat)
    requires m in b.runtime
  {
    if Loads(b, c, m) then b.policy.ledger[m].reserved
    else if Boots(b, c, m) || Stops(b, c, m) || Clears(b, c) then 0
    else b.runtime[m].reservation
  }

  /** Since when the model is idle: since its load or its last release, and not while leased, loading
      or stopped. */
  ghost function IdleDue(b: BookState, c: Call, m: ModelId): (since: Option<Time>)
    requires m in b.runtime
  {
    if Loads(b, c, m) || Grants(b, c, m) || Stops(b, c, m) || Clears(b, c) then None
    else if Finishes(b, c, m) then Some(c.now)
    else if Frees(b, c, m) && b.runtime[m].leases.Keys == {c.lease.leaseId} then Some(c.now)
    else b.runtime[m].idleSince
  }

  ghost predicate RuntimeFollows(b: BookState, c: Call, m: ModelId, r': Runtime)
    requires m in b.runtime && WellFormed(c)
  {
    && r'.state == StateDue(b, c, m) && r'.leases == LeasesDue(b, c, m) && r'.cancelling == CancellingDue(b, c, m)
    && (r'.admissionBlocked <==> BlockedDue(b, c, m)) && r'.operationId == TokenDue(b, c, m)
    && r'.reservation == ReservationDue(b, c, m) && r'.idleSince == IdleDue(b, c, m)
    && r'.generation == b.runtime[m].generation + (if Loads(b, c, m) then 1 else 0)
    && r'.stoppedAt == (if Stops(b, c, m) then Some(c.now) else b.runtime[m].stoppedAt)
  }

  ghost predicate Follows(b: BookState, c: Call, b': BookState)
    requires WellFormed(c)
  {
    && b'.policy == b.policy && b'.runtime.Keys == b.runtime.Keys
    && b'.epoch == b.epoch + (if Fences(b, c) then 1 else 0)
    && (b'.recovering <==> (b.recovering || Fences(b, c)) && !Clears(b, c))
    && forall m :: m in b.runtime ==> RuntimeFollows(b, c, m, b'.runtime[m])
  }

  // ---- proofs, call by call ------------------------------------------------------------------------

  /** Nothing of what can move a model happens. */
  ghost predicate Unmoved(b: BookState, c: Call, m: ModelId)
    requires m in b.runtime
  {
    && !Loads(b, c, m) && !Grants(b, c, m) && !Frees(b, c, m) && !Joins(b, c, m) && !Reopens(b, c, m)
    && !Fences(b, c) && !Clears(b, c) && !Finishes(b, c, m) && !Fails(b, c, m) && !RollsBack(b, c, m)
    && !Stops(b, c, m) && !Boots(b, c, m) && !Marks(b, c, m)
  }

  lemma StaysPut(b: BookState, c: Call, m: ModelId)
    requires m in b.runtime && WellFormed(c) && Unmoved(b, c, m)
    ensures RuntimeFollows(b, c, m, b.runtime[m])
  {
    hide Loads, Grants, Frees, Joins, Reopens, Fences, Clears, Finishes, Fails, RollsBack, Stops, Boots, Marks;
  }

  lemma AdmissibleIff(b: BookState, m: ModelId, s: MemorySample, now: Time)
    requires m in b.runtime && m in b.policy.ledger
    ensures CanLoad(b, m, s, now) <==>
              && !b.recovering && b.runtime[m].state.Unloaded? && !b.runtime[m].admissionBlocked
              && b.runtime[m].leases == map[] && Fits(b, m, s, now)
  {
    hide Committed, Sum, PhysicalTable;
  }

  lemma LoadFollows(b: BookState, c: Call, m: ModelId)
    requires m in b.runtime && c.Load?
    ensures m in After(b, c).runtime && RuntimeFollows(b, c, m, After(b, c).runtime[m])
  {
    if c.m in b.runtime && c.m in b.policy.ledger { AdmissibleIff(b, c.m, c.sample, c.now); }
    hide CanLoad, Fits;
  }

  lemma LoadDoneFollows(b: BookState, c: Call, m: ModelId)
    requires m in b.runtime && c.LoadDone? && TokenFor(b, c, m)
    ensures m in After(b, c).runtime && RuntimeFollows(b, c, m, After(b, c).runtime[m])
  {
  }

  lemma FailFollows(b: BookState, c: Call, m: ModelId)
    requires m in b.runtime && c.Fail? && TokenFor(b, c, m)
    ensures m in After(b, c).runtime && RuntimeFollows(b, c, m, After(b, c).runtime[m])
  {
  }

  lemma RollbackFollows(b: BookState, c: Call, m: ModelId)
    requires m in b.runtime && c.Rollback? && TokenFor(b, c, m)
    ensures m in After(b, c).runtime && RuntimeFollows(b, c, m, After(b, c).runtime[m])
  {
  }

  lemma StopFollows(b: BookState, c: Call, m: ModelId)
    requires m in b.runtime && c.StopDone? && TokenFor(b, c, m)
    ensures m in After(b, c).runtime && RuntimeFollows(b, c, m, After(b, c).runtime[m])
  {
  }

  lemma TokenFollows(b: BookState, c: Call, m: ModelId)
    requires m in b.runtime && IsTokenCall(c)
    ensures m in After(b, c).runtime && RuntimeFollows(b, c, m, After(b, c).runtime[m])
  {
    if !TokenFor(b, c, m) {
      assert After(b, c).runtime[m] == b.runtime[m];
      hide After, Speaks;
      StaysPut(b, c, m);
    } else {
      hide After, RuntimeFollows, TokenFor;
      match c
      case LoadDone(_, _) => LoadDoneFollows(b, c, m);
      case Fail(_) => FailFollows(b, c, m);
      case Rollback(_) => RollbackFollows(b, c, m);
      case StopDone(_, _) => StopFollows(b, c, m);
    }
  }

  lemma AcquireFollows(b: BookState, c: Call, m: ModelId)
    requires m in b.runtime && c.Acquire?
    ensures m in After(b, c).runtime && RuntimeFollows(b, c, m, After(b, c).runtime[m])
  {
    if Grants(b, c, m) {
      assert After(b, c).runtime[m] == b.runtime[m].(idleSince := None,
        leases := b.runtime[m].leases[c.uuid := Lease(c.uuid, c.req, m, b.runtime[m].generation)]);
      hide Grants, After;
    } else {
      assert After(b, c).runtime[m] == b.runtime[m];
      hide Grants, After;
      StaysPut(b, c, m);
    }
  }

  lemma FreeFollows(b: BookState, c: Call, m: ModelId)
    requires m in b.runtime && c.Free?
    ensures m in After(b, c).runtime && RuntimeFollows(b, c, m, After(b, c).runtime[m])
  {
    if Frees(b, c, m) {
      var r := b.runtime[m];
      var left := r.leases - {c.lease.leaseId};
      assert left == map[] <==> r.leases.Keys == {c.lease.leaseId} by {
        assert left.Keys == r.leases.Keys - {c.lease.leaseId};
        assert left.Keys == {} ==> left == map[];
      }
      FreedReads(b, c, m, After(b, c).runtime[m]);
    } else {
      assert After(b, c).runtime[m] == b.runtime[m];
      hide After;
      StaysPut(b, c, m);
    }
  }

  lemma FreedReads(b: BookState, c: Call, m: ModelId, r': Runtime)
    requires m in b.runtime && Frees(b, c, m)
    requires var r := b.runtime[m];
             && r'.leases == r.leases - {c.lease.leaseId} && r'.cancelling == r.cancelling - {c.lease.leaseId}
             && r'.state == (if c.outcome.Aborted? then Error else r.state)
             && r'.admissionBlocked == (c.outcome.Aborted? || r.admissionBlocked)
             && r'.idleSince == (if r.leases.Keys == {c.lease.leaseId} then Some(c.now) else r.idleSince)
             && r'.operationId == r.operationId && r'.reservation == r.reservation && r'.generation == r.generation
             && r'.stoppedAt == r.stoppedAt
    ensures RuntimeFollows(b, c, m, r')
  {
  }

  lemma MarkFollows(b: BookState, c: Call, m: ModelId)
    requires m in b.runtime && (c.CancelLease? || c.Bootstrap?)
    ensures m in After(b, c).runtime && RuntimeFollows(b, c, m, After(b, c).runtime[m])
  {
  }

  lemma JoinsIff(b: BookState, c: Call)
    requires (StopsBatch(c) || c.Freeze?) && WellFormed(c)
    ensures Apply(b, c).Ok? <==> c.ms != [] && Joins(b, c, c.ms[0])
    ensures forall m :: Joins(b, c, m) <==> m in c.ms && Apply(b, c).Ok?
  {
    var good := if c.Evict? then EvictableNow(b, c.automatic) else if c.Cleanup? then CleanableNow(b)
                else FreezableNow(b);
    VetMeaning(b, c.ms, good);
    forall m
      ensures m in good ==> MayJoin(b, c, m)
      ensures MayJoin(b, c, m) ==> m in good
    {
    }
    hide EvictableNow, CleanableNow, FreezableNow, Vet, MayJoin, Marked;
  }

  lemma BatchFollows(b: BookState, c: Call, m: ModelId)
    requires m in b.runtime && (StopsBatch(c) || c.Freeze?) && WellFormed(c)
    ensures m in After(b, c).runtime && RuntimeFollows(b, c, m, After(b, c).runtime[m])
  {
    JoinsIff(b, c);
    if Joins(b, c, m) {
      var r' := After(b, c).runtime[m];
      assert r' == if c.Freeze? then b.runtime[m].(admissionBlocked := true)
                   else MarkedRuntime(b.runtime[m], c.uuids[m]);
      hide After, Apply, Joins;
    } else {
      assert After(b, c).runtime[m] == b.runtime[m] by { hide EvictableNow, CleanableNow, FreezableNow, Vet, Joins; }
      hide After, Apply, Joins;
      StaysPut(b, c, m);
    }
  }

  lemma {:induction false} ReachedIff(b: BookState, ms: seq<ModelId>, m: ModelId)
    ensures m in Registered(b, ms) <==>
              m in b.runtime && exists k :: 0 <= k < |ms| && ms[k] == m && forall j :: 0 <= j < k ==> ms[j] in b.runtime
  {
    var known := Registered(b, ms);
    if k :| 0 <= k < |ms| && ms[k] == m && m in b.runtime && forall j :: 0 <= j < k ==> ms[j] in b.runtime {
      assert k < |known|;
      assert known[k] == m;
    }
    if m in known {
      var k :| 0 <= k < |known| && known[k] == m;
      assert ms[k] == m && forall j :: 0 <= j < k ==> ms[j] == known[j];
    }
  }

  lemma UnfreezeFollows(b: BookState, c: Call, m: ModelId)
    requires m in b.runtime && c.Unfreeze?
    ensures m in After(b, c).runtime && RuntimeFollows(b, c, m, After(b, c).runtime[m])
  {
    ReachedIff(b, c.ms, m);
    hide Registered;
    if Reopens(b, c, m) {
      assert After(b, c).runtime[m] == b.runtime[m].(admissionBlocked := false);
      hide After, Apply, Reopens;
      ReopenedReads(b, c, m, After(b, c).runtime[m]);
    } else {
      assert After(b, c).runtime[m] == b.runtime[m];
      hide After, Apply, Reopens;
      StaysPut(b, c, m);
    }
  }

  lemma ReopenedReads(b: BookState, c: Call, m: ModelId, r': Runtime)
    requires m in b.runtime && Reopens(b, c, m) && r' == b.runtime[m].(admissionBlocked := false)
    ensures RuntimeFollows(b, c, m, r')
  {
  }

  lemma RecoveryFollows(b: BookState, c: Call, m: ModelId)
    requires m in b.runtime && (c.StartRecovery? || c.EndRecovery?)
    ensures m in After(b, c).runtime && RuntimeFollows(b, c, m, After(b, c).runtime[m])
  {
  }

  lemma RuntimeAnswers(b: BookState, c: Call, m: ModelId)
    requires m in b.runtime && WellFormed(c)
    ensures m in After(b, c).runtime && RuntimeFollows(b, c, m, After(b, c).runtime[m])
  {
    hide After, RuntimeFollows;
    if c.Load? {
      LoadFollows(b, c, m);
    } else if IsTokenCall(c) {
      TokenFollows(b, c, m);
    } else if c.Acquire? {
      AcquireFollows(b, c, m);
    } else if c.Free? {
      FreeFollows(b, c, m);
    } else if c.CancelLease? || c.Bootstrap? {
      MarkFollows(b, c, m);
    } else if StopsBatch(c) || c.Freeze? {
      BatchFollows(b, c, m);
    } else if c.Unfreeze? {
      UnfreezeFollows(b, c, m);
    } else {
      RecoveryFollows(b, c, m);
    }
  }

  lemma FrameAnswers(b: BookState, c: Call)
    requires WellFormed(c)
    ensures var b' := After(b, c);
            && b'.policy == b.policy && b'.runtime.Keys == b.runtime.Keys
            && b'.epoch == b.epoch + (if Fences(b, c) then 1 else 0)
            && (b'.recovering <==> (b.recovering || Fences(b, c)) && !Clears(b, c))
  {
    hide CanLoad, Vet, OwnsLease, EvictableNow, CleanableNow, FreezableNow, Distinct, Registered;
  }

  /** Every call on every book answers so, model by model and field by field. */
  lemma CallAnswers(b: BookState, c: Call)
    requires WellFormed(c)
    ensures Follows(b, c, After(b, c))
  {
    hide After, RuntimeFollows, Fences, Clears;
    FrameAnswers(b, c);
    forall m | m in b.runtime
      ensures RuntimeFollows(b, c, m, After(b, c).runtime[m])
    {
      RuntimeAnswers(b, c, m);
    }
  }

  /** Which calls are accepted, and what the others are told. */
  ghost predicate Accepted(b: BookState, c: Call) {
    match c
    case Bootstrap(m) => Boots(b, c, m)
    case Load(m, _, _, _) => Loads(b, c, m)
    case Acquire(m, _, _) => Grants(b, c, m)
    case LoadDone(op, _) => Finishes(b, c, op.modelId)
    case Fail(op) => Fails(b, c, op.modelId)
    case Rollback(op) => RollsBack(b, c, op.modelId)
    case StopDone(op, _) => Stops(b, c, op.modelId)
    case Free(lease, _, _) => lease.modelId in b.runtime
    case CancelLease(lease) => lease.modelId in b.runtime
    case Evict(ms, _, _) => ms != [] && Joins(b, c, ms[0])
    case Cleanup(ms, _) => ms != [] && Joins(b, c, ms[0])
    case Freeze(ms) => ms != [] && Joins(b, c, ms[0])
    case Unfreeze(_) => true
    case StartRecovery => true
    case EndRecovery(_, _) => Clears(b, c)
  }

  lemma AcceptedIff(b: BookState, c: Call)
    requires WellFormed(c) && b.runtime.Keys == b.policy.ledger.Keys
    ensures Apply(b, c).Ok? <==> Accepted(b, c)
    ensures IsTokenCall(c) ==>
              && (Apply(b, c).KeyError? <==> c.op.modelId !in b.runtime)
              && (Apply(b, c).StaleOperation? <==> c.op.modelId in b.runtime && !Speaks(b, c.op))
    ensures c.Load? || c.Acquire? || c.Bootstrap? ==> (Apply(b, c).KeyError? <==> c.m !in b.runtime)
    ensures c.EndRecovery? ==> (Apply(b, c).StaleOperation? <==> !b.recovering || c.epoch != b.epoch)
  {
    if StopsBatch(c) || c.Freeze? {
      JoinsIff(b, c);
      hide Apply, Joins;
    } else if c.Load? {
      if c.m in b.runtime { AdmissibleIff(b, c.m, c.sample, c.now); }
      hide CanLoad, Fits;
    } else {
      hide CanLoad, Fits, Joins, Registered;
    }
  }

  // ---- every run -----------------------------------------------------------------------------------

  lemma RunAnswers(ws: seq<World>, cs: seq<Call>, i: nat)
    requires IsRun(ws, cs) && i < |cs|
    ensures WellFormed(cs[i]) && Follows(ws[i].book, cs[i], ws[i + 1].book)
  {
    hide Step, Follows, After;
    StepOf(ws[i], cs[i], ws[i + 1]);
    CallAnswers(ws[i].book, cs[i]);
  }

  /** The life of a model in every run, each arrow with the calls that take it: unknown or evicting or
      under recovery to unloaded, unloaded to loading, loading or evicting to ready, ready or failed to
      evicting, and anything but unloaded to failed. There is no other arrow. */
  lemma StatesMoveOnlySo(ws: seq<World>, cs: seq<Call>, i: nat, m: ModelId)
    requires IsRun(ws, cs) && WorldInv(ws[0]) && i < |cs| && m in ws[i].book.runtime
    ensures m in ws[i + 1].book.runtime
    ensures var b, c, s, s' := ws[i].book, cs[i], ws[i].book.runtime[m].state, ws[i + 1].book.runtime[m].state;
            && (s'.Unknown? ==> s.Unknown?)
            && (s'.Loading? && !s.Loading? <==> Loads(b, c, m))
            && (s'.Ready? && !s.Ready? <==> Finishes(b, c, m) || RollsBack(b, c, m))
            && (s'.Evicting? && !s.Evicting? <==> StopsBatch(c) && Joins(b, c, m))
            && (s'.Unloaded? && !s.Unloaded? <==>
                  Boots(b, c, m) || Stops(b, c, m) || (Clears(b, c) && !s.Unloaded?))
            && (s'.Error? && !s.Error? <==>
                  !s.Error? && (|| Fails(b, c, m) || (Frees(b, c, m) && c.outcome.Aborted?)
                                || (Fences(b, c) && !s.Unloaded?)))
            && (s'.Loading? && !s.Loading? ==> s.Unloaded?) && (s'.Ready? && !s.Ready? ==> s.Loading? || s.Evicting?)
            && (s'.Evicting? && !s.Evicting? ==> s.Ready? || s.Error?)
            && (s'.Unloaded? && !s.Unloaded? ==> s.Unknown? || s.Evicting? || (b.recovering && s.Error?))
            && (s'.Error? && !s.Error? ==> !s.Unloaded?)
  {
    hide Step, WorldInv, RuntimeFollows, RuntimeInv;
    RunKeepsWorld(ws, cs, i);
    RunAnswers(ws, cs, i);
    SoundOf(ws[i], m);
    ArrowsOf(ws[i].book, cs[i], m, ws[i + 1].book.runtime[m]);
  }

  lemma SoundOf(w: World, m: ModelId)
    requires WorldInv(w) && m in w.book.runtime
    ensures m in w.book.policy.ledger
    ensures RuntimeInv(w.book.policy.ledger[m], m, w.book.runtime[m], w.book.recovering)
  {
  }

  lemma ArrowsOf(b: BookState, c: Call, m: ModelId, r': Runtime)
    requires WellFormed(c) && m in b.runtime && m in b.policy.ledger && RuntimeFollows(b, c, m, r')
    requires RuntimeInv(b.policy.ledger[m], m, b.runtime[m], b.recovering)
    ensures var s, s' := b.runtime[m].state, r'.state;
            && (s'.Unknown? ==> s.Unknown?)
            && (s'.Loading? && !s.Loading? <==> Loads(b, c, m))
            && (s'.Ready? && !s.Ready? <==> Finishes(b, c, m) || RollsBack(b, c, m))
            && (s'.Evicting? && !s.Evicting? <==> StopsBatch(c) && Joins(b, c, m))
            && (s'.Unloaded? && !s.Unloaded? <==>
                  Boots(b, c, m) || Stops(b, c, m) || (Clears(b, c) && !s.Unloaded?))
            && (s'.Error? && !s.Error? <==>
                  !s.Error? && (|| Fails(b, c, m) || (Frees(b, c, m) && c.outcome.Aborted?)
                                || (Fences(b, c) && !s.Unloaded?)))
            && (s'.Loading? && !s.Loading? ==> s.Unloaded?) && (s'.Ready? && !s.Ready? ==> s.Loading? || s.Evicting?)
            && (s'.Evicting? && !s.Evicting? ==> s.Ready? || s.Error?)
            && (s'.Unloaded? && !s.Unloaded? ==> s.Unknown? || s.Evicting? || (b.recovering && s.Error?))
            && (s'.Error? && !s.Error? ==> !s.Unloaded?)
  {
    assert r'.state == StateDue(b, c, m);
    assert Joins(b, c, m) ==> MayJoin(b, c, m);
    hide RuntimeFollows, Fits, Joins, Grants;
  }

  /** A model that is lent out is never counted as idle, so its time to live does not run. */
  lemma {:induction false} LentIsNotIdle(ws: seq<World>, cs: seq<Call>, i: nat, m: ModelId)
    requires IsRun(ws, cs) && WorldInv(ws[0]) && i < |ws| && m in ws[i].book.runtime
    requires forall x :: x in ws[0].book.runtime ==> ws[0].book.runtime[x].leases == map[]
    ensures ws[i].book.runtime[m].leases != map[] ==> ws[i].book.runtime[m].idleSince.None?
  {
    hide Step, WorldInv, RuntimeFollows, RuntimeInv;
    if i > 0 {
      RunAnswers(ws, cs, i - 1);
      RunKeepsWorld(ws, cs, i - 1);
      assert m in ws[i - 1].book.runtime;
      LentIsNotIdle(ws, cs, i - 1, m);
      SoundOf(ws[i - 1], m);
      IdleStep(ws[i - 1].book, cs[i - 1], m, ws[i].book.runtime[m]);
    }
  }

  lemma IdleStep(b: BookState, c: Call, m: ModelId, r': Runtime)
    requires WellFormed(c) && m in b.runtime && m in b.policy.ledger && RuntimeFollows(b, c, m, r')
    requires RuntimeInv(b.policy.ledger[m], m, b.runtime[m], b.recovering)
    requires b.runtime[m].leases != map[] ==> b.runtime[m].idleSince.None?
    ensures r'.leases != map[] ==> r'.idleSince.None?
  {
    assert r'.leases == LeasesDue(b, c, m) && r'.idleSince == IdleDue(b, c, m);
    if Frees(b, c, m) && b.runtime[m].leases.Keys == {c.lease.leaseId} {
      assert r'.leases.Keys == {};
      assert r'.leases == map[];
    }
    hide RuntimeFollows, Fits, Joins, Grants, Clears;
  }

  // ---- a failed model comes back to life ---------------------------------------------------------

  /** The model is being stopped under this token. */
  predicate StoppingUnder(b: BookState, m: ModelId, op: Operation) {
    && Speaks(b, op) && op.modelId == m && b.runtime[m].state.Evicting? && b.runtime[m].leases == map[]
  }

  lemma BothJoin(w: World, x: ModelId, m: ModelId, u: Uuid, v: Uuid)
    requires WorldInv(w) && !w.book.recovering && x != m && x in w.book.runtime && m in w.book.runtime
    requires w.book.runtime[x].state.Ready? || w.book.runtime[x].state.Error?
    requires w.book.runtime[m].state.Error?
    requires w.book.runtime[x].leases == map[] && w.book.runtime[m].leases == map[]
    ensures Joins(w.book, Cleanup([x, m], map[x := u, m := v]), m)
  {
    hide WorldInv;
    SoundOf(w, x);
    SoundOf(w, m);
  }

  lemma JoinedIsStopping(b: BookState, c: Call, m: ModelId, b': BookState)
    requires WellFormed(c) && c.Cleanup? && Joins(b, c, m) && Follows(b, c, b')
    ensures m in c.ms && m in b.runtime
    ensures StoppingUnder(b', m, Operation(c.uuids[m], m, b.runtime[m].generation, b.epoch))
  {
    assert MayJoin(b, c, m) && RuntimeFollows(b, c, m, b'.runtime[m]);
    hide Joins, Fits;
  }

  lemma OthersFail(b: BookState, c: Call, m: ModelId, op: Operation, b': BookState)
    requires c.Fail? && c.op.modelId != m && StoppingUnder(b, m, op) && Follows(b, c, b')
    ensures StoppingUnder(b', m, op)
  {
    assert RuntimeFollows(b, c, m, b'.runtime[m]);
    hide Joins, Fits;
  }

  lemma RolledBackIsReady(b: BookState, c: Call, m: ModelId, b': BookState)
    requires c.Rollback? && StoppingUnder(b, m, c.op) && Follows(b, c, b')
    ensures m in b'.runtime && b'.runtime[m].state.Ready? && !b'.runtime[m].admissionBlocked
    ensures b'.runtime[m].generation == b.runtime[m].generation
  {
    assert RuntimeFollows(b, c, m, b'.runtime[m]);
    hide Joins, Fits;
  }

  lemma FreshBatch(w: World, x: ModelId, m: ModelId, u: Uuid, v: Uuid)
    requires x != m && u != v && u !in w.drawn && v !in w.drawn
    ensures FreshCall(w, Cleanup([x, m], map[x := u, m := v]))
  {
  }

  lemma StepTo(w: World, c: Call)
    requires FreshCall(w, c) || c.Fail? || c.Rollback?
    ensures WellFormed(c) && Step(w, c, Next(w, c)) && Follows(w.book, c, Next(w, c).book)
  {
    hide After, Issues, Follows;
    CallAnswers(w.book, c);
  }

  /** The rollback of a stop batch is meant to undo what was not sent yet, and for the failed models that
      `begin_cleanup` accepts it does not: from every sound book with an idle model `x` and an idle
      failed model `m`, cleaning up both without a proof that `x` stopped leaves `m` ready and open to
      leases, in the generation that failed. */
  lemma CleanupRevivesFailed(w: World, x: ModelId, m: ModelId, u: Uuid, v: Uuid)
    returns (ws: seq<World>, cs: seq<Call>)
    requires WorldInv(w) && !w.book.recovering && x != m && u != v && u !in w.drawn && v !in w.drawn
    requires x in w.book.runtime && (w.book.runtime[x].state.Ready? || w.book.runtime[x].state.Error?)
    requires m in w.book.runtime && w.book.runtime[m].state.Error?
    requires w.book.runtime[x].leases == map[] && w.book.runtime[m].leases == map[]
    ensures IsRun(ws, cs) && |cs| == 3 && ws[0] == w
    ensures cs[0] == Cleanup([x, m], map[x := u, m := v]) && cs[1].Fail? && cs[2].Rollback?
    ensures m in ws[3].book.runtime && ws[3].book.runtime[m].state.Ready? && !ws[3].book.runtime[m].admissionBlocked
    ensures ws[3].book.runtime[m].generation == w.book.runtime[m].generation
  {
    hide *;
    var b := w.book;
    BothJoin(w, x, m, u, v);
    var op := Operation(v, m, b.runtime[m].generation, b.epoch);
    var c0 := Cleanup([x, m], map[x := u, m := v]);
    var c1, c2 := Fail(Operation(u, x, b.runtime[x].generation, b.epoch)), Rollback(op);
    FreshBatch(w, x, m, u, v);
    StepTo(w, c0);
    var w1 := Next(w, c0);
    JoinedIsStopping(b, c0, m, w1.book);
    StepTo(w1, c1);
    var w2 := Next(w1, c1);
    OthersFail(w1.book, c1, m, op, w2.book);
    StepTo(w2, c2);
    RolledBackIsReady(w2.book, c2, m, Next(w2, c2).book);
    TokenIsOf(w2.book, m, op);
    ws, cs := [w, w1, w2, Next(w2, c2)], [c0, c1, c2];
    RunOfThree(ws, cs);
  }

  lemma RunOfThree(ws: seq<World>, cs: seq<Call>)
    requires |ws| == 4 && |cs| == 3
    requires Step(ws[0], cs[0], ws[1]) && Step(ws[1], cs[1], ws[2]) && Step(ws[2], cs[2], ws[3])
    ensures IsRun(ws, cs)
  {
    hide Step;
  }

  lemma TokenIsOf(b: BookState, m: ModelId, op: Operation)
    requires StoppingUnder(b, m, op)
    ensures m in b.runtime && b.runtime[m].generation == op.generation
  {
  }
}
