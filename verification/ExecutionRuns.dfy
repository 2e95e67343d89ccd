/** The execution service over all its executions, the book it shares with the scheduler, and the
    quiescer of each model, under every interleaving. */
module ExecutionRuns {
  import opened Prelude
  import opened BookModel
  import opened BookRuns
  import opened Protocol
  import opened ExecutionModel
  import opened ExecutionRecords

  /** Where `_quiesce_model` stands between two blocks; `todo` is the batch it settles together. */
  datatype Quiescer =
    | Scanning
    | Releasing(todo: set<ExecutionId>)
    | Stopping(todo: set<ExecutionId>)
    | Waiting(todo: set<ExecutionId>, op: Operation)
    | Settling(todo: set<ExecutionId>)

  datatype Service = Service(
    managed: bool,
    world: World,
    records: map<ExecutionId, Record>,
    quiescing: set<ModelId>,
    quiescers: map<ModelId, Quiescer>)

  datatype Move =
    | Submit(x: ExecutionId, m: ModelId, boot: BootId, generation: nat, operation: Uuid)
    | On(x: ExecutionId, e: Event)
    | BookCall(c: Call)
    | StartQuiescer(m: ModelId)
    | Scan(m: ModelId)
    | FreeLease(m: ModelId, x: ExecutionId)
    | RequestStop(m: ModelId)
    | FindStopped(m: ModelId)
    | BeginStop(m: ModelId, uuid: Uuid)
    | StopRefused(m: ModelId)
    | StopProven(m: ModelId, now: Time)
    | StopUnproven(m: ModelId)
    | SettleOne(m: ModelId, x: ExecutionId)
    | NextRound(m: ModelId)
    | QuitQuiescer(m: ModelId)

  /** Everything that may still touch the instance: a claimed admission, a held lease, or a
      dispatched computation whose response has not ended. */
  predicate InFlight(r: Record) {
    !r.settled && !r.awaiting && (r.started || r.claimed || r.lease.Some?)
  }

  predicate InBatch(r: Record) {
    !r.settled && r.started && r.awaiting
  }

  predicate SomeoneInFlight(s: Service, m: ModelId) {
    exists x :: x in s.records && s.records[x].modelId == m && InFlight(s.records[x])
  }

  function Batch(s: Service, m: ModelId): (todo: set<ExecutionId>) {
    set x | x in s.records && s.records[x].modelId == m && InBatch(s.records[x])
  }

  predicate At(s: Service, m: ModelId) {
    m in s.quiescers
  }

  function Put(s: Service, m: ModelId, q: Quiescer): (s': Service) {
    s.(quiescers := s.quiescers[m := q])
  }

  function OnRecord(s: Service, x: ExecutionId, e: Event): (s': Service)
    requires x in s.records && May(s.records[x], e)
  {
    s.(records := s.records[x := Block(s.managed, s.records[x], e)])
  }

  predicate LeaseFreed(s: Service, x: ExecutionId) {
    x in s.records && (s.records[x].lease.Some? ==> s.records[x].leaseReleased)
  }

  function StopCall(m: ModelId, uuid: Uuid): (c: Call) {
    Evict([m], false, map[m := uuid])
  }

  ghost predicate Allowed(s: Service, mv: Move) {
    match mv
    case Submit(x, _, _, _, _) => x !in s.records
    case On(x, e) =>
      && x in s.records && May(s.records[x], e) && !e.FreeForStop? && !e.StopProved?
      && (e.Claim? ==> s.records[x].modelId !in s.quiescing)
    case BookCall(c) => FreshCall(s.world, c)
    case StartQuiescer(m) => m !in s.quiescers
    case Scan(m) => At(s, m) && s.quiescers[m].Scanning?
    case FreeLease(m, x) =>
      At(s, m) && s.quiescers[m].Releasing? && x in s.quiescers[m].todo && x in s.records
          && May(s.records[x], FreeForStop)
    case RequestStop(m) =>
      At(s, m) && s.quiescers[m].Releasing? && forall x :: x in s.quiescers[m].todo ==> LeaseFreed(s, x)
    case FindStopped(m) =>
      && At(s, m) && s.quiescers[m].Stopping? && m in s.world.book.runtime && s.world.book.runtime[m].state.Unloaded?
      && m in s.world.book.policy.ledger && !s.world.book.policy.ledger[m].pinned
    case BeginStop(m, uuid) =>
      At(s, m) && s.quiescers[m].Stopping? && FreshCall(s.world, StopCall(m, uuid))
          && Apply(s.world.book, StopCall(m, uuid)).Ok?
      && m in s.world.book.runtime
    case StopRefused(m) => At(s, m) && s.quiescers[m].Stopping?
    case StopProven(m, now) =>
      At(s, m) && s.quiescers[m].Waiting? && s.quiescers[m].op.modelId == m
          && Apply(s.world.book, StopDone(s.quiescers[m].op, now)).Ok?
    case StopUnproven(m) => At(s, m) && s.quiescers[m].Waiting?
    case SettleOne(m, x) =>
      At(s, m) && s.quiescers[m].Settling? && x in s.quiescers[m].todo && x in s.records
          && May(s.records[x], StopProved)
    case NextRound(m) => At(s, m) && s.quiescers[m].Settling?
    case QuitQuiescer(m) => At(s, m) && s.quiescers[m].Scanning?
  }

  function Scanned(s: Service, m: ModelId): (s': Service) {
    var todo := Batch(s, m);
    if SomeoneInFlight(s, m) then Put(s.(quiescing := s.quiescing + {m}), m, Scanning)
    else if todo == {} then s.(quiescing := s.quiescing - {m}, quiescers := s.quiescers - {m})
    else Put(s.(quiescing := s.quiescing + {m}), m, Releasing(todo))
  }

  ghost function Do(s: Service, mv: Move): (s': Service)
    requires Allowed(s, mv)
  {
    match mv
    case Submit(x, m, boot, generation, operation) =>
      s.(records := s.records[x := Submitted(x, m, boot, generation, operation)])
    case On(x, e) => OnRecord(s, x, e)
    case BookCall(c) => s.(world := Next(s.world, c))
    case StartQuiescer(m) => Put(s, m, Scanning)
    case Scan(m) => Scanned(s, m)
    case FreeLease(m, x) => OnRecord(s, x, FreeForStop)
    case RequestStop(m) => Put(s, m, Stopping(s.quiescers[m].todo))
    case FindStopped(m) => Put(s, m, Settling(s.quiescers[m].todo))
    case BeginStop(m, uuid) =>
      Put(s.(world := Next(s.world, StopCall(m, uuid))), m,
          Waiting(s.quiescers[m].todo, Operation(uuid, m, s.world.book.runtime[m].generation, s.world.book.epoch)))
    case StopRefused(m) => Put(s, m, Scanning)
    case StopProven(m, now) =>
      Put(s.(world := Next(s.world, StopDone(s.quiescers[m].op, now))), m, Settling(s.quiescers[m].todo))
    case StopUnproven(m) => Put(s, m, Scanning)
    case SettleOne(m, x) => OnRecord(s, x, StopProved)
    case NextRound(m) => Put(s, m, Scanning)
    case QuitQuiescer(m) => s.(quiescers := s.quiescers - {m})
  }

  ghost predicate Moves(s: Service, mv: Move, s': Service) {
    Allowed(s, mv) && s' == Do(s, mv)
  }

  ghost predicate IsServiceRun(ss: seq<Service>, ms: seq<Move>) {
    |ss| == |ms| + 1 && forall i :: 0 <= i < |ms| ==> Moves(ss[i], ms[i], ss[i + 1])
  }

  ghost predicate Fresh(s: Service) {
    WorldInv(s.world) && s.records == map[] && s.quiescing == {} && s.quiescers == map[]
  }

  // ---- records --------------------------------------------------------------------------------

  predicate RecordSafe(s: Service, x: ExecutionId) {
    x in s.records ==> RecordOk(s.records[x]) && s.records[x].id == x
  }

  ghost predicate RecordsSafe(s: Service) {
    forall x :: RecordSafe(s, x)
  }

  lemma SubmittedIsSafe(x: ExecutionId, m: ModelId, boot: BootId, generation: nat, operation: Uuid)
    ensures RecordOk(Submitted(x, m, boot, generation, operation))
  {
  }

  /** Every move takes every record one block forward at most. */
  lemma MoveKeepsRecord(s: Service, mv: Move, x: ExecutionId)
    requires RecordSafe(s, x) && Allowed(s, mv)
    ensures RecordSafe(Do(s, mv), x)
    ensures x in s.records ==> x in Do(s, mv).records && Forward(s.records[x], Do(s, mv).records[x])
  {
    hide RecordOk, Block, May, Next, Apply, Submitted, WellFormed, FreshCall;
    assert x in s.records ==> Forward(s.records[x], s.records[x]);
    hide Forward;
    match mv
    case Submit(y, m, boot, generation, operation) =>
      SubmittedIsSafe(y, m, boot, generation, operation);
      SubmittedId(y, m, boot, generation, operation);
    case On(y, e) =>
      if x == y {
        StepKeeps(s.managed, s.records[x], e);
        ForwardId(s.records[x], Block(s.managed, s.records[x], e));
      }
    case FreeLease(_, y) =>
      if x == y {
        StepKeeps(s.managed, s.records[x], FreeForStop);
        ForwardId(s.records[x], Block(s.managed, s.records[x], FreeForStop));
      }
    case SettleOne(_, y) =>
      if x == y {
        StepKeeps(s.managed, s.records[x], StopProved);
        ForwardId(s.records[x], Block(s.managed, s.records[x], StopProved));
      }
    case _ =>
  }

  lemma SubmittedId(x: ExecutionId, m: ModelId, boot: BootId, generation: nat, operation: Uuid)
    ensures Submitted(x, m, boot, generation, operation).id == x
  {
  }

  lemma ForwardId(r: Record, r': Record)
    requires Forward(r, r')
    ensures r'.id == r.id
  {
  }

  lemma {:induction false} RunKeepsRecords(ss: seq<Service>, ms: seq<Move>, i: nat)
    requires IsServiceRun(ss, ms) && Fresh(ss[0]) && i < |ss|
    ensures RecordsSafe(ss[i])
  {
    hide Do, Allowed;
    if i > 0 {
      RunKeepsRecords(ss, ms, i - 1);
      assert Moves(ss[i - 1], ms[i - 1], ss[i]);
      hide RecordSafe;
      forall x ensures RecordSafe(ss[i], x) { MoveKeepsRecord(ss[i - 1], ms[i - 1], x); }
    }
  }

  lemma ForwardOn(r: Record, r': Record, r'': Record)
    requires Forward(r, r') && Forward(r', r'')
    ensures Forward(r, r'')
  {
  }

  /** Settlement is final: from any moment on, a settled execution's view is the same for ever, the
      state rank never falls, and a cancel or a reason is never forgotten. */
  lemma {:induction false} ExecutionsOnlyMoveForward(ss: seq<Service>, ms: seq<Move>, i: nat, j: nat, x: ExecutionId)
    requires IsServiceRun(ss, ms) && Fresh(ss[0]) && i <= j < |ss| && x in ss[i].records
    ensures x in ss[j].records && Forward(ss[i].records[x], ss[j].records[x])
    decreases j
  {
    hide Do, Allowed;
    if i < j {
      hide Forward, RecordSafe;
      ExecutionsOnlyMoveForward(ss, ms, i, j - 1, x);
      RunKeepsRecords(ss, ms, j - 1);
      assert RecordSafe(ss[j - 1], x);
      assert Moves(ss[j - 1], ms[j - 1], ss[j]);
      MoveKeepsRecord(ss[j - 1], ms[j - 1], x);
      ForwardOn(ss[i].records[x], ss[j - 1].records[x], ss[j].records[x]);
    }
  }

  // ---- what a run remembers --------------------------------------------------------------------

  /** This move cuts a cancel of the execution short with its evidence already there. */
  predicate CutBy(s: Service, mv: Move, x: ExecutionId) {
    mv.On? && mv.x == x && x in s.records && CutsShort(s.records[x], mv.e)
  }

  /** This move kills a publisher of the execution inside `write_output`. */
  predicate KilledBy(s: Service, mv: Move, x: ExecutionId) {
    mv.On? && mv.x == x && x in s.records && KillsWriter(s.records[x], mv.e)
  }

  ghost predicate CutBefore(ss: seq<Service>, ms: seq<Move>, i: nat, x: ExecutionId)
    requires i <= |ss| && i <= |ms|
  {
    exists k :: 0 <= k < i && CutBy(ss[k], ms[k], x)
  }

  ghost predicate KilledBefore(ss: seq<Service>, ms: seq<Move>, i: nat, x: ExecutionId)
    requires i <= |ss| && i <= |ms|
  {
    exists k :: 0 <= k < i && KilledBy(ss[k], ms[k], x)
  }

  lemma MoveRemembers(s: Service, mv: Move, x: ExecutionId)
    requires Allowed(s, mv) && x in Do(s, mv).records
    ensures x in s.records ==>
              && (Do(s, mv).records[x].cutShort <==> s.records[x].cutShort || CutBy(s, mv, x))
              && (Do(s, mv).records[x].kills > 0 <==> s.records[x].kills > 0 || KilledBy(s, mv, x))
    ensures x !in s.records ==> !Do(s, mv).records[x].cutShort && Do(s, mv).records[x].kills == 0
  {
    hide Block, May, Next, Apply, FreshCall;
    if x in s.records {
      match mv
      case On(y, e) => if x == y { BlockRemembers(s.managed, s.records[x], e); }
      case FreeLease(_, y) => if x == y { BlockRemembers(s.managed, s.records[x], FreeForStop); }
      case SettleOne(_, y) => if x == y { BlockRemembers(s.managed, s.records[x], StopProved); }
      case _ =>
    }
  }

  lemma {:induction false} RunRemembers(ss: seq<Service>, ms: seq<Move>, i: nat, x: ExecutionId)
    requires IsServiceRun(ss, ms) && Fresh(ss[0]) && i < |ss|
    ensures x in ss[i].records ==> (ss[i].records[x].cutShort <==> CutBefore(ss, ms, i, x))
    ensures x in ss[i].records ==> (ss[i].records[x].kills > 0 <==> KilledBefore(ss, ms, i, x))
    ensures x !in ss[i].records ==> !CutBefore(ss, ms, i, x) && !KilledBefore(ss, ms, i, x)
  {
    hide Do, Allowed;
    if i == 0 {
      NothingYet(ss, ms, x);
    } else {
      var j := i - 1;
      hide CutBefore, KilledBefore, CutBy, KilledBy, Fresh;
      RunRemembers(ss, ms, j, x);
      assert Moves(ss[j], ms[j], ss[i]);
      OneMoreMove(ss, ms, j, x);
      if x in ss[j].records { RecordsStay(ss[j], ms[j], x); }
      if x in ss[i].records { MoveRemembers(ss[j], ms[j], x); }
    }
  }

  lemma NothingYet(ss: seq<Service>, ms: seq<Move>, x: ExecutionId)
    requires |ss| > 0 && Fresh(ss[0])
    ensures x !in ss[0].records && !CutBefore(ss, ms, 0, x) && !KilledBefore(ss, ms, 0, x)
  {
    hide CutBy, KilledBy, WorldInv;
  }

  lemma OneMoreMove(ss: seq<Service>, ms: seq<Move>, j: nat, x: ExecutionId)
    requires j < |ss| && j < |ms|
    ensures CutBefore(ss, ms, j + 1, x) <==> CutBefore(ss, ms, j, x) || CutBy(ss[j], ms[j], x)
    ensures KilledBefore(ss, ms, j + 1, x) <==> KilledBefore(ss, ms, j, x) || KilledBy(ss[j], ms[j], x)
    ensures x !in ss[j].records ==> !CutBy(ss[j], ms[j], x) && !KilledBy(ss[j], ms[j], x)
  {
    assert x !in ss[j].records ==> !CutBy(ss[j], ms[j], x) && !KilledBy(ss[j], ms[j], x);
    hide CutBy, KilledBy;
  }

  lemma RecordsStay(s: Service, mv: Move, x: ExecutionId)
    requires Allowed(s, mv) && x in s.records
    ensures x in Do(s, mv).records
  {
    hide Block, May, Next, Apply, FreshCall;
  }

  /** Settlement is honest: a success has evidence, a published result and no error. A cancel or a
      failure reason at any moment up to it goes with a success if and only if that cancel was cut
      short after the evidence had arrived; without such a cut there was none at any moment. */
  lemma SuccessIsHonest(ss: seq<Service>, ms: seq<Move>, i: nat, j: nat, x: ExecutionId)
    requires IsServiceRun(ss, ms) && Fresh(ss[0]) && i <= j < |ss|
    requires x in ss[i].records && x in ss[j].records && ss[j].records[x].state.Succeeded?
    ensures ss[j].records[x].evidence.Some? && ss[j].records[x].result.Some? && ss[j].records[x].error.None?
    ensures ss[j].records[x].cancelPending || ss[j].records[x].reason.Some? <==> CutBefore(ss, ms, j, x)
    ensures ss[i].records[x].cancelPending || ss[i].records[x].reason.Some? ==> CutBefore(ss, ms, j, x)
  {
    hide IsServiceRun, Fresh, CutBefore, KilledBefore;
    ExecutionsOnlyMoveForward(ss, ms, i, j, x);
    RunKeepsRecords(ss, ms, j);
    RunRemembers(ss, ms, j, x);
    assert RecordSafe(ss[j], x);
  }

  /** The view rules hold at every moment, and evidence plus a cancel or a reason means settled at
      every moment exactly when no cancel was cut short, or the execution is settled all the same. */
  lemma ViewsAreValid(ss: seq<Service>, ms: seq<Move>, i: nat, x: ExecutionId)
    requires IsServiceRun(ss, ms) && Fresh(ss[0]) && i < |ss| && x in ss[i].records
    ensures ViewValid(x, ViewOf(ss[i].records[x]))
    ensures EvidenceSettles(ss[i].records[x]) <==> ss[i].records[x].settled || !CutBefore(ss, ms, i, x)
  {
    hide IsServiceRun, Fresh, CutBefore, KilledBefore;
    RunKeepsRecords(ss, ms, i);
    RunRemembers(ss, ms, i, x);
    assert RecordSafe(ss[i], x);
  }

  /** Exactly-one effects: the recorded lease is released at most once; `write_output` is called at
      most once if no publisher was killed inside it; and a publisher about to call it makes a second
      call if and only if one was. */
  lemma EffectsHappenOnce(ss: seq<Service>, ms: seq<Move>, i: nat, x: ExecutionId)
    requires IsServiceRun(ss, ms) && Fresh(ss[0]) && i < |ss| && x in ss[i].records
    ensures ss[i].records[x].releases <= 1
    ensures !KilledBefore(ss, ms, i, x) ==> ss[i].records[x].writes <= 1
    ensures May(ss[i].records[x], PublishStarts) ==> (ss[i].records[x].writes > 0 <==> KilledBefore(ss, ms, i, x))
  {
    hide IsServiceRun, Fresh, CutBefore, KilledBefore;
    RunKeepsRecords(ss, ms, i);
    RunRemembers(ss, ms, i, x);
    assert RecordSafe(ss[i], x);
  }

  /** A task that ended without a recorded lease never gets one: nothing is released for it, ever. */
  lemma {:induction false} UnrecordedStaysUnrecorded(ss: seq<Service>, ms: seq<Move>, i: nat, j: nat, x: ExecutionId)
    requires IsServiceRun(ss, ms) && Fresh(ss[0]) && i <= j < |ss| && x in ss[i].records
    requires ss[i].records[x].task.Over? && ss[i].records[x].lease.None?
    ensures x in ss[j].records && ss[j].records[x].task.Over? && ss[j].records[x].lease.None?
    ensures ss[j].records[x].releases == 0
    decreases j
  {
    hide Do, Allowed;
    RunKeepsRecords(ss, ms, j);
    assert RecordSafe(ss[j], x);
    if i < j {
      UnrecordedStaysUnrecorded(ss, ms, i, j - 1, x);
      assert Moves(ss[j - 1], ms[j - 1], ss[j]);
      hide RecordSafe, RecordOk, Fresh;
      MoveKeepsUnrecorded(ss[j - 1], ms[j - 1], x);
    }
  }

  lemma MoveKeepsUnrecorded(s: Service, mv: Move, x: ExecutionId)
    requires Allowed(s, mv) && x in s.records && s.records[x].task.Over? && s.records[x].lease.None?
    ensures x in Do(s, mv).records && Do(s, mv).records[x].task.Over? && Do(s, mv).records[x].lease.None?
  {
    hide Block, Next, Apply, FreshCall;
    match mv
    case On(y, e) => if x == y { OverStaysOver(s.managed, s.records[x], e); }
    case FreeLease(_, y) => if x == y { OverStaysOver(s.managed, s.records[x], FreeForStop); }
    case SettleOne(_, y) => if x == y { OverStaysOver(s.managed, s.records[x], StopProved); }
    case _ =>
  }

  lemma EvaluateKeepsTask(r: Record)
    ensures Evaluate(r).task == r.task && Evaluate(r).lease == r.lease
  {
  }

  lemma OverStaysOver(managed: bool, r: Record, e: Event)
    requires May(r, e) && r.task.Over?
    ensures Block(managed, r, e).task.Over? && Block(managed, r, e).lease == r.lease
  {
    assert !IsDispatchEvent(e) && !IsBackendEvent(e);
    hide OnClient, OnEffect, May;
    if IsEffectEvent(e) {
      OverStaysOverForEffects(r, e);
    } else {
      OverStaysOverForClients(r, e);
    }
  }

  lemma OverStaysOverForEffects(r: Record, e: Event)
    requires r.task.Over? && IsEffectEvent(e)
    ensures OnEffect(r, e).task.Over? && OnEffect(r, e).lease == r.lease
  {
    hide DoStopProof, DoPublishEnd, ReleaseOnce;
    if e.StopProved? { ProofKeepsTask(r); }
    if e.PublishEnds? { PublishEndKeepsTask(r, e.outcome); }
    if e.TearDown? || e.FreeForStop? { ReleaseKeepsTask(r); }
  }

  lemma ProofKeepsTask(r: Record)
    ensures DoStopProof(r).task == r.task && DoStopProof(r).lease == r.lease
  {
    hide Evaluate;
    EvaluateKeepsTask(WithStopProof(r, if r.instance.Some? then r.instance else r.expected));
  }

  lemma PublishEndKeepsTask(r: Record, outcome: PublishOutcome)
    ensures DoPublishEnd(r, outcome).task == r.task && DoPublishEnd(r, outcome).lease == r.lease
  {
  }

  lemma ReleaseKeepsTask(r: Record)
    ensures ReleaseOnce(r).task == r.task && ReleaseOnce(r).lease == r.lease
  {
  }

  lemma OverStaysOverForClients(r: Record, e: Event)
    requires r.task.Over? && (e.Cancel? || e.CutCancel? || e.ReportOutput? || e.ReportTerminal? || e.Drain?)
    ensures OnClient(r, e).task.Over? && OnClient(r, e).lease == r.lease
  {
    hide Evaluate, Writeback;
    if e.ReportOutput? {
      EvaluateKeepsTask(r.(output := Some(e.body)));
    } else if e.ReportTerminal? {
      EvaluateKeepsTask(WithTerminal(r, e.evidence));
    } else {
      EvaluateKeepsTask(ToCancelling(MarkReason(r.(cancelPending := true), ExecutionTimeout)));
      EvaluateKeepsTask(ToCancelling(MarkReason(r.(cancelPending := true), SessionExpiredCode)));
    }
  }

  // ---- the quiescer -----------------------------------------------------------------------------

  predicate HasTodo(s: Service, m: ModelId) {
    m in s.quiescers && !s.quiescers[m].Scanning?
  }

  predicate EndedIn(s: Service, m: ModelId, x: ExecutionId) {
    x in s.records && s.records[x].modelId == m && s.records[x].started && s.records[x].awaiting
  }

  predicate QuietOn(s: Service, m: ModelId, y: ExecutionId) {
    y in s.records && s.records[y].modelId == m ==> !InFlight(s.records[y])
  }

  /** While a batch is being stopped, dispatch to the model is frozen, nobody is in flight on it,
      and every member's response has ended. */
  predicate StopSafe(s: Service, m: ModelId, x: ExecutionId) {
    HasTodo(s, m) ==>
      && m in s.quiescing
      && QuietOn(s, m, x)
      && (x in s.quiescers[m].todo ==> EndedIn(s, m, x))
  }

  ghost predicate StopsSafe(s: Service) {
    forall m, x :: StopSafe(s, m, x)
  }

  /** Nothing but a claim puts a quiet record back in flight. */
  lemma QuietStaysQuiet(managed: bool, r: Record, e: Event)
    requires RecordOk(r) && May(r, e) && !e.Claim? && !InFlight(r)
    ensures !InFlight(Block(managed, r, e))
  {
    StepKeeps(managed, r, e);
    if !r.settled && !r.awaiting {
      QuietUnstarted(managed, r, e);
    }
  }

  lemma QuietUnstarted(managed: bool, r: Record, e: Event)
    requires RecordOk(r) && May(r, e) && !e.Claim? && !r.started && !r.claimed && r.lease.None?
    ensures !Block(managed, r, e).started && !Block(managed, r, e).claimed && Block(managed, r, e).lease.None?
  {
    assert r.task.NoTask?;
    hide RecordOk;
    if IsEffectEvent(e) {
      assert !e.StopProved? && !e.FreeForStop?;
      hide May;
      QuietEffects(r, e);
    } else if IsDispatchEvent(e) {
      assert e.ExpireQueued?;
      hide May;
      QuietExpiry(r);
    } else {
      assert !IsBackendEvent(e) && !e.CutCancel?;
      hide May;
      QuietClient(r, e);
    }
  }

  /** Nothing about who may be computing. */
  predicate HoldsAsBefore(r: Record, r': Record) {
    r'.started == r.started && r'.claimed == r.claimed && (r.lease.None? ==> r'.lease.None?)
  }

  lemma QuietEffects(r: Record, e: Event)
    requires IsEffectEvent(e) && !e.StopProved? && !e.FreeForStop?
    ensures HoldsAsBefore(r, OnEffect(r, e))
  {
    if e.PublishEnds? { QuietPublishEnd(r, e.outcome); }
    hide DoPublishEnd, DoStopProof;
  }

  lemma QuietPublishEnd(r: Record, outcome: PublishOutcome)
    ensures HoldsAsBefore(r, DoPublishEnd(r, outcome))
  {
  }

  lemma QuietExpiry(r: Record)
    ensures HoldsAsBefore(r, TerminateLocal(r, QueueTimeout))
  {
  }

  lemma QuietClient(r: Record, e: Event)
    requires (e.Cancel? || e.ReportOutput? || e.ReportTerminal? || e.Drain?) && !r.started && !r.claimed
    requires r.lease.None?
    ensures HoldsAsBefore(r, OnClient(r, e))
  {
  }

  lemma RecordMoveKeepsStops(s: Service, y: ExecutionId, e: Event, m: ModelId, x: ExecutionId)
    requires RecordSafe(s, x) && StopSafe(s, m, x) && y in s.records && May(s.records[y], e)
    requires e.Claim? ==> s.records[y].modelId !in s.quiescing
    ensures StopSafe(OnRecord(s, y, e), m, x)
  {
    if x == y && s.records[x].modelId == m && HasTodo(s, m) {
      assert !InFlight(s.records[x]);
      hide RecordOk, Block, May, InFlight;
      StepKeeps(s.managed, s.records[x], e);
      QuietStaysQuiet(s.managed, s.records[x], e);
    } else if x == y {
      hide RecordOk, Block, May, InFlight;
      StepKeeps(s.managed, s.records[x], e);
    } else {
      hide RecordOk, Block, May, InFlight;
    }
  }

  lemma ScanKeepsStops(s: Service, k: ModelId, m: ModelId, x: ExecutionId)
    requires StopSafe(s, m, x) && k in s.quiescers && s.quiescers[k].Scanning?
    ensures StopSafe(Scanned(s, k), m, x)
  {
    hide InFlight;
  }

  lemma MoveKeepsStops(s: Service, mv: Move, m: ModelId, x: ExecutionId)
    requires RecordSafe(s, x) && StopSafe(s, m, x) && Allowed(s, mv)
    ensures StopSafe(Do(s, mv), m, x)
  {
    match mv
    case On(y, e) =>
      hide StopSafe, RecordSafe, OnRecord, May;
      RecordMoveKeepsStops(s, y, e, m, x);
    case FreeLease(_, y) =>
      hide StopSafe, RecordSafe, OnRecord, May;
      RecordMoveKeepsStops(s, y, FreeForStop, m, x);
    case SettleOne(_, y) =>
      hide StopSafe, RecordSafe, OnRecord, May;
      RecordMoveKeepsStops(s, y, StopProved, m, x);
    case Scan(k) =>
      hide StopSafe, Scanned;
      ScanKeepsStops(s, k, m, x);
    case _ =>
      hide OnRecord, Scanned, Next, Apply, RecordOk, Block, May, FreshCall;
  }

  lemma {:induction false} RunKeepsStops(ss: seq<Service>, ms: seq<Move>, i: nat)
    requires IsServiceRun(ss, ms) && Fresh(ss[0]) && i < |ss|
    ensures StopsSafe(ss[i])
  {
    hide Do, Allowed, RecordOk;
    if i > 0 {
      RunKeepsStops(ss, ms, i - 1);
      RunKeepsRecords(ss, ms, i - 1);
      assert Moves(ss[i - 1], ms[i - 1], ss[i]);
      hide RecordSafe, StopSafe;
      forall m, x ensures StopSafe(ss[i], m, x) {
        assert RecordSafe(ss[i - 1], x) && StopSafe(ss[i - 1], m, x);
        MoveKeepsStops(ss[i - 1], ms[i - 1], m, x);
      }
    }
  }

  lemma {:induction false} RunKeepsBook(ss: seq<Service>, ms: seq<Move>, i: nat)
    requires IsServiceRun(ss, ms) && Fresh(ss[0]) && i < |ss|
    ensures WorldInv(ss[i].world)
  {
    hide Do, Allowed, WorldInv;
    if i > 0 {
      RunKeepsBook(ss, ms, i - 1);
      assert Moves(ss[i - 1], ms[i - 1], ss[i]);
      MoveKeepsBook(ss[i - 1], ms[i - 1]);
    }
  }

  lemma MoveKeepsBook(s: Service, mv: Move)
    requires Allowed(s, mv) && WorldInv(s.world)
    ensures WorldInv(Do(s, mv).world)
  {
    hide WorldInv, Next, Apply, Block, May;
    match mv
    case BookCall(c) => CallKeepsWorld(s.world, c);
    case BeginStop(m, uuid) => CallKeepsWorld(s.world, StopCall(m, uuid));
    case StopProven(m, now) => CallKeepsWorld(s.world, StopDone(s.quiescers[m].op, now));
    case _ =>
  }

  /** The moment the stop of a batch is requested: the member's response has ended, and no claimed,
      leased or dispatched sibling is still in flight on the model. */
  ghost predicate StopRequested(s: Service, m: ModelId, x: ExecutionId) {
    EndedIn(s, m, x) && forall y :: QuietOn(s, m, y)
  }

  /** The book shows the model stopped and its budget returned. */
  predicate ProvenStopped(s: Service, m: ModelId) {
    m in s.world.book.runtime && s.world.book.runtime[m].state.Unloaded? && s.world.book.runtime[m].reservation == 0
  }

  ghost predicate WasRequested(ss: seq<Service>, k: nat, m: ModelId, x: ExecutionId)
    requires k < |ss|
  {
    exists i :: 0 <= i <= k && StopRequested(ss[i], m, x)
  }

  ghost predicate WasProven(ss: seq<Service>, k: nat, m: ModelId, x: ExecutionId)
    requires k < |ss|
  {
    exists i, j :: 0 <= i <= j <= k && StopRequested(ss[i], m, x) && ProvenStopped(ss[j], m)
  }

  predicate StoppedEvidence(s: Service, x: ExecutionId) {
    x in s.records && s.records[x].evidence.Some? && s.records[x].evidence.value.proof.IndependentStopped?
  }

  predicate AskedFor(s: Service, m: ModelId, x: ExecutionId) {
    m in s.quiescers && (s.quiescers[m].Stopping? || s.quiescers[m].Waiting?) && x in s.quiescers[m].todo
  }

  predicate ProvenFor(s: Service, m: ModelId, x: ExecutionId) {
    m in s.quiescers && s.quiescers[m].Settling? && x in s.quiescers[m].todo
  }

  ghost predicate Traced(ss: seq<Service>, k: nat, m: ModelId, x: ExecutionId)
    requires k < |ss|
  {
    && (AskedFor(ss[k], m, x) ==> WasRequested(ss, k, m, x))
    && (ProvenFor(ss[k], m, x) ==> WasProven(ss, k, m, x))
    && (StoppedEvidence(ss[k], x) && ss[k].records[x].modelId == m ==> WasProven(ss, k, m, x))
  }

  lemma Later(ss: seq<Service>, k: nat, m: ModelId, x: ExecutionId)
    requires k + 1 < |ss|
    ensures WasRequested(ss, k, m, x) ==> WasRequested(ss, k + 1, m, x)
    ensures WasProven(ss, k, m, x) ==> WasProven(ss, k + 1, m, x)
  {
    hide StopRequested, ProvenStopped;
  }

  predicate SaysStopped(r: Record) {
    r.evidence.Some? && r.evidence.value.proof.IndependentStopped?
  }

  lemma EvaluateAdds(r: Record)
    ensures Evaluate(r).evidence == r.evidence
  {
  }

  lemma CancelAdds(r: Record, code: Code)
    ensures CancelWith(r, code).evidence == r.evidence
  {
    hide Evaluate;
    EvaluateAdds(ToCancelling(MarkReason(r.(cancelPending := true), code)));
  }

  lemma LocalAdds(r: Record, code: Code)
    ensures !SaysStopped(TerminateLocal(r, code))
  {
  }

  lemma OutputAdds(r: Record, body: Output)
    ensures DoReportOutput(r, body).evidence == r.evidence
  {
    hide Evaluate;
    EvaluateAdds(r.(output := Some(body)));
  }

  lemma TerminalAdds(r: Record, e: Evidence)
    requires e.proof.Reported? && SaysStopped(DoReportTerminal(r, e))
    ensures SaysStopped(r)
  {
    hide Evaluate, Writeback;
    EvaluateAdds(WithTerminal(r, e));
  }

  lemma ClientAddsNoStop(r: Record, e: Event)
    requires (e.Cancel? || e.CutCancel? || e.ReportOutput? || e.ReportTerminal? || e.Drain?) && May(r, e)
    requires SaysStopped(OnClient(r, e))
    ensures SaysStopped(r)
  {
    hide CancelWith, TerminateLocal, DoReportOutput, DoReportTerminal;
    match e
    case ReportOutput(body) => OutputAdds(r, body);
    case ReportTerminal(evidence) => TerminalAdds(r, evidence);
    case _ =>
      LocalAdds(r, QueueTimeout);
      CancelAdds(r, ExecutionTimeout);
      CancelAdds(r, SessionExpiredCode);
  }

  lemma UncertainAdds(r: Record, managed: bool, identity: Option<Instance>)
    ensures Uncertain(r, managed, identity).evidence == r.evidence
  {
    hide Evaluate;
    EvaluateAdds(Awaiting(ToCancelling(MarkReason(r, BackendFailed)), managed && r.started, identity));
  }

  lemma EndAdds(r: Record, code: Code)
    requires SaysStopped(EndLocally(r, code))
    ensures SaysStopped(r)
  {
    hide TerminateLocal;
    LocalAdds(r, code);
  }

  lemma TaskAdds(managed: bool, r: Record, e: Event)
    requires (e.Claim? || e.InputOpens? || e.AdmissionRetries? || e.Reserves?) && May(r, e)
    ensures OnDispatch(managed, r, e).evidence == r.evidence
  {
    hide Uncertain, EndLocally, TerminateLocal, Idle, IsTerminal;
    if e.AdmissionRetries? || e.Reserves? {
      hide OnDispatch, May;
      AdmissionAdds(managed, r, e);
    }
  }

  lemma AdmissionAdds(managed: bool, r: Record, e: Event)
    requires (e.AdmissionRetries? || e.Reserves?) && May(r, e)
    ensures OnDispatch(managed, r, e).evidence == r.evidence
  {
    hide Uncertain, EndLocally, TerminateLocal, Idle, IsTerminal;
  }

  lemma StampAdds(managed: bool, r: Record, e: Event)
    requires (e.GuardPasses? || e.Admitted?) && May(r, e)
    ensures OnDispatch(managed, r, e).evidence == r.evidence
  {
    hide Uncertain, EndLocally, TerminateLocal;
  }

  lemma DispatchAddsNoStop(managed: bool, r: Record, e: Event)
    requires IsDispatchEvent(e) && May(r, e) && SaysStopped(OnDispatch(managed, r, e))
    ensures SaysStopped(r)
  {
    if e.Claim? || e.InputOpens? || e.AdmissionRetries? || e.Reserves? {
      hide OnDispatch, May;
      TaskAdds(managed, r, e);
    } else if e.GuardPasses? || e.Admitted? {
      hide OnDispatch, May;
      StampAdds(managed, r, e);
    } else {
      hide Uncertain, EndLocally, TerminateLocal, Idle;
      match e {
        case ExpireQueued => LocalAdds(r, QueueTimeout);
        case GuardRefuses(code) => EndAdds(r.(task := Over), code);
        case InputFails(code) => EndAdds(r.(task := Over), code);
        case AdmissionFails(code) => EndAdds(r.(task := Over), code);
        case TaskRaises => UncertainAdds(r.(task := Over), managed, None);
      }
    }
  }

  lemma ReturnAdds(r: Record, managed: bool, handle: Instance, claims: bool, taken: Option<Output>)
    requires SaysStopped(DoReturn(r, managed, handle, claims, taken))
    ensures SaysStopped(r)
  {
    hide Evaluate;
    EvaluateAdds(Returned(r, managed, handle, claims, taken));
  }

  lemma BackendAddsNoStop(managed: bool, r: Record, e: Event)
    requires IsBackendEvent(e) && SaysStopped(OnBackend(managed, r, e))
    ensures SaysStopped(r)
  {
    hide EndLocally, Uncertain, DoReturn, CancelWith;
    match e
    case BackendRefuses(code) => EndAdds(r.(task := Over), code);
    case BackendRaises(identity) => UncertainAdds(r.(task := Over), managed, identity);
    case BackendReturns(handle, claims, taken) => ReturnAdds(r.(task := Over), managed, handle, claims, taken);
    case DeadlineElapses => CancelAdds(r, ExecutionTimeout);
  }

  lemma PublishEndAdds(r: Record, outcome: PublishOutcome)
    ensures DoPublishEnd(r, outcome).evidence == r.evidence
  {
  }

  lemma ReleaseAdds(r: Record)
    ensures ReleaseOnce(r).evidence == r.evidence
  {
  }

  lemma PublisherAdds(r: Record, e: Event)
    requires e.PublishStarts? || e.PublisherKilled?
    ensures OnEffect(r, e).evidence == r.evidence
  {
    hide DoPublishEnd, ReleaseOnce, DoStopProof;
  }

  lemma EffectAddsNoStop(r: Record, e: Event)
    requires IsEffectEvent(e) && !e.StopProved? && SaysStopped(OnEffect(r, e))
    ensures SaysStopped(r)
  {
    if e.PublishStarts? || e.PublisherKilled? {
      PublisherAdds(r, e);
    } else {
      hide DoPublishEnd, ReleaseOnce, DoStopProof;
      ReleaseAdds(r);
      if e.PublishEnds? { PublishEndAdds(r, e.outcome); }
    }
  }

  /** Only the quiescer's own block adds this evidence. */
  lemma OnlyProofStops(managed: bool, r: Record, e: Event)
    requires May(r, e) && !e.StopProved? && SaysStopped(Block(managed, r, e))
    ensures SaysStopped(r)
  {
    hide OnDispatch, OnBackend, OnClient, OnEffect;
    if IsDispatchEvent(e) {
      DispatchAddsNoStop(managed, r, e);
    } else if IsBackendEvent(e) {
      BackendAddsNoStop(managed, r, e);
    } else if IsEffectEvent(e) {
      EffectAddsNoStop(r, e);
    } else {
      ClientAddsNoStop(r, e);
    }
  }

  lemma OnlyRequestsAsk(s: Service, mv: Move, m: ModelId, x: ExecutionId)
    requires Allowed(s, mv) && AskedFor(Do(s, mv), m, x) && !AskedFor(s, m, x)
    ensures mv == RequestStop(m) && HasTodo(Do(s, mv), m)
  {
    hide Next, Apply, Block, FreshCall, May, LeaseFreed;
  }

  lemma OnlyProofsSettle(s: Service, mv: Move, m: ModelId, x: ExecutionId)
    requires Allowed(s, mv) && ProvenFor(Do(s, mv), m, x) && !ProvenFor(s, m, x)
    ensures (mv.FindStopped? || mv.StopProven?) && mv.m == m && AskedFor(s, m, x)
  {
    hide Next, Apply, Block, FreshCall, May, LeaseFreed;
  }

  lemma SettledBatchWasRequested(ss: seq<Service>, k: nat, mv: Move, m: ModelId, x: ExecutionId)
    requires k + 1 < |ss| && Moves(ss[k], mv, ss[k + 1]) && Traced(ss, k, m, x) && StopsSafe(ss[k + 1])
    ensures AskedFor(ss[k + 1], m, x) ==> WasRequested(ss, k + 1, m, x)
  {
    Later(ss, k, m, x);
    if AskedFor(ss[k + 1], m, x) && !AskedFor(ss[k], m, x) {
      OnlyRequestsAsk(ss[k], mv, m, x);
      assert HasTodo(ss[k + 1], m);
      assert StopRequested(ss[k + 1], m, x) by {
        assert StopSafe(ss[k + 1], m, x);
        var s := ss[k + 1];
        forall y ensures QuietOn(s, m, y) { assert StopSafe(s, m, y); }
      }
    }
  }

  lemma SettledBatchWasProven(ss: seq<Service>, k: nat, mv: Move, m: ModelId, x: ExecutionId)
    requires k + 1 < |ss| && Moves(ss[k], mv, ss[k + 1]) && Traced(ss, k, m, x) && WorldInv(ss[k].world)
    ensures ProvenFor(ss[k + 1], m, x) ==> WasProven(ss, k + 1, m, x)
  {
    Later(ss, k, m, x);
    if ProvenFor(ss[k + 1], m, x) && !ProvenFor(ss[k], m, x) {
      OnlyProofsSettle(ss[k], mv, m, x);
      hide Do, Allowed, WorldInv;
      StopShows(ss[k], mv);
      var i :| 0 <= i <= k && StopRequested(ss[i], m, x);
      assert StopRequested(ss[i], m, x) && ProvenStopped(ss[k + 1], m);
    }
  }

  /** Both ways a stop is found proven, the book shows it. */
  lemma StopShows(s: Service, mv: Move)
    requires (mv.FindStopped? || mv.StopProven?) && Allowed(s, mv) && WorldInv(s.world)
    ensures ProvenStopped(Do(s, mv), mv.m)
  {
    hide Inv, Apply, After, Next;
    if mv.FindStopped? {
      UnloadedHoldsNothing(s.world.book, mv.m);
    } else {
      hide WorldInv;
      var c := StopDone(s.quiescers[mv.m].op, mv.now);
      NextBook(s.world, c);
      StopDoneUnloads(s.world.book, c);
    }
  }

  lemma NextBook(w: World, c: Call)
    requires WellFormed(c)
    ensures Next(w, c).book == After(w.book, c)
  {
    hide After, Issues;
  }

  lemma UnloadedHoldsNothing(b: BookState, m: ModelId)
    requires Inv(b) && m in b.runtime && b.runtime[m].state.Unloaded?
    ensures b.runtime[m].reservation == 0
  {
    assert RuntimeInv(b.policy.ledger[m], m, b.runtime[m], b.recovering);
  }

  lemma StopDoneUnloads(b: BookState, c: Call)
    requires c.StopDone? && Apply(b, c).Ok?
    ensures c.op.modelId in After(b, c).runtime
    ensures After(b, c).runtime[c.op.modelId].state.Unloaded? && After(b, c).runtime[c.op.modelId].reservation == 0
  {
  }

  lemma StoppedEvidenceWasProven(ss: seq<Service>, k: nat, mv: Move, m: ModelId, x: ExecutionId)
    requires k + 1 < |ss| && Moves(ss[k], mv, ss[k + 1]) && RecordSafe(ss[k], x) && StopsSafe(ss[k])
    requires forall m' :: Traced(ss, k, m', x)
    ensures StoppedEvidence(ss[k + 1], x) && ss[k + 1].records[x].modelId == m ==> WasProven(ss, k + 1, m, x)
  {
    if StoppedEvidence(ss[k + 1], x) && ss[k + 1].records[x].modelId == m {
      Later(ss, k, m, x);
      assert Traced(ss, k, m, x);
      if !StoppedEvidence(ss[k], x) {
        assert mv.SettleOne? && mv.x == x by { OnlySettlingStops(ss[k], mv, x); }
        assert Traced(ss, k, mv.m, x) && ProvenFor(ss[k], mv.m, x);
        assert StopSafe(ss[k], mv.m, x);
        MoveKeepsRecord(ss[k], mv, x);
        assert mv.m == m;
      } else {
        MoveKeepsRecord(ss[k], mv, x);
      }
    }
  }

  lemma OnlySettlingStops(s: Service, mv: Move, x: ExecutionId)
    requires Allowed(s, mv) && StoppedEvidence(Do(s, mv), x) && !StoppedEvidence(s, x)
    ensures mv.SettleOne? && mv.x == x
  {
    hide Block, May, Next, Apply, FreshCall;
    match mv
    case On(y, e) => if x == y { OnlyProofStops(s.managed, s.records[x], e); }
    case FreeLease(_, y) => if x == y { OnlyProofStops(s.managed, s.records[x], FreeForStop); }
    case _ =>
  }

  lemma FreshIsTraced(ss: seq<Service>, m: ModelId, x: ExecutionId)
    requires |ss| > 0 && Fresh(ss[0])
    ensures Traced(ss, 0, m, x)
  {
    hide WorldInv;
  }

  lemma MoveKeepsTrace(ss: seq<Service>, k: nat, mv: Move, m: ModelId, x: ExecutionId)
    requires k + 1 < |ss| && Moves(ss[k], mv, ss[k + 1]) && (forall m' :: Traced(ss, k, m', x))
    requires RecordSafe(ss[k], x) && StopsSafe(ss[k]) && StopsSafe(ss[k + 1]) && WorldInv(ss[k].world)
    ensures Traced(ss, k + 1, m, x)
  {
    assert Traced(ss, k, m, x);
    hide WasRequested, WasProven, StopsSafe, RecordSafe, WorldInv, StoppedEvidence, AskedFor, ProvenFor, Moves;
    SettledBatchWasRequested(ss, k, mv, m, x);
    SettledBatchWasProven(ss, k, mv, m, x);
    StoppedEvidenceWasProven(ss, k, mv, m, x);
  }

  lemma {:induction false} RunIsTraced(ss: seq<Service>, ms: seq<Move>, k: nat, m: ModelId, x: ExecutionId)
    requires IsServiceRun(ss, ms) && Fresh(ss[0]) && k < |ss|
    ensures Traced(ss, k, m, x)
  {
    hide Moves, Fresh, Traced, StopsSafe, RecordSafe, WorldInv;
    if k == 0 {
      FreshIsTraced(ss, m, x);
    } else {
      var j := k - 1;
      forall m' ensures Traced(ss, j, m', x) { RunIsTraced(ss, ms, j, m', x); }
      RunKeepsRecords(ss, ms, j);
      RunKeepsStops(ss, ms, j);
      RunKeepsStops(ss, ms, k);
      RunKeepsBook(ss, ms, j);
      assert RecordSafe(ss[j], x);
      MoveKeepsTrace(ss, j, ms[j], m, x);
    }
  }

  /** Quiescer soundness: an execution settled by an independent stop had its response ended when
      the stop was requested, with no claimed, leased or dispatched sibling still in flight, and at
      that moment or later, but before it got the evidence, the book showed its model unloaded with
      nothing reserved. */
  lemma QuiescerIsSound(ss: seq<Service>, ms: seq<Move>, k: nat, x: ExecutionId)
    requires IsServiceRun(ss, ms) && Fresh(ss[0]) && k < |ss| && StoppedEvidence(ss[k], x)
    ensures var m := ss[k].records[x].modelId;
            exists i, j :: 0 <= i <= j <= k && StopRequested(ss[i], m, x) && ProvenStopped(ss[j], m)
  {
    RunIsTraced(ss, ms, k, ss[k].records[x].modelId, x);
  }
}
