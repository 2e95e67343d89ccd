/** The residency book of model_scheduler/model_registry.py as a value: model states, the two
    memory ledgers, leases, operation tokens and recovery epochs. Every transition is a
    function of the whole book; `Book.dfy` proves that the in-place object performs exactly
    these transitions, and `BookRuns.dfy` proves what every run of them keeps. */
module BookModel {
  import opened Prelude

  // Identifiers are opaque text in the source: they are compared, and model ids are ordered,
  // but never taken apart. A number in a wrapper carries exactly that.
  datatype ModelId = ModelId(n: nat)
  datatype Uuid = Uuid(n: nat)
  datatype RequestId = RequestId(n: nat)
  type Time = real

  datatype State = Unknown | Unloaded | Loading | Ready | Evicting | Error

  datatype Outcome = Success | Rejected | Aborted

  datatype Lease = Lease(leaseId: Uuid, requestId: RequestId, modelId: ModelId, generation: nat)

  datatype Operation = Operation(operationId: Uuid, modelId: ModelId, generation: nat, epoch: nat)

  datatype MemorySample = MemorySample(total: int, available: int, sampledAt: Time)

  /** Which registration a ledger entry was made from. */
  datatype Registration = LegacyV1 | RegisteredV2

  datatype LedgerSpec = LedgerSpec(
    registration: Registration,
    reserved: nat,
    physical: Option<nat>,
    maxConcurrency: nat,
    pinned: bool,
    evictable: bool,
    preload: bool,
    ttlSeconds: real,
    priority: int)

  datatype Runtime = Runtime(
    state: State,
    generation: nat,
    operationId: Option<Uuid>,
    leases: map<Uuid, Lease>,
    cancelling: map<Uuid, Lease>,
    admissionBlocked: bool,
    reservation: nat,
    idleSince: Option<Time>,
    stoppedAt: Option<Time>)

  datatype Policy = Policy(
    ledger: map<ModelId, LedgerSpec>,
    budget: nat,
    freeFloor: nat,
    maxSampleAge: Time)

  datatype BookState = BookState(
    policy: Policy,
    runtime: map<ModelId, Runtime>,
    epoch: nat,
    recovering: bool)

  /** What a transition answers: a new book, or one of the errors the source raises. An error
      leaves the book untouched. */
  datatype Reply<+T> = Ok(value: T) | Conflict | StaleOperation | KeyError

  /** What `from_registration` makes: a legacy registration carries no physical figure, and a v2
      registration has none of the legacy roles. */
  predicate FromRegistration(spec: LedgerSpec) {
    match spec.registration
    case LegacyV1 => spec.physical.None?
    case RegisteredV2 => !spec.pinned && spec.evictable && !spec.preload && spec.ttlSeconds == 0.0 && spec.priority == 0
  }

  /** The constructor's checks. */
  predicate PolicyOk(p: Policy) {
    && p.ledger != map[]
    && p.budget > 0
    && p.maxSampleAge > 0.0
    && forall m :: m in p.ledger ==>
         && FromRegistration(p.ledger[m])
         && p.ledger[m].reserved > 0
         && p.ledger[m].maxConcurrency > 0
         && (p.ledger[m].physical.Some? ==> p.ledger[m].physical.value > 0)
  }

  function Booted(p: Policy): (b: BookState) {
    BookState(p,
              map m | m in p.ledger ::
                Runtime(Unknown, 0, None, map[], map[], false, p.ledger[m].reserved, None, None),
              0, false)
  }

  // ---- the two ledgers -------------------------------------------------------------------

  ghost function Reservations(b: BookState): (w: map<ModelId, nat>) {
    map m | m in b.runtime :: b.runtime[m].reservation
  }

  ghost function Committed(b: BookState): (total: nat) {
    Sum(Reservations(b))
  }

  function PhysicalFigure(p: Policy, m: ModelId): (figure: nat) {
    if m in p.ledger && p.ledger[m].physical.Some? then p.ledger[m].physical.value else 0
  }

  ghost function PhysicalTable(b: BookState): (w: map<ModelId, nat>) {
    map m | m in b.runtime && b.runtime[m].reservation > 0 :: PhysicalFigure(b.policy, m)
  }

  ghost function PhysicalCommitted(b: BookState): (total: nat) {
    Sum(PhysicalTable(b))
  }

  predicate PhysicalEnforced(p: Policy) {
    exists m :: m in p.ledger && p.ledger[m].physical.Some?
  }

  ghost predicate PhysicalAdmissible(b: BookState, m: ModelId)
    requires m in b.policy.ledger
  {
    PhysicalEnforced(b.policy) ==>
      && b.policy.ledger[m].physical.Some?
      && Sum(PhysicalTable(b) - {m}) + b.policy.ledger[m].physical.value <= b.policy.budget
  }

  // ---- admission -------------------------------------------------------------------------

  predicate SampleValid(p: Policy, s: MemorySample, now: Time) {
    0.0 <= now - s.sampledAt <= p.maxSampleAge && s.total > 0 && 0 <= s.available <= s.total
  }

  predicate SampleAfterStop(r: Runtime, s: MemorySample) {
    r.stoppedAt.None? || s.sampledAt >= r.stoppedAt.value
  }

  /** The budget half of `can_load`: the model ledger has room for the model's whole reservation. */
  ghost predicate BudgetAdmits(b: BookState, m: ModelId)
    requires m in b.policy.ledger
  {
    Committed(b) + b.policy.ledger[m].reserved <= b.policy.budget
  }

  ghost predicate CanLoad(b: BookState, m: ModelId, s: MemorySample, now: Time)
    requires m in b.runtime && m in b.policy.ledger
  {
    var r := b.runtime[m];
    && !b.recovering
    && r.state.Unloaded?
    && r.leases == map[]
    && !r.admissionBlocked
    && SampleValid(b.policy, s, now)
    && SampleAfterStop(r, s)
    && s.available >= b.policy.freeFloor + b.policy.ledger[m].reserved
    && BudgetAdmits(b, m)
    && PhysicalAdmissible(b, m)
  }

  predicate CanAdmitReady(b: BookState, m: ModelId, s: MemorySample, now: Time)
    requires m in b.runtime && m in b.policy.ledger
  {
    var r := b.runtime[m];
    && !b.recovering
    && r.state.Ready?
    && !r.admissionBlocked
    && |r.leases| < b.policy.ledger[m].maxConcurrency
    && SampleValid(b.policy, s, now)
    && s.available >= b.policy.freeFloor
  }

  // ---- transitions -----------------------------------------------------------------------

  function Set(b: BookState, m: ModelId, r: Runtime): (b': BookState) {
    b.(runtime := b.runtime[m := r])
  }

  function BootstrapStopped(b: BookState, m: ModelId): (reply: Reply<BookState>) {
    if m !in b.runtime then KeyError
    else
      var r := b.runtime[m];
      if !r.state.Unknown? || r.operationId.Some? || r.leases != map[] then Conflict
      else Ok(Set(b, m, r.(state := Unloaded, reservation := 0)))
  }

  function LoadingRuntime(r: Runtime, reserved: nat, uuid: Uuid): (r': Runtime) {
    r.(generation := r.generation + 1, state := Loading, reservation := reserved,
       operationId := Some(uuid), idleSince := None)
  }

  ghost function BeginLoad(b: BookState, m: ModelId, s: MemorySample, now: Time,
                           uuid: Uuid): (reply: Reply<BookState>) {
    if m !in b.runtime || m !in b.policy.ledger then KeyError
    else if !CanLoad(b, m, s, now) then Conflict
    else
      var r := b.runtime[m];
      Ok(Set(b, m, LoadingRuntime(r, b.policy.ledger[m].reserved, uuid)))
  }

  /** `_operation`: the runtime a token speaks for, if the token is still current. */
  function Current(b: BookState, op: Operation): (reply: Reply<Runtime>) {
    if op.modelId !in b.runtime then KeyError
    else
      var r := b.runtime[op.modelId];
      if op.epoch != b.epoch || r.generation != op.generation || r.operationId != Some(op.operationId)
      then StaleOperation
      else Ok(r)
  }

  function LoadedRuntime(r: Runtime, now: Time): (r': Runtime) {
    r.(state := Ready, operationId := None, admissionBlocked := false, idleSince := Some(now))
  }

  function FailedRuntime(r: Runtime): (r': Runtime) {
    r.(state := Error, operationId := None, admissionBlocked := true)
  }

  function RolledBackRuntime(r: Runtime): (r': Runtime) {
    r.(state := Ready, admissionBlocked := false, operationId := None)
  }

  function StoppedRuntime(r: Runtime, now: Time): (r': Runtime) {
    r.(state := Unloaded, operationId := None, reservation := 0,
       admissionBlocked := false, idleSince := None, stoppedAt := Some(now))
  }

  function Loaded(b: BookState, op: Operation, now: Time): (reply: Reply<BookState>) {
    match Current(b, op)
    case KeyError => KeyError
    case StaleOperation => StaleOperation
    case Conflict => Conflict
    case Ok(r) =>
      if !r.state.Loading? then Conflict
      else Ok(Set(b, op.modelId, LoadedRuntime(r, now)))
  }

  function Failed(b: BookState, op: Operation): (reply: Reply<BookState>) {
    match Current(b, op)
    case KeyError => KeyError
    case StaleOperation => StaleOperation
    case Conflict => Conflict
    case Ok(r) =>
      Ok(Set(b, op.modelId, FailedRuntime(r)))
  }

  function RollbackUnsent(b: BookState, op: Operation): (reply: Reply<BookState>) {
    match Current(b, op)
    case KeyError => KeyError
    case StaleOperation => StaleOperation
    case Conflict => Conflict
    case Ok(r) =>
      if !r.state.Evicting? || r.leases != map[] then Conflict
      else Ok(Set(b, op.modelId, RolledBackRuntime(r)))
  }

  function Stopped(b: BookState, op: Operation, now: Time): (reply: Reply<BookState>) {
    match Current(b, op)
    case KeyError => KeyError
    case StaleOperation => StaleOperation
    case Conflict => Conflict
    case Ok(r) =>
      if !r.state.Evicting? || r.leases != map[] then Conflict
      else Ok(Set(b, op.modelId, StoppedRuntime(r, now)))
  }

  predicate OwnsLease(b: BookState, req: RequestId) {
    exists m | m in b.runtime :: exists id | id in b.runtime[m].leases :: b.runtime[m].leases[id].requestId == req
  }

  function Granted(b: BookState, m: ModelId, req: RequestId, uuid: Uuid): (lease: Lease)
    requires m in b.runtime
  {
    Lease(uuid, req, m, b.runtime[m].generation)
  }

  function AcquireReady(b: BookState, m: ModelId, req: RequestId, uuid: Uuid): (reply: Reply<BookState>) {
    if m !in b.runtime || m !in b.policy.ledger then KeyError
    else
      var r := b.runtime[m];
      if || b.recovering || !r.state.Ready? || r.admissionBlocked
         || |r.leases| >= b.policy.ledger[m].maxConcurrency
         || OwnsLease(b, req)
      then Conflict
      else Ok(Set(b, m, r.(leases := r.leases[uuid := Granted(b, m, req, uuid)], idleSince := None)))
  }

  /** A lease is honoured only if exactly this lease is held and its generation is the model's. */
  predicate Held(b: BookState, lease: Lease) {
    && lease.modelId in b.runtime
    && lease.leaseId in b.runtime[lease.modelId].leases
    && b.runtime[lease.modelId].leases[lease.leaseId] == lease
    && b.runtime[lease.modelId].generation == lease.generation
  }

  function Release(b: BookState, lease: Lease, outcome: Outcome, now: Time): (reply: Reply<BookState>) {
    if lease.modelId !in b.runtime then KeyError
    else if !Held(b, lease) then Ok(b)
    else
      var r := b.runtime[lease.modelId];
      var left := r.leases - {lease.leaseId};
      var r1 := r.(leases := left, cancelling := r.cancelling - {lease.leaseId});
      var r2 := if outcome.Aborted? then r1.(state := Error, admissionBlocked := true) else r1;
      Ok(Set(b, lease.modelId, if left == map[] then r2.(idleSince := Some(now)) else r2))
  }

  function BeginCancel(b: BookState, lease: Lease): (reply: Reply<BookState>) {
    if lease.modelId !in b.runtime then KeyError
    else if !Held(b, lease) then Ok(b)
    else
      var r := b.runtime[lease.modelId];
      Ok(Set(b, lease.modelId, r.(cancelling := r.cancelling[lease.leaseId := lease])))
  }

  // ---- batches ---------------------------------------------------------------------------

  predicate Distinct(ms: seq<ModelId>) {
    forall i, j :: 0 <= i < j < |ms| ==> ms[i] != ms[j]
  }

  /** The validation loop every batch starts with: the first member that is unknown or not
      `good` decides the error. */
  function Vet(b: BookState, ms: seq<ModelId>, good: set<ModelId>): (reply: Reply<()>) {
    if ms == [] then Ok(())
    else if ms[0] !in b.runtime then KeyError
    else if ms[0] !in good then Conflict
    else Vet(b, ms[1..], good)
  }

  function EvictableNow(b: BookState, automatic: bool): (good: set<ModelId>) {
    set m | m in b.runtime && m in b.policy.ledger
            && b.runtime[m].state.Ready? && b.runtime[m].leases == map[] && b.runtime[m].operationId.None?
            && !b.policy.ledger[m].pinned && (automatic ==> b.policy.ledger[m].evictable)
  }

  function FreezableNow(b: BookState): (good: set<ModelId>) {
    set m | m in b.runtime && m in b.policy.ledger
            && b.runtime[m].state.Ready? && !b.runtime[m].admissionBlocked && b.runtime[m].operationId.None?
            && !b.policy.ledger[m].pinned && b.policy.ledger[m].evictable
  }

  function CleanableNow(b: BookState): (good: set<ModelId>) {
    set m | m in b.runtime
            && (b.runtime[m].state.Ready? || b.runtime[m].state.Error?)
            && b.runtime[m].leases == map[] && b.runtime[m].operationId.None?
  }

  function MarkedRuntime(r: Runtime, uuid: Uuid): (r': Runtime) {
    r.(state := Evicting, admissionBlocked := true, operationId := Some(uuid))
  }

  /** `uuids` stands for the identifiers `uuid4` draws, one per model. */
  function Marked(b: BookState, ms: seq<ModelId>, uuids: map<ModelId, Uuid>): (b': BookState)
    requires forall m :: m in ms ==> m in uuids
  {
    b.(runtime := map m | m in b.runtime ::
         if m in ms then MarkedRuntime(b.runtime[m], uuids[m]) else b.runtime[m])
  }

  function TokensFor(b: BookState, ms: seq<ModelId>, uuids: map<ModelId, Uuid>): (ops: seq<Operation>)
    requires forall m :: m in ms ==> m in uuids && m in b.runtime
  {
    seq(|ms|, i requires 0 <= i < |ms| => Operation(uuids[ms[i]], ms[i], b.runtime[ms[i]].generation, b.epoch))
  }

  function StopBatch(b: BookState, ms: seq<ModelId>, good: set<ModelId>,
                     uuids: map<ModelId, Uuid>): (reply: Reply<BookState>)
    requires forall m :: m in ms ==> m in uuids
  {
    if b.recovering || ms == [] || !Distinct(ms) then Conflict
    else
      match Vet(b, ms, good)
      case KeyError => KeyError
      case StaleOperation => StaleOperation
      case Conflict => Conflict
      case Ok(_) => Ok(Marked(b, ms, uuids))
  }

  function BeginEviction(b: BookState, ms: seq<ModelId>, automatic: bool,
                         uuids: map<ModelId, Uuid>): (reply: Reply<BookState>)
    requires forall m :: m in ms ==> m in uuids
  {
    StopBatch(b, ms, EvictableNow(b, automatic), uuids)
  }

  function BeginCleanup(b: BookState, ms: seq<ModelId>, uuids: map<ModelId, Uuid>): (reply: Reply<BookState>)
    requires forall m :: m in ms ==> m in uuids
  {
    StopBatch(b, ms, CleanableNow(b), uuids)
  }

  function FreezeForSwitch(b: BookState, ms: seq<ModelId>): (reply: Reply<BookState>) {
    if b.recovering || ms == [] || !Distinct(ms) then Conflict
    else
      match Vet(b, ms, FreezableNow(b))
      case KeyError => KeyError
      case StaleOperation => StaleOperation
      case Conflict => Conflict
      case Ok(_) => Ok(b.(runtime := map m | m in b.runtime ::
        if m in ms then b.runtime[m].(admissionBlocked := true) else b.runtime[m]))
  }

  function Thawed(r: Runtime): (r': Runtime) {
    if r.state.Ready? && r.operationId.None? then r.(admissionBlocked := false) else r
  }

  /** The members before the first unregistered one. */
  function Registered(b: BookState, ms: seq<ModelId>): (known: seq<ModelId>)
    ensures known <= ms && (forall i :: 0 <= i < |known| ==> known[i] in b.runtime)
    ensures |known| < |ms| ==> ms[|known|] !in b.runtime
  {
    if ms == [] || ms[0] !in b.runtime then [] else [ms[0]] + Registered(b, ms[1..])
  }

  /** The one transition that is not all or nothing: an unregistered member raises, but only after
      the members before it were thawed. */
  function UnfreezeSwitch(b: BookState, ms: seq<ModelId>): (b': BookState) {
    b.(runtime := map m | m in b.runtime :: if m in Registered(b, ms) then Thawed(b.runtime[m]) else b.runtime[m])
  }

  // ---- recovery --------------------------------------------------------------------------

  function Fenced(r: Runtime): (r': Runtime) {
    var closed := r.(operationId := None, admissionBlocked := true);
    if r.state.Unloaded? then closed else closed.(state := Error)
  }

  function BeginRecovery(b: BookState): (b': BookState) {
    if b.recovering then b
    else b.(epoch := b.epoch + 1, recovering := true,
            runtime := map m | m in b.runtime :: Fenced(b.runtime[m]))
  }

  predicate AnyLease(b: BookState) {
    exists m :: m in b.runtime && b.runtime[m].leases != map[]
  }

  function Cleared(r: Runtime): (r': Runtime) {
    r.(state := Unloaded, reservation := 0, operationId := None, admissionBlocked := false, idleSince := None)
  }

  function FinishRecovery(b: BookState, epoch: nat, confirmed: set<ModelId>): (reply: Reply<BookState>) {
    if !b.recovering || epoch != b.epoch then StaleOperation
    else if confirmed != b.policy.ledger.Keys || AnyLease(b) then Conflict
    else Ok(b.(recovering := false, runtime := map m | m in b.runtime :: Cleared(b.runtime[m])))
  }

  // ---- the invariant ---------------------------------------------------------------------

  /** A reservation is zero exactly when the model is proven stopped, and otherwise it is the
      model's whole required figure. */
  predicate ReservationExact(spec: LedgerSpec, r: Runtime) {
    r.reservation == if r.state.Unloaded? then 0 else spec.reserved
  }

  predicate LeasesSound(spec: LedgerSpec, m: ModelId, r: Runtime) {
    && |r.leases| <= spec.maxConcurrency
    && (r.leases != map[] ==> r.state.Ready? || r.state.Error?)
    && (forall id :: id in r.leases ==>
          r.leases[id].leaseId == id && r.leases[id].modelId == m && r.leases[id].generation == r.generation)
    && (forall id :: id in r.cancelling ==> id in r.leases && r.cancelling[id] == r.leases[id])
  }

  predicate RuntimeInv(spec: LedgerSpec, m: ModelId, r: Runtime, recovering: bool) {
    && ReservationExact(spec, r)
    && LeasesSound(spec, m, r)
    && (r.operationId.Some? <==> r.state.Loading? || r.state.Evicting?)
    && (recovering ==> r.admissionBlocked && (r.state.Unloaded? || r.state.Error?))
    && (r.state.Evicting? || r.state.Error? ==> r.admissionBlocked)
    && (r.state.Unknown? || r.state.Loading? || (r.state.Unloaded? && !recovering) ==> !r.admissionBlocked)
  }

  predicate Holds(b: BookState, m: ModelId, id: Uuid, req: RequestId) {
    m in b.runtime && id in b.runtime[m].leases && b.runtime[m].leases[id].requestId == req
  }

  /** No request id owns two leases, on one model or on two. */
  ghost predicate OneLeasePerRequest(b: BookState) {
    forall m, id, m', id', req ::
      Holds(b, m, id, req) && Holds(b, m', id', req) ==> m == m' && id == id'
  }

  ghost predicate Inv(b: BookState) {
    && PolicyOk(b.policy)
    && b.runtime.Keys == b.policy.ledger.Keys
    && (forall m :: m in b.runtime ==> RuntimeInv(b.policy.ledger[m], m, b.runtime[m], b.recovering))
    && OneLeasePerRequest(b)
  }

  lemma {:induction false} VetMeaning(b: BookState, ms: seq<ModelId>, good: set<ModelId>)
    ensures Vet(b, ms, good).Ok? <==> forall m :: m in ms ==> m in b.runtime && m in good
    ensures !Vet(b, ms, good).StaleOperation?
  {
    if ms != [] {
      VetMeaning(b, ms[1..], good);
      assert forall m :: m in ms <==> m == ms[0] || m in ms[1..];
    }
  }

  lemma BootedInv(p: Policy)
    requires PolicyOk(p)
    ensures Inv(Booted(p))
  {
  }
}
