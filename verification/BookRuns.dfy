/** Every run of the residency book: what each transition keeps and what holds over whole
    runs, whatever the order of calls and whatever the callers pass. */
module BookRuns {
  import opened Prelude
  import opened BookModel
  import LedgerArithmetic

  /** One call on the book. Identifiers drawn by `uuid4` are part of the call. */
  datatype Call =
    | Bootstrap(m: ModelId)
    | Load(m: ModelId, sample: MemorySample, now: Time, uuid: Uuid)
    | LoadDone(op: Operation, now: Time)
    | Fail(op: Operation)
    | Acquire(m: ModelId, req: RequestId, uuid: Uuid)
    | Free(lease: Lease, outcome: Outcome, now: Time)
    | CancelLease(lease: Lease)
    | Evict(ms: seq<ModelId>, automatic: bool, uuids: map<ModelId, Uuid>)
    | Cleanup(ms: seq<ModelId>, uuids: map<ModelId, Uuid>)
    | Freeze(ms: seq<ModelId>)
    | Unfreeze(ms: seq<ModelId>)
    | Rollback(op: Operation)
    | StopDone(op: Operation, now: Time)
    | StartRecovery
    | EndRecovery(epoch: nat, confirmed: set<ModelId>)

  predicate WellFormed(c: Call) {
    (c.Evict? || c.Cleanup?) ==> forall m :: m in c.ms ==> m in c.uuids
  }

  ghost function Apply(b: BookState, c: Call): (reply: Reply<BookState>)
    requires WellFormed(c)
  {
    match c
    case Bootstrap(m) => BootstrapStopped(b, m)
    case Load(m, s, now, uuid) => BeginLoad(b, m, s, now, uuid)
    case LoadDone(op, now) => Loaded(b, op, now)
    case Fail(op) => Failed(b, op)
    case Acquire(m, req, uuid) => AcquireReady(b, m, req, uuid)
    case Free(lease, outcome, now) => Release(b, lease, outcome, now)
    case CancelLease(lease) => BeginCancel(b, lease)
    case Evict(ms, automatic, uuids) => BeginEviction(b, ms, automatic, uuids)
    case Cleanup(ms, uuids) => BeginCleanup(b, ms, uuids)
    case Freeze(ms) => FreezeForSwitch(b, ms)
    case Unfreeze(ms) => Ok(UnfreezeSwitch(b, ms))
    case Rollback(op) => RollbackUnsent(b, op)
    case StopDone(op, now) => Stopped(b, op, now)
    case StartRecovery => Ok(BeginRecovery(b))
    case EndRecovery(epoch, confirmed) => FinishRecovery(b, epoch, confirmed)
  }

  /** The four calls that carry an operation token. */
  predicate IsTokenCall(c: Call) {
    c.LoadDone? || c.Fail? || c.Rollback? || c.StopDone?
  }

  ghost function After(b: BookState, c: Call): (b': BookState)
    requires WellFormed(c)
  {
    var reply := Apply(b, c);
    if reply.Ok? then reply.value else b
  }

  // ---- the world: a book plus everything uuid4 has drawn and every token handed out ------

  datatype World = World(book: BookState, drawn: set<Uuid>, tokens: set<Operation>)

  function Draws(c: Call): (ids: set<Uuid>)
    requires WellFormed(c)
  {
    match c
    case Load(_, _, _, uuid) => {uuid}
    case Acquire(_, _, uuid) => {uuid}
    case Evict(ms, _, uuids) => set m | m in ms :: uuids[m]
    case Cleanup(ms, uuids) => set m | m in ms :: uuids[m]
    case _ => {}
  }

  /** `uuid4` never repeats: not across calls, and not within one batch. */
  predicate FreshCall(w: World, c: Call) {
    && WellFormed(c)
    && Draws(c) !! w.drawn
    && ((c.Evict? || c.Cleanup?) ==>
          forall m, m' :: m in c.ms && m' in c.ms && c.uuids[m] == c.uuids[m'] ==> m == m')
  }

  /** The tokens a call hands out: exactly those now current for the models it touched. */
  ghost function Issues(b: BookState, c: Call): (ops: set<Operation>)
    requires WellFormed(c)
  {
    if !Apply(b, c).Ok? then {}
    else
      var b' := After(b, c);
      match c
      case Load(m, _, _, uuid) =>
        set x | x in b'.runtime && x == m :: Operation(uuid, x, b'.runtime[x].generation, b'.epoch)
      case Evict(ms, _, uuids) =>
        set x | x in b'.runtime && x in ms :: Operation(uuids[x], x, b'.runtime[x].generation, b'.epoch)
      case Cleanup(ms, uuids) =>
        set x | x in b'.runtime && x in ms :: Operation(uuids[x], x, b'.runtime[x].generation, b'.epoch)
      case _ => {}
  }

  ghost function Next(w: World, c: Call): (w': World)
    requires WellFormed(c)
  {
    World(After(w.book, c), w.drawn + Draws(c), w.tokens + Issues(w.book, c))
  }

  ghost predicate Step(w: World, c: Call, w': World) {
    FreshCall(w, c) && w' == Next(w, c)
  }

  /** Any finite sequence of calls, accepted or refused, and the worlds it passes through. */
  ghost predicate IsRun(ws: seq<World>, cs: seq<Call>) {
    && |ws| == |cs| + 1
    && (forall i :: 0 <= i < |cs| ==> Step(ws[i], cs[i], ws[i + 1]))
  }

  predicate Operating(b: BookState, m: ModelId, id: Uuid) {
    m in b.runtime && b.runtime[m].operationId == Some(id)
  }

  lemma StepOf(w: World, c: Call, w': World)
    requires Step(w, c, w')
    ensures FreshCall(w, c) && w' == Next(w, c) && w'.book == After(w.book, c)
  {
    hide After, Issues;
  }

  ghost predicate Drawn(b: BookState, drawn: set<Uuid>) {
    && (forall m, id :: Operating(b, m, id) ==> id in drawn)
    && (forall m, m', id :: Operating(b, m, id) && Operating(b, m', id) ==> m == m')
    && (forall m, id :: m in b.runtime && id in b.runtime[m].leases ==> id in drawn)
  }

  ghost predicate WorldInv(w: World) {
    && Inv(w.book)
    && Drawn(w.book, w.drawn)
    && (forall t :: t in w.tokens ==>
          && t.operationId in w.drawn && t.modelId in w.book.runtime
          && t.epoch <= w.book.epoch && (w.book.recovering ==> t.epoch < w.book.epoch))
  }

  // ---- every transition keeps the invariant ----------------------------------------------

  predicate SameLeasesOrFewer(r: Runtime, r': Runtime) {
    forall id :: id in r'.leases ==> id in r.leases && r'.leases[id] == r.leases[id]
  }

  /** A book stays sound if every runtime is sound on its own and nobody gained a lease. */
  lemma LocalChangesKeep(b: BookState, b': BookState)
    requires Inv(b)
    requires b'.policy == b.policy && b'.runtime.Keys == b.runtime.Keys
    requires forall m :: m in b'.runtime ==> RuntimeInv(b.policy.ledger[m], m, b'.runtime[m], b'.recovering)
    requires forall m :: m in b'.runtime ==> SameLeasesOrFewer(b.runtime[m], b'.runtime[m])
    ensures Inv(b')
  {
    forall m, id, m', id', req | Holds(b', m, id, req) && Holds(b', m', id', req)
      ensures m == m' && id == id'
    {
      assert Holds(b, m, id, req) && Holds(b, m', id', req);
    }
  }

  lemma SetKeeps(b: BookState, m: ModelId, r: Runtime)
    requires Inv(b) && m in b.runtime
    requires RuntimeInv(b.policy.ledger[m], m, r, b.recovering)
    requires SameLeasesOrFewer(b.runtime[m], r)
    ensures Inv(Set(b, m, r))
  {
    LocalChangesKeep(b, Set(b, m, r));
  }

  lemma AcquireKeeps(b: BookState, m: ModelId, req: RequestId, uuid: Uuid)
    requires Inv(b) && AcquireReady(b, m, req, uuid).Ok?
    requires uuid !in b.runtime[m].leases
    ensures Inv(AcquireReady(b, m, req, uuid).value)
  {
    var b' := AcquireReady(b, m, req, uuid).value;
    var r, r' := b.runtime[m], b'.runtime[m];
    assert |r'.leases| == |r.leases| + 1;
    assert RuntimeInv(b.policy.ledger[m], m, r', b.recovering);
    forall x, id, x', id', q | Holds(b', x, id, q) && Holds(b', x', id', q)
      ensures x == x' && id == id'
    {
      assert (x == m && id == uuid) || (Holds(b, x, id, q) && q != req);
      assert (x' == m && id' == uuid) || (Holds(b, x', id', q) && q != req);
    }
  }

  lemma EvictingIsSound(spec: LedgerSpec, m: ModelId, r: Runtime, uuid: Uuid)
    requires RuntimeInv(spec, m, r, false) && r.leases == map[] && !r.state.Unloaded?
    ensures RuntimeInv(spec, m, MarkedRuntime(r, uuid), false)
  {
  }

  lemma MarkedKeeps(b: BookState, ms: seq<ModelId>, good: set<ModelId>, uuids: map<ModelId, Uuid>)
    requires Inv(b)
    requires forall m :: m in ms ==> m in uuids
    requires forall m :: m in good ==> m in b.runtime && b.runtime[m].leases == map[] && !b.runtime[m].state.Unloaded?
    requires StopBatch(b, ms, good, uuids).Ok?
    ensures Inv(StopBatch(b, ms, good, uuids).value)
  {
    VetMeaning(b, ms, good);
    var b' := Marked(b, ms, uuids);
    hide RuntimeInv, OneLeasePerRequest;
    forall m | m in b'.runtime
      ensures RuntimeInv(b.policy.ledger[m], m, b'.runtime[m], b'.recovering)
      ensures SameLeasesOrFewer(b.runtime[m], b'.runtime[m])
    {
      if m in ms { EvictingIsSound(b.policy.ledger[m], m, b.runtime[m], uuids[m]); }
    }
    LocalChangesKeep(b, b');
  }

  lemma ReleaseKeeps(b: BookState, lease: Lease, outcome: Outcome, now: Time)
    requires Inv(b) && Release(b, lease, outcome, now).Ok?
    ensures Inv(Release(b, lease, outcome, now).value)
  {
    if Held(b, lease) {
      var r := b.runtime[lease.modelId];
      var r' := Release(b, lease, outcome, now).value.runtime[lease.modelId];
      assert r'.leases.Keys == r.leases.Keys - {lease.leaseId};
      assert |r'.leases| < |r.leases|;
      SetKeeps(b, lease.modelId, r');
    }
  }

  lemma FrozenIsSound(spec: LedgerSpec, m: ModelId, r: Runtime, recovering: bool)
    requires RuntimeInv(spec, m, r, recovering) && r.state.Ready?
    ensures RuntimeInv(spec, m, r.(admissionBlocked := true), recovering)
  {
  }

  lemma FreezeKeeps(b: BookState, ms: seq<ModelId>)
    requires Inv(b) && FreezeForSwitch(b, ms).Ok?
    ensures Inv(FreezeForSwitch(b, ms).value)
  {
    VetMeaning(b, ms, FreezableNow(b));
    var b' := FreezeForSwitch(b, ms).value;
    hide RuntimeInv, OneLeasePerRequest;
    forall m | m in b'.runtime
      ensures RuntimeInv(b.policy.ledger[m], m, b'.runtime[m], b'.recovering)
      ensures SameLeasesOrFewer(b.runtime[m], b'.runtime[m])
    {
      if m in ms { FrozenIsSound(b.policy.ledger[m], m, b.runtime[m], b.recovering); }
    }
    LocalChangesKeep(b, b');
  }

  lemma RecoveryKeeps(b: BookState, b': BookState)
    requires Inv(b)
    requires b' == BeginRecovery(b) || exists e, s :: FinishRecovery(b, e, s) == Ok(b')
    ensures Inv(b')
  {
    forall m | m in b'.runtime
      ensures RuntimeInv(b.policy.ledger[m], m, b'.runtime[m], b'.recovering)
      ensures SameLeasesOrFewer(b.runtime[m], b'.runtime[m])
    {
      assert RuntimeInv(b.policy.ledger[m], m, b.runtime[m], b.recovering);
    }
    LocalChangesKeep(b, b');
  }

  lemma ThawKeeps(b: BookState, ms: seq<ModelId>)
    requires Inv(b)
    ensures Inv(UnfreezeSwitch(b, ms))
  {
    var b' := UnfreezeSwitch(b, ms);
    hide RuntimeInv, OneLeasePerRequest, Registered, Thawed;
    forall m | m in b'.runtime
      ensures RuntimeInv(b.policy.ledger[m], m, b'.runtime[m], b'.recovering)
      ensures SameLeasesOrFewer(b.runtime[m], b'.runtime[m])
    {
      ThawedIsSound(b.policy.ledger[m], m, b.runtime[m], b.recovering);
    }
    LocalChangesKeep(b, b');
  }

  lemma ThawedIsSound(spec: LedgerSpec, m: ModelId, r: Runtime, recovering: bool)
    requires RuntimeInv(spec, m, r, recovering)
    ensures RuntimeInv(spec, m, Thawed(r), recovering) && Thawed(r).leases == r.leases
  {
  }

  lemma OutcomesAreSound(spec: LedgerSpec, m: ModelId, r: Runtime, recovering: bool, now: Time)
    requires RuntimeInv(spec, m, r, recovering) && r.operationId.Some?
    ensures RuntimeInv(spec, m, FailedRuntime(r), recovering)
    ensures r.state.Loading? ==> RuntimeInv(spec, m, LoadedRuntime(r, now), recovering)
    ensures r.state.Evicting? ==> RuntimeInv(spec, m, RolledBackRuntime(r), recovering)
    ensures r.state.Evicting? ==> RuntimeInv(spec, m, StoppedRuntime(r, now), recovering)
  {
  }

  function TokenOutcome(c: Call, r: Runtime): (r': Runtime)
    requires IsTokenCall(c)
  {
    match c
    case LoadDone(_, now) => LoadedRuntime(r, now)
    case Fail(_) => FailedRuntime(r)
    case Rollback(_) => RolledBackRuntime(r)
    case StopDone(_, now) => StoppedRuntime(r, now)
  }

  /** An accepted token is the one the model is operating under, and it moves that model only. */
  lemma TokenCallShape(b: BookState, c: Call)
    requires IsTokenCall(c) && Apply(b, c).Ok?
    ensures c.op.modelId in b.runtime && b.runtime[c.op.modelId].operationId == Some(c.op.operationId)
    ensures After(b, c) == Set(b, c.op.modelId, TokenOutcome(c, b.runtime[c.op.modelId]))
    ensures c.LoadDone? ==> b.runtime[c.op.modelId].state.Loading?
    ensures c.Rollback? || c.StopDone? ==> b.runtime[c.op.modelId].state.Evicting?
    ensures SameLeasesOrFewer(b.runtime[c.op.modelId], TokenOutcome(c, b.runtime[c.op.modelId]))
  {
  }

  lemma TokenCallKeeps(b: BookState, c: Call)
    requires Inv(b) && IsTokenCall(c)
    ensures Inv(After(b, c))
  {
    if Apply(b, c).Ok? {
      var m := c.op.modelId;
      TokenCallShape(b, c);
      hide RuntimeInv, OneLeasePerRequest, Apply, After, Set, SameLeasesOrFewer,
           LoadedRuntime, FailedRuntime, RolledBackRuntime, StoppedRuntime;
      OutcomesAreSound(b.policy.ledger[m], m, b.runtime[m], b.recovering,
                       if c.LoadDone? || c.StopDone? then c.now else 0.0);
      SetKeeps(b, m, TokenOutcome(c, b.runtime[m]));
    }
  }

  lemma ModelCallKeeps(b: BookState, c: Call)
    requires Inv(b)
    requires c.Bootstrap? || c.Load?
    ensures Inv(After(b, c))
  {
    if Apply(b, c).Ok? {
      SetKeeps(b, c.m, After(b, c).runtime[c.m]);
    }
  }

  lemma CancelKeeps(b: BookState, lease: Lease)
    requires Inv(b) && BeginCancel(b, lease).Ok?
    ensures Inv(BeginCancel(b, lease).value)
  {
    if Held(b, lease) {
      SetKeeps(b, lease.modelId, BeginCancel(b, lease).value.runtime[lease.modelId]);
    }
  }

  /** The invariant holds in every state of every run: this is the step. */
  lemma CallKeepsInv(b: BookState, c: Call)
    requires Inv(b) && WellFormed(c)
    requires c.Acquire? && c.m in b.runtime ==> c.uuid !in b.runtime[c.m].leases
    ensures Inv(After(b, c))
  {
    if IsTokenCall(c) {
      TokenCallKeeps(b, c);
    } else if c.Bootstrap? || c.Load? {
      ModelCallKeeps(b, c);
    } else if Apply(b, c).Ok? {
      match c
      case Acquire(m, req, uuid) => AcquireKeeps(b, m, req, uuid);
      case Free(lease, outcome, now) => ReleaseKeeps(b, lease, outcome, now);
      case Evict(ms, automatic, uuids) => MarkedKeeps(b, ms, EvictableNow(b, automatic), uuids);
      case Cleanup(ms, uuids) => MarkedKeeps(b, ms, CleanableNow(b), uuids);
      case Freeze(ms) => FreezeKeeps(b, ms);
      case Unfreeze(ms) => ThawKeeps(b, ms);
      case CancelLease(lease) => CancelKeeps(b, lease);
      case StartRecovery => RecoveryKeeps(b, After(b, c));
      case EndRecovery(_, _) => RecoveryKeeps(b, After(b, c));
    }
  }

  /** Which operation identifier and which leases a model can have after a call. */
  predicate DrawsOnly(r: Runtime, r': Runtime, c: Call, m: ModelId)
    requires WellFormed(c)
  {
    && (|| r'.operationId == r.operationId
        || r'.operationId.None?
        || (c.Load? && m == c.m && r'.operationId == Some(c.uuid))
        || ((c.Evict? || c.Cleanup?) && m in c.ms && r'.operationId == Some(c.uuids[m])))
    && (forall id :: id in r'.leases ==> id in r.leases || (c.Acquire? && id == c.uuid))
  }

  lemma CallDrawsOnly(b: BookState, c: Call, m: ModelId)
    requires WellFormed(c) && m in b.runtime
    ensures After(b, c).runtime.Keys == b.runtime.Keys
    ensures DrawsOnly(b.runtime[m], After(b, c).runtime[m], c, m)
  {
    if c.Evict? || c.Cleanup? {
      StopBatchDrawsOnly(b, c, m);
    }
  }

  lemma StopBatchDrawsOnly(b: BookState, c: Call, m: ModelId)
    requires WellFormed(c) && m in b.runtime && (c.Evict? || c.Cleanup?)
    ensures After(b, c).runtime.Keys == b.runtime.Keys
    ensures DrawsOnly(b.runtime[m], After(b, c).runtime[m], c, m)
  {
    var good := if c.Evict? then EvictableNow(b, c.automatic) else CleanableNow(b);
    assert Apply(b, c) == StopBatch(b, c.ms, good, c.uuids);
  }

  lemma CallKeepsDrawn(w: World, c: Call)
    requires WorldInv(w) && FreshCall(w, c)
    ensures Drawn(After(w.book, c), w.drawn + Draws(c))
  {
    var b, b' := w.book, After(w.book, c);
    forall m | m in b.runtime
      ensures b'.runtime.Keys == b.runtime.Keys
      ensures DrawsOnly(b.runtime[m], b'.runtime[m], c, m)
    {
      CallDrawsOnly(b, c, m);
    }
    DrawnFollows(w, c, b');
  }

  lemma DrawnFollows(w: World, c: Call, b': BookState)
    requires WorldInv(w) && FreshCall(w, c)
    requires b'.runtime.Keys == w.book.runtime.Keys
    requires forall m :: m in w.book.runtime ==> DrawsOnly(w.book.runtime[m], b'.runtime[m], c, m)
    ensures Drawn(b', w.drawn + Draws(c))
  {
    hide Inv;
    var b := w.book;
    forall m, id | Operating(b', m, id)
      ensures Operating(b, m, id) || (id in Draws(c) && id !in w.drawn)
      ensures Operating(b, m, id) ==> id in w.drawn
    {
    }
    forall m, m', id | Operating(b', m, id) && Operating(b', m', id)
      ensures m == m'
    {
      if id in w.drawn {
        assert Operating(b, m, id) && Operating(b, m', id);
      }
    }
    forall m, id | m in b'.runtime && id in b'.runtime[m].leases
      ensures id in w.drawn + Draws(c)
    {
    }
  }

  lemma IssuesOnlyWhenOpen(b: BookState, c: Call)
    requires WellFormed(c)
    ensures Issues(b, c) != {} ==> !b.recovering && !After(b, c).recovering && After(b, c).epoch == b.epoch
    ensures forall t :: t in Issues(b, c) ==>
              t.operationId in Draws(c) && t.modelId in b.runtime && t.epoch == After(b, c).epoch
    ensures After(b, c).runtime.Keys == b.runtime.Keys
    ensures After(b, c).epoch >= b.epoch
    ensures !b.recovering && After(b, c).recovering ==> After(b, c).epoch > b.epoch
  {
  }

  lemma CallKeepsTokens(w: World, c: Call)
    requires WorldInv(w) && FreshCall(w, c)
    ensures forall t :: t in Next(w, c).tokens ==>
              && t.operationId in Next(w, c).drawn
              && t.modelId in Next(w, c).book.runtime
              && t.epoch <= Next(w, c).book.epoch
              && (Next(w, c).book.recovering ==> t.epoch < Next(w, c).book.epoch)
  {
    IssuesOnlyWhenOpen(w.book, c);
    hide Apply, After, Issues;
  }

  lemma CallKeepsWorld(w: World, c: Call)
    requires WorldInv(w) && FreshCall(w, c)
    ensures WorldInv(Next(w, c))
  {
    CallKeepsInv(w.book, c);
    CallKeepsDrawn(w, c);
    CallKeepsTokens(w, c);
  }

  lemma {:induction false} RunKeepsWorld(ws: seq<World>, cs: seq<Call>, i: nat)
    requires IsRun(ws, cs) && WorldInv(ws[0]) && i < |ws|
    ensures WorldInv(ws[i])
  {
    hide Step, WorldInv, Next;
    if i > 0 {
      RunKeepsWorld(ws, cs, i - 1);
      StepOf(ws[i - 1], cs[i - 1], ws[i]);
      CallKeepsWorld(ws[i - 1], cs[i - 1]);
    }
  }

  // ---- operation tokens act at most once -------------------------------------------------

  /** An identifier that was drawn and that no model is operating under. */
  ghost predicate Spent(w: World, id: Uuid) {
    id in w.drawn && forall m :: !Operating(w.book, m, id)
  }

  ghost predicate Accepts(w: World, c: Call) {
    IsTokenCall(c) && Apply(w.book, c).Ok?
  }

  lemma AcceptedTokenIsSpent(w: World, c: Call)
    requires WorldInv(w) && Accepts(w, c)
    ensures Spent(Next(w, c), c.op.operationId)
  {
    var b, b' := w.book, After(w.book, c);
    var id := c.op.operationId;
    TokenCallShape(b, c);
    OutcomeEndsOperation(c, b.runtime[c.op.modelId]);
    hide Apply, After, TokenOutcome, Inv, Issues;
    assert Operating(b, c.op.modelId, id);
    forall m
      ensures !Operating(b', m, id)
    {
      assert m != c.op.modelId && Operating(b', m, id) ==> Operating(b, m, id);
    }
  }

  lemma OutcomeEndsOperation(c: Call, r: Runtime)
    requires IsTokenCall(c)
    ensures TokenOutcome(c, r).operationId.None?
  {
  }

  lemma AcceptedIsOperating(w: World, c: Call)
    requires Accepts(w, c)
    ensures !Spent(w, c.op.operationId)
  {
    assert Operating(w.book, c.op.modelId, c.op.operationId);
  }

  lemma SpentStaysSpent(w: World, c: Call, id: Uuid)
    requires FreshCall(w, c) && Spent(w, id)
    ensures Spent(Next(w, c), id)
  {
    forall m
      ensures !Operating(After(w.book, c), m, id)
    {
      if m in w.book.runtime {
        CallDrawsOnly(w.book, c, m);
        assert !Operating(w.book, m, id);
      } else if w.book.runtime != map[] {
        var x :| x in w.book.runtime;
        CallDrawsOnly(w.book, c, x);
      }
    }
  }

  lemma {:induction false} SpentForever(ws: seq<World>, cs: seq<Call>, i: nat, j: nat, id: Uuid)
    requires IsRun(ws, cs) && i <= j < |ws| && Spent(ws[i], id)
    ensures Spent(ws[j], id)
    decreases j
  {
    hide Step, Spent, Next;
    if i < j {
      StepOf(ws[j - 1], cs[j - 1], ws[j]);
      SpentForever(ws, cs, i, j - 1, id);
      SpentStaysSpent(ws[j - 1], cs[j - 1], id);
    }
  }

  /** In no run do two calls of `loaded`, `failed`, `stopped` and `rollback_unsent` both accept
      the same token, whatever the two calls are. */
  lemma TokensActOnce(ws: seq<World>, cs: seq<Call>, i: nat, j: nat)
    requires IsRun(ws, cs) && WorldInv(ws[0])
    requires i < j < |cs|
    requires Accepts(ws[i], cs[i]) && Accepts(ws[j], cs[j])
    ensures cs[i].op.operationId != cs[j].op.operationId
  {
    hide Step, WorldInv, Next;
    RunKeepsWorld(ws, cs, i);
    StepOf(ws[i], cs[i], ws[i + 1]);
    AcceptedTokenIsSpent(ws[i], cs[i]);
    SpentForever(ws, cs, i + 1, j, cs[i].op.operationId);
    AcceptedIsOperating(ws[j], cs[j]);
  }

  lemma {:induction false} EpochsOnlyGrow(ws: seq<World>, cs: seq<Call>, i: nat, j: nat)
    requires IsRun(ws, cs) && i <= j < |ws|
    ensures ws[i].book.epoch <= ws[j].book.epoch
    ensures ws[i].book.runtime.Keys == ws[j].book.runtime.Keys
    decreases j
  {
    hide Step, Next, After;
    if i < j {
      StepOf(ws[j - 1], cs[j - 1], ws[j]);
      EpochsOnlyGrow(ws, cs, i, j - 1);
      IssuesOnlyWhenOpen(ws[j - 1].book, cs[j - 1]);
    }
  }

  lemma StartRecoveryWorks(w: World, c: Call)
    requires c.StartRecovery?
    ensures Next(w, c).book.recovering && w.tokens <= Next(w, c).tokens
  {
  }

  lemma OldEpochIsStale(b: BookState, c: Call)
    requires IsTokenCall(c) && c.op.modelId in b.runtime && c.op.epoch < b.epoch
    ensures Apply(b, c).StaleOperation?
  {
  }

  /** After `begin_recovery`, every token handed out before it is refused as stale for ever. */
  lemma RecoveryVoidsTokens(ws: seq<World>, cs: seq<Call>, i: nat, j: nat)
    requires IsRun(ws, cs) && WorldInv(ws[0])
    requires i < j < |cs| && cs[i].StartRecovery?
    requires IsTokenCall(cs[j]) && cs[j].op in ws[i].tokens
    ensures Apply(ws[j].book, cs[j]).StaleOperation?
  {
    hide Step, Apply, Next, Inv;
    RunKeepsWorld(ws, cs, i + 1);
    EpochsOnlyGrow(ws, cs, i + 1, j);
    StepOf(ws[i], cs[i], ws[i + 1]);
    StartRecoveryWorks(ws[i], cs[i]);
    OldEpochIsStale(ws[j].book, cs[j]);
  }

  /** While a model is operating under a token, only that token or a recovery can change it:
      no other call, in any interleaving, touches any of its fields. */
  lemma OperatingModelIsOwned(b: BookState, c: Call, m: ModelId)
    requires Inv(b) && WellFormed(c) && m in b.runtime && b.runtime[m].operationId.Some?
    requires !c.StartRecovery?
    requires IsTokenCall(c) ==> Some(c.op.operationId) != b.runtime[m].operationId
    ensures m in After(b, c).runtime && After(b, c).runtime[m] == b.runtime[m]
  {
    assert RuntimeInv(b.policy.ledger[m], m, b.runtime[m], b.recovering);
    hide Inv;
    if c.Evict? || c.Cleanup? || c.Freeze? {
      BatchesSkipOperating(b, c, m);
    } else if IsTokenCall(c) {
      TokensSkipOthers(b, c, m);
    } else {
      hide RuntimeInv;
      OtherCallsSkipOperating(b, c, m);
    }
  }

  lemma TokensSkipOthers(b: BookState, c: Call, m: ModelId)
    requires IsTokenCall(c) && m in b.runtime && Some(c.op.operationId) != b.runtime[m].operationId
    ensures m in After(b, c).runtime && After(b, c).runtime[m] == b.runtime[m]
  {
    if Apply(b, c).Ok? {
      TokenCallShape(b, c);
      hide Apply, After, TokenOutcome;
    } else {
      hide Apply;
    }
  }

  lemma OtherCallsSkipOperating(b: BookState, c: Call, m: ModelId)
    requires !IsTokenCall(c) && !c.Evict? && !c.Cleanup? && !c.Freeze? && !c.StartRecovery?
    requires m in b.runtime && m in b.policy.ledger && RuntimeInv(b.policy.ledger[m], m, b.runtime[m], b.recovering)
    requires b.runtime[m].operationId.Some?
    ensures m in After(b, c).runtime && After(b, c).runtime[m] == b.runtime[m]
  {
    hide BudgetAdmits, PhysicalAdmissible, SampleAfterStop, SampleValid, OwnsLease, AnyLease;
  }

  lemma BatchesSkipOperating(b: BookState, c: Call, m: ModelId)
    requires WellFormed(c) && m in b.runtime && b.runtime[m].operationId.Some?
    requires c.Evict? || c.Cleanup? || c.Freeze?
    ensures m in After(b, c).runtime && After(b, c).runtime[m] == b.runtime[m]
  {
    match c
    case Evict(ms, automatic, uuids) => VetMeaning(b, ms, EvictableNow(b, automatic));
    case Cleanup(ms, uuids) => VetMeaning(b, ms, CleanableNow(b));
    case Freeze(ms) => VetMeaning(b, ms, FreezableNow(b));
  }

  // ---- the two ledgers over whole runs ---------------------------------------------------

  /** A reservation changes only in two ways: an accepted load takes the whole figure, and a
      proven stop of a model without leases gives it back. */
  lemma ReservationMoves(b: BookState, c: Call, m: ModelId)
    requires Inv(b) && WellFormed(c) && m in b.runtime
    ensures After(b, c).runtime.Keys == b.runtime.Keys && After(b, c).policy == b.policy
    ensures ReservationMove(b, c, m)
    ensures b.recovering && After(b, c).recovering ==>
              After(b, c).runtime[m].reservation == b.runtime[m].reservation
  {
    assert RuntimeInv(b.policy.ledger[m], m, b.runtime[m], b.recovering);
    hide Inv, Apply, ReservationMove;
    if c.Evict? || c.Cleanup? {
      StopBatchKeepsReservation(b, c, m);
    } else if IsTokenCall(c) {
      TokenReservationMoves(b, c, m);
    } else if c.Load? || c.Acquire? || c.Bootstrap? {
      ModelReservationMoves(b, c, m);
    } else {
      OtherReservationMoves(b, c, m);
    }
  }

  lemma TokenReservationMoves(b: BookState, c: Call, m: ModelId)
    requires IsTokenCall(c) && m in b.runtime && m in b.policy.ledger
    requires RuntimeInv(b.policy.ledger[m], m, b.runtime[m], b.recovering)
    ensures After(b, c).runtime.Keys == b.runtime.Keys && After(b, c).policy == b.policy
    ensures ReservationMove(b, c, m)
    ensures b.recovering && After(b, c).recovering ==>
              After(b, c).runtime[m].reservation == b.runtime[m].reservation
  {
  }

  lemma OtherReservationMoves(b: BookState, c: Call, m: ModelId)
    requires c.Free? || c.CancelLease? || c.Freeze? || c.Unfreeze? || c.StartRecovery? || c.EndRecovery?
    requires m in b.runtime && m in b.policy.ledger
    requires RuntimeInv(b.policy.ledger[m], m, b.runtime[m], b.recovering)
    ensures After(b, c).runtime.Keys == b.runtime.Keys && After(b, c).policy == b.policy
    ensures ReservationMove(b, c, m)
    ensures b.recovering && After(b, c).recovering ==>
              After(b, c).runtime[m].reservation == b.runtime[m].reservation
  {
  }

  lemma ModelReservationMoves(b: BookState, c: Call, m: ModelId)
    requires (c.Load? || c.Acquire? || c.Bootstrap?) && m in b.runtime && m in b.policy.ledger
    requires RuntimeInv(b.policy.ledger[m], m, b.runtime[m], b.recovering)
    ensures After(b, c).runtime.Keys == b.runtime.Keys && After(b, c).policy == b.policy
    ensures ReservationMove(b, c, m)
    ensures b.recovering && After(b, c).recovering ==>
              After(b, c).runtime[m].reservation == b.runtime[m].reservation
  {
  }

  ghost predicate ReservationMove(b: BookState, c: Call, m: ModelId)
    requires WellFormed(c) && m in b.runtime && m in b.policy.ledger && m in After(b, c).runtime
  {
    var r, r' := b.runtime[m].reservation, After(b, c).runtime[m].reservation;
    || r' == r
    || (r' == 0 && b.runtime[m].leases == map[] && After(b, c).runtime[m].state.Unloaded?)
    || (c.Load? && c.m == m && Apply(b, c).Ok? && r == 0 && r' == b.policy.ledger[m].reserved)
  }

  lemma StopBatchKeepsReservation(b: BookState, c: Call, m: ModelId)
    requires WellFormed(c) && m in b.runtime && (c.Evict? || c.Cleanup?)
    ensures After(b, c).runtime.Keys == b.runtime.Keys && After(b, c).policy == b.policy
    ensures After(b, c).runtime[m].reservation == b.runtime[m].reservation
    ensures After(b, c).recovering == b.recovering
    ensures m in b.policy.ledger ==> ReservationMove(b, c, m)
  {
    var good := if c.Evict? then EvictableNow(b, c.automatic) else CleanableNow(b);
    assert Apply(b, c) == StopBatch(b, c.ms, good, c.uuids);
  }

  ghost function Max(x: nat, y: nat): (z: nat) {
    if x > y then x else y
  }

  lemma LoadShape(b: BookState, c: Call)
    requires Inv(b) && c.Load? && Apply(b, c).Ok?
    ensures c.m in b.runtime && b.runtime[c.m].reservation == 0
    ensures BudgetAdmits(b, c.m) && PhysicalAdmissible(b, c.m)
    ensures exists r :: After(b, c) == Set(b, c.m, r) && r.reservation == b.policy.ledger[c.m].reserved
  {
    assert RuntimeInv(b.policy.ledger[c.m], c.m, b.runtime[c.m], b.recovering);
    hide Inv, BudgetAdmits, PhysicalAdmissible, RuntimeInv;
    assert After(b, c) == Set(b, c.m, After(b, c).runtime[c.m]);
  }

  /** Taking a reservation where there was none adds exactly the two figures. */
  lemma TakingAddsFigures(b: BookState, m: ModelId, r: Runtime)
    requires m in b.runtime && b.runtime[m].reservation == 0 && r.reservation > 0
    ensures Committed(Set(b, m, r)) == Committed(b) + r.reservation
    ensures PhysicalCommitted(Set(b, m, r)) == Sum(PhysicalTable(b) - {m}) + PhysicalFigure(b.policy, m)
  {
    var b' := Set(b, m, r);
    SumUpdate(Reservations(b), m, r.reservation);
    assert Reservations(b') == Reservations(b)[m := r.reservation];
    assert PhysicalTable(b') == PhysicalTable(b)[m := PhysicalFigure(b.policy, m)];
    assert m !in PhysicalTable(b);
    assert PhysicalTable(b) - {m} == PhysicalTable(b);
    SumUpdate(PhysicalTable(b), m, PhysicalFigure(b.policy, m));
  }

  lemma LoadKeepsBudget(b: BookState, c: Call)
    requires Inv(b) && c.Load? && Apply(b, c).Ok?
    ensures Committed(After(b, c)) <= b.policy.budget
    ensures PhysicalEnforced(b.policy) ==> PhysicalCommitted(After(b, c)) <= b.policy.budget
    ensures After(b, c).policy == b.policy
  {
    LoadShape(b, c);
    hide Apply, After, RuntimeInv, PhysicalTable, Committed, PhysicalCommitted;
    var r :| After(b, c) == Set(b, c.m, r) && r.reservation == b.policy.ledger[c.m].reserved;
    TakingAddsFigures(b, c.m, r);
  }

  lemma OtherCallsOnlyLower(b: BookState, c: Call)
    requires Inv(b) && WellFormed(c) && !(c.Load? && Apply(b, c).Ok?)
    ensures Committed(After(b, c)) <= Committed(b)
    ensures PhysicalCommitted(After(b, c)) <= PhysicalCommitted(b)
    ensures After(b, c).policy == b.policy
  {
    var b' := After(b, c);
    assert b.policy.ledger != map[];
    var any :| any in b.policy.ledger;
    assert any in b.runtime;
    hide Apply, After, Inv, Reservations, PhysicalTable;
    forall m | m in b.runtime
      ensures b'.runtime.Keys == b.runtime.Keys && b'.policy == b.policy
      ensures b'.runtime[m].reservation <= b.runtime[m].reservation
    {
      ReservationMoves(b, c, m);
    }
    LowerReservations(b, b');
  }

  lemma LowerReservations(b: BookState, b': BookState)
    requires b'.runtime.Keys == b.runtime.Keys && b'.policy == b.policy
    requires forall m :: m in b.runtime ==> b'.runtime[m].reservation <= b.runtime[m].reservation
    ensures Committed(b') <= Committed(b) && PhysicalCommitted(b') <= PhysicalCommitted(b)
  {
    SumMono(Reservations(b'), Reservations(b));
    SumMono(PhysicalTable(b'), PhysicalTable(b));
  }

  lemma UnmeasuredPhysicalIsZero(b: BookState)
    requires !PhysicalEnforced(b.policy)
    ensures PhysicalCommitted(b) == 0
  {
    var table := PhysicalTable(b);
    forall m | m in table ensures table[m] == 0 {
      if m in b.policy.ledger { assert !b.policy.ledger[m].physical.Some?; }
    }
    ZeroSum(table);
  }

  lemma {:induction false} ZeroSum(w: map<ModelId, nat>)
    requires forall m :: m in w ==> w[m] == 0
    ensures Sum(w) == 0
    decreases |w|
  {
    if w != map[] {
      var k :| k in w;
      SmallerWithout(w, k);
      SumSplit(w, k);
      ZeroSum(w - {k});
    }
  }

  lemma CallKeepsBudget(b: BookState, c: Call)
    requires Inv(b) && WellFormed(c)
    ensures Committed(After(b, c)) <= Max(Committed(b), b.policy.budget)
    ensures PhysicalCommitted(After(b, c)) <= Max(PhysicalCommitted(b), b.policy.budget)
    ensures After(b, c).policy == b.policy
  {
    hide After, Apply, Inv, Committed, PhysicalCommitted;
    if c.Load? && Apply(b, c).Ok? {
      LoadKeepsBudget(b, c);
      if !PhysicalEnforced(b.policy) { UnmeasuredPhysicalIsZero(After(b, c)); }
    } else {
      OtherCallsOnlyLower(b, c);
    }
  }

  /** Neither ledger ever rises above the budget, or above where it stood if it stood higher:
      once within the budget, both stay within it for the rest of the run. */
  lemma {:induction false} LedgersStayWithinBudget(ws: seq<World>, cs: seq<Call>, i: nat, j: nat)
    requires IsRun(ws, cs) && WorldInv(ws[0]) && i <= j < |ws|
    ensures ws[j].book.policy == ws[i].book.policy
    ensures Committed(ws[j].book) <= Max(Committed(ws[i].book), ws[i].book.policy.budget)
    ensures PhysicalCommitted(ws[j].book) <= Max(PhysicalCommitted(ws[i].book), ws[i].book.policy.budget)
    decreases j
  {
    hide Step, Next, After, Inv, Committed, PhysicalCommitted;
    if i < j {
      LedgersStayWithinBudget(ws, cs, i, j - 1);
      RunKeepsWorld(ws, cs, j - 1);
      StepOf(ws[j - 1], cs[j - 1], ws[j]);
      CallKeepsBudget(ws[j - 1].book, cs[j - 1]);
    }
  }

  /** In a fully measured book, a physical ledger within the budget means that the raw resident
      peaks of all models not proven stopped fit together, with the 15 percent margin on top. */
  lemma PhysicalPeaksFit(b: BookState, peaks: map<ModelId, nat>)
    requires Inv(b) && PhysicalCommitted(b) <= b.policy.budget
    requires peaks.Keys == b.policy.ledger.Keys
    requires forall m :: m in peaks ==> b.policy.ledger[m].physical == LedgerArithmetic.ReservedFromPeak(peaks[m])
    requires forall m :: m in peaks ==> peaks[m] > 0
    ensures 115 * Sum(map m | m in b.runtime && !b.runtime[m].state.Unloaded? :: peaks[m]) <= 100 * b.policy.budget
  {
    var resident := map m | m in b.runtime && !b.runtime[m].state.Unloaded? :: peaks[m];
    forall m | m in b.runtime
      ensures b.runtime[m].reservation > 0 <==> !b.runtime[m].state.Unloaded?
    {
      assert RuntimeInv(b.policy.ledger[m], m, b.runtime[m], b.recovering);
    }
    assert resident.Keys == PhysicalTable(b).Keys;
    LedgerArithmetic.MarginsAddUp(resident, PhysicalTable(b));
  }

  /** From `begin_recovery` until a `finish_recovery` is accepted no ledger figure moves. */
  lemma {:induction false} RecoveryFreezesLedgers(ws: seq<World>, cs: seq<Call>, i: nat, j: nat)
    requires IsRun(ws, cs) && WorldInv(ws[0]) && i <= j < |ws|
    requires ws[i].book.recovering
    requires forall k :: i <= k < j ==> !(cs[k].EndRecovery? && Apply(ws[k].book, cs[k]).Ok?)
    ensures ws[j].book.recovering
    ensures Reservations(ws[j].book) == Reservations(ws[i].book)
    ensures PhysicalTable(ws[j].book) == PhysicalTable(ws[i].book)
    decreases j
  {
    hide Step, Next, After, Apply, Inv, Reservations, PhysicalTable;
    if i < j {
      RecoveryFreezesLedgers(ws, cs, i, j - 1);
      RunKeepsWorld(ws, cs, j - 1);
      StepOf(ws[j - 1], cs[j - 1], ws[j]);
      RecoveringCallKeepsLedgers(ws[j - 1].book, cs[j - 1]);
    }
  }

  lemma RecoveringCallKeepsLedgers(b: BookState, c: Call)
    requires Inv(b) && WellFormed(c) && b.recovering
    requires !(c.EndRecovery? && Apply(b, c).Ok?)
    ensures After(b, c).recovering
    ensures Reservations(After(b, c)) == Reservations(b)
    ensures PhysicalTable(After(b, c)) == PhysicalTable(b)
  {
    var any :| any in b.policy.ledger;
    assert any in b.runtime;
    hide After, Apply, ReservationMove, Inv, Reservations, PhysicalTable;
    if !After(b, c).recovering { RecoveryEndsOnlyByProof(b, c); }
    assert After(b, c).recovering;
    forall m | m in b.runtime
      ensures After(b, c).runtime.Keys == b.runtime.Keys && After(b, c).policy == b.policy
      ensures After(b, c).runtime[m].reservation == b.runtime[m].reservation
    {
      ReservationMoves(b, c, m);
    }
    SameLedgers(b, After(b, c));
  }

  lemma SameLedgers(b: BookState, b': BookState)
    requires b'.runtime.Keys == b.runtime.Keys && b'.policy == b.policy
    requires forall m :: m in b.runtime ==> b'.runtime[m].reservation == b.runtime[m].reservation
    ensures Reservations(b') == Reservations(b) && PhysicalTable(b') == PhysicalTable(b)
  {
  }

  lemma RecoveryEndsOnlyByProof(b: BookState, c: Call)
    requires WellFormed(c) && b.recovering && !After(b, c).recovering
    ensures c.EndRecovery? && Apply(b, c).Ok? && c.confirmed == b.policy.ledger.Keys && !AnyLease(b)
  {
  }

  /** In every reachable state a reservation is zero exactly when the model is proven stopped and
      otherwise exactly its required bytes, and it only ever goes back to zero on a model without
      leases. */
  lemma ReservationsAreExact(ws: seq<World>, cs: seq<Call>, i: nat, m: ModelId)
    requires IsRun(ws, cs) && WorldInv(ws[0]) && i < |cs|
    requires m in ws[i].book.runtime && m in ws[i].book.policy.ledger
    ensures var r := ws[i].book.runtime[m];
            && (r.reservation == 0 <==> r.state.Unloaded?)
            && (r.reservation != 0 ==> r.reservation == ws[i].book.policy.ledger[m].reserved)
    ensures m in ws[i + 1].book.runtime
    ensures ws[i].book.runtime[m].reservation > 0 && ws[i + 1].book.runtime[m].reservation == 0 ==>
              ws[i].book.runtime[m].leases == map[] && ws[i + 1].book.runtime[m].state.Unloaded?
  {
    RunKeepsWorld(ws, cs, i);
    StepOf(ws[i], cs[i], ws[i + 1]);
    var b := ws[i].book;
    assert RuntimeInv(b.policy.ledger[m], m, b.runtime[m], b.recovering);
    hide Step, Next, After, Apply;
    ReservationMoves(b, cs[i], m);
  }

  /** Lease integrity, in every reachable state: a held lease carries its model's current generation,
      no model exceeds its concurrency, a cancelling lease is a held lease, and no request id owns
      two leases anywhere. */
  lemma LeasesAreSound(ws: seq<World>, cs: seq<Call>, i: nat, m: ModelId, id: Uuid)
    requires IsRun(ws, cs) && WorldInv(ws[0]) && i < |ws|
    requires m in ws[i].book.runtime && m in ws[i].book.policy.ledger
    ensures var r := ws[i].book.runtime[m];
            && |r.leases| <= ws[i].book.policy.ledger[m].maxConcurrency
            && (id in r.leases ==>
                  r.leases[id].generation == r.generation && r.leases[id].modelId == m && r.leases[id].leaseId == id)
            && (id in r.cancelling ==> id in r.leases && r.cancelling[id] == r.leases[id])
    ensures OneLeasePerRequest(ws[i].book)
  {
    hide Step;
    RunKeepsWorld(ws, cs, i);
    var b := ws[i].book;
    assert RuntimeInv(b.policy.ledger[m], m, b.runtime[m], b.recovering);
  }

  // ---- who blocks admission and who holds leases -----------------------------------------

  /** A ready model that refuses new leases: the mark a switch freeze leaves. */
  predicate FrozenReady(b: BookState, m: ModelId) {
    m in b.runtime && b.runtime[m].state.Ready? && b.runtime[m].admissionBlocked
  }

  /** Only `freeze_for_switch` ever leaves a ready model blocked. */
  lemma OnlyFreezeBlocksReady(b: BookState, c: Call, m: ModelId)
    requires Inv(b) && WellFormed(c) && FrozenReady(After(b, c), m)
    ensures FrozenReady(b, m) || (c.Freeze? && m in c.ms)
  {
    hide Apply, After, Inv;
    if c.Evict? || c.Cleanup? {
      StopBatchBlocksNobodyReady(b, c, m);
    } else if IsTokenCall(c) {
      TokenCallBlocksNobodyReady(b, c, m);
    } else if c.Load? || c.Acquire? || c.Bootstrap? || c.CancelLease? {
      ModelCallBlocksNobodyReady(b, c, m);
    } else {
      OtherCallBlocksOnlyFrozen(b, c, m);
    }
  }

  lemma ModelCallBlocksNobodyReady(b: BookState, c: Call, m: ModelId)
    requires c.Load? || c.Acquire? || c.Bootstrap? || c.CancelLease?
    requires FrozenReady(After(b, c), m)
    ensures FrozenReady(b, m)
  {
  }

  lemma OtherCallBlocksOnlyFrozen(b: BookState, c: Call, m: ModelId)
    requires c.Free? || c.Freeze? || c.Unfreeze? || c.StartRecovery? || c.EndRecovery?
    requires Inv(b) && FrozenReady(After(b, c), m)
    ensures FrozenReady(b, m) || (c.Freeze? && m in c.ms)
  {
    hide Inv;
  }

  lemma StopBatchBlocksNobodyReady(b: BookState, c: Call, m: ModelId)
    requires WellFormed(c) && (c.Evict? || c.Cleanup?) && FrozenReady(After(b, c), m)
    ensures FrozenReady(b, m)
  {
    var good := if c.Evict? then EvictableNow(b, c.automatic) else CleanableNow(b);
    assert Apply(b, c) == StopBatch(b, c.ms, good, c.uuids);
  }

  lemma TokenCallBlocksNobodyReady(b: BookState, c: Call, m: ModelId)
    requires IsTokenCall(c) && FrozenReady(After(b, c), m)
    ensures FrozenReady(b, m)
  {
  }

  /** `unfreeze_switch` reopens every ready model it is given. */
  lemma UnfreezeReopens(b: BookState, ms: seq<ModelId>, m: ModelId)
    requires Inv(b) && m in ms && (forall x :: x in ms ==> x in b.runtime)
    ensures !FrozenReady(After(b, Unfreeze(ms)), m)
  {
    assert RuntimeInv(b.policy.ledger[m], m, b.runtime[m], b.recovering);
    hide Inv, LeasesSound, ReservationExact;
    UnfreezeThaws(b, ms, m);
  }

  lemma UnfreezeThaws(b: BookState, ms: seq<ModelId>, m: ModelId)
    requires m in ms && (forall x :: x in ms ==> x in b.runtime)
    ensures m in After(b, Unfreeze(ms)).runtime && After(b, Unfreeze(ms)).runtime[m] == Thawed(b.runtime[m])
  {
    hide Thawed;
    assert Registered(b, ms) == ms;
  }

  /** A token holder is undisturbed: as long as no recovery starts and its own token is not used,
      no interleaving of other calls changes anything about the model. */
  lemma {:induction false} TokenHolderIsUndisturbed(ws: seq<World>, cs: seq<Call>, i: nat, j: nat, m: ModelId, id: Uuid)
    requires IsRun(ws, cs) && WorldInv(ws[0]) && i <= j < |ws|
    requires Operating(ws[i].book, m, id)
    requires forall k :: i <= k < j ==> !cs[k].StartRecovery? && (IsTokenCall(cs[k]) ==> cs[k].op.operationId != id)
    ensures m in ws[j].book.runtime && ws[j].book.runtime[m] == ws[i].book.runtime[m]
    decreases j
  {
    hide Step, Next, After, Inv;
    if i < j {
      TokenHolderIsUndisturbed(ws, cs, i, j - 1, m, id);
      RunKeepsWorld(ws, cs, j - 1);
      StepOf(ws[j - 1], cs[j - 1], ws[j]);
      OperatingModelIsOwned(ws[j - 1].book, cs[j - 1], m);
    }
  }

  // ---- a lease ends only by its release --------------------------------------------------------

  lemma FreeKeepsOthers(b: BookState, c: Call, lease: Lease)
    requires c.Free? && c.lease != lease && Held(b, lease) && LeasesNamed(b)
    ensures Held(After(b, c), lease)
  {
    if Held(b, c.lease) && c.lease.modelId == lease.modelId {
      assert c.lease.leaseId != lease.leaseId;
    }
  }

  predicate LeasesNamed(b: BookState) {
    forall m :: m in b.runtime ==> forall id :: id in b.runtime[m].leases ==> b.runtime[m].leases[id].leaseId == id
  }

  lemma BatchKeepsLease(b: BookState, c: Call, lease: Lease)
    requires WellFormed(c) && (c.Evict? || c.Cleanup? || c.Freeze? || c.Unfreeze?) && Held(b, lease)
    ensures Held(After(b, c), lease)
  {
    hide Vet, EvictableNow, CleanableNow, FreezableNow, Distinct;
  }

  lemma TokenCallKeepsLease(b: BookState, c: Call, lease: Lease)
    requires IsTokenCall(c) && Held(b, lease)
    ensures Held(After(b, c), lease)
  {
    if Apply(b, c).Ok? {
      TokenCallShape(b, c);
      TokenKeepsLeases(c, b.runtime[c.op.modelId]);
      hide Apply, After, TokenOutcome;
    } else {
      hide Apply;
    }
  }

  lemma TokenKeepsLeases(c: Call, r: Runtime)
    requires IsTokenCall(c)
    ensures TokenOutcome(c, r).leases == r.leases && TokenOutcome(c, r).generation == r.generation
  {
  }

  lemma OtherCallKeepsLease(b: BookState, c: Call, lease: Lease)
    requires c.Bootstrap? || c.Load? || c.Acquire? || c.CancelLease? || c.StartRecovery? || c.EndRecovery?
    requires Held(b, lease) && (c.Acquire? ==> c.uuid != lease.leaseId)
    ensures Held(After(b, c), lease)
  {
    hide BudgetAdmits, PhysicalAdmissible, SampleAfterStop, SampleValid, OwnsLease;
    if c.EndRecovery? {
      assert AnyLease(b);
      hide AnyLease;
    }
  }

  /** Only the release of exactly this lease ends it: no load, stop, batch, token or recovery does. */
  lemma HeldUntilReleased(w: World, c: Call, lease: Lease)
    requires WorldInv(w) && FreshCall(w, c) && Held(w.book, lease) && !(c.Free? && c.lease == lease)
    ensures Held(After(w.book, c), lease)
  {
    assert lease.leaseId in w.drawn && LeasesNamed(w.book) by { NamesOf(w, lease); }
    hide WorldInv, After, Apply, LeasesNamed;
    if c.Free? {
      FreeKeepsOthers(w.book, c, lease);
    } else if c.Evict? || c.Cleanup? || c.Freeze? || c.Unfreeze? {
      BatchKeepsLease(w.book, c, lease);
    } else if IsTokenCall(c) {
      TokenCallKeepsLease(w.book, c, lease);
    } else {
      OtherCallKeepsLease(w.book, c, lease);
    }
  }

  lemma NamesOf(w: World, lease: Lease)
    requires WorldInv(w) && Held(w.book, lease)
    ensures lease.leaseId in w.drawn && LeasesNamed(w.book)
  {
    forall m | m in w.book.runtime
      ensures forall id :: id in w.book.runtime[m].leases ==> w.book.runtime[m].leases[id].leaseId == id
    {
      assert RuntimeInv(w.book.policy.ledger[m], m, w.book.runtime[m], w.book.recovering);
    }
  }
}
