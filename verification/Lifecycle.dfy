/** The scheduler's lifecycle tasks over the book: finishing a load, and finishing a stop batch
    with whatever the backend answers (model_scheduler/scheduler.py). */
module Lifecycle {
  import opened Prelude
  import opened BookModel
  import opened BookRuns
  import BookObject

  /** What `backend.stop` can do: prove the stop, answer anything else or raise, or be cancelled. */
  datatype StopAnswer = ProvenStopped | Unproven | TaskCancelled

  /** What `backend.load` can do: report a healthy running instance, report anything else, or raise. */
  datatype LoadAnswer = Healthy | Unverified | LoadRaised

  // ---- the stop batch --------------------------------------------------------------------

  /** `_rollback_pending`: stale tokens are skipped, any other refusal propagates and ends it. */
  ghost function RollBackAll(b: BookState, ops: seq<Operation>): (b': BookState)
    decreases |ops|
  {
    if ops == [] then b
    else
      var reply := Apply(b, Rollback(ops[0]));
      if reply.Ok? then RollBackAll(reply.value, ops[1..])
      else if reply.StaleOperation? then RollBackAll(b, ops[1..])
      else b
  }

  ghost function AfterAll(b: BookState, cs: seq<Call>): (b': BookState)
    requires forall c :: c in cs ==> WellFormed(c)
    decreases |cs|
  {
    if cs == [] then b else AfterAll(After(b, cs[0]), cs[1..])
  }

  /** `_finish_eviction` as a function: stop members until the first one whose stop is not
      proven; that one fails and the rest is rolled back. While the batch waits for the answer to
      one stop, other tasks make the calls `others` holds for it. A stale success is skipped, and
      any other refusal by the book propagates and ends the batch there. */
  ghost function FinishBatch(b: BookState, ops: seq<Operation>, answers: seq<StopAnswer>, times: seq<Time>,
                             others: seq<seq<Call>>): (b': BookState)
    requires |answers| == |ops| == |times| == |others| && AllWellFormed(others)
    decreases |ops|
  {
    if ops == [] then b
    else
      var b0 := AfterAll(b, others[0]);
      if answers[0].ProvenStopped? then
        var reply := Apply(b0, StopDone(ops[0], times[0]));
        if reply.Ok? then FinishBatch(reply.value, ops[1..], answers[1..], times[1..], others[1..])
        else if reply.StaleOperation? then FinishBatch(b0, ops[1..], answers[1..], times[1..], others[1..])
        else b0
      else
        var reply := Apply(b0, Fail(ops[0]));
        if reply.Ok? then RollBackAll(reply.value, ops[1..]) else b0
  }

  /** The members whose stop the book accepted, in order. */
  ghost function StoppedModels(b: BookState, ops: seq<Operation>, answers: seq<StopAnswer>, times: seq<Time>,
                               others: seq<seq<Call>>): (ms: seq<ModelId>)
    requires |answers| == |ops| == |times| == |others| && AllWellFormed(others)
    decreases |ops|
  {
    if ops == [] || !answers[0].ProvenStopped? then []
    else
      var b0 := AfterAll(b, others[0]);
      var reply := Apply(b0, StopDone(ops[0], times[0]));
      if reply.Ok? then [ops[0].modelId] + StoppedModels(reply.value, ops[1..], answers[1..], times[1..], others[1..])
      else if reply.StaleOperation? then StoppedModels(b0, ops[1..], answers[1..], times[1..], others[1..])
      else []
  }

  predicate AllWellFormed(others: seq<seq<Call>>) {
    forall i :: 0 <= i < |others| ==> forall c :: c in others[i] ==> WellFormed(c)
  }

  /** One call of another task. */
  method Perform(book: BookObject.Book, c: Call)
    requires book.Valid() && WellFormed(c)
    modifies book
    ensures book.Valid() && book.State() == After(old(book.State()), c)
  {
    hide After;
    match c
    case Bootstrap(m) => var _ := book.BootstrapStopped(m);
    case Load(m, s, now, uuid) => var _ := book.BeginLoad(m, s, now, uuid);
    case LoadDone(op, now) => var _ := book.Loaded(op, now);
    case Fail(op) => var _ := book.Failed(op);
    case Acquire(m, req, uuid) => var _ := book.AcquireReady(m, req, uuid);
    case Free(lease, outcome, now) => var _ := book.Release(lease, outcome, now, None);
    case CancelLease(lease) => var _ := book.BeginCancel(lease);
    case Evict(ms, automatic, uuids) => var _ := book.BeginEviction(ms, automatic, uuids);
    case Cleanup(ms, uuids) => var _ := book.BeginCleanup(ms, uuids);
    case Freeze(ms) => var _ := book.FreezeForSwitch(ms);
    case Unfreeze(ms) => var _ := book.UnfreezeSwitch(ms);
    case Rollback(op) => var _ := book.RollbackUnsent(op);
    case StopDone(op, now) => var _ := book.Stopped(op, now);
    case StartRecovery => var _ := book.BeginRecovery();
    case EndRecovery(epoch, confirmed) => var _ := book.FinishRecovery(epoch, confirmed);
  }

  method PerformAll(book: BookObject.Book, cs: seq<Call>)
    requires book.Valid() && forall c :: c in cs ==> WellFormed(c)
    modifies book
    ensures book.Valid() && book.State() == AfterAll(old(book.State()), cs)
  {
    hide After;
    var n := 0;
    while n < |cs|
      invariant 0 <= n <= |cs| && book.Valid()
      invariant AfterAll(book.State(), cs[n..]) == AfterAll(old(book.State()), cs)
    {
      assert cs[n..][1..] == cs[n + 1..];
      Perform(book, cs[n]);
      n := n + 1;
    }
    assert cs[|cs|..] == [];
  }

  method RollbackPending(book: BookObject.Book, ops: seq<Operation>)
    requires book.Valid()
    modifies book
    ensures book.Valid()
    ensures book.State() == RollBackAll(old(book.State()), ops)
  {
    hide Apply;
    var n := 0;
    while n < |ops|
      invariant 0 <= n <= |ops| && book.Valid()
      invariant RollBackAll(book.State(), ops[n..]) == RollBackAll(old(book.State()), ops)
    {
      assert ops[n..][1..] == ops[n + 1..];
      var reply := book.RollbackUnsent(ops[n]);
      if !reply.Ok? && !reply.StaleOperation? {
        return;
      }
      n := n + 1;
    }
    assert ops[|ops|..] == [];
  }

  /** `stopped` names exactly the members whose stop the book accepted. */
  method FinishEviction(book: BookObject.Book, ops: seq<Operation>, answers: seq<StopAnswer>, times: seq<Time>,
                        others: seq<seq<Call>>)
    returns (stopped: seq<ModelId>)
    requires book.Valid() && |answers| == |ops| == |times| == |others| && AllWellFormed(others)
    modifies book
    ensures book.Valid()
    ensures book.State() == FinishBatch(old(book.State()), ops, answers, times, others)
    ensures stopped == StoppedModels(old(book.State()), ops, answers, times, others)
  {
    hide Apply, RollBackAll, AfterAll;
    stopped := [];
    var n := 0;
    while n < |ops|
      invariant 0 <= n <= |ops| && book.Valid()
      invariant FinishBatch(book.State(), ops[n..], answers[n..], times[n..], others[n..])
             == FinishBatch(old(book.State()), ops, answers, times, others)
      invariant stopped + StoppedModels(book.State(), ops[n..], answers[n..], times[n..], others[n..])
             == StoppedModels(old(book.State()), ops, answers, times, others)
    {
      assert ops[n..][1..] == ops[n + 1..] && answers[n..][1..] == answers[n + 1..]
             && times[n..][1..] == times[n + 1..];
      assert others[n..][1..] == others[n + 1..];
      PerformAll(book, others[n]);
      if answers[n].ProvenStopped? {
        var reply := book.Stopped(ops[n], times[n]);
        if reply.Ok? {
          stopped := stopped + [ops[n].modelId];
        } else if !reply.StaleOperation? {
          return;
        }
      } else {
        var reply := book.Failed(ops[n]);
        if reply.Ok? {
          RollbackPending(book, ops[n + 1..]);
        }
        return;
      }
      n := n + 1;
    }
    assert ops[|ops|..] == [];
  }

  // ---- a batch inside a run --------------------------------------------------------------

  /** A batch whose tokens are all current, as `begin_eviction` and `begin_cleanup` hand it out. */
  predicate Pending(b: BookState, ops: seq<Operation>) {
    && (forall i, j :: 0 <= i < j < |ops| ==> ops[i].modelId != ops[j].modelId)
    && (forall i :: 0 <= i < |ops| ==> Awaits(b, ops[i]))
  }

  predicate Awaits(b: BookState, op: Operation) {
    Current(b, op).Ok? && b.runtime[op.modelId].state.Evicting? && b.runtime[op.modelId].leases == map[]
  }

  /** The call that starts a batch, and the tokens it hands out. */
  ghost predicate Begins(b: BookState, c: Call, ops: seq<Operation>) {
    && (c.Evict? || c.Cleanup?) && WellFormed(c) && Apply(b, c).Ok?
    && (forall m :: m in c.ms ==> m in b.runtime) && ops == TokensFor(b, c.ms, c.uuids)
  }

  lemma BegunIsPending(b: BookState, c: Call, ops: seq<Operation>)
    requires Begins(b, c, ops)
    ensures Pending(After(b, c), ops)
  {
    var good := if c.Evict? then EvictableNow(b, c.automatic) else CleanableNow(b);
    assert Apply(b, c) == StopBatch(b, c.ms, good, c.uuids);
    VetMeaning(b, c.ms, good);
    forall i | 0 <= i < |ops| ensures Awaits(After(b, c), ops[i]) {
      assert c.ms[i] in c.ms;
    }
  }

  /** How many members are proven stopped before the first one that is not. */
  function StoppedPrefix(answers: seq<StopAnswer>): (k: nat)
    ensures k <= |answers|
    ensures forall i :: 0 <= i < k ==> answers[i].ProvenStopped?
    ensures k < |answers| ==> !answers[k].ProvenStopped?
  {
    if answers == [] || !answers[0].ProvenStopped? then 0 else 1 + StoppedPrefix(answers[1..])
  }

  /** The call the batch makes for its `i`-th member. */
  predicate IsOwnCall(c: Call, op: Operation, i: nat, k: nat) {
    && (if i < k then c.StopDone? else if i == k then c.Fail? else c.Rollback?)
    && c.op == op
  }

  predicate Spares(c: Call, op: Operation) {
    !c.StartRecovery? && (IsTokenCall(c) ==> c.op.operationId != op.operationId)
  }

  /** A run with a batch in it: the batch starts with the accepted call `s`, its own calls, as far
      as they were made, stand at the positions `at`, and anything whatever happens in between,
      except that before a member's own call no recovery starts and nobody else uses its token. */
  ghost predicate IsBatch(ws: seq<World>, cs: seq<Call>, s: nat, ops: seq<Operation>, answers: seq<StopAnswer>,
                          at: seq<nat>) {
    && IsRun(ws, cs) && WorldInv(ws[0]) && s < |cs| && Begins(ws[s].book, cs[s], ops)
    && |answers| == |ops| && |at| <= |ops|
    && (forall i :: 0 <= i < |at| ==> s < at[i] < |cs| && IsOwnCall(cs[at[i]], ops[i], i, StoppedPrefix(answers)))
    && (forall q, i :: s < q < |cs| && 0 <= i < |at| && q < at[i] ==> Spares(cs[q], ops[i]))
  }

  function Fate(r: Runtime, i: nat, k: nat, now: Time): (r': Runtime) {
    if i < k then StoppedRuntime(r, now) else if i == k then FailedRuntime(r) else RolledBackRuntime(r)
  }

  lemma {:induction false} EpochIsSteady(ws: seq<World>, cs: seq<Call>, i: nat, j: nat)
    requires IsRun(ws, cs) && i <= j < |ws| && forall k :: i <= k < j ==> !cs[k].StartRecovery?
    ensures ws[j].book.epoch == ws[i].book.epoch
    decreases j
  {
    hide Step, After;
    if i < j {
      EpochIsSteady(ws, cs, i, j - 1);
      StepOf(ws[j - 1], cs[j - 1], ws[j]);
      OnlyRecoveryCounts(ws[j - 1].book, cs[j - 1]);
    }
  }

  lemma OnlyRecoveryCounts(b: BookState, c: Call)
    requires WellFormed(c) && !c.StartRecovery?
    ensures After(b, c).epoch == b.epoch
  {
  }

  /** A member still has everything it had when the batch began, and its token is still current. */
  lemma MemberStillAwaits(ws: seq<World>, cs: seq<Call>, i: nat, j: nat, op: Operation)
    requires IsRun(ws, cs) && WorldInv(ws[0]) && i <= j < |ws| && Awaits(ws[i].book, op)
    requires forall q :: i <= q < j ==> Spares(cs[q], op)
    ensures Awaits(ws[j].book, op) && ws[j].book.runtime[op.modelId] == ws[i].book.runtime[op.modelId]
  {
    hide Step;
    TokenHolderIsUndisturbed(ws, cs, i, j, op.modelId, op.operationId);
    EpochIsSteady(ws, cs, i, j);
  }

  lemma OwnCallActs(b: BookState, c: Call, op: Operation, i: nat, k: nat, now: Time)
    requires Awaits(b, op) && IsOwnCall(c, op, i, k) && (c.StopDone? ==> c.now == now)
    ensures Apply(b, c).Ok? && After(b, c) == Set(b, op.modelId, Fate(b.runtime[op.modelId], i, k, now))
  {
  }

  function TimeOf(c: Call): (now: Time) {
    if c.StopDone? then c.now else 0.0
  }

  /** Member by member, for any answers and any interleaving: a stopped prefix, then at most one
      member in error that keeps its reservation, then a suffix rolled back to ready. Each of the
      batch's own calls is accepted, finds the member as the batch left it, takes it to its fate
      and touches nothing else. */
  lemma MemberFate(ws: seq<World>, cs: seq<Call>, s: nat, ops: seq<Operation>, answers: seq<StopAnswer>,
                   at: seq<nat>, i: nat)
    requires IsBatch(ws, cs, s, ops, answers, at) && i < |at|
    ensures var m, b, b' := ops[i].modelId, ws[at[i]].book, ws[at[i] + 1].book;
            && m in ws[s + 1].book.runtime && m in b.runtime && b.runtime[m] == ws[s + 1].book.runtime[m]
            && WellFormed(cs[at[i]]) && Apply(b, cs[at[i]]).Ok?
            && b' == Set(b, m, Fate(ws[s + 1].book.runtime[m], i, StoppedPrefix(answers), TimeOf(cs[at[i]])))
  {
    hide Step;
    BegunIsPending(ws[s].book, cs[s], ops);
    StepOf(ws[s], cs[s], ws[s + 1]);
    StepOf(ws[at[i]], cs[at[i]], ws[at[i] + 1]);
    hide Begins, After, Next, Apply, Set, Current;
    MemberStillAwaits(ws, cs, s + 1, at[i], ops[i]);
    OwnCallActs(ws[at[i]].book, cs[at[i]], ops[i], i, StoppedPrefix(answers), TimeOf(cs[at[i]]));
    AwaitsIsRegistered(ws[s + 1].book, ops[i]);
    AwaitsIsRegistered(ws[at[i]].book, ops[i]);
  }

  /** Each of the batch's own calls leaves every other model, the policy, the epoch and the recovery
      flag as they are. */
  lemma BatchIsLocal(ws: seq<World>, cs: seq<Call>, s: nat, ops: seq<Operation>, answers: seq<StopAnswer>,
                     at: seq<nat>, i: nat, x: ModelId)
    requires IsBatch(ws, cs, s, ops, answers, at) && i < |at| && x in ws[at[i]].book.runtime && x != ops[i].modelId
    ensures var b, b' := ws[at[i]].book, ws[at[i] + 1].book;
            && b'.policy == b.policy && b'.epoch == b.epoch && b'.recovering == b.recovering
            && x in b'.runtime && b'.runtime[x] == b.runtime[x]
  {
    hide IsBatch, Apply, Fate;
    MemberFate(ws, cs, s, ops, answers, at, i);
  }

  lemma AwaitsIsRegistered(b: BookState, op: Operation)
    requires Awaits(b, op)
    ensures op.modelId in b.runtime
  {
  }

  function StoppedSet(ops: seq<Operation>, k: nat): (ms: set<ModelId>)
    requires k <= |ops|
  {
    set i | 0 <= i < k :: ops[i].modelId
  }

  ghost function ReservedBy(b: BookState, ms: set<ModelId>): (bytes: nat) {
    Sum(map m | m in Reservations(b) && m in ms :: Reservations(b)[m])
  }

  /** What the first `n` calls of the batch took off the model ledger together. */
  ghost function Returned(ws: seq<World>, at: seq<nat>, n: nat): (bytes: int)
    requires n <= |at| && forall i :: 0 <= i < |at| ==> at[i] + 1 < |ws|
  {
    if n == 0 then 0
    else Returned(ws, at, n - 1) + Committed(ws[at[n - 1]].book) - Committed(ws[at[n - 1] + 1].book)
  }

  function Least(a: nat, b: nat): (c: nat) {
    if a <= b then a else b
  }

  /** The batch's own calls lower the model ledger by exactly the reservations of the stopped prefix,
      as they stood when the batch began: nothing is lost for the failed member, nothing is gained
      for the rolled-back ones, whatever other calls do to the ledger in between. */
  lemma {:induction false} BatchConservesLedger(ws: seq<World>, cs: seq<Call>, s: nat, ops: seq<Operation>,
                                                answers: seq<StopAnswer>, at: seq<nat>, n: nat)
    requires IsBatch(ws, cs, s, ops, answers, at) && n <= |at|
    ensures Returned(ws, at, n) == ReservedBy(ws[s + 1].book, StoppedSet(ops, Least(n, StoppedPrefix(answers))))
    decreases n
  {
    hide Step, WorldInv, StoppedPrefix, Begins, Spares, Reservations, StoppedSet, ReservedBy, Committed, Set, Apply,
         IsOwnCall;
    if n == 0 {
      NoneReserved(ws[s + 1].book, ops);
    } else {
      var i, k := n - 1, StoppedPrefix(answers);
      BatchConservesLedger(ws, cs, s, ops, answers, at, i);
      MemberFate(ws, cs, s, ops, answers, at, i);
      OwnCallReturns(ws[at[i]].book, ops[i].modelId, i, k, TimeOf(cs[at[i]]));
      if n <= k {
        BatchIsDistinct(ws, cs, s, ops);
        PrefixGrows(ws[s + 1].book, ops, n);
      }
    }
  }

  lemma NoneReserved(b: BookState, ops: seq<Operation>)
    ensures ReservedBy(b, StoppedSet(ops, 0)) == 0
  {
    assert (map m | m in Reservations(b) && m in StoppedSet(ops, 0) :: Reservations(b)[m]) == map[];
  }

  lemma BatchIsDistinct(ws: seq<World>, cs: seq<Call>, s: nat, ops: seq<Operation>)
    requires s < |cs| && s < |ws| && Begins(ws[s].book, cs[s], ops)
    ensures forall i, j :: 0 <= i < j < |ops| ==> ops[i].modelId != ops[j].modelId
  {
    BegunIsPending(ws[s].book, cs[s], ops);
  }

  lemma OwnCallReturns(b: BookState, m: ModelId, i: nat, k: nat, now: Time)
    requires m in b.runtime
    ensures Committed(Set(b, m, Fate(b.runtime[m], i, k, now)))
         == Committed(b) - (if i < k then b.runtime[m].reservation else 0)
  {
    var b' := Set(b, m, Fate(b.runtime[m], i, k, now));
    assert Reservations(b') == Reservations(b)[m := b'.runtime[m].reservation];
    SumUpdate(Reservations(b), m, b'.runtime[m].reservation);
  }

  lemma PrefixGrows(b: BookState, ops: seq<Operation>, n: nat)
    requires 0 < n <= |ops| && ops[n - 1].modelId in b.runtime
    requires forall i, j :: 0 <= i < j < |ops| ==> ops[i].modelId != ops[j].modelId
    ensures ReservedBy(b, StoppedSet(ops, n))
         == ReservedBy(b, StoppedSet(ops, n - 1)) + b.runtime[ops[n - 1].modelId].reservation
  {
    var m := ops[n - 1].modelId;
    var w := map x | x in Reservations(b) && x in StoppedSet(ops, n) :: Reservations(b)[x];
    var v := map x | x in Reservations(b) && x in StoppedSet(ops, n - 1) :: Reservations(b)[x];
    assert m in StoppedSet(ops, n);
    SumSplit(w, m);
    assert StoppedSet(ops, n - 1) == StoppedSet(ops, n) - {m} by {
      forall x | x in StoppedSet(ops, n) - {m} ensures x in StoppedSet(ops, n - 1) {
        var i :| 0 <= i < n && ops[i].modelId == x;
        assert i < n - 1;
      }
    }
    assert w - {m} == v;
  }

  // ---- the task makes exactly those calls --------------------------------------------------

  /** Every call of a batch, its own and the ones others make while it waits, in order. */
  function BatchCalls(ops: seq<Operation>, answers: seq<StopAnswer>, times: seq<Time>,
                      others: seq<seq<Call>>): (cs: seq<Call>)
    requires |answers| == |ops| == |times| == |others|
    decreases |ops|
  {
    if ops == [] then []
    else if answers[0].ProvenStopped?
    then others[0] + [StopDone(ops[0], times[0])] + BatchCalls(ops[1..], answers[1..], times[1..], others[1..])
    else others[0] + [Fail(ops[0])] + Rollbacks(ops[1..])
  }

  function Rollbacks(ops: seq<Operation>): (cs: seq<Call>) {
    seq(|ops|, i requires 0 <= i < |ops| => Rollback(ops[i]))
  }

  /** In no wait does another task start a recovery or use one of the tokens. */
  predicate Quiet(others: seq<seq<Call>>, ops: seq<Operation>) {
    forall i, j :: 0 <= i < |others| && 0 <= j < |ops| ==> SparesAll(others[i], ops[j])
  }

  predicate SparesAll(cs: seq<Call>, op: Operation) {
    forall k :: 0 <= k < |cs| ==> Spares(cs[k], op)
  }

  lemma {:induction false} AfterAllIsRun(ws: seq<World>, cs: seq<Call>, p: nat, part: seq<Call>)
    requires IsRun(ws, cs) && p + |part| <= |cs| && cs[p..p + |part|] == part
    ensures forall c :: c in part ==> WellFormed(c)
    ensures AfterAll(ws[p].book, part) == ws[p + |part|].book
    decreases |part|
  {
    forall k | 0 <= k < |part| ensures WellFormed(part[k]) {
      assert part[k] == cs[p + k];
      StepOf(ws[p + k], cs[p + k], ws[p + k + 1]);
    }
    if part != [] {
      hide Step, After;
      assert cs[p..p + |part|][0] == cs[p];
      StepOf(ws[p], cs[p], ws[p + 1]);
      assert cs[p + 1..p + 1 + |part[1..]|] == part[1..];
      AfterAllIsRun(ws, cs, p + 1, part[1..]);
    }
  }

  /** The batch still waits for all its members after any quiet stretch of calls. */
  lemma StretchKeepsPending(ws: seq<World>, cs: seq<Call>, p: nat, q: nat, ops: seq<Operation>)
    requires IsRun(ws, cs) && WorldInv(ws[0]) && p <= q < |ws| && Pending(ws[p].book, ops)
    requires forall j :: 0 <= j < |ops| ==> SparesAll(cs[p..q], ops[j])
    ensures Pending(ws[q].book, ops)
  {
    hide Step, Awaits, Spares, WorldInv;
    forall j | 0 <= j < |ops| ensures Awaits(ws[q].book, ops[j]) {
      SparedThroughout(cs, p, q, ops[j]);
      MemberStillAwaits(ws, cs, p, q, ops[j]);
    }
  }

  lemma SparedThroughout(cs: seq<Call>, p: nat, q: nat, op: Operation)
    requires p <= q <= |cs| && SparesAll(cs[p..q], op)
    ensures forall k :: p <= k < q ==> Spares(cs[k], op)
  {
    hide Spares;
    forall k | p <= k < q ensures Spares(cs[k], op) { assert cs[p..q][k - p] == cs[k]; }
  }

  lemma OwnCallKeepsPending(b: BookState, c: Call, ops: seq<Operation>)
    requires ops != [] && Pending(b, ops) && (c.StopDone? || c.Fail? || c.Rollback?) && c.op == ops[0]
    ensures Apply(b, c).Ok? && Apply(b, c).value == After(b, c) && Pending(After(b, c), ops[1..])
  {
    assert Awaits(b, ops[0]);
    OwnCallActs(b, c, ops[0], if c.StopDone? then 0 else if c.Fail? then 1 else 2, 1, TimeOf(c));
    forall i | 0 <= i < |ops| - 1 ensures Awaits(After(b, c), ops[1..][i]) {
      assert Awaits(b, ops[i + 1]) && ops[0].modelId != ops[i + 1].modelId;
    }
  }

  lemma {:induction false} RollBackIsRun(ws: seq<World>, cs: seq<Call>, p: nat, ops: seq<Operation>)
    requires IsRun(ws, cs) && p + |ops| <= |cs| && Pending(ws[p].book, ops) && cs[p..p + |ops|] == Rollbacks(ops)
    ensures RollBackAll(ws[p].book, ops) == ws[p + |ops|].book
    decreases |ops|
  {
    if ops != [] {
      assert cs[p..p + |ops|][0] == cs[p];
      StepOf(ws[p], cs[p], ws[p + 1]);
      hide Step, After, Apply, Awaits;
      OwnCallKeepsPending(ws[p].book, cs[p], ops);
      assert cs[p + 1..p + 1 + |ops[1..]|] == Rollbacks(ops[1..]) by {
        assert Rollbacks(ops)[1..] == Rollbacks(ops[1..]);
      }
      RollBackIsRun(ws, cs, p + 1, ops[1..]);
    }
  }

  /** A batch of which the run holds exactly the calls, from position `p` on. */
  ghost predicate IsBatchAt(ws: seq<World>, cs: seq<Call>, p: nat, ops: seq<Operation>, answers: seq<StopAnswer>,
                            times: seq<Time>, others: seq<seq<Call>>) {
    && IsRun(ws, cs) && WorldInv(ws[0]) && |answers| == |ops| == |times| == |others| && AllWellFormed(others)
       && Quiet(others, ops)
    && var n := |BatchCalls(ops, answers, times, others)|;
       p + n <= |cs| && cs[p..p + n] == BatchCalls(ops, answers, times, others) && Pending(ws[p].book, ops)
  }

  /** What is left of the batch after a proven stop. */
  lemma RestIsBatch(ws: seq<World>, cs: seq<Call>, p: nat, ops: seq<Operation>, answers: seq<StopAnswer>,
                    times: seq<Time>, others: seq<seq<Call>>)
    requires IsBatchAt(ws, cs, p, ops, answers, times, others) && ops != [] && answers[0].ProvenStopped?
    ensures var b := AfterAll(ws[p].book, others[0]);
            Apply(b, StopDone(ops[0], times[0])).Ok?
                && Apply(b, StopDone(ops[0], times[0])).value == ws[p + |others[0]| + 1].book
    ensures IsBatchAt(ws, cs, p + |others[0]| + 1, ops[1..], answers[1..], times[1..], others[1..])
  {
    hide Step, Apply, After, Pending, Quiet, WorldInv, AfterAll;
    Segments(cs, p, others[0], StopDone(ops[0], times[0]), BatchCalls(ops[1..], answers[1..], times[1..], others[1..]));
    FirstOfBatch(ws, cs, p, ops, others, StopDone(ops[0], times[0]));
    QuietRest(others, ops);
  }

  lemma LastIsFailure(ws: seq<World>, cs: seq<Call>, p: nat, ops: seq<Operation>, answers: seq<StopAnswer>,
                      times: seq<Time>, others: seq<seq<Call>>)
    requires IsBatchAt(ws, cs, p, ops, answers, times, others) && ops != [] && !answers[0].ProvenStopped?
    ensures FinishBatch(ws[p].book, ops, answers, times, others)
         == ws[p + |BatchCalls(ops, answers, times, others)|].book
    ensures StoppedModels(ws[p].book, ops, answers, times, others) == [] && StoppedPrefix(answers) == 0
  {
    hide Step, Apply, After, Pending, Quiet, WorldInv, AfterAll, RollBackAll;
    Segments(cs, p, others[0], Fail(ops[0]), Rollbacks(ops[1..]));
    FirstOfBatch(ws, cs, p, ops, others, Fail(ops[0]));
    RollBackIsRun(ws, cs, p + |others[0]| + 1, ops[1..]);
  }

  /** In a quiet run the task's own loop makes exactly the calls of the batch, and the models it
      reports are exactly the stopped prefix. */
  lemma {:induction false} StoppedModelsArePrefix(ws: seq<World>, cs: seq<Call>, p: nat, ops: seq<Operation>,
                                                  answers: seq<StopAnswer>, times: seq<Time>,
                                                  others: seq<seq<Call>>)
    requires IsBatchAt(ws, cs, p, ops, answers, times, others)
    ensures FinishBatch(ws[p].book, ops, answers, times, others)
         == ws[p + |BatchCalls(ops, answers, times, others)|].book
    ensures var stopped := StoppedModels(ws[p].book, ops, answers, times, others);
            |stopped| == StoppedPrefix(answers) && forall i :: 0 <= i < |stopped| ==> stopped[i] == ops[i].modelId
    decreases |ops|
  {
    hide *;
    BatchLengths(ws, cs, p, ops, answers, times, others);
    if ops == [] {
      NoMember(ws[p].book, ops, answers, times, others);
    } else if answers[0].ProvenStopped? {
      RestIsBatch(ws, cs, p, ops, answers, times, others);
      BatchLengths(ws, cs, p + |others[0]| + 1, ops[1..], answers[1..], times[1..], others[1..]);
      OneStop(ws[p].book, ops, answers, times, others, ws[p + |others[0]| + 1].book);
      StoppedModelsArePrefix(ws, cs, p + |others[0]| + 1, ops[1..], answers[1..], times[1..], others[1..]);
    } else {
      LastIsFailure(ws, cs, p, ops, answers, times, others);
    }
  }

  lemma NoMember(b: BookState, ops: seq<Operation>, answers: seq<StopAnswer>, times: seq<Time>, others: seq<seq<Call>>)
    requires |answers| == |ops| == |times| == |others| == 0
    ensures FinishBatch(b, ops, answers, times, others) == b && StoppedModels(b, ops, answers, times, others) == []
    ensures |BatchCalls(ops, answers, times, others)| == StoppedPrefix(answers) == 0
  {
  }

  lemma OneStop(b: BookState, ops: seq<Operation>, answers: seq<StopAnswer>, times: seq<Time>,
                others: seq<seq<Call>>, b': BookState)
    requires |answers| == |ops| == |times| == |others| && AllWellFormed(others) && ops != []
    requires answers[0].ProvenStopped?
    requires Apply(AfterAll(b, others[0]), StopDone(ops[0], times[0])) == Ok(b')
    ensures FinishBatch(b, ops, answers, times, others)
         == FinishBatch(b', ops[1..], answers[1..], times[1..], others[1..])
    ensures StoppedModels(b, ops, answers, times, others)
         == [ops[0].modelId] + StoppedModels(b', ops[1..], answers[1..], times[1..], others[1..])
    ensures |BatchCalls(ops, answers, times, others)|
         == |others[0]| + 1 + |BatchCalls(ops[1..], answers[1..], times[1..], others[1..])|
    ensures StoppedPrefix(answers) == 1 + StoppedPrefix(answers[1..])
  {
    hide Apply, AfterAll;
  }

  lemma BatchLengths(ws: seq<World>, cs: seq<Call>, p: nat, ops: seq<Operation>, answers: seq<StopAnswer>,
                     times: seq<Time>, others: seq<seq<Call>>)
    requires IsBatchAt(ws, cs, p, ops, answers, times, others)
    ensures |answers| == |ops| == |times| == |others| && AllWellFormed(others)
    ensures p + |BatchCalls(ops, answers, times, others)| < |ws|
  {
    hide Step, WorldInv;
  }

  lemma Segments(cs: seq<Call>, p: nat, others: seq<Call>, own: Call, rest: seq<Call>)
    requires p + |others + [own] + rest| <= |cs| && cs[p..p + |others + [own] + rest|] == others + [own] + rest
    ensures var q := p + |others|; cs[p..q] == others && cs[q] == own && cs[q + 1..q + 1 + |rest|] == rest
  {
    var part := cs[p..p + |others + [own] + rest|];
    assert part[..|others|] == others && part[|others|] == own && part[|others| + 1..] == rest;
  }

  lemma QuietRest(others: seq<seq<Call>>, ops: seq<Operation>)
    requires others != [] && ops != [] && Quiet(others, ops)
    ensures Quiet(others[1..], ops[1..])
  {
    hide SparesAll;
  }

  /** The wait for the first member and the call that settles it. */
  lemma FirstOfBatch(ws: seq<World>, cs: seq<Call>, p: nat, ops: seq<Operation>, others: seq<seq<Call>>, own: Call)
    requires IsRun(ws, cs) && WorldInv(ws[0]) && ops != [] && |others| == |ops| && AllWellFormed(others)
    requires Quiet(others, ops)
    requires p + |others[0]| < |cs| && Pending(ws[p].book, ops) && cs[p..p + |others[0]|] == others[0]
    requires own == cs[p + |others[0]|] && (own.StopDone? || own.Fail?) && own.op == ops[0]
    ensures var b := AfterAll(ws[p].book, others[0]);
            Apply(b, own).Ok? && Apply(b, own).value == ws[p + |others[0]| + 1].book
    ensures Pending(ws[p + |others[0]| + 1].book, ops[1..])
  {
    hide Step, Apply, After, Awaits, Spares, WorldInv, AfterAll;
    var q := p + |others[0]|;
    AfterAllIsRun(ws, cs, p, others[0]);
    StretchKeepsPending(ws, cs, p, q, ops);
    StepOf(ws[q], cs[q], ws[q + 1]);
    OwnCallKeepsPending(ws[q].book, cs[q], ops);
  }

  // ---- a batch overtaken by a recovery ---------------------------------------------------------

  lemma EpochGrows(b: BookState, c: Call)
    requires WellFormed(c)
    ensures b.epoch <= After(b, c).epoch
  {
    hide CanLoad, Vet, OwnsLease, EvictableNow, CleanableNow, FreezableNow, Distinct, Registered, AnyLease;
  }

  lemma {:induction false} EpochGrowsOn(b: BookState, cs: seq<Call>)
    requires forall c :: c in cs ==> WellFormed(c)
    ensures b.epoch <= AfterAll(b, cs).epoch
    decreases |cs|
  {
    hide After;
    if cs != [] {
      EpochGrows(b, cs[0]);
      EpochGrowsOn(After(b, cs[0]), cs[1..]);
    }
  }

  lemma VoidToken(b: BookState, op: Operation, now: Time)
    requires op.modelId in b.runtime && op.epoch < b.epoch
    ensures Apply(b, StopDone(op, now)).StaleOperation? && Apply(b, Fail(op)).StaleOperation?
  {
  }

  /** What other tasks do until the batch is over: it waits for every answer up to the first stop that
      is not proven. */
  function Waited(answers: seq<StopAnswer>, others: seq<seq<Call>>): (cs: seq<Call>)
    requires |answers| == |others|
  {
    if answers == [] then []
    else others[0] + if answers[0].ProvenStopped? then Waited(answers[1..], others[1..]) else []
  }

  lemma {:induction false} AfterBoth(b: BookState, cs: seq<Call>, ds: seq<Call>)
    requires (forall c :: c in cs ==> WellFormed(c)) && (forall c :: c in ds ==> WellFormed(c))
    ensures forall c :: c in cs + ds ==> WellFormed(c)
    ensures AfterAll(b, cs + ds) == AfterAll(AfterAll(b, cs), ds)
    decreases |cs|
  {
    hide After;
    if cs == [] {
      assert cs + ds == ds;
    } else {
      assert (cs + ds)[0] == cs[0] && (cs + ds)[1..] == cs[1..] + ds;
      AfterBoth(After(b, cs[0]), cs[1..], ds);
    }
  }

  lemma {:induction false} KeysStay(b: BookState, cs: seq<Call>)
    requires forall c :: c in cs ==> WellFormed(c)
    ensures AfterAll(b, cs).runtime.Keys == b.runtime.Keys
    decreases |cs|
  {
    hide After;
    if cs != [] {
      KeysStayOnce(b, cs[0]);
      KeysStay(After(b, cs[0]), cs[1..]);
    }
  }

  lemma KeysStayOnce(b: BookState, c: Call)
    requires WellFormed(c)
    ensures After(b, c).runtime.Keys == b.runtime.Keys
  {
    hide CanLoad, Vet, OwnsLease, EvictableNow, CleanableNow, FreezableNow, Distinct, Registered, AnyLease;
  }

  /** A batch whose tokens a recovery has voided moves nothing and reports nothing, whatever the backend
      answers: the book ends where the other tasks' calls take it. */
  lemma {:induction false} VoidBatchMovesNothing(b: BookState, ops: seq<Operation>, answers: seq<StopAnswer>,
                                                 times: seq<Time>, others: seq<seq<Call>>)
    requires |answers| == |ops| == |times| == |others| && AllWellFormed(others)
    requires forall op :: op in ops ==> op.modelId in b.runtime && op.epoch < b.epoch
    ensures forall c :: c in Waited(answers, others) ==> WellFormed(c)
    ensures FinishBatch(b, ops, answers, times, others) == AfterAll(b, Waited(answers, others))
    ensures StoppedModels(b, ops, answers, times, others) == []
    decreases |ops|
  {
    if ops != [] {
      var b0 := AfterAll(b, others[0]);
      EpochGrowsOn(b, others[0]);
      KeysStay(b, others[0]);
      VoidToken(b0, ops[0], times[0]);
      hide Apply, AfterAll;
      if answers[0].ProvenStopped? {
        VoidBatchMovesNothing(b0, ops[1..], answers[1..], times[1..], others[1..]);
        AfterBoth(b, others[0], Waited(answers[1..], others[1..]));
      } else {
        assert others[0] + [] == others[0];
      }
    }
  }

  // ---- what a rollback undoes --------------------------------------------------------------------

  /** Rolling back an unsent member of a `begin_eviction` batch restores it field by field to what
      it was before the batch, except that a freeze on it is lifted. */
  lemma RollbackUndoesEviction(r: Runtime, uuid: Uuid)
    requires r.state.Ready? && r.operationId.None?
    ensures RolledBackRuntime(MarkedRuntime(r, uuid)) == r.(admissionBlocked := false)
  {
  }

  /** A batch of `begin_cleanup` can hold failed models too, and for those the rollback is no undoing: it
      restores the state a member had if and only if that was ready. */
  lemma RollbackRestoresIffReady(r: Runtime, uuid: Uuid)
    requires r.state.Ready? || r.state.Error?
    ensures RolledBackRuntime(MarkedRuntime(r, uuid)).state == r.state <==> r.state.Ready?
    ensures RolledBackRuntime(MarkedRuntime(r, uuid)).state.Ready?
    ensures !RolledBackRuntime(MarkedRuntime(r, uuid)).admissionBlocked
  {
  }

  // ---- finishing a load ------------------------------------------------------------------

  /** `_finish_load`: a result for a token that is no longer current moves nothing in the book,
      and a failed or unproven load never gives its reservation back. */
  method FinishLoad(book: BookObject.Book, op: Operation, answer: LoadAnswer, now: Time, hasRecovery: bool)
    returns (recover: bool)
    requires book.Valid()
    modifies book
    ensures book.Valid()
    ensures !Current(old(book.State()), op).Ok? ==> book.State() == old(book.State()) && !recover
    ensures Current(old(book.State()), op).Ok? ==>
              var r, r' := old(book.runtime)[op.modelId], book.runtime[op.modelId];
              var served := answer.Healthy? && r.state.Loading?;
              && (r'.state.Ready? <==> served)
              && (served ==> !r'.admissionBlocked && r'.idleSince == Some(now))
              && (!served ==> r'.state.Error? && r'.admissionBlocked && r'.idleSince == r.idleSince)
              && r'.operationId.None? && r'.reservation == r.reservation && r'.generation == r.generation
              && r'.leases == r.leases && r'.cancelling == r.cancelling && r'.stoppedAt == r.stoppedAt
              && book.State() == old(book.State()).(runtime := old(book.runtime)[op.modelId := r'])
              && (recover <==> !served && hasRecovery && !book.recovering)
  {
    recover := false;
    if answer.Healthy? {
      var reply := book.Loaded(op, now);
      if reply.Conflict? {
        var again := book.Failed(op);
        recover := again.Ok? && hasRecovery && !book.recovering;
      }
    } else {
      var reply := book.Failed(op);
      recover := reply.Ok? && hasRecovery && !book.recovering;
    }
  }
}
