/** The residency book as the object the scheduler updates in place. Every method is proved
    to perform exactly one call of the book machine in `BookRuns`, so all that is proved there
    about runs of calls is proved about runs of these methods. */
module BookObject {
  import opened Prelude
  import opened BookModel
  import BookRuns

  /** Whether an answer is the one the transition gives: the same error, or success. */
  ghost predicate Answers<T>(reply: Reply<T>, spec: Reply<BookState>) {
    match spec
    case Ok(_) => reply.Ok?
    case Conflict => reply.Conflict?
    case StaleOperation => reply.StaleOperation?
    case KeyError => reply.KeyError?
  }

  /** Python's `sum` over a table, taken in registration order. */
  method SumInOrder(order: seq<ModelId>, table: map<ModelId, nat>) returns (total: nat)
    requires Distinct(order)
    requires forall m :: m in table ==> m in order
    ensures total == Sum(table)
  {
    total := 0;
    ghost var seen: map<ModelId, nat> := map[];
    for i := 0 to |order|
      invariant forall m :: m in seen ==> m in table && seen[m] == table[m]
      invariant forall k :: 0 <= k < i && order[k] in table ==> order[k] in seen
      invariant forall k :: i <= k < |order| ==> order[k] !in seen
      invariant total == Sum(seen)
    {
      if order[i] in table {
        SumUpdate(seen, order[i], table[order[i]]);
        total := total + table[order[i]];
        seen := seen[order[i] := table[order[i]]];
      }
    }
    assert seen == table;
  }

  /** The first `i` members are marked, each with its own token, and nothing else has changed. */
  predicate MarkedUpTo(b: BookState, b': BookState, ms: seq<ModelId>, uuids: map<ModelId, Uuid>, ops: seq<Operation>,
                       i: nat) {
    && i <= |ms| && |ops| == i && (forall m :: m in ms ==> m in uuids && m in b.runtime)
    && b' == Marked(b, ms[..i], uuids)
    && (forall k :: 0 <= k < i ==> ops[k] == Operation(uuids[ms[k]], ms[k], b.runtime[ms[k]].generation, b.epoch))
  }

  lemma NoneMarked(b: BookState, ms: seq<ModelId>, uuids: map<ModelId, Uuid>)
    requires forall m :: m in ms ==> m in uuids && m in b.runtime
    ensures MarkedUpTo(b, b, ms, uuids, [], 0)
  {
    hide MarkedRuntime;
    assert b.runtime == Marked(b, ms[..0], uuids).runtime;
  }

  lemma MarkNext(b: BookState, b': BookState, ms: seq<ModelId>, uuids: map<ModelId, Uuid>, ops: seq<Operation>, i: nat)
    requires MarkedUpTo(b, b', ms, uuids, ops, i) && i < |ms| && Distinct(ms)
    ensures var m := ms[i];
            && m in b'.runtime && m in uuids
            && MarkedUpTo(b, b'.(runtime := b'.runtime[m := MarkedRuntime(b'.runtime[m], uuids[m])]), ms, uuids,
                          ops + [Operation(uuids[m], m, b'.runtime[m].generation, b'.epoch)], i + 1)
  {
    hide MarkedRuntime;
    var m := ms[i];
    assert m !in ms[..i] && ms[..i + 1] == ms[..i] + [m];
    assert b'.runtime[m] == b.runtime[m];
    assert b'.runtime[m := MarkedRuntime(b'.runtime[m], uuids[m])] == Marked(b, ms[..i + 1], uuids).runtime;
  }

  lemma AllMarked(b: BookState, b': BookState, ms: seq<ModelId>, uuids: map<ModelId, Uuid>, ops: seq<Operation>)
    requires MarkedUpTo(b, b', ms, uuids, ops, |ms|)
    ensures b' == Marked(b, ms, uuids) && b'.runtime.Keys == b.runtime.Keys && ops == TokensFor(b, ms, uuids)
  {
    hide MarkedRuntime;
    assert ms[..|ms|] == ms;
  }

  /** `now` is `was` with the first `i` members, all registered, thawed. */
  predicate ThawedUpTo(was: map<ModelId, Runtime>, now: map<ModelId, Runtime>, ms: seq<ModelId>, i: nat) {
    && i <= |ms| && (forall k :: 0 <= k < i ==> ms[k] in was)
    && now == map m | m in was :: if m in ms[..i] then Thawed(was[m]) else was[m]
  }

  lemma ThawedTwice(r: Runtime)
    ensures Thawed(Thawed(r)) == Thawed(r)
  {
  }

  lemma Untouched(was: map<ModelId, Runtime>, ms: seq<ModelId>)
    ensures ThawedUpTo(was, was, ms, 0)
  {
    hide Thawed;
  }

  lemma SameKeys(was: map<ModelId, Runtime>, now: map<ModelId, Runtime>, ms: seq<ModelId>, i: nat)
    requires ThawedUpTo(was, now, ms, i)
    ensures now.Keys == was.Keys && i <= |ms| && forall k :: 0 <= k < i ==> ms[k] in was
  {
    hide Thawed;
  }

  lemma ThawNext(was: map<ModelId, Runtime>, now: map<ModelId, Runtime>, ms: seq<ModelId>, i: nat)
    requires ThawedUpTo(was, now, ms, i) && i < |ms| && ms[i] in now
    ensures ThawedUpTo(was, now[ms[i] := Thawed(now[ms[i]])], ms, i + 1)
  {
    assert ms[..i + 1] == ms[..i] + [ms[i]];
    ThawedTwice(was[ms[i]]);
    hide Thawed;
  }

  lemma ThawedPointwise(b: BookState, b': BookState, ms: seq<ModelId>, n: nat)
    requires b' == b.(runtime := b'.runtime) && ThawedUpTo(b.runtime, b'.runtime, ms, n)
    requires n < |ms| ==> ms[n] !in b.runtime
    ensures b' == BookRuns.After(b, BookRuns.Unfreeze(ms))
  {
    hide Thawed;
    var known := Registered(b, ms);
    assert |known| == n;
    assert known == ms[..n];
  }

  datatype Released = Freed | NotHeld | UnknownModel | InvalidTokens

  class Book {
    const policy: Policy
    /** Registration order: the order in which the source iterates its tables. */
    const order: seq<ModelId>
    var runtime: map<ModelId, Runtime>
    var epoch: nat
    var recovering: bool

    ghost function State(): (b: BookState)
      reads this
    {
      BookState(policy, runtime, epoch, recovering)
    }

    ghost predicate Valid()
      reads this
    {
      && PolicyOk(policy)
      && Distinct(order)
      && (forall m :: m in order <==> m in policy.ledger)
      && runtime.Keys == policy.ledger.Keys
    }

    constructor (policy: Policy, order: seq<ModelId>)
      requires PolicyOk(policy) && Distinct(order) && (forall m :: m in order <==> m in policy.ledger)
      ensures Valid() && State() == Booted(policy) && Inv(State())
      ensures this.order == order
    {
      this.policy := policy;
      this.order := order;
      this.runtime := map m | m in policy.ledger ::
        Runtime(Unknown, 0, None, map[], map[], false, policy.ledger[m].reserved, None, None);
      this.epoch := 0;
      this.recovering := false;
      new;
      BootedInv(policy);
    }

    /** `committed`. */
    method CommittedBytes() returns (total: nat)
      requires Valid()
      ensures total == Committed(State())
    {
      var table := map m | m in runtime :: runtime[m].reservation;
      total := SumInOrder(order, table);
      assert table == Reservations(State());
    }

    /** The physical figures of every other model that is not proven stopped. */
    method OtherFigures(m: ModelId) returns (others: nat)
      requires Valid()
      ensures others == Sum(PhysicalTable(State()) - {m})
    {
      hide PhysicalFigure, PolicyOk, Sum;
      var table := map x | x in runtime && x != m && runtime[x].reservation > 0 :: PhysicalFigure(policy, x);
      others := SumInOrder(order, table);
      assert table == PhysicalTable(State()) - {m};
    }

    /** `physical_admissible`. */
    method PhysicalFits(m: ModelId) returns (ok: bool)
      requires Valid() && m in policy.ledger
      ensures ok <==> PhysicalAdmissible(State(), m)
    {
      if !PhysicalEnforced(policy) {
        return true;
      }
      if policy.ledger[m].physical.None? {
        return false;
      }
      var others := OtherFigures(m);
      return others + policy.ledger[m].physical.value <= policy.budget;
    }

    method CanLoadNow(m: ModelId, s: MemorySample, now: Time) returns (ok: bool)
      requires Valid() && m in policy.ledger
      ensures ok <==> CanLoad(State(), m, s, now)
    {
      var r := runtime[m];
      var committed := CommittedBytes();
      var physical := PhysicalFits(m);
      ok := !recovering && r.state.Unloaded? && r.leases == map[] && !r.admissionBlocked
            && SampleValid(policy, s, now) && SampleAfterStop(r, s)
            && s.available >= policy.freeFloor + policy.ledger[m].reserved
            && committed + policy.ledger[m].reserved <= policy.budget
            && physical;
    }

    method BootstrapStopped(m: ModelId) returns (reply: Reply<()>)
      requires Valid()
      modifies this
      ensures Valid()
      ensures Answers(reply, BookRuns.Apply(old(State()), BookRuns.Bootstrap(m)))
      ensures State() == BookRuns.After(old(State()), BookRuns.Bootstrap(m))
    {
      if m !in runtime {
        return KeyError;
      }
      var r := runtime[m];
      if !r.state.Unknown? || r.operationId.Some? || r.leases != map[] {
        return Conflict;
      }
      runtime := runtime[m := r.(state := Unloaded, reservation := 0)];
      return Ok(());
    }

    method BeginLoad(m: ModelId, s: MemorySample, now: Time, uuid: Uuid) returns (reply: Reply<Operation>)
      requires Valid()
      modifies this
      ensures Valid()
      ensures Answers(reply, BookRuns.Apply(old(State()), BookRuns.Load(m, s, now, uuid)))
      ensures State() == BookRuns.After(old(State()), BookRuns.Load(m, s, now, uuid))
      ensures reply.Ok? ==>
                Current(State(), reply.value).Ok? && reply.value.modelId == m && reply.value.operationId == uuid
    {
      if m !in runtime {
        return KeyError;
      }
      var admissible := CanLoadNow(m, s, now);
      hide CanLoad;
      if !admissible {
        return Conflict;
      }
      var r := runtime[m];
      runtime := runtime[m := r.(generation := r.generation + 1, state := Loading,
                                 reservation := policy.ledger[m].reserved, operationId := Some(uuid),
                                     idleSince := None)];
      return Ok(Operation(uuid, m, r.generation + 1, epoch));
    }

    /** `_operation`. */
    method CurrentRuntime(op: Operation) returns (reply: Reply<Runtime>)
      ensures reply == Current(State(), op)
    {
      if op.modelId !in runtime {
        return KeyError;
      }
      var r := runtime[op.modelId];
      if op.epoch != epoch || (r.generation, r.operationId) != (op.generation, Some(op.operationId)) {
        return StaleOperation;
      }
      return Ok(r);
    }

    method Loaded(op: Operation, now: Time) returns (reply: Reply<()>)
      requires Valid()
      modifies this
      ensures Valid()
      ensures Answers(reply, BookRuns.Apply(old(State()), BookRuns.LoadDone(op, now)))
      ensures State() == BookRuns.After(old(State()), BookRuns.LoadDone(op, now))
    {
      var current := CurrentRuntime(op);
      match current
      case KeyError => return KeyError;
      case StaleOperation => return StaleOperation;
      case Conflict => return Conflict;
      case Ok(r) =>
        if !r.state.Loading? {
          return Conflict;
        }
        runtime := runtime[op.modelId := r.(state := Ready, operationId := None, admissionBlocked := false,
                                            idleSince := Some(now))];
        return Ok(());
    }

    method Failed(op: Operation) returns (reply: Reply<()>)
      requires Valid()
      modifies this
      ensures Valid()
      ensures Answers(reply, BookRuns.Apply(old(State()), BookRuns.Fail(op)))
      ensures State() == BookRuns.After(old(State()), BookRuns.Fail(op))
    {
      var current := CurrentRuntime(op);
      match current
      case KeyError => return KeyError;
      case StaleOperation => return StaleOperation;
      case Conflict => return Conflict;
      case Ok(r) =>
        runtime := runtime[op.modelId := r.(state := Error, operationId := None, admissionBlocked := true)];
        return Ok(());
    }

    method RollbackUnsent(op: Operation) returns (reply: Reply<()>)
      requires Valid()
      modifies this
      ensures Valid()
      ensures Answers(reply, BookRuns.Apply(old(State()), BookRuns.Rollback(op)))
      ensures State() == BookRuns.After(old(State()), BookRuns.Rollback(op))
    {
      var current := CurrentRuntime(op);
      match current
      case KeyError => return KeyError;
      case StaleOperation => return StaleOperation;
      case Conflict => return Conflict;
      case Ok(r) =>
        if !r.state.Evicting? || r.leases != map[] {
          return Conflict;
        }
        runtime := runtime[op.modelId := r.(state := Ready, admissionBlocked := false, operationId := None)];
        return Ok(());
    }

    method Stopped(op: Operation, now: Time) returns (reply: Reply<()>)
      requires Valid()
      modifies this
      ensures Valid()
      ensures Answers(reply, BookRuns.Apply(old(State()), BookRuns.StopDone(op, now)))
      ensures State() == BookRuns.After(old(State()), BookRuns.StopDone(op, now))
    {
      var current := CurrentRuntime(op);
      match current
      case KeyError => return KeyError;
      case StaleOperation => return StaleOperation;
      case Conflict => return Conflict;
      case Ok(r) =>
        if !r.state.Evicting? || r.leases != map[] {
          return Conflict;
        }
        runtime := runtime[op.modelId := r.(state := Unloaded, operationId := None, reservation := 0,
                                            admissionBlocked := false, idleSince := None, stoppedAt := Some(now))];
        return Ok(());
    }

    /** The scan over all models and all their leases in `acquire_ready`. */
    method RequestOwnsLease(req: RequestId) returns (owns: bool)
      requires Valid()
      ensures owns <==> OwnsLease(State(), req)
    {
      for i := 0 to |order|
        invariant forall j :: 0 <= j < i ==>
          forall id :: id in runtime[order[j]].leases ==> runtime[order[j]].leases[id].requestId != req
      {
        var leases := runtime[order[i]].leases;
        if exists id | id in leases :: leases[id].requestId == req {
          return true;
        }
      }
      assert forall m :: m in runtime ==> m in order;
      return false;
    }

    method AcquireReady(m: ModelId, req: RequestId, uuid: Uuid) returns (reply: Reply<Lease>)
      requires Valid()
      modifies this
      ensures Valid()
      ensures Answers(reply, BookRuns.Apply(old(State()), BookRuns.Acquire(m, req, uuid)))
      ensures State() == BookRuns.After(old(State()), BookRuns.Acquire(m, req, uuid))
      ensures reply.Ok? ==> Held(State(), reply.value) && reply.value.requestId == req
    {
      if m !in runtime {
        return KeyError;
      }
      var r := runtime[m];
      if recovering || !r.state.Ready? || r.admissionBlocked || |r.leases| >= policy.ledger[m].maxConcurrency {
        return Conflict;
      }
      var owns := RequestOwnsLease(req);
      if owns {
        return Conflict;
      }
      var lease := Lease(uuid, req, m, r.generation);
      runtime := runtime[m := r.(leases := r.leases[uuid := lease], idleSince := None)];
      return Ok(lease);
    }

    /** A negative token count is refused only for a lease that is held, and then the lease stays. */
    method Release(lease: Lease, outcome: Outcome, now: Time, tokens: Option<int>) returns (reply: Released)
      requires Valid()
      modifies this
      ensures Valid()
      ensures reply.UnknownModel? <==> lease.modelId !in old(runtime)
      ensures reply.InvalidTokens? <==> old(Held(State(), lease)) && tokens.Some? && tokens.value < 0
      ensures reply.Freed? <==> old(Held(State(), lease)) && !reply.InvalidTokens?
      ensures State() == if reply.InvalidTokens? then old(State())
              else BookRuns.After(old(State()), BookRuns.Free(lease, outcome, now))
      ensures Held(State(), lease) <==> reply.InvalidTokens?
    {
      if lease.modelId !in runtime {
        return UnknownModel;
      }
      var r := runtime[lease.modelId];
      if lease.leaseId !in r.leases || r.leases[lease.leaseId] != lease || r.generation != lease.generation {
        return NotHeld;
      }
      if tokens.Some? && tokens.value < 0 {
        return InvalidTokens;
      }
      r := r.(leases := r.leases - {lease.leaseId}, cancelling := r.cancelling - {lease.leaseId});
      if outcome.Aborted? {
        r := r.(state := Error, admissionBlocked := true);
      }
      if r.leases == map[] {
        r := r.(idleSince := Some(now));
      }
      runtime := runtime[lease.modelId := r];
      return Freed;
    }

    method BeginCancel(lease: Lease) returns (reply: Reply<bool>)
      requires Valid()
      modifies this
      ensures Valid()
      ensures Answers(reply, BookRuns.Apply(old(State()), BookRuns.CancelLease(lease)))
      ensures State() == BookRuns.After(old(State()), BookRuns.CancelLease(lease))
      ensures reply.Ok? ==> (reply.value <==> Held(State(), lease))
    {
      if lease.modelId !in runtime {
        return KeyError;
      }
      var r := runtime[lease.modelId];
      if lease.leaseId !in r.leases || r.leases[lease.leaseId] != lease || r.generation != lease.generation {
        return Ok(false);
      }
      runtime := runtime[lease.modelId := r.(cancelling := r.cancelling[lease.leaseId := lease])];
      return Ok(true);
    }

    /** The first loop of every batch. */
    method VetBatch(ms: seq<ModelId>, good: set<ModelId>) returns (reply: Reply<()>)
      ensures reply == Vet(State(), ms, good)
    {
      for i := 0 to |ms|
        invariant Vet(State(), ms, good) == Vet(State(), ms[i..], good)
      {
        if ms[i] !in runtime {
          return KeyError;
        }
        if ms[i] !in good {
          return Conflict;
        }
        assert ms[i..][1..] == ms[i + 1..];
      }
      assert ms[|ms|..] == [];
      return Ok(());
    }

    /** The second loop of `begin_eviction` and `begin_cleanup`: mark and hand out tokens. */
    method MarkOne(m: ModelId, uuid: Uuid) returns (op: Operation)
      requires m in runtime
      modifies this`runtime
      ensures runtime == old(runtime)[m := MarkedRuntime(old(runtime)[m], uuid)]
      ensures op == Operation(uuid, m, old(runtime)[m].generation, epoch)
    {
      var r := runtime[m];
      runtime := runtime[m := r.(state := Evicting, admissionBlocked := true, operationId := Some(uuid))];
      op := Operation(uuid, m, r.generation, epoch);
    }

    method MarkBatch(ms: seq<ModelId>, uuids: map<ModelId, Uuid>) returns (ops: seq<Operation>)
      requires Valid() && Distinct(ms)
      requires forall m :: m in ms ==> m in uuids && m in runtime
      modifies this`runtime
      ensures Valid()
      ensures State() == Marked(old(State()), ms, uuids)
      ensures ops == TokensFor(old(State()), ms, uuids)
    {
      hide MarkedRuntime, Marked, TokensFor, PolicyOk, MarkedUpTo;
      ops := [];
      NoneMarked(old(State()), ms, uuids);
      for i := 0 to |ms|
        invariant MarkedUpTo(old(State()), State(), ms, uuids, ops, i)
      {
        MarkNext(old(State()), State(), ms, uuids, ops, i);
        var op := MarkOne(ms[i], uuids[ms[i]]);
        ops := ops + [op];
      }
      AllMarked(old(State()), State(), ms, uuids, ops);
    }

    method BeginEviction(ms: seq<ModelId>, automatic: bool, uuids: map<ModelId, Uuid>)
      returns (reply: Reply<seq<Operation>>)
      requires Valid() && forall m :: m in ms ==> m in uuids
      modifies this`runtime
      ensures Valid()
      ensures Answers(reply, BookRuns.Apply(old(State()), BookRuns.Evict(ms, automatic, uuids)))
      ensures State() == BookRuns.After(old(State()), BookRuns.Evict(ms, automatic, uuids))
      ensures reply.Ok? ==>
                (forall m :: m in ms ==> m in old(runtime)) && reply.value == TokensFor(old(State()), ms, uuids)
    {
      if recovering || ms == [] || !Distinct(ms) {
        return Conflict;
      }
      var good := set m | m in runtime && m in policy.ledger
                          && runtime[m].state.Ready? && runtime[m].leases == map[] && runtime[m].operationId.None?
                          && !policy.ledger[m].pinned && (automatic ==> policy.ledger[m].evictable);
      assert good == EvictableNow(State(), automatic);
      var vetted := VetBatch(ms, good);
      VetMeaning(State(), ms, good);
      match vetted
      case KeyError => return KeyError;
      case StaleOperation => return StaleOperation;
      case Conflict => return Conflict;
      case Ok(_) =>
        var ops := MarkBatch(ms, uuids);
        return Ok(ops);
    }

    method BeginCleanup(ms: seq<ModelId>, uuids: map<ModelId, Uuid>) returns (reply: Reply<seq<Operation>>)
      requires Valid() && forall m :: m in ms ==> m in uuids
      modifies this`runtime
      ensures Valid()
      ensures Answers(reply, BookRuns.Apply(old(State()), BookRuns.Cleanup(ms, uuids)))
      ensures State() == BookRuns.After(old(State()), BookRuns.Cleanup(ms, uuids))
      ensures reply.Ok? ==>
                (forall m :: m in ms ==> m in old(runtime)) && reply.value == TokensFor(old(State()), ms, uuids)
    {
      if recovering || ms == [] || !Distinct(ms) {
        return Conflict;
      }
      var good := set m | m in runtime && (runtime[m].state.Ready? || runtime[m].state.Error?)
                          && runtime[m].leases == map[] && runtime[m].operationId.None?;
      assert good == CleanableNow(State());
      var vetted := VetBatch(ms, good);
      VetMeaning(State(), ms, good);
      match vetted
      case KeyError => return KeyError;
      case StaleOperation => return StaleOperation;
      case Conflict => return Conflict;
      case Ok(_) =>
        var ops := MarkBatch(ms, uuids);
        return Ok(ops);
    }

    method FreezeForSwitch(ms: seq<ModelId>) returns (reply: Reply<()>)
      requires Valid()
      modifies this`runtime
      ensures Valid()
      ensures Answers(reply, BookRuns.Apply(old(State()), BookRuns.Freeze(ms)))
      ensures State() == BookRuns.After(old(State()), BookRuns.Freeze(ms))
    {
      if recovering || ms == [] || !Distinct(ms) {
        return Conflict;
      }
      var good := set m | m in runtime && m in policy.ledger
                          && runtime[m].state.Ready? && !runtime[m].admissionBlocked && runtime[m].operationId.None?
                          && !policy.ledger[m].pinned && policy.ledger[m].evictable;
      assert good == FreezableNow(State());
      var vetted := VetBatch(ms, good);
      VetMeaning(State(), ms, good);
      match vetted
      case KeyError => return KeyError;
      case StaleOperation => return StaleOperation;
      case Conflict => return Conflict;
      case Ok(_) =>
        BlockAdmission(ms);
        return Ok(());
    }

    /** The second loop of `freeze_for_switch`. */
    method BlockAdmission(ms: seq<ModelId>)
      requires forall m :: m in ms ==> m in runtime
      modifies this`runtime
      ensures runtime == map m | m in old(runtime) ::
        if m in ms then old(runtime)[m].(admissionBlocked := true) else old(runtime)[m]
    {
      for i := 0 to |ms|
        invariant runtime.Keys == old(runtime).Keys
        invariant forall m :: m in runtime && m !in ms ==> runtime[m] == old(runtime)[m]
        invariant forall k :: 0 <= k < |ms| ==>
          runtime[ms[k]] == old(runtime)[ms[k]] || runtime[ms[k]] == old(runtime)[ms[k]].(admissionBlocked := true)
        invariant forall k :: 0 <= k < i ==> runtime[ms[k]].admissionBlocked
      {
        runtime := runtime[ms[i] := runtime[ms[i]].(admissionBlocked := true)];
      }
    }

    method ThawOne(m: ModelId)
      requires m in runtime
      modifies this`runtime
      ensures runtime == old(runtime)[m := Thawed(old(runtime)[m])]
    {
      if runtime[m].state.Ready? && runtime[m].operationId.None? {
        runtime := runtime[m := runtime[m].(admissionBlocked := false)];
      }
      assert runtime.Keys == old(runtime).Keys;
      assert runtime == old(runtime)[m := Thawed(old(runtime)[m])];
    }

    /** Raises at the first unregistered member, with the members before it already thawed. */
    method UnfreezeSwitch(ms: seq<ModelId>) returns (reply: Reply<()>)
      requires Valid()
      modifies this`runtime
      ensures Valid()
      ensures reply == if forall m :: m in ms ==> m in old(runtime) then Ok(()) else KeyError
      ensures State() == BookRuns.After(old(State()), BookRuns.Unfreeze(ms))
    {
      hide Thawed, BookRuns.After, ThawedUpTo;
      assert ThawedUpTo(runtime, runtime, ms, 0) by { Untouched(runtime, ms); }
      for i := 0 to |ms|
        invariant ThawedUpTo(old(runtime), runtime, ms, i)
      {
        SameKeys(old(runtime), runtime, ms, i);
        if ms[i] !in runtime {
          ThawedPointwise(old(State()), State(), ms, i);
          return KeyError;
        }
        ThawNext(old(runtime), runtime, ms, i);
        ThawOne(ms[i]);
      }
      SameKeys(old(runtime), runtime, ms, |ms|);
      ThawedPointwise(old(State()), State(), ms, |ms|);
      reply := Ok(());
    }

    method BeginRecovery() returns (current: nat)
      requires Valid()
      modifies this
      ensures Valid()
      ensures State() == BookRuns.After(old(State()), BookRuns.StartRecovery)
      ensures current == epoch && recovering
    {
      if recovering {
        return epoch;
      }
      epoch := epoch + 1;
      recovering := true;
      FenceAll();
      return epoch;
    }

    /** The loop of `begin_recovery`. */
    method FenceOne(m: ModelId)
      requires m in runtime
      modifies this`runtime
      ensures runtime == old(runtime)[m := Fenced(old(runtime)[m])]
    {
      var r := runtime[m].(operationId := None, admissionBlocked := true);
      if !r.state.Unloaded? {
        r := r.(state := Error);
      }
      runtime := runtime[m := r];
    }

    method FenceAll()
      requires Valid()
      modifies this`runtime
      ensures runtime == map m | m in old(runtime) :: Fenced(old(runtime)[m])
    {
      hide Fenced;
      for i := 0 to |order|
        invariant runtime.Keys == old(runtime).Keys
        invariant forall k :: 0 <= k < i ==> runtime[order[k]] == Fenced(old(runtime)[order[k]])
        invariant forall k :: i <= k < |order| ==> runtime[order[k]] == old(runtime)[order[k]]
      {
        FenceOne(order[i]);
      }
      assert forall m :: m in runtime ==> m in order && runtime[m] == Fenced(old(runtime)[m]);
    }

    /** The loop of `finish_recovery`. */
    method ClearOne(m: ModelId)
      requires m in runtime
      modifies this`runtime
      ensures runtime == old(runtime)[m := Cleared(old(runtime)[m])]
    {
      runtime := runtime[m := runtime[m].(state := Unloaded, reservation := 0, operationId := None,
                                          admissionBlocked := false, idleSince := None)];
    }

    method ClearAll()
      requires Valid()
      modifies this`runtime
      ensures runtime == map m | m in old(runtime) :: Cleared(old(runtime)[m])
    {
      hide Cleared;
      for i := 0 to |order|
        invariant runtime.Keys == old(runtime).Keys
        invariant forall k :: 0 <= k < i ==> runtime[order[k]] == Cleared(old(runtime)[order[k]])
        invariant forall k :: i <= k < |order| ==> runtime[order[k]] == old(runtime)[order[k]]
      {
        ClearOne(order[i]);
      }
      assert forall m :: m in runtime ==> m in order && runtime[m] == Cleared(old(runtime)[m]);
    }

    method FinishRecovery(token: nat, confirmed: set<ModelId>) returns (reply: Reply<()>)
      requires Valid()
      modifies this
      ensures Valid()
      ensures Answers(reply, BookRuns.Apply(old(State()), BookRuns.EndRecovery(token, confirmed)))
      ensures State() == BookRuns.After(old(State()), BookRuns.EndRecovery(token, confirmed))
    {
      if !recovering || token != epoch {
        return StaleOperation;
      }
      if confirmed != policy.ledger.Keys || exists m | m in runtime :: runtime[m].leases != map[] {
        return Conflict;
      }
      ClearAll();
      recovering := false;
      return Ok(());
    }
  }
}
