/** Startup reconciliation (model_scheduler/runtime.py and control_recovery.py): what has to be
    proven before the book is cleared. Docker's answers and the clock are the arguments. */
module Startup {
  import opened Prelude
  import opened BookModel
  import BookRuns
  import opened BookObject

  datatype ContainerId = ContainerId(n: nat)
  datatype Deployment = Deployment(n: nat)

  datatype Inspection =
    | Gone
    | Unavailable
    | Fact(container: ContainerId, owner: Option<Deployment>, running: bool)

  /** What docker says about one listed container: before the stop, to the stop, and after it;
      `inTime` is whether the deadline had not passed when its turn came. */
  datatype Probe = Probe(inTime: bool, before: Inspection, stopExitsZero: bool, after: Inspection)

  datatype Failure =
    | RecoveryTimeout
    | ListingFailed
    | DockerUnavailable
    | ForeignInstance
    | StopFailed
    | StopNotVerified
    | UnprovenStop

  predicate NotRunning(i: Inspection) {
    i.Gone? || (i.Fact? && !i.running)
  }

  /** The inspected container is the listed one and carries this deployment's label. */
  predicate IsOwn(deployment: Deployment, id: ContainerId, i: Inspection) {
    i.Fact? && i.container == id && i.owner == Some(deployment)
  }

  /** The listed container is proven stopped. */
  predicate Proven(deployment: Deployment, id: ContainerId, p: Probe) {
    && p.inTime
    && (|| p.before.Gone?
        || (IsOwn(deployment, id, p.before) && (!p.before.running || (p.stopExitsZero && NotRunning(p.after)))))
  }

  /** A stop may be sent: an inspected, running container of this deployment. */
  predicate MayStop(deployment: Deployment, id: ContainerId, p: Probe) {
    p.inTime && IsOwn(deployment, id, p.before) && p.before.running
  }

  /** Why a listed container is not proven stopped: the first thing that went wrong with it. */
  function FailureOf(deployment: Deployment, id: ContainerId, p: Probe): (failure: Failure)
    requires !Proven(deployment, id, p)
  {
    if !p.inTime then RecoveryTimeout
    else if p.before.Unavailable? then DockerUnavailable
    else if p.before.container != id || p.before.owner != Some(deployment) then ForeignInstance
    else if !p.stopExitsZero then StopFailed
    else StopNotVerified
  }

  /** `_verified_stop`. */
  method VerifiedStop(deployment: Deployment, id: ContainerId, p: Probe) returns (failure: Option<Failure>, sent: bool)
    requires p.inTime
    ensures failure.None? <==> Proven(deployment, id, p)
    ensures failure.Some? ==> failure.value == FailureOf(deployment, id, p)
    ensures sent <==> MayStop(deployment, id, p)
  {
    failure, sent := None, false;
    if p.before.Gone? { return; }
    if p.before.Unavailable? { return Some(DockerUnavailable), false; }
    if p.before.container != id || p.before.owner != Some(deployment) { return Some(ForeignInstance), false; }
    if !p.before.running { return; }
    sent := true;
    if !p.stopExitsZero { return Some(StopFailed), true; }
    if p.after.Gone? || (p.after.Fact? && !p.after.running) { return; }
    failure := Some(StopNotVerified);
  }

  /** The listed containers that pass a test, in listing order. */
  function Keep(ids: seq<ContainerId>, flags: seq<bool>): (kept: seq<ContainerId>)
    requires |ids| == |flags|
  {
    if ids == [] then []
    else
      var n := |ids| - 1;
      Keep(ids[..n], flags[..n]) + if flags[n] then [ids[n]] else []
  }

  ghost function ProvenFlags(deployment: Deployment, ids: seq<ContainerId>, probes: seq<Probe>): (flags: seq<bool>)
    requires |ids| == |probes|
  {
    seq(|ids|, i requires 0 <= i < |ids| => Proven(deployment, ids[i], probes[i]))
  }

  ghost function StopFlags(deployment: Deployment, ids: seq<ContainerId>, probes: seq<Probe>): (flags: seq<bool>)
    requires |ids| == |probes|
  {
    seq(|ids|, i requires 0 <= i < |ids| => MayStop(deployment, ids[i], probes[i]))
  }

  ghost function Negated(flags: seq<bool>): (no: seq<bool>) {
    seq(|flags|, i requires 0 <= i < |flags| => !flags[i])
  }

  lemma {:induction false} NothingKept(ids: seq<ContainerId>, flags: seq<bool>)
    requires |ids| == |flags|
    ensures Keep(ids, flags) == [] <==> forall i :: 0 <= i < |flags| ==> !flags[i]
  {
    if ids != [] {
      NothingKept(ids[..|ids| - 1], flags[..|ids| - 1]);
      assert forall i :: 0 <= i < |flags| - 1 ==> flags[..|ids| - 1][i] == flags[i];
    }
  }

  lemma {:induction false} KeptPassed(ids: seq<ContainerId>, flags: seq<bool>, c: ContainerId)
    requires |ids| == |flags| && c in Keep(ids, flags)
    ensures exists i :: 0 <= i < |ids| && ids[i] == c && flags[i]
  {
    var n := |ids| - 1;
    if c in Keep(ids[..n], flags[..n]) {
      KeptPassed(ids[..n], flags[..n], c);
      var i :| 0 <= i < n && ids[..n][i] == c && flags[..n][i];
      assert ids[i] == c && flags[i];
    } else {
      assert ids[n] == c && flags[n];
    }
  }

  /** A stop is only ever sent to a listed container whose inspection, in time, showed it running
      under its own id with this deployment's label. */
  lemma StopsOnlyItsOwn(deployment: Deployment, ids: seq<ContainerId>, probes: seq<Probe>, c: ContainerId)
    requires |ids| == |probes| && c in Keep(ids, StopFlags(deployment, ids, probes))
    ensures exists i :: 0 <= i < |ids| && ids[i] == c && MayStop(deployment, c, probes[i])
  {
    KeptPassed(ids, StopFlags(deployment, ids, probes), c);
    var i :| 0 <= i < |ids| && ids[i] == c && StopFlags(deployment, ids, probes)[i];
    assert MayStop(deployment, c, probes[i]);
  }

  /** The reported failure is that of the first container that is not proven stopped. */
  ghost predicate FirstFailure(deployment: Deployment, ids: seq<ContainerId>, probes: seq<Probe>,
                               error: Option<Failure>)
    requires |ids| == |probes|
  {
    match error
    case None => forall i :: 0 <= i < |ids| ==> Proven(deployment, ids[i], probes[i])
    case Some(failure) =>
      exists i :: && 0 <= i < |ids| && !Proven(deployment, ids[i], probes[i])
                  && failure == FailureOf(deployment, ids[i], probes[i])
                  && forall j :: 0 <= j < i ==> Proven(deployment, ids[j], probes[j])
  }

  lemma NextFailure(deployment: Deployment, ids: seq<ContainerId>, probes: seq<Probe>, i: nat, error: Option<Failure>,
                    error': Option<Failure>)
    requires |ids| == |probes| && i < |ids| && FirstFailure(deployment, ids[..i], probes[..i], error)
    requires error' == if error.Some? || Proven(deployment, ids[i], probes[i]) then error
                       else Some(FailureOf(deployment, ids[i], probes[i]))
    ensures FirstFailure(deployment, ids[..i + 1], probes[..i + 1], error')
  {
    hide Proven, FailureOf;
    assert forall k :: 0 <= k < i ==> ids[..i][k] == ids[..i + 1][k] && probes[..i][k] == probes[..i + 1][k];
    if error.Some? {
      var k :| && 0 <= k < i && !Proven(deployment, ids[..i][k], probes[..i][k])
               && error.value == FailureOf(deployment, ids[..i][k], probes[..i][k])
               && forall j :: 0 <= j < k ==> Proven(deployment, ids[..i][j], probes[..i][j]);
      assert !Proven(deployment, ids[..i + 1][k], probes[..i + 1][k]);
    } else if error'.Some? {
      assert !Proven(deployment, ids[..i + 1][i], probes[..i + 1][i]);
    }
  }

  /** `DeploymentRecovery.reconcile`, after admission was closed: every listed container is visited
      in order, a stop goes out exactly to the inspected running containers of this deployment, and
      the outcome is good exactly when every listed container is proven stopped. */
  method Reconcile(deployment: Deployment, inTime: bool, listing: Option<seq<ContainerId>>, probes: seq<Probe>)
    returns (ok: bool, error: Option<Failure>, stopped: seq<ContainerId>, remaining: seq<ContainerId>,
             sent: seq<ContainerId>)
    requires listing.Some? ==> |probes| == |listing.value|
    ensures ok <==>
              inTime && listing.Some? && forall i :: 0 <= i < |probes| ==>
                    Proven(deployment, listing.value[i], probes[i])
    ensures ok <==> error.None?
    ensures !inTime ==> error == Some(RecoveryTimeout)
    ensures inTime && listing.None? ==> error == Some(ListingFailed)
    ensures inTime && listing.Some? ==> FirstFailure(deployment, listing.value, probes, error)
    ensures inTime && listing.Some? ==>
              && stopped == Keep(listing.value, ProvenFlags(deployment, listing.value, probes))
              && remaining == Keep(listing.value, Negated(ProvenFlags(deployment, listing.value, probes)))
              && sent == Keep(listing.value, StopFlags(deployment, listing.value, probes))
    ensures !(inTime && listing.Some?) ==> sent == []
  {
    ok, error, stopped, remaining, sent := false, None, [], [], [];
    if !inTime { return false, Some(RecoveryTimeout), [], [], []; }
    if listing.None? { return false, Some(ListingFailed), [], [], []; }
    var ids := listing.value;
    ghost var good := ProvenFlags(deployment, ids, probes);
    ghost var stops := StopFlags(deployment, ids, probes);
    var i := 0;
    while i < |ids|
      invariant 0 <= i <= |ids|
      invariant stopped == Keep(ids[..i], good[..i])
      invariant remaining == Keep(ids[..i], Negated(good)[..i])
      invariant sent == Keep(ids[..i], stops[..i])
      invariant error.None? <==> remaining == []
      invariant FirstFailure(deployment, ids[..i], probes[..i], error)
    {
      assert ids[..i + 1][..i] == ids[..i] && good[..i + 1][..i] == good[..i];
      assert Negated(good)[..i + 1][..i] == Negated(good)[..i] && stops[..i + 1][..i] == stops[..i];
      ghost var before := error;
      if !probes[i].inTime {
        remaining := remaining + [ids[i]];
        error := if error.None? then Some(RecoveryTimeout) else error;
      } else {
        var failure, stop := VerifiedStop(deployment, ids[i], probes[i]);
        if stop { sent := sent + [ids[i]]; }
        if failure.None? {
          stopped := stopped + [ids[i]];
        } else {
          remaining := remaining + [ids[i]];
          error := if error.None? then failure else error;
        }
      }
      NextFailure(deployment, ids, probes, i, before, error);
      i := i + 1;
    }
    assert ids[..i] == ids && probes[..i] == probes && stops[..i] == stops;
    assert good[..i] == good && Negated(good)[..i] == Negated(good);
    ok := remaining == [];
    NothingKept(ids, Negated(good));
    assert forall j :: 0 <= j < |ids| ==> Negated(good)[j] == !Proven(deployment, ids[j], probes[j]);
    if ok {
      forall j | 0 <= j < |probes| ensures Proven(deployment, listing.value[j], probes[j]) { assert !Negated(good)[j]; }
    }
  }

  // ---- observing the models ---------------------------------------------------------------------

  /** The observation loop: a model is confirmed only if it is registered and was seen stopped. */
  method ObserveAll(registered: set<ModelId>, observers: seq<ModelId>, seenStopped: map<ModelId, bool>)
    returns (confirmed: set<ModelId>, unproven: set<ModelId>)
    requires forall m :: m in observers ==> m in seenStopped
    ensures forall m :: m in confirmed <==> m in observers && m in registered && seenStopped[m]
    ensures forall m :: m in unproven <==>
              (m in registered && m !in observers) || (m in observers && !(m in registered && seenStopped[m]))
  {
    confirmed := {};
    unproven := set m | m in registered && m !in observers;
    var i := 0;
    while i < |observers|
      invariant 0 <= i <= |observers|
      invariant forall m :: m in confirmed <==> m in observers[..i] && m in registered && seenStopped[m]
      invariant forall m :: m in unproven <==>
                  (m in registered && m !in observers) || (m in observers[..i] && !(m in registered && seenStopped[m]))
    {
      var m := observers[i];
      assert observers[..i + 1] == observers[..i] + [m];
      if m !in registered || !seenStopped[m] {
        unproven := unproven + {m};
      } else {
        confirmed := confirmed + {m};
      }
      i := i + 1;
    }
    assert observers[..i] == observers;
  }

  /** Everything startup has to prove. */
  ghost predicate AllStopped(deployment: Deployment, registered: set<ModelId>, inTime: bool,
                             listing: Option<seq<ContainerId>>,
                             probes: seq<Probe>, observers: seq<ModelId>, seenStopped: map<ModelId, bool>)
    requires listing.Some? ==> |probes| == |listing.value|
    requires forall m :: m in observers ==> m in seenStopped
  {
    && inTime && listing.Some?
    && (forall i :: 0 <= i < |probes| ==> Proven(deployment, listing.value[i], probes[i]))
    && (forall m :: m in registered ==> m in observers)
    && (forall m :: m in observers ==> m in registered && seenStopped[m])
  }

  datatype Reconciliation = Reconciled | NotReady(failure: Failure) | LeasesHeld

  /** `reconcile_startup` is fail-closed. It ends with every model unloaded and nothing reserved if
      and only if every registered model was observed stopped, every listed container was proven
      stopped and no lease was held; otherwise the book is left recovering with every reservation
      as it was. */
  method ReconcileStartup(book: Book, deployment: Deployment, inTime: bool, listing: Option<seq<ContainerId>>,
                          probes: seq<Probe>, observers: seq<ModelId>, seenStopped: map<ModelId, bool>)
    returns (result: Reconciliation, sent: seq<ContainerId>)
    requires book.Valid()
    requires listing.Some? ==> |probes| == |listing.value|
    requires forall m :: m in observers ==> m in seenStopped
    modifies book
    ensures book.Valid() && book.State().policy == old(book.State()).policy
    ensures result.Reconciled? <==>
              AllStopped(deployment, book.policy.ledger.Keys, inTime, listing, probes, observers, seenStopped)
                  && !AnyLease(old(book.State()))
    ensures result.LeasesHeld? <==>
              AllStopped(deployment, book.policy.ledger.Keys, inTime, listing, probes, observers, seenStopped)
                  && AnyLease(old(book.State()))
    ensures result.NotReady? && inTime && listing.Some? && result.failure != UnprovenStop ==>
              FirstFailure(deployment, listing.value, probes, Some(result.failure))
    ensures result.Reconciled? ==>
              && !book.recovering
              && forall m :: m in book.runtime ==> book.runtime[m].state.Unloaded? && book.runtime[m].reservation == 0
    ensures result.Reconciled? ==> Committed(book.State()) == 0 && PhysicalCommitted(book.State()) == 0
    ensures !result.Reconciled? ==> book.recovering && book.State() == BeginRecovery(old(book.State()))
    ensures !result.Reconciled? ==> Reservations(book.State()) == Reservations(old(book.State()))
    ensures sent == if inTime && listing.Some? then Keep(listing.value, StopFlags(deployment, listing.value, probes))
            else []
  {
    hide BookRuns.After, BookRuns.Apply, Reservations, AnyLease, BeginRecovery, Committed, PhysicalCommitted, Keep,
         StopFlags, Proven, FirstFailure;
    ghost var b0 := book.State();
    StartingIsFencing(b0);
    var epoch := book.BeginRecovery();
    ghost var b1 := book.State();
    StartingIsFencing(b1);
    FencedKeeps(b0);
    var again := book.BeginRecovery();
    assert book.State() == b1;
    var ok, error, stopped, remaining, commands := Reconcile(deployment, inTime, listing, probes);
    sent := commands;
    var confirmed, unproven := ObserveAll(book.policy.ledger.Keys, observers, seenStopped);
    ConfirmedAll(book.policy.ledger.Keys, observers, seenStopped, confirmed, unproven);
    if !ok {
      return NotReady(error.value), sent;
    }
    if unproven != {} {
      return NotReady(UnprovenStop), sent;
    }
    FinishingClears(b1, confirmed);
    var reply := book.FinishRecovery(epoch, confirmed);
    result := if reply.Ok? then Reconciled else LeasesHeld;
    if reply.Ok? { NothingReserved(book.State()); }
  }

  lemma ConfirmedAll(registered: set<ModelId>, observers: seq<ModelId>, seenStopped: map<ModelId, bool>,
                     confirmed: set<ModelId>, unproven: set<ModelId>)
    requires forall m :: m in observers ==> m in seenStopped
    requires forall m :: m in confirmed <==> m in observers && m in registered && seenStopped[m]
    requires forall m :: m in unproven <==>
               (m in registered && m !in observers) || (m in observers && !(m in registered && seenStopped[m]))
    ensures unproven == {} <==>
              (forall m :: m in registered ==> m in observers)
                  && (forall m :: m in observers ==> m in registered && seenStopped[m])
    ensures unproven == {} ==> confirmed == registered
  {
  }

  lemma StartingIsFencing(b: BookState)
    ensures BookRuns.After(b, BookRuns.StartRecovery) == BeginRecovery(b)
    ensures BeginRecovery(b).recovering && BeginRecovery(b).policy == b.policy
  {
  }

  /** Recovery ends exactly when every registered model is confirmed and no lease is held. */
  lemma FinishingClears(b: BookState, confirmed: set<ModelId>)
    requires b.recovering
    ensures var c := BookRuns.EndRecovery(b.epoch, confirmed);
            && (BookRuns.Apply(b, c).Ok? <==> confirmed == b.policy.ledger.Keys && !AnyLease(b))
            && BookRuns.After(b, c).policy == b.policy
            && (!BookRuns.Apply(b, c).Ok? ==> BookRuns.After(b, c) == b)
            && (BookRuns.Apply(b, c).Ok? ==>
                  && !BookRuns.After(b, c).recovering
                  && forall m :: m in BookRuns.After(b, c).runtime ==>
                       BookRuns.After(b, c).runtime[m].state.Unloaded?
                           && BookRuns.After(b, c).runtime[m].reservation == 0)
  {
  }

  lemma NothingReserved(b: BookState)
    requires forall m :: m in b.runtime ==> b.runtime[m].reservation == 0
    ensures Committed(b) == 0 && PhysicalCommitted(b) == 0
  {
    BookRuns.ZeroSum(Reservations(b));
    assert PhysicalTable(b) == map[];
  }

  /** Closing admission moves no reservation and no lease. */
  lemma FencedKeeps(b: BookState)
    ensures BeginRecovery(BeginRecovery(b)) == BeginRecovery(b)
    ensures Reservations(BeginRecovery(b)) == Reservations(b)
    ensures AnyLease(BeginRecovery(b)) <==> AnyLease(b)
  {
    var b' := BeginRecovery(b);
    assert forall m :: m in b.runtime ==>
             b'.runtime[m].leases == b.runtime[m].leases && b'.runtime[m].reservation == b.runtime[m].reservation;
    if AnyLease(b) {
      var m :| m in b.runtime && b.runtime[m].leases != map[];
      assert b'.runtime[m].leases != map[];
    }
  }
}
