/** Where the execution service's exactly-one effects depend on something outside it, and exactly
    when they hold. */
module ExecutionFindings {
  import opened Prelude
  import opened BookModel
  import opened Protocol
  import opened ExecutionModel
  import opened ExecutionRecords
  import opened BookRuns
  import opened ExecutionRuns

  // ---- a lease that nobody owns -----------------------------------------------------------------

  /** A lease granted while the execution waited for its slot is recorded, and so released by the
      teardown, if and only if the execution is not settled yet. */
  lemma GrantIsRecordedIffUnsettled(managed: bool, r: Record, lease: Lease)
    requires RecordOk(r) && r.task.Admitting?
    ensures OnDispatch(managed, r, Admitted(lease)).lease == Some(lease) <==> !r.settled
    ensures r.settled ==> OnDispatch(managed, r, Admitted(lease)) == r.(task := Over)
  {
  }

  /** The failing input: an execution cancelled while its task waits for admission. */
  function Waiting(id: ExecutionId, m: ModelId): (r: Record) {
    Submitted(id, m, BootId(0), 1, Uuid(0)).(claimed := true, task := Admitting)
  }

  lemma CancelledWaiting(managed: bool, id: ExecutionId, m: ModelId, lease: Lease)
    ensures var r := OnClient(Waiting(id, m), Cancel);
            && r.settled && r.task.Admitting? && r.lease.None? && May(r, Admitted(lease))
            && Block(managed, r, Admitted(lease)) == Leaked(id, m)
  {
  }

  function Leaked(x: ExecutionId, m: ModelId): (r: Record) {
    OnClient(Waiting(x, m), Cancel).(task := Over)
  }

  function With(s: Service, x: ExecutionId, r: Record): (s': Service) {
    s.(records := s.records[x := r])
  }

  lemma OnMoves(s: Service, x: ExecutionId, r: Record, e: Event, r': Record)
    requires May(r, e) && Block(s.managed, r, e) == r' && !e.FreeForStop? && !e.StopProved?
    requires e.Claim? ==> r.modelId !in s.quiescing
    ensures Moves(With(s, x, r), On(x, e), With(s, x, r'))
  {
    hide Block, May;
    assert With(s, x, r).records[x := r'] == With(s, x, r').records;
  }

  /** In any service state with an open ready model a cancel during the wait for admission loses the
      lease that is then granted: seven allowed moves later the execution is settled, its task is
      over, the book holds the lease and the record does not. */
  lemma CancelledWhileWaitingLeaks(s: Service, x: ExecutionId, m: ModelId, uuid: Uuid)
    returns (ss: seq<Service>, ms: seq<Move>, lease: Lease)
    requires x !in s.records && m !in s.quiescing && m in s.world.book.runtime
    requires FreshCall(s.world, Acquire(m, RequestId(x.n), uuid))
    requires Apply(s.world.book, Acquire(m, RequestId(x.n), uuid)).Ok?
    ensures IsServiceRun(ss, ms) && |ms| == 7 && ss[0] == s
    ensures lease == Granted(s.world.book, m, RequestId(x.n), uuid) && Held(ss[7].world.book, lease)
    ensures x in ss[7].records && ss[7].records[x].settled && ss[7].records[x].task.Over?
    ensures ss[7].records[x].lease.None?
  {
    hide *;
    var c := Acquire(m, RequestId(x.n), uuid);
    lease := Granted(s.world.book, m, RequestId(x.n), uuid);
    GrantHolds(s.world, c, m, x, uuid);
    WaitingByBlocks(s.managed, x, m);
    CancelledWaiting(s.managed, x, m, lease);
    var w := s.(world := Next(s.world, c));
    SubmitMoves(s, x, m);
    CallMoves(s, x, c, OnClient(Waiting(x, m), Cancel));
    OnMoves(s, x, Fresher(x, m), Claim, Claimed(x, m));
    OnMoves(s, x, Claimed(x, m), GuardPasses(1), Guarded(x, m));
    OnMoves(s, x, Guarded(x, m), InputOpens, Waiting(x, m));
    OnMoves(s, x, Waiting(x, m), Cancel, OnClient(Waiting(x, m), Cancel));
    OnMoves(w, x, OnClient(Waiting(x, m), Cancel), Admitted(lease), Leaked(x, m));
    ss := [s, With(s, x, Fresher(x, m)), With(s, x, Claimed(x, m)), With(s, x, Guarded(x, m)),
           With(s, x, Waiting(x, m)), With(s, x, OnClient(Waiting(x, m), Cancel)),
           With(w, x, OnClient(Waiting(x, m), Cancel)), With(w, x, Leaked(x, m))];
    ms := [Submit(x, m, BootId(0), 1, Uuid(0)), On(x, Claim), On(x, GuardPasses(1)), On(x, InputOpens), On(x, Cancel),
           ExecutionRuns.BookCall(c), On(x, Admitted(lease))];
    SevenMoves(ss, ms);
    WithHolds(w, x, Leaked(x, m));
    LeakedIsOver(x, m);
  }

  lemma SevenMoves(ss: seq<Service>, ms: seq<Move>)
    requires |ss| == 8 && |ms| == 7
    requires Moves(ss[0], ms[0], ss[1]) && Moves(ss[1], ms[1], ss[2]) && Moves(ss[2], ms[2], ss[3])
    requires Moves(ss[3], ms[3], ss[4])
    requires Moves(ss[4], ms[4], ss[5]) && Moves(ss[5], ms[5], ss[6]) && Moves(ss[6], ms[6], ss[7])
    ensures IsServiceRun(ss, ms)
  {
    hide Moves;
  }

  function Fresher(x: ExecutionId, m: ModelId): (r: Record) {
    Submitted(x, m, BootId(0), 1, Uuid(0))
  }

  function Claimed(x: ExecutionId, m: ModelId): (r: Record) {
    Fresher(x, m).(claimed := true, task := Guarding)
  }

  function Guarded(x: ExecutionId, m: ModelId): (r: Record) {
    Claimed(x, m).(task := Opening)
  }

  lemma SubmitMoves(s: Service, x: ExecutionId, m: ModelId)
    requires x !in s.records
    ensures Moves(s, Submit(x, m, BootId(0), 1, Uuid(0)), With(s, x, Fresher(x, m)))
  {
  }

  lemma CallMoves(s: Service, x: ExecutionId, c: Call, r: Record)
    requires FreshCall(s.world, c)
    ensures Moves(With(s, x, r), ExecutionRuns.BookCall(c), With(s.(world := Next(s.world, c)), x, r))
  {
    hide Next, FreshCall;
  }

  lemma WithHolds(s: Service, x: ExecutionId, r: Record)
    ensures With(s, x, r).world == s.world && x in With(s, x, r).records && With(s, x, r).records[x] == r
  {
  }

  lemma LeakedIsOver(x: ExecutionId, m: ModelId)
    ensures Leaked(x, m).settled && Leaked(x, m).task.Over? && Leaked(x, m).lease.None?
  {
  }

  lemma GrantHolds(w: World, c: Call, m: ModelId, x: ExecutionId, uuid: Uuid)
    requires c == Acquire(m, RequestId(x.n), uuid) && m in w.book.runtime && FreshCall(w, c) && Apply(w.book, c).Ok?
    ensures WellFormed(c) && Held(Next(w, c).book, Granted(w.book, m, RequestId(x.n), uuid))
  {
    hide Issues;
  }

  lemma WaitingByBlocks(managed: bool, x: ExecutionId, m: ModelId)
    ensures Fresher(x, m).modelId == m && May(Fresher(x, m), Claim)
    ensures Block(managed, Fresher(x, m), Claim) == Claimed(x, m)
    ensures May(Claimed(x, m), GuardPasses(1)) && Block(managed, Claimed(x, m), GuardPasses(1)) == Guarded(x, m)
    ensures May(Guarded(x, m), InputOpens) && Block(managed, Guarded(x, m), InputOpens) == Waiting(x, m)
    ensures May(Waiting(x, m), Cancel) && Block(managed, Waiting(x, m), Cancel) == OnClient(Waiting(x, m), Cancel)
  {
  }

  /** From then on, in every run of the service, the book holds that lease, so the model is never
      unloaded and no recovery can be finished, until somebody outside the service releases exactly it; the
      service itself never does. */
  lemma {:induction false} LeakedLeaseStays(ss: seq<Service>, ms: seq<Move>, i: nat, j: nat, x: ExecutionId,
                                            lease: Lease)
    requires IsServiceRun(ss, ms) && Fresh(ss[0]) && i <= j < |ss| && Held(ss[i].world.book, lease)
    requires x in ss[i].records && ss[i].records[x].task.Over? && ss[i].records[x].lease.None?
    requires forall k :: i <= k < j ==> !(ms[k].BookCall? && ms[k].c.Free? && ms[k].c.lease == lease)
    ensures Held(ss[j].world.book, lease) && lease.modelId in ss[j].world.book.runtime
    ensures !ss[j].world.book.runtime[lease.modelId].state.Unloaded?
    ensures forall epoch, confirmed :: !Apply(ss[j].world.book, EndRecovery(epoch, confirmed)).Ok?
    ensures x in ss[j].records && ss[j].records[x].lease.None? && ss[j].records[x].releases == 0
  {
    hide Moves, Fresh, Held, WorldInv;
    UnrecordedStaysUnrecorded(ss, ms, i, j, x);
    HeldLeaseStays(ss, ms, i, j, lease);
    RunKeepsBook(ss, ms, j);
    LeasedIsLoaded(ss[j].world, lease);
  }

  lemma {:induction false} HeldLeaseStays(ss: seq<Service>, ms: seq<Move>, i: nat, j: nat, lease: Lease)
    requires IsServiceRun(ss, ms) && Fresh(ss[0]) && i <= j < |ss| && Held(ss[i].world.book, lease)
    requires forall k :: i <= k < j ==> !(ms[k].BookCall? && ms[k].c.Free? && ms[k].c.lease == lease)
    ensures Held(ss[j].world.book, lease)
    decreases j
  {
    hide Do, Allowed, Fresh, Held, WorldInv;
    if i < j {
      HeldLeaseStays(ss, ms, i, j - 1, lease);
      RunKeepsBook(ss, ms, j - 1);
      assert Moves(ss[j - 1], ms[j - 1], ss[j]);
      MoveKeepsLease(ss[j - 1], ms[j - 1], lease);
    }
  }

  lemma LeasedIsLoaded(w: World, lease: Lease)
    requires WorldInv(w) && Held(w.book, lease)
    ensures lease.modelId in w.book.runtime && !w.book.runtime[lease.modelId].state.Unloaded?
    ensures forall epoch, confirmed :: !Apply(w.book, EndRecovery(epoch, confirmed)).Ok?
  {
    assert w.book.runtime[lease.modelId].leases != map[];
    assert AnyLease(w.book);
    var b, m := w.book, lease.modelId;
    assert RuntimeInv(b.policy.ledger[m], m, b.runtime[m], b.recovering);
  }

  lemma MoveKeepsLease(s: Service, mv: Move, lease: Lease)
    requires Allowed(s, mv) && WorldInv(s.world) && Held(s.world.book, lease)
    requires !(mv.BookCall? && mv.c.Free? && mv.c.lease == lease)
    ensures Held(Do(s, mv).world.book, lease)
  {
    hide WorldInv, Next, Apply, Block, May, Held, After;
    match mv
    case BookCall(c) =>
      HeldUntilReleased(s.world, c, lease);
      NextBook(s.world, c);
    case BeginStop(m, uuid) =>
      HeldUntilReleased(s.world, StopCall(m, uuid), lease);
      NextBook(s.world, StopCall(m, uuid));
    case StopProven(m, now) =>
      HeldUntilReleased(s.world, StopDone(s.quiescers[m].op, now), lease);
      NextBook(s.world, StopDone(s.quiescers[m].op, now));
    case _ =>
  }

  /** A dispatched execution whose evidence and output have arrived, about to be published. */
  function Ready(id: ExecutionId, m: ModelId, instance: Instance, body: Output): (r: Record) {
    var f := Fence(BootId(0), m, 1, Uuid(0), Some(id), Some(1));
    var r0 := Submitted(id, m, BootId(0), 1, Uuid(0));
    r0.(claimed := true, lease := Some(Lease(Uuid(1), RequestId(id.n), m, 1)), reserved := true, started := true,
        state := Running, task := Executing, dispatched := true, instance := Some(instance),
        evidence := Some(Evidence(f, Some(instance), Reported)), output := Some(body), publishing := true)
  }

  lemma ReadyIsReached(managed: bool, id: ExecutionId, m: ModelId, instance: Instance, body: Output)
    ensures var f := Fence(BootId(0), m, 1, Uuid(0), Some(id), Some(1));
            var r0 := Submitted(id, m, BootId(0), 1, Uuid(0));
            var r1 := OnDispatch(managed, r0, Claim);
            var r2 := OnDispatch(managed, r1, GuardPasses(1));
            var r3 := OnDispatch(managed, r2, InputOpens);
            var r4 := OnDispatch(managed, r3, Admitted(Lease(Uuid(1), RequestId(id.n), m, 1)));
            var r5 := OnDispatch(managed, r4, Reserves);
            var r6 := OnClient(r5, ReportTerminal(Evidence(f, Some(instance), Reported)));
            OnClient(r6, ReportOutput(body)) == Ready(id, m, instance, body)
  {
  }

  /** With no publisher cancelled inside `write_output` it is called at most once; cancelling one
      publisher, and then the execution, makes a second call. */
  lemma CancelledPublisherWritesTwice(managed: bool, id: ExecutionId, m: ModelId, instance: Instance, body: Output)
    ensures var r := Ready(id, m, instance, body);
            var r1 := OnEffect(r, PublishStarts);
            var r2 := OnEffect(r1, PublisherKilled);
            var r3 := OnClient(r2, Cancel);
            && May(r, PublishStarts) && May(r1, PublisherKilled) && May(r3, PublishStarts)
            && r3.settled && OnEffect(r3, PublishStarts).writes == 2 && r3.kills == 1
  {
  }

  // ---- a cancel cut short ----------------------------------------------------------------------

  /** The failing input: with a publisher inside `write_output`, a cancel whose caller is cancelled
      before the evaluation leaves evidence and cancel unsettled, and the publisher then reports a
      success that carries the cancel and its reason. */
  lemma CutCancelSucceeds(id: ExecutionId, m: ModelId, instance: Instance, body: Output, ref: BlobRef, code: Code)
    ensures var r := Ready(id, m, instance, body);
            var r1 := OnEffect(r, PublishStarts);
            var r2 := OnClient(r1, CutCancel(code));
            var r3 := OnEffect(r2, PublishEnds(PublishedAs(ref)));
            && RecordOk(r) && May(r, PublishStarts) && May(r1, CutCancel(code))
               && May(r2, PublishEnds(PublishedAs(ref)))
            && !EvidenceSettles(r2)
            && r3.state.Succeeded? && r3.cancelPending && r3.reason.Some?
  {
  }

  /** Exactly when a cut matters: it keeps "evidence plus a cancel means settled" if and only if no
      evidence had arrived. */
  lemma CutKeepsIffNoEvidence(r: Record, code: Code)
    requires RecordOk(r) && May(r, CutCancel(code))
    ensures EvidenceSettles(OnClient(r, CutCancel(code))) <==> r.evidence.None?
  {
  }

  // ---- an exception before the dispatch --------------------------------------------------------

  /** Claimed, never dispatched, its task gone, and nothing to settle it by. */
  predicate Raised(r: Record) {
    r.task.Over? && r.claimed && !r.started && !r.settled && r.evidence.None? && !r.publishing
        && r.publisher.NoPublisher?
  }

  /** An unexpected exception in the guard, the input lease, the admission or the output reservation
      leaves the execution unsettled, with the lease it may have, if and only if it was unsettled and
      no terminal had been reported for it. */
  lemma RaiseStrandsIffNoEvidence(managed: bool, r: Record)
    requires RecordOk(r) && May(r, TaskRaises)
    ensures var r' := OnDispatch(managed, r, TaskRaises);
            && (Raised(r') <==> !r.settled && r.evidence.None?)
            && r'.lease == r.lease && r'.leaseReleased == r.leaseReleased
  {
  }

  /** What still settles it: a cancel, the end of its session, or a terminal report. */
  predicate Rescues(e: Event) {
    e.Cancel? || e.Drain? || e.ReportTerminal?
  }

  lemma RaisedBlock(managed: bool, r: Record, e: Event)
    requires Raised(r) && May(r, e) && !Rescues(e)
    ensures Raised(Block(managed, r, e)) && Block(managed, r, e).lease == r.lease
    ensures Block(managed, r, e).leaseReleased == r.leaseReleased
  {
    assert e.ReportOutput?;
  }

  /** Nothing else does: in every run the execution stays as it is, and a lease it holds stays held,
      until one of those reaches it; no dispatcher claims it again and it never expires in the queue. */
  lemma {:induction false} RaisedStays(ss: seq<Service>, ms: seq<Move>, i: nat, j: nat, x: ExecutionId)
    requires IsServiceRun(ss, ms) && i <= j < |ss| && x in ss[i].records && Raised(ss[i].records[x])
    requires forall k :: i <= k < j && ms[k].On? && ms[k].x == x ==> !Rescues(ms[k].e)
    ensures x in ss[j].records && Raised(ss[j].records[x]) && ss[j].records[x].lease == ss[i].records[x].lease
    ensures ss[j].records[x].leaseReleased == ss[i].records[x].leaseReleased
    decreases j
  {
    hide Do, Allowed, Raised;
    if i < j {
      RaisedStays(ss, ms, i, j - 1, x);
      assert Moves(ss[j - 1], ms[j - 1], ss[j]);
      MoveKeepsRaised(ss[j - 1], ms[j - 1], x);
    }
  }

  lemma MoveKeepsRaised(s: Service, mv: Move, x: ExecutionId)
    requires Allowed(s, mv) && x in s.records && Raised(s.records[x])
    requires mv.On? && mv.x == x ==> !Rescues(mv.e)
    ensures x in Do(s, mv).records && Raised(Do(s, mv).records[x]) && Do(s, mv).records[x].lease == s.records[x].lease
    ensures Do(s, mv).records[x].leaseReleased == s.records[x].leaseReleased
  {
    match mv
    case On(y, e) =>
      if x == y { RaisedBlock(s.managed, s.records[x], e); }
      hide Raised, Block, May;
    case FreeLease(_, y) =>
      assert y != x;
      hide Raised, Block, May;
    case SettleOne(_, y) =>
      assert y != x;
      hide Raised, Block, May;
    case _ =>
      hide Raised, Block, May, Next, Apply, FreshCall;
  }
}
