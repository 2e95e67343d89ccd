/** What every block keeps of one execution's record. */
module ExecutionRecords {
  import opened Prelude
  import opened BookModel
  import opened Protocol
  import opened ExecutionModel

  /** The fields a client can read. */
  datatype View = View(
    state: ExecState, dispatched: bool, result: Option<BlobRef>, error: Option<Code>, instance: Option<Instance>,
        fence: Fence)

  function ViewOf(r: Record): (v: View) {
    View(r.state, r.dispatched, r.result, r.error, r.instance, r.fence)
  }

  /** The cross-field rules of `parse_execution_view`. */
  predicate ViewValid(id: ExecutionId, v: View) {
    && v.fence.execution == Some(id) && v.fence.attempt.Some?
    && (v.dispatched <==> v.instance.Some?)
    && (v.state.Succeeded? ==> v.result.Some? && v.error.None?)
    && (v.state.FailedState? || v.state.CancelledState? ==> v.error.Some? && v.result.None?)
    && (!IsTerminal(v.state) ==> v.result.None? && v.error.None?)
  }

  predicate SettlementBase(r: Record) {
    && (r.settled <==> IsTerminal(r.state))
    && (r.settled ==> r.evidence.Some?)
    && (r.cutShort ==> r.evidence.Some? && r.cancelPending && r.reason.Some?)
    && (r.state.Succeeded? && (r.cancelPending || r.reason.Some?) ==> r.cutShort)
    && (r.publishing && !r.settled ==> r.evidence.Some? && r.reserved && (r.output.Some? || r.cutShort))
  }

  /** Evidence plus a cancel or a reason means settled. */
  predicate EvidenceSettles(r: Record) {
    r.evidence.Some? && (r.cancelPending || r.reason.Some?) ==> r.settled
  }

  /** The key invariant at every release of the lock: that holds, unless a cancel was cut short after
      the evidence had arrived. */
  predicate SettlesUnlessCut(r: Record) {
    EvidenceSettles(r) || r.cutShort
  }

  predicate TaskOk(r: Record) {
    && (r.task.Guarding? || r.task.Opening? || r.task.Admitting? || r.task.Reserving? ==>
          r.claimed && !r.started && (r.settled || r.state.Queued?))
    && (r.task.NoTask? ==> !r.started && !r.claimed && (r.settled || r.state.Queued?))
    && (r.lease.Some? ==> r.task.Reserving? || r.task.Executing? || r.task.Over?)
    && (r.task.Executing? ==> r.started)
    && (r.reserved <==> r.started)
    && (r.claimed <==> !r.task.NoTask?)
    && (r.awaiting ==> r.started && r.task.Over?)
  }

  predicate EffectsOk(r: Record) {
    && r.releases == (if r.leaseReleased then 1 else 0)
    && (r.leaseReleased ==> r.lease.Some?)
    && r.kills <= r.writes <= r.kills + 1
    && (r.publishing && !r.publisher.Writing? ==> r.writes == r.kills)
    && (r.publisher.Writing? ==> r.writes == r.kills + 1)
    && (!r.publisher.NoPublisher? ==> r.publishing)
    && (!r.publishing && !r.settled ==> r.writes == 0)
  }

  /** What holds in the middle of a block too, before `_evaluate`. */
  predicate RecordBase(r: Record) {
    SettlementBase(r) && TaskOk(r) && EffectsOk(r) && ViewValid(r.id, ViewOf(r))
  }

  predicate RecordOk(r: Record) {
    RecordBase(r) && SettlesUnlessCut(r)
  }

  /** Settlement is final, the state only moves forward, and a cancel, a reason, a dispatch and an
      ended response are never taken back. */
  predicate Forward(r: Record, r': Record) {
    && r'.id == r.id && r'.modelId == r.modelId
    && (r.settled ==> r'.settled && ViewOf(r') == ViewOf(r))
    && Rank(r.state) <= Rank(r'.state)
    && (r.cancelPending ==> r'.cancelPending)
    && (r.reason.Some? ==> r'.reason == r.reason)
    && (r.awaiting ==> r'.awaiting)
    && (r.started ==> r'.started)
  }

  // ---- block by block --------------------------------------------------------------------------

  lemma SettleKeeps(r: Record, state: ExecState, code: Code)
    requires RecordBase(r) && !r.settled && r.evidence.Some? && (state.FailedState? || state.CancelledState?)
    ensures RecordOk(Settle(r, state, Some(code))) && Forward(r, Settle(r, state, Some(code)))
  {
  }

  lemma EvaluateKeeps(r: Record)
    requires RecordBase(r)
    ensures RecordOk(Evaluate(r)) && Forward(r, Evaluate(r))
  {
    var v := Judge(r);
    if v.Waits? {
      assert Evaluate(r) == r && Forward(r, r) && SettlesUnlessCut(r);
    } else if v.Settles? {
      assert Evaluate(r) == Settle(r, v.state, Some(v.code));
      assert !r.settled && r.evidence.Some? && (v.state.FailedState? || v.state.CancelledState?);
      hide RecordBase, RecordOk, Settle, Forward, Judge, Evaluate;
      SettleKeeps(r, v.state, v.code);
    } else {
      assert Evaluate(r) == r.(publishing := true);
      assert r.evidence.Some? && r.reserved && r.output.Some? && !r.settled && !r.cancelPending && r.reason.None?;
      hide Judge, Evaluate;
    }
  }

  lemma TerminateKeeps(r: Record, code: Code)
    requires RecordBase(r) && !r.settled
    ensures RecordOk(TerminateLocal(r, code)) && Forward(r, TerminateLocal(r, code))
  {
  }

  lemma CancelKeeps(r: Record, code: Code)
    requires RecordOk(r) && r.started && !r.settled
    ensures RecordOk(CancelWith(r, code)) && Forward(r, CancelWith(r, code))
  {
    var r1 := ToCancelling(MarkReason(r.(cancelPending := true), code));
    assert RecordBase(r1) && Forward(r, r1);
    hide Evaluate, RecordBase, RecordOk;
    EvaluateKeeps(r1);
  }

  lemma CutKeeps(r: Record, code: Code)
    requires RecordOk(r) && r.started && !r.settled
    ensures RecordOk(DoCutCancel(r, code)) && Forward(r, DoCutCancel(r, code))
  {
    var r' := DoCutCancel(r, code);
    assert !IsTerminal(r.state)
           && r' == r.(cancelPending := true, cutShort := r'.cutShort, reason := r'.reason, state := Cancelling);
  }

  lemma OutputKeeps(r: Record, body: Output)
    requires RecordOk(r)
    ensures RecordOk(DoReportOutput(r, body)) && Forward(r, DoReportOutput(r, body))
  {
    var r1 := r.(output := Some(body));
    assert RecordBase(r1) && Forward(r, r1);
    assert r.cancelPending && !r.settled ==> RecordOk(r.(output := None));
    hide Evaluate, RecordBase, RecordOk;
    EvaluateKeeps(r1);
  }

  lemma TerminalKeeps(r: Record, e: Evidence)
    requires RecordOk(r)
    ensures RecordOk(DoReportTerminal(r, e)) && Forward(r, DoReportTerminal(r, e))
  {
    if r.evidence.None? && !(e.instance.None? && r.dispatched) {
      var r2 := WithTerminal(r, e);
      assert RecordBase(r2) && Forward(r, r2);
      hide Evaluate, RecordBase, RecordOk;
      EvaluateKeeps(r2);
    }
  }

  lemma ReasonKeeps(r: Record, code: Code)
    requires RecordBase(r) && !r.settled && r.task.Over?
    ensures var r1 := ToCancelling(MarkReason(r, code));
            RecordBase(r1) && Forward(r, r1) && r1.task == r.task && r1.started == r.started && !r1.settled
  {
    var r1 := ToCancelling(MarkReason(r, code));
    assert !IsTerminal(r.state) && r1 == r.(reason := r1.reason, state := Cancelling);
    assert SettlementBase(r1);
    assert TaskOk(r1);
    assert EffectsOk(r1);
  }

  lemma AwaitKeeps(r: Record, waits: bool, identity: Option<Instance>)
    requires RecordBase(r) && r.task.Over? && (waits ==> r.started)
    ensures RecordBase(Awaiting(r, waits, identity)) && Forward(r, Awaiting(r, waits, identity))
  {
  }

  lemma UncertainKeeps(r: Record, managed: bool, identity: Option<Instance>)
    requires RecordOk(r) && r.task.Over?
    ensures RecordOk(Uncertain(r, managed, identity)) && Forward(r, Uncertain(r, managed, identity))
  {
    if !r.settled {
      var r1 := ToCancelling(MarkReason(r, BackendFailed));
      ReasonKeeps(r, BackendFailed);
      hide RecordBase, Evaluate, SettlesUnlessCut, ToCancelling, MarkReason, IsTerminal, Awaiting;
      AwaitKeeps(r1, managed && r.started, identity);
      EvaluateKeeps(Awaiting(r1, managed && r.started, identity));
    }
  }

  lemma ReturnKeeps(r: Record, managed: bool, handle: Instance, claims: bool, taken: Option<Output>)
    requires RecordOk(r) && r.task.Over? && r.started
    ensures RecordOk(DoReturn(r, managed, handle, claims, taken))
    ensures Forward(r, DoReturn(r, managed, handle, claims, taken))
  {
    if !r.settled {
      var r3 := Returned(r, managed, handle, claims, taken);
      assert RecordBase(r3) && Forward(r, r3);
      hide Evaluate, RecordBase, RecordOk;
      EvaluateKeeps(r3);
    }
  }

  lemma ProofKeeps(r: Record)
    requires RecordOk(r)
    ensures RecordOk(DoStopProof(r)) && Forward(r, DoStopProof(r))
  {
    var instance := if r.instance.Some? then r.instance else r.expected;
    if !r.settled && r.evidence.None? && instance.Some? {
      var r2 := WithStopProof(r, instance);
      assert RecordBase(r2) && Forward(r, r2);
      hide Evaluate, RecordBase, RecordOk;
      EvaluateKeeps(r2);
    }
  }

  lemma PublishEndKeeps(r: Record, outcome: PublishOutcome)
    requires RecordOk(r) && !r.publisher.NoPublisher?
    ensures RecordOk(DoPublishEnd(r, outcome)) && Forward(r, DoPublishEnd(r, outcome))
  {
  }

  lemma ReleaseKeeps(r: Record)
    requires RecordOk(r)
    ensures RecordOk(ReleaseOnce(r)) && Forward(r, ReleaseOnce(r))
  {
  }

  lemma TaskEnds(r: Record)
    requires RecordOk(r)
    requires r.task.Guarding? || r.task.Opening? || r.task.Admitting? || r.task.Reserving? || r.task.Executing?
    ensures RecordOk(r.(task := Over))
  {
  }

  // ---- event by event --------------------------------------------------------------------------

  lemma ClientKeeps(r: Record, e: Event)
    requires RecordOk(r) && May(r, e) && (e.Cancel? || e.CutCancel? || e.ReportOutput? || e.ReportTerminal? || e.Drain?)
    ensures RecordOk(OnClient(r, e)) && Forward(r, OnClient(r, e))
  {
    assert Forward(r, r) && RecordBase(r);
    assert r.started || !r.started;
    hide RecordOk, RecordBase, Forward, CancelWith, DoCutCancel, TerminateLocal, DoReportOutput, DoReportTerminal;
    match e
    case CutCancel(code) => CutKeeps(r, code);
    case ReportOutput(body) => OutputKeeps(r, body);
    case ReportTerminal(evidence) => TerminalKeeps(r, evidence);
    case _ =>
      if !r.settled && !r.started { TerminateKeeps(r, QueueTimeout); }
      if !r.settled && r.started {
        CancelKeeps(r, ExecutionTimeout);
        CancelKeeps(r, SessionExpiredCode);
      }
  }

  lemma EndLocallyKeeps(r: Record, code: Code)
    requires RecordOk(r)
    requires r.task.Guarding? || r.task.Opening? || r.task.Admitting? || r.task.Reserving? || r.task.Executing?
    ensures RecordOk(EndLocally(r.(task := Over), code)) && Forward(r, EndLocally(r.(task := Over), code))
  {
    TaskEnds(r);
    var r1 := r.(task := Over);
    assert Forward(r, r1) && RecordBase(r1);
    hide RecordOk, RecordBase, TerminateLocal;
    if !r.settled { TerminateKeeps(r1, code); }
  }

  lemma AdmitKeeps(managed: bool, r: Record, e: Event)
    requires RecordOk(r) && May(r, e)
    requires e.Admitted? || e.GuardPasses? || e.Claim? || e.InputOpens? || e.AdmissionRetries?
    ensures RecordOk(OnDispatch(managed, r, e)) && Forward(r, OnDispatch(managed, r, e))
  {
    hide TerminateLocal, Uncertain, EndLocally;
  }

  lemma ReserveKeeps(managed: bool, r: Record, e: Event)
    requires RecordOk(r) && May(r, e) && e.Reserves?
    ensures RecordOk(OnDispatch(managed, r, e)) && Forward(r, OnDispatch(managed, r, e))
  {
    hide TerminateLocal, Uncertain, EndLocally;
  }

  lemma DispatchKeeps(managed: bool, r: Record, e: Event)
    requires RecordOk(r) && IsDispatchEvent(e) && May(r, e)
    ensures RecordOk(OnDispatch(managed, r, e)) && Forward(r, OnDispatch(managed, r, e))
  {
    if e.Reserves? {
      ReserveKeeps(managed, r, e);
    } else if e.Admitted? || e.GuardPasses? || e.Claim? || e.InputOpens? || e.AdmissionRetries? {
      AdmitKeeps(managed, r, e);
    } else {
      assert RecordBase(r) && Forward(r, r.(task := Over));
      hide RecordOk, RecordBase, TerminateLocal, EndLocally, Uncertain;
      match e {
        case ExpireQueued => TerminateKeeps(r, QueueTimeout);
        case TaskRaises =>
          TaskEnds(r);
          UncertainKeeps(r.(task := Over), managed, None);
        case GuardRefuses(code) => EndLocallyKeeps(r, code);
        case InputFails(code) => EndLocallyKeeps(r, code);
        case AdmissionFails(code) => EndLocallyKeeps(r, code);
      }
    }
  }

  lemma BackendKeeps(managed: bool, r: Record, e: Event)
    requires RecordOk(r) && IsBackendEvent(e) && May(r, e)
    ensures RecordOk(OnBackend(managed, r, e)) && Forward(r, OnBackend(managed, r, e))
  {
    assert Forward(r, r) && Forward(r, r.(task := Over)) && r.started;
    hide RecordOk, EndLocally, Uncertain, DoReturn, CancelWith;
    TaskEnds(r);
    match e
    case BackendRefuses(code) => EndLocallyKeeps(r, code);
    case BackendRaises(identity) => UncertainKeeps(r.(task := Over), managed, identity);
    case BackendReturns(handle, claims, taken) => ReturnKeeps(r.(task := Over), managed, handle, claims, taken);
    case DeadlineElapses => if !r.settled { CancelKeeps(r, ExecutionTimeout); }
  }

  lemma PublishStepKeeps(r: Record, e: Event)
    requires RecordOk(r) && May(r, e) && (e.PublishStarts? || e.PublisherKilled?)
    ensures RecordOk(OnEffect(r, e)) && Forward(r, OnEffect(r, e))
  {
    hide DoPublishEnd, ReleaseOnce, DoStopProof;
  }

  lemma EffectKeeps(r: Record, e: Event)
    requires RecordOk(r) && IsEffectEvent(e) && May(r, e)
    ensures RecordOk(OnEffect(r, e)) && Forward(r, OnEffect(r, e))
  {
    hide RecordOk, Forward, DoPublishEnd, ReleaseOnce, DoStopProof;
    match e
    case PublishStarts => PublishStepKeeps(r, e);
    case PublisherKilled => PublishStepKeeps(r, e);
    case PublishEnds(outcome) => PublishEndKeeps(r, outcome);
    case TearDown => ReleaseKeeps(r);
    case FreeForStop => ReleaseKeeps(r);
    case StopProved => ProofKeeps(r);
  }

  // ---- what the history fields remember --------------------------------------------------------

  predicate CutsShort(r: Record, e: Event) {
    e.CutCancel? && r.evidence.Some?
  }

  predicate KillsWriter(r: Record, e: Event) {
    e.PublisherKilled? && r.publisher.Writing?
  }

  predicate Remembers(r: Record, e: Event, r': Record) {
    && (r'.cutShort <==> r.cutShort || CutsShort(r, e))
    && r'.kills == r.kills + (if KillsWriter(r, e) then 1 else 0)
  }

  predicate SameHistory(r: Record, r': Record) {
    r'.cutShort == r.cutShort && r'.kills == r.kills
  }

  lemma EvaluateHistory(r: Record)
    ensures SameHistory(r, Evaluate(r))
  {
  }

  lemma CancelHistory(r: Record, code: Code)
    ensures SameHistory(r, CancelWith(r, code))
  {
    hide Evaluate;
    EvaluateHistory(ToCancelling(MarkReason(r.(cancelPending := true), code)));
  }

  lemma UncertainHistory(r: Record, managed: bool, identity: Option<Instance>)
    ensures SameHistory(r, Uncertain(r, managed, identity))
  {
    hide Evaluate;
    EvaluateHistory(Awaiting(ToCancelling(MarkReason(r, BackendFailed)), managed && r.started, identity));
  }

  lemma ReturnHistory(r: Record, managed: bool, handle: Instance, claims: bool, taken: Option<Output>)
    ensures SameHistory(r, DoReturn(r, managed, handle, claims, taken))
  {
    hide Evaluate;
    EvaluateHistory(Returned(r, managed, handle, claims, taken));
  }

  lemma ReportHistory(r: Record, e: Event)
    requires e.ReportOutput? || e.ReportTerminal?
    ensures SameHistory(r, OnClient(r, e))
  {
    hide Evaluate, Writeback;
    if e.ReportOutput? {
      EvaluateHistory(r.(output := Some(e.body)));
    } else {
      EvaluateHistory(WithTerminal(r, e.evidence));
    }
  }

  lemma ProofHistory(r: Record)
    ensures SameHistory(r, DoStopProof(r))
  {
    hide Evaluate;
    var instance := if r.instance.Some? then r.instance else r.expected;
    EvaluateHistory(WithStopProof(r, instance));
  }

  lemma LocalHistory(r: Record, code: Code)
    ensures SameHistory(r, TerminateLocal(r, code)) && SameHistory(r, EndLocally(r, code))
  {
  }

  lemma ClientRemembers(r: Record, e: Event)
    requires May(r, e) && (e.Cancel? || e.CutCancel? || e.ReportOutput? || e.ReportTerminal? || e.Drain?)
    ensures Remembers(r, e, OnClient(r, e))
  {
    if e.ReportOutput? || e.ReportTerminal? {
      hide OnClient;
      ReportHistory(r, e);
    } else if e.CutCancel? {
      hide DoReportOutput, DoReportTerminal;
    } else {
      hide CancelWith, TerminateLocal, DoReportOutput, DoReportTerminal;
      CancelHistory(r, ExecutionTimeout);
      CancelHistory(r, SessionExpiredCode);
      LocalHistory(r, QueueTimeout);
    }
  }

  lemma QuietDispatchHistory(managed: bool, r: Record, e: Event)
    requires May(r, e)
    requires e.Claim? || e.InputOpens? || e.AdmissionRetries? || e.Reserves? || e.GuardPasses? || e.Admitted?
    ensures SameHistory(r, OnDispatch(managed, r, e))
  {
    hide Uncertain, EndLocally, TerminateLocal, Idle, IsTerminal;
    if e.GuardPasses? || e.Admitted? {
      hide OnDispatch, May;
      StampHistory(managed, r, e);
    } else if e.AdmissionRetries? || e.Reserves? {
      hide OnDispatch, May;
      AdmissionHistory(managed, r, e);
    }
  }

  lemma AdmissionHistory(managed: bool, r: Record, e: Event)
    requires May(r, e) && (e.AdmissionRetries? || e.Reserves?)
    ensures SameHistory(r, OnDispatch(managed, r, e))
  {
    hide Uncertain, EndLocally, TerminateLocal, Idle, IsTerminal;
  }

  lemma StampHistory(managed: bool, r: Record, e: Event)
    requires May(r, e) && (e.GuardPasses? || e.Admitted?)
    ensures SameHistory(r, OnDispatch(managed, r, e))
  {
    hide Uncertain, EndLocally, TerminateLocal, Idle, IsTerminal;
  }

  lemma DispatchRemembers(managed: bool, r: Record, e: Event)
    requires May(r, e) && IsDispatchEvent(e)
    ensures Remembers(r, e, OnDispatch(managed, r, e))
  {
    if e.Claim? || e.InputOpens? || e.AdmissionRetries? || e.Reserves? || e.GuardPasses? || e.Admitted? {
      hide OnDispatch, May;
      QuietDispatchHistory(managed, r, e);
    } else if e.ExpireQueued? {
      hide TerminateLocal, Uncertain, EndLocally, Idle;
      LocalHistory(r, QueueTimeout);
    } else {
      hide TerminateLocal, Uncertain, EndLocally, Idle;
      UncertainHistory(r.(task := Over), managed, None);
      if !e.TaskRaises? { LocalHistory(r.(task := Over), e.code); }
    }
  }

  lemma BackendRemembers(managed: bool, r: Record, e: Event)
    requires IsBackendEvent(e)
    ensures Remembers(r, e, OnBackend(managed, r, e))
  {
    hide EndLocally, Uncertain, DoReturn, CancelWith;
    match e
    case BackendRefuses(code) => LocalHistory(r.(task := Over), code);
    case BackendRaises(identity) => UncertainHistory(r.(task := Over), managed, identity);
    case BackendReturns(handle, claims, taken) => ReturnHistory(r.(task := Over), managed, handle, claims, taken);
    case DeadlineElapses => CancelHistory(r, ExecutionTimeout);
  }

  lemma EffectRemembers(r: Record, e: Event)
    requires IsEffectEvent(e)
    ensures Remembers(r, e, OnEffect(r, e))
  {
    if e.StopProved? {
      hide DoStopProof, DoPublishEnd, ReleaseOnce;
      ProofHistory(r);
    } else {
      hide DoStopProof;
    }
  }

  /** Only a cut cancel is remembered as one, and only a killed writer is counted. */
  lemma BlockRemembers(managed: bool, r: Record, e: Event)
    requires May(r, e)
    ensures Remembers(r, e, Block(managed, r, e))
  {
    hide OnDispatch, OnBackend, OnEffect, OnClient, May, Remembers;
    if IsDispatchEvent(e) {
      DispatchRemembers(managed, r, e);
    } else if IsBackendEvent(e) {
      BackendRemembers(managed, r, e);
    } else if IsEffectEvent(e) {
      EffectRemembers(r, e);
    } else {
      ClientRemembers(r, e);
    }
  }

  lemma StepKeeps(managed: bool, r: Record, e: Event)
    requires RecordOk(r) && May(r, e)
    ensures RecordOk(Block(managed, r, e)) && Forward(r, Block(managed, r, e))
  {
    hide RecordOk, Forward, OnDispatch, OnBackend, OnEffect, OnClient;
    if IsDispatchEvent(e) {
      DispatchKeeps(managed, r, e);
    } else if IsBackendEvent(e) {
      BackendKeeps(managed, r, e);
    } else if IsEffectEvent(e) {
      EffectKeeps(r, e);
    } else {
      ClientKeeps(r, e);
    }
  }
}
