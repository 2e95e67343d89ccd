/** One execution of model_scheduler/execution_service.py: the record and every block that runs on
    it under the service lock. Clients, the backend, the scheduler and the blob store appear as
    the arguments of the events. */
module ExecutionModel {
  import opened Prelude
  import opened BookModel
  import opened Protocol

  datatype ExecState = Queued | Running | Cancelling | Succeeded | FailedState | CancelledState

  datatype Code =
    | QueueTimeout
    | SessionExpiredCode
    | SessionNotActiveCode
    | ExecutionTimeout
    | BackendFailed
    | StorageUnavailable
    | OtherCode(n: nat)

  datatype Instance = Instance(n: nat)
  datatype BlobRef = BlobRef(n: nat)
  datatype Output = Output(n: nat)

  datatype Proof = Reported | NotStarted | RequestProtocol | IndependentStopped

  /** A dispatched termination carries the instance, a local one none, by construction. */
  datatype Evidence = Evidence(fence: Fence, instance: Option<Instance>, proof: Proof)

  /** Where the execution's own task stands between two blocks. */
  datatype Task = NoTask | Guarding | Opening | Admitting | Reserving(fence: Fence) | Executing | Over

  /** The one caller inside `_publish_and_settle`: in `write_output`, or with nothing to write. */
  datatype Publisher = NoPublisher | Writing | Failing

  datatype Record = Record(
    id: ExecutionId,
    modelId: ModelId,
    fence: Fence,
    state: ExecState,
    error: Option<Code>,
    reason: Option<Code>,
    result: Option<BlobRef>,
    evidence: Option<Evidence>,
    output: Option<Output>,
    publishing: bool,
    publisher: Publisher,
    started: bool,
    claimed: bool,
    instance: Option<Instance>,
    dispatched: bool,
    lease: Option<Lease>,
    leaseReleased: bool,
    reserved: bool,
    cancelPending: bool,
    cutShort: bool,
    settled: bool,
    awaiting: bool,
    expected: Option<Instance>,
    task: Task,
    // what happened so far, for the exactly-one claims
    writes: nat,
    kills: nat,
    releases: nat)

  function Submitted(id: ExecutionId, m: ModelId, boot: BootId, generation: nat, operation: Uuid): (r: Record) {
    Record(id, m, Fence(boot, m, generation, operation, Some(id), Some(1)), Queued, None, None, None, None, None,
           false, NoPublisher, false, false, None, false, None, false, false, false, false, false, false, None,
           NoTask, 0, 0, 0)
  }

  predicate IsTerminal(s: ExecState) {
    s.Succeeded? || s.FailedState? || s.CancelledState?
  }

  function Rank(s: ExecState): (n: nat) {
    match s
    case Queued => 0
    case Running => 1
    case Cancelling => 2
    case _ => 3
  }

  // ---- settling decisions --------------------------------------------------------------------

  function Settle(r: Record, state: ExecState, error: Option<Code>): (r': Record) {
    r.(state := state, error := error, settled := true)
  }

  datatype Verdict = Waits | Settles(state: ExecState, code: Code) | Publishes

  /** What `_evaluate` decides. */
  function Judge(r: Record): (v: Verdict) {
    if r.settled || r.evidence.None? then Waits
    else if r.cancelPending || r.reason.Some? then
      Settles(if r.cancelPending then CancelledState else FailedState,
              if r.reason.Some? then r.reason.value else BackendFailed)
    else if r.output.Some? then
      if !r.reserved then Settles(FailedState, BackendFailed) else Publishes
    else Waits
  }

  function Evaluate(r: Record): (r': Record) {
    var v := Judge(r);
    r.(state := if v.Settles? then v.state else r.state,
       error := if v.Settles? then Some(v.code) else r.error,
       settled := r.settled || v.Settles?,
       publishing := r.publishing || v.Publishes?)
  }

  /** The first reason to end an execution wins. */
  function MarkReason(r: Record, code: Code): (r': Record) {
    r.(reason := if r.reason.None? then Some(code) else r.reason)
  }

  function ToCancelling(r: Record): (r': Record) {
    r.(state := if IsTerminal(r.state) then r.state else Cancelling)
  }

  /** `_terminate_local`. */
  function TerminateLocal(r: Record, code: Code): (r': Record) {
    Settle(r.(evidence := Some(Evidence(r.fence, None, NotStarted))),
           if code.QueueTimeout? || code.SessionExpiredCode? || code.SessionNotActiveCode? then CancelledState
               else FailedState,
           Some(code))
  }

  function EndLocally(r: Record, code: Code): (r': Record) {
    if r.settled then r else TerminateLocal(r, code)
  }

  // ---- the blocks ------------------------------------------------------------------------------

  datatype PublishOutcome = PublishedAs(ref: BlobRef) | PublishCancelled | PublishError(code: Code)

  datatype Event =
    | Cancel
    | CutCancel(code: Code)
    | ReportOutput(body: Output)
    | ReportTerminal(evidence: Evidence)
    | Drain
    | ExpireQueued
    | Claim
    | GuardRefuses(code: Code)
    | GuardPasses(generation: nat)
    | InputFails(code: Code)
    | InputOpens
    | AdmissionFails(code: Code)
    | AdmissionRetries
    | Admitted(lease: Lease)
    | TaskRaises
    | Reserves
    | BackendRefuses(code: Code)
    | BackendRaises(identity: Option<Instance>)
    | BackendReturns(handle: Instance, claimsQuiescence: bool, taken: Option<Output>)
    | DeadlineElapses
    | PublishStarts
    | PublishEnds(outcome: PublishOutcome)
    | PublisherKilled
    | TearDown
    | FreeForStop
    | StopProved

  function CancelWith(r: Record, code: Code): (r': Record) {
    Evaluate(ToCancelling(MarkReason(r.(cancelPending := true), code)))
  }

  /** The caller is cancelled while `_cancel_side_effects` waits for the scheduler: the lock is left
      with the cancel and its reason recorded and nothing evaluated. */
  function DoCutCancel(r: Record, code: Code): (r': Record) {
    ToCancelling(MarkReason(r.(cancelPending := true, cutShort := r.cutShort || r.evidence.Some?), code))
  }

  function DoCancel(r: Record): (r': Record) {
    if r.settled then r
    else if !r.started then TerminateLocal(r, QueueTimeout)
    else CancelWith(r, ExecutionTimeout)
  }

  function DoReportOutput(r: Record, body: Output): (r': Record) {
    if r.settled then r
    else if r.cancelPending then r.(output := None)
    else if r.publishing then r
    else Evaluate(r.(output := Some(body)))
  }

  function WithTerminal(r: Record, e: Evidence): (r': Record) {
    r.(evidence := Some(e),
       dispatched := r.dispatched || e.instance.Some?,
       instance := if e.instance.Some? then e.instance else r.instance)
  }

  function DoReportTerminal(r: Record, e: Evidence): (r': Record) {
    if !Accepts(r.fence, e.fence) then r
    else if e.instance.None? && r.dispatched then r
    else if r.evidence.Some? then r
    else
      Evaluate(WithTerminal(r, e))
  }

  function DoDrain(r: Record): (r': Record) {
    if r.settled then r
    else if !r.started then TerminateLocal(r, QueueTimeout)
    else CancelWith(r, SessionExpiredCode)
  }

  /** The fence follows the model's generation; with the generation unchanged it is the same fence. */
  function Restamped(r: Record, generation: nat): (r': Record) {
    r.(fence := r.fence.(generation := generation))
  }

  function Awaiting(r: Record, waits: bool, identity: Option<Instance>): (r': Record) {
    r.(awaiting := r.awaiting || waits,
       expected := if waits && r.instance.None? then identity else r.expected)
  }

  /** `_terminate_uncertain`: no terminal is invented. */
  function Uncertain(r: Record, managed: bool, identity: Option<Instance>): (r': Record) {
    if r.settled then r
    else
      Evaluate(Awaiting(ToCancelling(MarkReason(r, BackendFailed)), managed && r.started, identity))
  }

  function Returned(r: Record, managed: bool, handle: Instance, claims: bool, taken: Option<Output>): (r': Record) {
    r.(instance := Some(handle),
       dispatched := true,
       output := if taken.None? || (r.publishing && !r.cancelPending) then r.output
                 else if r.cancelPending then None
                 else taken,
       awaiting := r.awaiting || (managed && !claims),
       evidence := if managed && claims && r.evidence.None? then Some(Evidence(r.fence, Some(handle), RequestProtocol))
                   else r.evidence)
  }

  function DoReturn(r: Record, managed: bool, handle: Instance, claims: bool, taken: Option<Output>): (r': Record) {
    if r.settled then r
    else
      Evaluate(Returned(r, managed, handle, claims, taken))
  }

  function DoTimeout(r: Record): (r': Record) {
    if r.settled then r else CancelWith(r, ExecutionTimeout)
  }

  function PublishState(outcome: PublishOutcome): (s: ExecState) {
    match outcome
    case PublishedAs(_) => Succeeded
    case PublishCancelled => CancelledState
    case PublishError(_) => FailedState
  }

  function PublishErrorCode(r: Record, outcome: PublishOutcome): (code: Option<Code>) {
    match outcome
    case PublishedAs(_) => r.error
    case PublishCancelled => if r.error.Some? then r.error else Some(ExecutionTimeout)
    case PublishError(code) => Some(code)
  }

  /** The last block of `_publish_and_settle`: it decides only if nothing settled meanwhile. */
  function DoPublishEnd(r: Record, outcome: PublishOutcome): (r': Record) {
    r.(publishing := false,
       publisher := NoPublisher,
       output := None,
       result := if !r.settled && outcome.PublishedAs? then Some(outcome.ref) else r.result,
       cancelPending := r.cancelPending || (!r.settled && outcome.PublishCancelled?),
       error := if r.settled then r.error else PublishErrorCode(r, outcome),
       state := if r.settled then r.state else PublishState(outcome),
       settled := true)
  }

  function ReleaseOnce(r: Record): (r': Record) {
    var owed := r.lease.Some? && !r.leaseReleased;
    r.(leaseReleased := r.leaseReleased || owed, releases := r.releases + if owed then 1 else 0)
  }

  function WithStopProof(r: Record, instance: Option<Instance>): (r': Record) {
    r.(evidence := Some(Evidence(r.fence, instance, IndependentStopped)),
       dispatched := true,
       instance := if r.dispatched then r.instance else instance)
  }

  function DoStopProof(r: Record): (r': Record) {
    if r.settled || r.evidence.Some? then r
    else
      var instance := if r.instance.Some? then r.instance else r.expected;
      if instance.None? then r
      else
        Evaluate(WithStopProof(r, instance))
  }

  predicate Idle(r: Record) {
    !r.settled && !r.started && !r.claimed && r.state.Queued? && r.task.NoTask?
  }

  /** When a block can run. What a backend reports is evidence of its own; only the quiescer adds
      an independent stop. */
  predicate May(r: Record, e: Event) {
    match e
    case ReportTerminal(evidence) => evidence.proof.Reported?
    case ExpireQueued => Idle(r)
    case Claim => Idle(r)
    case GuardRefuses(_) => r.task.Guarding?
    case GuardPasses(_) => r.task.Guarding?
    case InputFails(_) => r.task.Opening?
    case InputOpens => r.task.Opening?
    case AdmissionFails(_) => r.task.Admitting?
    case AdmissionRetries => r.task.Admitting?
    case Admitted(_) => r.task.Admitting?
    case TaskRaises => r.task.Guarding? || r.task.Opening? || r.task.Admitting? || r.task.Reserving?
    case Reserves => r.task.Reserving?
    case BackendRefuses(_) => r.task.Executing?
    case BackendRaises(_) => r.task.Executing?
    case BackendReturns(_, _, _) => r.task.Executing?
    case DeadlineElapses => r.task.Executing?
    case CutCancel(_) => r.started && !r.settled && r.lease.Some?
    case PublishStarts => r.publishing && r.publisher.NoPublisher?
    case PublishEnds(_) => !r.publisher.NoPublisher?
    case PublisherKilled => !r.publisher.NoPublisher?
    case TearDown => r.settled
    case FreeForStop => r.started && r.awaiting
    case StopProved => r.started && r.awaiting
    case _ => true
  }

  function OnClient(r: Record, e: Event): (r': Record)
    requires e.Cancel? || e.CutCancel? || e.ReportOutput? || e.ReportTerminal? || e.Drain?
  {
    match e
    case Cancel => DoCancel(r)
    case CutCancel(code) => DoCutCancel(r, code)
    case ReportOutput(body) => DoReportOutput(r, body)
    case ReportTerminal(evidence) => DoReportTerminal(r, evidence)
    case Drain => DoDrain(r)
  }

  predicate IsDispatchEvent(e: Event) {
    e.ExpireQueued? || e.Claim? || e.GuardRefuses? || e.GuardPasses? || e.InputFails? || e.InputOpens?
    || e.AdmissionFails? || e.AdmissionRetries? || e.Admitted? || e.TaskRaises? || e.Reserves?
  }

  /** The output is reserved: the execution starts, unless it settled or was restamped meanwhile. */
  function AfterReserve(r: Record): (r': Record)
    requires r.task.Reserving?
  {
    var starts := !r.settled && r.fence == r.task.fence;
    r.(reserved := r.reserved || starts, started := r.started || starts,
       state := if starts && !IsTerminal(r.state) then Running else r.state, task := if starts then Executing else Over)
  }

  /** The dispatcher and the execution's task up to the dispatch. */
  function OnDispatch(managed: bool, r: Record, e: Event): (r': Record)
    requires IsDispatchEvent(e) && May(r, e)
  {
    match e
    case ExpireQueued => TerminateLocal(r, QueueTimeout)
    case Claim => r.(claimed := true, task := Guarding)
    case GuardRefuses(code) => EndLocally(r.(task := Over), code)
    case GuardPasses(generation) =>
      if r.settled then r.(task := Over) else Restamped(r, generation).(task := Opening)
    case InputFails(code) => EndLocally(r.(task := Over), code)
    case InputOpens => r.(task := Admitting)
    case AdmissionFails(code) => EndLocally(r.(task := Over), code)
    case AdmissionRetries => r.(claimed := false, task := NoTask)
    case Admitted(lease) =>
      if r.settled then r.(task := Over)
      else
        var r1 := Restamped(r, lease.generation);
        r1.(lease := Some(lease), task := Reserving(r1.fence))
    case TaskRaises => Uncertain(r.(task := Over), managed, None)
    case Reserves => AfterReserve(r)
  }

  predicate IsBackendEvent(e: Event) {
    e.BackendRefuses? || e.BackendRaises? || e.BackendReturns? || e.DeadlineElapses?
  }

  function OnBackend(managed: bool, r: Record, e: Event): (r': Record)
    requires IsBackendEvent(e)
  {
    match e
    case BackendRefuses(code) => EndLocally(r.(task := Over), code)
    case BackendRaises(identity) => Uncertain(r.(task := Over), managed, identity)
    case BackendReturns(handle, claims, taken) => DoReturn(r.(task := Over), managed, handle, claims, taken)
    case DeadlineElapses => DoTimeout(r)
  }

  predicate IsEffectEvent(e: Event) {
    e.PublishStarts? || e.PublishEnds? || e.PublisherKilled? || e.TearDown? || e.FreeForStop? || e.StopProved?
  }

  function OnEffect(r: Record, e: Event): (r': Record)
    requires IsEffectEvent(e)
  {
    match e
    case PublishStarts =>
      var writes := r.output.Some? && r.reserved;
      r.(publisher := if writes then Writing else Failing, writes := r.writes + if writes then 1 else 0)
    case PublishEnds(outcome) => DoPublishEnd(r, outcome)
    case PublisherKilled => r.(publisher := NoPublisher, kills := r.kills + if r.publisher.Writing? then 1 else 0)
    case TearDown => ReleaseOnce(r)
    case FreeForStop => ReleaseOnce(r)
    case StopProved => DoStopProof(r)
  }

  function Block(managed: bool, r: Record, e: Event): (r': Record)
    requires May(r, e)
  {
    if IsDispatchEvent(e) then OnDispatch(managed, r, e)
    else if IsBackendEvent(e) then OnBackend(managed, r, e)
    else if IsEffectEvent(e) then OnEffect(r, e)
    else OnClient(r, e)
  }
}
