/** What every block answers, said on the fields of the record before and after: which report becomes
    evidence, when an execution starts, when it settles and as what. */
module ExecutionAnswers {
  import opened Prelude
  import opened BookModel
  import opened BookRuns
  import opened Protocol
  import opened ExecutionModel
  import opened ExecutionRecords
  import opened ExecutionRuns

  // ---- evidence ----------------------------------------------------------------------------------

  /** The report is of this very execution: same boot, model, generation and operation, and of the
      current attempt or a later one. */
  predicate OfThisAttempt(current: Fence, f: Fence) {
    && f.boot == current.boot && f.modelId == current.modelId && f.generation == current.generation
    && f.operation == current.operation && f.execution == current.execution
    && (f.attempt.None? <==> current.attempt.None?)
    && (f.attempt.Some? && current.attempt.Some? ==> f.attempt.value >= current.attempt.value)
  }

  /** The first report of this execution's end, unless it denies a dispatch that is on record. */
  predicate Counts(r: Record, e: Evidence) {
    r.evidence.None? && OfThisAttempt(r.fence, e.fence) && !(e.instance.None? && r.dispatched)
  }

  /** A terminal report is stored if and only if it counts, and then as it is; any other report, a
      late one of a superseded boot, load, operation or attempt above all, changes nothing. */
  lemma TerminalStoredIff(managed: bool, r: Record, e: Evidence)
    requires RecordOk(r) && May(r, ReportTerminal(e))
    ensures var r' := Block(managed, r, ReportTerminal(e));
            && (r'.evidence != r.evidence <==> Counts(r, e))
            && (Counts(r, e) ==>
                  && r'.evidence == Some(e) && r'.instance == (if e.instance.Some? then e.instance else r.instance)
                  && (r'.dispatched <==> r.dispatched || e.instance.Some?))
            && (!Counts(r, e) ==> r' == r)
  {
    assert r.fence.execution.Some?;
    EvaluateSpares(WithTerminal(r, e));
    hide RecordOk, Evaluate;
  }

  /** What `_evaluate` leaves alone. */
  predicate SameButVerdict(r: Record, r': Record) {
    && r'.fence == r.fence && r'.reason == r.reason && r'.result == r.result && r'.evidence == r.evidence
    && r'.output == r.output && r'.started == r.started && r'.claimed == r.claimed && r'.instance == r.instance
    && r'.dispatched == r.dispatched && r'.lease == r.lease && r'.leaseReleased == r.leaseReleased
    && r'.reserved == r.reserved && r'.cancelPending == r.cancelPending && r'.awaiting == r.awaiting
    && r'.task == r.task && r'.expected == r.expected
  }

  lemma EvaluateSpares(r: Record)
    ensures SameButVerdict(r, Evaluate(r))
  {
  }

  /** The execution ends before anything was dispatched for it. */
  predicate EndsHere(r: Record, e: Event) {
    !r.settled
    && match e
       case Cancel => !r.started
       case Drain => !r.started
       case ExpireQueued => true
       case GuardRefuses(_) => true
       case InputFails(_) => true
       case AdmissionFails(_) => true
       case BackendRefuses(_) => true
       case _ => false
  }

  /** The instance a stop proof speaks for, if there is one to speak for. */
  function Stopped(r: Record): (instance: Option<Instance>) {
    if r.instance.Some? then r.instance else r.expected
  }

  /** The block ends in a verdict: everything that can complete what an execution waits for. */
  predicate Judged(r: Record, e: Event) {
    !r.settled
    && match e
       case Cancel => r.started
       case Drain => r.started
       case DeadlineElapses => true
       case ReportOutput(_) => !r.cancelPending && !r.publishing
       case ReportTerminal(v) => Counts(r, v)
       case TaskRaises => true
       case BackendRaises(_) => true
       case BackendReturns(_, _, _) => true
       case StopProved => r.evidence.None? && Stopped(r).Some?
       case _ => false
  }

  /** What such a block writes before it judges. */
  function Written(managed: bool, r: Record, e: Event): (r': Record)
    requires Judged(r, e)
  {
    match e
    case Cancel => ToCancelling(MarkReason(r.(cancelPending := true), ExecutionTimeout))
    case Drain => ToCancelling(MarkReason(r.(cancelPending := true), SessionExpiredCode))
    case DeadlineElapses => ToCancelling(MarkReason(r.(cancelPending := true), ExecutionTimeout))
    case ReportOutput(body) => r.(output := Some(body))
    case ReportTerminal(v) => WithTerminal(r, v)
    case TaskRaises =>
      Awaiting(ToCancelling(MarkReason(r.(task := Over), BackendFailed)), managed && r.started, None)
    case BackendRaises(identity) =>
      Awaiting(ToCancelling(MarkReason(r.(task := Over), BackendFailed)), managed && r.started, identity)
    case BackendReturns(handle, claims, taken) => Returned(r.(task := Over), managed, handle, claims, taken)
    case StopProved => WithStopProof(r, Stopped(r))
  }

  lemma JudgedBlock(managed: bool, r: Record, e: Event)
    requires RecordOk(r) && May(r, e) && Judged(r, e)
    ensures Block(managed, r, e) == Evaluate(Written(managed, r, e))
  {
    assert r.fence.execution.Some?;
    BlockOf(managed, r, e);
    hide RecordOk, Evaluate, Written, Block, OnDispatch, OnBackend, OnEffect, OnClient, May;
    if IsBackendEvent(e) {
      JudgedBackend(managed, r, e);
    } else if e.TaskRaises? || e.StopProved? {
      JudgedTask(managed, r, e);
    } else if e.ReportTerminal? || e.ReportOutput? {
      JudgedReport(managed, r, e);
    } else {
      JudgedCancel(managed, r, e);
    }
  }

  lemma BlockOf(managed: bool, r: Record, e: Event)
    requires May(r, e)
    ensures IsDispatchEvent(e) ==> Block(managed, r, e) == OnDispatch(managed, r, e)
    ensures IsBackendEvent(e) ==> Block(managed, r, e) == OnBackend(managed, r, e)
    ensures IsEffectEvent(e) ==> Block(managed, r, e) == OnEffect(r, e)
    ensures !IsDispatchEvent(e) && !IsBackendEvent(e) && !IsEffectEvent(e) ==> Block(managed, r, e) == OnClient(r, e)
  {
    hide OnDispatch, OnBackend, OnEffect, OnClient, May;
  }

  lemma JudgedBackend(managed: bool, r: Record, e: Event)
    requires Judged(r, e) && IsBackendEvent(e)
    ensures OnBackend(managed, r, e) == Evaluate(Written(managed, r, e))
  {
    hide Evaluate, Awaiting, ToCancelling, MarkReason, Returned;
  }

  lemma JudgedTask(managed: bool, r: Record, e: Event)
    requires May(r, e) && Judged(r, e) && (e.TaskRaises? || e.StopProved?)
    ensures e.TaskRaises? ==> OnDispatch(managed, r, e) == Evaluate(Written(managed, r, e))
    ensures e.StopProved? ==> OnEffect(r, e) == Evaluate(Written(managed, r, e))
  {
    hide Evaluate, Awaiting, ToCancelling, MarkReason, WithStopProof;
  }

  lemma JudgedReport(managed: bool, r: Record, e: Event)
    requires Judged(r, e) && r.fence.execution.Some? && (e.ReportOutput? || e.ReportTerminal?)
    ensures OnClient(r, e) == Evaluate(Written(managed, r, e))
  {
    hide Evaluate, WithTerminal, Protocol.Accepts, OfThisAttempt;
    if e.ReportTerminal? { AcceptedIff(r.fence, e.evidence.fence); }
  }

  lemma JudgedCancel(managed: bool, r: Record, e: Event)
    requires Judged(r, e) && (e.Cancel? || e.Drain?)
    ensures OnClient(r, e) == Evaluate(Written(managed, r, e))
  {
    hide Evaluate, ToCancelling, MarkReason;
  }

  lemma AcceptedIff(current: Fence, f: Fence)
    requires current.execution.Some?
    ensures Protocol.Accepts(current, f) <==> OfThisAttempt(current, f)
  {
  }

  /** A verdict: with evidence at hand a cancel or a reason ends the execution, and so does an output
      nobody reserved room for; without either an output is published. */
  lemma VerdictOf(r: Record)
    requires !r.settled
    ensures var r' := Evaluate(r);
            && SameButVerdict(r, r')
            && (r'.settled <==>
                  r.evidence.Some? && (r.cancelPending || r.reason.Some? || (r.output.Some? && !r.reserved)))
            && (r'.publishing <==>
                  r.publishing || (r.evidence.Some? && !r'.settled && r.output.Some?))
            && (r'.settled ==>
                  && r'.state == (if r.cancelPending then CancelledState else FailedState)
                  && r'.error == Some(if r.reason.Some? then r.reason.value else BackendFailed))
            && (!r'.settled ==> r'.state == r.state && r'.error == r.error)
  {
  }

  // ---- field by field ------------------------------------------------------------------------------

  /** Where evidence comes from: a local end, a report that counts, a response that claims the
      computation is over, or a proven stop of a known instance. Nothing else adds, takes or changes
      any, and only a local end replaces some. */
  function EvidenceDue(managed: bool, r: Record, e: Event): (v: Option<Evidence>) {
    if EndsHere(r, e) then Some(Evidence(r.fence, None, NotStarted))
    else if r.settled || r.evidence.Some? then r.evidence
    else match e
         case ReportTerminal(v) => if Counts(r, v) then Some(v) else None
         case BackendReturns(handle, claims, _) =>
           if managed && claims then Some(Evidence(r.fence, Some(handle), RequestProtocol)) else None
         case StopProved =>
           if Stopped(r).Some? then Some(Evidence(r.fence, Stopped(r), IndependentStopped)) else None
         case _ => None
  }

  /** The reason an event gives, if it gives one. */
  function ReasonGiven(r: Record, e: Event): (code: Option<Code>) {
    match e
    case CutCancel(code) => Some(code)
    case Cancel => if !r.settled && r.started then Some(ExecutionTimeout) else None
    case Drain => if !r.settled && r.started then Some(SessionExpiredCode) else None
    case DeadlineElapses => if !r.settled then Some(ExecutionTimeout) else None
    case TaskRaises => if !r.settled then Some(BackendFailed) else None
    case BackendRaises(_) => if !r.settled then Some(BackendFailed) else None
    case _ => None
  }

  predicate ReasonFollows(r: Record, e: Event, r': Record) {
    && r'.reason == (if r.reason.Some? then r.reason else ReasonGiven(r, e))
    && (r'.cancelPending <==>
          || r.cancelPending
          || (!e.TaskRaises? && !e.BackendRaises? && ReasonGiven(r, e).Some?)
          || (!r.settled && e == PublishEnds(PublishCancelled)))
  }

  /** A delivered output is kept unless the execution is settled or one is being published; after a
      cancel it is thrown away. */
  function OutputDue(r: Record, e: Event): (output: Option<Output>) {
    var delivered := if e.ReportOutput? then Some(e.body) else if e.BackendReturns? then e.taken else None;
    if e.PublishEnds? then None
    else if r.settled || delivered.None? then r.output
    else if r.cancelPending then None
    else if r.publishing then r.output
    else delivered
  }

  /** The fence follows the generation of the model: what the guard saw, then what was granted. */
  function FenceDue(r: Record, e: Event): (f: Fence) {
    if r.settled then r.fence
    else if e.GuardPasses? then r.fence.(generation := e.generation)
    else if e.Admitted? then r.fence.(generation := e.lease.generation)
    else r.fence
  }

  predicate GrantFollows(r: Record, e: Event, r': Record) {
    && r'.fence == FenceDue(r, e)
    && r'.lease == (if e.Admitted? && !r.settled then Some(e.lease) else r.lease)
    && (r'.started <==> r.started || (e.Reserves? && !r.settled && r.task == Reserving(r.fence)))
    && (r'.claimed <==> e.Claim? || (r.claimed && !e.AdmissionRetries?))
    && (r'.task.Reserving? ==> if e.Admitted? then !r.settled && r'.task == Reserving(r'.fence) else r'.task == r.task)
    && (r'.leaseReleased <==> r.leaseReleased || ((e.TearDown? || e.FreeForStop?) && r.lease.Some?))
  }

  predicate WaitFollows(managed: bool, r: Record, e: Event, r': Record) {
    r'.awaiting <==>
      || r.awaiting
      || (managed && !r.settled && (e.BackendRaises? || (e.BackendReturns? && !e.claimsQuiescence)))
  }

  /** How a local end reads. */
  function LocalCode(e: Event): (code: Code) {
    match e
    case GuardRefuses(code) => code
    case InputFails(code) => code
    case AdmissionFails(code) => code
    case BackendRefuses(code) => code
    case _ => QueueTimeout
  }

  predicate VerdictFollows(r: Record, e: Event, r': Record) {
    && (r'.settled <==>
          || r.settled || EndsHere(r, e) || e.PublishEnds?
          || (&& Judged(r, e) && r'.evidence.Some?
              && (r'.cancelPending || r'.reason.Some? || (r'.output.Some? && !r.started))))
    && (r'.publishing <==>
          && !e.PublishEnds?
          && (r.publishing || (Judged(r, e) && !r'.settled && r'.evidence.Some? && r'.output.Some?)))
    && (r.settled ==> r'.state == r.state && r'.error == r.error && r'.result == r.result)
    && (!r.settled && r'.settled ==>
          if EndsHere(r, e) then
            && r'.error == Some(LocalCode(e)) && r'.result.None?
            && r'.state == if LocalCode(e) in {QueueTimeout, SessionExpiredCode, SessionNotActiveCode}
                           then CancelledState else FailedState
          else match e
               case PublishEnds(PublishedAs(ref)) =>
                 r'.state == Succeeded && r'.result == Some(ref) && r'.error.None?
               case PublishEnds(PublishCancelled) =>
                 r'.state == CancelledState && r'.error == Some(ExecutionTimeout) && r'.result.None?
               case PublishEnds(PublishError(code)) =>
                 r'.state == FailedState && r'.error == Some(code) && r'.result.None?
               case _ =>
                 && r'.state == (if r'.cancelPending then CancelledState else FailedState)
                 && r'.error == Some(if r'.reason.Some? then r'.reason.value else BackendFailed) && r'.result.None?)
    && (!r'.settled ==>
          && r'.error.None? && r'.result.None?
          && r'.state == if ReasonGiven(r, e).Some? then Cancelling
                         else if r'.started && !r.started then Running else r.state)
  }

  /** Everything but the verdict. */
  predicate FollowsPlainly(managed: bool, r: Record, e: Event, r': Record) {
    && r'.evidence == EvidenceDue(managed, r, e) && ReasonFollows(r, e, r') && r'.output == OutputDue(r, e)
    && GrantFollows(r, e, r') && WaitFollows(managed, r, e, r')
  }

  /** No verdict yet. */
  predicate Unjudged(r: Record, e: Event, r1: Record) {
    && r1.settled == r.settled && r1.publishing == r.publishing && r1.error == r.error && r1.result == r.result
    && r1.reserved == r.reserved && r1.state == if ReasonGiven(r, e).Some? then Cancelling else r.state
  }

  /** Who holds what, and how the execution stands, as it was. */
  predicate SameHold(r: Record, r': Record) {
    && r'.fence == r.fence && r'.lease == r.lease && r'.started == r.started && r'.claimed == r.claimed
    && r'.leaseReleased == r.leaseReleased && r'.reserved == r.reserved && r'.result == r.result
    && r'.settled == r.settled && r'.publishing == r.publishing && r'.error == r.error
    && (r'.task == r.task || r'.task.Over?)
  }

  lemma CancelledRecord(r: Record, code: Code)
    requires !IsTerminal(r.state)
    ensures var r1 := ToCancelling(MarkReason(r.(cancelPending := true), code));
            && SameHold(r, r1) && r1.evidence == r.evidence && r1.output == r.output && r1.awaiting == r.awaiting
            && r1.cancelPending && r1.reason == (if r.reason.Some? then r.reason else Some(code))
            && r1.state == Cancelling
  {
  }

  lemma FailedRecord(r: Record, waits: bool, identity: Option<Instance>)
    requires !IsTerminal(r.state)
    ensures var r1 := Awaiting(ToCancelling(MarkReason(r.(task := Over), BackendFailed)), waits, identity);
            && SameHold(r, r1) && r1.evidence == r.evidence && r1.output == r.output
            && r1.cancelPending == r.cancelPending && (r1.awaiting <==> r.awaiting || waits)
            && r1.reason == (if r.reason.Some? then r.reason else Some(BackendFailed)) && r1.state == Cancelling
  {
  }

  lemma ReturnedRecord(r: Record, managed: bool, handle: Instance, claims: bool, taken: Option<Output>)
    ensures var r1 := Returned(r.(task := Over), managed, handle, claims, taken);
            && SameHold(r, r1) && r1.cancelPending == r.cancelPending && r1.reason == r.reason && r1.state == r.state
            && (r1.awaiting <==> r.awaiting || (managed && !claims))
            && r1.output == (if taken.None? then r.output else if r.cancelPending then None
                             else if r.publishing then r.output else taken)
            && r1.evidence == if managed && claims && r.evidence.None?
                              then Some(Evidence(r.fence, Some(handle), RequestProtocol)) else r.evidence
  {
  }

  lemma ReportedRecord(r: Record, v: Evidence)
    ensures var r1 := WithTerminal(r, v);
            && SameHold(r, r1) && r1.cancelPending == r.cancelPending && r1.reason == r.reason && r1.state == r.state
            && r1.awaiting == r.awaiting && r1.output == r.output && r1.evidence == Some(v)
  {
  }

  lemma ProvenRecord(r: Record)
    ensures var r1 := WithStopProof(r, Stopped(r));
            && SameHold(r, r1) && r1.cancelPending == r.cancelPending && r1.reason == r.reason && r1.state == r.state
            && r1.awaiting == r.awaiting && r1.output == r.output
            && r1.evidence == Some(Evidence(r.fence, Stopped(r), IndependentStopped))
  {
  }

  lemma WrittenReportFollows(managed: bool, r: Record, e: Event)
    requires Judged(r, e) && (e.ReportOutput? || e.ReportTerminal?)
    ensures FollowsPlainly(managed, r, e, Written(managed, r, e)) && Unjudged(r, e, Written(managed, r, e))
  {
    if e.ReportTerminal? { ReportedRecord(r, e.evidence); }
    hide OfThisAttempt, WithTerminal;
  }

  lemma CancelReads(managed: bool, r: Record, e: Event, r1: Record)
    requires Judged(r, e) && (e.Cancel? || e.Drain? || e.DeadlineElapses?) && SameHold(r, r1)
    requires r1.evidence == r.evidence && r1.output == r.output && r1.awaiting == r.awaiting && r1.cancelPending
    requires r1.reason == (if r.reason.Some? then r.reason else ReasonGiven(r, e)) && r1.state == Cancelling
    ensures FollowsPlainly(managed, r, e, r1) && Unjudged(r, e, r1)
  {
  }

  lemma WrittenCancelFollows(managed: bool, r: Record, e: Event)
    requires Judged(r, e) && !IsTerminal(r.state) && (e.Cancel? || e.Drain? || e.DeadlineElapses?)
    ensures FollowsPlainly(managed, r, e, Written(managed, r, e)) && Unjudged(r, e, Written(managed, r, e))
  {
    var code := if e.Drain? then SessionExpiredCode else ExecutionTimeout;
    assert Written(managed, r, e) == ToCancelling(MarkReason(r.(cancelPending := true), code)) by {
      hide ToCancelling, MarkReason;
    }
    assert ReasonGiven(r, e) == Some(code);
    hide FollowsPlainly, Unjudged, Written, ToCancelling, MarkReason, ReasonGiven;
    CancelledRecord(r, code);
    CancelReads(managed, r, e, Written(managed, r, e));
  }

  lemma FailureReads(managed: bool, r: Record, e: Event, r1: Record)
    requires Judged(r, e) && (e.TaskRaises? || e.BackendRaises?) && (e.TaskRaises? <==> !r.started)
    requires SameHold(r, r1) && r1.evidence == r.evidence && r1.output == r.output
    requires r1.cancelPending == r.cancelPending && (r1.awaiting <==> r.awaiting || (managed && r.started))
    requires r1.reason == (if r.reason.Some? then r.reason else Some(BackendFailed)) && r1.state == Cancelling
    ensures FollowsPlainly(managed, r, e, r1) && Unjudged(r, e, r1)
  {
  }

  lemma WrittenFailureFollows(managed: bool, r: Record, e: Event)
    requires Judged(r, e) && !IsTerminal(r.state) && (e.TaskRaises? || e.BackendRaises?)
    requires e.TaskRaises? <==> !r.started
    ensures FollowsPlainly(managed, r, e, Written(managed, r, e)) && Unjudged(r, e, Written(managed, r, e))
  {
    var identity := if e.BackendRaises? then e.identity else None;
    assert Written(managed, r, e)
        == Awaiting(ToCancelling(MarkReason(r.(task := Over), BackendFailed)), managed && r.started, identity) by {
      hide ToCancelling, MarkReason, Awaiting;
    }
    hide FollowsPlainly, Unjudged, Written, ToCancelling, MarkReason, Awaiting;
    FailedRecord(r, managed && r.started, identity);
    FailureReads(managed, r, e, Written(managed, r, e));
  }

  lemma WrittenProofFollows(managed: bool, r: Record, e: Event)
    requires Judged(r, e) && (e.BackendReturns? || e.StopProved?)
    ensures FollowsPlainly(managed, r, e, Written(managed, r, e)) && Unjudged(r, e, Written(managed, r, e))
  {
    if e.BackendReturns? { ReturnedRecord(r, managed, e.handle, e.claimsQuiescence, e.taken); }
    if e.StopProved? { ProvenRecord(r); }
    hide Returned, WithStopProof, Counts;
  }

  lemma WrittenFollows(managed: bool, r: Record, e: Event)
    requires Judged(r, e) && !IsTerminal(r.state) && (e.TaskRaises? ==> !r.started) && (e.BackendRaises? ==> r.started)
    ensures FollowsPlainly(managed, r, e, Written(managed, r, e)) && Unjudged(r, e, Written(managed, r, e))
  {
    hide FollowsPlainly, Unjudged, Written;
    if e.ReportOutput? || e.ReportTerminal? {
      WrittenReportFollows(managed, r, e);
    } else if e.Cancel? || e.Drain? || e.DeadlineElapses? {
      WrittenCancelFollows(managed, r, e);
    } else if e.TaskRaises? || e.BackendRaises? {
      WrittenFailureFollows(managed, r, e);
    } else {
      WrittenProofFollows(managed, r, e);
    }
  }

  lemma GrantOn(r: Record, e: Event, r1: Record, r': Record)
    requires GrantFollows(r, e, r1) && SameButVerdict(r1, r')
    ensures GrantFollows(r, e, r')
  {
    hide FenceDue;
  }

  lemma PlainlyOn(managed: bool, r: Record, e: Event, r1: Record, r': Record)
    requires FollowsPlainly(managed, r, e, r1) && SameButVerdict(r1, r')
    ensures FollowsPlainly(managed, r, e, r')
  {
    GrantOn(r, e, r1, r');
    hide GrantFollows, EvidenceDue, OutputDue, ReasonGiven;
  }

  lemma JudgedFollows(managed: bool, r: Record, e: Event)
    requires RecordOk(r) && May(r, e) && Judged(r, e)
    ensures FollowsPlainly(managed, r, e, Block(managed, r, e)) && VerdictFollows(r, e, Block(managed, r, e))
  {
    JudgedBlock(managed, r, e);
    assert r.reserved == r.started && r.error.None? && r.result.None? && !IsTerminal(r.state);
    assert (e.TaskRaises? ==> !r.started) && (e.BackendRaises? ==> r.started);
    hide Block, Evaluate, RecordOk, May, Written, FollowsPlainly, SameButVerdict, ReasonGiven;
    var r1 := Written(managed, r, e);
    WrittenFollows(managed, r, e);
    VerdictOf(r1);
    PlainlyOn(managed, r, e, r1, Evaluate(r1));
    VerdictReads(r, e, r1, Evaluate(r1));
  }

  lemma VerdictReads(r: Record, e: Event, r1: Record, r': Record)
    requires Judged(r, e) && !r.settled && SameButVerdict(r1, r') && Unjudged(r, e, r1)
    requires r.reserved == r.started == r1.started && r.error.None? && r.result.None?
    requires r'.settled <==>
               r1.evidence.Some? && (r1.cancelPending || r1.reason.Some? || (r1.output.Some? && !r1.reserved))
    requires r'.publishing <==> r1.publishing || (r1.evidence.Some? && !r'.settled && r1.output.Some?)
    requires r'.settled ==>
               && r'.state == (if r1.cancelPending then CancelledState else FailedState)
               && r'.error == Some(if r1.reason.Some? then r1.reason.value else BackendFailed)
    requires !r'.settled ==> r'.state == r1.state && r'.error == r1.error
    ensures VerdictFollows(r, e, r')
  {
    assert !EndsHere(r, e) && !e.PublishEnds?;
    hide Judged, EndsHere, ReasonGiven;
  }

  // ---- blocks without a verdict ----------------------------------------------------------------

  predicate AllFollow(managed: bool, r: Record, e: Event, r': Record) {
    FollowsPlainly(managed, r, e, r') && VerdictFollows(r, e, r')
  }

  /** A block that ends the execution on the spot. */
  lemma LocalEndReads(managed: bool, r: Record, e: Event, r': Record)
    requires EndsHere(r, e) && r.result.None? && r'.result.None?
    requires r'.evidence == Some(Evidence(r.fence, None, NotStarted))
    requires r'.settled && r'.error == Some(LocalCode(e)) && r'.publishing == r.publishing
    requires r'.state == if LocalCode(e).QueueTimeout? || LocalCode(e).SessionExpiredCode?
                            || LocalCode(e).SessionNotActiveCode? then CancelledState else FailedState
    requires r'.reason == r.reason && r'.cancelPending == r.cancelPending && r'.output == r.output
    requires r'.fence == r.fence && r'.lease == r.lease && r'.started == r.started && r'.claimed == r.claimed
    requires (r'.task == r.task || r'.task.Over?) && r'.leaseReleased == r.leaseReleased && r'.awaiting == r.awaiting
    ensures AllFollow(managed, r, e, r')
  {
    assert !Judged(r, e) && !e.PublishEnds? && !e.Claim? && !e.AdmissionRetries? && !e.Admitted? && !e.Reserves?;
    assert !e.TearDown? && !e.FreeForStop? && !e.BackendRaises? && !e.BackendReturns?;
    assert EvidenceDue(managed, r, e) == r'.evidence && OutputDue(r, e) == r.output && FenceDue(r, e) == r.fence;
    assert ReasonGiven(r, e).None?;
    hide Judged, EvidenceDue, OutputDue, FenceDue, ReasonGiven, EndsHere;
  }

  lemma EndedRecord(r: Record, code: Code)
    requires !r.settled
    ensures var r' := EndLocally(r.(task := Over), code);
            && r'.result == r.result && r'.evidence == Some(Evidence(r.fence, None, NotStarted)) && r'.settled
            && r'.error == Some(code) && r'.publishing == r.publishing
            && (r'.state == if code.QueueTimeout? || code.SessionExpiredCode? || code.SessionNotActiveCode?
                            then CancelledState else FailedState)
            && r'.reason == r.reason && r'.cancelPending == r.cancelPending && r'.output == r.output
            && r'.fence == r.fence && r'.lease == r.lease && r'.started == r.started && r'.claimed == r.claimed
            && (r'.task == r.task || r'.task.Over?) && r'.leaseReleased == r.leaseReleased && r'.awaiting == r.awaiting
  {
  }

  lemma TerminatedRecord(r: Record, code: Code)
    ensures var r' := TerminateLocal(r, code);
            && r'.result == r.result && r'.evidence == Some(Evidence(r.fence, None, NotStarted)) && r'.settled
            && r'.error == Some(code) && r'.publishing == r.publishing
            && (r'.state == if code.QueueTimeout? || code.SessionExpiredCode? || code.SessionNotActiveCode?
                            then CancelledState else FailedState)
            && r'.reason == r.reason && r'.cancelPending == r.cancelPending && r'.output == r.output
            && r'.fence == r.fence && r'.lease == r.lease && r'.started == r.started && r'.claimed == r.claimed
            && (r'.task == r.task || r'.task.Over?) && r'.leaseReleased == r.leaseReleased && r'.awaiting == r.awaiting
  {
  }

  lemma LocalEndBlock(managed: bool, r: Record, e: Event)
    requires May(r, e) && EndsHere(r, e)
    ensures Block(managed, r, e) == if e.Cancel? || e.Drain? || e.ExpireQueued? then TerminateLocal(r, QueueTimeout)
                                    else EndLocally(r.(task := Over), LocalCode(e))
  {
    BlockOf(managed, r, e);
    hide Block, TerminateLocal, EndLocally, OnEffect, May;
  }

  lemma LocalEndFollows(managed: bool, r: Record, e: Event)
    requires RecordOk(r) && May(r, e) && EndsHere(r, e)
    ensures AllFollow(managed, r, e, Block(managed, r, e))
  {
    assert r.result.None?;
    hide RecordOk, Block, AllFollow, May, TerminateLocal, EndLocally;
    LocalEndBlock(managed, r, e);
    if e.Cancel? || e.Drain? || e.ExpireQueued? {
      TerminatedRecord(r, QueueTimeout);
    } else {
      EndedRecord(r, LocalCode(e));
    }
    LocalEndReads(managed, r, e, Block(managed, r, e));
  }

  /** The view and the verdict as they were, up to the start of the computation. */
  predicate StandsAs(r: Record, r': Record) {
    && r'.settled == r.settled && r'.publishing == r.publishing && r'.error == r.error && r'.result == r.result
    && r'.evidence == r.evidence && r'.reason == r.reason && r'.cancelPending == r.cancelPending
    && r'.awaiting == r.awaiting && r'.state == if r'.started && !r.started then Running else r.state
  }

  lemma QuietReads(managed: bool, r: Record, e: Event, r': Record)
    requires !EndsHere(r, e) && !Judged(r, e) && !e.PublishEnds? && !e.CutCancel?
    requires !r.settled ==> r.error.None? && r.result.None?
    requires r.settled ==> r.evidence.Some?
    requires StandsAs(r, r') && r'.output == OutputDue(r, e) && GrantFollows(r, e, r')
    ensures AllFollow(managed, r, e, r')
  {
    assert ReasonGiven(r, e).None? && r.evidence == EvidenceDue(managed, r, e);
    assert !(e.BackendRaises? && !r.settled) && !(e.BackendReturns? && !r.settled);
    hide EndsHere, Judged, ReasonGiven, EvidenceDue, OutputDue, GrantFollows;
  }

  lemma OnTheWayFollows(managed: bool, r: Record, e: Event)
    requires May(r, e) && (e.Claim? || e.InputOpens? || e.AdmissionRetries? || e.GuardPasses? || e.Admitted?)
    ensures var r' := OnDispatch(managed, r, e);
            StandsAs(r, r') && r'.output == r.output && GrantFollows(r, e, r')
  {
    hide TerminateLocal, Evaluate, EndLocally, Uncertain, AfterReserve, Idle;
  }

  lemma ReserveFollows(managed: bool, r: Record, e: Event)
    requires RecordOk(r) && May(r, e) && e.Reserves?
    ensures var r' := OnDispatch(managed, r, e);
            StandsAs(r, r') && r'.output == r.output && GrantFollows(r, e, r')
  {
    assert !r.started && (!r.settled ==> !IsTerminal(r.state));
    hide RecordOk, TerminateLocal, Evaluate, EndLocally, Uncertain, Idle;
  }

  lemma SettledDispatchFollows(managed: bool, r: Record, e: Event)
    requires May(r, e) && r.settled && (e.TaskRaises? || e.GuardRefuses? || e.InputFails? || e.AdmissionFails?)
    ensures var r' := OnDispatch(managed, r, e);
            StandsAs(r, r') && r'.output == r.output && GrantFollows(r, e, r')
  {
    hide TerminateLocal, Evaluate;
  }

  lemma SettledBackendFollows(managed: bool, r: Record, e: Event)
    requires r.settled && IsBackendEvent(e)
    ensures var r' := OnBackend(managed, r, e);
            StandsAs(r, r') && r'.output == r.output && GrantFollows(r, e, r')
  {
    hide TerminateLocal, Evaluate;
  }

  lemma EffectFollows(r: Record, e: Event)
    requires IsEffectEvent(e) && !e.PublishEnds? && !Judged(r, e)
    ensures StandsAs(r, OnEffect(r, e)) && OnEffect(r, e).output == r.output && GrantFollows(r, e, OnEffect(r, e))
  {
    hide Evaluate, WithStopProof, DoPublishEnd;
  }

  /** What a client's call leaves when it settles nothing: an output thrown away, or nothing at all. */
  lemma RefusedClientFollows(r: Record, e: Event)
    requires r.fence.execution.Some? && !EndsHere(r, e) && !Judged(r, e)
    requires e.Cancel? || e.Drain? || e.ReportOutput? || e.ReportTerminal?
    requires r.settled ==> r.evidence.Some?
    ensures OnClient(r, e) == r || (e.ReportOutput? && OnClient(r, e) == r.(output := None))
    ensures OnClient(r, e).output == OutputDue(r, e)
  {
    if e.ReportTerminal? { AcceptedIff(r.fence, e.evidence.fence); }
    hide Evaluate, TerminateLocal, CancelWith, WithTerminal, Protocol.Accepts, OfThisAttempt;
  }

  lemma ThrownAway(r: Record, e: Event)
    requires e.Cancel? || e.Drain? || e.ReportOutput? || e.ReportTerminal?
    ensures StandsAs(r, r) && GrantFollows(r, e, r)
    ensures StandsAs(r, r.(output := None)) && GrantFollows(r, e, r.(output := None))
  {
  }

  lemma CutRecord(r: Record, code: Code)
    requires !IsTerminal(r.state)
    ensures var r' := DoCutCancel(r, code);
            && SameHold(r, r') && r'.evidence == r.evidence && r'.output == r.output && r'.awaiting == r.awaiting
            && r'.cancelPending && r'.reason == (if r.reason.Some? then r.reason else Some(code))
            && r'.state == Cancelling
  {
  }

  lemma CutReads(managed: bool, r: Record, e: Event, r': Record)
    requires e.CutCancel? && !r.settled && r.error.None? && r.result.None?
    requires SameHold(r, r') && r'.evidence == r.evidence && r'.output == r.output && r'.awaiting == r.awaiting
    requires r'.cancelPending && r'.reason == (if r.reason.Some? then r.reason else Some(e.code))
    requires r'.state == Cancelling
    ensures AllFollow(managed, r, e, r')
  {
  }

  lemma CutFollows(managed: bool, r: Record, e: Event)
    requires e.CutCancel? && !r.settled && !IsTerminal(r.state) && r.error.None? && r.result.None?
    ensures AllFollow(managed, r, e, OnClient(r, e))
  {
    hide AllFollow, DoCutCancel, IsTerminal;
    CutRecord(r, e.code);
    CutReads(managed, r, e, OnClient(r, e));
  }

  lemma PublishEndRecord(r: Record, outcome: PublishOutcome)
    ensures var r' := DoPublishEnd(r, outcome);
            && r'.evidence == r.evidence && r'.reason == r.reason && r'.awaiting == r.awaiting && r'.output.None?
            && r'.fence == r.fence && r'.lease == r.lease && r'.started == r.started && r'.claimed == r.claimed
            && (r'.task == r.task || r'.task.Over?) && r'.leaseReleased == r.leaseReleased
            && r'.settled && !r'.publishing
            && (r'.cancelPending <==> r.cancelPending || (!r.settled && outcome.PublishCancelled?))
            && (r.settled ==> r'.state == r.state && r'.error == r.error && r'.result == r.result)
    ensures var r' := DoPublishEnd(r, outcome);
            !r.settled && r.error.None? && r.result.None? ==>
              && r'.result == (if outcome.PublishedAs? then Some(outcome.ref) else None)
              && r'.state == (if outcome.PublishedAs? then Succeeded
                              else if outcome.PublishCancelled? then CancelledState else FailedState)
              && r'.error == (if outcome.PublishedAs? then None
                              else if outcome.PublishCancelled? then Some(ExecutionTimeout) else Some(outcome.code))
  {
  }

  lemma PublishEndReads(managed: bool, r: Record, e: Event, r': Record)
    requires e.PublishEnds? && (!r.settled ==> r.error.None? && r.result.None?) && (r.settled ==> r.evidence.Some?)
    requires r' == DoPublishEnd(r, e.outcome)
    ensures AllFollow(managed, r, e, r')
  {
    PublishEndRecord(r, e.outcome);
    assert !EndsHere(r, e) && !Judged(r, e) && r.evidence == EvidenceDue(managed, r, e);
    assert r.evidence.None? ==> !r.settled;
    hide DoPublishEnd, EvidenceDue, EndsHere, Judged;
  }

  lemma UnjudgedDispatchFollows(managed: bool, r: Record, e: Event)
    requires RecordOk(r) && May(r, e) && IsDispatchEvent(e) && !EndsHere(r, e) && !Judged(r, e)
    ensures AllFollow(managed, r, e, OnDispatch(managed, r, e))
  {
    assert (!r.settled ==> r.error.None? && r.result.None?) && (r.settled ==> r.evidence.Some?);
    hide OnDispatch, StandsAs, GrantFollows, AllFollow;
    if e.Claim? || e.InputOpens? || e.AdmissionRetries? || e.GuardPasses? || e.Admitted? {
      OnTheWayFollows(managed, r, e);
    } else if e.Reserves? {
      ReserveFollows(managed, r, e);
    } else {
      assert r.settled;
      SettledDispatchFollows(managed, r, e);
    }
    hide RecordOk, May;
    QuietReads(managed, r, e, OnDispatch(managed, r, e));
  }

  lemma UnjudgedOtherFollows(managed: bool, r: Record, e: Event)
    requires RecordOk(r) && May(r, e) && !IsDispatchEvent(e) && !EndsHere(r, e) && !Judged(r, e)
    ensures AllFollow(managed, r, e, Block(managed, r, e))
  {
    assert (!r.settled ==> r.error.None? && r.result.None?) && (r.settled ==> r.evidence.Some?);
    assert r.fence.execution.Some? && (!r.settled ==> !IsTerminal(r.state));
    assert e.CutCancel? ==> !r.settled;
    BlockOf(managed, r, e);
    hide Block, OnClient, OnEffect, OnBackend, StandsAs, GrantFollows, AllFollow, RecordOk, May, IsTerminal;
    if IsBackendEvent(e) {
      assert r.settled;
      SettledBackendFollows(managed, r, e);
      QuietReads(managed, r, e, Block(managed, r, e));
    } else if e.CutCancel? {
      CutFollows(managed, r, e);
    } else if IsEffectEvent(e) {
      UnjudgedEffectFollows(managed, r, e);
    } else {
      RefusedClientFollows(r, e);
      ThrownAway(r, e);
      QuietReads(managed, r, e, Block(managed, r, e));
    }
  }

  lemma UnjudgedEffectFollows(managed: bool, r: Record, e: Event)
    requires IsEffectEvent(e) && !Judged(r, e)
    requires (!r.settled ==> r.error.None? && r.result.None?) && (r.settled ==> r.evidence.Some?)
    ensures AllFollow(managed, r, e, OnEffect(r, e))
  {
    if e.PublishEnds? {
      hide AllFollow, DoPublishEnd;
      PublishEndReads(managed, r, e, OnEffect(r, e));
    } else {
      hide OnEffect, AllFollow, StandsAs, GrantFollows;
      EffectFollows(r, e);
      QuietReads(managed, r, e, OnEffect(r, e));
    }
  }

  /** Every block, on the fields: what it does to the evidence, to the reason and the cancel, to the
      output, to fence, lease, claim and start, to the wait for a stop, and to the verdict. */
  lemma BlockFollows(managed: bool, r: Record, e: Event)
    requires RecordOk(r) && May(r, e)
    ensures AllFollow(managed, r, e, Block(managed, r, e))
  {
    hide AllFollow, FollowsPlainly, VerdictFollows, Block, RecordOk, May;
    if EndsHere(r, e) {
      LocalEndFollows(managed, r, e);
    } else if Judged(r, e) {
      JudgedFollows(managed, r, e);
      BothFollow(managed, r, e, Block(managed, r, e));
    } else if IsDispatchEvent(e) {
      UnjudgedDispatchFollows(managed, r, e);
      BlockOf(managed, r, e);
    } else {
      UnjudgedOtherFollows(managed, r, e);
    }
  }

  lemma BothFollow(managed: bool, r: Record, e: Event, r': Record)
    requires FollowsPlainly(managed, r, e, r') && VerdictFollows(r, e, r')
    ensures AllFollow(managed, r, e, r')
  {
    hide FollowsPlainly, VerdictFollows;
  }

  // ---- where the task stands, and which instance it knows ------------------------------------------

  /** Where the execution's own task goes next. */
  function TaskDue(r: Record, e: Event): (t: Task) {
    match e
    case Claim => Guarding
    case GuardPasses(_) => if r.settled then Over else Opening
    case InputOpens => Admitting
    case AdmissionRetries => NoTask
    case Admitted(lease) => if r.settled then Over else Reserving(FenceDue(r, e))
    case Reserves => if !r.settled && r.task == Reserving(r.fence) then Executing else Over
    case GuardRefuses(_) => Over
    case InputFails(_) => Over
    case AdmissionFails(_) => Over
    case TaskRaises => Over
    case BackendRefuses(_) => Over
    case BackendRaises(_) => Over
    case BackendReturns(_, _, _) => Over
    case _ => r.task
  }

  /** The instance on record: the one a response or a report that counts names, or the one a stop was proven
      for; and the one to look for after a broken stream, if none is on record. */
  predicate KnowsSo(managed: bool, r: Record, e: Event, r': Record) {
    && r'.task == TaskDue(r, e)
    && r'.instance == (if e.BackendReturns? && !r.settled then Some(e.handle)
                       else if e.ReportTerminal? && Counts(r, e.evidence) && e.evidence.instance.Some?
                       then e.evidence.instance
                       else if e.StopProved? && Judged(r, e) && !r.dispatched then Stopped(r)
                       else r.instance)
    && (r'.dispatched <==>
          || r.dispatched || (e.BackendReturns? && !r.settled) || (e.StopProved? && Judged(r, e))
          || (e.ReportTerminal? && Counts(r, e.evidence) && e.evidence.instance.Some?))
    && r'.expected == (if e.BackendRaises? && !r.settled && managed && r.instance.None? then e.identity else r.expected)
  }

  lemma WrittenKnows(managed: bool, r: Record, e: Event)
    requires Judged(r, e) && (e.TaskRaises? ==> !r.started) && (e.BackendRaises? ==> r.started)
    requires r.settled ==> r.evidence.Some?
    ensures KnowsSo(managed, r, e, Written(managed, r, e))
  {
    if e.Cancel? || e.Drain? || e.DeadlineElapses? {
      CancelKnows(r, ExecutionTimeout);
      CancelKnows(r, SessionExpiredCode);
      hide ToCancelling, MarkReason;
    } else if e.TaskRaises? || e.BackendRaises? {
      FailureKnows(r, managed && r.started, if e.BackendRaises? then e.identity else None);
      hide ToCancelling, MarkReason, Awaiting;
    } else {
      hide OfThisAttempt;
    }
  }

  lemma CancelKnows(r: Record, code: Code)
    ensures var r1 := ToCancelling(MarkReason(r.(cancelPending := true), code));
            r1.task == r.task && r1.instance == r.instance && r1.dispatched == r.dispatched && r1.expected == r.expected
  {
  }

  lemma FailureKnows(r: Record, waits: bool, identity: Option<Instance>)
    ensures var r1 := Awaiting(ToCancelling(MarkReason(r.(task := Over), BackendFailed)), waits, identity);
            && r1.task == Over && r1.instance == r.instance && r1.dispatched == r.dispatched
            && r1.expected == if waits && r.instance.None? then identity else r.expected
  {
  }

  lemma LocalEndKnows(managed: bool, r: Record, e: Event)
    requires May(r, e) && EndsHere(r, e)
    ensures KnowsSo(managed, r, e, Block(managed, r, e))
  {
    LocalEndBlock(managed, r, e);
    hide Block, May, Counts;
  }

  lemma DispatchKnows(managed: bool, r: Record, e: Event)
    requires May(r, e) && IsDispatchEvent(e) && !EndsHere(r, e) && !Judged(r, e)
    ensures KnowsSo(managed, r, e, OnDispatch(managed, r, e))
  {
    hide TerminateLocal, Evaluate, Counts;
  }

  lemma BackendKnows(managed: bool, r: Record, e: Event)
    requires IsBackendEvent(e) && r.settled
    ensures KnowsSo(managed, r, e, OnBackend(managed, r, e))
  {
    hide TerminateLocal, Evaluate, Counts;
  }

  lemma EffectKnows(managed: bool, r: Record, e: Event)
    requires IsEffectEvent(e) && !Judged(r, e)
    ensures KnowsSo(managed, r, e, OnEffect(r, e))
  {
    hide Evaluate, WithStopProof, Counts;
  }

  lemma ClientKnows(managed: bool, r: Record, e: Event)
    requires r.fence.execution.Some? && !EndsHere(r, e) && !Judged(r, e) && (r.settled ==> r.evidence.Some?)
    requires e.Cancel? || e.CutCancel? || e.Drain? || e.ReportOutput? || e.ReportTerminal?
    ensures KnowsSo(managed, r, e, OnClient(r, e))
  {
    if e.CutCancel? {
      hide Counts;
    } else {
      RefusedClientFollows(r, e);
      assert e.ReportTerminal? ==> !Counts(r, e.evidence);
      hide OnClient, Counts, Judged;
    }
  }

  lemma BlockKnows(managed: bool, r: Record, e: Event)
    requires RecordOk(r) && May(r, e)
    ensures KnowsSo(managed, r, e, Block(managed, r, e))
  {
    assert r.fence.execution.Some? && (r.settled ==> r.evidence.Some?);
    assert (e.TaskRaises? ==> !r.started) && (e.BackendRaises? ==> r.started);
    BlockOf(managed, r, e);
    hide OnDispatch, OnBackend, OnEffect, OnClient, Block, KnowsSo;
    if EndsHere(r, e) {
      LocalEndKnows(managed, r, e);
    } else if Judged(r, e) {
      JudgedBlock(managed, r, e);
      hide RecordOk, May, Written, Evaluate, SameButVerdict, Judged;
      WrittenKnows(managed, r, e);
      EvaluateSpares(Written(managed, r, e));
      KnowsOn(managed, r, e, Written(managed, r, e), Evaluate(Written(managed, r, e)));
    } else if IsDispatchEvent(e) {
      DispatchKnows(managed, r, e);
    } else if IsBackendEvent(e) {
      assert r.settled;
      BackendKnows(managed, r, e);
    } else if IsEffectEvent(e) {
      EffectKnows(managed, r, e);
    } else {
      ClientKnows(managed, r, e);
    }
  }

  lemma KnowsOn(managed: bool, r: Record, e: Event, r1: Record, r': Record)
    requires KnowsSo(managed, r, e, r1) && SameButVerdict(r1, r')
    ensures KnowsSo(managed, r, e, r')
  {
    hide Counts, Judged, TaskDue;
  }

  // ---- every run ---------------------------------------------------------------------------------

  /** The block a move runs on this execution's record, if it runs one. */
  function EventOf(mv: Move, x: ExecutionId): (e: Option<Event>) {
    match mv
    case On(y, e) => if x == y then Some(e) else None
    case FreeLease(_, y) => if x == y then Some(FreeForStop) else None
    case SettleOne(_, y) => if x == y then Some(StopProved) else None
    case _ => None
  }

  predicate MovesSo(s: Service, mv: Move, s': Service, x: ExecutionId)
    requires x in s.records
  {
    && x in s'.records
    && match EventOf(mv, x)
       case None => s'.records[x] == s.records[x]
       case Some(e) =>
         && May(s.records[x], e) && AllFollow(s.managed, s.records[x], e, s'.records[x])
         && KnowsSo(s.managed, s.records[x], e, s'.records[x])
  }

  /** Every step of every run answers so. */
  lemma ExecutionsAnswer(ss: seq<Service>, ms: seq<Move>, i: nat, x: ExecutionId)
    requires IsServiceRun(ss, ms) && Fresh(ss[0]) && i < |ms| && x in ss[i].records
    ensures MovesSo(ss[i], ms[i], ss[i + 1], x)
  {
    hide Do, Allowed, RecordOk, MovesSo, Fresh;
    RunKeepsRecords(ss, ms, i);
    assert RecordSafe(ss[i], x);
    assert Moves(ss[i], ms[i], ss[i + 1]);
    MoveAnswers(ss[i], ms[i], x);
  }

  lemma MoveAnswers(s: Service, mv: Move, x: ExecutionId)
    requires Allowed(s, mv) && x in s.records && RecordOk(s.records[x])
    ensures MovesSo(s, mv, Do(s, mv), x)
  {
    hide RecordOk, AllFollow, KnowsSo, Block, May, Next, Apply, FreshCall;
    if EventOf(mv, x).Some? {
      assert May(s.records[x], EventOf(mv, x).value);
      BlockFollows(s.managed, s.records[x], EventOf(mv, x).value);
      BlockKnows(s.managed, s.records[x], EventOf(mv, x).value);
    }
  }

  /** This move stores this report as the execution's evidence. */
  predicate StoresReport(s: Service, mv: Move, x: ExecutionId, v: Evidence) {
    x in s.records && mv == On(x, ReportTerminal(v)) && Counts(s.records[x], v)
  }

  /** No late write-back gets in: in every run, whatever was reported as an execution's end and is on
      record matched the execution's fence, attempt included, at the moment it was stored. */
  lemma {:induction false} ReportsMatched(ss: seq<Service>, ms: seq<Move>, i: nat, x: ExecutionId)
    requires IsServiceRun(ss, ms) && Fresh(ss[0]) && i < |ss| && x in ss[i].records
    requires ss[i].records[x].evidence.Some? && ss[i].records[x].evidence.value.proof.Reported?
    ensures exists k :: 0 <= k < i && StoresReport(ss[k], ms[k], x, ss[i].records[x].evidence.value)
  {
    hide Do, Allowed, Fresh, StoresReport, MovesSo;
    if i == 0 {
      assert false by { NothingYet(ss, ms, x); }
    } else {
      var j := i - 1;
      assert Moves(ss[j], ms[j], ss[i]);
      if x in ss[j].records {
        ExecutionsAnswer(ss, ms, j, x);
        EvidenceStays(ss[j], ms[j], ss[i], x);
        if !StoresReport(ss[j], ms[j], x, ss[i].records[x].evidence.value) { ReportsMatched(ss, ms, j, x); }
      } else {
        assert false by { SubmittedBare(ss[j], ms[j], x); }
      }
    }
  }

  lemma EvidenceStays(s: Service, mv: Move, s': Service, x: ExecutionId)
    requires x in s.records && MovesSo(s, mv, s', x)
    requires s'.records[x].evidence.Some? && s'.records[x].evidence.value.proof.Reported?
    ensures s'.records[x].evidence == s.records[x].evidence || StoresReport(s, mv, x, s'.records[x].evidence.value)
  {
    hide VerdictFollows, ReasonFollows, GrantFollows, WaitFollows, OutputDue, Counts, KnowsSo;
  }

  lemma SubmittedBare(s: Service, mv: Move, x: ExecutionId)
    requires Allowed(s, mv) && x !in s.records && x in Do(s, mv).records
    ensures Do(s, mv).records[x].evidence.None? && !Do(s, mv).records[x].started
    ensures !Do(s, mv).records[x].task.Reserving?
  {
    hide Block, May, Next, Apply, FreshCall;
  }

  /** The lease a computation runs under is of the generation its fence names. */
  predicate UnderItsLease(r: Record) {
    && (r.task.Reserving? ==> r.task == Reserving(r.fence))
    && (r.task.Reserving? || r.started ==> r.lease.Some? && r.lease.value.generation == r.fence.generation)
  }

  /** In every run a computation is only started under a recorded lease, and from then on its fence
      names the generation of that lease: so a report that matches the fence is about that load of
      the model. */
  lemma {:induction false} StartedUnderItsLease(ss: seq<Service>, ms: seq<Move>, i: nat, x: ExecutionId)
    requires IsServiceRun(ss, ms) && Fresh(ss[0]) && i < |ss| && x in ss[i].records
    ensures UnderItsLease(ss[i].records[x])
  {
    hide Do, Allowed, Fresh, MovesSo, UnderItsLease, RecordOk;
    if i == 0 {
      assert false by { NothingYet(ss, ms, x); }
    } else {
      var j := i - 1;
      assert Moves(ss[j], ms[j], ss[i]);
      if x in ss[j].records {
        StartedUnderItsLease(ss, ms, j, x);
        RunKeepsRecords(ss, ms, j);
        assert RecordSafe(ss[j], x);
        ExecutionsAnswer(ss, ms, j, x);
        LeaseStays(ss[j], ms[j], ss[i], x);
      } else {
        SubmittedBare(ss[j], ms[j], x);
        BareIsFine(ss[i].records[x]);
      }
    }
  }

  lemma BareIsFine(r: Record)
    requires !r.started && !r.task.Reserving?
    ensures UnderItsLease(r)
  {
  }

  lemma LeaseStays(s: Service, mv: Move, s': Service, x: ExecutionId)
    requires x in s.records && MovesSo(s, mv, s', x) && RecordOk(s.records[x]) && UnderItsLease(s.records[x])
    ensures UnderItsLease(s'.records[x])
  {
    var r := s.records[x];
    assert r.started ==> !r.task.Guarding? && !r.task.Admitting?;
    hide RecordOk, VerdictFollows, ReasonFollows, WaitFollows, OutputDue, EvidenceDue, KnowsSo;
  }

  /** What is being published stays what it is: while a publisher is at work nothing replaces the
      output it was started for, unless a cancel throws it away. */
  lemma {:induction false} OutputIsKept(ss: seq<Service>, ms: seq<Move>, i: nat, j: nat, x: ExecutionId)
    requires IsServiceRun(ss, ms) && Fresh(ss[0]) && i <= j < |ss| && x in ss[i].records
    requires forall k :: i <= k <= j && x in ss[k].records ==> ss[k].records[x].publishing
    ensures x in ss[j].records
    ensures ss[j].records[x].output == ss[i].records[x].output || ss[j].records[x].cancelPending
    decreases j
  {
    hide Do, Allowed, Fresh, MovesSo;
    if i < j {
      OutputIsKept(ss, ms, i, j - 1, x);
      ExecutionsAnswer(ss, ms, j - 1, x);
      OutputStays(ss[j - 1], ms[j - 1], ss[j], x);
    }
  }

  lemma OutputStays(s: Service, mv: Move, s': Service, x: ExecutionId)
    requires x in s.records && MovesSo(s, mv, s', x)
    ensures x in s'.records && (s.records[x].cancelPending ==> s'.records[x].cancelPending)
    ensures s.records[x].publishing && s'.records[x].publishing ==>
              s'.records[x].output == s.records[x].output || s'.records[x].cancelPending
  {
    hide GrantFollows, WaitFollows, EvidenceDue, ReasonGiven, Judged, EndsHere, KnowsSo;
  }

  // ---- the quiescer's scan -----------------------------------------------------------------------

  /** The execution may still touch the model's instance. */
  predicate Busy(s: Service, m: ModelId, x: ExecutionId) {
    && x in s.records && s.records[x].modelId == m && !s.records[x].settled && !s.records[x].awaiting
    && (s.records[x].started || s.records[x].claimed || s.records[x].lease.Some?)
  }

  /** It was dispatched, its response has ended, and it waits for the proof of a stop. */
  predicate Ended(s: Service, m: ModelId, x: ExecutionId) {
    && x in s.records && s.records[x].modelId == m && !s.records[x].settled
    && s.records[x].started && s.records[x].awaiting
  }

  /** A scan keeps dispatch to the model frozen if and only if somebody is busy on it or waits for the proof;
      it takes up exactly those who wait, and only once nobody is busy; and with nobody left it ends and
      dispatch resumes. No record, no other model and no other quiescer is touched. */
  lemma ScanAnswers(s: Service, m: ModelId)
    requires m in s.quiescers && s.quiescers[m].Scanning?
    ensures var s' := Do(s, Scan(m));
            && (m in s'.quiescing <==> (exists x :: Busy(s, m, x)) || (exists x :: Ended(s, m, x)))
            && (m in s'.quiescers <==> (exists x :: Busy(s, m, x)) || (exists x :: Ended(s, m, x)))
            && (m in s'.quiescers && s'.quiescers[m].Releasing? <==>
                  !(exists x :: Busy(s, m, x)) && (exists x :: Ended(s, m, x)))
            && (m in s'.quiescers && s'.quiescers[m].Releasing? ==>
                  forall x :: x in s'.quiescers[m].todo <==> Ended(s, m, x))
            && s'.records == s.records && s'.world == s.world
            && (forall k :: k != m ==> (k in s'.quiescing <==> k in s.quiescing))
            && (forall k :: k != m && k in s.quiescers ==> k in s'.quiescers && s'.quiescers[k] == s.quiescers[k])
  {
    var todo := Batch(s, m);
    assert forall x :: x in todo <==> Ended(s, m, x);
    assert SomeoneInFlight(s, m) <==> exists x :: Busy(s, m, x) by {
      if SomeoneInFlight(s, m) {
        var x :| x in s.records && s.records[x].modelId == m && InFlight(s.records[x]);
        assert Busy(s, m, x);
      }
      if x :| Busy(s, m, x) { assert InFlight(s.records[x]); }
    }
    hide Busy, Ended, SomeoneInFlight, Batch;
  }
}
