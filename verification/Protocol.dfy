/** Fences and write-back decisions of model_scheduler/control_protocol_v1.py. */
module Protocol {
  import opened Prelude
  import opened BookModel

  datatype BootId = BootId(n: nat)
  datatype ExecutionId = ExecutionId(n: nat)

  datatype Fence = Fence(
    boot: BootId,
    modelId: ModelId,
    generation: nat,
    operation: Uuid,
    execution: Option<ExecutionId>,
    attempt: Option<nat>)

  datatype Rejection =
    | StaleBoot
    | ForeignModel
    | StaleGeneration
    | StaleOperationId
    | ForeignExecution
    | AttemptMismatch
    | StaleAttempt

  /** `None` accepts; the first failing check names the rejection. */
  function Writeback(current: Fence, incoming: Fence): (why: Option<Rejection>) {
    if incoming.boot != current.boot then Some(StaleBoot)
    else if incoming.modelId != current.modelId then Some(ForeignModel)
    else if incoming.generation != current.generation then Some(StaleGeneration)
    else if incoming.operation != current.operation then Some(StaleOperationId)
    else if current.execution.Some? && incoming.execution != current.execution then Some(ForeignExecution)
    else if current.attempt.None? != incoming.attempt.None? then Some(AttemptMismatch)
    else if current.attempt.Some? && incoming.attempt.value < current.attempt.value then Some(StaleAttempt)
    else None
  }

  predicate Accepts(current: Fence, incoming: Fence) {
    Writeback(current, incoming).None?
  }

  /** Accepting is an order on the fences of one execution: reflexive, transitive, and two fences
      that accept each other are the same fence. So a late write-back from a superseded boot,
      load, operation or attempt never gets in, however many fences lie between. */
  lemma AcceptanceIsAnOrder(f: Fence, g: Fence, k: Fence)
    ensures Accepts(f, f)
    ensures Accepts(f, g) && Accepts(g, k) ==> Accepts(f, k)
    ensures f.execution.Some? && Accepts(f, g) && Accepts(g, f) ==> f == g
  {
  }
}
