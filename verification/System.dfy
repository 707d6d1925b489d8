/** One payment as a transition system: each command is one atomic call on the repository. */
module System {
  import opened Wrappers
  import opened Records
  import opened StateEngine
  import opened Rules
  import opened Resolution

  datatype State = State(facts: PaymentFacts, operations: seq<OperationRecord>, replay: seq<ReplayRecord>)

  datatype Command =
    | Observe(update: Option<Update>)
    | Reserve(intent: Intent)
    | Claim(claimedId: string, expectedAttempt: int, now: Time, retryUntil: Option<Time>, scope: Option<string>)
    | RecordOutcome(recordedId: string, outcome: Outcome, responseAttempt: Option<int>)
    | RecordFailure(failedId: string, evidence: RecoveryEvidence)
    | Resolve(resolvedId: string, decision: Decision, expectedOperation: OperationRecord, expectedFacts: PaymentFacts)

  /** The state that commits a plan's operations and facts together. */
  function Committed(s: State, facts: PaymentFacts, changes: seq<OperationRecord>): State {
    s.(facts := facts, operations := Replaced(s.operations, changes))
  }

  function StepObserve(s: State, update: Option<Update>): Result<State, Error> {
    var plan :- PlanObservation(s.facts, s.replay, update, s.operations);
    Ok(Committed(s, plan.facts, plan.operations).(
         replay := if plan.replayRecord.Some? then s.replay + [plan.replayRecord.value] else s.replay))
  }

  function StepReserve(s: State, intent: Intent): Result<State, Error> {
    var plan :- PlanReservation(s.facts, s.operations, intent);
    Ok(s.(facts := plan.facts, operations := if plan.created then s.operations + [plan.operation] else s.operations))
  }

  function StepClaim(s: State, id: string, expectedAttempt: int, now: Time, retryUntil: Option<Time>,
                     scope: Option<string>): Result<State, Error>
  {
    var index := IndexOf(s.operations, id);
    if index.None? then Err(OperationConflict)
    else
      var plan :- PlanSubmission(s.facts, s.operations[index.value], expectedAttempt, now, retryUntil, scope);
      Ok(s.(operations := s.operations[index.value := plan.operation]))
  }

  function StepOutcome(s: State, id: string, o: Outcome, responseAttempt: Option<int>): Result<State, Error> {
    var index := IndexOf(s.operations, id);
    if index.None? then Err(OperationConflict)
    else
      var plan :- PlanOutcome(s.facts, s.operations[index.value], o, s.operations, responseAttempt);
      Ok(Committed(s, plan.facts, [plan.operation] + plan.relatedOperations))
  }

  function StepFailure(s: State, id: string, evidence: RecoveryEvidence): Result<State, Error> {
    var index := IndexOf(s.operations, id);
    if index.None? then Err(OperationConflict)
    else Ok(s.(operations := s.operations[index.value := PlanFailure(s.operations[index.value], evidence)]))
  }

  function StepResolve(s: State, id: string, d: Decision, expectedOperation: OperationRecord,
                       expectedFacts: PaymentFacts): Result<State, Error>
  {
    var index := IndexOf(s.operations, id);
    if index.None? then Err(OperationConflict)
    else
      var plan :- PlanResolution(s.facts, s.operations[index.value], d, expectedFacts, expectedOperation, s.operations);
      Ok(Committed(s, plan.facts, [plan.operation] + plan.relatedOperations))
  }

  /** One atomic call. An error commits nothing. */
  function Step(s: State, c: Command): Result<State, Error> {
    match c
    case Observe(update) => StepObserve(s, update)
    case Reserve(intent) => StepReserve(s, intent)
    case Claim(id, attempt, now, until, scope) => StepClaim(s, id, attempt, now, until, scope)
    case RecordOutcome(id, o, attempt) => StepOutcome(s, id, o, attempt)
    case RecordFailure(id, evidence) => StepFailure(s, id, evidence)
    case Resolve(id, d, op, facts) => StepResolve(s, id, d, op, facts)
  }

  /** The state after a call, whether or not it was accepted. */
  function After(s: State, c: Command): State {
    match Step(s, c)
    case Ok(t) => t
    case Err(_) => s
  }

  /** The state after any sequence of calls, in any order callers happen to make them. */
  function Run(s: State, commands: seq<Command>): State {
    if commands == [] then s
    else After(Run(s, commands[..|commands| - 1]), commands[|commands| - 1])
  }

  /** A payment before any intent was reserved. */
  ghost predicate Initial(s: State) {
    s.operations == [] && FactsBounded(s.facts)
  }
}
