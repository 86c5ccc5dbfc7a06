/** The execution lifecycle and the session bookkeeping of the agents service.
    The repositories are fields of the service: the active workflows by id, the
    sessions by their `sessionId`, and the execution repository as the list of
    every record it was asked to save, in order. Ids and clock readings are
    parameters. */
module AgentsService {
  import opened Common
  import GraphEngine

  datatype ExecutionStatus = Pending | Running | Completed | Failed | Cancelled

  /** A workflow execution record; `errorMessage` is `errorDetails.message`, and
      `executionTrace` is `None` while the property is undefined. */
  datatype Execution = Execution(
    id: string,
    workflowId: string,
    sessionId: string,
    inputs: Record,
    status: ExecutionStatus,
    outputs: Record,
    executionTrace: Option<seq<GraphEngine.TraceEntry>>,
    errorMessage: Option<string>)

  /** A stored workflow; `definition` is the definition object the planner generated. */
  datatype WorkflowRecord = WorkflowRecord(id: string, name: string, definition: Value, isActive: bool)

  datatype Session = Session(
    sessionId: string,
    userId: string,
    context: Record,
    history: seq<Value>,
    isActive: bool,
    updatedAt: nat)

  // ---------------------------------------------------------------------------
  // The execution lifecycle

  /** The moves the service makes on a record's status. */
  predicate Moves(from: ExecutionStatus, to: ExecutionStatus) {
    || (from == Pending && to == Running)
    || (from == Pending && to == Failed)
    || (from == Running && to == Completed)
    || (from == Running && to == Failed)
  }

  predicate Terminal(s: ExecutionStatus) {
    s == Completed || s == Failed
  }

  /** A record's saved statuses: PENDING first, each step a move, ending in COMPLETED or FAILED. */
  predicate IsLifecycle(ss: seq<ExecutionStatus>) {
    && |ss| >= 2
    && ss[0] == Pending
    && (forall i :: 0 <= i < |ss| - 1 ==> Moves(ss[i], ss[i + 1]))
    && Terminal(ss[|ss| - 1])
  }

  function Statuses(saves: seq<Execution>): (ss: seq<ExecutionStatus>)
    ensures |ss| == |saves|
    ensures forall i :: 0 <= i < |saves| ==> ss[i] == saves[i].status
  {
    if saves == [] then [] else Statuses(saves[..|saves| - 1]) + [saves[|saves| - 1].status]
  }

  function NotFoundMessage(workflowId: string): string {
    "Workflow with ID " + workflowId + " not found"
  }

  /** The engine run `executeWorkflow` starts: the general workflow, called with the stored
      definition in its `operation` argument and the execution's inputs as its `data`. */
  function EngineRun(definition: Value, inputs: Record, now: nat, validateEnv: GraphEngine.StepEnv,
                     actionEnv: GraphEngine.StepEnv)
    : Result<GraphEngine.WorkflowState, string>
  {
    GraphEngine.ExecuteWorkflow(definition, Obj(inputs), now, validateEnv, actionEnv)
  }

  /** The engine as the service calls it, with the clock and the tools' faults fixed. */
  function Engine(now: nat, validateEnv: GraphEngine.StepEnv, actionEnv: GraphEngine.StepEnv)
    : (Value, Record) -> Result<GraphEngine.WorkflowState, string>
  {
    (definition, inputs) => EngineRun(definition, inputs, now, validateEnv, actionEnv)
  }

  /** The snapshots `executeWorkflow` saves, given whether the workflow was found and
      what the engine returned.  The completed record copies `result.trace`, a property the
      engine's state does not have, so its trace stays undefined. */
  function ExecutionRun(id: string, workflowId: string, sessionId: string, inputs: Record,
                        found: bool, engine: Result<GraphEngine.WorkflowState, string>)
    : seq<Execution>
  {
    var pending := Execution(id, workflowId, sessionId, inputs, Pending, map[], None, None);
    if !found then
      [pending, pending.(status := Failed, errorMessage := Some(NotFoundMessage(workflowId)))]
    else
      var running := pending.(status := Running);
      match engine
      case Ok(state) =>
        [pending, running, running.(status := Completed, outputs := state.outputs, executionTrace := None)]
      case Err(message) =>
        [pending, running, running.(status := Failed, errorMessage := Some(message))]
  }

  /** What `executeWorkflow` resolves or rejects with: the completed record, or the error it rethrows. */
  function Outcome(saves: seq<Execution>): Result<Execution, string>
    requires saves != []
  {
    var last := saves[|saves| - 1];
    if last.status == Completed then Ok(last)
    else Err(if last.errorMessage.Some? then last.errorMessage.value else "")
  }

  /** Every run saves a lifecycle of one record: PENDING, then RUNNING when the workflow
      was found, then COMPLETED with the engine's outputs, or FAILED with the error.  No saved
      record carries a trace: not even the completed one keeps the engine's trace. */
  lemma ExecutionRunLifecycle(id: string, workflowId: string, sessionId: string, inputs: Record,
                              found: bool, engine: Result<GraphEngine.WorkflowState, string>)
    ensures var saves := ExecutionRun(id, workflowId, sessionId, inputs, found, engine);
      && IsLifecycle(Statuses(saves))
      && (forall i :: 0 <= i < |saves| ==>
            saves[i].id == id && saves[i].workflowId == workflowId && saves[i].sessionId == sessionId && saves[i].inputs == inputs)
      && (!found ==> Statuses(saves) == [Pending, Failed])
      && (found ==> |saves| == 3 && saves[1].status == Running)
      && (saves[|saves| - 1].status == Completed <==> found && engine.Ok?)
      && (found && engine.Ok? ==>
            saves[|saves| - 1].outputs == engine.value.outputs)
      && (forall i :: 0 <= i < |saves| ==> saves[i].executionTrace.None?)
      && (!found ==> saves[|saves| - 1].errorMessage == Some(NotFoundMessage(workflowId)))
      && (found && engine.Err? ==> saves[|saves| - 1].errorMessage == Some(engine.error))
  {
    var saves := ExecutionRun(id, workflowId, sessionId, inputs, found, engine);
    assert Statuses(saves)[|saves| - 1] == saves[|saves| - 1].status;
  }

  /** A run never ends PENDING, RUNNING or CANCELLED, and it resolves exactly when it completed. */
  lemma ExecutionEndsCompletedOrFailed(id: string, workflowId: string, sessionId: string, inputs: Record,
                                       found: bool, engine: Result<GraphEngine.WorkflowState, string>)
    ensures var saves := ExecutionRun(id, workflowId, sessionId, inputs, found, engine);
      && |saves| >= 2
      && Terminal(saves[|saves| - 1].status)
      && (Outcome(saves).Ok? <==> found && engine.Ok?)
      && (!found ==> Outcome(saves) == Err(NotFoundMessage(workflowId)))
      && (found && engine.Err? ==> Outcome(saves) == Err(engine.error))
  {
    var saves := ExecutionRun(id, workflowId, sessionId, inputs, found, engine);
    assert Statuses(saves)[|saves| - 1] == saves[|saves| - 1].status;
  }

  /** With the real engine, a found workflow completes exactly when its stored definition is
      one of the operation names the router knows; the engine's three-entry trace is then lost
      from the saved record.  Otherwise the record fails with the routing error, which is rethrown.  A definition object is never such a name, so a workflow whose
      definition is an object always fails. */
  lemma ExecutionWithEngine(id: string, workflowId: string, sessionId: string, inputs: Record, definition: Value,
                            now: nat, validateEnv: GraphEngine.StepEnv, actionEnv: GraphEngine.StepEnv)
    ensures var saves := ExecutionRun(id, workflowId, sessionId, inputs, true,
                                      Engine(now, validateEnv, actionEnv)(definition, inputs));
      && |saves| == 3
      && (saves[2].status == Completed <==> GraphEngine.RecognisedOperation(definition))
      && (saves[2].status == Completed ==>
            && |Engine(now, validateEnv, actionEnv)(definition, inputs).value.executionTrace| == 3
            && saves[2].executionTrace == None)
      && (saves[2].status == Failed ==> saves[2].errorMessage == Some("Unknown route target: validate-input"))
      && (definition.Obj? ==> Outcome(saves) == Err("Unknown route target: validate-input"))
  {
    var r := EngineRun(definition, inputs, now, validateEnv, actionEnv);
    assert Engine(now, validateEnv, actionEnv)(definition, inputs) == r;
    if !GraphEngine.RecognisedOperation(definition) {
      GraphEngine.UnknownOperationIsRoutingError(definition, Obj(inputs), now, validateEnv, actionEnv);
    }
  }

  /** A lifecycle never passes through CANCELLED and never leaves a terminal status. */
  lemma {:induction false} LifecycleAvoidsCancelled(ss: seq<ExecutionStatus>)
    requires IsLifecycle(ss)
    ensures forall i :: 0 <= i < |ss| ==> ss[i] != Cancelled
    ensures forall i :: 0 <= i < |ss| - 1 ==> !Terminal(ss[i])
  {
    forall i | 0 <= i < |ss|
      ensures ss[i] != Cancelled
    {
      if i < |ss| - 1 {
        assert Moves(ss[i], ss[i + 1]);
      }
    }
    forall i | 0 <= i < |ss| - 1
      ensures !Terminal(ss[i])
    {
      assert Moves(ss[i], ss[i + 1]);
    }
  }

  // ---------------------------------------------------------------------------
  // Sessions

  /** `{ ...context, ...update }`: the update's keys win, the other old keys stay. */
  function MergeContext(context: Record, update: Record): (r: Record)
    ensures r.Keys == context.Keys + update.Keys
    ensures forall k :: k in update ==> r[k] == update[k]
    ensures forall k :: k in context && k !in update ==> r[k] == context[k]
  {
    context + update
  }

  /** Merging the same update twice is merging it once; merging nothing changes nothing. */
  lemma MergeContextIdempotent(context: Record, update: Record)
    ensures MergeContext(MergeContext(context, update), update) == MergeContext(context, update)
    ensures MergeContext(context, map[]) == context
  {
    var once := MergeContext(context, update);
    assert MergeContext(once, update) == once;
    assert MergeContext(context, map[]) == context;
  }

  function SessionNotFoundMessage(sessionId: string): string {
    "Session with ID " + sessionId + " not found"
  }

  // ---------------------------------------------------------------------------
  // The service

  class Service {
    var workflows: map<string, WorkflowRecord>
    var sessions: map<string, Session>
    /** Every record the execution repository was asked to save, in order. */
    var executions: seq<Execution>

    constructor(workflows: map<string, WorkflowRecord>, sessions: map<string, Session>)
      ensures this.workflows == workflows && this.sessions == sessions && this.executions == []
    {
      this.workflows := workflows;
      this.sessions := sessions;
      this.executions := [];
    }

    /** `getWorkflowById`: only an active workflow is found. */
    predicate HasWorkflow(workflowId: string)
      reads this
    {
      workflowId in workflows && workflows[workflowId].isActive
    }

    /** The stored definition of a workflow, `undefined` when there is none. */
    function DefinitionOf(workflowId: string): Value
      reads this
    {
      if workflowId in workflows then workflows[workflowId].definition else Undefined
    }

    /** `getSessionById`: only an active session is found. */
    predicate HasSession(sessionId: string)
      reads this
    {
      sessionId in sessions && sessions[sessionId].isActive
    }

    /** `executeWorkflow`: save PENDING, look the workflow up, save RUNNING, run the engine,
        save COMPLETED with its outputs and trace; on any error save FAILED and rethrow. */
    method ExecuteWorkflow(executionId: string, workflowId: string, sessionId: string, inputs: Record,
                           engine: (Value, Record) -> Result<GraphEngine.WorkflowState, string>)
      returns (r: Result<Execution, string>)
      modifies this
      ensures workflows == old(workflows) && sessions == old(sessions)
      ensures executions == old(executions) + ExecutionRun(executionId, workflowId, sessionId, inputs,
                                                             old(HasWorkflow(workflowId)),
                                                             engine(old(DefinitionOf(workflowId)), inputs))
      ensures r == Outcome(executions[|old(executions)|..])
    {
      var execution := Execution(executionId, workflowId, sessionId, inputs, Pending, map[], None, None);
      executions := executions + [execution];
      ghost var start := |executions| - 1;
      if !HasWorkflow(workflowId) {
        var message := NotFoundMessage(workflowId);
        execution := execution.(status := Failed, errorMessage := Some(message));
        executions := executions + [execution];
        assert executions[start..] == ExecutionRun(executionId, workflowId, sessionId, inputs, false,
                                                   engine(DefinitionOf(workflowId), inputs));
        return Err(message);
      }
      execution := execution.(status := Running);
      executions := executions + [execution];
      var result := engine(workflows[workflowId].definition, inputs);
      match result {
        case Ok(state) =>
          execution := execution.(status := Completed, outputs := state.outputs, executionTrace := None);
          executions := executions + [execution];
          r := Ok(execution);
        case Err(message) =>
          execution := execution.(status := Failed, errorMessage := Some(message));
          executions := executions + [execution];
          r := Err(message);
      }
      assert executions[start..] == ExecutionRun(executionId, workflowId, sessionId, inputs, true, result);
    }

    /** `updateSessionContext`: merge the update into the session's context; a missing session throws. */
    method UpdateSessionContext(sessionId: string, context: Record, now: nat) returns (r: Result<Session, string>)
      modifies this
      ensures workflows == old(workflows) && executions == old(executions)
      ensures !old(HasSession(sessionId)) ==> r == Err(SessionNotFoundMessage(sessionId)) && sessions == old(sessions)
      ensures old(HasSession(sessionId)) ==>
        var s := old(sessions[sessionId]);
        var updated := s.(context := MergeContext(s.context, context), updatedAt := now);
        r == Ok(updated) && sessions == old(sessions)[sessionId := updated]
    {
      if !HasSession(sessionId) {
        return Err(SessionNotFoundMessage(sessionId));
      }
      var session := sessions[sessionId];
      session := session.(context := MergeContext(session.context, context), updatedAt := now);
      sessions := sessions[sessionId := session];
      r := Ok(session);
    }

    /** `addMessageToSession`: append one message to the session's history; a missing session throws. */
    method AddMessageToSession(sessionId: string, message: Value, now: nat) returns (r: Result<Session, string>)
      modifies this
      ensures workflows == old(workflows) && executions == old(executions)
      ensures !old(HasSession(sessionId)) ==> r == Err(SessionNotFoundMessage(sessionId)) && sessions == old(sessions)
      ensures old(HasSession(sessionId)) ==>
        && r.Ok?
        && r.value.history == old(sessions[sessionId].history) + [message]
        && r.value == old(sessions[sessionId]).(history := r.value.history, updatedAt := now)
        && sessions == old(sessions)[sessionId := r.value]
    {
      if !HasSession(sessionId) {
        return Err(SessionNotFoundMessage(sessionId));
      }
      var session := sessions[sessionId];
      session := session.(history := session.history + [message], updatedAt := now);
      sessions := sessions[sessionId := session];
      r := Ok(session);
    }
  }
}
