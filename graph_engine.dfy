/** The workflow state machine of the agents module: the state record, the six
    tool-backed step functions, the router and the two fixed graphs (the general
    workflow and the CRUD workflow), with LangGraph's runtime replaced by an
    explicit driver that runs start -> validate-input -> route -> one action -> END. */
module GraphEngine {
  import opened Common

  datatype StepStatus = Pending | Running | Completed | Failed

  /** One entry of the append-only execution trace. `timestamp` is the clock reading in milliseconds. */
  datatype TraceEntry = TraceEntry(
    stepId: string,
    status: StepStatus,
    result: Option<Value>,
    error: Option<string>,
    timestamp: nat)

  datatype WorkflowState = WorkflowState(
    inputs: Record,
    outputs: Record,
    currentStep: string,
    executionTrace: seq<TraceEntry>,
    context: Record,
    error: Option<string>)

  /** The partial state a step returns. `outputs` and `error` are optional keys:
      a step that returns no `outputs` leaves the state's outputs as they were. */
  datatype StepUpdate = StepUpdate(
    outputs: Option<Record>,
    executionTrace: seq<TraceEntry>,
    currentStep: string,
    error: Option<string>)

  /** What a step needs from its environment: the clock (for `new Date()` and
      `Date.now()`) and, when the tool throws, the thrown error's message. */
  datatype StepEnv = StepEnv(now: nat, fault: Option<string>)

  /** The registered tools, one per step function. */
  datatype Tool = ValidateInput | CreateEntity | UpdateEntity | FindEntities | ApplyRules | ExecuteCustomAction

  /** LangGraph's START marker, the state's `currentStep` before any node ran. */
  const Start: string := "__start__"

  /** The fixed step id each step function writes into the trace and `currentStep`. */
  function StepId(t: Tool): string {
    match t
    case ValidateInput => "validate-input"
    case CreateEntity => "create-entity"
    case UpdateEntity => "update-entity"
    case FindEntities => "find-entities"
    case ApplyRules => "apply-rules"
    case ExecuteCustomAction => "execute-action"
  }

  /** Merging a step's partial state into the full state: every key the step
      returned replaces the old value, every other key is kept. */
  function Merge(s: WorkflowState, u: StepUpdate): (r: WorkflowState)
    ensures r.inputs == s.inputs && r.context == s.context
    ensures r.executionTrace == u.executionTrace && r.currentStep == u.currentStep
    ensures u.outputs.None? ==> r.outputs == s.outputs
    ensures u.outputs.Some? ==> r.outputs == u.outputs.value
    ensures u.error.None? ==> r.error == s.error
    ensures u.error.Some? ==> r.error == u.error
  {
    WorkflowState(
      s.inputs,
      if u.outputs.Some? then u.outputs.value else s.outputs,
      u.currentStep,
      u.executionTrace,
      s.context,
      if u.error.Some? then u.error else s.error)
  }

  /** The value a tool returns when it does not throw. */
  function ToolResult(t: Tool, s: WorkflowState, now: nat): Record {
    match t
    case ValidateInput =>
      map["status" := Str("completed"), "validatedInputs" := Obj(s.inputs)]
    case CreateEntity =>
      map["status" := Str("completed"),
          "entityId" := Str("entity_" + NatToDecimal(now)),
          "entityData" := Get(s.inputs, "data")]
    case UpdateEntity =>
      map["status" := Str("completed"),
          "entityId" := Get(s.inputs, "id"),
          "updatedFields" := Get(s.inputs, "data")]
    case FindEntities =>
      map["status" := Str("completed"), "results" := List([])]
    case ApplyRules =>
      map["status" := Str("completed"), "ruleResults" := List([])]
    case ExecuteCustomAction =>
      map["status" := Str("completed"), "result" := Str("Action executed successfully")]
  }

  /** Calling a tool: it returns its result, or throws the environment's fault. */
  function Invoke(t: Tool, s: WorkflowState, env: StepEnv): (r: Result<Record, string>)
    ensures env.fault.None? <==> r.Ok?
    ensures r.Err? ==> env.fault == Some(r.error)
  {
    if env.fault.Some? then Err(env.fault.value) else Ok(ToolResult(t, s, env.now))
  }

  /** The outputs a successful step returns (None: the step returns no `outputs` key). */
  function StepOutputs(t: Tool, outputs: Record, result: Record): Option<Record> {
    match t
    case ValidateInput => None
    case CreateEntity =>
      Some(outputs["createdEntity" := Get(result, "entityData")]["entityId" := Get(result, "entityId")])
    case UpdateEntity =>
      Some(outputs["updatedEntity" := Get(result, "updatedFields")]["entityId" := Get(result, "entityId")])
    case FindEntities => Some(outputs["foundEntities" := Get(result, "results")])
    case ApplyRules => Some(outputs["ruleResults" := Get(result, "ruleResults")])
    case ExecuteCustomAction => Some(outputs["actionResult" := Get(result, "result")])
  }

  /** A step function: call the tool; on success append a `completed` entry and
      return the merged outputs; on a thrown error append a `failed` entry with the
      message, set `error`, and return no outputs. */
  function RunStep(t: Tool, s: WorkflowState, env: StepEnv): (u: StepUpdate)
    ensures |u.executionTrace| == |s.executionTrace| + 1
    ensures u.executionTrace[..|s.executionTrace|] == s.executionTrace
    ensures u.currentStep == StepId(t) && u.executionTrace[|s.executionTrace|].stepId == StepId(t)
    ensures u.executionTrace[|s.executionTrace|].timestamp == env.now
    ensures env.fault.None? ==>
      u.executionTrace[|s.executionTrace|].status == Completed && u.error.None?
    ensures env.fault.Some? ==>
      && u.executionTrace[|s.executionTrace|].status == Failed
      && u.executionTrace[|s.executionTrace|].error == env.fault
      && u.error == env.fault
      && u.outputs.None?
  {
    match Invoke(t, s, env)
    case Ok(result) =>
      StepUpdate(
        StepOutputs(t, s.outputs, result),
        s.executionTrace + [TraceEntry(StepId(t), Completed, Some(Obj(result)), None, env.now)],
        StepId(t),
        None)
    case Err(message) =>
      StepUpdate(
        None,
        s.executionTrace + [TraceEntry(StepId(t), Failed, None, Some(message), env.now)],
        StepId(t),
        Some(message))
  }

  /** A failed step leaves the outputs of the merged state exactly as they were. */
  lemma FailedStepKeepsOutputs(t: Tool, s: WorkflowState, env: StepEnv)
    requires env.fault.Some?
    ensures Merge(s, RunStep(t, s, env)).outputs == s.outputs
    ensures Merge(s, RunStep(t, s, env)).error == env.fault
  {
  }

  /** A successful create keeps every earlier output and adds the created data and the new id. */
  lemma CreateEntityOutputs(s: WorkflowState, env: StepEnv)
    requires env.fault.None?
    ensures var out := Merge(s, RunStep(CreateEntity, s, env)).outputs;
      && out.Keys == s.outputs.Keys + {"createdEntity", "entityId"}
      && out["createdEntity"] == Get(s.inputs, "data")
      && out["entityId"] == Str("entity_" + NatToDecimal(env.now))
      && (forall k :: k in s.outputs && k != "createdEntity" && k != "entityId" ==> out[k] == s.outputs[k])
  {
  }

  /** A successful update records the input id and data and keeps every other output. */
  lemma UpdateEntityOutputs(s: WorkflowState, env: StepEnv)
    requires env.fault.None?
    ensures var out := Merge(s, RunStep(UpdateEntity, s, env)).outputs;
      && out.Keys == s.outputs.Keys + {"updatedEntity", "entityId"}
      && out["entityId"] == Get(s.inputs, "id")
      && out["updatedEntity"] == Get(s.inputs, "data")
      && (forall k :: k in s.outputs && k != "updatedEntity" && k != "entityId" ==> out[k] == s.outputs[k])
  {
  }

  /** A successful step records the tool's result in its trace entry.  Validation returns no
      outputs, so the outputs stay as they were; a find, an apply or an execute adds exactly its
      own key, holding the tool's answer, and keeps every other output. */
  lemma RunStepOutputs(t: Tool, s: WorkflowState, env: StepEnv)
    requires env.fault.None?
    ensures RunStep(t, s, env).executionTrace[|s.executionTrace|].result == Some(Obj(ToolResult(t, s, env.now)))
    ensures RunStep(t, s, env).executionTrace[|s.executionTrace|].error.None?
    ensures t == ValidateInput ==> Merge(s, RunStep(t, s, env)).outputs == s.outputs
    ensures t == FindEntities ==>
      var out := Merge(s, RunStep(t, s, env)).outputs;
      && out.Keys == s.outputs.Keys + {"foundEntities"}
      && out["foundEntities"] == List([])
      && (forall k :: k in s.outputs && k != "foundEntities" ==> out[k] == s.outputs[k])
    ensures t == ApplyRules ==>
      var out := Merge(s, RunStep(t, s, env)).outputs;
      && out.Keys == s.outputs.Keys + {"ruleResults"}
      && out["ruleResults"] == List([])
      && (forall k :: k in s.outputs && k != "ruleResults" ==> out[k] == s.outputs[k])
    ensures t == ExecuteCustomAction ==>
      var out := Merge(s, RunStep(t, s, env)).outputs;
      && out.Keys == s.outputs.Keys + {"actionResult"}
      && out["actionResult"] == Str("Action executed successfully")
      && (forall k :: k in s.outputs && k != "actionResult" ==> out[k] == s.outputs[k])
  {
  }

  /** `routeNextStep`: the operation selects the next node; anything else falls back to 'validate-input'. */
  function RouteNextStep(s: WorkflowState): (next: string)
    ensures Get(s.inputs, "operation") == Str("create") ==> next == "create-entity"
    ensures Get(s.inputs, "operation") == Str("update") ==> next == "update-entity"
    ensures Get(s.inputs, "operation") == Str("search") ==> next == "find-entities"
    ensures Get(s.inputs, "operation") == Str("apply-rules") ==> next == "apply-rules"
    ensures !RecognisedOperation(Get(s.inputs, "operation")) ==> next == "validate-input"
  {
    var op := Get(s.inputs, "operation");
    if op == Str("create") then "create-entity"
    else if op == Str("update") then "update-entity"
    else if op == Str("search") then "find-entities"
    else if op == Str("apply-rules") then "apply-rules"
    else "validate-input"
  }

  predicate RecognisedOperation(op: Value) {
    op in {Str("create"), Str("update"), Str("search"), Str("apply-rules")}
  }

  /** The conditional-edge map of the general workflow: router result -> action node. */
  const RouteMap: map<string, Tool> := map[
    "create-entity" := CreateEntity,
    "update-entity" := UpdateEntity,
    "find-entities" := FindEntities,
    "apply-rules" := ApplyRules,
    "execute-action" := ExecuteCustomAction]

  /** Each recognised operation routes to a key of the edge map whose node carries
      that key as its step id; the fallback is not a key of the map. */
  lemma RouteResultIsEdgeKey(s: WorkflowState)
    ensures RecognisedOperation(Get(s.inputs, "operation")) <==> RouteNextStep(s) in RouteMap
    ensures RouteNextStep(s) in RouteMap ==> StepId(RouteMap[RouteNextStep(s)]) == RouteNextStep(s)
  {
  }

  /** The initial state of both drivers: empty outputs and context, one completed 'start' entry. */
  function InitialState(inputs: Record, now: nat): (s: WorkflowState)
    ensures s.inputs == inputs && s.outputs == map[] && s.context == map[]
    ensures s.executionTrace == [TraceEntry("start", Completed, None, None, now)]
    ensures s.currentStep == Start && s.error.None?
  {
    WorkflowState(inputs, map[], Start, [TraceEntry("start", Completed, None, None, now)], map[], None)
  }

  /** The general workflow (`executeWorkflow(operation, inputData)`): validate, route, run one
      action node, stop. A route result that is not an edge key is a routing error. The
      steps catch their tools' errors, so a failed validation does not stop the run. */
  function ExecuteWorkflow(operation: Value, inputData: Value, now: nat, validateEnv: StepEnv, actionEnv: StepEnv)
    : (r: Result<WorkflowState, string>)
    ensures r.Ok? <==> RecognisedOperation(operation)
    ensures r.Ok? ==>
      && |r.value.executionTrace| == 3
      && r.value.executionTrace[0] == TraceEntry("start", Completed, None, None, now)
      && r.value.executionTrace[1].stepId == "validate-input"
      && r.value.executionTrace[2].stepId == RouteNextStep(InitialState(WorkflowInputs(operation, inputData), now))
      && r.value.currentStep == r.value.executionTrace[2].stepId
  {
    var s0 := InitialState(WorkflowInputs(operation, inputData), now);
    var s1 := Merge(s0, RunStep(ValidateInput, s0, validateEnv));
    var next := RouteNextStep(s1);
    if next in RouteMap then
      Ok(Merge(s1, RunStep(RouteMap[next], s1, actionEnv)))
    else
      Err("Unknown route target: " + next)
  }

  /** An operation the router does not know falls through to 'validate-input', which is not
      an edge of the conditional map: the run ends in a routing error. */
  lemma UnknownOperationIsRoutingError(operation: Value, inputData: Value, now: nat, validateEnv: StepEnv, actionEnv: StepEnv)
    requires !RecognisedOperation(operation)
    ensures ExecuteWorkflow(operation, inputData, now, validateEnv, actionEnv) == Err("Unknown route target: validate-input")
  {
    var s0 := InitialState(WorkflowInputs(operation, inputData), now);
    var s1 := Merge(s0, RunStep(ValidateInput, s0, validateEnv));
    assert Get(s1.inputs, "operation") == operation;
    assert "Unknown route target: " + "validate-input" == "Unknown route target: validate-input";
  }

  function WorkflowInputs(operation: Value, inputData: Value): Record {
    map["operation" := operation, "data" := inputData]
  }

  /** 'create' runs exactly validate-input then create-entity; the update and find nodes never run. */
  lemma CreateRoutesToCreateEntity(inputData: Value, now: nat, validateEnv: StepEnv, actionEnv: StepEnv)
    ensures var r := ExecuteWorkflow(Str("create"), inputData, now, validateEnv, actionEnv);
      && r.Ok?
      && [r.value.executionTrace[1].stepId, r.value.executionTrace[2].stepId] == ["validate-input", "create-entity"]
      && (forall e :: e in r.value.executionTrace ==> e.stepId != "update-entity" && e.stepId != "find-entities")
  {
    var r := ExecuteWorkflow(Str("create"), inputData, now, validateEnv, actionEnv);
    var t := r.value.executionTrace;
    assert t == [t[0], t[1], t[2]];
  }

  /** The 'execute-action' node is a key of the edge map but no operation routes to it. */
  lemma ExecuteActionNeverRuns(operation: Value, inputData: Value, now: nat, validateEnv: StepEnv, actionEnv: StepEnv)
    ensures var r := ExecuteWorkflow(operation, inputData, now, validateEnv, actionEnv);
      r.Ok? ==> forall e :: e in r.value.executionTrace ==> e.stepId != "execute-action"
  {
    var r := ExecuteWorkflow(operation, inputData, now, validateEnv, actionEnv);
    if r.Ok? {
      var t := r.value.executionTrace;
      assert t == [t[0], t[1], t[2]];
    }
  }

  /** A validation failure is recorded but the run goes on: the action still runs, and
      when it succeeds the final state carries both its outputs and the validation error. */
  lemma ValidationFailureDoesNotHalt(operation: Value, inputData: Value, now: nat, validateEnv: StepEnv, actionEnv: StepEnv)
    requires RecognisedOperation(operation)
    requires validateEnv.fault.Some? && actionEnv.fault.None?
    ensures var r := ExecuteWorkflow(operation, inputData, now, validateEnv, actionEnv);
      && r.Ok?
      && r.value.executionTrace[1].status == Failed
      && r.value.executionTrace[2].status == Completed
      && r.value.error == validateEnv.fault
  {
  }

  /** A string rendering of a value, as a template literal `${v}` would print it. */
  function Display(v: Value): string
    decreases v, 1, 0
  {
    match v
    case Undefined => "undefined"
    case Null => "null"
    case Bool(b) => if b then "true" else "false"
    case Num(n) => if n < 0 then "-" + NatToDecimal(-n) else NatToDecimal(n)
    case Str(s) => s
    case List(items) => JoinDisplay(v, 0)
    case Obj(_) => "[object Object]"
  }

  /** `Array.prototype.join(',')` over the elements from `i` on, where `undefined`
      and `null` elements print as empty. */
  function JoinDisplay(v: Value, i: nat): string
    requires v.List? && i <= |v.items|
    decreases v, 0, |v.items| - i
  {
    if i == |v.items| then ""
    else
      var e := v.items[i];
      var head := if e.Undefined? || e.Null? then "" else Display(e);
      if i + 1 == |v.items| then head else head + "," + JoinDisplay(v, i + 1)
  }

  /** The 'delete' branch of the CRUD node: no tool call, a `deleted` flag and a trace entry. */
  function DeleteUpdate(s: WorkflowState, now: nat): StepUpdate {
    StepUpdate(
      Some(s.outputs["deleted" := Bool(true)]),
      s.executionTrace + [TraceEntry("crud-operation", Completed, Some(Obj(map["deleted" := Bool(true)])), None, now)],
      "crud-operation",
      None)
  }

  /** The 'crud-operation' node: dispatch on `inputs.operation`; an unknown operation throws. */
  function CrudOperation(s: WorkflowState, env: StepEnv): (r: Result<StepUpdate, string>)
    ensures Get(s.inputs, "operation") == Str("create") ==> r == Ok(RunStep(CreateEntity, s, env))
    ensures Get(s.inputs, "operation") == Str("read") ==> r == Ok(RunStep(FindEntities, s, env))
    ensures Get(s.inputs, "operation") == Str("update") ==> r == Ok(RunStep(UpdateEntity, s, env))
    ensures Get(s.inputs, "operation") == Str("delete") ==>
      && r.Ok?
      && r.value.outputs == Some(s.outputs["deleted" := Bool(true)])
      && |r.value.executionTrace| == |s.executionTrace| + 1
      && r.value.executionTrace[..|s.executionTrace|] == s.executionTrace
      && r.value.executionTrace[|s.executionTrace|].stepId == "crud-operation"
      && r.value.executionTrace[|s.executionTrace|].status == Completed
    ensures !CrudOperationName(Get(s.inputs, "operation")) ==>
      r == Err("Unknown CRUD operation: " + Display(Get(s.inputs, "operation")))
  {
    var op := Get(s.inputs, "operation");
    if op == Str("create") then Ok(RunStep(CreateEntity, s, env))
    else if op == Str("read") then Ok(RunStep(FindEntities, s, env))
    else if op == Str("update") then Ok(RunStep(UpdateEntity, s, env))
    else if op == Str("delete") then Ok(DeleteUpdate(s, env.now))
    else Err("Unknown CRUD operation: " + Display(op))
  }

  predicate CrudOperationName(op: Value) {
    op in {Str("create"), Str("read"), Str("update"), Str("delete")}
  }

  function CrudInputs(operation: string, entityName: string, data: Value): Record {
    map["operation" := Str(operation), "entityName" := Str(entityName), "data" := data]
  }

  /** `executeCrudOperation`: start, validate-input, crud-operation, END. */
  function ExecuteCrudOperation(operation: string, entityName: string, data: Value, now: nat,
                                validateEnv: StepEnv, operationEnv: StepEnv)
    : (r: Result<WorkflowState, string>)
  {
    var s0 := InitialState(CrudInputs(operation, entityName, data), now);
    var s1 := Merge(s0, RunStep(ValidateInput, s0, validateEnv));
    match CrudOperation(s1, operationEnv)
    case Ok(u) => Ok(Merge(s1, u))
    case Err(message) => Err(message)
  }

  /** Only the four CRUD operations run; any other is the node's error. */
  lemma ExecuteCrudOperationOutcome(operation: string, entityName: string, data: Value, now: nat,
                                    validateEnv: StepEnv, operationEnv: StepEnv)
    ensures var r := ExecuteCrudOperation(operation, entityName, data, now, validateEnv, operationEnv);
      && (r.Ok? <==> operation in {"create", "read", "update", "delete"})
      && (r.Err? ==> r.error == "Unknown CRUD operation: " + operation)
  {
    var s0 := InitialState(CrudInputs(operation, entityName, data), now);
    var s1 := Merge(s0, RunStep(ValidateInput, s0, validateEnv));
    assert Get(s1.inputs, "operation") == Str(operation);
  }

  /** A run records start, validate-input and the operation's step, in that order. */
  lemma ExecuteCrudOperationTrace(operation: string, entityName: string, data: Value, now: nat,
                                  validateEnv: StepEnv, operationEnv: StepEnv)
    requires operation in {"create", "read", "update", "delete"}
    ensures var r := ExecuteCrudOperation(operation, entityName, data, now, validateEnv, operationEnv);
      && r.Ok?
      && |r.value.executionTrace| == 3
      && r.value.executionTrace[0] == TraceEntry("start", Completed, None, None, now)
      && r.value.executionTrace[1].stepId == "validate-input"
      && r.value.executionTrace[2].stepId == CrudStepId(operation)
      && (operation == "delete" ==> Get(r.value.outputs, "deleted") == Bool(true))
  {
    var s0 := InitialState(CrudInputs(operation, entityName, data), now);
    var s1 := Merge(s0, RunStep(ValidateInput, s0, validateEnv));
    assert Get(s1.inputs, "operation") == Str(operation);
  }

  function CrudStepId(operation: string): string {
    match operation
    case "create" => "create-entity"
    case "read" => "find-entities"
    case "update" => "update-entity"
    case _ => "crud-operation"
  }
}
