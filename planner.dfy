/** The autonomous planner: deterministic builders of workflow definitions from
    ontology entities, relations and rules, the graph-shape invariants every
    generated definition satisfies, and the planning loops that enumerate them. */
module Planner {
  import opened Common

  // ---------------------------------------------------------------------------
  // Ontology input

  /** The target entity a relation may carry (`relation.toEntity`). */
  datatype EntityRef = EntityRef(name: string, displayName: Option<string>)

  datatype RelationDef = RelationDef(
    id: string,
    name: string,
    displayName: Option<string>,
    fromEntityId: string,
    toEntityId: string,
    toEntity: Option<EntityRef>)

  datatype RuleDef = RuleDef(
    id: string,
    name: string,
    displayName: Option<string>,
    condition: Value,
    action: Value)

  /** An entity with its outgoing relations and its rules. */
  datatype EntityDef = EntityDef(
    id: string,
    name: string,
    displayName: Option<string>,
    relations: seq<RelationDef>,
    rules: seq<RuleDef>)

  // ---------------------------------------------------------------------------
  // Workflow definitions

  datatype StepType = Validation | Action | Transformation | Condition

  datatype StepSpec = StepSpec(
    id: string,
    stepType: StepType,
    action: Option<string>,
    params: Record,
    condition: Option<Value>,
    transformation: Option<string>)

  datatype Node = Node(id: string, nodeType: StepType, x: int, y: int)

  datatype Edge = Edge(source: string, target: string)

  datatype Graph = Graph(nodes: seq<Node>, edges: seq<Edge>)

  datatype WorkflowDef = WorkflowDef(
    name: string,
    displayName: string,
    entities: seq<string>,
    actions: Option<seq<string>>,
    isAutoGenerated: bool,
    definitionType: string,
    steps: seq<StepSpec>,
    graph: Graph)

  // ---------------------------------------------------------------------------
  // Graph-shape invariants

  /** The graph mirrors the step list: node i has step i's id and type. */
  predicate NodesMirrorSteps(w: WorkflowDef) {
    && |w.graph.nodes| == |w.steps|
    && forall i :: 0 <= i < |w.steps| ==>
         w.graph.nodes[i].id == w.steps[i].id && w.graph.nodes[i].nodeType == w.steps[i].stepType
  }

  predicate UniqueNodeIds(g: Graph) {
    forall i, j :: 0 <= i < j < |g.nodes| ==> g.nodes[i].id != g.nodes[j].id
  }

  predicate IsNodeId(g: Graph, id: string) {
    exists i :: 0 <= i < |g.nodes| && g.nodes[i].id == id
  }

  /** Every edge endpoint is a node id. */
  predicate EdgesResolve(g: Graph) {
    forall e :: e in g.edges ==> IsNodeId(g, e.source) && IsNodeId(g, e.target)
  }

  /** Every edge goes from an earlier node to a later one in the node list. */
  predicate EdgesForward(g: Graph) {
    forall e :: e in g.edges ==>
      exists i, j :: 0 <= i < j < |g.nodes| && g.nodes[i].id == e.source && g.nodes[j].id == e.target
  }

  predicate WellFormed(w: WorkflowDef) {
    && NodesMirrorSteps(w)
    && UniqueNodeIds(w.graph)
    && EdgesResolve(w.graph)
    && EdgesForward(w.graph)
  }

  /** A walk along edges. */
  predicate IsPath(g: Graph, p: seq<string>) {
    && |p| >= 1
    && forall k :: 0 <= k < |p| - 1 ==> Edge(p[k], p[k + 1]) in g.edges
  }

  /** No walk of one edge or more returns to where it started. */
  ghost predicate Acyclic(g: Graph) {
    forall p :: IsPath(g, p) && |p| >= 2 ==> p[0] != p[|p| - 1]
  }

  /** The linear chain step[i] -> step[i+1]. */
  predicate IsChain(w: WorkflowDef) {
    && |w.steps| >= 1
    && |w.graph.edges| == |w.steps| - 1
    && forall i :: 0 <= i < |w.steps| - 1 ==> w.graph.edges[i] == Edge(w.steps[i].id, w.steps[i + 1].id)
  }

  /** Fan-out from step 0 to steps 1 and 2, fan-in from both to step 3. */
  predicate IsFanOutFanIn(w: WorkflowDef) {
    && |w.steps| == 4
    && w.graph.edges == [
         Edge(w.steps[0].id, w.steps[1].id), Edge(w.steps[0].id, w.steps[2].id),
         Edge(w.steps[1].id, w.steps[3].id), Edge(w.steps[2].id, w.steps[3].id)]
  }

  function IndexOf(g: Graph, id: string): (i: nat)
    requires IsNodeId(g, id)
    requires UniqueNodeIds(g)
    ensures i < |g.nodes| && g.nodes[i].id == id
  {
    var i :| 0 <= i < |g.nodes| && g.nodes[i].id == id; i
  }

  /** Along a path, node positions strictly increase. */
  lemma {:induction false} PathIndexIncreases(g: Graph, p: seq<string>)
    requires UniqueNodeIds(g) && EdgesForward(g)
    requires IsPath(g, p) && |p| >= 2
    ensures IsNodeId(g, p[0]) && IsNodeId(g, p[|p| - 1])
    ensures IndexOf(g, p[0]) < IndexOf(g, p[|p| - 1])
  {
    assert Edge(p[0], p[1]) in g.edges;
    var i, j :| 0 <= i < j < |g.nodes| && g.nodes[i].id == p[0] && g.nodes[j].id == p[1];
    if |p| == 2 {
    } else {
      var q := p[1..];
      assert IsPath(g, q) by {
        forall k | 0 <= k < |q| - 1 ensures Edge(q[k], q[k + 1]) in g.edges {
          assert q[k] == p[k + 1] && q[k + 1] == p[k + 2];
        }
      }
      PathIndexIncreases(g, q);
      assert q[|q| - 1] == p[|p| - 1];
    }
  }

  /** Forward edges over distinct node ids make the graph acyclic. */
  lemma ForwardGraphIsAcyclic(g: Graph)
    requires UniqueNodeIds(g) && EdgesForward(g)
    ensures Acyclic(g)
  {
    forall p | IsPath(g, p) && |p| >= 2 ensures p[0] != p[|p| - 1] {
      PathIndexIncreases(g, p);
    }
  }

  /** A chain over steps with distinct ids, mirrored by the nodes, is well formed. */
  lemma ChainIsWellFormed(w: WorkflowDef)
    requires NodesMirrorSteps(w) && UniqueNodeIds(w.graph) && IsChain(w)
    ensures WellFormed(w) && Acyclic(w.graph)
  {
    var g := w.graph;
    forall e | e in g.edges
      ensures exists i, j :: 0 <= i < j < |g.nodes| && g.nodes[i].id == e.source && g.nodes[j].id == e.target
    {
      var k :| 0 <= k < |g.edges| && g.edges[k] == e;
      assert g.edges[k] == Edge(w.steps[k].id, w.steps[k + 1].id);
      assert g.nodes[k].id == w.steps[k].id && g.nodes[k + 1].id == w.steps[k + 1].id;
    }
    forall e | e in g.edges ensures IsNodeId(g, e.source) && IsNodeId(g, e.target) {
      var i, j :| 0 <= i < j < |g.nodes| && g.nodes[i].id == e.source && g.nodes[j].id == e.target;
    }
    ForwardGraphIsAcyclic(g);
  }

  /** The fan-out/fan-in shape over distinct, mirrored ids is well formed. */
  lemma FanOutFanInIsWellFormed(w: WorkflowDef)
    requires NodesMirrorSteps(w) && UniqueNodeIds(w.graph) && IsFanOutFanIn(w)
    ensures WellFormed(w) && Acyclic(w.graph)
  {
    var g := w.graph;
    assert g.nodes[0].id == w.steps[0].id && g.nodes[1].id == w.steps[1].id;
    assert g.nodes[2].id == w.steps[2].id && g.nodes[3].id == w.steps[3].id;
    forall e | e in g.edges ensures IsNodeId(g, e.source) && IsNodeId(g, e.target) {
    }
    ForwardGraphIsAcyclic(g);
  }

  lemma Chain2Shape(w: WorkflowDef, a: StepSpec, b: StepSpec)
    requires w.steps == [a, b] && w.graph == Chain2(a, b)
    requires a.id != b.id
    ensures WellFormed(w) && IsChain(w) && Acyclic(w.graph)
  {
    ChainIsWellFormed(w);
  }

  lemma Chain3Shape(w: WorkflowDef, a: StepSpec, b: StepSpec, c: StepSpec)
    requires w.steps == [a, b, c] && w.graph == Chain3(a, b, c)
    requires a.id != b.id && a.id != c.id && b.id != c.id
    ensures WellFormed(w) && IsChain(w) && Acyclic(w.graph)
  {
    ChainIsWellFormed(w);
  }

  lemma DiamondShape(w: WorkflowDef, a: StepSpec, b: StepSpec, c: StepSpec, d: StepSpec)
    requires w.steps == [a, b, c, d] && w.graph == Diamond(a, b, c, d)
    requires a.id != b.id && a.id != c.id && a.id != d.id && b.id != c.id && b.id != d.id && c.id != d.id
    ensures WellFormed(w) && IsFanOutFanIn(w) && Acyclic(w.graph)
  {
    FanOutFanInIsWellFormed(w);
  }

  // ---------------------------------------------------------------------------
  // Builders

  /** `entity.displayName || entity.name`. */
  function Label(e: EntityDef): string {
    OrElse(e.displayName, e.name)
  }

  function Step(id: string, t: StepType): StepSpec {
    StepSpec(id, t, None, map[], None, None)
  }

  function ActionStep(id: string, action: string, params: Record): StepSpec {
    StepSpec(id, Action, Some(action), params, None, None)
  }

  function NodeOf(s: StepSpec, x: int, y: int): Node {
    Node(s.id, s.stepType, x, y)
  }

  /** Two steps laid out left to right and chained. */
  function Chain2(a: StepSpec, b: StepSpec): Graph {
    Graph([NodeOf(a, 0, 0), NodeOf(b, 200, 0)], [Edge(a.id, b.id)])
  }

  /** Three steps laid out left to right and chained. */
  function Chain3(a: StepSpec, b: StepSpec, c: StepSpec): Graph {
    Graph([NodeOf(a, 0, 0), NodeOf(b, 200, 0), NodeOf(c, 400, 0)],
          [Edge(a.id, b.id), Edge(b.id, c.id)])
  }

  /** Four steps with the second and third side by side between the first and the last. */
  function Diamond(a: StepSpec, b: StepSpec, c: StepSpec, d: StepSpec): Graph {
    Graph([NodeOf(a, 0, 0), NodeOf(b, 200, 0), NodeOf(c, 200, 100), NodeOf(d, 400, 50)],
          [Edge(a.id, b.id), Edge(a.id, c.id), Edge(b.id, d.id), Edge(c.id, d.id)])
  }

  // Step ids and action names of the generated steps
  const ApplyRule: string := "apply-rule"
  const ApplyRuleAction: string := "apply-rule-action"
  const CheckDependencies: string := "check-dependencies"
  const CheckRuleCondition: string := "check-rule-condition"
  const CreateEntity: string := "create-entity"
  const CreateMainEntity: string := "create-main-entity"
  const CreateRelatedEntity: string := "create-related-entity"
  const CreateRelationship: string := "create-relationship"
  const DeleteEntity: string := "delete-entity"
  const FindEntity: string := "find-entity"
  const FindExistingEntity: string := "find-existing-entity"
  const FindFromEntity: string := "find-from-entity"
  const FindToEntity: string := "find-to-entity"
  const FormatEntityData: string := "format-entity-data"
  const FormatOutput: string := "format-output"
  const LinkEntities: string := "link-entities"
  const ParseQuery: string := "parse-query"
  const RankResults: string := "rank-results"
  const SearchKnowledgeGraph: string := "search-knowledge-graph"
  const UpdateEntity: string := "update-entity"
  const UpdateKnowledgeGraph: string := "update-knowledge-graph"
  const ValidateInput: string := "validate-input"
  const ValidateRelationshipInput: string := "validate-relationship-input"

  // Parameter keys
  const ActionKey: string := "action"
  const EntityDataKey: string := "entityData"
  const EntityIdKey: string := "entityId"
  const EntityTypeKey: string := "entityType"
  const FromEntityIdKey: string := "fromEntityId"
  const IdKey: string := "id"
  const LimitKey: string := "limit"
  const NodeDataKey: string := "nodeData"
  const NodeIdKey: string := "nodeId"
  const QueryKey: string := "query"
  const RelationshipTypeKey: string := "relationshipType"
  const ResultsKey: string := "results"
  const RuleIdKey: string := "ruleId"
  const ToEntityIdKey: string := "toEntityId"
  const UpdateDataKey: string := "updateData"

  // Templates the runtime resolves against the inputs and earlier outputs
  const CreateEntityOutputIdRef: string := "{{create-entity.output.id}}"
  const InputsDataRef: string := "{{inputs.data}}"
  const InputsEntityIdRef: string := "{{inputs.entityId}}"
  const InputsFromIdRef: string := "{{inputs.fromId}}"
  const InputsIdRef: string := "{{inputs.id}}"
  const InputsLimitOrTenRef: string := "{{inputs.limit || 10}}"
  const InputsQueryRef: string := "{{inputs.query}}"
  const InputsToIdRef: string := "{{inputs.toId}}"
  const SearchResultsRef: string := "{{search-knowledge-graph.output.results}}"
  const InputsMainEntityDataRef: string := "{{inputs.mainEntityData}}"
  const InputsRelatedEntityDataRef: string := "{{inputs.relatedEntityData}}"
  /** The cross-entity link step's ids are written with a stray leading quote. */
  const MainEntityOutputIdQuoted: string := "'{{create-main-entity.output.id}}"
  const RelatedEntityOutputIdQuoted: string := "'{{create-related-entity.output.id}}"
  /** The related entity's back-reference is written inside quotes. */
  const MainEntityOutputIdInQuotes: string := "'{{create-main-entity.output.id}}'"

  const SequenceType: string := "sequence"

  /** The common header of the five CRUD builders. */
  function CrudWorkflow(e: EntityDef, verb: string, title: string, steps: seq<StepSpec>, graph: Graph): WorkflowDef {
    var name := verb + "-" + ToLower(e.name);
    WorkflowDef(
      name,
      title + " " + Label(e),
      [e.id],
      Some([name]),
      true,
      SequenceType,
      steps,
      graph)
  }

  function CreateWorkflow(e: EntityDef): (w: WorkflowDef)
    ensures w.name == "create-" + ToLower(e.name) && w.isAutoGenerated
    ensures |w.steps| == 3 && w.graph == Chain3(w.steps[0], w.steps[1], w.steps[2])
    ensures [w.steps[0].id, w.steps[1].id, w.steps[2].id] == ["validate-input", "create-entity", "update-knowledge-graph"]
  {
    var s1 := Step(ValidateInput, Validation);
    var s2 := ActionStep(CreateEntity, CreateEntity,
                         map[EntityTypeKey := Str(e.name), EntityDataKey := Str(InputsDataRef)]);
    var s3 := ActionStep(UpdateKnowledgeGraph, UpdateKnowledgeGraph,
                         map[NodeIdKey := Str(CreateEntityOutputIdRef), NodeDataKey := Str(InputsDataRef)]);
    CrudWorkflow(e, "create", "Create", [s1, s2, s3], Chain3(s1, s2, s3))
  }

  function ReadWorkflow(e: EntityDef): (w: WorkflowDef)
    ensures w.name == "read-" + ToLower(e.name) && w.isAutoGenerated
    ensures |w.steps| == 2 && w.graph == Chain2(w.steps[0], w.steps[1])
    ensures [w.steps[0].id, w.steps[1].id] == ["find-entity", "format-output"]
  {
    var s1 := ActionStep(FindEntity, FindEntity,
                         map[EntityTypeKey := Str(e.name), QueryKey := Str(InputsQueryRef)]);
    var s2 := StepSpec(FormatOutput, Transformation,
                       None, map[], None, Some(FormatEntityData));
    CrudWorkflow(e, "read", "Read", [s1, s2], Chain2(s1, s2))
  }

  function UpdateWorkflow(e: EntityDef): (w: WorkflowDef)
    ensures w.name == "update-" + ToLower(e.name) && w.isAutoGenerated
    ensures |w.steps| == 3 && w.graph == Chain3(w.steps[0], w.steps[1], w.steps[2])
    ensures [w.steps[0].id, w.steps[1].id, w.steps[2].id] == ["validate-input", "find-existing-entity", "update-entity"]
  {
    var s1 := Step(ValidateInput, Validation);
    var s2 := ActionStep(FindExistingEntity, FindEntity,
                         map[EntityTypeKey := Str(e.name), IdKey := Str(InputsIdRef)]);
    var s3 := ActionStep(UpdateEntity, UpdateEntity,
                         map[EntityTypeKey := Str(e.name), IdKey := Str(InputsIdRef), UpdateDataKey := Str(InputsDataRef)]);
    CrudWorkflow(e, "update", "Update", [s1, s2, s3], Chain3(s1, s2, s3))
  }

  function DeleteWorkflow(e: EntityDef): (w: WorkflowDef)
    ensures w.name == "delete-" + ToLower(e.name) && w.isAutoGenerated
    ensures |w.steps| == 3 && w.graph == Chain3(w.steps[0], w.steps[1], w.steps[2])
    ensures [w.steps[0].id, w.steps[1].id, w.steps[2].id] == ["find-entity", "check-dependencies", "delete-entity"]
  {
    var s1 := ActionStep(FindEntity, FindEntity,
                         map[EntityTypeKey := Str(e.name), IdKey := Str(InputsIdRef)]);
    var s2 := Step(CheckDependencies, Validation);
    var s3 := ActionStep(DeleteEntity, DeleteEntity,
                         map[EntityTypeKey := Str(e.name), IdKey := Str(InputsIdRef)]);
    CrudWorkflow(e, "delete", "Delete", [s1, s2, s3], Chain3(s1, s2, s3))
  }

  function SearchWorkflow(e: EntityDef): (w: WorkflowDef)
    ensures w.name == "search-" + ToLower(e.name) && w.isAutoGenerated
    ensures |w.steps| == 3 && w.graph == Chain3(w.steps[0], w.steps[1], w.steps[2])
    ensures [w.steps[0].id, w.steps[1].id, w.steps[2].id] == ["parse-query", "search-knowledge-graph", "rank-results"]
  {
    var s1 := Step(ParseQuery, Transformation);
    var s2 := ActionStep(SearchKnowledgeGraph, SearchKnowledgeGraph,
                         map[EntityTypeKey := Str(e.name), QueryKey := Str(InputsQueryRef), LimitKey := Str(InputsLimitOrTenRef)]);
    var s3 := ActionStep(RankResults, RankResults,
                         map[ResultsKey := Str(SearchResultsRef), QueryKey := Str(InputsQueryRef)]);
    CrudWorkflow(e, "search", "Search", [s1, s2, s3], Chain3(s1, s2, s3))
  }

  /** `relation.toEntity?.displayName || relation.toEntity?.name || fallback`. */
  function TargetLabel(r: RelationDef, fallback: string): string {
    if r.toEntity.None? then fallback
    else OrElse(r.toEntity.value.displayName, OrElse(Some(r.toEntity.value.name), fallback))
  }

  function RelationshipWorkflow(e: EntityDef, r: RelationDef): (w: WorkflowDef)
    ensures w.name == "relate-" + ToLower(e.name) + "-" + ToLower(r.name) && w.isAutoGenerated
    ensures w.entities == [e.id, r.toEntityId]
    ensures |w.steps| == 4 && w.graph == Diamond(w.steps[0], w.steps[1], w.steps[2], w.steps[3])
    ensures [w.steps[0].id, w.steps[1].id, w.steps[2].id, w.steps[3].id]
         == ["validate-relationship-input", "find-from-entity", "find-to-entity", "create-relationship"]
  {
    var s1 := Step(ValidateRelationshipInput, Validation);
    var s2 := ActionStep(FindFromEntity, FindEntity,
                         map[EntityTypeKey := Str(e.name), IdKey := Str(InputsFromIdRef)]);
    var s3 := ActionStep(FindToEntity, FindEntity,
                         map[EntityTypeKey := (if r.toEntity.Some? then Str(r.toEntity.value.name) else Undefined),
                             IdKey := Str(InputsToIdRef)]);
    var s4 := ActionStep(CreateRelationship, CreateRelationship,
                         map[FromEntityIdKey := Str(InputsFromIdRef), ToEntityIdKey := Str(InputsToIdRef),
                             RelationshipTypeKey := Str(r.name)]);
    WorkflowDef(
      "relate-" + ToLower(e.name) + "-" + ToLower(r.name),
      "Relate " + Label(e) + " to " + TargetLabel(r, "related entity"),
      [e.id, r.toEntityId],
      None,
      true,
      SequenceType,
      [s1, s2, s3, s4],
      Diamond(s1, s2, s3, s4))
  }

  function RuleWorkflow(e: EntityDef, rule: RuleDef): (w: WorkflowDef)
    ensures w.name == "rule-" + ToLower(e.name) + "-" + ToLower(rule.name) && w.isAutoGenerated
    ensures |w.steps| == 2 && w.graph == Chain2(w.steps[0], w.steps[1])
    ensures [w.steps[0].id, w.steps[1].id] == ["check-rule-condition", "apply-rule-action"]
    ensures w.steps[0].stepType == Condition && w.steps[0].condition == Some(rule.condition)
  {
    var s1 := StepSpec(CheckRuleCondition, Condition,
                       None, map[], Some(rule.condition), None);
    var s2 := ActionStep(ApplyRuleAction, ApplyRule,
                         map[RuleIdKey := Str(rule.id), EntityIdKey := Str(InputsEntityIdRef), ActionKey := rule.action]);
    var ruleLabel := OrElse(rule.displayName, rule.name);
    WorkflowDef(
      "rule-" + ToLower(e.name) + "-" + ToLower(rule.name),
      "Apply " + ruleLabel + " to " + Label(e),
      [e.id],
      None,
      true,
      SequenceType,
      [s1, s2],
      Chain2(s1, s2))
  }

  /** `{ ...s }` for a string `s`: one property per character, named by its decimal index. */
  function SpreadChars(s: string, n: nat): Record
    requires n <= |s|
    decreases n
  {
    if n == 0 then map[] else SpreadChars(s, n - 1)[NatToDecimal(n - 1) := Str([s[n - 1]])]
  }

  /** The related entity's `entityData`: the template string spread into an object, then the
      back-reference to the main entity under `<main entity name>Id`. */
  function RelatedEntityData(e1: EntityDef): Value {
    Obj(SpreadChars(InputsRelatedEntityDataRef, |InputsRelatedEntityDataRef|)
          [ToLower(e1.name) + "Id" := Str(MainEntityOutputIdInQuotes)])
  }

  /** The composite workflow for a related pair; `relationName` is the first matching relation's name. */
  function CrossEntityWorkflow(e1: EntityDef, e2: EntityDef, relationName: string): (w: WorkflowDef)
    ensures w.name == "create-" + ToLower(e1.name) + "-with-" + ToLower(e2.name) && w.isAutoGenerated
    ensures w.entities == [e1.id, e2.id]
    ensures |w.steps| == 4 && w.graph == Diamond(w.steps[0], w.steps[1], w.steps[2], w.steps[3])
    ensures [w.steps[0].id, w.steps[1].id, w.steps[2].id, w.steps[3].id]
         == ["validate-input", "create-main-entity", "create-related-entity", "link-entities"]
    ensures Get(w.steps[3].params, "relationshipType") == Str(relationName)
    ensures Get(w.steps[1].params, "entityType") == Str(e1.name)
    ensures Get(w.steps[1].params, "entityData") == Str("{{inputs.mainEntityData}}")
    ensures Get(w.steps[2].params, "entityType") == Str(e2.name)
    ensures Get(w.steps[2].params, "entityData") == RelatedEntityData(e1)
    ensures Get(w.steps[3].params, "fromEntityId") == Str("'{{create-main-entity.output.id}}")
    ensures Get(w.steps[3].params, "toEntityId") == Str("'{{create-related-entity.output.id}}")
  {
    var s1 := Step(ValidateInput, Validation);
    var s2 := ActionStep(CreateMainEntity, CreateEntity,
                         map[EntityTypeKey := Str(e1.name), EntityDataKey := Str(InputsMainEntityDataRef)]);
    var s3 := ActionStep(CreateRelatedEntity, CreateEntity,
                         map[EntityTypeKey := Str(e2.name), EntityDataKey := RelatedEntityData(e1)]);
    var s4 := ActionStep(LinkEntities, CreateRelationship,
                         map[FromEntityIdKey := Str(MainEntityOutputIdQuoted),
                             ToEntityIdKey := Str(RelatedEntityOutputIdQuoted),
                             RelationshipTypeKey := Str(relationName)]);
    WorkflowDef(
      "create-" + ToLower(e1.name) + "-with-" + ToLower(e2.name),
      "Create " + Label(e1) + " with " + Label(e2),
      [e1.id, e2.id],
      None,
      true,
      SequenceType,
      [s1, s2, s3, s4],
      Diamond(s1, s2, s3, s4))
  }

  // ---------------------------------------------------------------------------
  // Planning: the specification of the loops

  /** `f` applied to each element in turn, the results concatenated. */
  function FlatMap<A, B>(xs: seq<A>, f: A -> seq<B>): seq<B>
    decreases |xs|
  {
    if xs == [] then [] else FlatMap(xs[..|xs| - 1], f) + f(xs[|xs| - 1])
  }

  lemma {:induction false} FlatMapAppend<A, B>(xs: seq<A>, ys: seq<A>, f: A -> seq<B>)
    ensures FlatMap(xs + ys, f) == FlatMap(xs, f) + FlatMap(ys, f)
    decreases |ys|
  {
    if ys == [] {
      assert xs + ys == xs;
    } else {
      var init := ys[..|ys| - 1];
      FlatMapAppend(xs, init, f);
      assert (xs + ys)[..|xs + ys| - 1] == xs + init;
      assert (xs + ys)[|xs + ys| - 1] == ys[|ys| - 1];
    }
  }

  /** When every block has length n, the concatenation has n elements per input. */
  lemma {:induction false} FlatMapUniformLength<A, B>(xs: seq<A>, f: A -> seq<B>, n: nat)
    requires forall x :: x in xs ==> |f(x)| == n
    ensures |FlatMap(xs, f)| == n * |xs|
    decreases |xs|
  {
    if xs != [] {
      var init := xs[..|xs| - 1];
      assert forall x :: x in init ==> x in xs;
      FlatMapUniformLength(init, f, n);
      assert xs[|xs| - 1] in xs;
      MulSucc(n, |init|);
    }
  }

  /** When every block has length n, block k sits at positions n*k .. n*k+n-1. */
  lemma FlatMapUniform<A, B>(xs: seq<A>, f: A -> seq<B>, n: nat)
    requires forall x :: x in xs ==> |f(x)| == n
    ensures |FlatMap(xs, f)| == n * |xs|
    ensures forall k :: 0 <= k < |xs| ==>
      n * k + n <= |FlatMap(xs, f)| && FlatMap(xs, f)[n * k..n * k + n] == f(xs[k])
  {
    FlatMapUniformLength(xs, f, n);
    forall k | 0 <= k < |xs|
      ensures n * k + n <= |FlatMap(xs, f)| && FlatMap(xs, f)[n * k..n * k + n] == f(xs[k])
    {
      FlatMapUniformAt(xs, f, n, k);
    }
  }

  lemma {:induction false} FlatMapUniformAt<A, B>(xs: seq<A>, f: A -> seq<B>, n: nat, k: nat)
    requires forall x :: x in xs ==> |f(x)| == n
    requires k < |xs|
    ensures n * k + n <= |FlatMap(xs, f)| && FlatMap(xs, f)[n * k..n * k + n] == f(xs[k])
    decreases |xs|
  {
    var init, last := xs[..|xs| - 1], xs[|xs| - 1];
    assert forall x :: x in init ==> x in xs;
    FlatMapUniformLength(init, f, n);
    var before, block := FlatMap(init, f), f(last);
    assert last in xs;
    if k < |init| {
      FlatMapUniformAt(init, f, n, k);
      assert init[k] == xs[k];
      SliceOfPrefix(before, block, n * k, n * k + n);
    } else {
      assert (before + block)[|before|..|before| + n] == block;
    }
  }

  lemma MulSucc(n: nat, m: nat)
    ensures n * (m + 1) == n * m + n
  {
  }

  lemma SliceOfPrefix<T>(a: seq<T>, b: seq<T>, lo: nat, hi: nat)
    requires lo <= hi <= |a|
    ensures (a + b)[lo..hi] == a[lo..hi]
  {
  }

  /** Every element of the concatenation comes from the block of some input. */
  lemma {:induction false} FlatMapMember<A, B>(xs: seq<A>, f: A -> seq<B>, y: B)
    requires y in FlatMap(xs, f)
    ensures exists x :: x in xs && y in f(x)
    decreases |xs|
  {
    if xs != [] {
      var init := xs[..|xs| - 1];
      if y in FlatMap(init, f) {
        FlatMapMember(init, f, y);
        var x :| x in init && y in f(x);
        assert x in xs;
      } else {
        assert xs[|xs| - 1] in xs;
      }
    }
  }

  /** The five CRUD workflows of one entity, in generation order. */
  function CrudWorkflows(e: EntityDef): (ws: seq<WorkflowDef>)
    ensures |ws| == 5
  {
    [CreateWorkflow(e), ReadWorkflow(e), UpdateWorkflow(e), DeleteWorkflow(e), SearchWorkflow(e)]
  }

  function CrudPlan(es: seq<EntityDef>): seq<WorkflowDef> {
    FlatMap(es, CrudWorkflows)
  }

  /** The relationship workflows of the first n relations of an entity. */
  function RelationshipWorkflows(e: EntityDef, n: nat): (ws: seq<WorkflowDef>)
    requires n <= |e.relations|
    ensures |ws| == n
    decreases n
  {
    if n == 0 then [] else RelationshipWorkflows(e, n - 1) + [RelationshipWorkflow(e, e.relations[n - 1])]
  }

  /** The rule workflows of the first n rules of an entity. */
  function RuleWorkflows(e: EntityDef, n: nat): (ws: seq<WorkflowDef>)
    requires n <= |e.rules|
    ensures |ws| == n
    decreases n
  {
    if n == 0 then [] else RuleWorkflows(e, n - 1) + [RuleWorkflow(e, e.rules[n - 1])]
  }

  /** The relationship workflows then the rule workflows of one entity. */
  function RelationRuleWorkflows(e: EntityDef): seq<WorkflowDef> {
    RelationshipWorkflows(e, |e.relations|) + RuleWorkflows(e, |e.rules|)
  }

  function RelationRulePlan(es: seq<EntityDef>): seq<WorkflowDef> {
    FlatMap(es, RelationRuleWorkflows)
  }

  /** The relations between two entities, in either direction, in repository order. */
  function RelationsBetween(a: EntityDef, b: EntityDef, rels: seq<RelationDef>): (rs: seq<RelationDef>)
    ensures forall r :: r in rs <==> r in rels && Links(a, b, r)
    decreases |rels|
  {
    if rels == [] then []
    else
      var rest := RelationsBetween(a, b, rels[..|rels| - 1]);
      if Links(a, b, rels[|rels| - 1]) then rest + [rels[|rels| - 1]] else rest
  }

  /** The first relation between two entities is the earliest linking relation in
      repository order; its name is the one the cross-entity link step carries. */
  lemma {:induction false} RelationsBetweenFirst(a: EntityDef, b: EntityDef, rels: seq<RelationDef>)
    ensures RelationsBetween(a, b, rels) != [] ==>
      exists k :: 0 <= k < |rels| && RelationsBetween(a, b, rels)[0] == rels[k] && Links(a, b, rels[k])
        && forall m :: 0 <= m < k ==> !Links(a, b, rels[m])
    decreases |rels|
  {
    if rels != [] {
      var init := rels[..|rels| - 1];
      RelationsBetweenFirst(a, b, init);
      var rest := RelationsBetween(a, b, init);
      if rest != [] {
        var k :| 0 <= k < |init| && rest[0] == init[k] && Links(a, b, init[k])
          && forall m :: 0 <= m < k ==> !Links(a, b, init[m]);
        assert RelationsBetween(a, b, rels)[0] == rels[k];
        assert forall m :: 0 <= m < k ==> rels[m] == init[m];
      } else {
        forall m | 0 <= m < |init| ensures !Links(a, b, rels[m]) {
          assert rels[m] == init[m] && init[m] in init;
        }
      }
    }
  }

  predicate Links(a: EntityDef, b: EntityDef, r: RelationDef) {
    (r.fromEntityId == a.id && r.toEntityId == b.id) || (r.fromEntityId == b.id && r.toEntityId == a.id)
  }

  /** The pairs (i, j), i < j, of row i with j >= start whose entities are related. */
  function PairsRow(es: seq<EntityDef>, rels: seq<RelationDef>, i: nat, start: nat): seq<(nat, nat)>
    requires i < |es|
    decreases |es| - start
  {
    if start >= |es| then []
    else
      (if RelationsBetween(es[i], es[start], rels) != [] then [(i, start)] else [])
        + PairsRow(es, rels, i, start + 1)
  }

  /** All related pairs (i, j), i < j, with i >= from, row by row. */
  function PairsFrom(es: seq<EntityDef>, rels: seq<RelationDef>, from: nat): seq<(nat, nat)>
    decreases |es| - from
  {
    if from >= |es| then [] else PairsRow(es, rels, from, from + 1) + PairsFrom(es, rels, from + 1)
  }

  function RelatedPairs(es: seq<EntityDef>, rels: seq<RelationDef>): seq<(nat, nat)> {
    PairsFrom(es, rels, 0)
  }

  function PairWorkflow(es: seq<EntityDef>, rels: seq<RelationDef>, p: (nat, nat)): WorkflowDef
    requires p.0 < |es| && p.1 < |es| && RelationsBetween(es[p.0], es[p.1], rels) != []
  {
    CrossEntityWorkflow(es[p.0], es[p.1], RelationsBetween(es[p.0], es[p.1], rels)[0].name)
  }

  predicate ValidPair(es: seq<EntityDef>, rels: seq<RelationDef>, p: (nat, nat)) {
    p.0 < p.1 < |es| && RelationsBetween(es[p.0], es[p.1], rels) != []
  }

  /** A row lists exactly the related j >= start, each once, in increasing order. */
  lemma {:induction false} PairsRowSpec(es: seq<EntityDef>, rels: seq<RelationDef>, i: nat, start: nat)
    requires i < start
    requires i < |es|
    ensures forall p :: p in PairsRow(es, rels, i, start) <==> p.0 == i && start <= p.1 && ValidPair(es, rels, p)
    ensures forall a, b :: 0 <= a < b < |PairsRow(es, rels, i, start)| ==>
      PairsRow(es, rels, i, start)[a].1 < PairsRow(es, rels, i, start)[b].1
    ensures forall p :: p in PairsRow(es, rels, i, start) ==> p.0 == i
    decreases |es| - start
  {
    if start < |es| {
      PairsRowSpec(es, rels, i, start + 1);
    }
  }

  /** Lexicographic order on pairs. */
  predicate PairBefore(p: (nat, nat), q: (nat, nat)) {
    p.0 < q.0 || (p.0 == q.0 && p.1 < q.1)
  }

  /** The related pairs are exactly the related i < j (i >= from), strictly increasing, so each occurs once. */
  lemma {:induction false} PairsFromSpec(es: seq<EntityDef>, rels: seq<RelationDef>, from: nat)
    ensures forall p :: p in PairsFrom(es, rels, from) <==> from <= p.0 && ValidPair(es, rels, p)
    ensures forall a, b :: 0 <= a < b < |PairsFrom(es, rels, from)| ==>
      PairBefore(PairsFrom(es, rels, from)[a], PairsFrom(es, rels, from)[b])
    decreases |es| - from
  {
    if from < |es| {
      PairsRowSpec(es, rels, from, from + 1);
      PairsFromSpec(es, rels, from + 1);
      var row := PairsRow(es, rels, from, from + 1);
      var rest := PairsFrom(es, rels, from + 1);
      var all := row + rest;
      assert all == PairsFrom(es, rels, from);
      forall a, b | 0 <= a < b < |all| ensures PairBefore(all[a], all[b]) {
        if b < |row| {
        } else if a < |row| {
          assert all[a] in row && all[b] in rest;
        } else {
          assert all[a] == rest[a - |row|] && all[b] == rest[b - |row|];
        }
      }
    }
  }

  lemma RelatedPairsValid(es: seq<EntityDef>, rels: seq<RelationDef>)
    ensures ValidPairs(es, rels, RelatedPairs(es, rels))
  {
    var ps := RelatedPairs(es, rels);
    PairsFromSpec(es, rels, 0);
    forall k | 0 <= k < |ps| ensures ValidPair(es, rels, ps[k]) {
      assert ps[k] in ps;
    }
  }

  /** The cross-entity workflows of a list of related pairs, in order. */
  predicate ValidPairs(es: seq<EntityDef>, rels: seq<RelationDef>, ps: seq<(nat, nat)>) {
    forall k :: 0 <= k < |ps| ==> ValidPair(es, rels, ps[k])
  }

  function PairWorkflows(es: seq<EntityDef>, rels: seq<RelationDef>, ps: seq<(nat, nat)>): (ws: seq<WorkflowDef>)
    requires ValidPairs(es, rels, ps)
    ensures |ws| == |ps|
    decreases |ps|
  {
    if ps == [] then [] else PairWorkflows(es, rels, ps[..|ps| - 1]) + [PairWorkflow(es, rels, ps[|ps| - 1])]
  }

  lemma {:induction false} PairWorkflowsIndex(es: seq<EntityDef>, rels: seq<RelationDef>, ps: seq<(nat, nat)>)
    requires ValidPairs(es, rels, ps)
    ensures forall k :: 0 <= k < |ps| ==> PairWorkflows(es, rels, ps)[k] == PairWorkflow(es, rels, ps[k])
    decreases |ps|
  {
    if ps != [] {
      PairWorkflowsIndex(es, rels, ps[..|ps| - 1]);
    }
  }

  /** The cross-entity workflows: one per related pair i < j, in loop order. */
  function CrossPlan(es: seq<EntityDef>, rels: seq<RelationDef>): seq<WorkflowDef> {
    RelatedPairsValid(es, rels);
    PairWorkflows(es, rels, RelatedPairs(es, rels))
  }

  /** Everything `autonomousPlanning` returns, in order. */
  function Plan(es: seq<EntityDef>, rels: seq<RelationDef>): seq<WorkflowDef> {
    CrudPlan(es) + RelationRulePlan(es) + CrossPlan(es, rels)
  }

  // ---------------------------------------------------------------------------
  // Properties of the plan

  /** Five CRUD workflows per entity, entity k's at positions 5k..5k+4 in the order create, read, update, delete, search. */
  lemma CrudPlanLayout(es: seq<EntityDef>)
    ensures |CrudPlan(es)| == 5 * |es|
    ensures forall k :: 0 <= k < |es| ==> CrudPlan(es)[5 * k..5 * k + 5] == CrudWorkflows(es[k])
  {
    FlatMapUniform(es, CrudWorkflows, 5);
  }

  /** The number of relation and rule workflows of a list of entities. */
  function RelationRuleCount(es: seq<EntityDef>): nat
    decreases |es|
  {
    if es == [] then 0 else RelationRuleCount(es[..|es| - 1]) + |es[|es| - 1].relations| + |es[|es| - 1].rules|
  }

  lemma {:induction false} RelationRulePlanSize(es: seq<EntityDef>)
    ensures |RelationRulePlan(es)| == RelationRuleCount(es)
    decreases |es|
  {
    if es != [] {
      RelationRulePlanSize(es[..|es| - 1]);
      assert RelationRulePlan(es) == RelationRulePlan(es[..|es| - 1]) + RelationRuleWorkflows(es[|es| - 1]);
    }
  }

  /** The plan's size: five CRUD workflows per entity, its relation and rule workflows, one per related pair. */
  lemma PlanSize(es: seq<EntityDef>, rels: seq<RelationDef>)
    ensures |Plan(es, rels)| == 5 * |es| + RelationRuleCount(es) + |RelatedPairs(es, rels)|
  {
    CrudPlanLayout(es);
    RelationRulePlanSize(es);
  }

  /** The CRUD workflows come first, entity by entity. */
  lemma PlanStartsWithCrud(es: seq<EntityDef>, rels: seq<RelationDef>)
    ensures |Plan(es, rels)| >= 5 * |es|
    ensures forall k :: 0 <= k < |es| ==> Plan(es, rels)[5 * k..5 * k + 5] == CrudWorkflows(es[k])
  {
    var crud, rest := CrudPlan(es), RelationRulePlan(es) + CrossPlan(es, rels);
    ConcatAssoc(crud, RelationRulePlan(es), CrossPlan(es, rels));
    CrudPlanLayout(es);
    PrefixOfConcat(crud, rest);
  }

  lemma ConcatAssoc<T>(a: seq<T>, b: seq<T>, c: seq<T>)
    ensures a + b + c == a + (b + c)
  {
  }

  lemma PrefixOfConcat<T>(a: seq<T>, b: seq<T>)
    ensures (a + b)[..|a|] == a
    ensures forall i, j :: 0 <= i <= j <= |a| ==> (a + b)[i..j] == a[i..j]
  {
  }

  /** What every generated definition satisfies: auto-generated, nodes mirroring the steps,
      distinct node ids, and edges that resolve and run forward. */
  predicate Generated(w: WorkflowDef) {
    w.isAutoGenerated && WellFormed(w)
  }

  /** Generated definitions have acyclic graphs. */
  lemma GeneratedIsAcyclic(w: WorkflowDef)
    requires Generated(w)
    ensures Acyclic(w.graph)
  {
    ForwardGraphIsAcyclic(w.graph);
  }

  lemma CreateWorkflowShape(e: EntityDef)
    ensures IsChain(CreateWorkflow(e)) && Generated(CreateWorkflow(e))
  {
    var w := CreateWorkflow(e);
    Chain3Shape(w, w.steps[0], w.steps[1], w.steps[2]);
  }

  lemma ReadWorkflowShape(e: EntityDef)
    ensures IsChain(ReadWorkflow(e)) && Generated(ReadWorkflow(e))
  {
    var w := ReadWorkflow(e);
    Chain2Shape(w, w.steps[0], w.steps[1]);
  }

  lemma UpdateWorkflowShape(e: EntityDef)
    ensures IsChain(UpdateWorkflow(e)) && Generated(UpdateWorkflow(e))
  {
    var w := UpdateWorkflow(e);
    Chain3Shape(w, w.steps[0], w.steps[1], w.steps[2]);
  }

  lemma DeleteWorkflowShape(e: EntityDef)
    ensures IsChain(DeleteWorkflow(e)) && Generated(DeleteWorkflow(e))
  {
    var w := DeleteWorkflow(e);
    Chain3Shape(w, w.steps[0], w.steps[1], w.steps[2]);
  }

  lemma SearchWorkflowShape(e: EntityDef)
    ensures IsChain(SearchWorkflow(e)) && Generated(SearchWorkflow(e))
  {
    var w := SearchWorkflow(e);
    Chain3Shape(w, w.steps[0], w.steps[1], w.steps[2]);
  }

  /** A relationship workflow fans out to both endpoint lookups and back in. */
  lemma RelationshipWorkflowShape(e: EntityDef, r: RelationDef)
    ensures IsFanOutFanIn(RelationshipWorkflow(e, r)) && Generated(RelationshipWorkflow(e, r))
  {
    var w := RelationshipWorkflow(e, r);
    DiamondShape(w, w.steps[0], w.steps[1], w.steps[2], w.steps[3]);
  }

  /** A rule workflow is the condition step chained to the action step. */
  lemma RuleWorkflowShape(e: EntityDef, rule: RuleDef)
    ensures IsChain(RuleWorkflow(e, rule)) && Generated(RuleWorkflow(e, rule))
  {
    var w := RuleWorkflow(e, rule);
    Chain2Shape(w, w.steps[0], w.steps[1]);
  }

  /** A cross-entity workflow fans out to the two creations and back in to the link. */
  lemma CrossEntityWorkflowShape(e1: EntityDef, e2: EntityDef, relationName: string)
    ensures IsFanOutFanIn(CrossEntityWorkflow(e1, e2, relationName))
    ensures Generated(CrossEntityWorkflow(e1, e2, relationName))
  {
    var w := CrossEntityWorkflow(e1, e2, relationName);
    DiamondShape(w, w.steps[0], w.steps[1], w.steps[2], w.steps[3]);
  }

  lemma CrudWorkflowsGenerated(e: EntityDef)
    ensures forall w :: w in CrudWorkflows(e) ==> Generated(w)
  {
    var ws := CrudWorkflows(e);
    forall k | 0 <= k < |ws| ensures Generated(ws[k]) {
      if k == 0 { CreateWorkflowShape(e); }
      else if k == 1 { ReadWorkflowShape(e); }
      else if k == 2 { UpdateWorkflowShape(e); }
      else if k == 3 { DeleteWorkflowShape(e); }
      else { SearchWorkflowShape(e); }
    }
  }

  lemma {:induction false} RelationshipWorkflowsGenerated(e: EntityDef, n: nat)
    requires n <= |e.relations|
    ensures forall w :: w in RelationshipWorkflows(e, n) ==> Generated(w)
    decreases n
  {
    if n > 0 {
      RelationshipWorkflowsGenerated(e, n - 1);
      RelationshipWorkflowShape(e, e.relations[n - 1]);
    }
  }

  lemma {:induction false} RuleWorkflowsGenerated(e: EntityDef, n: nat)
    requires n <= |e.rules|
    ensures forall w :: w in RuleWorkflows(e, n) ==> Generated(w)
    decreases n
  {
    if n > 0 {
      RuleWorkflowsGenerated(e, n - 1);
      RuleWorkflowShape(e, e.rules[n - 1]);
    }
  }

  lemma CrossPlanGenerated(es: seq<EntityDef>, rels: seq<RelationDef>)
    ensures forall w :: w in CrossPlan(es, rels) ==> Generated(w)
  {
    var ps := RelatedPairs(es, rels);
    RelatedPairsValid(es, rels);
    PairWorkflowsIndex(es, rels, ps);
    var ws := CrossPlan(es, rels);
    forall k | 0 <= k < |ws| ensures Generated(ws[k]) {
      var p := ps[k];
      CrossEntityWorkflowShape(es[p.0], es[p.1], RelationsBetween(es[p.0], es[p.1], rels)[0].name);
    }
  }

  /** Every planned workflow is auto-generated, mirrors its steps, and has resolvable forward
      edges (hence, by GeneratedIsAcyclic, an acyclic graph). */
  lemma PlanGenerated(es: seq<EntityDef>, rels: seq<RelationDef>)
    ensures forall w :: w in Plan(es, rels) ==> Generated(w)
  {
    forall w | w in CrudPlan(es) ensures Generated(w) {
      FlatMapMember(es, CrudWorkflows, w);
      var e :| e in es && w in CrudWorkflows(e);
      CrudWorkflowsGenerated(e);
    }
    forall w | w in RelationRulePlan(es) ensures Generated(w) {
      FlatMapMember(es, RelationRuleWorkflows, w);
      var e :| e in es && w in RelationRuleWorkflows(e);
      RelationshipWorkflowsGenerated(e, |e.relations|);
      RuleWorkflowsGenerated(e, |e.rules|);
    }
    CrossPlanGenerated(es, rels);
  }

  /** Exactly the related pairs i < j get a cross-entity workflow, each once, named after the pair
      and carrying the first related relation's name. */
  lemma CrossPlanSpec(es: seq<EntityDef>, rels: seq<RelationDef>)
    ensures |CrossPlan(es, rels)| == |RelatedPairs(es, rels)|
    ensures forall p :: p in RelatedPairs(es, rels) <==> ValidPair(es, rels, p)
    ensures forall a, b :: 0 <= a < b < |RelatedPairs(es, rels)| ==> RelatedPairs(es, rels)[a] != RelatedPairs(es, rels)[b]
    ensures forall k :: 0 <= k < |CrossPlan(es, rels)| ==>
      var p := RelatedPairs(es, rels)[k];
      && ValidPair(es, rels, p)
      && CrossPlan(es, rels)[k] == CrossEntityWorkflow(es[p.0], es[p.1], RelationsBetween(es[p.0], es[p.1], rels)[0].name)
  {
    PairsFromSpec(es, rels, 0);
    RelatedPairsValid(es, rels);
    var ps := RelatedPairs(es, rels);
    PairWorkflowsIndex(es, rels, ps);
    forall a, b | 0 <= a < b < |ps| ensures ps[a] != ps[b] {
      assert PairBefore(ps[a], ps[b]);
    }
  }

  // ---------------------------------------------------------------------------
  // The planning loops

  // Bookkeeping of the pairs the nested loops have visited.

  lemma RowStart(es: seq<EntityDef>, rels: seq<RelationDef>, done: seq<(nat, nat)>, i: nat)
    requires i < |es|
    requires done + PairsFrom(es, rels, i) == RelatedPairs(es, rels)
    ensures done + PairsRow(es, rels, i, i + 1) + PairsFrom(es, rels, i + 1) == RelatedPairs(es, rels)
  {
    assert PairsFrom(es, rels, i) == PairsRow(es, rels, i, i + 1) + PairsFrom(es, rels, i + 1);
    assert done + (PairsRow(es, rels, i, i + 1) + PairsFrom(es, rels, i + 1))
        == done + PairsRow(es, rels, i, i + 1) + PairsFrom(es, rels, i + 1);
  }

  lemma RowStep(es: seq<EntityDef>, rels: seq<RelationDef>, done: seq<(nat, nat)>, i: nat, j: nat)
    requires i < j < |es|
    requires done + PairsRow(es, rels, i, j) + PairsFrom(es, rels, i + 1) == RelatedPairs(es, rels)
    ensures (if RelationsBetween(es[i], es[j], rels) != [] then done + [(i, j)] else done)
            + PairsRow(es, rels, i, j + 1) + PairsFrom(es, rels, i + 1) == RelatedPairs(es, rels)
  {
    var row, rest := PairsRow(es, rels, i, j + 1), PairsFrom(es, rels, i + 1);
    if RelationsBetween(es[i], es[j], rels) != [] {
      assert PairsRow(es, rels, i, j) == [(i, j)] + row;
      assert done + ([(i, j)] + row) + rest == done + [(i, j)] + row + rest;
    } else {
      assert PairsRow(es, rels, i, j) == row;
    }
  }

  lemma RowEnd(es: seq<EntityDef>, rels: seq<RelationDef>, done: seq<(nat, nat)>, i: nat)
    requires i < |es|
    requires done + PairsRow(es, rels, i, |es|) + PairsFrom(es, rels, i + 1) == RelatedPairs(es, rels)
    ensures done + PairsFrom(es, rels, i + 1) == RelatedPairs(es, rels)
  {
    assert PairsRow(es, rels, i, |es|) == [];
    assert done + [] == done;
  }

  lemma PairWorkflowsSnoc(es: seq<EntityDef>, rels: seq<RelationDef>, done: seq<(nat, nat)>, p: (nat, nat))
    requires ValidPairs(es, rels, done) && ValidPair(es, rels, p)
    ensures ValidPairs(es, rels, done + [p])
    ensures PairWorkflows(es, rels, done + [p]) == PairWorkflows(es, rels, done) + [PairWorkflow(es, rels, p)]
  {
    assert (done + [p])[..|done|] == done;
  }

  /** `generateCrossEntityWorkflows`: the nested i < j loops. */
  method GenerateCrossEntityWorkflows(es: seq<EntityDef>, rels: seq<RelationDef>) returns (workflows: seq<WorkflowDef>)
    ensures workflows == CrossPlan(es, rels)
  {
    workflows := [];
    ghost var done: seq<(nat, nat)> := [];
    var i: nat := 0;
    while i < |es|
      invariant 0 <= i <= |es|
      invariant done + PairsFrom(es, rels, i) == RelatedPairs(es, rels)
      invariant ValidPairs(es, rels, done)
      invariant workflows == PairWorkflows(es, rels, done)
    {
      RowStart(es, rels, done, i);
      var j: nat := i + 1;
      while j < |es|
        invariant i + 1 <= j <= |es|
        invariant done + PairsRow(es, rels, i, j) + PairsFrom(es, rels, i + 1) == RelatedPairs(es, rels)
        invariant ValidPairs(es, rels, done)
        invariant workflows == PairWorkflows(es, rels, done)
      {
        RowStep(es, rels, done, i, j);
        var relations := RelationsBetween(es[i], es[j], rels);
        if |relations| > 0 {
          PairWorkflowsSnoc(es, rels, done, (i, j));
          workflows := workflows + [CrossEntityWorkflow(es[i], es[j], relations[0].name)];
          done := done + [(i, j)];
        }
        j := j + 1;
      }
      RowEnd(es, rels, done, i);
      i := i + 1;
    }
    assert done + [] == done;
  }

  lemma CrudPlanSnoc(es: seq<EntityDef>, i: nat)
    requires i < |es|
    ensures CrudPlan(es[..i + 1]) == CrudPlan(es[..i]) + CrudWorkflows(es[i])
  {
    assert es[..i + 1][..i] == es[..i];
  }

  lemma RelationRulePlanSnoc(es: seq<EntityDef>, i: nat)
    requires i < |es|
    ensures RelationRulePlan(es[..i + 1]) == RelationRulePlan(es[..i]) + RelationRuleWorkflows(es[i])
  {
    assert es[..i + 1][..i] == es[..i];
  }

  /** The first loop of `autonomousPlanning`: five CRUD workflows per entity. */
  method PlanCrudWorkflows(es: seq<EntityDef>) returns (generated: seq<WorkflowDef>)
    ensures generated == CrudPlan(es)
  {
    generated := [];
    var i := 0;
    while i < |es|
      invariant 0 <= i <= |es|
      invariant generated == CrudPlan(es[..i])
    {
      var e := es[i];
      // the create, read, update, delete and search pushes of one iteration
      generated := generated + CrudWorkflows(e);
      CrudPlanSnoc(es, i);
      i := i + 1;
    }
    assert es[..|es|] == es;
  }

  /** The relationship workflows of one entity, relation by relation. */
  method EntityRelationshipWorkflows(e: EntityDef) returns (ws: seq<WorkflowDef>)
    ensures ws == RelationshipWorkflows(e, |e.relations|)
  {
    ws := [];
    var k := 0;
    while k < |e.relations|
      invariant 0 <= k <= |e.relations|
      invariant ws == RelationshipWorkflows(e, k)
    {
      ws := ws + [RelationshipWorkflow(e, e.relations[k])];
      k := k + 1;
    }
  }

  /** The rule workflows of one entity, rule by rule. */
  method EntityRuleWorkflows(e: EntityDef) returns (ws: seq<WorkflowDef>)
    ensures ws == RuleWorkflows(e, |e.rules|)
  {
    ws := [];
    var k := 0;
    while k < |e.rules|
      invariant 0 <= k <= |e.rules|
      invariant ws == RuleWorkflows(e, k)
    {
      ws := ws + [RuleWorkflow(e, e.rules[k])];
      k := k + 1;
    }
  }

  /** The second loop of `autonomousPlanning`: each entity's relationship workflows, then its rule workflows. */
  method PlanRelationRuleWorkflows(es: seq<EntityDef>) returns (generated: seq<WorkflowDef>)
    ensures generated == RelationRulePlan(es)
  {
    generated := [];
    var i := 0;
    while i < |es|
      invariant 0 <= i <= |es|
      invariant generated == RelationRulePlan(es[..i])
    {
      var e := es[i];
      var relationWorkflows := EntityRelationshipWorkflows(e);
      var ruleWorkflows := EntityRuleWorkflows(e);
      ConcatAssoc(generated, relationWorkflows, ruleWorkflows);
      generated := generated + relationWorkflows + ruleWorkflows;
      RelationRulePlanSnoc(es, i);
      i := i + 1;
    }
    assert es[..|es|] == es;
  }

  /** `autonomousPlanning`: the CRUD workflows of every entity, then the relationship and rule
      workflows entity by entity, then the cross-entity workflows. */
  method AutonomousPlanning(es: seq<EntityDef>, rels: seq<RelationDef>) returns (generated: seq<WorkflowDef>)
    ensures generated == Plan(es, rels)
  {
    var crud := PlanCrudWorkflows(es);
    var relationRule := PlanRelationRuleWorkflows(es);
    var cross := GenerateCrossEntityWorkflows(es, rels);
    generated := crud + relationRule + cross;
  }
}
