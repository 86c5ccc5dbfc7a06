/** The frontend application store: one immutable `AppState` record and one function
    per action of the store.  Every action replaces whole fields of the state with
    values built by `map`, `filter` and spreads, so each is a function from the current
    state to the next. */
module Store {
  import opened Common

  /** An entity, property, relation, action, rule, workflow definition or agent session:
      the store reads nothing of these but their `id`. */
  datatype Item = Item(id: string, fields: Record)

  /** A chat conversation, whose message list `addMessage` extends. */
  datatype Conversation = Conversation(id: string, fields: Record, messages: seq<Value>)

  function ItemId(x: Item): string { x.id }

  function ConversationId(c: Conversation): string { c.id }

  datatype AppState = AppState(
    entities: seq<Item>,
    selectedEntity: Option<Item>,
    properties: seq<Item>,
    relations: seq<Item>,
    actions: seq<Item>,
    rules: seq<Item>,
    workflows: seq<Item>,
    activeWorkflow: Option<Item>,
    sessions: seq<Item>,
    activeSession: Option<Item>,
    conversations: seq<Conversation>,
    activeConversation: Option<Conversation>,
    messages: seq<Value>,
    loading: bool,
    error: Option<string>)

  /** The state the store is created with: every list empty, nothing selected. */
  const Initial := AppState([], None, [], [], [], [], [], None, [], None, [], None, [], false, None)

  // ---------------------------------------------------------------------------------
  // The list and selection operations the actions are built from

  function CountId<T>(xs: seq<T>, k: string, key: T -> string): nat
  {
    if xs == [] then 0 else (if key(xs[0]) == k then 1 else 0) + CountId(xs[1..], k, key)
  }

  /** `xs.map(e => e.id === x.id ? x : e)`. */
  function ReplaceById<T>(xs: seq<T>, x: T, key: T -> string): seq<T>
  {
    if xs == [] then []
    else [if key(xs[0]) == key(x) then x else xs[0]] + ReplaceById(xs[1..], x, key)
  }

  /** `xs.filter(e => e.id !== k)`. */
  function RemoveById<T>(xs: seq<T>, k: string, key: T -> string): seq<T>
  {
    if xs == [] then []
    else (if key(xs[0]) == k then [] else [xs[0]]) + RemoveById(xs[1..], k, key)
  }

  /** `p?.id === x.id ? x : p`. */
  function RefreshSelection<T>(p: Option<T>, x: T, key: T -> string): Option<T>
  {
    if p.Some? && key(p.value) == key(x) then Some(x) else p
  }

  /** `p?.id === k ? null : p`. */
  function ClearSelection<T>(p: Option<T>, k: string, key: T -> string): Option<T>
  {
    if p.Some? && key(p.value) == k then None else p
  }

  /** `{ ...c, messages: [...c.messages, m] }`. */
  function WithMessage(c: Conversation, m: Value): Conversation
  {
    c.(messages := c.messages + [m])
  }

  /** The conversation list after `addMessage`: `cs.map(c => c.id === k ? WithMessage(c, m) : c)`. */
  function AppendToMatching(cs: seq<Conversation>, k: string, m: Value): seq<Conversation>
  {
    if cs == [] then []
    else [if cs[0].id == k then WithMessage(cs[0], m) else cs[0]] + AppendToMatching(cs[1..], k, m)
  }

  // ---------------------------------------------------------------------------------
  // The actions

  function SetEntities(s: AppState, xs: seq<Item>): AppState { s.(entities := xs) }
  function SetSelectedEntity(s: AppState, p: Option<Item>): AppState { s.(selectedEntity := p) }
  function AddEntity(s: AppState, x: Item): AppState { s.(entities := s.entities + [x]) }
  function UpdateEntity(s: AppState, x: Item): AppState
  {
    s.(entities := ReplaceById(s.entities, x, ItemId),
       selectedEntity := RefreshSelection(s.selectedEntity, x, ItemId))
  }
  function DeleteEntity(s: AppState, k: string): AppState
  {
    s.(entities := RemoveById(s.entities, k, ItemId),
       selectedEntity := ClearSelection(s.selectedEntity, k, ItemId))
  }

  function SetProperties(s: AppState, xs: seq<Item>): AppState { s.(properties := xs) }
  function AddProperty(s: AppState, x: Item): AppState { s.(properties := s.properties + [x]) }
  function UpdateProperty(s: AppState, x: Item): AppState { s.(properties := ReplaceById(s.properties, x, ItemId)) }
  function DeleteProperty(s: AppState, k: string): AppState { s.(properties := RemoveById(s.properties, k, ItemId)) }

  function SetRelations(s: AppState, xs: seq<Item>): AppState { s.(relations := xs) }
  function AddRelation(s: AppState, x: Item): AppState { s.(relations := s.relations + [x]) }
  function UpdateRelation(s: AppState, x: Item): AppState { s.(relations := ReplaceById(s.relations, x, ItemId)) }
  function DeleteRelation(s: AppState, k: string): AppState { s.(relations := RemoveById(s.relations, k, ItemId)) }

  function SetActions(s: AppState, xs: seq<Item>): AppState { s.(actions := xs) }
  function AddAction(s: AppState, x: Item): AppState { s.(actions := s.actions + [x]) }
  function UpdateAction(s: AppState, x: Item): AppState { s.(actions := ReplaceById(s.actions, x, ItemId)) }
  function DeleteAction(s: AppState, k: string): AppState { s.(actions := RemoveById(s.actions, k, ItemId)) }

  function SetRules(s: AppState, xs: seq<Item>): AppState { s.(rules := xs) }
  function AddRule(s: AppState, x: Item): AppState { s.(rules := s.rules + [x]) }
  function UpdateRule(s: AppState, x: Item): AppState { s.(rules := ReplaceById(s.rules, x, ItemId)) }
  function DeleteRule(s: AppState, k: string): AppState { s.(rules := RemoveById(s.rules, k, ItemId)) }

  function SetWorkflows(s: AppState, xs: seq<Item>): AppState { s.(workflows := xs) }
  function SetActiveWorkflow(s: AppState, p: Option<Item>): AppState { s.(activeWorkflow := p) }
  function AddWorkflow(s: AppState, x: Item): AppState { s.(workflows := s.workflows + [x]) }
  function UpdateWorkflow(s: AppState, x: Item): AppState
  {
    s.(workflows := ReplaceById(s.workflows, x, ItemId),
       activeWorkflow := RefreshSelection(s.activeWorkflow, x, ItemId))
  }
  function DeleteWorkflow(s: AppState, k: string): AppState
  {
    s.(workflows := RemoveById(s.workflows, k, ItemId),
       activeWorkflow := ClearSelection(s.activeWorkflow, k, ItemId))
  }

  /** Sessions have no delete action. */
  function SetSessions(s: AppState, xs: seq<Item>): AppState { s.(sessions := xs) }
  function SetActiveSession(s: AppState, p: Option<Item>): AppState { s.(activeSession := p) }
  function AddSession(s: AppState, x: Item): AppState { s.(sessions := s.sessions + [x]) }
  function UpdateSession(s: AppState, x: Item): AppState
  {
    s.(sessions := ReplaceById(s.sessions, x, ItemId),
       activeSession := RefreshSelection(s.activeSession, x, ItemId))
  }

  function SetConversations(s: AppState, cs: seq<Conversation>): AppState { s.(conversations := cs) }
  function SetActiveConversation(s: AppState, p: Option<Conversation>): AppState { s.(activeConversation := p) }
  function AddConversation(s: AppState, c: Conversation): AppState
  {
    s.(conversations := s.conversations + [c], activeConversation := Some(c))
  }
  function UpdateConversation(s: AppState, c: Conversation): AppState
  {
    s.(conversations := ReplaceById(s.conversations, c, ConversationId),
       activeConversation := RefreshSelection(s.activeConversation, c, ConversationId))
  }
  function DeleteConversation(s: AppState, k: string): AppState
  {
    s.(conversations := RemoveById(s.conversations, k, ConversationId),
       activeConversation := ClearSelection(s.activeConversation, k, ConversationId))
  }

  /** Without an active conversation the state is returned as it is. */
  function AddMessage(s: AppState, m: Value): AppState
  {
    match s.activeConversation
    case None => s
    case Some(c) =>
      s.(conversations := AppendToMatching(s.conversations, c.id, m),
         activeConversation := Some(WithMessage(c, m)))
  }

  function SetLoading(s: AppState, b: bool): AppState { s.(loading := b) }
  function SetError(s: AppState, e: Option<string>): AppState { s.(error := e) }

  // ---------------------------------------------------------------------------------
  // A uniform view of the seven lists of `Item`s

  datatype ItemList = EntityList | PropertyList | RelationList | ActionList | RuleList | WorkflowList | SessionList

  function ListOf(s: AppState, l: ItemList): seq<Item>
  {
    match l
    case EntityList => s.entities
    case PropertyList => s.properties
    case RelationList => s.relations
    case ActionList => s.actions
    case RuleList => s.rules
    case WorkflowList => s.workflows
    case SessionList => s.sessions
  }

  /** The lists the store keeps a selected or active element for. */
  predicate HasSelection(l: ItemList)
  {
    l == EntityList || l == WorkflowList || l == SessionList
  }

  /** The selected or active element kept beside a list; the other lists have none. */
  function SelectionOf(s: AppState, l: ItemList): Option<Item>
  {
    match l
    case EntityList => s.selectedEntity
    case WorkflowList => s.activeWorkflow
    case SessionList => s.activeSession
    case _ => None
  }

  /** The `add*` action of list `l`. */
  function AddTo(s: AppState, l: ItemList, x: Item): AppState
  {
    match l
    case EntityList => AddEntity(s, x)
    case PropertyList => AddProperty(s, x)
    case RelationList => AddRelation(s, x)
    case ActionList => AddAction(s, x)
    case RuleList => AddRule(s, x)
    case WorkflowList => AddWorkflow(s, x)
    case SessionList => AddSession(s, x)
  }

  /** The `update*` action of list `l`. */
  function UpdateIn(s: AppState, l: ItemList, x: Item): AppState
  {
    match l
    case EntityList => UpdateEntity(s, x)
    case PropertyList => UpdateProperty(s, x)
    case RelationList => UpdateRelation(s, x)
    case ActionList => UpdateAction(s, x)
    case RuleList => UpdateRule(s, x)
    case WorkflowList => UpdateWorkflow(s, x)
    case SessionList => UpdateSession(s, x)
  }

  /** The `delete*` action of list `l`. */
  function DeleteFrom(s: AppState, l: ItemList, k: string): AppState
    requires l != SessionList
  {
    match l
    case EntityList => DeleteEntity(s, k)
    case PropertyList => DeleteProperty(s, k)
    case RelationList => DeleteRelation(s, k)
    case ActionList => DeleteAction(s, k)
    case RuleList => DeleteRule(s, k)
    case WorkflowList => DeleteWorkflow(s, k)
  }

  /** The `set*` action of list `l`. */
  function SetList(s: AppState, l: ItemList, xs: seq<Item>): AppState
  {
    match l
    case EntityList => SetEntities(s, xs)
    case PropertyList => SetProperties(s, xs)
    case RelationList => SetRelations(s, xs)
    case ActionList => SetActions(s, xs)
    case RuleList => SetRules(s, xs)
    case WorkflowList => SetWorkflows(s, xs)
    case SessionList => SetSessions(s, xs)
  }

  /** The action that sets the selection of list `l`. */
  function SetSelection(s: AppState, l: ItemList, p: Option<Item>): AppState
    requires HasSelection(l)
  {
    match l
    case EntityList => SetSelectedEntity(s, p)
    case WorkflowList => SetActiveWorkflow(s, p)
    case SessionList => SetActiveSession(s, p)
  }

  /** `s` with list `l` replaced by `xs` and, where the list has one, its selection by `p`. */
  function WithList(s: AppState, l: ItemList, xs: seq<Item>, p: Option<Item>): AppState
  {
    match l
    case EntityList => s.(entities := xs, selectedEntity := p)
    case PropertyList => s.(properties := xs)
    case RelationList => s.(relations := xs)
    case ActionList => s.(actions := xs)
    case RuleList => s.(rules := xs)
    case WorkflowList => s.(workflows := xs, activeWorkflow := p)
    case SessionList => s.(sessions := xs, activeSession := p)
  }

  /** Everything outside list `l` and its selection is as in `s`. */
  predicate OnlyTouches(s: AppState, r: AppState, l: ItemList)
  {
    r == WithList(s, l, ListOf(r, l), SelectionOf(r, l))
  }

  // ---------------------------------------------------------------------------------
  // Properties of the list operations

  /** `update*` on a list: every element with `x`'s id becomes `x`, every other element
      stays where it was, and the length is kept. */
  lemma {:induction false} ReplaceByIdPointwise<T>(xs: seq<T>, x: T, key: T -> string)
    ensures |ReplaceById(xs, x, key)| == |xs|
    ensures forall i :: 0 <= i < |xs| ==>
      ReplaceById(xs, x, key)[i] == (if key(xs[i]) == key(x) then x else xs[i])
  {
    if xs != [] {
      ReplaceByIdPointwise(xs[1..], x, key);
    }
  }

  /** `delete*` on a list: exactly the elements without id `k` survive, and the list
      shrinks by the number of elements with that id. */
  lemma {:induction false} RemoveByIdMembers<T(!new)>(xs: seq<T>, k: string, key: T -> string)
    ensures forall y :: y in RemoveById(xs, k, key) <==> y in xs && key(y) != k
    ensures |RemoveById(xs, k, key)| == |xs| - CountId(xs, k, key)
  {
    if xs != [] {
      RemoveByIdMembers(xs[1..], k, key);
      assert xs == [xs[0]] + xs[1..];
    }
  }

  /** `addMessage` on the list: the entries with id `k` get the message, the others are
      kept, and so is the length. */
  lemma {:induction false} AppendToMatchingPointwise(cs: seq<Conversation>, k: string, m: Value)
    ensures |AppendToMatching(cs, k, m)| == |cs|
    ensures forall i :: 0 <= i < |cs| ==>
      AppendToMatching(cs, k, m)[i] == (if cs[i].id == k then WithMessage(cs[i], m) else cs[i])
  {
    if cs != [] {
      AppendToMatchingPointwise(cs[1..], k, m);
    }
  }

  /** Updating with an id no element has changes nothing. */
  lemma {:induction false} ReplaceByIdAbsent<T>(xs: seq<T>, x: T, key: T -> string)
    requires forall i :: 0 <= i < |xs| ==> key(xs[i]) != key(x)
    ensures ReplaceById(xs, x, key) == xs
  {
    if xs != [] {
      ReplaceByIdAbsent(xs[1..], x, key);
    }
  }

  /** Updating twice with the same element is updating once. */
  lemma ReplaceByIdIdempotent<T>(xs: seq<T>, x: T, key: T -> string)
    ensures ReplaceById(ReplaceById(xs, x, key), x, key) == ReplaceById(xs, x, key)
  {
    ReplaceByIdPointwise(xs, x, key);
    ReplaceByIdPointwise(ReplaceById(xs, x, key), x, key);
  }

  /** Updating keeps the id at every position. */
  lemma ReplaceByIdKeepsIds<T>(xs: seq<T>, x: T, key: T -> string)
    ensures |ReplaceById(xs, x, key)| == |xs|
    ensures forall i :: 0 <= i < |xs| ==> key(ReplaceById(xs, x, key)[i]) == key(xs[i])
  {
    ReplaceByIdPointwise(xs, x, key);
  }

  /** Deleting keeps the survivors in their order: it distributes over concatenation. */
  lemma {:induction false} RemoveByIdConcat<T(!new)>(xs: seq<T>, ys: seq<T>, k: string, key: T -> string)
    ensures RemoveById(xs + ys, k, key) == RemoveById(xs, k, key) + RemoveById(ys, k, key)
  {
    if xs == [] {
      assert xs + ys == ys;
    } else {
      assert (xs + ys)[1..] == xs[1..] + ys;
      RemoveByIdConcat(xs[1..], ys, k, key);
    }
  }

  /** Deleting an id no element has changes nothing. */
  lemma {:induction false} RemoveByIdAbsent<T(!new)>(xs: seq<T>, k: string, key: T -> string)
    requires forall i :: 0 <= i < |xs| ==> key(xs[i]) != k
    ensures RemoveById(xs, k, key) == xs
  {
    if xs != [] {
      RemoveByIdAbsent(xs[1..], k, key);
    }
  }

  /** Deleting the id of an element just added undoes the add. */
  lemma RemoveAfterAppend<T(!new)>(xs: seq<T>, x: T, key: T -> string)
    ensures RemoveById(xs + [x], key(x), key) == RemoveById(xs, key(x), key)
  {
    RemoveByIdConcat(xs, [x], key(x), key);
    assert RemoveById([x], key(x), key) == [];
  }

  // ---------------------------------------------------------------------------------
  // Properties of the actions

  /** `add*` appends one element to its list and leaves every other part of the state. */
  lemma AddAppends(s: AppState, l: ItemList, x: Item)
    ensures ListOf(AddTo(s, l, x), l) == ListOf(s, l) + [x]
    ensures SelectionOf(AddTo(s, l, x), l) == SelectionOf(s, l)
    ensures OnlyTouches(s, AddTo(s, l, x), l)
  {
  }

  /** `update*` replaces exactly the elements with the new element's id, keeps the
      length, and replaces the list's selection only when it has that id. */
  lemma UpdateReplaces(s: AppState, l: ItemList, x: Item)
    ensures var before, after := ListOf(s, l), ListOf(UpdateIn(s, l, x), l);
      |after| == |before| &&
      (forall i :: 0 <= i < |before| ==> after[i] == (if before[i].id == x.id then x else before[i]))
    ensures var p := SelectionOf(s, l);
      SelectionOf(UpdateIn(s, l, x), l) == (if p.Some? && p.value.id == x.id then Some(x) else p)
    ensures OnlyTouches(s, UpdateIn(s, l, x), l)
  {
    ReplaceByIdPointwise(ListOf(s, l), x, ItemId);
  }

  /** `delete*` removes exactly the elements with the id, keeps the rest in order, and
      clears the list's selection iff it had that id. */
  lemma DeleteRemoves(s: AppState, l: ItemList, k: string)
    requires l != SessionList
    ensures var before, after := ListOf(s, l), ListOf(DeleteFrom(s, l, k), l);
      (forall y :: y in after <==> y in before && y.id != k) &&
      |after| == |before| - CountId(before, k, ItemId) &&
      after == RemoveById(before, k, ItemId)
    ensures var p := SelectionOf(s, l);
      SelectionOf(DeleteFrom(s, l, k), l) == (if p.Some? && p.value.id == k then None else p)
    ensures OnlyTouches(s, DeleteFrom(s, l, k), l)
  {
    RemoveByIdMembers(ListOf(s, l), k, ItemId);
  }

  /** `set*` on list `l` replaces the list wholesale, leaves its selection alone (even when
      the selection no longer names a listed element), and a second `set*` overrides the first. */
  lemma SetListOverwrites(s: AppState, l: ItemList, xs: seq<Item>, ys: seq<Item>)
    ensures ListOf(SetList(s, l, xs), l) == xs
    ensures SelectionOf(SetList(s, l, xs), l) == SelectionOf(s, l)
    ensures OnlyTouches(s, SetList(s, l, xs), l)
    ensures SetList(SetList(s, l, xs), l, ys) == SetList(s, l, ys)
  {
  }

  /** `setSelectedEntity`, `setActiveWorkflow` and `setActiveSession` replace the selection
      without looking at the list, and a second call overrides the first. */
  lemma SetSelectionOverwrites(s: AppState, l: ItemList, p: Option<Item>, q: Option<Item>)
    requires HasSelection(l)
    ensures SelectionOf(SetSelection(s, l, p), l) == p
    ensures ListOf(SetSelection(s, l, p), l) == ListOf(s, l)
    ensures OnlyTouches(s, SetSelection(s, l, p), l)
    ensures SetSelection(SetSelection(s, l, p), l, q) == SetSelection(s, l, q)
  {
  }

  /** The chat and UI setters overwrite their one field: of two calls the last counts. */
  lemma ChatAndUiSettersOverwrite(s: AppState, cs: seq<Conversation>, cs': seq<Conversation>,
                                  c: Option<Conversation>, c': Option<Conversation>,
                                  b: bool, b': bool, e: Option<string>, e': Option<string>)
    ensures SetConversations(SetConversations(s, cs), cs') == SetConversations(s, cs')
    ensures SetActiveConversation(SetActiveConversation(s, c), c') == SetActiveConversation(s, c')
    ensures SetLoading(SetLoading(s, b), b') == SetLoading(s, b')
    ensures SetError(SetError(s, e), e') == SetError(s, e')
    ensures SetLoading(s, b).loading == b && SetError(s, e).error == e
  {
  }

  /** `addConversation` appends the conversation and makes it the active one. */
  lemma AddConversationActivates(s: AppState, c: Conversation)
    ensures AddConversation(s, c).conversations == s.conversations + [c]
    ensures AddConversation(s, c).activeConversation == Some(c)
    ensures forall l :: ListOf(AddConversation(s, c), l) == ListOf(s, l)
  {
  }

  /** `addMessage` without an active conversation leaves the state as it is; with one,
      it appends the message to the active conversation and to every listed conversation
      with its id, to no other conversation, and not to the state's own `messages`. */
  lemma AddMessageAppends(s: AppState, m: Value)
    ensures s.activeConversation.None? ==> AddMessage(s, m) == s
    ensures s.activeConversation.Some? ==>
      var c, r := s.activeConversation.value, AddMessage(s, m);
      r.activeConversation == Some(c.(messages := c.messages + [m])) &&
      |r.conversations| == |s.conversations| &&
      (forall i :: 0 <= i < |s.conversations| ==>
        r.conversations[i].id == s.conversations[i].id &&
        r.conversations[i].fields == s.conversations[i].fields &&
        r.conversations[i].messages ==
          (if s.conversations[i].id == c.id then s.conversations[i].messages + [m]
           else s.conversations[i].messages)) &&
      r.messages == s.messages
  {
    if s.activeConversation.Some? {
      AppendToMatchingPointwise(s.conversations, s.activeConversation.value.id, m);
    }
  }

  // ---------------------------------------------------------------------------------
  // The selected and active selections stay on listed elements

  predicate Points<T(==)>(p: Option<T>, xs: seq<T>)
  {
    p.Some? ==> p.value in xs
  }

  /** Each selected or active element is one of the elements of its list. */
  predicate Consistent(s: AppState)
  {
    Points(s.selectedEntity, s.entities) && Points(s.activeWorkflow, s.workflows) &&
    Points(s.activeSession, s.sessions) && Points(s.activeConversation, s.conversations)
  }

  lemma RefreshKeepsPoints<T>(p: Option<T>, xs: seq<T>, x: T, key: T -> string)
    requires Points(p, xs)
    ensures Points(RefreshSelection(p, x, key), ReplaceById(xs, x, key))
  {
    if p.Some? {
      ReplaceByIdPointwise(xs, x, key);
      var i :| 0 <= i < |xs| && xs[i] == p.value;
      assert ReplaceById(xs, x, key)[i] == RefreshSelection(p, x, key).value;
    }
  }

  lemma AppendKeepsActive(c: Conversation, cs: seq<Conversation>, m: Value)
    requires c in cs
    ensures WithMessage(c, m) in AppendToMatching(cs, c.id, m)
  {
    AppendToMatchingPointwise(cs, c.id, m);
    var i :| 0 <= i < |cs| && cs[i] == c;
    assert AppendToMatching(cs, c.id, m)[i] == WithMessage(c, m);
  }

  /** `add*` keeps the selections on listed elements: it only lengthens a list. */
  lemma AddKeepsConsistent(s: AppState, l: ItemList, x: Item)
    requires Consistent(s)
    ensures Consistent(AddTo(s, l, x))
  {
  }

  /** `update*` moves the selection along with the element it names. */
  lemma UpdateKeepsConsistent(s: AppState, l: ItemList, x: Item)
    requires Consistent(s)
    ensures Consistent(UpdateIn(s, l, x))
  {
    match l {
      case EntityList => RefreshKeepsPoints(s.selectedEntity, s.entities, x, ItemId);
      case WorkflowList => RefreshKeepsPoints(s.activeWorkflow, s.workflows, x, ItemId);
      case SessionList => RefreshKeepsPoints(s.activeSession, s.sessions, x, ItemId);
      case _ =>
    }
  }

  /** `delete*` clears the selection together with the element it names. */
  lemma DeleteKeepsConsistent(s: AppState, l: ItemList, k: string)
    requires l != SessionList
    requires Consistent(s)
    ensures Consistent(DeleteFrom(s, l, k))
  {
    RemoveByIdMembers(ListOf(s, l), k, ItemId);
  }

  /** The conversation actions keep the active conversation listed: `addConversation`
      activates what it appends, `updateConversation` and `deleteConversation` move or
      clear the selection with its element, and `addMessage` extends the active
      conversation and its list entry alike. */
  lemma ConversationActionsKeepConsistent(s: AppState, c: Conversation, k: string, m: Value)
    requires Consistent(s)
    ensures Consistent(AddConversation(s, c))
    ensures Consistent(UpdateConversation(s, c))
    ensures Consistent(DeleteConversation(s, k))
    ensures Consistent(AddMessage(s, m))
  {
    RefreshKeepsPoints(s.activeConversation, s.conversations, c, ConversationId);
    RemoveByIdMembers(s.conversations, k, ConversationId);
    if s.activeConversation.Some? {
      AppendKeepsActive(s.activeConversation.value, s.conversations, m);
    }
  }

  /** The initial state is consistent, so every state reached from it without the
      setters is. */
  lemma InitialConsistent()
    ensures Consistent(Initial)
    ensures Initial.activeConversation.None? && !Initial.loading && Initial.error.None?
  {
  }
}
