/** The app copy of the provider: it lists every to-do entity of Home
    Assistant with a live count of its open items, and serves the items of
    any one list given its id and integration kind. Beside the shared
    handlers it searches related entities when a list's own state holds no
    items. */
module AppProvider {
  import opened PyText
  import opened PyJson
  import opened HomeAssistant
  import opened Normalize
  import opened Probe
  import opened Handlers

  /** The integration kinds with a dedicated handler in this copy. */
  const DedicatedKinds: set<Json> := {
    Str("local_todo"), Str("google_tasks"), Str("todoist"), Str("caldav"), Str("alexa_todo"), Str("bring")
  }

  // ---------------------------------------------------------------------------
  // Selecting entities from /api/states
  // ---------------------------------------------------------------------------

  /** A list comprehension `[e for e in xs if test(e)]` whose test may raise:
      it raises when any test does. */
  function Select(xs: seq<Json>, test: Json -> Try<bool>): (r: Try<seq<Json>>)
    ensures r.Ok? <==> forall k :: 0 <= k < |xs| ==> test(xs[k]).Ok?
    ensures r.Ok? ==> forall x :: x in r.value ==> x in xs && test(x) == Ok(true)
    ensures r.Ok? ==> forall k :: 0 <= k < |xs| && test(xs[k]) == Ok(true) ==> xs[k] in r.value
    decreases |xs|
  {
    if xs == [] then Ok([])
    else
      var n := |xs| - 1;
      var prev :- Select(xs[..n], test);
      var keep :- test(xs[n]);
      assert forall k :: 0 <= k < n ==> xs[..n][k] == xs[k];
      Ok(prev + (if keep then [xs[n]] else []))
  }

  /** Extending the input by one element whose test succeeds extends the
      selection by that element when the test is true. */
  lemma SelectSnoc(xs: seq<Json>, i: nat, test: Json -> Try<bool>)
    requires i < |xs| && Select(xs[..i], test).Ok? && test(xs[i]).Ok?
    ensures Select(xs[..i + 1], test) ==
      Ok(Select(xs[..i], test).value + (if test(xs[i]).value then [xs[i]] else []))
  {
    assert xs[..i + 1][..i] == xs[..i];
  }

  /** Independent reference: the positions whose test is true, ascending. */
  function SelectedIndices(xs: seq<Json>, test: Json -> Try<bool>): (r: seq<nat>)
    ensures forall j :: 0 <= j < |r| ==> r[j] < |xs| && test(xs[r[j]]) == Ok(true)
    ensures forall j, j' :: 0 <= j < j' < |r| ==> r[j] < r[j']
    ensures forall k :: 0 <= k < |xs| && test(xs[k]) == Ok(true) ==> k in r
    decreases |xs|
  {
    if xs == [] then []
    else
      var n := |xs| - 1;
      var prev := SelectedIndices(xs[..n], test);
      assert forall j :: 0 <= j < |prev| ==> xs[..n][prev[j]] == xs[prev[j]];
      prev + (if test(xs[n]) == Ok(true) then [n] else [])
  }

  /** A successful selection is the selection of all but the last element,
      followed by the last element when its test is true. */
  lemma SelectLast(xs: seq<Json>, test: Json -> Try<bool>)
    requires xs != [] && Select(xs, test).Ok?
    ensures Select(xs[..|xs| - 1], test).Ok? && test(xs[|xs| - 1]).Ok?
    ensures Select(xs, test).value ==
      Select(xs[..|xs| - 1], test).value + (if test(xs[|xs| - 1]).value then [xs[|xs| - 1]] else [])
  {
  }

  /** The selected positions of all but the last element, followed by the
      last position when its test is true. */
  lemma SelectedIndicesLast(xs: seq<Json>, test: Json -> Try<bool>)
    requires xs != []
    ensures SelectedIndices(xs, test) ==
      SelectedIndices(xs[..|xs| - 1], test) + (if test(xs[|xs| - 1]) == Ok(true) then [|xs| - 1] else [])
  {
  }

  /** The selection is the input at the selected positions, in their order
      and with their multiplicity. */
  lemma {:induction false} SelectByIndex(xs: seq<Json>, test: Json -> Try<bool>)
    requires Select(xs, test).Ok?
    ensures |Select(xs, test).value| == |SelectedIndices(xs, test)|
    ensures forall j :: 0 <= j < |SelectedIndices(xs, test)| ==>
      Select(xs, test).value[j] == xs[SelectedIndices(xs, test)[j]]
    decreases |xs|
  {
    if xs != [] {
      var n := |xs| - 1;
      SelectLast(xs, test);
      SelectedIndicesLast(xs, test);
      SelectByIndex(xs[..n], test);
      var before := Select(xs[..n], test).value;
      var prev := SelectedIndices(xs[..n], test);
      var out := Select(xs, test).value;
      var idx := SelectedIndices(xs, test);
      forall j | 0 <= j < |idx|
        ensures out[j] == xs[idx[j]]
      {
        if j < |prev| {
          assert out[j] == before[j] && idx[j] == prev[j];
          assert xs[..n][prev[j]] == xs[prev[j]];
        }
      }
    }
  }

  /** `entity.get("entity_id", "")`, as a string when it is one. */
  function EntityId(e: Json): string
  {
    match Field(e, "entity_id", Str("")) case Str(s) => s case _ => ""
  }

  /** `state.get("entity_id", "").startswith("todo.")`. */
  function IsTodoState(e: Json): Try<bool>
  {
    var eid :- Get(e, "entity_id", Str(""));
    JsonStartsWith(eid, "todo.")
  }

  /** The generic handler's related entities: other todo entities. */
  function RelatedTodoTest(e: Json, listId: string): Try<bool>
  {
    var todo :- IsTodoState(e);
    Ok(todo && Field(e, "entity_id", Null) != Str(listId))
  }

  /** The Bring! handler's related entities: a todo or sensor entity other
      than the list whose id mentions the list's base name or, in any case,
      "bring". */
  function BringRelatedTest(e: Json, listId: string): Try<bool>
  {
    var eid :- Get(e, "entity_id", Str(""));
    var todo :- JsonStartsWith(eid, "todo.");
    var sensor :- if todo then Ok(true) else JsonStartsWith(eid, "sensor.");
    if !sensor || Field(e, "entity_id", Null) == Str(listId) then Ok(false)
    else
      var mentionsBase :- Contains(eid, RawListId(listId));
      Ok(mentionsBase || IsInfix("bring", Lower(eid.s)))
  }

  /** What qualifies an entity as related to a Bring! list. */
  lemma BringRelatedTestMeaning(e: Json, listId: string)
    requires e.Obj? && Field(e, "entity_id", Str("")).Str?
    ensures var eid := EntityId(e);
      BringRelatedTest(e, listId) == Ok(
        (StartsWith(eid, "todo.") || StartsWith(eid, "sensor.")) && eid != listId &&
        (IsInfix(RawListId(listId), eid) || IsInfix("bring", Lower(eid))))
  {
  }

  // ---------------------------------------------------------------------------
  // get_list_items
  // ---------------------------------------------------------------------------

  /** The generic handler's related-entity scan: other todo entities whose
      "items" attribute yields records. Any failure means nothing found. */
  function GenericRelatedTry(listId: string, b: Backend, env: Env): Try<seq<ListItem>>
  {
    match b.allStates
    case Reply(all) =>
      var states :- Iterate(all);
      var cands :- Select(states, e => RelatedTodoTest(e, listId));
      RelatedScan(cands, ["items"], GenericRelated, env)
    case Non200 => Ok([])
    case Failed => Raise
  }

  /** The generic probe of the list's own attributes, then the related scan
      when the entity has a friendly name, then the todo endpoints. */
  function GenericFromAttrs(listId: string, attrs: Json, b: Backend, env: Env): seq<ListItem>
  {
    match ProbeItems(attrs, GenericAttributes, GenericProbe, env)
    case Raise => []
    case Ok(Some(active)) => active
    case Ok(None) =>
      var related := if Truthy(Field(attrs, "friendly_name", Str(""))) then Recover(GenericRelatedTry(listId, b, env)) else [];
      if related != [] then related else GenericEndpoints(listId, b, env)
  }

  /** The generic handler of this copy, which also serves the legacy list:
      the legacy id goes to the shopping list API, a failed state read gives
      nothing, a non-200 state read goes straight to the todo endpoints, and
      a state whose attributes are not a dict gives nothing. */
  function GenericItems(listId: string, b: Backend, env: Env): (r: seq<ListItem>)
    ensures listId == LegacyListId ==> r == LegacyItems(b, env)
    ensures listId != LegacyListId && b.stateOf(listId).Failed? ==> r == []
    ensures listId != LegacyListId && b.stateOf(listId).Non200? ==> r == GenericEndpoints(listId, b, env)
    ensures listId != LegacyListId && b.stateOf(listId).Reply? && Get(b.stateOf(listId).body, "attributes", Obj([])).Raise? ==>
      r == []
  {
    if listId == LegacyListId then LegacyItems(b, env)
    else
      match b.stateOf(listId)
      case Failed => []
      case Non200 => GenericEndpoints(listId, b, env)
      case Reply(sd) =>
        match Get(sd, "attributes", Obj([]))
        case Raise => []
        case Ok(attrs) => GenericFromAttrs(listId, attrs, b, env)
  }

  /** The Bring! related-entity scan, run when the state's value reads as a
      positive number. */
  function BringRelatedTry(listId: string, sd: Json, b: Backend, env: Env): Try<seq<ListItem>>
  {
    var count :- ToInt(Field(sd, "state", Null));
    if count <= 0 then Ok([])
    else
      match b.allStates
      case Reply(all) =>
        var states :- Iterate(all);
        var cands :- Select(states, e => BringRelatedTest(e, listId));
        RelatedScan(cands, BringAttributes, BringRelated, env)
      case Non200 => Ok([])
      case Failed => Raise
  }

  /** The related scan never runs unless the state reads as a positive
      number. */
  lemma BringRelatedNeedsPositiveState(listId: string, sd: Json, b: Backend, env: Env)
    ensures !(ToInt(Field(sd, "state", Null)).Ok? && ToInt(Field(sd, "state", Null)).value > 0) ==>
      Recover(BringRelatedTry(listId, sd, b, env)) == []
  {
  }

  /** bring from the entity state: the probe, then "purchase_items", then
      the related entities; each later step runs only when the earlier ones
      found nothing. */
  function BringFromState(listId: string, sd: Json, b: Backend, env: Env): Try<Option<seq<ListItem>>>
  {
    var attrs :- Get(sd, "attributes", Obj([]));
    var found :- ProbeItems(attrs, BringAttributes, BringState, env);
    if found.Some? then Ok(found)
    else
      var purchased :=
        if HasKey(attrs, "purchase_items") then Recover(PurchaseItemsOf(Field(attrs, "purchase_items", Obj([])), env))
        else [];
      if purchased != [] then Ok(Some(purchased))
      else
        var related := Recover(BringRelatedTry(listId, sd, b, env));
        Ok(if related != [] then Some(related) else None)
  }

  /** The last Bring! attempt of this copy: the reply is read like the first
      service reply, and its items are used when they are truthy. */
  function RawItems(sr: Json, listId: string, env: Env): Try<seq<ListItem>>
  {
    var items :- ServiceEnvelope(sr, listId);
    if Truthy(items) then NormalizeJson(BringRaw, items, env) else Ok([])
  }

  function BringRawItems(listId: string, b: Backend, env: Env): seq<ListItem>
  {
    match b.getItemsRaw(listId, RawListId(listId))
    case Reply(sr) => Recover(RawItems(sr, listId, env))
    case _ => []
  }

  /** bring: the service reply, else the entity state, else the raw call.
      A 200 service reply is final; a failed service call or, after a
      non-200 one, a failed state read gives nothing; a non-200 state read
      goes straight to the raw call. */
  function BringItems(listId: string, b: Backend, env: Env): (r: seq<ListItem>)
    ensures b.getItems(listId).Reply? ==> r == BringServiceItems(b.getItems(listId).body, listId, env)
    ensures b.getItems(listId).Failed? ==> r == []
    ensures b.getItems(listId).Non200? && b.stateOf(listId).Failed? ==> r == []
    ensures b.getItems(listId).Non200? && b.stateOf(listId).Non200? ==> r == BringRawItems(listId, b, env)
  {
    match b.getItems(listId)
    case Reply(sr) => BringServiceItems(sr, listId, env)
    case Failed => []
    case Non200 =>
      match b.stateOf(listId)
      case Failed => []
      case Non200 => BringRawItems(listId, b, env)
      case Reply(sd) =>
        match BringFromState(listId, sd, b, env)
        case Raise => []
        case Ok(Some(active)) => active
        case Ok(None) => BringRawItems(listId, b, env)
  }

  /** get_list_items: the six dedicated kinds go to their handlers, whatever
      the id; every other kind reaches the legacy-id check and the generic
      handler. */
  function ListItemsFor(listId: string, kind: Json, b: Backend, env: Env): (r: seq<ListItem>)
    ensures kind !in DedicatedKinds ==> r == GenericItems(listId, b, env)
    ensures kind !in DedicatedKinds && listId == LegacyListId ==> r == LegacyItems(b, env)
    ensures kind == Str("bring") ==> r == BringItems(listId, b, env)
    ensures kind == Str("local_todo") ==> r == LocalTodoItems(listId, b, env)
  {
    if kind == Str("local_todo") then LocalTodoItems(listId, b, env)
    else if kind == Str("google_tasks") then GoogleTasksItems(listId, b, env)
    else if kind == Str("todoist") then TodoistItems(listId, b, env)
    else if kind == Str("caldav") then CalDavItems(listId, b, env)
    else if kind == Str("alexa_todo") then AlexaTodoItems(listId, b, env)
    else if kind == Str("bring") then BringItems(listId, b, env)
    else GenericItems(listId, b, env)
  }

  /** A 200 Bring! service reply settles the list in this copy too. */
  lemma BringServiceReplyIsFinal(listId: string, b: Backend, b': Backend, env: Env)
    requires b.getItems(listId).Reply? && b'.getItems(listId) == b.getItems(listId)
    ensures BringItems(listId, b, env) == BringItems(listId, b', env)
  {
  }

  // ---------------------------------------------------------------------------
  // get_lists
  // ---------------------------------------------------------------------------

  /** One entry of the get_lists reply. The legacy entry has no integration. */
  datatype ListSummary = ListSummary(id: string, name: Json, itemCount: nat, integration: Option<Json>)

  /** The integration kind of a todo entity: Bring! by supported_features,
      else its "integration" attribute, else "unknown". */
  function KindOf(attrs: Json): Json
  {
    if Field(attrs, "supported_features", Int(0)) == Int(71) then Str("bring")
    else Field(attrs, "integration", Str("unknown"))
  }

  /** The summary of one todo entity. */
  function Summary(e: Json, b: Backend, env: Env): (s: ListSummary)
    ensures s.id == EntityId(e) && s.integration.Some?
  {
    var eid := EntityId(e);
    var attrs := Field(e, "attributes", Obj([]));
    var kind := KindOf(attrs);
    ListSummary(eid, Field(attrs, "friendly_name", Str(Replace(eid, "todo.", ""))),
                |ListItemsFor(eid, kind, b, env)|, Some(kind))
  }

  function Summaries(todo: seq<Json>, b: Backend, env: Env): seq<ListSummary>
  {
    seq(|todo|, j requires 0 <= j < |todo| => Summary(todo[j], b, env))
  }

  /** Building the summaries one entity at a time gives the same list. */
  lemma SummariesSnoc(todo: seq<Json>, e: Json, b: Backend, env: Env)
    ensures Summaries(todo + [e], b, env) == Summaries(todo, b, env) + [Summary(e, b, env)]
  {
    var left := Summaries(todo + [e], b, env);
    var right := Summaries(todo, b, env) + [Summary(e, b, env)];
    assert |left| == |right|;
    forall j | 0 <= j < |left|
      ensures left[j] == right[j]
    {
      if j < |todo| {
        assert (todo + [e])[j] == todo[j];
      }
    }
  }

  /** The todo entities of the states, with the checks that make the loops
      over them raise: every state is a dict whose entity id is a string, and
      every todo entity's attributes are a dict. */
  function TodoStates(states: seq<Json>): Try<seq<Json>>
  {
    var todo :- Select(states, IsTodoState);
    if forall k :: 0 <= k < |todo| ==> Field(todo[k], "attributes", Obj([])).Obj? then Ok(todo) else Raise
  }

  /** `_try_legacy_shopping_list`: the legacy entry, counting the items whose
      "complete" flag is falsy. */
  function LegacySummary(b: Backend, env: Env): (r: Option<ListSummary>)
    ensures r.Some? <==>
      b.shoppingList.Reply? && Iterate(b.shoppingList.body).Ok? &&
      forall k :: 0 <= k < |Iterate(b.shoppingList.body).value| ==> Iterate(b.shoppingList.body).value[k].Obj?
    ensures r.Some? ==> r.value.id == LegacyListId && r.value.integration.None?
  {
    match b.shoppingList
    case Reply(all) =>
      (match NormalizeJson(Legacy, all, env)
       case Ok(active) => Some(ListSummary(LegacyListId, Str("Shopping List (Legacy)"), |active|, None))
       case Raise => None)
    case _ => None
  }

  /** The legacy entry counts exactly the items the legacy handler lists. */
  lemma LegacySummaryCount(b: Backend, env: Env)
    ensures LegacySummary(b, env).Some? ==>
      LegacySummary(b, env).value.itemCount == |LegacyItems(b, env)| &&
      LegacySummary(b, env).value.id == LegacyListId
    ensures LegacySummary(b, env).None? ==> LegacyItems(b, env) == []
  {
  }

  /** The ids of the selected entities start with "todo.". */
  lemma TodoIds(states: seq<Json>, todo: seq<Json>)
    requires Select(states, IsTodoState) == Ok(todo)
    ensures forall j :: 0 <= j < |todo| ==> StartsWith(EntityId(todo[j]), "todo.")
  {
    forall j | 0 <= j < |todo|
      ensures StartsWith(EntityId(todo[j]), "todo.")
    {
      assert todo[j] in Select(states, IsTodoState).value;
      assert IsTodoState(todo[j]) == Ok(true);
    }
  }

  /** get_lists: no lists without a 200 reply from /api/states; every entry
      is either a todo entity with its integration kind or the legacy entry,
      which has none. */
  function Lists(b: Backend, env: Env): (r: seq<ListSummary>)
    ensures !b.allStates.Reply? ==> r == []
    ensures forall s :: s in r ==>
      (StartsWith(s.id, "todo.") && s.integration.Some?) || (s.id == LegacyListId && s.integration.None?)
  {
    match b.allStates
    case Reply(all) =>
      (match Iterate(all)
       case Raise => []
       case Ok(states) =>
         match TodoStates(states)
         case Raise => []
         case Ok(todo) =>
           if todo != [] then TodoIds(states, todo); Summaries(todo, b, env)
           else match LegacySummary(b, env) case Some(s) => [s] case None => [])
    case _ => []
  }

  /** One summary per todo entity, in the order of the states: the j-th
      summary describes the j-th state whose id starts with "todo.", so no
      todo entity is skipped, repeated or reordered. Its id is the entity id,
      its name the friendly name or else the id without "todo.", its
      integration the kind, and its count the length of that list's items. */
  lemma ListsOnePerTodoEntity(b: Backend, env: Env, states: seq<Json>, todo: seq<Json>)
    requires b.allStates.Reply? && Iterate(b.allStates.body) == Ok(states)
    requires TodoStates(states) == Ok(todo) && todo != []
    ensures |Lists(b, env)| == |todo| == |SelectedIndices(states, IsTodoState)|
    ensures forall j :: 0 <= j < |todo| ==>
      todo[j] == states[SelectedIndices(states, IsTodoState)[j]] &&
      Lists(b, env)[j] == Summary(todo[j], b, env)
    ensures forall j :: 0 <= j < |todo| ==>
      var s := Lists(b, env)[j];
      var attrs := Field(todo[j], "attributes", Obj([]));
      s.id == EntityId(todo[j]) && StartsWith(s.id, "todo.") &&
      s.name == Field(attrs, "friendly_name", Str(Replace(s.id, "todo.", ""))) &&
      s.integration == Some(KindOf(attrs)) &&
      s.itemCount == |ListItemsFor(s.id, KindOf(attrs), b, env)|
  {
    assert Select(states, IsTodoState) == Ok(todo);
    SelectByIndex(states, IsTodoState);
    TodoIds(states, todo);
  }

  /** The legacy entry is offered only when there is no todo entity at all,
      and a failed or malformed /api/states reply gives no lists. */
  lemma ListsFallbacks(b: Backend, env: Env)
    ensures !b.allStates.Reply? ==> Lists(b, env) == []
    ensures b.allStates.Reply? && Iterate(b.allStates.body).Raise? ==> Lists(b, env) == []
    ensures (exists s :: s in Lists(b, env) && s.id == LegacyListId && s.integration.None?) ==>
      b.allStates.Reply? && Iterate(b.allStates.body).Ok? &&
      TodoStates(Iterate(b.allStates.body).value) == Ok([]) && Lists(b, env) == [LegacySummary(b, env).value]
  {
  }

  /** The main get_lists loop: one summary per todo entity, in the order of
      the states. */
  method SummarizeStates(states: seq<Json>, b: Backend, env: Env) returns (lists: seq<ListSummary>)
    requires Select(states, IsTodoState).Ok?
    ensures lists == Summaries(Select(states, IsTodoState).value, b, env)
  {
    lists := [];
    ghost var seen: seq<Json> := [];
    for i := 0 to |states|
      invariant Select(states[..i], IsTodoState) == Ok(seen)
      invariant lists == Summaries(seen, b, env)
    {
      assert IsTodoState(states[i]).Ok?;
      SelectSnoc(states, i, IsTodoState);
      var state := states[i];
      var isTodo := IsTodoState(state).value;
      if !isTodo {
        assert seen + [] == seen;
      }
      if isTodo {
        var listId := EntityId(state);
        var attrs := Field(state, "attributes", Obj([]));
        var kind := KindOf(attrs);
        var items := ListItemsFor(listId, kind, b, env);
        var friendly := Field(attrs, "friendly_name", Str(Replace(listId, "todo.", "")));
        SummariesSnoc(seen, state, b, env);
        lists := lists + [ListSummary(listId, friendly, |items|, Some(kind))];
        seen := seen + [state];
      }
    }
    assert states[..|states|] == states;
  }

  /** get_lists: the todo comprehension, the pass over the todo entities that
      reads their supported_features (it only feeds logging, but raises when
      the attributes are not a dict), the main loop and the legacy fallback. */
  method GetLists(b: Backend, env: Env) returns (lists: seq<ListSummary>)
    ensures lists == Lists(b, env)
  {
    if !b.allStates.Reply? {
      return [];
    }
    var iterated := Iterate(b.allStates.body);
    if iterated.Raise? {
      return [];
    }
    var states := iterated.value;
    var selected := Select(states, IsTodoState);
    if selected.Raise? {
      return [];
    }
    var todo := selected.value;
    for k := 0 to |todo|
      invariant forall k' :: 0 <= k' < k ==> Field(todo[k'], "attributes", Obj([])).Obj?
    {
      var attrs := Field(todo[k], "attributes", Obj([]));
      if !attrs.Obj? {
        return [];
      }
    }
    assert TodoStates(states) == Ok(todo);
    lists := SummarizeStates(states, b, env);
    if lists == [] {
      var legacy := LegacySummary(b, env);
      if legacy.Some? {
        lists := [legacy.value];
      }
    }
  }
}
