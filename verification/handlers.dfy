/** The per-integration item handlers that the two copies of the provider
    share. Each one asks Home Assistant for a list of raw items in one or more
    ways, normalises the first answer it accepts, and answers the empty list
    when a request fails or a reply has an unexpected shape (its
    `except Exception: return []`). */
module Handlers {
  import opened PyText
  import opened PyJson
  import opened HomeAssistant
  import opened Normalize
  import opened Probe

  /** Where the generic handler looks for items in the entity's attributes. */
  const GenericAttributes: seq<string> := ["items", "item", "todo_items", "entity_items"]

  /** Where the Alexa handler looks for items in the entity's attributes. */
  const AlexaAttributes: seq<string> := ["items", "item_names", "todos", "to_dos", "tasks"]

  /** Where the Bring! handler looks for items in an entity's attributes. */
  const BringAttributes: seq<string> := ["items", "item_names", "purchases", "shopping_list", "products"]

  /** The raw list id the last Bring! attempt sends beside the entity id:
      `list_id.replace("todo.", "")`. */
  function RawListId(listId: string): string
  {
    Replace(listId, "todo.", "")
  }

  /** For an id of the usual shape, "todo." followed by a name in which
      "todo." does not occur, the raw list id is that name. */
  lemma RawListIdOfTodoEntity(name: string)
    requires !IsInfix("todo.", name)
    ensures RawListId("todo." + name) == name
  {
    assert ("todo." + name)[..5] == "todo.";
    assert ("todo." + name)[5..] == name;
    ReplaceAbsent(name, "todo.", "");
  }

  /** Python's single left-to-right pass can form a new "todo." out of the
      pieces around a removed one, so the raw id need not be free of it. */
  lemma RawListIdCanKeepPrefix()
    ensures RawListId("totodo.do.") == "todo."
  {
    var s := "totodo.do.";
    assert s[..5][2] != "todo."[2];
    assert s[1..][..5][1] != "todo."[1];
    assert s[2..][..5] == "todo.";
    assert s[7..] == "do.";
    assert Replace("do.", "todo.", "") == "do.";
    assert Replace(s[2..], "todo.", "") == "do.";
    assert Replace(s[1..], "todo.", "") == "o" + "do.";
  }

  /** `state_data.get("attributes", {}).get(key, [])`. */
  function StateAttr(sd: Json, key: string): Try<Json>
  {
    var attrs :- Get(sd, "attributes", Obj([]));
    Get(attrs, key, Arr([]))
  }

  /** Normalise the items a reply yields, propagating an exception. */
  function Process(rule: Rule, source: Try<Json>, env: Env): Try<seq<ListItem>>
  {
    var items :- source;
    NormalizeJson(rule, items, env)
  }

  /** The items of the first truthy candidate attribute, normalised; None
      when every candidate is falsy. */
  function ProbeItems(attrs: Json, names: seq<string>, rule: Rule, env: Env): (r: Try<Option<seq<ListItem>>>)
    ensures r == Ok(None) <==> FirstTruthy(attrs, names) == Ok(None)
  {
    var found :- FirstTruthy(attrs, names);
    match found
    case Some(items) =>
      var active :- NormalizeJson(rule, items, env);
      Ok(Some(active))
    case None => Ok(None)
  }

  /** A state probe is decided by the first truthy candidate attribute: its
      items, normalised, are the result (an exception included), and the
      attributes after it are never looked at. */
  lemma ProbeItemsFirstTruthy(attrs: Json, names: seq<string>, rule: Rule, env: Env, k: nat)
    requires attrs.Obj? && k < |names| && Truthy(Field(attrs, names[k], Arr([])))
    requires forall j :: 0 <= j < k ==> !Truthy(Field(attrs, names[j], Arr([])))
    ensures ProbeItems(attrs, names, rule, env) ==
      match NormalizeJson(rule, Field(attrs, names[k], Arr([])), env)
      case Ok(active) => Ok(Some(active))
      case Raise => Raise
  {
    FirstTruthyAt(attrs, names, k);
  }

  /** local_todo: the "items" attribute of the entity state. A failed or
      non-200 state read, or a state that is not a dict, gives nothing. */
  function LocalTodoItems(listId: string, b: Backend, env: Env): (r: seq<ListItem>)
    ensures !b.stateOf(listId).Reply? ==> r == []
    ensures b.stateOf(listId).Reply? && !b.stateOf(listId).body.Obj? ==> r == []
  {
    match b.stateOf(listId)
    case Reply(sd) => Recover(Process(LocalTodo, StateAttr(sd, "items"), env))
    case _ => []
  }

  /** google_tasks: the service reply, or else the entity state. A failed
      service call, a failed or non-200 state read after a non-200 service
      reply, or a reply that is not a dict gives nothing. */
  function GoogleTasksItems(listId: string, b: Backend, env: Env): (r: seq<ListItem>)
    ensures b.getItems(listId).Failed? ==> r == []
    ensures b.getItems(listId).Reply? && !b.getItems(listId).body.Obj? ==> r == []
    ensures b.getItems(listId).Non200? && !b.stateOf(listId).Reply? ==> r == []
    ensures b.getItems(listId).Non200? && b.stateOf(listId).Reply? && !b.stateOf(listId).body.Obj? ==> r == []
  {
    match b.getItems(listId)
    case Reply(data) => Recover(Process(GoogleService, Get(data, "items", Arr([])), env))
    case Failed => []
    case Non200 =>
      match b.stateOf(listId)
      case Reply(sd) => Recover(Process(GoogleState, StateAttr(sd, "items"), env))
      case _ => []
  }

  /** todoist: the service reply, or else the entity state, filtered alike.
      The failures give nothing as in google_tasks. */
  function TodoistItems(listId: string, b: Backend, env: Env): (r: seq<ListItem>)
    ensures b.getItems(listId).Failed? ==> r == []
    ensures b.getItems(listId).Reply? && !b.getItems(listId).body.Obj? ==> r == []
    ensures b.getItems(listId).Non200? && !b.stateOf(listId).Reply? ==> r == []
    ensures b.getItems(listId).Non200? && b.stateOf(listId).Reply? && !b.stateOf(listId).body.Obj? ==> r == []
  {
    match b.getItems(listId)
    case Reply(data) => Recover(Process(Todoist, Get(data, "items", Arr([])), env))
    case Failed => []
    case Non200 =>
      match b.stateOf(listId)
      case Reply(sd) => Recover(Process(Todoist, StateAttr(sd, "items"), env))
      case _ => []
  }

  /** caldav: the "todos" attribute of the entity state. A failed or
      non-200 state read, or a state that is not a dict, gives nothing. */
  function CalDavItems(listId: string, b: Backend, env: Env): (r: seq<ListItem>)
    ensures !b.stateOf(listId).Reply? ==> r == []
    ensures b.stateOf(listId).Reply? && !b.stateOf(listId).body.Obj? ==> r == []
  {
    match b.stateOf(listId)
    case Reply(sd) => Recover(Process(CalDav, StateAttr(sd, "todos"), env))
    case _ => []
  }

  /** alexa_todo from the entity state: the first truthy attribute among
      `AlexaAttributes`. */
  function AlexaFromState(sd: Json, env: Env): Try<seq<ListItem>>
  {
    var attrs :- Get(sd, "attributes", Obj([]));
    var found :- ProbeItems(attrs, AlexaAttributes, AlexaState, env);
    Ok(if found.Some? then found.value else [])
  }

  /** alexa_todo: the service reply, or else the entity state. The failures
      give nothing as in google_tasks. */
  function AlexaTodoItems(listId: string, b: Backend, env: Env): (r: seq<ListItem>)
    ensures b.getItems(listId).Failed? ==> r == []
    ensures b.getItems(listId).Reply? && !b.getItems(listId).body.Obj? ==> r == []
    ensures b.getItems(listId).Non200? && !b.stateOf(listId).Reply? ==> r == []
    ensures b.getItems(listId).Non200? && b.stateOf(listId).Reply? && !b.stateOf(listId).body.Obj? ==> r == []
  {
    match b.getItems(listId)
    case Reply(data) => Recover(Process(AlexaService, Get(data, "items", Arr([])), env))
    case Failed => []
    case Non200 =>
      match b.stateOf(listId)
      case Reply(sd) => Recover(AlexaFromState(sd, env))
      case _ => []
  }

  /** The legacy shopping list API. Its loop reads every item as a dict, so
      a single item that is not one loses the whole list. */
  function LegacyItems(b: Backend, env: Env): (r: seq<ListItem>)
    ensures !b.shoppingList.Reply? ==> r == []
    ensures (b.shoppingList.Reply? && Iterate(b.shoppingList.body).Ok? &&
             exists k :: 0 <= k < |Iterate(b.shoppingList.body).value| && !Iterate(b.shoppingList.body).value[k].Obj?)
      ==> r == []
  {
    match b.shoppingList
    case Reply(all) => Recover(NormalizeJson(Legacy, all, env))
    case _ => []
  }

  /** The generic handler's last two attempts: /api/todo/items, then the
      todo.get_items service. */
  function GenericEndpoints(listId: string, b: Backend, env: Env): seq<ListItem>
  {
    match b.todoItems(listId)
    case Reply(items) => Recover(NormalizeJson(TodoApi, items, env))
    case Failed => []
    case Non200 =>
      match b.getItems(listId)
      case Reply(sr) => Recover(Process(TodoApi, Get(sr, "items", Arr([])), env))
      case _ => []
  }

  /** Where the items sit in a todo.get_items reply for `listId`: under
      service_response[listId]["items"] when the reply has a "service_response"
      key (nothing when that holds no entry for the list), else under a
      top-level "items" key. */
  function ServiceEnvelope(sr: Json, listId: string): (r: Try<Json>)
    ensures HasKey(sr, "service_response") && Field(sr, "service_response", Obj([])).Obj? ==>
      var svc := Field(sr, "service_response", Obj([]));
      (HasKey(svc, listId) && Field(svc, listId, Obj([])).Obj? ==>
         r == Ok(Field(Field(svc, listId, Obj([])), "items", Arr([])))) &&
      (!HasKey(svc, listId) ==> r == Ok(Arr([])))
    ensures sr.Obj? && !HasKey(sr, "service_response") ==> r == Ok(Field(sr, "items", Arr([])))
    ensures !(sr.Obj? || sr.Arr? || sr.Str?) ==> r.Raise?
  {
    var nested :- Contains(sr, "service_response");
    if nested then
      var svc :- Get(sr, "service_response", Obj([]));
      var hasList :- Contains(svc, listId);
      if hasList then
        var entityData :- Get(svc, listId, Obj([]));
        Get(entityData, "items", Arr([]))
      else Ok(Arr([]))
    else Get(sr, "items", Arr([]))
  }

  /** bring: the records of a 200 todo.get_items reply, as they are returned
      (even when there are none). A reply that is not a dict, or whose
      service_response holds no entry for the list, gives none. */
  function BringServiceItems(sr: Json, listId: string, env: Env): (r: seq<ListItem>)
    ensures !sr.Obj? ==> r == []
    ensures (sr.Obj? && HasKey(sr, "service_response") && Field(sr, "service_response", Obj([])).Obj? &&
             !HasKey(Field(sr, "service_response", Obj([])), listId))
      ==> r == []
  {
    Recover(Process(BringService, ServiceEnvelope(sr, listId), env))
  }

  /** A handler that got a 200 reply from the service answers from it alone:
      any backend that gives the same reply yields the same records, whatever
      its other endpoints answer. */
  lemma ServiceReplyIsFinal(listId: string, b: Backend, b': Backend, env: Env)
    requires b.getItems(listId).Reply? && b'.getItems(listId) == b.getItems(listId)
    ensures GoogleTasksItems(listId, b, env) == GoogleTasksItems(listId, b', env)
    ensures TodoistItems(listId, b, env) == TodoistItems(listId, b', env)
    ensures AlexaTodoItems(listId, b, env) == AlexaTodoItems(listId, b', env)
  {
  }

  /** A dict-shaped generic probe refuses plain strings: `item.get` runs
      before the `isinstance(item, str)` test, so a list holding a string makes
      the probe raise, and the handler answers nothing from that attribute. */
  lemma GenericProbeRejectsText(attrs: Json, text: string, env: Env)
    requires attrs.Obj? && Field(attrs, "items", Arr([])) == Arr([Str(text)])
    ensures ProbeItems(attrs, GenericAttributes, GenericProbe, env) == Raise
  {
    assert Truthy(Arr([Str(text)]));
    assert !Processable(GenericProbe, Str(text));
  }
}
