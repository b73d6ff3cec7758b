/** Turning a list of raw to-do items into the `{"id", "name"[, "status"]}`
    records the provider returns. Every handler does this the same way: it
    walks the items in order, skips the ones its integration marks as done,
    and builds a record for the others from a chain of fallback keys. What
    differs between the handlers (which flags mean "done", which keys supply
    the id and the name, whether a value that is not a dict is accepted) is
    captured by a `Rule`. */
module Normalize {
  import opened PyText
  import opened PyJson

  /** What the model takes from the Python runtime instead of computing it:
      `repr()` of a list or dict, and the `uuid4()` string drawn for the item
      at a given position. */
  datatype Env = Env(repr: Json -> string, uuid: nat -> string)

  /** One record of the result: an id, a name and, for the generic handler
      only, a status. */
  datatype ListItem = ListItem(id: Json, name: Json, status: Option<Json>)

  /** One item-processing loop or comprehension of the provider. */
  datatype Rule =
    | LocalTodo       // local_todo: items of the entity state
    | GoogleService   // google_tasks: reply of todo.get_items
    | GoogleState     // google_tasks: items of the entity state
    | Todoist         // todoist: service reply and entity state alike
    | CalDav          // caldav: "todos" of the entity state
    | AlexaService    // alexa_todo: reply of todo.get_items
    | AlexaState      // alexa_todo: first non-empty attribute of the state
    | Legacy          // the legacy shopping list API
    | TodoApi         // generic: /api/todo/items and todo.get_items
    | GenericProbe    // generic: first non-empty item attribute of the state
    | GenericRelated  // generic: items of another todo entity
    | BringService    // bring: reply of todo.get_items
    | BringState      // bring: first non-empty attribute of the state
    | BringRelated    // bring: attribute of a related entity
    | BringRaw        // bring: the get_items call with a raw list id

  /** The loops that check `isinstance(item, dict)` and turn any other value
      into a plain record; all other rules call `item.get`, which raises on a
      value that is not a dict. */
  predicate Guarded(rule: Rule)
  {
    rule.AlexaState? || rule.BringState? || rule.BringRelated? || rule.BringRaw?
  }

  /** `item.get(key, "")`. */
  function Attr(item: Json, key: string): Json
  {
    Field(item, key, Str(""))
  }

  /** `item.get(key, False)` is truthy. */
  predicate Flag(item: Json, key: string)
  {
    Truthy(Field(item, key, Bool(false)))
  }

  /** `item.get("status", "") == text`. */
  predicate StatusIs(item: Json, text: string)
  {
    Attr(item, "status") == Str(text)
  }

  /** When a dict item counts as done, and is skipped. */
  predicate Completed(rule: Rule, item: Json)
  {
    match rule
    case LocalTodo => Flag(item, "complete") || Flag(item, "completed")
    case GoogleService => StatusIs(item, "completed")
    case GoogleState => StatusIs(item, "completed")
    case Todoist => Flag(item, "checked") || Flag(item, "completed")
    case CalDav => StatusIs(item, "COMPLETED")
    case AlexaService => EqualsTrue(Field(item, "complete", Bool(false)))
    case AlexaState => Flag(item, "complete") || Flag(item, "completed")
    case Legacy => Flag(item, "complete")
    case TodoApi => Field(item, "status", Null) == Str("completed")
    case GenericProbe => Flag(item, "complete") || StatusIs(item, "completed")
    case GenericRelated => Flag(item, "complete") || StatusIs(item, "completed")
    case BringService =>
      StatusIs(item, "completed") || Flag(item, "complete") || Flag(item, "checked") || Flag(item, "purchase")
    case BringState => StatusIs(item, "completed") || Flag(item, "complete") || Flag(item, "purchase")
    case BringRelated => StatusIs(item, "completed") || Flag(item, "complete") || Flag(item, "purchase")
    case BringRaw => StatusIs(item, "completed") || Flag(item, "complete") || Flag(item, "purchased")
  }

  /** `item.get(keys[0], "") or item.get(keys[1], "") or ... or last`. */
  function FirstOr(item: Json, keys: seq<string>, last: Json): (r: Json)
    ensures Truthy(last) ==> Truthy(r)
    decreases |keys|
  {
    if keys == [] then last else Or(Attr(item, keys[0]), FirstOr(item, keys[1..], last))
  }

  /** The fallback chain yields the value of the first key whose value is
      truthy, and the last resort only when every key's value is falsy. */
  lemma {:induction false} FirstOrPicksFirstTruthy(item: Json, keys: seq<string>, last: Json, k: nat)
    requires k <= |keys|
    requires forall j :: 0 <= j < k ==> !Truthy(Attr(item, keys[j]))
    ensures k < |keys| && Truthy(Attr(item, keys[k])) ==> FirstOr(item, keys, last) == Attr(item, keys[k])
    ensures k == |keys| ==> FirstOr(item, keys, last) == last
    decreases k
  {
    if k > 0 {
      FirstOrPicksFirstTruthy(item, keys[1..], last, k - 1);
    }
  }

  /** `f"{name} ({quantity})"` when the item has a truthy quantity. */
  function WithQuantity(name: Json, item: Json, env: Env): Json
  {
    var q := Field(item, "quantity", Null);
    if Truthy(q) then Str(Show(name, env.repr) + " (" + Show(q, env.repr) + ")") else name
  }

  /** The name changes exactly when the quantity is truthy, and then it is the
      name's text followed by the quantity in parentheses. */
  lemma QuantitySuffix(name: Json, item: Json, env: Env)
    ensures WithQuantity(name, item, env) != name <==> Truthy(Field(item, "quantity", Null))
    ensures var r := WithQuantity(name, item, env);
      r != name ==> r.Str? && Show(name, env.repr) <= r.s && r.s[|r.s| - 1] == ')'
  {
    var q := Field(item, "quantity", Null);
    if Truthy(q) {
      var r := WithQuantity(name, item, env);
      assert |r.s| > |Show(name, env.repr)|;
      assert name.Str? ==> name.s == Show(name, env.repr);
    }
  }

  /** The record built for a dict item that is kept. Only the generic
      handlers attach a status, and the handlers whose id chain ends in
      `str(i)` always produce a truthy id. */
  function Convert(rule: Rule, item: Json, i: nat, env: Env): (r: ListItem)
    ensures r.status.Some? <==> rule.TodoApi? || rule.GenericProbe? || rule.GenericRelated?
    ensures rule.GenericProbe? || rule.GenericRelated? || rule.BringState? || rule.BringRelated? || rule.BringRaw? ==>
      Truthy(r.id)
  {
    var idx := Str(NatToString(i));
    var text := Str(Show(item, env.repr));
    match rule
    case LocalTodo =>
      ListItem(Field(item, "id", Str("item_" + NatToString(i))), Attr(item, "name"), None)
    case GoogleService => ListItem(Attr(item, "id"), Attr(item, "summary"), None)
    case GoogleState => ListItem(Attr(item, "id"), FirstOr(item, ["summary"], Attr(item, "title")), None)
    case Todoist => ListItem(Attr(item, "id"), FirstOr(item, ["content"], Attr(item, "name")), None)
    case CalDav => ListItem(Attr(item, "uid"), FirstOr(item, ["summary"], Attr(item, "description")), None)
    case AlexaService =>
      ListItem(FirstOr(item, ["itemId"], Attr(item, "id")), FirstOr(item, ["text"], Attr(item, "name")), None)
    case AlexaState =>
      ListItem(Or(Attr(item, "itemId"), Field(item, "id", idx)), FirstOr(item, ["text"], Attr(item, "name")), None)
    case Legacy => ListItem(Attr(item, "id"), Attr(item, "name"), None)
    case TodoApi =>
      ListItem(Attr(item, "uid"), Attr(item, "summary"), Some(Field(item, "status", Str("needs_action"))))
    case GenericProbe =>
      ListItem(FirstOr(item, ["uid", "id", "item_id"], idx),
               FirstOr(item, ["summary", "name", "description", "title"], text),
               Some(Field(item, "status", Str("needs_action"))))
    case GenericRelated =>
      ListItem(FirstOr(item, ["uid", "id"], idx), FirstOr(item, ["summary", "name"], text), Some(Str("needs_action")))
    case BringService =>
      ListItem(FirstOr(item, ["uid", "id", "item_id"], Str(env.uuid(i))),
               WithQuantity(FirstOr(item, ["summary", "name", "text"], text), item, env), None)
    case BringState =>
      ListItem(FirstOr(item, ["uid", "id"], idx), WithQuantity(FirstOr(item, ["summary", "name"], text), item, env), None)
    case BringRelated => ListItem(FirstOr(item, ["uid", "id"], idx), FirstOr(item, ["summary", "name"], text), None)
    case BringRaw => ListItem(FirstOr(item, ["uid", "id"], idx), FirstOr(item, ["name", "summary"], text), None)
  }

  /** A two-key chain `item.get(a, "") or item.get(b, "")` ends with the
      second value itself, so a falsy value other than "" comes back as it
      is: a todoist item whose content is empty and whose name is null gets
      the name None, and so does a caldav item with an empty summary and a
      null description. */
  lemma TwoKeyChainKeepsFalsyValue(env: Env)
    ensures Convert(Todoist, Obj([("content", Str("")), ("name", Null)]), 0, env).name == Null
    ensures Convert(CalDav, Obj([("summary", Str("")), ("description", Null)]), 0, env).name == Null
  {
  }

  /** The record a guarded loop builds for an item that is not a dict. */
  function NonDictItem(item: Json, i: nat, env: Env): ListItem
  {
    ListItem(Str("item_" + NatToString(i)), Str(Show(item, env.repr)), None)
  }

  /** The item can be processed without an exception. */
  predicate Processable(rule: Rule, item: Json)
  {
    item.Obj? || Guarded(rule)
  }

  /** The item yields a record: a dict that is not done, or any other value
      in a guarded loop. */
  predicate Keeps(rule: Rule, item: Json)
  {
    if item.Obj? then !Completed(rule, item) else Guarded(rule)
  }

  /** The record a kept item yields. */
  function Produce(rule: Rule, item: Json, i: nat, env: Env): ListItem
  {
    if item.Obj? then Convert(rule, item, i, env) else NonDictItem(item, i, env)
  }

  /** What the item at position i contributes to the result. */
  function Emit(rule: Rule, item: Json, i: nat, env: Env): seq<ListItem>
  {
    if Keeps(rule, item) then [Produce(rule, item, i, env)] else []
  }

  /** The records of a list of items, in order, assuming none raises. */
  function Collected(rule: Rule, items: seq<Json>, env: Env): (r: seq<ListItem>)
    ensures |r| <= |items|
    decreases |items|
  {
    if items == [] then []
    else Collected(rule, items[..|items| - 1], env) + Emit(rule, items[|items| - 1], |items| - 1, env)
  }

  /** Collecting one more item appends what that item emits. */
  lemma CollectedSnoc(rule: Rule, items: seq<Json>, i: nat, env: Env)
    requires i < |items|
    ensures Collected(rule, items[..i + 1], env) == Collected(rule, items[..i], env) + Emit(rule, items[i], i, env)
  {
    assert items[..i + 1][..i] == items[..i];
  }

  /** Independent reference: the positions of the kept items, ascending. */
  function KeptIndices(rule: Rule, items: seq<Json>): (r: seq<nat>)
    ensures forall j :: 0 <= j < |r| ==> r[j] < |items| && Keeps(rule, items[r[j]])
    ensures forall j, j' :: 0 <= j < j' < |r| ==> r[j] < r[j']
    ensures forall k :: 0 <= k < |items| && Keeps(rule, items[k]) ==> k in r
    decreases |items|
  {
    if items == [] then []
    else
      var n := |items| - 1;
      var prev := KeptIndices(rule, items[..n]);
      assert forall j :: 0 <= j < |prev| ==> items[..n][prev[j]] == items[prev[j]];
      prev + (if Keeps(rule, items[n]) then [n] else [])
  }

  /** The j-th record is built from the j-th kept item, at that item's
      position: no done item leaks into the result, none that is kept is
      lost, and the order of the source list is preserved. */
  lemma {:induction false} CollectedByIndex(rule: Rule, items: seq<Json>, env: Env)
    ensures |Collected(rule, items, env)| == |KeptIndices(rule, items)|
    ensures forall j :: 0 <= j < |KeptIndices(rule, items)| ==>
      Collected(rule, items, env)[j] == Produce(rule, items[KeptIndices(rule, items)[j]], KeptIndices(rule, items)[j], env)
    decreases |items|
  {
    if items != [] {
      var n := |items| - 1;
      CollectedByIndex(rule, items[..n], env);
      var prev := KeptIndices(rule, items[..n]);
      var before := Collected(rule, items[..n], env);
      var kept := KeptIndices(rule, items);
      var out := Collected(rule, items, env);
      assert kept == prev + (if Keeps(rule, items[n]) then [n] else []);
      assert out == before + Emit(rule, items[n], n, env);
      forall j | 0 <= j < |kept|
        ensures out[j] == Produce(rule, items[kept[j]], kept[j], env)
      {
        if j < |prev| {
          assert items[..n][prev[j]] == items[prev[j]];
        }
      }
    }
  }

  /** The comprehension or loop: it raises as soon as an item cannot be
      processed (`item.get` on a value that is not a dict), and otherwise
      returns the records of the kept items. */
  function Normalize(rule: Rule, items: seq<Json>, env: Env): (r: Try<seq<ListItem>>)
    ensures r.Raise? <==> exists k :: 0 <= k < |items| && !items[k].Obj? && !Guarded(rule)
  {
    if forall k :: 0 <= k < |items| ==> Processable(rule, items[k]) then Ok(Collected(rule, items, env)) else Raise
  }

  /** When no item raises, the j-th record is built from the j-th kept item
      at its position, and there is one record per kept item. */
  lemma NormalizeKeepsExactly(rule: Rule, items: seq<Json>, env: Env)
    ensures Normalize(rule, items, env).Ok? ==>
      var out := Normalize(rule, items, env).value;
      var kept := KeptIndices(rule, items);
      |out| == |kept|
      && forall j :: 0 <= j < |kept| ==> out[j] == Produce(rule, items[kept[j]], kept[j], env)
  {
    CollectedByIndex(rule, items, env);
  }

  /** One item that cannot be processed makes the whole pass raise. */
  lemma NormalizeRaisesAt(rule: Rule, items: seq<Json>, i: nat, env: Env)
    requires i < |items| && !Processable(rule, items[i])
    ensures Normalize(rule, items, env) == Raise
  {
  }

  /** The same over a decoded JSON value: `for item in v` first. */
  function NormalizeJson(rule: Rule, v: Json, env: Env): Try<seq<ListItem>>
  {
    var items :- Iterate(v);
    Normalize(rule, items, env)
  }

  /** `except Exception: return []` around a computation that returns a list. */
  function Recover<T>(t: Try<seq<T>>): seq<T>
  {
    if t.Ok? then t.value else []
  }

  /** One more item that can be processed extends a successful pass by what
      that item emits. */
  lemma NormalizeSnoc(rule: Rule, items: seq<Json>, i: nat, env: Env)
    requires i < |items| && Normalize(rule, items[..i], env).Ok? && Processable(rule, items[i])
    ensures Normalize(rule, items[..i + 1], env) == Ok(Normalize(rule, items[..i], env).value + Emit(rule, items[i], i, env))
  {
    CollectedSnoc(rule, items, i, env);
    assert forall k :: 0 <= k < i ==> items[..i][k] == items[k];
    assert forall k :: 0 <= k < i + 1 ==> items[..i + 1][k] == items[k];
  }

  /** The item loop as the handlers write it: one pass with an accumulator. */
  method NormalizeItems(rule: Rule, items: seq<Json>, env: Env) returns (r: Try<seq<ListItem>>)
    ensures r == Normalize(rule, items, env)
  {
    var active: seq<ListItem> := [];
    var i := 0;
    while i < |items|
      invariant 0 <= i <= |items|
      invariant Normalize(rule, items[..i], env) == Ok(active)
    {
      var item := items[i];
      if !Processable(rule, item) {
        // `item.get` on a value that is not a dict
        NormalizeRaisesAt(rule, items, i, env);
        return Raise;
      }
      // append the record of a kept item; a completed one adds nothing
      NormalizeSnoc(rule, items, i, env);
      active := active + Emit(rule, item, i, env);
      i := i + 1;
    }
    assert items[..i] == items;
    return Ok(active);
  }
}
