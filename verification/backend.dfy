/** The Home Assistant REST API as the list provider reaches it. Every HTTP
    request becomes a field of a `Backend` snapshot: what the request returns
    is an input to the model, and a request made twice during one resolution
    returns the same reply. */
module HomeAssistant {
  import opened PyJson

  /** One request's outcome: a 200 reply whose body decoded as JSON, any other
      status code, or an exception (transport failure, timeout or a body that
      is not JSON). */
  datatype Response = Reply(body: Json) | Non200 | Failed

  datatype Backend = Backend(
    /** GET /api/states/{entity_id} */
    stateOf: string -> Response,
    /** GET /api/states */
    allStates: Response,
    /** GET /api/todo/items?entity_id={entity_id} */
    todoItems: string -> Response,
    /** POST /api/services/todo/get_items?return_response with {entity_id} */
    getItems: string -> Response,
    /** the same call with {entity_id, list_id}: the Bring! variant that also
        sends a raw list id */
    getItemsRaw: (string, string) -> Response,
    /** GET /api/shopping_list */
    shoppingList: Response)

  /** The reserved id of the legacy shopping list. */
  const LegacyListId := "shopping_list.shopping_list"
}
