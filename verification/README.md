# Homlet shopping list: a Dafny model of the list resolution engine

Homlet prints a Home Assistant to-do list on a receipt printer. It reads the list from Home
Assistant, asks a language model to sort it into store sections, and formats the answer as a
receipt (or as an HTML fragment for the web page). The repository holds the program twice.
The `shop/` copy is the add-on; it serves one configured list. The `app/` copy is the
standalone app; it lists every to-do entity.

This project models the core of that program and proves properties of the model. It covers:

- **List resolution** (`list_provider.py`, both copies):
  - deciding which integration produced a to-do entity: Bring! by `supported_features == 71`,
    then the `integration` attribute, then the reserved legacy id;
  - running the fixed chain of attempts for that integration: the `todo.get_items` service,
    the entity state, the todo REST endpoint, related entities, and the raw-id call;
  - turning the raw records into `{id, name[, status]}` records, with completed items
    dropped;
  - the shop copy's limit and truncation flag;
  - the app copy's list of summaries with live item counts.
- **The receipt formatter** (`formatter.py`; the two copies are byte-identical):
  - `str.center` centring, the header, the rules, the footer and the HTML fragment.
- **The pure parts of the language-model service** (`shop/app/services/llm_service.py`):
  - the raw text list and the store-section lookup;
  - the prompt;
  - the routing of a request to OpenAI or Anthropic, and the Anthropic model-name prefix.

Modules, one per file:

| file | module | what it holds |
|---|---|---|
| `text.dfy` | `PyText` | Python string operations: `str(int)`, `int(str)`, `lower`, `in`, `replace`, `center`'s padding, `join`, `split` |
| `json.dfy` | `PyJson` | decoded JSON values, Python truthiness, `dict.get`, `in`, iteration, exceptions as `Try` |
| `backend.dfy` | `HomeAssistant` | the REST endpoints the provider calls, as a record of replies |
| `normalize.dfy` | `Normalize` | the item filters and record builders of every handler |
| `probe.dfy` | `Probe` | first-truthy attribute probes, related-entity scans, Bring!'s `purchase_items` |
| `handlers.dfy` | `Handlers` | the per-integration handlers both copies share |
| `shop_provider.dfy` | `ShopProvider` | classification, dispatch, Bring!, limit and truncation (shop copy) |
| `app_provider.dfy` | `AppProvider` | dispatch, related-entity scans, Bring!, `get_lists` (app copy) |
| `formatter.dfy` | `ReceiptFormat` | receipt and HTML formatting |
| `llm_service.dfy` | `LlmService` | raw list, store sections, prompt, routing |

How the model represents the program:

- **HTTP replies.** Each request has one of three outcomes: `Reply(body)` (a 200 reply whose
  body decoded), `Non200`, or `Failed` (an exception). What each outcome does is decided
  attempt by attempt, as the code does:
  - after a non-200 reply most handlers go on to their next attempt, but some stop there
    with `[]` (the shop copy's local_todo handler, the legacy shopping list, the last
    service call of the generic handler);
  - an exception ends the handler through its outer `except Exception: return []`;
  - an exception inside an inner `try` ends only that attempt, and the handler goes on:
    the app copy's related-entity scans and `purchase_items` pass, and the raw-id Bring!
    call of both copies.
- **Python exceptions.** An exception raised inside a handler (`.get` on a value that is not
  a dict, iterating over a number) is the `Raise` case of `Try`.
- **Loops.** The loops that build `active_items` by appending, and the loops of `get_lists`,
  are methods proved equal to recursive specification functions. The comprehensions are
  those functions themselves.

## Model

| member | source | states |
|---|---|---|
| PyText.StrOr | shop/app/services/llm_service.py:43 | `name or default`: the given name when it is present and non-empty, else the default |
| PyText.IntRoundTrip | shop/app/services/list_provider.py:168 | the decimal text `str(i)` reads back through `int()` as `i`, for every integer including negatives |
| PyText.LowerIdempotent | shop/app/services/llm_service.py:186 | lower-casing twice is lower-casing once |
| Normalize.FirstOr | shop/app/services/list_provider.py:165-168 | an `a or b or ... or last` chain with a truthy last resort never yields a falsy value |
| Normalize.FirstOrPicksFirstTruthy | shop/app/services/list_provider.py:165-174 | the chain yields the value of the first key whose value is truthy, and the last resort only when every key's value is falsy |
| Normalize.QuantitySuffix | shop/app/services/list_provider.py:565-566 | the name changes exactly when `quantity` is truthy; the new name is a string that starts with the old name's text and ends with ")" |
| Normalize.CollectedByIndex | shop/app/services/list_provider.py:159-185 | the j-th record is built from the j-th item that is not completed, at that item's position: there is one record per kept item, no completed item leaks, and the order is preserved |
| Normalize.Normalize | shop/app/services/list_provider.py:159-185 | the pass raises exactly when some item is not a dict and the loop has no `isinstance` guard (so the `isinstance(item, str)` branch after `item.get` is unreachable) |
| Normalize.NormalizeKeepsExactly | shop/app/services/list_provider.py:159-185 | when no item raises, the result has one record per kept item, each built from that item at its position |
| Normalize.NormalizeRaisesAt | shop/app/services/list_provider.py:161 | a single item that is not a dict, in an unguarded loop, makes the whole pass raise |
| Normalize.Convert | shop/app/services/list_provider.py:159-185 | only the generic and todo-API records carry a status; the generic, Bring! state, related and raw-id records never get a falsy id, because their id chains end in `str(i)` |
| Normalize.TwoKeyChainKeepsFalsyValue | shop/app/services/list_provider.py:357-405 | a two-key `a or b` chain yields the second key's value even when that is falsy: a todoist item with empty content and a null name, or a CalDAV item with empty summary and null description, is named null |
| Normalize.NormalizeSnoc | shop/app/services/list_provider.py:156-188 | one more item that can be processed extends a successful pass by exactly the record that item yields, if any |
| Normalize.NormalizeItems | shop/app/services/list_provider.py:156-188 | the append loop with an early exit on the raising item computes exactly the specification `Normalize` |
| Probe.FirstTruthy | shop/app/services/list_provider.py:143-152 | the probe raises exactly when the attributes are not a dict; a value it finds is truthy |
| Probe.FirstTruthyAt | shop/app/services/list_provider.py:593-595 | the probe returns the first truthy candidate attribute, never looks past it, and gives None only when every candidate is falsy |
| Probe.ProbeAttributes | shop/app/services/list_provider.py:455-476 | the probing loop with an early return computes `FirstTruthy` |
| Probe.ScanAttributes | app/services/list_provider.py:836-838 | scanning attributes that are not a dict raises exactly when there is a name to look up |
| Probe.ScanAttributesFirstHit | app/services/list_provider.py:836-863 | one entity's scan is empty exactly when every truthy candidate attribute yields no records; otherwise it stops at the first truthy attribute whose processing raises or yields records, and never looks at the names after it |
| Probe.RelatedScanFirstHit | app/services/list_provider.py:829-863 | a related scan is empty exactly when every candidate's scan is empty; otherwise it stops at the first candidate that is not a dict (raise), whose scan raises (raise) or whose scan yields records (those records), and skips the candidates after it |
| Probe.ScanNames | app/services/list_provider.py:836-863 | the attribute loop for one related entity computes `ScanAttributes`: truthy attributes whose records are all filtered out do not stop the search |
| Probe.ScanEntities | app/services/list_provider.py:829-863 | the loop over related entities computes `RelatedScan` |
| Probe.PurchaseCollectedExact | shop/app/services/list_provider.py:631-648 | every record comes from a `purchase_items` entry whose data is a dict with a falsy `purchased` flag, and every such entry gives its record |
| Probe.KeptPurchasePositions | shop/app/services/list_provider.py:631-648 | the positions of the `purchase_items` entries whose data is a dict with a falsy `purchased` flag, strictly ascending, with none missing |
| Probe.PurchaseCollectedByIndex | shop/app/services/list_provider.py:631-648 | the j-th record is the record of the j-th listed entry, so the records keep the order of the entries, one per listed entry |
| Probe.PurchaseItems | shop/app/services/list_provider.py:631-648 | the `purchase_items` loop computes `PurchaseCollected` |
| Handlers.RawListIdOfTodoEntity | shop/app/services/list_provider.py:660 | for an id "todo." + name where name holds no "todo.", the raw list id is name |
| Handlers.RawListIdCanKeepPrefix | shop/app/services/list_provider.py:660 | Python's single `replace` pass can leave a "todo." behind: "totodo.do." becomes "todo." |
| Handlers.ProbeItems | shop/app/services/list_provider.py:593-624 | a state probe yields nothing exactly when every candidate attribute is falsy; a truthy attribute is final even when all of its items are filtered out |
| Handlers.ProbeItemsFirstTruthy | shop/app/services/list_provider.py:593-624 | the first truthy candidate attribute decides the probe: its normalised items are the result, its exception is the exception, and the attributes after it are never read |
| Handlers.ServiceEnvelope | shop/app/services/list_provider.py:525-538 | with a `service_response` key the items come only from `service_response[list_id]["items"]` (none when the list is absent); without it, from the top-level `items`; a reply that is not a container raises |
| Handlers.ServiceReplyIsFinal | shop/app/services/list_provider.py:289-338 | for google_tasks, todoist and alexa_todo, a 200 service reply decides the result alone, whatever the state endpoint answers |
| Handlers.LocalTodoItems | shop/app/services/list_provider.py:257-287 | a failed or non-200 state read, or a state that is not a dict, gives no items |
| Handlers.GoogleTasksItems | shop/app/services/list_provider.py:289-338 | a failed service call gives no items; so does a service reply that is not a dict, and, after a non-200 service reply, a failed or non-200 state read or a state that is not a dict |
| Handlers.TodoistItems | shop/app/services/list_provider.py:340-387 | the same failures as google_tasks give no items |
| Handlers.CalDavItems | shop/app/services/list_provider.py:389-416 | a failed or non-200 state read, or a state that is not a dict, gives no items |
| Handlers.AlexaTodoItems | shop/app/services/list_provider.py:418-482 | the same failures as google_tasks give no items |
| Handlers.LegacyItems | shop/app/services/list_provider.py:484-505 | a failed or non-200 read gives no items, and one item that is not a dict loses the whole list |
| Handlers.BringServiceItems | shop/app/services/list_provider.py:519-579 | a reply that is not a dict, or whose `service_response` has no entry for the list, gives no items |
| Handlers.GenericProbeRejectsText | shop/app/services/list_provider.py:159-179 | a generic probe attribute holding a plain string raises, because `item.get` runs before the `isinstance` test |
| ShopProvider.DetectIntegrationType | shop/app/services/list_provider.py:59-95 | the kind is "bring", "legacy_shopping_list", "unknown", or else the state's `integration` attribute as it is |
| ShopProvider.ClassifierPrecedence | shop/app/services/list_provider.py:59-95 | `supported_features == 71` means "bring" whatever `integration` says; otherwise an `integration` attribute is returned verbatim; the legacy kind comes from the reserved id only without that attribute |
| ShopProvider.LegacyKindSources | shop/app/services/list_provider.py:59-95 | "legacy_shopping_list" arises only from the reserved id or an `integration` attribute saying so; a failed or malformed state classifies as "unknown" |
| ShopProvider.BringServiceReplyIsFinal | shop/app/services/list_provider.py:519-579 | a 200 Bring! service reply is returned after filtering, even when empty; the state and the raw call are never consulted |
| ShopProvider.GenericItems | shop/app/services/list_provider.py:126-255 | a failed state read, or a state that is not a dict, gives no items; a non-200 state read goes straight to the todo endpoints |
| ShopProvider.BringItems | shop/app/services/list_provider.py:507-707 | a 200 service reply is final; a failed service call, or a failed state read after a non-200 service reply, gives no items; a non-200 state read goes straight to the raw-id call |
| ShopProvider.ItemsByIntegration | shop/app/services/list_provider.py:97-124 | every kind outside the seven known names goes to the generic handler |
| ShopProvider.Truncate | shop/app/services/list_provider.py:45-57 | the items are a prefix of the full list, cut to the limit only when `0 < limit < total`; `total_count` is the full length; `truncated` holds exactly when a limit is given and the total exceeds it |
| ShopProvider.NonPositiveLimitReportsTruncation | shop/app/services/list_provider.py:50-56 | a limit of zero or below returns every item and still reports `truncated` for a non-empty list |
| ShopProvider.GetListItems | shop/app/services/list_provider.py:27-57 | `total_count` is the number of items the handler for the detected kind returns; with no limit all of them are returned untruncated |
| ShopProvider.UnclassifiedListUsesProbe | shop/app/services/list_provider.py:126-188 | a plain entity with no `integration` attribute and truthy `items` is served by the generic probe of that attribute |
| AppProvider.Select | app/services/list_provider.py:49 | a filtering comprehension whose test can raise: it succeeds exactly when every test does, keeps exactly the elements whose test is true, and keeps nothing else |
| AppProvider.SelectLast | app/services/list_provider.py:49 | a successful selection is the selection of all but the last element, followed by the last element when its test is true |
| AppProvider.SelectedIndices | app/services/list_provider.py:49 | the positions whose test is true, strictly ascending, with none missing |
| AppProvider.SelectedIndicesLast | app/services/list_provider.py:49 | the selected positions grow by the last position exactly when its test is true |
| AppProvider.SelectByIndex | app/services/list_provider.py:49 | the j-th selected element is the element at the j-th selected position, so the selection keeps the order and multiplicity of the input |
| AppProvider.TodoIds | app/services/list_provider.py:49 | every selected todo entity's id starts with "todo." |
| AppProvider.BringRelatedTestMeaning | app/services/list_provider.py:818-826 | a related Bring! candidate is a "todo." or "sensor." entity other than the list whose id contains the list's base name or, ignoring case, "bring" |
| AppProvider.BringRelatedNeedsPositiveState | app/services/list_provider.py:799-805 | the related scan yields nothing unless the state reads as a positive integer |
| AppProvider.ListItemsFor | app/services/list_provider.py:157-195 | the six dedicated kinds go to their handlers whatever the id; only other kinds reach the legacy-id check, and the generic handler after it |
| AppProvider.GenericItems | app/services/list_provider.py:192-375 | the legacy id is served by the legacy API; otherwise a failed state read, or attributes that are not a dict, give no items, and a non-200 state read goes straight to the todo endpoints |
| AppProvider.BringItems | app/services/list_provider.py:637-938 | a 200 service reply is final; a failed service call, or a failed state read after a non-200 service reply, gives no items; a non-200 state read goes straight to the raw-id call |
| AppProvider.LegacySummary | app/services/list_provider.py:136-155 | the legacy entry exists exactly when the shopping list reply is 200, can be iterated and holds only dicts; it has the reserved id and no integration |
| AppProvider.BringServiceReplyIsFinal | app/services/list_provider.py:647-713 | a 200 Bring! service reply decides the result alone in the app copy too |
| AppProvider.LegacySummaryCount | app/services/list_provider.py:136-155 | the legacy entry has the reserved id and counts exactly the items the legacy handler lists; when it is missing, that handler lists nothing |
| AppProvider.Lists | app/services/list_provider.py:24-134 | no lists without a 200 `/api/states` reply; each entry is a "todo." entity with an integration or the legacy entry without one |
| AppProvider.ListsOnePerTodoEntity | app/services/list_provider.py:76-121 | the j-th summary is the summary of the j-th state whose id starts with "todo.", so no todo entity is skipped, repeated or reordered; its id is the entity id; its name is the friendly name or else the id without "todo."; its integration is "bring" for feature 71, else the `integration` attribute, else "unknown"; its count is the length of that list's items |
| AppProvider.SummariesSnoc | app/services/list_provider.py:76-121 | building the summaries one entity at a time appends that entity's summary |
| AppProvider.ListsFallbacks | app/services/list_provider.py:30-134 | a failed or non-200 `/api/states` reply, or one that cannot be iterated, gives no lists; the legacy entry appears only when there is no todo entity, and then it is the only entry |
| AppProvider.SummarizeStates | app/services/list_provider.py:76-121 | the main loop, appending one summary per todo state, computes `Summaries` of the todo entities |
| AppProvider.GetLists | app/services/list_provider.py:24-134 | the method, with its early returns, the attribute pass and the legacy fallback, computes `Lists` |
| ReceiptFormat.Center | shop/app/services/formatter.py:90-92 | the centred line is `max(width, len(text))` long, and a text at least `width` long is returned unchanged |
| ReceiptFormat.CenterLayout | shop/app/services/formatter.py:90-92 | the text sits unchanged between runs of spaces whose lengths differ by at most one; the left run is the longer exactly when the margin and the width are both odd |
| ReceiptFormat.CenterKeepsLine | shop/app/services/formatter.py:90-92 | centring adds no character other than spaces, so a centred line has no line break its text lacks |
| ReceiptFormat.ReceiptLines | shop/app/services/formatter.py:16-50 | split at line breaks, the receipt is the 4 header lines, the content's own lines unchanged, and the 2 footer lines; the store line is the centred store; both rules are exactly `max(width, 0)` dashes |
| ReceiptFormat.ReceiptSingleLineContent | shop/app/services/formatter.py:31-49 | a one-line content is the fifth of the receipt's seven lines |
| ReceiptFormat.HtmlContentFlat | shop/app/services/formatter.py:67 | the HTML content has no line break left, and is longer by three characters per break replaced |
| ReceiptFormat.HtmlContentOnOneLine | shop/app/services/formatter.py:52-88 | however many lines the content has, the fragment holds it on a single line framed by line breaks |
| LlmService.TruthyNames | shop/app/services/llm_service.py:47 | the filter keeps only truthy names and never more names than items |
| LlmService.TruthyNamesAppend | shop/app/services/llm_service.py:47 | the names of a concatenation are the names of each part in order |
| LlmService.TruthyNamesOne | shop/app/services/llm_service.py:47 | one item contributes its name exactly when the name is truthy |
| LlmService.JoinText | shop/app/services/llm_service.py:46-48 | `sep.join` raises exactly when some element is not a string |
| LlmService.JoinTextOfStrings | shop/app/services/llm_service.py:46-48 | on strings, `sep.join` is the plain join of their texts |
| LlmService.RawList | shop/app/services/llm_service.py:46-48 | the raw list raises exactly when some truthy name is not a string |
| LlmService.RawListLines | shop/app/services/llm_service.py:46-48 | the raw list raises exactly on a truthy name that is not a string; when the names are strings without breaks, its lines are those names, in order |
| LlmService.FindStore | shop/app/services/llm_service.py:185-187 | no sections exactly when no store's name matches ignoring case; a result is some store's sections |
| LlmService.FindStoreFirst | shop/app/services/llm_service.py:185-187 | the first store whose lower-cased name matches wins, whatever the later stores are called |
| LlmService.StoreSections | shop/app/services/llm_service.py:182-195 | the sections are those of a configured store or the fixed six-section fallback |
| LlmService.StoreSectionsPrecedence | shop/app/services/llm_service.py:182-195 | the first store matching the requested name wins; when none matches, the first store matching the default store; when neither matches, the fixed fallback |
| LlmService.StoreSectionsIgnoreCase | shop/app/services/llm_service.py:186 | asking for the lower-cased store name gives the same sections |
| LlmService.FindStoreSameKey | shop/app/services/llm_service.py:186 | two names with the same lower-cased form find the same store |
| LlmService.UnknownStoreWithDefaults | shop/app/config.py:26-46 | with the shipped stores, an unknown store gets the "Grocery Store" sections, which equal the fallback |
| LlmService.PromptLines | shop/app/services/llm_service.py:149-180 | the prompt starts with the store line followed by the raw list on the next line, and contains a line naming the store's sections joined by ", " |
| LlmService.AnthropicModelId | shop/app/services/llm_service.py:112-114 | "anthropic/" is prepended exactly when the id has no "/" and contains "claude" ignoring case; otherwise the id is unchanged |
| LlmService.AnthropicModelIdIdempotent | shop/app/services/llm_service.py:112-114 | prefixing happens at most once |
| LlmService.Route | shop/app/services/llm_service.py:54-67 | an empty key answers the missing-key error before any routing; "gpt" goes to OpenAI and is checked first; "claude" or "anthropic" goes to Anthropic; any other id answers the unsupported-model error; a request carries the prompt and the system prompt |
| LlmService.ProcessShoppingList | shop/app/services/llm_service.py:29-71 | the call raises exactly when the raw list does (it is built outside the error handler); with an empty key the answer is the missing-key error |
| LlmService.RequestCarriesPrompt | shop/app/services/llm_service.py:43-64 | a request sent to a model carries the prompt built for the requested store, or for the default store when none or "" was requested |

## Left out

- HTTP, `async`/`await`, the client's lifetime and logging are not modelled. Each request is
  a field of the `Backend` record; it holds the reply that request gets.
- The backend is a snapshot. An endpoint called twice while resolving one list (the state
  read for classification and again by the handler) returns the same reply both times.
- `uuid.uuid4()` and `repr()` of lists and dicts are oracle parameters (`Env`). Nothing is
  assumed about their values.
- `datetime.now()` in both formatters is a parameter. So is the printer width: it is fixed
  when the formatter is built.
- JSON objects are ordered lists of entries; lookups take the first entry with a key, so
  keys are assumed distinct. Floats are not modelled.
- Python `str.lower` is modelled on ASCII letters only.
- PyText.IntRoundTrip: `int()` is modelled on an optional sign and decimal digits. Surrounding
  whitespace and `_` separators, which Python also accepts, are not modelled.
- The app copy's extra `GET /api/services/todo` in the Alexa handler only feeds logging and
  its handler answers `[]` either way, so both copies share one Alexa handler.
- In the app copy's `get_lists`, the `bring_entities` list only feeds logging. The pass
  that builds it is kept only for the exception it raises on attributes that are not a dict.
- An `Option` reply (with one case for both a non-200 reply and an exception) would merge
  cases the code treats differently, so the three-way reply is used.
- The Bring! raw-id call sends `list_id.replace("todo.", "")`. Python's `replace` is one
  left-to-right pass, so the result can still contain "todo." (`Handlers.RawListIdCanKeepPrefix`);
  the model follows the code, not a reading in which every occurrence disappears.
- `_call_openai_api` and `_call_anthropic_api`: the request bodies, the response indexing
  and their error texts are network code. A request is described by the model, prompt and
  system prompt it would send.
- LlmService.ProcessShoppingList: the `except Exception` branch of `process_shopping_list`
  can only catch errors of the API calls, which are not modelled, so its error text is not
  produced.
- The settings (`config.py`) are a parameter. The stores are assumed well-formed: each has
  a string name and a list of string sections.
- LlmService.PromptLines states the store line, the raw list and the sections line as
  framed parts of the prompt; it does not split the whole prompt into lines.
- ReceiptFormat.HtmlContentOnOneLine states the content line as a framed part of the
  fragment; it does not count the fragment's other lines.
- `app/services/llm_service.py`, `renderer.py` (the ZPL renderer with float font sizes) and
  both `main.py` web layers are not part of this model.
