/** The pure part of the language-model service: the text list sent to the
    model, the store sections that the prompt names, the prompt itself, and
    which model API a request goes to. The HTTP calls are not modelled; a
    request is described by what it would send. */
module LlmService {
  import opened PyText
  import opened PyJson
  import opened Normalize

  /** One configured store: its name and its aisle sections, in order. */
  datatype StoreConfig = StoreConfig(name: string, sections: seq<string>)

  /** The settings the service reads. */
  datatype Settings = Settings(
    apiKey: string,
    modelId: string,
    defaultStore: string,
    stores: seq<StoreConfig>,
    receiptWidth: int)

  // ---------------------------------------------------------------------------
  // The raw list
  // ---------------------------------------------------------------------------

  /** `[item.get("name", "") for item in items if item.get("name")]`: the
      truthy names, in the order of the items. */
  function TruthyNames(items: seq<ListItem>): (r: seq<Json>)
    ensures |r| <= |items|
    ensures forall j :: 0 <= j < |r| ==> Truthy(r[j])
    decreases |items|
  {
    if items == [] then []
    else
      var n := |items| - 1;
      TruthyNames(items[..n]) + (if Truthy(items[n].name) then [items[n].name] else [])
  }

  /** The filter keeps order: the names of a concatenation are the names of
      each part, one after the other. */
  lemma {:induction false} TruthyNamesAppend(xs: seq<ListItem>, ys: seq<ListItem>)
    ensures TruthyNames(xs + ys) == TruthyNames(xs) + TruthyNames(ys)
    decreases |ys|
  {
    if ys == [] {
      assert xs + ys == xs;
    } else {
      var n := |ys| - 1;
      var last := if Truthy(ys[n].name) then [ys[n].name] else [];
      assert (xs + ys)[..|xs + ys| - 1] == xs + ys[..n];
      assert (xs + ys)[|xs + ys| - 1] == ys[n];
      assert TruthyNames(xs + ys) == TruthyNames(xs + ys[..n]) + last;
      TruthyNamesAppend(xs, ys[..n]);
      assert TruthyNames(ys) == TruthyNames(ys[..n]) + last;
    }
  }

  /** A single item contributes its name exactly when that name is truthy. */
  lemma TruthyNamesOne(item: ListItem)
    ensures TruthyNames([item]) == if Truthy(item.name) then [item.name] else []
  {
    assert [item][..0] == [];
  }

  /** `sep.join(xs)` for a list of values: a TypeError unless every one of
      them is a string. */
  function JoinText(sep: string, xs: seq<Json>): (r: Try<string>)
    ensures r.Raise? <==> exists j :: 0 <= j < |xs| && !xs[j].Str?
    ensures r.Ok? ==> |xs| == 1 ==> r.value == xs[0].s
    decreases |xs|
  {
    if xs == [] then Ok("")
    else if !xs[0].Str? then Raise
    else if |xs| == 1 then Ok(xs[0].s)
    else
      var rest :- JoinText(sep, xs[1..]);
      assert forall j :: 1 <= j < |xs| ==> xs[j] == xs[1..][j - 1];
      Ok(xs[0].s + sep + rest)
  }

  /** JoinText on strings is `Join` on their texts. */
  lemma {:induction false} JoinTextOfStrings(sep: string, xs: seq<Json>)
    requires forall j :: 0 <= j < |xs| ==> xs[j].Str?
    ensures JoinText(sep, xs) == Ok(Join(sep, seq(|xs|, j requires 0 <= j < |xs| => xs[j].s)))
    decreases |xs|
  {
    if |xs| > 1 {
      JoinTextOfStrings(sep, xs[1..]);
      var texts := seq(|xs|, j requires 0 <= j < |xs| => xs[j].s);
      assert texts[1..] == seq(|xs| - 1, j requires 0 <= j < |xs| - 1 => xs[1..][j].s);
    }
  }

  /** The text list: the truthy names joined by line breaks. A truthy name
      that is not a string raises. */
  function RawList(items: seq<ListItem>): (r: Try<string>)
    ensures r.Raise? <==> exists j :: 0 <= j < |TruthyNames(items)| && !TruthyNames(items)[j].Str?
  {
    JoinText("\n", TruthyNames(items))
  }

  /** The raw list fails exactly on a truthy non-string name; otherwise,
      when the names have no line breaks of their own, each truthy name is
      one line of it, in order. */
  lemma RawListLines(items: seq<ListItem>)
    ensures RawList(items).Raise? <==>
      exists j :: 0 <= j < |TruthyNames(items)| && !TruthyNames(items)[j].Str?
    ensures var names := TruthyNames(items);
      names != [] && (forall j :: 0 <= j < |names| ==> names[j].Str? && '\n' !in names[j].s) ==>
        RawList(items).Ok? &&
        var lines := Split(RawList(items).value, '\n');
        |lines| == |names| && forall j :: 0 <= j < |names| ==> Str(lines[j]) == names[j]
  {
    var names := TruthyNames(items);
    if names != [] && (forall j :: 0 <= j < |names| ==> names[j].Str? && '\n' !in names[j].s) {
      JoinTextOfStrings("\n", names);
      var texts := seq(|names|, j requires 0 <= j < |names| => names[j].s);
      SplitJoin(texts, '\n');
    }
  }

  // ---------------------------------------------------------------------------
  // Store sections
  // ---------------------------------------------------------------------------

  /** Store names are compared lower-cased. */
  predicate SameStore(a: string, b: string)
  {
    Lower(a) == Lower(b)
  }

  /** The sections of the first store whose name matches, if any. */
  function FindStore(stores: seq<StoreConfig>, name: string): (r: Option<seq<string>>)
    ensures r.None? <==> forall k :: 0 <= k < |stores| ==> !SameStore(stores[k].name, name)
    ensures r.Some? ==> exists k :: 0 <= k < |stores| && r.value == stores[k].sections
    decreases |stores|
  {
    if stores == [] then None
    else if SameStore(stores[0].name, name) then Some(stores[0].sections)
    else
      var rest := FindStore(stores[1..], name);
      assert forall k :: 0 <= k < |stores| - 1 ==> stores[1..][k] == stores[k + 1];
      rest
  }

  /** The first match wins: when store k is the first to match, its sections
      are returned, whatever the stores after it are called. */
  lemma {:induction false} FindStoreFirst(stores: seq<StoreConfig>, name: string, k: nat)
    requires k < |stores| && SameStore(stores[k].name, name)
    requires forall j :: 0 <= j < k ==> !SameStore(stores[j].name, name)
    ensures FindStore(stores, name) == Some(stores[k].sections)
    decreases k
  {
    if k > 0 {
      FindStoreFirst(stores[1..], name, k - 1);
    }
  }

  /** The sections used when neither the store nor the default store is
      configured. */
  const FallbackSections: seq<string> := ["Produce", "Dairy", "Meat", "Pantry", "Frozen", "Household"]

  /** _get_store_sections: the requested store, else the default store, else
      the fixed fallback. */
  function StoreSections(stores: seq<StoreConfig>, storeName: string, defaultStore: string): (r: seq<string>)
    ensures r == FallbackSections || exists k :: 0 <= k < |stores| && r == stores[k].sections
  {
    match FindStore(stores, storeName)
    case Some(sections) => sections
    case None =>
      match FindStore(stores, defaultStore)
      case Some(sections) => sections
      case None => FallbackSections
  }

  /** Store k is the first store whose name matches. */
  predicate FirstMatch(stores: seq<StoreConfig>, name: string, k: nat)
  {
    k < |stores| && SameStore(stores[k].name, name) &&
    forall j :: 0 <= j < k ==> !SameStore(stores[j].name, name)
  }

  /** No store's name matches. */
  predicate NoMatch(stores: seq<StoreConfig>, name: string)
  {
    forall j :: 0 <= j < |stores| ==> !SameStore(stores[j].name, name)
  }

  /** The precedence of _get_store_sections: the first store matching the
      requested name wins; when no store matches it, the first store
      matching the default store wins; when neither matches, the fallback
      sections are used. */
  lemma StoreSectionsPrecedence(stores: seq<StoreConfig>, storeName: string, defaultStore: string, k: nat)
    ensures FirstMatch(stores, storeName, k) ==>
      StoreSections(stores, storeName, defaultStore) == stores[k].sections
    ensures NoMatch(stores, storeName) && FirstMatch(stores, defaultStore, k) ==>
      StoreSections(stores, storeName, defaultStore) == stores[k].sections
    ensures NoMatch(stores, storeName) && NoMatch(stores, defaultStore) ==>
      StoreSections(stores, storeName, defaultStore) == FallbackSections
  {
    if FirstMatch(stores, storeName, k) {
      FindStoreFirst(stores, storeName, k);
    }
    if FirstMatch(stores, defaultStore, k) {
      FindStoreFirst(stores, defaultStore, k);
    }
  }

  /** The lookup ignores case: asking for the lower-cased name gives the
      same sections. */
  lemma {:induction false} StoreSectionsIgnoreCase(stores: seq<StoreConfig>, storeName: string, defaultStore: string)
    ensures StoreSections(stores, Lower(storeName), defaultStore) == StoreSections(stores, storeName, defaultStore)
  {
    LowerIdempotent(storeName);
    FindStoreSameKey(stores, Lower(storeName), storeName);
  }

  /** Two names with the same lower-cased form find the same store. */
  lemma {:induction false} FindStoreSameKey(stores: seq<StoreConfig>, a: string, b: string)
    requires Lower(a) == Lower(b)
    ensures FindStore(stores, a) == FindStore(stores, b)
    decreases |stores|
  {
    if stores != [] {
      FindStoreSameKey(stores[1..], a, b);
    }
  }

  /** The stores configured out of the box. */
  const DefaultStores: seq<StoreConfig> := [
    StoreConfig("Grocery Store", ["Produce", "Dairy", "Meat", "Pantry", "Frozen", "Household"]),
    StoreConfig("Supermarket", ["Fruits & Vegetables", "Dairy & Eggs", "Meat & Seafood",
                                "Bakery", "Canned Goods", "Frozen Foods", "Cleaning Supplies"]),
    StoreConfig("Convenience Store", ["Snacks", "Beverages", "Quick Meals", "Essentials"])
  ]

  /** With the shipped configuration an unknown store gets the default
      store's sections, which are the fallback sections. */
  lemma UnknownStoreWithDefaults(storeName: string)
    requires FindStore(DefaultStores, storeName).None?
    ensures StoreSections(DefaultStores, storeName, "Grocery Store") == FallbackSections
  {
    assert SameStore(DefaultStores[0].name, "Grocery Store");
  }

  // ---------------------------------------------------------------------------
  // The prompt
  // ---------------------------------------------------------------------------

  /** The fixed text of the lines that lead up to the section list. */
  const StoreLinePrefix := "Process this shopping list for "
  const SortTaskPrefix := "2. Sort into store sections: "

  /** The prompt line that names the store. */
  function StoreLine(storeName: string): string
  {
    StoreLinePrefix + storeName + ":"
  }

  /** The task line that names the sections. */
  function SortLine(sectionsText: string): string
  {
    SortTaskPrefix + sectionsText
  }

  /** The task lines of the prompt, which name the sections and the width. */
  function TaskLines(sectionsText: string, width: int): (r: seq<string>)
    ensures |r| == 6
  {
    [ "",
      "Tasks:",
      "1. Remove duplicates (combine quantities)",
      SortLine(sectionsText),
      "3. Format for " + IntToString(width) + " character width receipt paper",
      "" ]
  }

  /** The worked example the prompt shows the model. */
  const ExampleLines: seq<string> := [
    "<example>",
    "Produce",
    " - Carrots",
    " - Onions",
    " - Lemons",
    "",
    "Bakery",
    " - Bread",
    " - Croissants",
    "",
    "Toiletries",
    " - Hand soap",
    "</example>" ]

  /** The closing instructions. */
  const ClosingLines: seq<string> := [
    "",
    "Output as structured text ready for printing with clear section headers.",
    "Do not include any explanations or notes, just the formatted list.",
    "" ]

  /** The prompt lines after the raw list. */
  function PromptTail(sectionsText: string, width: int): (r: seq<string>)
    ensures |r| == 23
  {
    TaskLines(sectionsText, width) + ExampleLines + ClosingLines
  }

  /** _build_prompt: the template with the store, the raw list, the store's
      sections joined by ", " and the receipt width put in. The template
      starts and ends with a line break. */
  function BuildPrompt(rawList: string, storeName: string, stores: seq<StoreConfig>, defaultStore: string, width: int): string
  {
    var sectionsText := Join(", ", StoreSections(stores, storeName, defaultStore));
    Framed('\n', StoreLine(storeName), rawList, PromptTail(sectionsText, width))
  }

  /** The raw list, the store line and the sections line each stand on a
      line of their own in the prompt: the first right after the store line,
      the last naming the store's sections joined by ", ". */
  lemma PromptLines(rawList: string, storeName: string, stores: seq<StoreConfig>, defaultStore: string, width: int)
    ensures var prompt := BuildPrompt(rawList, storeName, stores, defaultStore, width);
      ['\n'] + StoreLine(storeName) + ['\n'] + rawList + ['\n'] <= prompt
      && IsInfix(['\n'] + SortLine(Join(", ", StoreSections(stores, storeName, defaultStore))) + ['\n'], prompt)
  {
    var sectionsText := Join(", ", StoreSections(stores, storeName, defaultStore));
    var tail := PromptTail(sectionsText, width);
    FramedLines('\n', StoreLine(storeName), rawList, tail, 3);
    assert tail[3] == SortLine(sectionsText);
  }

  // ---------------------------------------------------------------------------
  // Routing a request
  // ---------------------------------------------------------------------------

  const SystemPrompt := "You are a helpful shopping list organizer assistant."
  const MissingKeyError := "Error: LLM API key not configured"
  const UnsupportedPrefix := "Error: Unsupported model type: "

  /** What process_shopping_list does with a prompt: answer with an error
      text at once, or send a request to one of the two APIs. */
  datatype Outcome =
    | Answer(text: string)
    | OpenAiRequest(model: string, prompt: string, system: string)
    | AnthropicRequest(model: string, prompt: string, system: string)

  /** The model name sent to Anthropic: a bare Claude model name gets the
      "anthropic/" prefix; a name with a "/" is sent as it is. */
  function AnthropicModelId(modelId: string): (r: string)
    ensures r == modelId || r == "anthropic/" + modelId
    ensures r != modelId <==> '/' !in modelId && IsInfix("claude", Lower(modelId))
  {
    if '/' !in modelId && IsInfix("claude", Lower(modelId)) then "anthropic/" + modelId else modelId
  }

  /** Prefixing happens at most once: the prefixed name has a "/". */
  lemma AnthropicModelIdIdempotent(modelId: string)
    ensures AnthropicModelId(AnthropicModelId(modelId)) == AnthropicModelId(modelId)
  {
    var r := AnthropicModelId(modelId);
    if r != modelId {
      assert r[9] == '/';
    }
  }

  /** The API-key check, then the routing on the lower-cased model id:
      "gpt" goes to OpenAI and is checked first, then "claude" or "anthropic"
      to Anthropic; any other id is refused with an error text. */
  function Route(prompt: string, apiKey: string, modelId: string): (r: Outcome)
    ensures apiKey == "" ==> r == Answer(MissingKeyError)
    ensures r.OpenAiRequest? <==> apiKey != "" && IsInfix("gpt", Lower(modelId))
    ensures r.AnthropicRequest? <==>
      (apiKey != "" && !IsInfix("gpt", Lower(modelId))
       && (IsInfix("claude", Lower(modelId)) || IsInfix("anthropic", Lower(modelId))))
    ensures r.Answer? && apiKey != "" ==> r.text == UnsupportedPrefix + modelId
    ensures !r.Answer? ==> r.prompt == prompt && r.system == SystemPrompt
  {
    var id := Lower(modelId);
    if apiKey == "" then Answer(MissingKeyError)
    else if IsInfix("gpt", id) then OpenAiRequest(modelId, prompt, SystemPrompt)
    else if IsInfix("claude", id) || IsInfix("anthropic", id) then
      AnthropicRequest(AnthropicModelId(modelId), prompt, SystemPrompt)
    else Answer(UnsupportedPrefix + modelId)
  }

  /** process_shopping_list up to the API call: the raw list and the prompt
      are built before the error handler is entered, so a raw list that
      raises makes the whole call raise. */
  function ProcessShoppingList(items: seq<ListItem>, storeName: Option<string>, cfg: Settings): (r: Try<Outcome>)
    ensures r.Raise? <==> RawList(items).Raise?
    ensures r.Ok? && cfg.apiKey == "" ==> r.value == Answer(MissingKeyError)
  {
    var raw :- RawList(items);
    var store := StrOr(storeName, cfg.defaultStore);
    Ok(Route(BuildPrompt(raw, store, cfg.stores, cfg.defaultStore, cfg.receiptWidth), cfg.apiKey, cfg.modelId))
  }

  /** A request sent to a model carries the prompt for the requested store,
      or for the default store when none or "" was requested. */
  lemma RequestCarriesPrompt(items: seq<ListItem>, storeName: Option<string>, cfg: Settings)
    requires ProcessShoppingList(items, storeName, cfg).Ok?
    requires !ProcessShoppingList(items, storeName, cfg).value.Answer?
    ensures ProcessShoppingList(items, storeName, cfg).value.prompt ==
      BuildPrompt(RawList(items).value, StrOr(storeName, cfg.defaultStore), cfg.stores, cfg.defaultStore, cfg.receiptWidth)
  {
  }
}
