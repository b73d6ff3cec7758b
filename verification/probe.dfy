/** Searching an entity's attributes, and other entities, for the attribute
    that holds the items; and reading Bring!'s `purchase_items` dict. */
module Probe {
  import opened PyText
  import opened PyJson
  import opened Normalize

  /** `attributes.get(name, [])` for the candidate names in order: the first
      truthy value, or None when every candidate is falsy. Only a dict has
      `get`, so any other `attributes` raises. */
  function FirstTruthy(attrs: Json, names: seq<string>): (r: Try<Option<Json>>)
    ensures r.Raise? <==> !attrs.Obj? && names != []
    ensures r.Ok? && r.value.Some? ==> Truthy(r.value.value)
    decreases |names|
  {
    if names == [] then Ok(None)
    else
      var v :- Get(attrs, names[0], Arr([]));
      if Truthy(v) then Ok(Some(v)) else FirstTruthy(attrs, names[1..])
  }

  /** The probe stops at the first truthy attribute: what the names after it
      hold is never looked at, and the result is None only when all of them
      are falsy. */
  lemma {:induction false} FirstTruthyAt(attrs: Json, names: seq<string>, k: nat)
    requires attrs.Obj? && k <= |names|
    requires forall j :: 0 <= j < k ==> !Truthy(Field(attrs, names[j], Arr([])))
    ensures k < |names| && Truthy(Field(attrs, names[k], Arr([]))) ==>
      FirstTruthy(attrs, names) == Ok(Some(Field(attrs, names[k], Arr([]))))
    ensures k == |names| ==> FirstTruthy(attrs, names) == Ok(None)
    decreases k
  {
    if k > 0 {
      FirstTruthyAt(attrs, names[1..], k - 1);
    }
  }

  /** The probing loop, returning as soon as a candidate is truthy. */
  method ProbeAttributes(attrs: Json, names: seq<string>) returns (r: Try<Option<Json>>)
    ensures r == FirstTruthy(attrs, names)
  {
    var i := 0;
    while i < |names|
      invariant 0 <= i <= |names|
      invariant i > 0 ==> attrs.Obj?
      invariant FirstTruthy(attrs, names) == FirstTruthy(attrs, names[i..])
    {
      if !attrs.Obj? {
        return Raise;
      }
      var v := Field(attrs, names[i], Arr([]));
      if Truthy(v) {
        return Ok(Some(v));
      }
      assert names[i..][1..] == names[i + 1..];
      i := i + 1;
    }
    return Ok(None);
  }

  /** The related-entity variant of the probe: every truthy attribute is
      processed, and the search moves on to the next name when processing
      leaves no records. The empty list means nothing was found. */
  function ScanAttributes(attrs: Json, names: seq<string>, rule: Rule, env: Env): (r: Try<seq<ListItem>>)
    ensures !attrs.Obj? ==> (r.Raise? <==> names != [])
    decreases |names|
  {
    if names == [] then Ok([])
    else
      var items :- Get(attrs, names[0], Arr([]));
      if Truthy(items) then
        var active :- NormalizeJson(rule, items, env);
        if active != [] then Ok(active) else ScanAttributes(attrs, names[1..], rule, env)
      else ScanAttributes(attrs, names[1..], rule, env)
  }

  /** A scan of one entity's attributes finds nothing exactly when every
      truthy candidate attribute is processed into no records; otherwise it
      stops at the first truthy attribute whose processing raises or yields
      records, and the names after it are never looked at. */
  lemma {:induction false} ScanAttributesFirstHit(attrs: Json, names: seq<string>, rule: Rule, env: Env, k: nat)
    requires attrs.Obj? && k <= |names|
    requires forall j :: 0 <= j < k ==>
      !Truthy(Field(attrs, names[j], Arr([]))) || NormalizeJson(rule, Field(attrs, names[j], Arr([])), env) == Ok([])
    ensures k == |names| ==> ScanAttributes(attrs, names, rule, env) == Ok([])
    ensures k < |names| && Truthy(Field(attrs, names[k], Arr([]))) ==>
      var own := NormalizeJson(rule, Field(attrs, names[k], Arr([])), env);
      (own.Raise? ==> ScanAttributes(attrs, names, rule, env) == Raise) &&
      (own.Ok? && own.value != [] ==> ScanAttributes(attrs, names, rule, env) == own)
    decreases k
  {
    if k > 0 {
      ScanAttributesFirstHit(attrs, names[1..], rule, env, k - 1);
    }
  }

  /** `for entity in related: ...` over candidate entities: the first entity
      whose attributes yield records wins. */
  function RelatedScan(cands: seq<Json>, names: seq<string>, rule: Rule, env: Env): (r: Try<seq<ListItem>>)
    decreases |cands|
  {
    if cands == [] then Ok([])
    else
      var attrs :- Get(cands[0], "attributes", Obj([]));
      var found :- ScanAttributes(attrs, names, rule, env);
      if found != [] then Ok(found) else RelatedScan(cands[1..], names, rule, env)
  }

  /** A related scan finds nothing exactly when every candidate's own scan
      succeeds with nothing; otherwise it stops at the first candidate that
      is not a dict or whose own scan raises or yields records, and the
      candidates after it are never looked at. */
  lemma {:induction false} RelatedScanFirstHit(cands: seq<Json>, names: seq<string>, rule: Rule, env: Env, k: nat)
    requires k <= |cands|
    requires forall j :: 0 <= j < k ==>
      cands[j].Obj? && ScanAttributes(Field(cands[j], "attributes", Obj([])), names, rule, env) == Ok([])
    ensures k == |cands| ==> RelatedScan(cands, names, rule, env) == Ok([])
    ensures k < |cands| && cands[k].Obj? ==>
      var own := ScanAttributes(Field(cands[k], "attributes", Obj([])), names, rule, env);
      (own.Raise? ==> RelatedScan(cands, names, rule, env) == Raise) &&
      (own.Ok? && own.value != [] ==> RelatedScan(cands, names, rule, env) == own)
    ensures k < |cands| && !cands[k].Obj? ==> RelatedScan(cands, names, rule, env) == Raise
    decreases k
  {
    if k > 0 {
      RelatedScanFirstHit(cands[1..], names, rule, env, k - 1);
    }
  }

  /** The inner loop of a related scan: one entity's candidate attributes. */
  method ScanNames(attrs: Json, names: seq<string>, rule: Rule, env: Env) returns (r: Try<seq<ListItem>>)
    ensures r == ScanAttributes(attrs, names, rule, env)
  {
    var i := 0;
    while i < |names|
      invariant 0 <= i <= |names|
      invariant ScanAttributes(attrs, names, rule, env) == ScanAttributes(attrs, names[i..], rule, env)
    {
      assert names[i..][1..] == names[i + 1..];
      if !attrs.Obj? {
        return Raise;
      }
      var items := Field(attrs, names[i], Arr([]));
      if Truthy(items) {
        var xs := Iterate(items);
        if xs.Raise? {
          return Raise;
        }
        var active := NormalizeItems(rule, xs.value, env);
        if active.Raise? {
          return Raise;
        }
        if active.value != [] {
          return active;
        }
      }
      i := i + 1;
    }
    return Ok([]);
  }

  /** The outer loop of a related scan, over the candidate entities. */
  method ScanEntities(cands: seq<Json>, names: seq<string>, rule: Rule, env: Env) returns (r: Try<seq<ListItem>>)
    ensures r == RelatedScan(cands, names, rule, env)
  {
    var c := 0;
    while c < |cands|
      invariant 0 <= c <= |cands|
      invariant RelatedScan(cands, names, rule, env) == RelatedScan(cands[c..], names, rule, env)
    {
      assert cands[c..][1..] == cands[c + 1..];
      if !cands[c].Obj? {
        return Raise;
      }
      var found := ScanNames(Field(cands[c], "attributes", Obj([])), names, rule, env);
      if found.Raise? {
        return Raise;
      }
      if found.value != [] {
        return found;
      }
      c := c + 1;
    }
    return Ok([]);
  }

  // ---------------------------------------------------------------------------
  // Bring!'s purchase_items attribute
  // ---------------------------------------------------------------------------

  /** A `purchase_items` entry is listed when its data is a dict whose
      "purchased" flag is falsy; any other entry is skipped silently. */
  predicate PurchaseKept(data: Json)
  {
    data.Obj? && !Flag(data, "purchased")
  }

  /** The record of a listed entry: the key is the id, the name falls back to
      the key, and a truthy quantity is appended. */
  function PurchaseRecord(key: string, data: Json, env: Env): ListItem
  {
    ListItem(Str(key), WithQuantity(Or(Attr(data, "name"), Str(key)), data, env), None)
  }

  function PurchaseCollected(entries: seq<(string, Json)>, env: Env): (r: seq<ListItem>)
    ensures |r| <= |entries|
    decreases |entries|
  {
    if entries == [] then []
    else
      var n := |entries| - 1;
      PurchaseCollected(entries[..n], env)
        + (if PurchaseKept(entries[n].1) then [PurchaseRecord(entries[n].0, entries[n].1, env)] else [])
  }

  /** The record is the one some listed entry of `entries` yields. */
  predicate FromListedEntry(rec: ListItem, entries: seq<(string, Json)>, env: Env)
  {
    exists k :: 0 <= k < |entries| && PurchaseKept(entries[k].1) && rec == PurchaseRecord(entries[k].0, entries[k].1, env)
  }

  /** Every record comes from a listed entry, and every listed entry gives a
      record: nothing purchased leaks and nothing unpurchased is lost. */
  lemma {:induction false} PurchaseCollectedExact(entries: seq<(string, Json)>, env: Env)
    ensures forall j :: 0 <= j < |PurchaseCollected(entries, env)| ==>
      FromListedEntry(PurchaseCollected(entries, env)[j], entries, env)
    ensures forall k :: 0 <= k < |entries| && PurchaseKept(entries[k].1) ==>
      PurchaseRecord(entries[k].0, entries[k].1, env) in PurchaseCollected(entries, env)
    decreases |entries|
  {
    if entries != [] {
      var n := |entries| - 1;
      var init := entries[..n];
      PurchaseCollectedExact(init, env);
      var before := PurchaseCollected(init, env);
      var out := PurchaseCollected(entries, env);
      assert out[..|before|] == before;
      forall j | 0 <= j < |out|
        ensures FromListedEntry(out[j], entries, env)
      {
        if j < |before| {
          assert out[j] == before[j];
          assert FromListedEntry(before[j], init, env);
          var k :| 0 <= k < |init| && PurchaseKept(init[k].1) && before[j] == PurchaseRecord(init[k].0, init[k].1, env);
          assert init[k] == entries[k];
        } else {
          assert out[j] == PurchaseRecord(entries[n].0, entries[n].1, env);
        }
      }
      forall k | 0 <= k < |entries| && PurchaseKept(entries[k].1)
        ensures PurchaseRecord(entries[k].0, entries[k].1, env) in out
      {
        if k < n {
          assert init[k] == entries[k];
          var rec := PurchaseRecord(entries[k].0, entries[k].1, env);
          assert rec in before;
          var j :| 0 <= j < |before| && before[j] == rec;
          assert out[j] == rec;
        } else {
          assert out[|out| - 1] == PurchaseRecord(entries[n].0, entries[n].1, env);
        }
      }
    }
  }

  /** Independent reference: the positions of the listed entries, ascending. */
  function KeptPurchasePositions(entries: seq<(string, Json)>): (r: seq<nat>)
    ensures forall j :: 0 <= j < |r| ==> r[j] < |entries| && PurchaseKept(entries[r[j]].1)
    ensures forall j, j' :: 0 <= j < j' < |r| ==> r[j] < r[j']
    ensures forall k :: 0 <= k < |entries| && PurchaseKept(entries[k].1) ==> k in r
    decreases |entries|
  {
    if entries == [] then []
    else
      var n := |entries| - 1;
      var prev := KeptPurchasePositions(entries[..n]);
      assert forall j :: 0 <= j < |prev| ==> entries[..n][prev[j]] == entries[prev[j]];
      prev + (if PurchaseKept(entries[n].1) then [n] else [])
  }

  /** The j-th record is the record of the j-th listed entry: the records
      keep the order of the entries, one per listed entry. */
  lemma {:induction false} PurchaseCollectedByIndex(entries: seq<(string, Json)>, env: Env)
    ensures |PurchaseCollected(entries, env)| == |KeptPurchasePositions(entries)|
    ensures forall j :: 0 <= j < |KeptPurchasePositions(entries)| ==>
      var k := KeptPurchasePositions(entries)[j];
      PurchaseCollected(entries, env)[j] == PurchaseRecord(entries[k].0, entries[k].1, env)
    decreases |entries|
  {
    if entries != [] {
      var n := |entries| - 1;
      PurchaseCollectedByIndex(entries[..n], env);
      assert forall k :: 0 <= k < n ==> entries[..n][k] == entries[k];
    }
  }

  /** `purchase_items.items()` followed by the loop; only a dict has `items`. */
  function PurchaseItemsOf(purchase: Json, env: Env): Try<seq<ListItem>>
  {
    var entries :- DictItems(purchase);
    Ok(PurchaseCollected(entries, env))
  }

  /** The purchase_items loop. */
  method PurchaseItems(entries: seq<(string, Json)>, env: Env) returns (active: seq<ListItem>)
    ensures active == PurchaseCollected(entries, env)
  {
    active := [];
    var i := 0;
    while i < |entries|
      invariant 0 <= i <= |entries|
      invariant active == PurchaseCollected(entries[..i], env)
    {
      var (key, data) := entries[i];
      if data.Obj? {
        if !Flag(data, "purchased") {
          active := active + [PurchaseRecord(key, data, env)];
        }
      }
      assert entries[..i + 1][..i] == entries[..i];
      i := i + 1;
    }
    assert entries[..i] == entries;
  }
}
