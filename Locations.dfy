/**
  * The location database of the chat server: one JSON document per destination, keyed by
  * destination name (`locations_data` and `get_location_context` in
  * travel_planner/helpers.py).
  *
  * A document is a JSON object; each key the server reads is an `Option` field, `None` when
  * the key is absent. Numbers (ratings, daily budgets) are kept as the text Python's `str`
  * gives them, since the server only interpolates them into the prompt. Keys the server never
  * reads (coordinates, descriptions of the city, ...) are only counted, which is all Python's
  * truthiness of the document depends on.
  */
module Locations {
  import opened Text
  import opened Wrappers

  datatype Attraction = Attraction(name: string, description: string, rating: Option<string>)

  /** The `budget` object: the three daily amounts and the notes. */
  datatype Budget = Budget(
    low: Option<string>,
    mid: Option<string>,
    high: Option<string>,
    notes: Option<string>)

  datatype LocationRecord = LocationRecord(
    location: Option<string>,
    attractions: Option<seq<Attraction>>,
    tips: Option<seq<string>>,
    bestTimeToVisit: Option<string>,
    currency: Option<string>,
    language: Option<string>,
    budget: Option<Budget>,
    otherKeys: nat)

  /** The number of keys of the document. */
  function KeyCount(r: LocationRecord): nat {
    (if r.location.Some? then 1 else 0) + (if r.attractions.Some? then 1 else 0)
    + (if r.tips.Some? then 1 else 0) + (if r.bestTimeToVisit.Some? then 1 else 0)
    + (if r.currency.Some? then 1 else 0) + (if r.language.Some? then 1 else 0)
    + (if r.budget.Some? then 1 else 0) + r.otherKeys
  }

  /** Python's `if location_context:`: a document that exists and has at least one key. */
  predicate IsTruthy(ctx: Option<LocationRecord>) {
    ctx.Some? && KeyCount(ctx.value) > 0
  }

  /** `location_context.get('location') if location_context else None`. */
  function SelectedLocation(ctx: Option<LocationRecord>): (name: Option<string>)
    ensures name.Some? ==> IsTruthy(ctx) && ctx.value.location == name
    ensures IsTruthy(ctx) && ctx.value.location.Some? ==> name == ctx.value.location
  {
    if IsTruthy(ctx) then ctx.value.location else None
  }

  /** Whether a database key names the destination, ignoring case. */
  predicate SameName(key: string, name: string) {
    Lower(key) == Lower(name)
  }

  /**
    * The document of the first key, in the database's insertion order, equal to `name` up
    * to case, and `None` when there is none.
    */
  function Lookup(table: seq<(string, LocationRecord)>, name: string): (doc: Option<LocationRecord>)
    ensures doc.None? <==> forall i :: 0 <= i < |table| ==> !SameName(table[i].0, name)
    ensures doc.Some? ==> exists i ::
      && 0 <= i < |table| && SameName(table[i].0, name)
      && doc.value == table[i].1
      && forall j :: 0 <= j < i ==> !SameName(table[j].0, name)
  {
    if table == [] then None
    else if SameName(table[0].0, name) then Some(table[0].1)
    else
      var rest := Lookup(table[1..], name);
      assert forall i :: 1 <= i < |table| ==> table[i] == table[1..][i - 1];
      rest
  }

  /** `get_location_context`: scans the database and returns at the first matching key. */
  method GetLocationContext(table: seq<(string, LocationRecord)>, name: string)
    returns (doc: Option<LocationRecord>)
    ensures doc == Lookup(table, name)
  {
    var i := 0;
    while i < |table|
      invariant 0 <= i <= |table|
      invariant Lookup(table, name) == Lookup(table[i..], name)
    {
      var (key, document) := table[i];
      if Lower(key) == Lower(name) {
        return Some(document);
      }
      assert table[i..][1..] == table[i + 1..];
      i := i + 1;
    }
    return None;
  }

  /** Names that differ only in the case of their letters select the same document. */
  lemma {:induction false} LookupIgnoresCase(table: seq<(string, LocationRecord)>, name1: string, name2: string)
    requires Lower(name1) == Lower(name2)
    ensures Lookup(table, name1) == Lookup(table, name2)
  {
    if table != [] {
      LookupIgnoresCase(table[1..], name1, name2);
    }
  }

  /** Looking up a key of the database by its own name finds a document. */
  lemma LookupFindsKey(table: seq<(string, LocationRecord)>, k: nat)
    requires k < |table|
    ensures Lookup(table, table[k].0).Some?
  {
    assert SameName(table[k].0, table[k].0);
  }
}
