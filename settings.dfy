/**
 * Settings as the extension handles them: a plain object whose keys are
 * `theme`, `format24h` and `position`, read from storage and updated by
 * `updateSettings` messages. An object is a map from key to value; a key
 * that is absent reads as `undefined`. Nothing checks the values against
 * the enumerations the settings panel offers: whatever storage or a message
 * carries is kept as it is.
 */
module Settings {
  import opened Optional

  /** The values the settings panel writes: strings for the enumerations, a boolean for the format. */
  datatype Value = Str(s: string) | Bool(b: bool)

  type Settings = map<string, Value>

  const Theme := "theme"
  const Format24h := "format24h"
  const Position := "position"

  /** The content script's defaults. */
  const ContentDefaults: Settings :=
    map[Theme := Str("dark"), Format24h := Bool(true), Position := Str("bottom-right")]

  /** The background page's defaults; it has no position setting. */
  const BackgroundDefaults: Settings :=
    map[Theme := Str("dark"), Format24h := Bool(true)]

  /** Reading a property: `undefined` (None) when the key is absent. */
  function Lookup(s: Settings, key: string): (r: Option<Value>)
    ensures r.Some? <==> key in s
    ensures key in s ==> r.value == s[key]
  {
    if key in s then Some(s[key]) else None
  }

  /** JavaScript truthiness: the empty string, `false` and `undefined` are falsy. */
  predicate Truthy(v: Option<Value>)
  {
    match v
    case None => false
    case Some(Str(s)) => s != ""
    case Some(Bool(b)) => b
  }

  /** The text a template literal `${v}` gives for the value. */
  function Text(v: Option<Value>): string
  {
    match v
    case None => "undefined"
    case Some(Str(s)) => s
    case Some(Bool(b)) => if b then "true" else "false"
  }

  /**
   * `{ ...current, ...update }`: every key of `update` takes its new value;
   * every other key of `current` keeps its old one; no other key appears.
   */
  function Merge(current: Settings, update: Settings): (r: Settings)
    ensures r.Keys == current.Keys + update.Keys
    ensures forall k :: k in update ==> r[k] == update[k]
    ensures forall k :: k in current && k !in update ==> r[k] == current[k]
  {
    current + update
  }

  /**
   * `storage.local.get(keys)`: the part of the store under the requested
   * keys; a key the store does not hold is left out of the result.
   */
  function Requested(store: Settings, keys: set<string>): (r: Settings)
    ensures r.Keys == store.Keys * keys
    ensures forall k :: k in r ==> r[k] == store[k]
  {
    map k | k in store && k in keys :: store[k]
  }

  /** Merging an empty update changes nothing. */
  lemma MergeEmpty(s: Settings)
    ensures Merge(s, map[]) == s
  {
    assert Merge(s, map[]).Keys == s.Keys;
  }

  /** Delivering the same update twice has the effect of delivering it once. */
  lemma MergeIdempotent(s: Settings, update: Settings)
    ensures Merge(Merge(s, update), update) == Merge(s, update)
  {
    var once := Merge(s, update);
    assert Merge(once, update).Keys == once.Keys;
  }

  /** Two updates in a row have the effect of their own merge, the later one winning. */
  lemma MergeSequence(s: Settings, first: Settings, second: Settings)
    ensures Merge(Merge(s, first), second) == Merge(s, Merge(first, second))
  {
    var l, r := Merge(Merge(s, first), second), Merge(s, Merge(first, second));
    assert l.Keys == r.Keys;
    forall k | k in l
      ensures l[k] == r[k]
    {
    }
  }

  /** An empty store leaves the content script on its defaults: dark, 24-hour, bottom-right. */
  lemma EmptyStoreGivesDefaults()
    ensures var s := Merge(ContentDefaults, map[]);
      Text(Lookup(s, Theme)) == "dark" && Truthy(Lookup(s, Format24h)) && Text(Lookup(s, Position)) == "bottom-right"
  {
    MergeEmpty(ContentDefaults);
  }

  /** The one message the widget listens for. */
  datatype Message = Message(action: string, settings: Settings)

  const UpdateSettings := "updateSettings"
}
