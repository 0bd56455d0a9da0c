/**
 * The editor's persistent settings (core/thin/settings.js): a key-value
 * store restricted to five configuration keys. Every read and write checks
 * the key first and fails with 'Invalid configuration key' before the store
 * is touched. The browser's local storage behind it is modelled as a map.
 */
module Settings {
  import opened Wrappers

  /** The configuration keys, in the order they are declared. */
  const DEFINITION: seq<string> := ["default_unit", "locale", "last_image_path",
                                    "last_layout_doc_path", "last_layout_path"]

  const DEFAULT_UNIT_KEY: string := "default_unit"
  const INVALID_KEY: string := "Invalid configuration key"

  predicate IsDefined(key: string) {
    key in DEFINITION
  }

  /** `validateKey_`: succeeds exactly for a declared key. */
  function ValidateKey(key: string): (r: Result<(), string>)
    ensures r.Ok? <==> key in DEFINITION
    ensures r.Err? ==> r.error == INVALID_KEY
  {
    if IsDefined(key) then Ok(()) else Err(INVALID_KEY)
  }

  /** What `get` answers on a given store: the stored string, `null` when unset. */
  function Lookup(store: map<string, string>, key: string): (r: Result<Option<string>, string>)
    ensures r.Err? <==> !IsDefined(key)
    ensures r.Err? ==> r.error == INVALID_KEY
    ensures r.Ok? ==> (r.value.Some? <==> key in store)
    ensures r.Ok? && key in store ==> r.value == Some(store[key])
  {
    var _ :- ValidateKey(key);
    Ok(if key in store then Some(store[key]) else None)
  }

  /** The store after `set`, or the error it throws. */
  function Stored(store: map<string, string>, key: string, value: string): (r: Result<map<string, string>, string>)
    ensures r.Err? <==> !IsDefined(key)
    ensures r.Err? ==> r.error == INVALID_KEY
    ensures r.Ok? ==> r.value.Keys == store.Keys + {key} && r.value[key] == value
    ensures r.Ok? ==> forall k :: k in store && k != key ==> k in r.value && r.value[k] == store[k]
  {
    var _ :- ValidateKey(key);
    Ok(store[key := value])
  }

  /** `getDefaultUnit` on a given store: the stored unit, or `px` when it is unset or empty. */
  function DefaultUnit(store: map<string, string>, px: string): (u: string)
    ensures DEFAULT_UNIT_KEY in store && store[DEFAULT_UNIT_KEY] != "" ==> u == store[DEFAULT_UNIT_KEY]
    ensures (DEFAULT_UNIT_KEY !in store || store[DEFAULT_UNIT_KEY] == "") ==> u == px
  {
    match Lookup(store, DEFAULT_UNIT_KEY)
    case Ok(Some(s)) => if s != "" then s else px
    case _ => px
  }

  /** An undeclared key fails the same way whatever the store holds: the store is never consulted. */
  lemma InvalidKeyIgnoresStore(a: map<string, string>, b: map<string, string>, key: string, value: string)
    requires !IsDefined(key)
    ensures Lookup(a, key) == Lookup(b, key) == Err(INVALID_KEY)
    ensures Stored(a, key, value) == Stored(b, key, value) == Err(INVALID_KEY)
  {
  }

  /** `set(k, v)` then `get(k)` answers `v`; every other key answers as before. */
  lemma SetThenGet(store: map<string, string>, key: string, value: string, other: string)
    requires IsDefined(key)
    ensures Stored(store, key, value).Ok?
    ensures Lookup(Stored(store, key, value).value, key) == Ok(Some(value))
    ensures other != key ==> Lookup(Stored(store, key, value).value, other) == Lookup(store, other)
  {
  }

  /** After `setDefaultUnit(u)`, `getDefaultUnit` answers `u`, or `px` when `u` is empty. */
  lemma SetDefaultUnitThenGet(store: map<string, string>, unit: string, px: string)
    ensures Stored(store, DEFAULT_UNIT_KEY, unit).Ok?
    ensures DefaultUnit(Stored(store, DEFAULT_UNIT_KEY, unit).value, px) == if unit != "" then unit else px
  {
  }

  class Settings {
    /** The backing local storage. */
    var store: map<string, string>

    constructor (initial: map<string, string>)
      ensures store == initial
    {
      store := initial;
    }

    /** `get`: validates the key, then reads the store. */
    method Get(key: string) returns (r: Result<Option<string>, string>)
      ensures r == Lookup(store, key)
    {
      var valid := ValidateKey(key);
      if valid.Err? {
        return Err(valid.error);
      }
      if key in store {
        r := Ok(Some(store[key]));
      } else {
        r := Ok(None);
      }
    }

    /** `set`: validates the key, then writes the store; on an invalid key nothing is written. */
    method Set(key: string, value: string) returns (r: Result<(), string>)
      modifies this`store
      ensures r.Err? <==> Stored(old(store), key, value).Err?
      ensures r.Err? ==> r.error == INVALID_KEY && store == old(store)
      ensures r.Ok? ==> store == Stored(old(store), key, value).value
    {
      var valid := ValidateKey(key);
      if valid.Err? {
        return Err(valid.error);
      }
      store := store[key := value];
      r := Ok(());
    }

    /** `setDefaultUnit`: exactly `set('default_unit', unit)`, which cannot fail. */
    method SetDefaultUnit(unit: string)
      modifies this`store
      ensures Stored(old(store), DEFAULT_UNIT_KEY, unit) == Ok(store)
    {
      var _ := Set(DEFAULT_UNIT_KEY, unit);
    }

    /** `getDefaultUnit`: the stored unit, or `px` (the pixel unit) when it is unset or empty. */
    method GetDefaultUnit(px: string) returns (u: string)
      ensures u == DefaultUnit(store, px)
    {
      var r := Get(DEFAULT_UNIT_KEY);
      if r.Ok? && r.value.Some? && r.value.value != "" {
        u := r.value.value;
      } else {
        u := px;
      }
    }
  }
}
