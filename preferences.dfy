/**
 * A `SharedPreferences` file: one map from key to a stored string or boolean.
 * Reads go through `getString`/`getBoolean` with a default; `edit()...apply()`
 * updates the map at once (the write to disk happens later and is not modelled).
 */
module Preferences {
  import opened Wrappers

  datatype PrefValue = Text(text: string) | Flag(flag: bool)

  /** Whether `key` is absent or holds a string, so that `getString` does not throw a `ClassCastException`. */
  predicate HoldsText(entries: map<string, PrefValue>, key: string) {
    key in entries ==> entries[key].Text?
  }

  /** Whether `key` is absent or holds a boolean, so that `getBoolean` does not throw. */
  predicate HoldsFlag(entries: map<string, PrefValue>, key: string) {
    key in entries ==> entries[key].Flag?
  }

  /** `getString(key, default)`: the stored string, or `default` when the key is absent. */
  function GetString(entries: map<string, PrefValue>, key: string, default: Option<string>): (r: Option<string>)
    requires HoldsText(entries, key)
    ensures key in entries ==> r == Some(entries[key].text)
    ensures key !in entries ==> r == default
  {
    if key in entries then Some(entries[key].text) else default
  }

  /** `getBoolean(key, default)`: the stored boolean, or `default` when the key is absent. */
  function GetBoolean(entries: map<string, PrefValue>, key: string, default: bool): (r: bool)
    requires HoldsFlag(entries, key)
    ensures key in entries ==> r == entries[key].flag
    ensures key !in entries ==> r == default
  {
    if key in entries then entries[key].flag else default
  }

  /** `putString(key, value)`: a null value removes the key, as Android's editor does. */
  function PutString(entries: map<string, PrefValue>, key: string, value: Option<string>): (r: map<string, PrefValue>)
    ensures value.Some? ==> key in r && r[key] == Text(value.value)
    ensures value.None? ==> key !in r
    ensures forall k :: k != key ==> (k in r <==> k in entries) && (k in r ==> r[k] == entries[k])
  {
    if value.Some? then entries[key := Text(value.value)] else entries - {key}
  }

  /** What `getString` reads back is what `putString` wrote, null included. */
  lemma {:induction false} PutThenGetString(entries: map<string, PrefValue>, key: string, value: Option<string>, default: Option<string>)
    ensures HoldsText(PutString(entries, key, value), key)
    ensures GetString(PutString(entries, key, value), key, default) == (if value.Some? then value else default)
  {
  }

  /** The preference file, shared by every reader of the same name. */
  class SharedPreferences {
    var entries: map<string, PrefValue>

    /** The file's contents at the moment it is opened. */
    constructor (entries: map<string, PrefValue>)
      ensures this.entries == entries
    {
      this.entries := entries;
    }

    /** `edit().putString(key, value).apply()`. */
    method PutStringAndApply(key: string, value: Option<string>)
      modifies this
      ensures entries == PutString(old(entries), key, value)
    {
      entries := PutString(entries, key, value);
    }

    /** `edit().putBoolean(key, value).apply()`. */
    method PutBooleanAndApply(key: string, value: bool)
      modifies this
      ensures entries == old(entries)[key := Flag(value)]
    {
      entries := entries[key := Flag(value)];
    }
  }
}
