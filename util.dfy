/** `executor/src/util.py`: reading a dict entry with a fallback. */
module Util {
  import opened Common
  import opened Yaml

  /** `get_dict_value_or_default`: the stored value when the key is present,
      the default otherwise. Presence decides, not truthiness. */
  function GetDictValueOrDefault(d: seq<(string, Value)>, key: string, default: Value): (r: Value)
    ensures Lookup(d, key).Some? ==> r == Lookup(d, key).value
    ensures Lookup(d, key).None? ==> r == default
  {
    match Lookup(d, key)
    case Some(v) => v
    case None => default
  }

  /** A stored `None` or empty string is returned instead of the default. */
  lemma FalsyValuesKept(d: seq<(string, Value)>, key: string, default: Value)
    ensures GetDictValueOrDefault(Store(d, key, Null), key, default) == Null
    ensures GetDictValueOrDefault(Store(d, key, Str("")), key, default) == Str("")
  {
    LookupStore(d, key, Null, key);
    LookupStore(d, key, Str(""), key);
  }

  /** The key read is the only one that matters: storing under another key
      leaves the answer as it was. */
  lemma OtherKeysIrrelevant(d: seq<(string, Value)>, key: string, default: Value, other: string, v: Value)
    requires other != key
    ensures GetDictValueOrDefault(Store(d, other, v), key, default) == GetDictValueOrDefault(d, key, default)
  {
    LookupStore(d, other, v, key);
  }
}
