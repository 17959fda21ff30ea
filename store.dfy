/** An Android SharedPreferences file as a string-keyed map of typed values. */
module Store {
  import opened Wrappers

  datatype PrefValue = StrVal(s: string) | IntVal(i: int) | LongVal(l: int) | BoolVal(b: bool)

  /**
   * One preferences file. Every edit is applied at once (`apply()` is not
   * modelled as asynchronous).
   */
  class SharedPreferences {
    var entries: map<string, PrefValue>

    constructor (initial: map<string, PrefValue>)
      ensures entries == initial
    {
      entries := initial;
    }

    predicate Contains(key: string)
      reads this
    {
      key in entries
    }

    /** `getString(key, default)`. */
    function GetString(key: string, default: Option<string>): Option<string>
      reads this
    {
      if key in entries && entries[key].StrVal? then Some(entries[key].s) else default
    }

    /** `getInt(key, default)`. */
    function GetInt(key: string, default: int): int
      reads this
    {
      if key in entries && entries[key].IntVal? then entries[key].i else default
    }

    /** `getLong(key, default)`. */
    function GetLong(key: string, default: int): int
      reads this
    {
      if key in entries && entries[key].LongVal? then entries[key].l else default
    }

    /** `getBoolean(key, default)`. */
    function GetBoolean(key: string, default: bool): bool
      reads this
    {
      if key in entries && entries[key].BoolVal? then entries[key].b else default
    }

    /** `edit().putString(key, value).apply()`; a null value removes the key, as Android does. */
    method PutString(key: string, value: Option<string>)
      modifies this
      ensures entries == if value.None? then old(entries) - {key} else old(entries)[key := StrVal(value.value)]
    {
      if value.None? {
        entries := entries - {key};
      } else {
        entries := entries[key := StrVal(value.value)];
      }
    }

    method PutInt(key: string, value: int)
      modifies this
      ensures entries == old(entries)[key := IntVal(value)]
    {
      entries := entries[key := IntVal(value)];
    }

    method PutLong(key: string, value: int)
      modifies this
      ensures entries == old(entries)[key := LongVal(value)]
    {
      entries := entries[key := LongVal(value)];
    }

    method PutBoolean(key: string, value: bool)
      modifies this
      ensures entries == old(entries)[key := BoolVal(value)]
    {
      entries := entries[key := BoolVal(value)];
    }

    /** `edit().remove(k1).remove(k2)….apply()`. */
    method RemoveAll(keys: set<string>)
      modifies this
      ensures entries == old(entries) - keys
    {
      entries := entries - keys;
    }

    /** `edit().clear().apply()`. */
    method Clear()
      modifies this
      ensures entries == map[]
    {
      entries := map[];
    }
  }
}
