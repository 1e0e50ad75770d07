/**
 * The durable key-value medium (AsyncStorage in the program). Writes and
 * reads may fail: whether the medium is available for a given call is the
 * environment's choice and is passed in as `available`.
 */
module Storage {
  import opened Wrappers

  class Medium<K(==), V> {
    /** What the medium holds, already deserialised. */
    var entries: map<K, V>

    constructor ()
      ensures entries == map[]
    {
      entries := map[];
    }

    /** `setItem`: stores `value` under `key`, or fails and stores nothing. */
    method SetItem(key: K, value: V, available: bool) returns (ok: bool)
      modifies this
      ensures ok == available
      ensures entries == if ok then old(entries)[key := value] else old(entries)
    {
      ok := available;
      if ok {
        entries := entries[key := value];
      }
    }

    /** `getItem`: the stored value, `None` when there is none; `ok` is false when the read failed. */
    method GetItem(key: K, available: bool) returns (ok: bool, value: Option<V>)
      ensures ok == available
      ensures ok && key in entries ==> value == Some(entries[key])
      ensures !(ok && key in entries) ==> value == None
    {
      ok := available;
      value := if ok && key in entries then Some(entries[key]) else None;
    }
  }
}
