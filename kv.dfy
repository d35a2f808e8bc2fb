/**
 * simplemind/plugins/kv.py: a key-value store plugin.  Its `execute`
 * ignores the context argument, so the model leaves it out; its
 * constructor does not run BasePlugin's, so it has no enabled flag.
 */
module KV {
  import opened Wrappers
  import opened Python

  /** `store[key] = value` on a dict: an unhashable key raises TypeError and leaves the dict as it was. */
  function Put(store: map<Value, Value>, key: Value, value: Value): (r: Result<map<Value, Value>, Error>)
    ensures r.Success? <==> Hashable(key)
    ensures r.Success? ==> r.value.Keys == store.Keys + {key} && r.value[key] == value
    ensures r.Success? ==> forall k :: k in store && k != key ==> k in r.value && r.value[k] == store[k]
    ensures r.Failure? ==> r.error.kind == TypeError
  {
    if Hashable(key) then Success(store[key := value])
    else Failure(Error(TypeError, "unhashable type: '" + (if key.PyList? then "list" else "dict") + "'"))
  }

  /** Repeating the same call leaves the store as the first call left it. */
  lemma PutIdempotent(store: map<Value, Value>, key: Value, value: Value)
    requires Hashable(key)
    ensures Put(Put(store, key, value).value, key, value) == Put(store, key, value)
  {
    var once := Put(store, key, value).value;
    assert once[key := value] == once;
  }

  /** KVPlugin: the `store` dict. */
  class KVPlugin {
    var store: map<Value, Value>

    /** The store starts empty. */
    constructor ()
      ensures store == map[]
    {
      store := map[];
    }

    /** execute: bind key to value, overwriting any earlier value, and return the store. */
    method Execute(key: Value, value: Value) returns (r: Result<map<Value, Value>, Error>)
      modifies this
      ensures r == Put(old(store), key, value)
      ensures store == if r.Success? then r.value else old(store)
    {
      r := Put(store, key, value);
      if r.Success? {
        store := r.value;
      }
    }
  }
}
