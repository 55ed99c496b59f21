/**
 * The persisted-state cell behind `useLocalStorageState`: a value kept in
 * memory and mirrored, as JSON text, under one key of the browser's
 * durable key/value storage.
 *
 * The storage is a map from keys to what `localStorage.getItem` would
 * return. The model does not parse or print JSON; it distinguishes only
 * what the loader's branches distinguish.
 */
module Storage {

  /** The text stored under a key, as the loader sees it. */
  datatype Raw<D> =
    | Blank                  // the empty string: falsy, so the loader ignores it
    | Unparsable             // a text on which `JSON.parse` throws
    | Serialized(doc: D)     // the JSON text of a document `doc`

  /**
   * Initial value of a cell: the parsed document stored under `key`, or
   * `fallback` when the key is missing, its text is empty, or it does not
   * parse.
   */
  function Load<D>(store: map<string, Raw<D>>, key: string, fallback: D): (d: D)
    ensures key in store && store[key].Serialized? ==> d == store[key].doc
    ensures key !in store || !store[key].Serialized? ==> d == fallback
  {
    if key in store then
      match store[key]
      case Serialized(doc) => doc
      case _ => fallback
    else fallback
  }

  /** The storage after the setter has written `v` under `key`. */
  function Save<D>(store: map<string, Raw<D>>, key: string, v: D): (s: map<string, Raw<D>>)
    ensures s.Keys == store.Keys + {key}
    ensures s[key] == Serialized(v)
    ensures forall k :: k in store && k != key ==> s[k] == store[k]
  {
    store[key := Serialized(v)]
  }

  /**
   * Write-through: whatever the storage held before, loading a key just
   * saved gives back the saved value, and loading any other key gives what
   * it gave before the save.
   */
  lemma LoadAfterSave<D>(store: map<string, Raw<D>>, key: string, v: D, other: string, fallback: D)
    ensures Load(Save(store, key, v), key, fallback) == v
    ensures other != key ==> Load(Save(store, key, v), other, fallback) == Load(store, other, fallback)
  {
  }
}
