/** The persisted index as an abstract store of files: path to index. The
    JSON encoding is left out; a write replaces the whole file at once. */
module IndexStore {
  import opened Outcomes

  type Store<I> = map<string, I>

  datatype StoreError = NotFound(path: string)

  /** `loadIndex(path)`: the stored index, or "not found". */
  function Load<I>(store: Store<I>, path: string): (r: Result<I, StoreError>)
    ensures r.Ok? <==> path in store
    ensures r.Err? ==> r.error == NotFound(path)
    ensures r.Ok? ==> r.value == store[path]
  {
    if path in store then Ok(store[path]) else Err(NotFound(path))
  }

  /** `writeFileSync(path, ...)`: replaces one file, leaves the others. */
  function Save<I>(store: Store<I>, path: string, index: I): (r: Store<I>)
    ensures path in r && r[path] == index
    ensures forall p :: p in store && p != path ==> p in r && r[p] == store[p]
    ensures r.Keys == store.Keys + {path}
  {
    store[path := index]
  }

  /** Loading what was just saved gives it back. */
  lemma LoadAfterSave<I>(store: Store<I>, path: string, index: I)
    ensures Load(Save(store, path, index), path) == Ok(index)
  {
  }
}
