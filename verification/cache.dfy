/** `FilePretrainedLargeModelCache` of `cache.py`, over the abstract store.
    `Query.get_readable_id` is the parameter `readableId`. */
module Cache {
  import opened Wrappers
  import opened Structs
  import opened Files

  /** A lookup's outcome: the store after it (the folder is created even on a
      miss) and the response or the raised exception. */
  datatype Loaded = Loaded(store: Store, result: Result<Response, Error>)

  /** The folder name used by `_get_cache_dir_for_query`. */
  function CacheFolder(readableId: Query -> string, query: Query, modelId: string): (key: string)
    ensures |key| == |modelId| + 1 + |readableId(query)|
    ensures key[..|modelId|] == modelId && key[|modelId|] == '_'
    ensures key[|modelId| + 1..] == readableId(query)
  {
    FolderName(modelId, readableId(query))
  }

  /** `try_load_response`: makes the folder, then raises `ResponseNotFound`
      unless `prompt.txt` exists, else reads completion and metadata. */
  function TryLoadResponse(s: Store, readableId: Query -> string, query: Query, modelId: string): (l: Loaded)
    ensures var key := CacheFolder(readableId, query, modelId);
      && l.store == MakeFolder(s, key)
      && (l.result == Failure(ResponseNotFound) <==> !IsHit(s, key))
      && (IsHit(s, key) ==> l.result == ReadResponse(s[key]))
  {
    var key := CacheFolder(readableId, query, modelId);
    var s1 := MakeFolder(s, key);
    if !IsHit(s1, key) then Loaded(s1, Failure(ResponseNotFound))
    else Loaded(s1, ReadResponse(s1[key]))
  }

  /** `save`: makes the folder and writes prompt, images, completion and metadata. */
  function Save(s: Store, readableId: Query -> string, query: Query, modelId: string, response: Response): (s': Store)
    ensures var key := CacheFolder(readableId, query, modelId);
      && IsHit(s', key)
      && s'[key] == WriteResponse(FolderAt(s, key), query, response)
      && OthersUnchanged(s, s', key)
  {
    var key := CacheFolder(readableId, query, modelId);
    var s1 := MakeFolder(s, key);
    s1[key := WriteResponse(s1[key], query, response)]
  }

  /** Store-then-load: a saved response loads back with its newlines
      translated (unchanged when its text has no "\r"), and the load leaves
      the store as the save left it. */
  lemma SaveThenLoad(s: Store, readableId: Query -> string, query: Query, modelId: string, response: Response)
    ensures var s' := Save(s, readableId, query, modelId, response);
      TryLoadResponse(s', readableId, query, modelId) == Loaded(s', Success(ReadBack(response)))
    ensures var s' := Save(s, readableId, query, modelId, response);
      '\r' !in response.text ==> TryLoadResponse(s', readableId, query, modelId) == Loaded(s', Success(response))
  {
  }

  /** Saving the same response twice leaves the same store as saving once. */
  lemma SaveIdempotent(s: Store, readableId: Query -> string, query: Query, modelId: string, response: Response)
    ensures var once := Save(s, readableId, query, modelId, response);
      Save(once, readableId, query, modelId, response) == once
  {
    var key := CacheFolder(readableId, query, modelId);
    var once := Save(s, readableId, query, modelId, response);
    var twice := Save(once, readableId, query, modelId, response);
    WriteIdempotent(FolderAt(s, key), query, response);
    assert twice[key] == once[key];
    assert twice.Keys == once.Keys;
  }

  /** A miss creates the (empty) folder but no prompt file, so repeating the
      lookup misses again and changes nothing. */
  lemma MissIsStable(s: Store, readableId: Query -> string, query: Query, modelId: string)
    requires !IsHit(s, CacheFolder(readableId, query, modelId))
    ensures var l := TryLoadResponse(s, readableId, query, modelId);
      && l.result == Failure(ResponseNotFound)
      && !IsHit(l.store, CacheFolder(readableId, query, modelId))
      && TryLoadResponse(l.store, readableId, query, modelId) == l
  {
  }

  /** Images are saved as `imgs/0.jpg … imgs/(n-1).jpg` in list order, and the
      image folder is touched only when the query has images. */
  lemma ImagesInOrder(s: Store, readableId: Query -> string, query: Query, modelId: string, response: Response)
    ensures var key := CacheFolder(readableId, query, modelId);
      var e := Save(s, readableId, query, modelId, response)[key];
      && (query.imgs.None? ==> e.imgs == FolderAt(s, key).imgs)
      && (query.imgs.Some? ==> e.imgs.Some? && forall i: nat :: i < |query.imgs.value| ==>
            i in e.imgs.value && e.imgs.value[i] == query.imgs.value[i])
  {
  }
}
