/** `PretrainedLargeModel.query` of `models.py` as a transition on the
    abstract store, and `CannedResponseModel` as a concrete backend.
    `Query.get_id` is the parameter `queryId`; `_run_query` is a field. */
module Models {
  import opened Wrappers
  import opened Structs
  import opened Files
  import Cache

  /** A model: its `get_id()`, its `_run_query` and the cache-only flag. */
  datatype LargeModel = LargeModel(
    id: string,
    runQuery: Query -> Result<Response, Error>,
    useCacheOnly: bool)

  /** One call of `query`: the store after it, its outcome, and the queries
      handed to `_run_query` during it. */
  datatype Step = Step(store: Store, result: Result<Response, Error>, calls: seq<Query>)

  const NoCachedResponse: string := "No cached response found for prompt."

  /** The folder name used by `_get_cache_dir`. */
  function CacheDir(model: LargeModel, queryId: Query -> string, query: Query): (key: string)
    ensures |key| == |model.id| + 1 + |queryId(query)|
    ensures key[..|model.id|] == model.id && key[|model.id|] == '_'
    ensures key[|model.id| + 1..] == queryId(query)
  {
    FolderName(model.id, queryId(query))
  }

  /** `query(prompt, imgs, hyperparameters)`: on a miss, a cache-only model
      raises `ValueError`; otherwise `_run_query` is called once, its answer
      is written, and the answer is read back from the folder. */
  function QueryModel(
    model: LargeModel,
    queryId: Query -> string,
    s: Store,
    prompt: string,
    imgs: Option<seq<Image>>,
    hyperparameters: Option<map<string, HyperValue>>
  ): (st: Step)
    ensures var q := Query(prompt, imgs, hyperparameters);
      var key := CacheDir(model, queryId, q);
      && OthersUnchanged(s, st.store, key)
      && key in st.store
      // a hit: nothing runs, nothing is written, the stored response is read
      && (IsHit(s, key) ==> st.calls == [] && st.store == s && st.result == ReadResponse(s[key]))
      // a miss on a cache-only model: nothing runs, only the empty folder may appear
      && (!IsHit(s, key) && model.useCacheOnly ==>
            && st.calls == []
            && st.result == Failure(ValueError(NoCachedResponse))
            && st.store == MakeFolder(s, key))
      // a miss otherwise: exactly one call; its exception propagates with nothing written,
      // its answer is written (prompt, images, completion, metadata) and read back
      && (!IsHit(s, key) && !model.useCacheOnly ==>
            && st.calls == [q]
            && (st.result.Success? <==> model.runQuery(q).Success?)
            && (st.result.Success? <==> IsHit(st.store, key))
            && (model.runQuery(q).Failure? ==> st.result == model.runQuery(q) && st.store == MakeFolder(s, key))
            && (model.runQuery(q).Success? ==>
                  && st.result == Success(ReadBack(model.runQuery(q).value))
                  && st.store[key] == WriteResponse(FolderAt(s, key), q, model.runQuery(q).value)))
      // whatever succeeded is now cached under the key
      && (st.result.Success? ==> IsHit(st.store, key) && st.result == ReadResponse(st.store[key]))
  {
    var q := Query(prompt, imgs, hyperparameters);
    var key := CacheDir(model, queryId, q);
    var s1 := MakeFolder(s, key);
    if !IsHit(s1, key) then
      if model.useCacheOnly then
        Step(s1, Failure(ValueError(NoCachedResponse)), [])
      else
        match model.runQuery(q)
        case Failure(e) => Step(s1, Failure(e), [q])
        case Success(response) =>
          WriteThenRead(s1[key], q, response);
          var s2 := s1[key := WriteResponse(s1[key], q, response)];
          Step(s2, ReadResponse(s2[key]), [q])
    else
      Step(s1, ReadResponse(s1[key]), [])
  }

  /** The two copies of the cache logic agree once the cache class is keyed
      by `get_id` in place of `get_readable_id`: on a miss, the writes `query`
      performs are exactly `FilePretrainedLargeModelCache.save` with the
      model's id, and what it returns is what that cache's lookup loads. */
  lemma QueryMissIsCacheSave(
    model: LargeModel, queryId: Query -> string, s: Store,
    prompt: string, imgs: Option<seq<Image>>, hyperparameters: Option<map<string, HyperValue>>)
    requires !model.useCacheOnly
    requires !IsHit(s, CacheDir(model, queryId, Query(prompt, imgs, hyperparameters)))
    requires model.runQuery(Query(prompt, imgs, hyperparameters)).Success?
    ensures var q := Query(prompt, imgs, hyperparameters);
      var st := QueryModel(model, queryId, s, prompt, imgs, hyperparameters);
      var saved := Cache.Save(s, queryId, q, model.id, model.runQuery(q).value);
      && st.store == saved
      && Cache.TryLoadResponse(saved, queryId, q, model.id) == Cache.Loaded(saved, st.result)
  {
    var q := Query(prompt, imgs, hyperparameters);
    var st := QueryModel(model, queryId, s, prompt, imgs, hyperparameters);
    var saved := Cache.Save(s, queryId, q, model.id, model.runQuery(q).value);
    assert CacheDir(model, queryId, q) == Cache.CacheFolder(queryId, q, model.id);
    assert st.store.Keys == saved.Keys;
    Cache.SaveThenLoad(s, queryId, q, model.id, model.runQuery(q).value);
  }

  /** With the ids the code actually uses, the two copies do not share
      entries: when `get_readable_id` and `get_id` differ on a query, nothing
      `query` does makes the cache class's lookup of that query hit. */
  lemma QueryEntryInvisibleToCache(
    model: LargeModel, queryId: Query -> string, readableId: Query -> string, s: Store,
    prompt: string, imgs: Option<seq<Image>>, hyperparameters: Option<map<string, HyperValue>>)
    requires readableId(Query(prompt, imgs, hyperparameters)) != queryId(Query(prompt, imgs, hyperparameters))
    requires !IsHit(s, Cache.CacheFolder(readableId, Query(prompt, imgs, hyperparameters), model.id))
    ensures var q := Query(prompt, imgs, hyperparameters);
      var st := QueryModel(model, queryId, s, prompt, imgs, hyperparameters);
      Cache.TryLoadResponse(st.store, readableId, q, model.id).result == Failure(ResponseNotFound)
  {
    var q := Query(prompt, imgs, hyperparameters);
    if Cache.CacheFolder(readableId, q, model.id) == CacheDir(model, queryId, q) {
      FolderNameInjective(model.id, readableId(q), queryId(q));
    }
  }

  /** After a call whose key is cached, repeating a query with the same folder
      is a hit: no `_run_query`, the same answer, the same store. */
  lemma RepeatIsHit(
    model: LargeModel, queryId: Query -> string, s: Store,
    prompt: string, imgs: Option<seq<Image>>, hyperparameters: Option<map<string, HyperValue>>,
    prompt': string, imgs': Option<seq<Image>>, hyperparameters': Option<map<string, HyperValue>>)
    requires queryId(Query(prompt', imgs', hyperparameters')) == queryId(Query(prompt, imgs, hyperparameters))
    requires QueryModel(model, queryId, s, prompt, imgs, hyperparameters).result.Success?
    ensures var st := QueryModel(model, queryId, s, prompt, imgs, hyperparameters);
      QueryModel(model, queryId, st.store, prompt', imgs', hyperparameters') == Step(st.store, st.result, [])
  {
  }

  /** Queries with distinct ids, such as two that differ only in their
      hyperparameters, get separate folders: querying one leaves the other's
      folder, and so its cached answer, untouched. */
  lemma DistinctIdsSeparateFolders(
    model: LargeModel, queryId: Query -> string, s: Store, other: Query,
    prompt: string, imgs: Option<seq<Image>>, hyperparameters: Option<map<string, HyperValue>>)
    requires queryId(other) != queryId(Query(prompt, imgs, hyperparameters))
    ensures var key := CacheDir(model, queryId, other);
      var st := QueryModel(model, queryId, s, prompt, imgs, hyperparameters);
      && key != CacheDir(model, queryId, Query(prompt, imgs, hyperparameters))
      && (key in st.store <==> key in s)
      && (key in s ==> st.store[key] == s[key])
  {
  }

  /** One request of a session of `query` calls. */
  datatype Request = Request(prompt: string, imgs: Option<seq<Image>>, hyperparameters: Option<map<string, HyperValue>>)

  /** The query a request builds. */
  function QueryOf(r: Request): Query {
    Query(r.prompt, r.imgs, r.hyperparameters)
  }

  /** One `_run_query` call of a session: the query it was handed and whether
      its answer was cached (it was not when `_run_query` raised). */
  datatype Call = Call(query: Query, answered: bool)

  /** A session's outcome: the final store and, in order, every call to
      `_run_query` made during it. */
  datatype Session = Session(store: Store, calls: seq<Call>)

  /** Issuing `requests` one after the other through the same model. */
  function QueryAll(model: LargeModel, queryId: Query -> string, s: Store, requests: seq<Request>): (session: Session)
    decreases |requests|
  {
    if requests == [] then Session(s, [])
    else
      var r := requests[0];
      var st := QueryModel(model, queryId, s, r.prompt, r.imgs, r.hyperparameters);
      var made := if st.calls != [] then [Call(st.calls[0], st.result.Success?)] else [];
      var rest := QueryAll(model, queryId, st.store, requests[1..]);
      Session(rest.store, made + rest.calls)
  }

  /** Every prompt file of `s` is still there in `s'`. */
  ghost predicate HitsKept(s: Store, s': Store) {
    forall key :: IsHit(s, key) ==> IsHit(s', key)
  }

  /** No call comes after an answered call with the same folder. */
  ghost predicate NoCallAfterAnswer(model: LargeModel, queryId: Query -> string, calls: seq<Call>) {
    forall i, j :: 0 <= i < j < |calls| && calls[i].answered ==>
      CacheDir(model, queryId, calls[i].query) != CacheDir(model, queryId, calls[j].query)
  }

  /** Every call's folder is a miss in `s`. */
  ghost predicate AllMissed(model: LargeModel, queryId: Query -> string, s: Store, calls: seq<Call>) {
    forall i :: 0 <= i < |calls| ==> !IsHit(s, CacheDir(model, queryId, calls[i].query))
  }

  /** Every answered call's folder is a hit in `s`. */
  ghost predicate AnsweredHit(model: LargeModel, queryId: Query -> string, s: Store, calls: seq<Call>) {
    forall i :: 0 <= i < |calls| && calls[i].answered ==> IsHit(s, CacheDir(model, queryId, calls[i].query))
  }

  /** One call of `query` keeps every prompt file, and if it called
      `_run_query`, that call's folder was a miss before and is a hit after
      exactly when the answer came back. */
  lemma StepShape(model: LargeModel, queryId: Query -> string, s: Store, r: Request)
    ensures var st := QueryModel(model, queryId, s, r.prompt, r.imgs, r.hyperparameters);
      && HitsKept(s, st.store)
      && (st.calls != [] ==>
            && st.calls == [QueryOf(r)]
            && !IsHit(s, CacheDir(model, queryId, QueryOf(r)))
            && (st.result.Success? <==> IsHit(st.store, CacheDir(model, queryId, QueryOf(r)))))
  {
  }

  /** Prepending at most one call to a session's calls keeps every folder
      missed at the start, every answered folder hit at the end, and no call
      after an answer on the same folder. */
  lemma PrependCall(
    model: LargeModel, queryId: Query -> string,
    s: Store, s1: Store, s2: Store, first: seq<Call>, rest: seq<Call>)
    requires |first| <= 1 && HitsKept(s, s1) && HitsKept(s1, s2)
    requires first != [] ==> !IsHit(s, CacheDir(model, queryId, first[0].query))
    requires first != [] && first[0].answered ==> IsHit(s1, CacheDir(model, queryId, first[0].query))
    requires NoCallAfterAnswer(model, queryId, rest)
    requires AllMissed(model, queryId, s1, rest) && AnsweredHit(model, queryId, s2, rest)
    ensures NoCallAfterAnswer(model, queryId, first + rest)
    ensures AllMissed(model, queryId, s, first + rest)
    ensures AnsweredHit(model, queryId, s2, first + rest)
  {
  }

  /** `_run_query` is never handed a query whose folder already holds an
      answer, over a whole session: every call's folder was a miss at the
      start, no call follows an answered call on the same folder (so at most
      one answer is cached per folder), and answered folders are hits at
      the end. */
  lemma {:induction false} AtMostOneRunPerKey(model: LargeModel, queryId: Query -> string, s: Store, requests: seq<Request>)
    ensures var session := QueryAll(model, queryId, s, requests);
      && NoCallAfterAnswer(model, queryId, session.calls)
      && AllMissed(model, queryId, s, session.calls)
      && AnsweredHit(model, queryId, session.store, session.calls)
      && HitsKept(s, session.store)
    decreases |requests|
  {
    if requests != [] {
      var r := requests[0];
      var st := QueryModel(model, queryId, s, r.prompt, r.imgs, r.hyperparameters);
      var made := if st.calls != [] then [Call(st.calls[0], st.result.Success?)] else [];
      var rest := QueryAll(model, queryId, st.store, requests[1..]);
      StepShape(model, queryId, s, r);
      AtMostOneRunPerKey(model, queryId, st.store, requests[1..]);
      PrependCall(model, queryId, s, st.store, rest.store, made, rest.calls);
    }
  }

  /** `CannedResponseModel`: id "canned" and a dictionary lookup that raises
      `KeyError` for an unregistered query. */
  function Canned(table: map<Query, Response>, useCacheOnly: bool): (model: LargeModel)
    ensures model.id == "canned" && model.useCacheOnly == useCacheOnly
    ensures forall q :: model.runQuery(q).Success? <==> q in table
    ensures forall q :: q in table ==> model.runQuery(q) == Success(table[q])
    ensures forall q :: q !in table ==> model.runQuery(q) == Failure(KeyError(q))
  {
    LargeModel("canned", q => if q in table then Success(table[q]) else Failure(KeyError(q)), useCacheOnly)
  }

  /** On a miss, a canned model answers registered queries from its table and
      caches the answer; an unregistered query raises `KeyError` and leaves the
      folder without a prompt. */
  lemma CannedMiss(
    table: map<Query, Response>, queryId: Query -> string, s: Store,
    prompt: string, imgs: Option<seq<Image>>, hyperparameters: Option<map<string, HyperValue>>)
    requires !IsHit(s, CacheDir(Canned(table, false), queryId, Query(prompt, imgs, hyperparameters)))
    ensures var q := Query(prompt, imgs, hyperparameters);
      var st := QueryModel(Canned(table, false), queryId, s, prompt, imgs, hyperparameters);
      && (q in table ==> st.result == Success(ReadBack(table[q])) && IsHit(st.store, CacheDir(Canned(table, false), queryId, q)))
      && (q !in table ==> st.result == Failure(KeyError(q)) && !IsHit(st.store, CacheDir(Canned(table, false), queryId, q)))
  {
  }

  /** The queries of the canned-model test. */
  const Hello: Query := Query("Hello!", None, None)
  const HelloSeeded: Query := Query("Hello!", None, Some(map["seed" := IntValue(1)]))
  const WhatsUp: Query := Query("What's up?", None, None)
  const Hi: Query := Query("Hi!", None, None)

  /** The canned-model test's table; "Hi!" is not registered. */
  const TestTable: map<Query, Response> := map[
    Hello := Response("Hi!", map[]),
    HelloSeeded := Response("Hello!", map[]),
    WhatsUp := Response("Nothing much.", map[])]

  /** The test relies on the four queries having distinct ids. */
  ghost predicate TestIdsDistinct(queryId: Query -> string) {
    var ids := [queryId(Hello), queryId(HelloSeeded), queryId(WhatsUp), queryId(Hi)];
    forall i, j :: 0 <= i < j < |ids| ==> ids[i] != ids[j]
  }

  /** The first half of the canned-model test, from an empty cache: "Hello!"
      gives "Hi!", the seeded query gets its own folder and gives "Hello!",
      and "Hi!" raises `KeyError`; afterwards "Hello!" is cached as "Hi!" and
      "What's up?" is still a miss. */
  lemma CannedFreshAnswers(queryId: Query -> string)
    requires TestIdsDistinct(queryId)
    ensures
      var llm := Canned(TestTable, false);
      var st1 := QueryModel(llm, queryId, map[], "Hello!", None, None);
      var st2 := QueryModel(llm, queryId, st1.store, "Hello!", None, Some(map["seed" := IntValue(1)]));
      var st3 := QueryModel(llm, queryId, st2.store, "Hi!", None, None);
      && st1.result == Success(Response("Hi!", map[]))
      && st2.result == Success(Response("Hello!", map[]))
      && st3.result == Failure(KeyError(Hi))
      && IsHit(st3.store, CacheDir(llm, queryId, Hello))
      && ReadResponse(st3.store[CacheDir(llm, queryId, Hello)]) == Success(Response("Hi!", map[]))
      && !IsHit(st3.store, CacheDir(llm, queryId, WhatsUp))
  {
    var ids := [queryId(Hello), queryId(HelloSeeded), queryId(WhatsUp), queryId(Hi)];
    assert ids[0] != ids[1] && ids[2] != ids[0] && ids[2] != ids[1] && ids[2] != ids[3];
    var llm := Canned(TestTable, false);
    var kHello := CacheDir(llm, queryId, Hello);
    var kSeed := CacheDir(llm, queryId, HelloSeeded);
    var kWhatsUp := CacheDir(llm, queryId, WhatsUp);
    assert kHello != kSeed by { if kHello == kSeed { FolderNameInjective("canned", ids[0], ids[1]); } }
    assert Hi !in TestTable;
    assert '\r' !in "Hi!" && '\r' !in "Hello!";
    assert ReadBack(TestTable[Hello]) == TestTable[Hello];
    assert ReadBack(TestTable[HelloSeeded]) == TestTable[HelloSeeded];
    var st1 := QueryModel(llm, queryId, map[], "Hello!", None, None);
    CannedMiss(TestTable, queryId, map[], "Hello!", None, None);
    assert !IsHit(st1.store, kSeed);
    var st2 := QueryModel(llm, queryId, st1.store, "Hello!", None, Some(map["seed" := IntValue(1)]));
    CannedMiss(TestTable, queryId, st1.store, "Hello!", None, Some(map["seed" := IntValue(1)]));
    assert st2.store[kHello] == st1.store[kHello];
    var st3 := QueryModel(llm, queryId, st2.store, "Hi!", None, None);
    assert st3.store[kHello] == st1.store[kHello];
  }

  /** The cache-only half of the canned-model test: over a store where
      "Hello!" is cached as "Hi!" and "What's up?" is not, a cache-only model
      answers the first without a call and raises `ValueError` for the second. */
  lemma CacheOnlyAnswers(table: map<Query, Response>, queryId: Query -> string, s: Store)
    requires var cached := Canned(table, true);
      && IsHit(s, CacheDir(cached, queryId, Hello))
      && ReadResponse(s[CacheDir(cached, queryId, Hello)]) == Success(Response("Hi!", map[]))
      && !IsHit(s, CacheDir(cached, queryId, WhatsUp))
    ensures var cached := Canned(table, true);
      var st4 := QueryModel(cached, queryId, s, "Hello!", None, None);
      var st5 := QueryModel(cached, queryId, st4.store, "What's up?", None, None);
      && st4.result == Success(Response("Hi!", map[])) && st4.calls == []
      && st5.result == Failure(ValueError(NoCachedResponse)) && st5.calls == []
  {
  }

  /** The whole canned-model test: the fresh answers, then a cache-only model
      over the same cache folder. */
  lemma CannedScenario(queryId: Query -> string)
    requires TestIdsDistinct(queryId)
    ensures
      var llm := Canned(TestTable, false);
      var st1 := QueryModel(llm, queryId, map[], "Hello!", None, None);
      var st2 := QueryModel(llm, queryId, st1.store, "Hello!", None, Some(map["seed" := IntValue(1)]));
      var st3 := QueryModel(llm, queryId, st2.store, "Hi!", None, None);
      var cached := Canned(TestTable, true);
      var st4 := QueryModel(cached, queryId, st3.store, "Hello!", None, None);
      var st5 := QueryModel(cached, queryId, st4.store, "What's up?", None, None);
      && st1.result == Success(Response("Hi!", map[]))
      && st2.result == Success(Response("Hello!", map[]))
      && st3.result == Failure(KeyError(Hi))
      && st4.result == Success(Response("Hi!", map[])) && st4.calls == []
      && st5.result == Failure(ValueError(NoCachedResponse)) && st5.calls == []
  {
    CannedFreshAnswers(queryId);
    var llm := Canned(TestTable, false);
    var st1 := QueryModel(llm, queryId, map[], "Hello!", None, None);
    var st2 := QueryModel(llm, queryId, st1.store, "Hello!", None, Some(map["seed" := IntValue(1)]));
    var st3 := QueryModel(llm, queryId, st2.store, "Hi!", None, None);
    CacheOnlyAnswers(TestTable, queryId, st3.store);
  }
}
