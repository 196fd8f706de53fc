/** The body of the `item_lookup` tool (server/agent.ts): count the inventory, answer
    "empty inventory" when it holds nothing, otherwise embed the query and run a vector
    similarity search, and fall back to a regular-expression text search on the trimmed query
    when the vector search finds nothing. Whatever any of these calls throws is caught and
    returned as an error payload. The inventory collection and the embedding model are an
    oracle `Store`; the function returns the payload together with the calls it made. */
module ItemLookup {
  import opened Js

  const DefaultLimit: int := 10
  /** `find({}).limit(3)`: the sample the tool logs before searching. */
  const SampleLimit: int := 3
  const EmptyInventoryError := "No otems found in inventory"
  const EmptyInventoryMessage := "The inventory database appears to be empty"
  const SearchFailedError := "Failed to search inventory"

  /** What the collection and the embedding model answer. `D` is a stored document and `E` an
      embedding vector. */
  datatype Store<D, !E> = Store(
    countDocuments: Completion<int>,
    sample: Completion<seq<D>>,
    embedQuery: string -> Completion<E>,
    similaritySearch: (E, int) -> Completion<seq<(D, real)>>,
    textSearch: (string, int) -> Completion<seq<D>>)

  /** The calls the tool makes, in order. */
  datatype StoreCall =
    | CountDocuments
    | FindSample(limit: int)
    | EmbedQuery(text: string)
    | SimilaritySearch(k: int)
    | TextSearch(pattern: string, limit: int)

  datatype SearchType = Vector | Text

  /** One entry of `results`: a `[document, score]` pair for a vector search, a bare
      document for a text search. */
  datatype Hit<D> = Scored(doc: D, score: real) | Plain(doc: D)

  /** The object the tool serialises with `JSON.stringify`. */
  datatype Payload<D> =
    | InventoryEmpty(error: string, message: string, count: int)
    | Found(results: seq<Hit<D>>, searchType: SearchType, query: string, count: int)
    | SearchFailed(error: string, details: Option<string>, query: string)

  datatype Lookup<D> = Lookup(payload: Payload<D>, calls: seq<StoreCall>)

  /** The destructuring default `{ query, n = 10 }`: 10 replaces `n` only when it is omitted;
      any number the caller gives, zero and negatives included, is used as it is. */
  function EffectiveLimit(n: Option<int>): (limit: int)
    ensures n.None? ==> limit == DefaultLimit
    ensures n.Some? ==> limit == n.value
  {
    if n.Some? then n.value else DefaultLimit
  }

  function Failed<D>(e: JsError, query: string, calls: seq<StoreCall>): Lookup<D> {
    Lookup(SearchFailed(SearchFailedError, e.message, query), calls)
  }

  function ScoredHits<D>(pairs: seq<(D, real)>): (hits: seq<Hit<D>>)
    ensures |hits| == |pairs|
    ensures forall i :: 0 <= i < |pairs| ==> hits[i] == Scored(pairs[i].0, pairs[i].1)
  {
    if pairs == [] then [] else [Scored(pairs[0].0, pairs[0].1)] + ScoredHits(pairs[1..])
  }

  function PlainHits<D>(docs: seq<D>): (hits: seq<Hit<D>>)
    ensures |hits| == |docs|
    ensures forall i :: 0 <= i < |docs| ==> hits[i] == Plain(docs[i])
  {
    if docs == [] then [] else [Plain(docs[0])] + PlainHits(docs[1..])
  }

  /** `itemLookUpTool({ query, n })`. Every outcome is a payload: no thrown error object gets
      past the tool. The payload echoes the query exactly as given and its `count` is the number of
      results; the inventory is counted first, and at most one text search is made, on the
      trimmed query. */
  function ItemLookUp<D, E>(store: Store<D, E>, query: string, n: Option<int>): (r: Lookup<D>)
    ensures |r.calls| >= 1 && r.calls[0] == CountDocuments
    ensures r.payload.InventoryEmpty? <==> store.countDocuments == Normal(0)
    ensures r.payload.Found? ==> r.payload.query == query && r.payload.count == |r.payload.results|
    ensures r.payload.SearchFailed? ==> r.payload.query == query
    ensures forall i :: 0 <= i < |r.calls| && r.calls[i].TextSearch? ==>
              i == |r.calls| - 1 && r.calls[i] == TextSearch(Trim(query), EffectiveLimit(n))
  {
    var limit := EffectiveLimit(n);
    match store.countDocuments
    case Throw(e) => Failed(e, query, [CountDocuments])
    case Normal(total) =>
      if total == 0 then
        Lookup(InventoryEmpty(EmptyInventoryError, EmptyInventoryMessage, 0), [CountDocuments])
      else
        var c1 := [CountDocuments, FindSample(SampleLimit)];
        match store.sample
        case Throw(e) => Failed(e, query, c1)
        case Normal(_) =>
          var c2 := c1 + [EmbedQuery(query)];
          match store.embedQuery(query)
          case Throw(e) => Failed(e, query, c2)
          case Normal(embedding) =>
            var c3 := c2 + [SimilaritySearch(limit)];
            match store.similaritySearch(embedding, limit)
            case Throw(e) => Failed(e, query, c3)
            case Normal(result) =>
              if |result| == 0 then
                var cleanQuery := Trim(query);
                var c4 := c3 + [TextSearch(cleanQuery, limit)];
                match store.textSearch(cleanQuery, limit)
                case Throw(e) => Failed(e, query, c4)
                case Normal(textResults) =>
                  Lookup(Found(PlainHits(textResults), Text, query, |textResults|), c4)
              else
                Lookup(Found(ScoredHits(result), Vector, query, |result|), c3)
  }

  /** With an empty inventory the tool answers with the empty-inventory payload, `count: 0`,
      after counting and nothing else: no vector and no text search. */
  lemma EmptyInventorySearchesNothing<D, E>(store: Store<D, E>, query: string, n: Option<int>)
    requires store.countDocuments == Normal(0)
    ensures ItemLookUp(store, query, n)
         == Lookup(InventoryEmpty(EmptyInventoryError, EmptyInventoryMessage, 0), [CountDocuments])
  {
  }

  /** The store answers of a lookup that gets as far as the vector search. */
  predicate SearchReached<D, E>(store: Store<D, E>, query: string, limit: int) {
    && store.countDocuments.Normal? && store.countDocuments.value != 0
    && store.sample.Normal?
    && store.embedQuery(query).Normal?
    && store.similaritySearch(store.embedQuery(query).value, limit).Normal?
  }

  /** A non-empty vector result is returned as it is, tagged "vector", and no text search is
      made. */
  lemma VectorResultsUsed<D, E>(store: Store<D, E>, query: string, n: Option<int>)
    requires SearchReached(store, query, EffectiveLimit(n))
    requires var hits := store.similaritySearch(store.embedQuery(query).value, EffectiveLimit(n));
      |hits.value| > 0
    ensures var hits := store.similaritySearch(store.embedQuery(query).value, EffectiveLimit(n)).value;
      var r := ItemLookUp(store, query, n);
      && r.payload == Found(ScoredHits(hits), Vector, query, |hits|)
      && r.calls == [CountDocuments, FindSample(SampleLimit), EmbedQuery(query),
                     SimilaritySearch(EffectiveLimit(n))]
  {
  }

  /** An empty vector result triggers exactly one text search, on the trimmed query and with
      the same limit; its documents are returned tagged "text", with the untrimmed query. */
  lemma EmptyVectorResultFallsBackToText<D, E>(store: Store<D, E>, query: string, n: Option<int>)
    requires SearchReached(store, query, EffectiveLimit(n))
    requires store.similaritySearch(store.embedQuery(query).value, EffectiveLimit(n)).value == []
    requires store.textSearch(Trim(query), EffectiveLimit(n)).Normal?
    ensures var docs := store.textSearch(Trim(query), EffectiveLimit(n)).value;
      var r := ItemLookUp(store, query, n);
      && r.payload == Found(PlainHits(docs), Text, query, |docs|)
      && r.calls == [CountDocuments, FindSample(SampleLimit), EmbedQuery(query),
                     SimilaritySearch(EffectiveLimit(n)), TextSearch(Trim(query), EffectiveLimit(n))]
  {
  }

  /** Each call the tool makes may throw; whichever throws first ends the lookup with the
      error payload carrying that error's message and the untrimmed query. */
  lemma ThrownErrorBecomesPayload<D, E>(store: Store<D, E>, query: string, n: Option<int>, e: JsError)
    requires var limit := EffectiveLimit(n);
      var counted := store.countDocuments.Normal? && store.countDocuments.value != 0;
      || store.countDocuments == Throw(e)
      || (counted && store.sample == Throw(e))
      || (counted && store.sample.Normal? && store.embedQuery(query) == Throw(e))
      || (counted && store.sample.Normal? && store.embedQuery(query).Normal?
          && store.similaritySearch(store.embedQuery(query).value, limit) == Throw(e))
      || (SearchReached(store, query, limit)
          && store.similaritySearch(store.embedQuery(query).value, limit).value == []
          && store.textSearch(Trim(query), limit) == Throw(e))
    ensures ItemLookUp(store, query, n).payload == SearchFailed(SearchFailedError, e.message, query)
  {
  }
}
