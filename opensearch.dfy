/** The OpenSearch vector store adapter: the request bodies it builds for
    the engine, the way it reads the engine's answers, and the create-once
    provisioning of its index.

    The engine itself is `OpenSearchClient`, an oracle: it answers every
    request through a fixed function `respond` and keeps the set of index
    names that exist and a log of the requests it has been sent. */
module OpenSearch {
  import opened Wrappers
  import opened JsonValue
  import Strings
  import Seqs

  /** A vector of floats; the adapter passes its elements through untouched. */
  type Vector = seq<real>

  function VectorJson(v: Vector): (j: Json)
    ensures j.Arr? && |j.items| == |v|
  {
    Arr(seq(|v|, i requires 0 <= i < |v| => Float(v[i])))
  }

  /** An id as written in a bulk action: the caller's string, or null. */
  function IdJson(id: Option<string>): Json
  {
    if id.Some? then Str(id.value) else Null
  }

  /** `OutputData`. Its fields hold what the engine sent; pydantic's
      coercion of them is not modelled. */
  datatype OutputData = OutputData(id: Json, score: Json, payload: Json)

  datatype OpenSearchError =
    | Transport(message: string)                         // the client call raised
    | MalformedResponse                                  // a KeyError or TypeError reading an answer
    | BulkInsertFailed(errors: seq<Json>)                // "Bulk insert failed with errors: ..."
    | Wrapped(operation: string, cause: OpenSearchError) // "<operation> operation failed: ..."

  /** The requests the adapter sends, one constructor per client call. */
  datatype Request =
    | ExistsCall(index: string)
    | CreateCall(index: string, body: Json)
    | BulkCall(text: string)
    | SearchCall(index: string, query: Dict)
    | UpdateCall(index: string, id: string, body: Json)
    | GetCall(index: string, id: string)

  /** The defaults of `create_col`'s distance and `search`'s limit. */
  const DefaultDistance: string := "cosine"
  const DefaultSearchLimit: int := 5

  // ---------------------------------------------------------------------
  // create_col: the index body

  /** Distance names the adapter knows, and the engine's space for each. */
  const DistanceMapping: map<string, string> :=
    map["cosine" := "cosinesimil", "l2" := "l2", "dotProduct" := "innerproduct"]

  function SpaceType(distance: string): (space: string)
    ensures space == "cosinesimil" || space == "l2" || space == "innerproduct"
    ensures distance !in DistanceMapping ==> space == "cosinesimil"
  {
    if distance in DistanceMapping then DistanceMapping[distance] else "cosinesimil"
  }

  /** The three known names map to three different spaces; every other name
      falls back to cosine similarity. */
  lemma SpaceTypeTable(distance: string)
    ensures SpaceType("cosine") == "cosinesimil"
    ensures SpaceType("l2") == "l2"
    ensures SpaceType("dotProduct") == "innerproduct"
    ensures distance != "cosine" && distance != "l2" && distance != "dotProduct" ==>
      SpaceType(distance) == "cosinesimil"
  {
  }

  /** The `vector` field mapping: an HNSW kNN vector of the given dimension. */
  function VectorMapping(vectorSize: int, distance: string): Json
  {
    Obj([
      ("type", Str("knn_vector")),
      ("dimension", Int(vectorSize)),
      ("method", HnswMethod(distance))])
  }

  /** The approximate nearest-neighbour method: HNSW on nmslib, with fixed
      construction parameters. */
  function HnswMethod(distance: string): Json
  {
    Obj([
      ("name", Str("hnsw")),
      ("space_type", Str(SpaceType(distance))),
      ("engine", Str("nmslib")),
      ("parameters", Obj([("ef_construction", Int(128)), ("m", Int(16))]))])
  }

  /** The index-level settings: kNN enabled, one shard, one replica. */
  const IndexSettings: Json :=
    Obj([
      ("number_of_shards", Int(1)),
      ("number_of_replicas", Int(1)),
      ("knn", Str("true")),
      ("knn.algo_param.ef_search", Int(32))])

  function IndexBody(vectorSize: int, distance: string): (body: Json)
    ensures body.Obj? && Keys(body.fields) == {"mappings", "settings"}
  {
    var settings := ("settings", Obj([("index", IndexSettings)]));
    var mappings := ("mappings", Obj([
        ("properties", Obj([
          ("vector", VectorMapping(vectorSize, distance)),
          ("payload", Obj([("type", Str("object"))]))]))]));
    KeysOfPair(mappings, settings);
    Obj([mappings, settings])
  }

  /** The index body maps the `vector` field by `VectorMapping`. */
  lemma IndexBodyDeclares(vectorSize: int, distance: string)
    ensures Sub(Sub(Field(IndexBody(vectorSize, distance), "mappings"), "properties"), "vector")
      == Some(VectorMapping(vectorSize, distance))
  {
    var body := IndexBody(vectorSize, distance);
    assert Field(body, "mappings") == Some(body.fields[0].1);
  }

  /** The index body turns kNN search on for the index, with the fixed
      search-time parameter. */
  lemma IndexBodySettings(vectorSize: int, distance: string)
    ensures Sub(Field(IndexBody(vectorSize, distance), "settings"), "index") == Some(IndexSettings)
    ensures Field(IndexSettings, "knn") == Some(Str("true"))
    ensures Field(IndexSettings, "knn.algo_param.ef_search") == Some(Int(32))
  {
    GetFirstMatch(IndexBody(vectorSize, distance).fields, 1, "settings");
    GetFirstMatch(IndexSettings.fields, 2, "knn");
    GetFirstMatch(IndexSettings.fields, 3, "knn.algo_param.ef_search");
  }

  /** The vector field is a kNN vector of the requested dimension, in the
      space the distance maps to, with the fixed HNSW parameters. */
  lemma VectorMappingDeclares(vectorSize: int, distance: string)
    ensures var vector := Some(VectorMapping(vectorSize, distance));
      && Sub(vector, "type") == Some(Str("knn_vector"))
      && Sub(vector, "dimension") == Some(Int(vectorSize))
      && Sub(Sub(vector, "method"), "space_type") == Some(Str(SpaceType(distance)))
      && Sub(Sub(Sub(vector, "method"), "parameters"), "ef_construction") == Some(Int(128))
      && Sub(Sub(Sub(vector, "method"), "parameters"), "m") == Some(Int(16))
  {
    GetFirstMatch(VectorMapping(vectorSize, distance).fields, 2, "method");
    GetFirstMatch(HnswMethod(distance).fields, 1, "space_type");
    GetFirstMatch(HnswMethod(distance).fields, 3, "parameters");
  }

  /** The number of index-creation requests for `name` in a request log. */
  ghost function CreateCount(sent: seq<Request>, name: string): nat
  {
    if |sent| == 0 then 0
    else
      var last := sent[|sent| - 1];
      CreateCount(sent[..|sent| - 1], name) + (if last.CreateCall? && last.index == name then 1 else 0)
  }

  lemma {:induction false} CreateCountAppend(a: seq<Request>, b: seq<Request>, name: string)
    ensures CreateCount(a + b, name) == CreateCount(a, name) + CreateCount(b, name)
    decreases |b|
  {
    if |b| > 0 {
      assert (a + b)[..|a + b| - 1] == a + b[..|b| - 1];
      CreateCountAppend(a, b[..|b| - 1], name);
    } else {
      assert a + b == a;
    }
  }

  // ---------------------------------------------------------------------
  // insert: bulk actions, bulk body, bulk response

  /** Payloads that are missing or empty become one empty dict per vector. */
  function DefaultPayloads(vectors: seq<Vector>, payloads: Option<seq<Json>>): (r: seq<Json>)
    ensures payloads.Some? && payloads.value != [] ==> r == payloads.value
    ensures payloads.None? || payloads.value == [] ==>
      |r| == |vectors| && forall i :: 0 <= i < |r| ==> r[i] == Obj([])
  {
    if payloads.Some? && payloads.value != [] then payloads.value
    else seq(|vectors|, _ => Obj([]))
  }

  /** Ids that are missing or empty become one null id per vector. */
  function DefaultIds(vectors: seq<Vector>, ids: Option<seq<string>>): (r: seq<Option<string>>)
    ensures ids.Some? && ids.value != [] ==>
      |r| == |ids.value| && forall i :: 0 <= i < |r| ==> r[i] == Some(ids.value[i])
    ensures ids.None? || ids.value == [] ==>
      |r| == |vectors| && forall i :: 0 <= i < |r| ==> r[i] == None
  {
    if ids.Some? && ids.value != [] then seq(|ids.value|, i requires 0 <= i < |ids.value| => Some(ids.value[i]))
    else seq(|vectors|, _ => None)
  }

  /** The action line that precedes each document. */
  function IndexAction(indexName: string, id: Option<string>): Json
  {
    Obj([("index", Obj([("_index", Str(indexName)), ("_id", IdJson(id))]))])
  }

  /** The document line. */
  function DocRecord(v: Vector, payload: Json): Json
  {
    Obj([("vector", VectorJson(v)), ("payload", payload)])
  }

  /** The actions for the first `n` (vector, payload, id) triples. */
  function Actions(indexName: string, vectors: seq<Vector>, payloads: seq<Json>, ids: seq<Option<string>>, n: nat): (r: seq<Json>)
    requires n <= |vectors| && n <= |payloads| && n <= |ids|
    ensures |r| == 2 * n
  {
    if n == 0 then []
    else
      var pair := [IndexAction(indexName, ids[n - 1]), DocRecord(vectors[n - 1], payloads[n - 1])];
      Actions(indexName, vectors, payloads, ids, n - 1) + pair
  }

  /** `zip` stops at the shortest of its arguments. */
  function ZipLength(a: nat, b: nat, c: nat): (n: nat)
    ensures n <= a && n <= b && n <= c
    ensures n == a || n == b || n == c
  {
    if a <= b && a <= c then a else if b <= c then b else c
  }

  function BulkActions(indexName: string, vectors: seq<Vector>, payloads: seq<Json>, ids: seq<Option<string>>): (r: seq<Json>)
    ensures |r| == 2 * ZipLength(|vectors|, |payloads|, |ids|)
  {
    Actions(indexName, vectors, payloads, ids, ZipLength(|vectors|, |payloads|, |ids|))
  }

  /** The actions alternate: an index action for triple `j / 2` at every even
      position, its document at the odd position after it, in input order. */
  lemma {:induction false} ActionsInterleave(indexName: string, vectors: seq<Vector>, payloads: seq<Json>, ids: seq<Option<string>>, n: nat)
    requires n <= |vectors| && n <= |payloads| && n <= |ids|
    ensures |Actions(indexName, vectors, payloads, ids, n)| == 2 * n
    ensures forall j :: 0 <= j < 2 * n ==>
      Actions(indexName, vectors, payloads, ids, n)[j] ==
        if j % 2 == 0 then IndexAction(indexName, ids[j / 2])
        else DocRecord(vectors[j / 2], payloads[j / 2])
  {
    if n > 0 {
      ActionsInterleave(indexName, vectors, payloads, ids, n - 1);
    }
  }

  /** With payloads and ids left out, every vector gets one action pair. */
  lemma InsertDefaultsCoverEveryVector(indexName: string, vectors: seq<Vector>)
    ensures var actions := BulkActions(indexName, vectors, DefaultPayloads(vectors, None), DefaultIds(vectors, None));
      |actions| == 2 * |vectors|
      && forall j :: 0 <= j < |actions| ==>
        actions[j] == if j % 2 == 0 then IndexAction(indexName, None) else DocRecord(vectors[j / 2], Obj([]))
  {
    var n := |vectors|;
    ActionsInterleave(indexName, vectors, DefaultPayloads(vectors, None), DefaultIds(vectors, None), n);
  }

  /** The loop of `insert` that appends the two records of each triple. */
  method BuildActions(indexName: string, vectors: seq<Vector>, payloads: seq<Json>, ids: seq<Option<string>>)
    returns (actions: seq<Json>)
    ensures actions == BulkActions(indexName, vectors, payloads, ids)
  {
    var n := ZipLength(|vectors|, |payloads|, |ids|);
    actions := [];
    var i := 0;
    while i < n
      invariant 0 <= i <= n
      invariant actions == Actions(indexName, vectors, payloads, ids, i)
    {
      actions := actions + [IndexAction(indexName, ids[i])];
      actions := actions + [DocRecord(vectors[i], payloads[i])];
      i := i + 1;
    }
  }

  /** One serialised record per line. */
  function Lines(serialize: Json -> string, records: seq<Json>): (r: seq<string>)
    ensures |r| == |records|
  {
    seq(|records|, i requires 0 <= i < |records| => serialize(records[i]))
  }

  /** The serialised records joined by newlines, with a newline after the last. */
  function BulkBody(serialize: Json -> string, actions: seq<Json>): (body: string)
    ensures |body| > 0 && body[|body| - 1] == '\n'
    ensures actions == [] ==> body == "\n"
  {
    Strings.Join("\n", Lines(serialize, actions)) + "\n"
  }

  /** As long as no serialised record contains a newline (JSON text escapes
      them), splitting the bulk body on newlines gives back every record's
      line, in order, and the empty piece after the final newline. */
  lemma BulkBodyLines(serialize: Json -> string, actions: seq<Json>)
    requires |actions| > 0
    requires forall i :: 0 <= i < |actions| ==> '\n' !in serialize(actions[i])
    ensures Strings.Split(BulkBody(serialize, actions), '\n') == Lines(serialize, actions) + [""]
  {
    var lines := Lines(serialize, actions);
    Strings.JoinSnoc("\n", lines, "");
    assert "\n" == ['\n'];
    assert BulkBody(serialize, actions) == Strings.Join(['\n'], lines + [""]);
    forall i | 0 <= i < |lines + [""]| ensures '\n' !in (lines + [""])[i] {
      if i < |lines| {
        assert (lines + [""])[i] == serialize(actions[i]);
      }
    }
    Strings.SplitJoin('\n', lines + [""]);
  }

  /** Whether an item's "index" entry holds an error; None when the item has
      no dict under "index". */
  function ItemHasError(item: Json): (r: Option<bool>)
    ensures r.Some? <==> Field(item, "index").Some? && Field(item, "index").value.Obj?
    ensures r.Some? ==> (r.value <==> "error" in Keys(Field(item, "index").value.fields))
  {
    match Field(item, "index")
    case Some(Obj(entry)) => Some("error" in Keys(entry))
    case _ => None
  }

  /** The items whose "index" entry holds an error, in order; None if some
      item has no dict under "index". */
  function ErrorItems(items: seq<Json>): (r: Option<seq<Json>>)
    ensures r.Some? <==> forall i :: 0 <= i < |items| ==> ItemHasError(items[i]).Some?
    ensures r.Some? ==> |r.value| <= |items|
  {
    if |items| == 0 then Some([])
    else
      var init := items[..|items| - 1];
      var last := items[|items| - 1];
      assert forall i :: 0 <= i < |init| ==> init[i] == items[i];
      match (ErrorItems(init), ItemHasError(last))
      case (Some(errs), Some(b)) => Some(if b then errs + [last] else errs)
      case _ => None
  }

  /** The reported list is exactly the items whose "index" entry holds an
      error: nothing else, and none of them left out. */
  lemma {:induction false} ErrorItemsExact(items: seq<Json>)
    requires ErrorItems(items).Some?
    ensures forall e :: e in ErrorItems(items).value ==> e in items && ItemHasError(e) == Some(true)
    ensures forall i :: 0 <= i < |items| && ItemHasError(items[i]) == Some(true) ==> items[i] in ErrorItems(items).value
  {
    if |items| > 0 {
      var init := items[..|items| - 1];
      assert forall i :: 0 <= i < |init| ==> init[i] == items[i];
      ErrorItemsExact(init);
    }
  }

  /** Filtering one more item appends it exactly when it carries an error. */
  lemma ErrorItemsSnoc(s: seq<Json>, x: Json)
    ensures ErrorItems(s + [x]) ==
      match (ErrorItems(s), ItemHasError(x))
      case (Some(errs), Some(b)) => Some(if b then errs + [x] else errs)
      case _ => None
  {
    assert (s + [x])[..|s|] == s;
  }

  /** The error filter keeps the order of the items: filtering a
      concatenation is the concatenation of the filtered parts. */
  lemma {:induction false} ErrorItemsAppend(a: seq<Json>, b: seq<Json>)
    requires ErrorItems(a).Some? && ErrorItems(b).Some?
    ensures ErrorItems(a + b) == Some(ErrorItems(a).value + ErrorItems(b).value)
    decreases |b|
  {
    if |b| == 0 {
      assert a + b == a;
      assert ErrorItems(b) == Some([]);
      assert ErrorItems(a).value + [] == ErrorItems(a).value;
    } else {
      var init, last := b[..|b| - 1], b[|b| - 1];
      assert b == init + [last];
      assert a + b == (a + init) + [last];
      ErrorItemsSnoc(init, last);
      var bErrs, hasError := ErrorItems(init).value, ItemHasError(last).value;
      ErrorItemsAppend(a, init);
      ErrorItemsSnoc(a + init, last);
      var aErrs := ErrorItems(a).value;
      assert ErrorItems(a + init) == Some(aErrs + bErrs);
      if hasError {
        assert aErrs + bErrs + [last] == aErrs + (bErrs + [last]);
      }
    }
  }

  /** What `insert` does with the bulk response: nothing when its "errors"
      flag is falsy or missing; otherwise it fails, listing the items that
      carry an error (the list may be empty). */
  function CheckBulkResponse(response: Json): (r: Result<(), OpenSearchError>)
    ensures r.Success? <==> response.Obj? && !Truthy(GetOr(response.fields, "errors", Bool(false)))
    ensures r.Failure? && r.error.BulkInsertFailed? ==>
      && Field(response, "items").Some? && Field(response, "items").value.Arr?
      && ErrorItems(Field(response, "items").value.items) == Some(r.error.errors)
    ensures r.Failure? ==> r.error.BulkInsertFailed? || r.error.MalformedResponse?
    ensures (&& response.Obj? && Truthy(GetOr(response.fields, "errors", Bool(false)))
             && Field(response, "items").Some? && Field(response, "items").value.Arr?
             && ErrorItems(Field(response, "items").value.items).Some?) ==>
        r == Failure(BulkInsertFailed(ErrorItems(Field(response, "items").value.items).value))
  {
    if !response.Obj? then Failure(MalformedResponse)
    else if !Truthy(GetOr(response.fields, "errors", Bool(false))) then Success(())
    else match Get(response.fields, "items")
      case Some(Arr(items)) =>
        (match ErrorItems(items)
         case Some(errs) => Failure(BulkInsertFailed(errs))
         case None => Failure(MalformedResponse))
      case _ => Failure(MalformedResponse)
  }

  // ---------------------------------------------------------------------
  // search and list: query bodies and hit mapping

  /** A filter dict that is given and not empty (a truthy `filters`). */
  predicate FiltersGiven(filters: Option<Dict>)
  {
    filters.Some? && filters.value != []
  }

  function KnnQuery(query: Vector, limit: int): Json
  {
    Obj([("vector", Obj([("vector", VectorJson(query)), ("k", Int(limit))]))])
  }

  /** A term condition on one payload field. */
  function Term(field: string, value: Json): Json
  {
    Obj([("term", Obj([("payload." + field, value)]))])
  }

  /** One term per filter entry. */
  function Terms(filters: Dict): (r: seq<Json>)
    ensures |r| == |filters|
  {
    if |filters| == 0 then []
    else Terms(filters[..|filters| - 1]) + [Term(filters[|filters| - 1].0, filters[|filters| - 1].1)]
  }

  /** The i-th term tests the i-th filter entry: one term per entry, in the
      dict's order. */
  lemma {:induction false} TermsAt(filters: Dict)
    ensures |Terms(filters)| == |filters|
    ensures forall i :: 0 <= i < |filters| ==> Terms(filters)[i] == Term(filters[i].0, filters[i].1)
  {
    if |filters| > 0 {
      var init := filters[..|filters| - 1];
      TermsAt(init);
      assert forall i :: 0 <= i < |init| ==> init[i] == filters[i];
    }
  }

  /** The loop shared by `search` and `list` that turns the filter dict into
      term conditions. */
  method TermConditions(filters: Dict) returns (conditions: seq<Json>)
    ensures conditions == Terms(filters)
  {
    conditions := [];
    var i := 0;
    while i < |filters|
      invariant 0 <= i <= |filters|
      invariant conditions == Terms(filters[..i])
    {
      assert filters[..i + 1][..i] == filters[..i];
      conditions := conditions + [Term(filters[i].0, filters[i].1)];
      i := i + 1;
    }
    assert filters[..i] == filters;
  }

  /** The body `search` sends. */
  function SearchQuery(query: Vector, limit: int, filters: Option<Dict>): (q: Dict)
    ensures Keys(q) == {"size", "query"}
  {
    var knn := KnnQuery(query, limit);
    var size := ("size", Int(limit));
    if FiltersGiven(filters) then
      var boolQuery := ("query", Obj([("bool", Obj([("must", Arr([Obj([("knn", knn)])])), ("filter", Arr(Terms(filters.value)))]))]));
      KeysOfPair(size, boolQuery);
      [size, boolQuery]
    else
      KeysOfPair(size, ("query", Obj([("knn", knn)])));
      [size, ("query", Obj([("knn", knn)]))]
  }

  /** `size` and `k` are both the limit; without filters the query is the
      bare kNN clause, with filters the kNN clause is the one `must` entry and
      the filter terms go under `filter`. */
  lemma SearchQueryShape(query: Vector, limit: int, filters: Option<Dict>)
    ensures var q := Obj(SearchQuery(query, limit, filters));
      && Field(q, "size") == Some(Int(limit))
      && Sub(Field(KnnQuery(query, limit), "vector"), "k") == Some(Int(limit))
      && Sub(Field(KnnQuery(query, limit), "vector"), "vector") == Some(VectorJson(query))
      && (!FiltersGiven(filters) ==> Sub(Field(q, "query"), "knn") == Some(KnnQuery(query, limit)))
      && (FiltersGiven(filters) ==>
            && Sub(Sub(Field(q, "query"), "bool"), "must") == Some(Arr([Obj([("knn", KnnQuery(query, limit))])]))
            && Sub(Sub(Field(q, "query"), "bool"), "filter") == Some(Arr(Terms(filters.value))))
  {
  }

  /** The imperative construction in `search`: start from `size`, then set
      `query`, with the filter terms assigned into the nested `bool`. */
  method BuildSearchQuery(query: Vector, limit: int, filters: Option<Dict>) returns (q: Dict)
    ensures q == SearchQuery(query, limit, filters)
  {
    var knn := KnnQuery(query, limit);
    q := [("size", Int(limit))];
    if filters.Some? && filters.value != [] {
      var boolQuery: Dict := [("must", Arr([Obj([("knn", knn)])]))];
      var conditions := TermConditions(filters.value);
      assert "filter" !in Keys(boolQuery);
      boolQuery := Put(boolQuery, "filter", Arr(conditions));
      assert "query" !in Keys(q);
      q := Put(q, "query", Obj([("bool", Obj(boolQuery))]));
      assert boolQuery == [("must", Arr([Obj([("knn", knn)])])), ("filter", Arr(Terms(filters.value)))];
      assert q == [("size", Int(limit)), ("query", Obj([("bool", Obj(boolQuery))]))];
    } else {
      assert "query" !in Keys(q);
      q := Put(q, "query", Obj([("knn", knn)]));
    }
  }

  /** One hit as `OutputData`: its id, its score and the payload of its source. */
  function HitToOutput(hit: Json): (r: Option<OutputData>)
    ensures r.Some? <==>
      Field(hit, "_id").Some? && Field(hit, "_score").Some? && Sub(Field(hit, "_source"), "payload").Some?
    ensures r.Some? ==>
      && Some(r.value.id) == Field(hit, "_id")
      && Some(r.value.score) == Field(hit, "_score")
      && Some(r.value.payload) == Sub(Field(hit, "_source"), "payload")
  {
    match (Field(hit, "_id"), Field(hit, "_score"), Sub(Field(hit, "_source"), "payload"))
    case (Some(id), Some(score), Some(payload)) => Some(OutputData(id, score, payload))
    case _ => None
  }

  /** One output per hit, in hit order; None if some hit cannot be read. */
  function MapHits(hits: seq<Json>): (r: Option<seq<OutputData>>)
    ensures r.Some? ==> |r.value| == |hits|
  {
    Seqs.MapAll(HitToOutput, hits)
  }

  /** Mapping succeeds exactly when every hit can be read. */
  lemma MapHitsDefined(hits: seq<Json>)
    ensures MapHits(hits).Some? <==> forall i :: 0 <= i < |hits| ==> HitToOutput(hits[i]).Some?
  {
    Seqs.MapAllDefined(HitToOutput, hits);
  }

  /** When mapping succeeds, the i-th output is the i-th hit's. */
  lemma MapHitsAt(hits: seq<Json>)
    requires MapHits(hits).Some?
    ensures forall i :: 0 <= i < |hits| ==> Some(MapHits(hits).value[i]) == HitToOutput(hits[i])
  {
    Seqs.MapAllAt(HitToOutput, hits);
  }

  /** The loop of `search` and `list` that appends one `OutputData` per hit. */
  method CollectHits(hits: seq<Json>) returns (r: Option<seq<OutputData>>)
    ensures r == MapHits(hits)
  {
    var results: seq<OutputData> := [];
    var i := 0;
    while i < |hits|
      invariant 0 <= i <= |hits|
      invariant MapHits(hits[..i]) == Some(results)
    {
      assert hits[..i + 1][..i] == hits[..i];
      var out := HitToOutput(hits[i]);
      if out.None? {
        Seqs.MapAllFailFrom(HitToOutput, hits, i + 1);
        return None;
      }
      results := results + [out.value];
      i := i + 1;
    }
    assert hits[..i] == hits;
    r := Some(results);
  }

  /** The hit list nested under "hits" twice, which must be a list. */
  function HitsOf(response: Json): (r: Option<seq<Json>>)
    ensures r.Some? <==> Sub(Field(response, "hits"), "hits").Some? && Sub(Field(response, "hits"), "hits").value.Arr?
    ensures r.Some? ==> Sub(Field(response, "hits"), "hits") == Some(Arr(r.value))
  {
    match Sub(Field(response, "hits"), "hits")
    case Some(Arr(hits)) => Some(hits)
    case _ => None
  }

  /** What `search` returns for the engine's answer. */
  function SearchOutcome(reply: Result<Json, string>): (r: Result<seq<OutputData>, OpenSearchError>)
    ensures r.Success? <==> reply.Success? && HitsOf(reply.value).Some? && MapHits(HitsOf(reply.value).value).Some?
    ensures r.Success? ==> |r.value| == |HitsOf(reply.value).value|
    ensures r.Success? ==> Some(r.value) == MapHits(HitsOf(reply.value).value)
    ensures r.Failure? && reply.Failure? ==> r.error == Transport(reply.error)
  {
    match reply
    case Failure(message) => Failure(Transport(message))
    case Success(response) =>
      match HitsOf(response)
      case None => Failure(MalformedResponse)
      case Some(hits) =>
        match MapHits(hits)
        case None => Failure(MalformedResponse)
        case Some(outs) => Success(outs)
  }

  /** The body `list` sends. */
  function ListQuery(filters: Option<Dict>, limit: Option<int>): (q: Dict)
    ensures "query" in Keys(q) && Keys(q) <= {"query", "size"}
  {
    var query :=
      if FiltersGiven(filters) then Obj([("bool", Obj([("must", Arr(Terms(filters.value)))]))])
      else Obj([("match_all", Obj([]))]);
    if limit.Some? && limit.value != 0 then
      KeysOfPair(("query", query), ("size", Int(limit.value)));
      [("query", query), ("size", Int(limit.value))]
    else [("query", query)]
  }

  /** `list` matches everything unless filters are given, in which case it
      requires every term; it sets `size` exactly when the limit is truthy. */
  lemma ListQueryShape(filters: Option<Dict>, limit: Option<int>)
    ensures var q := ListQuery(filters, limit);
      && ("size" in Keys(q) <==> limit.Some? && limit.value != 0)
      && (limit.Some? && limit.value != 0 ==> Get(q, "size") == Some(Int(limit.value)))
      && (!FiltersGiven(filters) ==> Sub(Field(Obj(q), "query"), "match_all") == Some(Obj([])))
      && (FiltersGiven(filters) ==> Sub(Sub(Field(Obj(q), "query"), "bool"), "must") == Some(Arr(Terms(filters.value))))
  {
  }

  /** The imperative construction in `list`. */
  method BuildListQuery(filters: Option<Dict>, limit: Option<int>) returns (q: Dict)
    ensures q == ListQuery(filters, limit)
  {
    q := [("query", Obj([("match_all", Obj([]))]))];
    if filters.Some? && filters.value != [] {
      var must := TermConditions(filters.value);
      q := Put(q, "query", Obj([("bool", Obj([("must", Arr(must))]))]));
    }
    if limit.Some? && limit.value != 0 {
      q := Put(q, "size", Int(limit.value));
    }
  }

  /** What `list` returns: one list wrapping all results; every failure,
      reading the answer included, is re-raised as a list failure. */
  function ListOutcome(reply: Result<Json, string>): (r: Result<seq<seq<OutputData>>, OpenSearchError>)
    ensures r.Success? ==> |r.value| == 1
    ensures r.Success? <==> reply.Success? && HitsOf(reply.value).Some? && MapHits(HitsOf(reply.value).value).Some?
    ensures r.Success? ==> Some(r.value[0]) == MapHits(HitsOf(reply.value).value)
    ensures r.Failure? ==> r.error.Wrapped? && r.error.operation == "List"
  {
    match reply
    case Failure(message) => Failure(Wrapped("List", Transport(message)))
    case Success(response) =>
      match HitsOf(response)
      case None => Failure(Wrapped("List", MalformedResponse))
      case Some(hits) =>
        match MapHits(hits)
        case None => Failure(Wrapped("List", MalformedResponse))
        case Some(outs) => Success([outs])
  }

  // ---------------------------------------------------------------------
  // update and get

  /** The partial document `update` sends: a key for each argument given. */
  function UpdateDoc(vector: Option<Vector>, payload: Option<Json>): (doc: Dict)
    ensures Get(doc, "vector") == if vector.Some? then Some(VectorJson(vector.value)) else None
    ensures Get(doc, "payload") == if payload.Some? then Some(payload.value) else None
    ensures Keys(doc) <= {"vector", "payload"}
  {
    var withVector := if vector.Some? then Put([], "vector", VectorJson(vector.value)) else [];
    if payload.Some? then Put(withVector, "payload", payload.value) else withVector
  }

  /** `get`'s mapping: a direct lookup has no score. */
  function GetOutput(response: Json): (r: Option<OutputData>)
    ensures r.Some? <==> Field(response, "_id").Some? && Sub(Field(response, "_source"), "payload").Some?
    ensures r.Some? ==> r.value.score == Null
    ensures r.Some? ==>
      Some(r.value.id) == Field(response, "_id") && Some(r.value.payload) == Sub(Field(response, "_source"), "payload")
  {
    match (Field(response, "_id"), Sub(Field(response, "_source"), "payload"))
    case (Some(id), Some(payload)) => Some(OutputData(id, Null, payload))
    case _ => None
  }

  /** What `get` returns for the engine's answer. */
  function GetOutcome(reply: Result<Json, string>): (r: Result<OutputData, OpenSearchError>)
    ensures r.Success? <==> reply.Success? && GetOutput(reply.value).Some?
    ensures r.Success? ==> Some(r.value) == GetOutput(reply.value) && r.value.score == Null
    ensures r.Failure? ==> r.error.Wrapped? && r.error.operation == "Get"
    ensures reply.Failure? ==> r == Failure(Wrapped("Get", Transport(reply.error)))
  {
    match reply
    case Failure(message) => Failure(Wrapped("Get", Transport(message)))
    case Success(response) =>
      match GetOutput(response)
      case None => Failure(Wrapped("Get", MalformedResponse))
      case Some(out) => Success(out)
  }

  // ---------------------------------------------------------------------
  // The engine and the adapter

  class OpenSearchClient {
    /** The names of the indices that exist on the engine. */
    var indices: set<string>
    /** Every request sent so far, in order. */
    ghost var sent: seq<Request>
    /** The engine's answer to each request; a Failure stands for a call that
        raised. An existence check that does not raise is answered from
        `indices`. */
    const respond: Request -> Result<Json, string>

    constructor (indices: set<string>, respond: Request -> Result<Json, string>)
      ensures this.indices == indices && this.respond == respond && sent == []
    {
      this.indices := indices;
      this.respond := respond;
      sent := [];
    }

    /** `indices.exists(index=...)`: raises when the engine's answer is a
        Failure, and otherwise tells whether the index exists. */
    method Exists(index: string) returns (reply: Result<bool, string>)
      modifies this
      ensures respond(ExistsCall(index)).Failure? ==> reply == Failure(respond(ExistsCall(index)).error)
      ensures respond(ExistsCall(index)).Success? ==> reply == Success(index in indices)
      ensures indices == old(indices) && sent == old(sent) + [ExistsCall(index)]
    {
      var answer := respond(ExistsCall(index));
      reply := if answer.Failure? then Failure(answer.error) else Success(index in indices);
      sent := sent + [ExistsCall(index)];
    }

    /** `indices.create(index=..., body=...)`. */
    method Create(index: string, body: Json) returns (reply: Result<Json, string>)
      modifies this
      ensures reply == respond(CreateCall(index, body))
      ensures indices == if reply.Success? then old(indices) + {index} else old(indices)
      ensures sent == old(sent) + [CreateCall(index, body)]
    {
      reply := respond(CreateCall(index, body));
      if reply.Success? {
        indices := indices + {index};
      }
      sent := sent + [CreateCall(index, body)];
    }

    /** Any other call (`bulk`, `search`, `update`, `get`). */
    method Call(req: Request) returns (reply: Result<Json, string>)
      requires !req.CreateCall? && !req.ExistsCall?
      modifies this
      ensures reply == respond(req)
      ensures indices == old(indices) && sent == old(sent) + [req]
    {
      reply := respond(req);
      sent := sent + [req];
    }
  }

  /** How a create reply is reported: the engine's answer, or the raised error. */
  function CreateOutcome(reply: Result<Json, string>): Result<Option<Json>, OpenSearchError>
  {
    match reply
    case Success(response) => Success(Some(response))
    case Failure(message) => Failure(Transport(message))
  }

  class AWSOpenSearch {
    const indexName: string
    const client: OpenSearchClient
    /** The JSON serialiser, left abstract. */
    const serialize: Json -> string

    constructor (collectionName: string, client: OpenSearchClient, serialize: Json -> string)
      ensures indexName == collectionName && this.client == client && this.serialize == serialize
    {
      indexName := collectionName;
      this.client := client;
      this.serialize := serialize;
    }

    /** `_create_index_safe`: ask whether the index exists and create it only
        if it does not; an existing index is left alone and reported as None.
        An error raised by either call is raised again. */
    method CreateIndexSafe(name: string, body: Json) returns (r: Result<Option<Json>, OpenSearchError>)
      modifies client
      ensures var existsReply := client.respond(ExistsCall(name));
        if existsReply.Failure? then
          && r == Failure(Transport(existsReply.error))
          && client.indices == old(client.indices)
          && client.sent == old(client.sent) + [ExistsCall(name)]
        else if name in old(client.indices) then
          && r == Success(None)
          && client.indices == old(client.indices)
          && client.sent == old(client.sent) + [ExistsCall(name)]
        else
          && r == CreateOutcome(client.respond(CreateCall(name, body)))
          && client.indices == old(client.indices) + (if r.Success? then {name} else {})
          && client.sent == old(client.sent) + [ExistsCall(name), CreateCall(name, body)]
      ensures CreateCount(client.sent, name) <= CreateCount(old(client.sent), name) + 1
      ensures client.respond(ExistsCall(name)).Failure? || name in old(client.indices) ==>
        CreateCount(client.sent, name) == CreateCount(old(client.sent), name)
    {
      ghost var before := client.sent;
      var found := client.Exists(name);
      if found.Failure? || found.value {
        CreateCountAppend(before, [ExistsCall(name)], name);
        assert CreateCount([ExistsCall(name)], name) == 0;
        return if found.Failure? then Failure(Transport(found.error)) else Success(None);
      }
      var reply := client.Create(name, body);
      r := CreateOutcome(reply);
      assert [ExistsCall(name)] + [CreateCall(name, body)] == [ExistsCall(name), CreateCall(name, body)];
      CreateCountAppend(before, [ExistsCall(name), CreateCall(name, body)], name);
      assert [ExistsCall(name), CreateCall(name, body)][..1] == [ExistsCall(name)];
    }

    /** Provisioning twice: once the first call has succeeded the second one
        finds the index and sends no creation request, so the pair creates the
        index at most once. (The engine answers the same existence check the
        same way, so the second check does not raise either.) */
    method CreateIndexSafeTwice(name: string, body: Json)
      returns (first: Result<Option<Json>, OpenSearchError>, second: Result<Option<Json>, OpenSearchError>)
      modifies client
      ensures first.Success? ==> second == Success(None)
      ensures first.Success? ==> name in client.indices
      ensures first.Success? ==> CreateCount(client.sent, name) <= CreateCount(old(client.sent), name) + 1
    {
      first := CreateIndexSafe(name, body);
      second := CreateIndexSafe(name, body);
    }

    /** `create_col`: provision this adapter's index with the body for the
        given size and distance, returning nothing; an error raised while
        provisioning is raised again. */
    method CreateCol(vectorSize: int, distance: string := DefaultDistance) returns (r: Result<(), OpenSearchError>)
      modifies client
      ensures var body := IndexBody(vectorSize, distance);
        var existsReply := client.respond(ExistsCall(indexName));
        var create := client.respond(CreateCall(indexName, body));
        if existsReply.Failure? then
          && r == Failure(Transport(existsReply.error))
          && client.indices == old(client.indices)
          && client.sent == old(client.sent) + [ExistsCall(indexName)]
        else if indexName in old(client.indices) then
          && r == Success(())
          && client.indices == old(client.indices)
          && client.sent == old(client.sent) + [ExistsCall(indexName)]
        else
          && r == (if create.Success? then Success(()) else Failure(Transport(create.error)))
          && client.indices == old(client.indices) + (if create.Success? then {indexName} else {})
          && client.sent == old(client.sent) + [ExistsCall(indexName), CreateCall(indexName, body)]
      ensures r.Success? ==> indexName in client.indices
    {
      var created := CreateIndexSafe(indexName, IndexBody(vectorSize, distance));
      r := if created.Failure? then Failure(created.error) else Success(());
    }

    /** `insert`: one bulk request holding the interleaved action and
        document lines, then the check of the bulk response. */
    method Insert(vectors: seq<Vector>, payloads: Option<seq<Json>> := None, ids: Option<seq<string>> := None)
      returns (r: Result<(), OpenSearchError>)
      modifies client
      ensures var body := BulkBody(serialize, BulkActions(indexName, vectors, DefaultPayloads(vectors, payloads), DefaultIds(vectors, ids)));
        && client.sent == old(client.sent) + [BulkCall(body)]
        && client.indices == old(client.indices)
        && r == match client.respond(BulkCall(body))
                case Failure(message) => Failure(Transport(message))
                case Success(response) => CheckBulkResponse(response)
    {
      var ps := DefaultPayloads(vectors, payloads);
      var vids := DefaultIds(vectors, ids);
      var actions := BuildActions(indexName, vectors, ps, vids);
      var reply := client.Call(BulkCall(BulkBody(serialize, actions)));
      match reply {
        case Failure(message) => r := Failure(Transport(message));
        case Success(response) => r := CheckBulkResponse(response);
      }
    }

    /** `search`: one kNN query, results in hit order. */
    method Search(query: Vector, limit: int := DefaultSearchLimit, filters: Option<Dict> := None)
      returns (r: Result<seq<OutputData>, OpenSearchError>)
      modifies client
      ensures client.sent == old(client.sent) + [SearchCall(indexName, SearchQuery(query, limit, filters))]
      ensures client.indices == old(client.indices)
      ensures r == SearchOutcome(client.respond(SearchCall(indexName, SearchQuery(query, limit, filters))))
    {
      var body := BuildSearchQuery(query, limit, filters);
      var reply := client.Call(SearchCall(indexName, body));
      match reply {
        case Failure(message) => r := Failure(Transport(message));
        case Success(response) =>
          var hits := HitsOf(response);
          if hits.None? {
            r := Failure(MalformedResponse);
          } else {
            var outs := CollectHits(hits.value);
            r := if outs.Some? then Success(outs.value) else Failure(MalformedResponse);
          }
      }
    }

    /** `update`: a partial document with the fields that were given. */
    method Update(vectorId: string, vector: Option<Vector> := None, payload: Option<Json> := None)
      returns (r: Result<(), OpenSearchError>)
      modifies client
      ensures var req := UpdateCall(indexName, vectorId, Obj([("doc", Obj(UpdateDoc(vector, payload)))]));
        && client.sent == old(client.sent) + [req]
        && client.indices == old(client.indices)
        && r == match client.respond(req)
                case Failure(message) => Failure(Wrapped("Update", Transport(message)))
                case Success(_) => Success(())
    {
      var doc := UpdateDoc(vector, payload);
      var reply := client.Call(UpdateCall(indexName, vectorId, Obj([("doc", Obj(doc))])));
      r := if reply.Failure? then Failure(Wrapped("Update", Transport(reply.error))) else Success(());
    }

    /** `get`: a direct lookup, reported without a score. */
    method Get(vectorId: string) returns (r: Result<OutputData, OpenSearchError>)
      modifies client
      ensures client.sent == old(client.sent) + [GetCall(indexName, vectorId)]
      ensures client.indices == old(client.indices)
      ensures r == GetOutcome(client.respond(GetCall(indexName, vectorId)))
      ensures r.Success? ==> r.value.score == Null
    {
      var reply := client.Call(GetCall(indexName, vectorId));
      r := GetOutcome(reply);
    }

    /** `list`: a match-all or term query, results wrapped in one outer list. */
    method List(filters: Option<Dict> := None, limit: Option<int> := None)
      returns (r: Result<seq<seq<OutputData>>, OpenSearchError>)
      modifies client
      ensures client.sent == old(client.sent) + [SearchCall(indexName, ListQuery(filters, limit))]
      ensures client.indices == old(client.indices)
      ensures r == ListOutcome(client.respond(SearchCall(indexName, ListQuery(filters, limit))))
    {
      var body := BuildListQuery(filters, limit);
      var reply := client.Call(SearchCall(indexName, body));
      match reply {
        case Failure(message) => r := Failure(Wrapped("List", Transport(message)));
        case Success(response) =>
          var hits := HitsOf(response);
          if hits.None? {
            r := Failure(Wrapped("List", MalformedResponse));
          } else {
            var outs := CollectHits(hits.value);
            r := if outs.Some? then Success([outs.value]) else Failure(Wrapped("List", MalformedResponse));
          }
      }
    }
  }
}
