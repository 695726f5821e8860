/**
 * The Qdrant-backed vector store wrapper, modelled against an abstract
 * client. The client's collection set is state; the answers of its search,
 * upsert and count calls are opaque inputs (functions of the arguments the
 * wrapper passes), and every call may fail with an error text.
 */
module VectorDBQdrant {
  import opened Wrappers

  /** A Python value as it appears in a document dict, a payload or a point id. */
  datatype Value =
    | Null
    | Bool(b: bool)
    | Int(i: int)
    | Float(f: real)
    | Str(s: string)
    | List(items: seq<Value>)
    | Dict(entries: map<string, Value>)

  /** Python truthiness: `None`, `False`, zero and empty containers are false. */
  predicate Truthy(v: Value)
  {
    match v
    case Null => false
    case Bool(b) => b
    case Int(i) => i != 0
    case Float(f) => f != 0.0
    case Str(s) => s != []
    case List(items) => items != []
    case Dict(entries) => entries != map[]
  }

  /** Python's `a or b`. */
  function Or(a: Value, b: Value): (r: Value)
  {
    if Truthy(a) then a else b
  }

  /** Python's `d.get(key, default)`. */
  function Get(d: map<string, Value>, key: string, default: Value): (v: Value)
  {
    if key in d then d[key] else default
  }

  const EmptyDict: Value := Dict(map[])

  type Document = map<string, Value>

  datatype Distance = Cosine

  datatype VectorParams = VectorParams(size: int, distance: Distance)

  /** `models.PointStruct` */
  datatype Point = Point(id: Value, vector: Value, payload: map<string, Value>)

  /** A hit as the client's search returns it; its payload may be absent. */
  datatype ScoredPoint = ScoredPoint(id: Value, score: real, payload: Option<map<string, Value>>)

  /** The `{text, metadata, score, id}` dict `search` returns per hit. */
  datatype SearchResult = SearchResult(text: Value, metadata: Value, score: real, id: Value)

  datatype CollectionStats = CollectionStats(name: string, present: bool, count: int)

  /** The dict `health_check` returns: healthy with the collection's stats, or unhealthy with the error text. */
  datatype Health = Healthy(stats: CollectionStats) | Unhealthy(error: string)
  {
    function Status(): (status: string)
    {
      if Healthy? then "healthy" else "unhealthy"
    }
  }

  datatype VectorDBError = VectorDBError(message: string)

  const DefaultCollectionName: string := "document_search"
  const DefaultVectorSize: int := 512
  const DefaultTopK: int := 5

  function InitFailed(cause: string): (e: VectorDBError) { VectorDBError("Qdrant initialization failed: " + cause) }
  function SearchFailed(cause: string): (e: VectorDBError) { VectorDBError("Search operation failed: " + cause) }
  function InsertFailed(cause: string): (e: VectorDBError) { VectorDBError("Insert operation failed: " + cause) }

  /** `str(KeyError(key))` for a key without quotes in it. */
  function KeyErrorText(key: string): (text: string) { "'" + key + "'" }

  /** `str(e)` for the error `payload.get` raises on a hit without payload. */
  const NoPayloadText: string := "'NoneType' object has no attribute 'get'"

  /** The client's answer to `search(collection_name, query_vector, limit)`. */
  type SearchCall = (string, seq<real>, int) -> Result<seq<ScoredPoint>, string>

  /** The client's answer to `upsert(collection_name, points)`: `Some(error)` when it raises. */
  type UpsertCall = (string, seq<Point>) -> Option<string>

  /** The client's answer to `count(collection_name).count`. */
  type CountCall = string -> Result<int, string>

  /** The part of a Qdrant client whose state the wrapper changes: its collections. */
  class Client {
    var collections: map<string, VectorParams>

    /** `QdrantClient(":memory:")`: a fresh in-memory instance holds no collections. */
    constructor InMemory()
      ensures collections == map[]
    {
      collections := map[];
    }

    /** `get_collections()`, reduced to the names; `fault` is the error it raises, if any. */
    method GetCollections(fault: Option<string>) returns (r: Result<set<string>, string>)
      ensures fault.Some? ==> r == Failure(fault.value)
      ensures fault.None? ==> r == Success(collections.Keys)
    {
      if fault.Some? {
        r := Failure(fault.value);
      } else {
        r := Success(collections.Keys);
      }
    }

    /** `create_collection(name, vectors_config)`; `fault` is the error it raises, if any. */
    method CreateCollection(name: string, params: VectorParams, fault: Option<string>) returns (r: Outcome<string>)
      modifies this
      ensures fault.Some? ==> r == Fail(fault.value) && collections == old(collections)
      ensures fault.None? ==> r == Pass && collections == old(collections)[name := params]
    {
      if fault.Some? {
        r := Fail(fault.value);
      } else {
        r := Pass;
        collections := collections[name := params];
      }
    }
  }

  // ---------------------------------------------------------------------
  // Point construction for `insert`

  /** The key whose lookup raises `KeyError` first when the point for `doc` is built. */
  function MissingKey(doc: Document): (key: Option<string>)
    ensures key.None? <==> "vector" in doc && "text" in doc
  {
    if "vector" !in doc then Some("vector")
    else if "text" !in doc then Some("text")
    else None
  }

  /** `doc.get("id") or idx` */
  function PointId(doc: Document, idx: nat): (id: Value)
    ensures "id" in doc && Truthy(doc["id"]) ==> id == doc["id"]
    ensures !("id" in doc && Truthy(doc["id"])) ==> id == Int(idx)
  {
    Or(Get(doc, "id", Null), Int(idx))
  }

  /** The `PointStruct` built for the document at position `idx` of the batch. */
  function ToPoint(doc: Document, idx: nat): (p: Point)
    requires MissingKey(doc).None?
    ensures "id" in doc && Truthy(doc["id"]) ==> p.id == doc["id"]
    ensures !("id" in doc && Truthy(doc["id"])) ==> p.id == Int(idx)
    ensures p.vector == doc["vector"]
    ensures p.payload.Keys == {"text", "metadata"} && p.payload["text"] == doc["text"]
    ensures "metadata" in doc ==> p.payload["metadata"] == doc["metadata"]
    ensures "metadata" !in doc ==> p.payload["metadata"] == EmptyDict
  {
    Point(PointId(doc, idx), doc["vector"],
          map["text" := doc["text"], "metadata" := Get(doc, "metadata", EmptyDict)])
  }

  /** No document before position `j` misses a key, and the one at `j` does. */
  predicate FirstIncomplete(docs: seq<Document>, j: nat)
  {
    j < |docs| && MissingKey(docs[j]).Some?
    && forall i :: 0 <= i < j ==> MissingKey(docs[i]).None?
  }

  /**
   * The list comprehension of `insert`, for a batch whose first document sits
   * at position `offset`: one point per document, in order, or the text of
   * the first `KeyError`.
   */
  function BuildPoints(docs: seq<Document>, offset: nat): (r: Result<seq<Point>, string>)
    ensures r.Success? <==> forall i :: 0 <= i < |docs| ==> MissingKey(docs[i]).None?
    ensures r.Success? ==> |r.value| == |docs|
    ensures r.Success? ==> forall i :: 0 <= i < |docs| ==> r.value[i] == ToPoint(docs[i], offset + i)
    ensures r.Failure? ==> exists j: nat :: FirstIncomplete(docs, j) && r.error == KeyErrorText(MissingKey(docs[j]).value)
    decreases |docs|
  {
    if docs == [] then Success([])
    else match MissingKey(docs[0])
      case Some(key) =>
        assert FirstIncomplete(docs, 0);
        Failure(KeyErrorText(key))
      case None =>
        match BuildPoints(docs[1..], offset + 1)
        case Failure(e) =>
          assert exists j: nat :: FirstIncomplete(docs[1..], j) && e == KeyErrorText(MissingKey(docs[1..][j]).value);
          var j: nat :| FirstIncomplete(docs[1..], j) && e == KeyErrorText(MissingKey(docs[1..][j]).value);
          assert FirstIncomplete(docs, j + 1);
          Failure(e)
        case Success(rest) => Success([ToPoint(docs[0], offset)] + rest)
  }

  /** Without any truthy document id, the points are numbered by position, so their ids are distinct. */
  lemma PositionalIdsDistinct(docs: seq<Document>)
    requires forall i :: 0 <= i < |docs| ==> MissingKey(docs[i]).None?
    requires forall i :: 0 <= i < |docs| ==> !("id" in docs[i] && Truthy(docs[i]["id"]))
    ensures var points := BuildPoints(docs, 0).value;
            forall i, j :: 0 <= i < j < |points| ==> points[i].id != points[j].id
  {
  }

  /** An explicit id can coincide with the position another document falls back to. */
  lemma ExplicitIdCanCollideWithPosition(vector: Value, text: Value)
    ensures var docs := [map["id" := Int(1), "vector" := vector, "text" := text],
                         map["vector" := vector, "text" := text]];
            var points := BuildPoints(docs, 0);
            points.Success? && points.value[0].id == points.value[1].id == Int(1)
  {
    var docs := [map["id" := Int(1), "vector" := vector, "text" := text],
                 map["vector" := vector, "text" := text]];
    assert MissingKey(docs[0]).None? && MissingKey(docs[1]).None?;
  }

  /**
   * A falsy document id (`0`, `0.0`, `False`, `""`, `None`, an empty list or
   * dict) is replaced by the position, exactly like a missing one.
   */
  lemma FalsyIdReplaced(doc: Document, idx: nat)
    requires MissingKey(doc).None?
    requires "id" in doc && !Truthy(doc["id"])
    ensures ToPoint(doc, idx).id == Int(idx) == ToPoint(doc - {"id"}, idx).id
  {
  }

  // ---------------------------------------------------------------------
  // Result shaping for `search`

  /** The `{text, metadata, score, id}` entry for one hit with a payload. */
  function ShapeHit(hit: ScoredPoint): (r: SearchResult)
    requires hit.payload.Some?
    ensures r.id == hit.id && r.score == hit.score
    ensures r.text == Get(hit.payload.value, "text", Null)
    ensures r.metadata != Null && (Truthy(r.metadata) || r.metadata == EmptyDict)
    ensures var p := hit.payload.value;
            ("metadata" in p && Truthy(p["metadata"]) ==> r.metadata == p["metadata"])
            && (!("metadata" in p && Truthy(p["metadata"])) ==> r.metadata == EmptyDict)
  {
    var p := hit.payload.value;
    SearchResult(Get(p, "text", Null), Or(Get(p, "metadata", Null), EmptyDict), hit.score, hit.id)
  }

  /** The list comprehension of `search`: one entry per hit, in the client's order. */
  function ShapeHits(hits: seq<ScoredPoint>): (r: Result<seq<SearchResult>, string>)
    ensures r.Success? <==> forall i :: 0 <= i < |hits| ==> hits[i].payload.Some?
    ensures r.Success? ==> |r.value| == |hits|
    ensures r.Success? ==> forall i :: 0 <= i < |hits| ==> r.value[i] == ShapeHit(hits[i])
    ensures r.Failure? ==> r.error == NoPayloadText
  {
    if hits == [] then Success([])
    else if hits[0].payload.None? then Failure(NoPayloadText)
    else match ShapeHits(hits[1..])
      case Failure(e) => Failure(e)
      case Success(rest) => Success([ShapeHit(hits[0])] + rest)
  }

  /** The store: the client, the collection's name and its vector size, fixed at construction. */
  class QdrantVectorDB {
    const client: Client
    const collectionName: string
    const vectorSize: int

    constructor (client: Client, collectionName: string, vectorSize: int)
      ensures this.client == client && this.collectionName == collectionName && this.vectorSize == vectorSize
    {
      this.client := client;
      this.collectionName := collectionName;
      this.vectorSize := vectorSize;
    }

    /**
     * `QdrantVectorDB.__init__` against a given client: the collection is
     * created, with cosine distance and the given size, only when the client
     * has none of that name; an existing one is kept as it is, whatever its
     * size. `listFault` and `createFault` are the errors the two client
     * calls raise, if any; either one surfaces as `VectorDBError`.
     */
    static method Open(client: Client, collectionName: string, vectorSize: int,
                       listFault: Option<string>, createFault: Option<string>)
      returns (r: Result<QdrantVectorDB, VectorDBError>)
      modifies client
      ensures r.Success? ==>
        (fresh(r.value) && r.value.client == client
         && r.value.collectionName == collectionName && r.value.vectorSize == vectorSize
         && collectionName in client.collections)
      ensures listFault.Some? ==>
        r == Failure(InitFailed(listFault.value)) && client.collections == old(client.collections)
      ensures listFault.None? && collectionName in old(client.collections) ==>
        r.Success? && client.collections == old(client.collections)
      ensures listFault.None? && collectionName !in old(client.collections) && createFault.Some? ==>
        r == Failure(InitFailed(createFault.value)) && client.collections == old(client.collections)
      ensures listFault.None? && collectionName !in old(client.collections) && createFault.None? ==>
        r.Success? && client.collections == old(client.collections)[collectionName := VectorParams(vectorSize, Cosine)]
    {
      var db := new QdrantVectorDB(client, collectionName, vectorSize);
      var listing := client.GetCollections(listFault);
      if listing.Failure? {
        return Failure(InitFailed(listing.error));
      }
      if collectionName !in listing.value {
        var created := client.CreateCollection(collectionName, VectorParams(vectorSize, Cosine), createFault);
        if created.Fail? {
          return Failure(InitFailed(created.error));
        }
      }
      r := Success(db);
    }

    /**
     * `QdrantVectorDB.__init__` as written: it builds its own in-memory
     * client, which holds no collections, so the collection is always
     * created when the calls succeed.
     */
    static method OpenInMemory(collectionName: string := DefaultCollectionName,
                               vectorSize: int := DefaultVectorSize,
                               listFault: Option<string> := None, createFault: Option<string> := None)
      returns (r: Result<QdrantVectorDB, VectorDBError>)
      ensures listFault.Some? ==> r == Failure(InitFailed(listFault.value))
      ensures listFault.None? && createFault.Some? ==> r == Failure(InitFailed(createFault.value))
      ensures listFault.None? && createFault.None? ==>
        (r.Success? && fresh(r.value) && fresh(r.value.client)
         && r.value.collectionName == collectionName && r.value.vectorSize == vectorSize
         && r.value.client.collections == map[collectionName := VectorParams(vectorSize, Cosine)])
    {
      var client := new Client.InMemory();
      r := Open(client, collectionName, vectorSize, listFault, createFault);
    }

    /**
     * `search`: the query and `topK` go to the client unchanged, and its hits
     * come back shaped one for one, in its order; any failure is re-raised as
     * `VectorDBError`.
     */
    function Search(search: SearchCall, queryEmbedding: seq<real>, topK: int := DefaultTopK)
      : (r: Result<seq<SearchResult>, VectorDBError>)
      ensures var answer := search(collectionName, queryEmbedding, topK);
              r.Success? <==> answer.Success? && forall i :: 0 <= i < |answer.value| ==> answer.value[i].payload.Some?
      ensures r.Failure? ==> exists cause :: r.error == SearchFailed(cause)
      ensures var answer := search(collectionName, queryEmbedding, topK);
              answer.Failure? ==> r == Failure(SearchFailed(answer.error))
      ensures var answer := search(collectionName, queryEmbedding, topK);
              answer.Success? && (exists i :: 0 <= i < |answer.value| && answer.value[i].payload.None?)
              ==> r == Failure(SearchFailed(NoPayloadText))
      ensures r.Success? ==>
              var hits := search(collectionName, queryEmbedding, topK).value;
              |r.value| == |hits| && forall i :: 0 <= i < |hits| ==> r.value[i] == ShapeHit(hits[i])
    {
      match search(collectionName, queryEmbedding, topK)
      case Failure(e) => Failure(SearchFailed(e))
      case Success(hits) =>
        match ShapeHits(hits)
        case Failure(e) => Failure(SearchFailed(e))
        case Success(results) => Success(results)
    }

    /**
     * `insert`: the batch becomes one point per document, in order, and is
     * upserted into this collection; a missing key or a failing upsert is
     * re-raised as `VectorDBError`.
     */
    function Insert(documents: seq<Document>, upsert: UpsertCall): (r: Outcome<VectorDBError>)
      ensures r.Pass? <==>
              BuildPoints(documents, 0).Success? && upsert(collectionName, BuildPoints(documents, 0).value).None?
      ensures BuildPoints(documents, 0).Failure? ==> r == Fail(InsertFailed(BuildPoints(documents, 0).error))
      ensures var points := BuildPoints(documents, 0);
              points.Success? && upsert(collectionName, points.value).Some?
              ==> r == Fail(InsertFailed(upsert(collectionName, points.value).value))
      ensures r.Fail? ==> exists cause :: r.error == InsertFailed(cause)
    {
      match BuildPoints(documents, 0)
      case Failure(e) => Fail(InsertFailed(e))
      case Success(points) =>
        match upsert(collectionName, points)
        case Some(e) => Fail(InsertFailed(e))
        case None => Pass
    }

    /**
     * `health_check`: never raises; healthy with this collection's name and
     * the client's count when counting succeeds, unhealthy with the error
     * text when it fails.
     */
    function HealthCheck(count: CountCall): (h: Health)
      ensures h.Status() == "healthy" <==> count(collectionName).Success?
      ensures h.Status() == "unhealthy" <==> count(collectionName).Failure?
      ensures h.Healthy? ==> h.stats.name == collectionName && h.stats.present
                             && h.stats.count == count(collectionName).value
      ensures h.Unhealthy? ==> h.error == count(collectionName).error
    {
      match count(collectionName)
      case Success(n) => Healthy(CollectionStats(collectionName, true, n))
      case Failure(e) => Unhealthy(e)
    }
  }
}
