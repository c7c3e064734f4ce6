/**
 * `services/chroma_service.go`: the client of the Chroma vector store.
 * Each HTTP exchange is an input: a transport error, or a status code and
 * the outcome of decoding the body. Embedding vectors are opaque values of
 * a type parameter.
 */
module ChromaService {
  import opened Base
  import Strconv
  import GoStrings

  /** One HTTP exchange. */
  datatype Http<T> = Unreachable(error: string) | Response(status: int, body: Result<T>)

  datatype Collection = Collection(ID: string, Name: string)

  /** `collectionExists`: 200 means present, 404 and 500 absent, anything else is an error. */
  function CollectionExists<T>(reply: Http<T>): (r: Result<bool>)
    ensures reply.Unreachable? ==> r == Err(reply.error)
    ensures reply.Response? && reply.status == 200 ==> r == Ok(true)
    ensures reply.Response? && (reply.status == 404 || reply.status == 500) ==> r == Ok(false)
    ensures reply.Response? ==> (r.Err? <==> reply.status !in {200, 404, 500})
  {
    match reply
    case Unreachable(e) => Err(e)
    case Response(status, _) =>
      if status == 200 then Ok(true)
      else if status == 404 then Ok(false)
      else if status == 500 then Ok(false)
      else Err("检查Chroma集合存在性时收到意外的状态码: " + Strconv.Itoa(status))
  }

  /** The statuses `createCollection` and `addDocument` accept. */
  predicate CreatedOk(status: int) {
    status == 200 || status == 201
  }

  /** `createCollection`: the error, if any, of the POST that creates the collection. */
  function CreateCollection<T>(reply: Http<T>): (err: Option<string>)
    ensures err.None? <==> reply.Response? && CreatedOk(reply.status)
  {
    match reply
    case Unreachable(e) => Some(e)
    case Response(status, _) =>
      if !CreatedOk(status) then Some("创建集合失败，状态码: " + Strconv.Itoa(status)) else None
  }

  /** The ID of the first collection called `name`, if any. */
  function FindID(collections: seq<Collection>, name: string): Option<string> {
    if collections == [] then None
    else if collections[0].Name == name then Some(collections[0].ID)
    else FindID(collections[1..], name)
  }

  /** `FindID` answers with the first match and fails only when nothing matches. */
  lemma {:induction false} FindIDFirst(collections: seq<Collection>, name: string)
    ensures FindID(collections, name).None? <==> forall i :: 0 <= i < |collections| ==> collections[i].Name != name
    ensures FindID(collections, name).Some? ==>
      exists i :: 0 <= i < |collections| && collections[i].Name == name
        && FindID(collections, name).value == collections[i].ID
        && forall j :: 0 <= j < i ==> collections[j].Name != name
  {
    if collections != [] && collections[0].Name != name {
      FindIDFirst(collections[1..], name);
      if FindID(collections, name).Some? {
        var i :| 0 <= i < |collections[1..]| && collections[1..][i].Name == name
          && FindID(collections[1..], name).value == collections[1..][i].ID
          && forall j :: 0 <= j < i ==> collections[1..][j].Name != name;
        assert collections[i + 1].Name == name;
        assert forall j :: 0 <= j < i + 1 ==> collections[j].Name != name by {
          forall j | 0 <= j < i + 1 ensures collections[j].Name != name {
            if j > 0 {
              assert collections[j] == collections[1..][j - 1];
            }
          }
        }
      } else {
        assert forall i :: 0 <= i < |collections| ==> collections[i].Name != name by {
          forall i | 0 <= i < |collections| ensures collections[i].Name != name {
            if i > 0 {
              assert collections[i] == collections[1..][i - 1];
            }
          }
        }
      }
    }
  }

  /** `min`. */
  function Min(a: int, b: int): (r: int)
    ensures r <= a && r <= b
    ensures r == a || r == b
  {
    if a < b then a else b
  }

  /** The document ID of a memory: `<userID>_<messageType>_<unix seconds>`. */
  function DocID(userID: Uuid, messageType: string, unix: int): string {
    userID + "_" + messageType + "_" + Strconv.Itoa(unix)
  }

  /** Two memories of one user and type get the same ID exactly when they are stored in the same second. */
  lemma DocIDSameSecond(userID: Uuid, messageType: string, t1: int, t2: int)
    requires Strconv.MinInt64 <= t1 <= Strconv.MaxInt64 && Strconv.MinInt64 <= t2 <= Strconv.MaxInt64
    ensures DocID(userID, messageType, t1) == DocID(userID, messageType, t2) <==> t1 == t2
  {
    var prefix := userID + "_" + messageType + "_";
    if DocID(userID, messageType, t1) == DocID(userID, messageType, t2) {
      assert DocID(userID, messageType, t1)[|prefix|..] == Strconv.Itoa(t1);
      assert DocID(userID, messageType, t2)[|prefix|..] == Strconv.Itoa(t2);
      Strconv.ItoaAtoiRoundTrip(t1);
      Strconv.ItoaAtoiRoundTrip(t2);
    }
  }

  /** `SearchMemory`'s limit clamp: outside `1..20` becomes 5. */
  function SearchLimit(limit: int): (n: nat)
    ensures 1 <= n <= 20
    ensures 1 <= limit <= 20 ==> n == limit
    ensures !(1 <= limit <= 20) ==> n == 5
  {
    if limit <= 0 || limit > 20 then 5 else limit
  }

  /** `CreateEmbedding`: the first vector of the reply, which must exist and be non-empty. */
  function CreateEmbedding<E>(reply: Http<seq<seq<E>>>): (r: Result<seq<E>>)
    ensures reply.Response? && reply.status == 200 && reply.body.Ok? && reply.body.value != [] && reply.body.value[0] != [] ==>
      r == Ok(reply.body.value[0])
    ensures r.Ok? <==> (reply.Response? && reply.status == 200 && reply.body.Ok?
      && reply.body.value != [] && reply.body.value[0] != [])
    ensures reply.Response? && reply.status == 200 && reply.body.Ok? && (reply.body.value == [] || reply.body.value[0] == []) ==>
      r == Err("从 embedding 服务收到的向量为空")
  {
    match reply
    case Unreachable(e) => Err("请求 embedding 服务失败: " + e)
    case Response(status, body) =>
      if status != 200 then Err("embedding 服务返回错误状态码: " + Strconv.Itoa(status))
      else match body
        case Err(e) => Err("解析 embedding 响应失败: " + e)
        case Ok(embeddings) =>
          if |embeddings| == 0 || |embeddings[0]| == 0 then Err("从 embedding 服务收到的向量为空")
          else Ok(embeddings[0])
  }

  /** The documents of the first query row, or none when there is no row. */
  function FirstRow(documents: seq<seq<string>>): (r: seq<string>)
    ensures documents == [] ==> r == []
    ensures documents != [] ==> r == documents[0]
  {
    if |documents| > 0 then documents[0] else []
  }

  /**
   * `SearchMemory`. `embedding` is the embedding exchange for the query
   * text; `query(vector, n)` is the query exchange for that vector asking
   * for `n` results of this user, answering with one document list per row.
   */
  function SearchMemory<E>(limit: int, embedding: Http<seq<seq<E>>>,
                           query: (seq<E>, nat) -> Http<seq<seq<string>>>): (r: Result<seq<string>>)
    ensures CreateEmbedding(embedding).Err? ==> r == Err("创建查询向量失败: " + CreateEmbedding(embedding).error)
    ensures r.Ok? ==> (CreateEmbedding(embedding).Ok?
      && var reply := query(CreateEmbedding(embedding).value, SearchLimit(limit));
         reply.Response? && reply.status == 200 && reply.body.Ok? && r.value == FirstRow(reply.body.value))
    ensures CreateEmbedding(embedding).Ok? ==>
      var reply := query(CreateEmbedding(embedding).value, SearchLimit(limit));
      (r.Ok? <==> reply.Response? && reply.status == 200 && reply.body.Ok?)
  {
    match CreateEmbedding(embedding)
    case Err(e) => Err("创建查询向量失败: " + e)
    case Ok(vector) =>
      match query(vector, SearchLimit(limit))
      case Unreachable(e) => Err("发送查询请求失败: " + e)
      case Response(status, body) =>
        if status != 200 then Err("查询失败，状态码: " + Strconv.Itoa(status))
        else match body
          case Err(e) => Err("解析查询结果失败: " + e)
          case Ok(result) => Ok(FirstRow(result))
  }

  /** `addDocument` behind `AddMemory`: the store accepts on 200 or 201. */
  function AddMemory<T>(reply: Http<T>): (err: Option<string>)
    ensures err.None? <==> reply.Response? && CreatedOk(reply.status)
  {
    match reply
    case Unreachable(e) => Some("发送请求失败: " + e)
    case Response(status, _) =>
      if !CreatedOk(status) then Some("添加文档失败，状态码: " + Strconv.Itoa(status)) else None
  }

  /** `HealthCheck`: the heartbeat endpoint must answer 200. */
  function HealthCheck<T>(reply: Http<T>): (err: Option<string>)
    ensures err.None? <==> reply.Response? && reply.status == 200
  {
    match reply
    case Unreachable(e) => Some("Chroma连接失败: " + e)
    case Response(status, _) =>
      if status != 200 then Some("Chroma服务不可用，状态码: " + Strconv.Itoa(status)) else None
  }

  /** The service, with the collection ID it learns at start-up. */
  class Chroma {
    const baseURL: string
    const collection: string
    var collectionId: string

    constructor (baseURL: string, collection: string)
      ensures this.baseURL == baseURL && this.collection == collection && collectionId == ""
    {
      this.baseURL := baseURL;
      this.collection := collection;
      collectionId := "";
    }

    /**
     * `getCollectionIDByName`: scans the listed collections in order and
     * records the first whose name is the configured one.
     */
    method GetCollectionIDByName(listing: Http<seq<Collection>>) returns (r: Result<string>)
      modifies this
      ensures listing.Response? && listing.status == 200 && listing.body.Ok? ==>
        match FindID(listing.body.value, collection)
        case Some(id) => r == Ok(id) && collectionId == id
        case None => r == Err("未找到名为 '" + collection + "' 的集合") && collectionId == old(collectionId)
      ensures r.Err? ==> collectionId == old(collectionId)
      ensures r.Ok? ==> listing.Response? && listing.status == 200 && listing.body.Ok?
    {
      if listing.Unreachable? {
        return Err("发送 HTTP GET 请求失败: " + listing.error);
      }
      if listing.status != 200 {
        return Err("获取集合列表失败，服务器返回状态码: " + Strconv.Itoa(listing.status));
      }
      if listing.body.Err? {
        return Err("解析 JSON 响应失败: " + listing.body.error);
      }
      var collections := listing.body.value;
      var i := 0;
      while i < |collections|
        invariant 0 <= i <= |collections|
        invariant FindID(collections, collection) == FindID(collections[i..], collection)
        invariant collectionId == old(collectionId)
      {
        assert collections[i..][1..] == collections[i + 1..];
        if collections[i].Name == collection {
          collectionId := collections[i].ID;
          return Ok(collections[i].ID);
        }
        i := i + 1;
      }
      return Err("未找到名为 '" + collection + "' 的集合");
    }

    /**
     * `InitCollection`: creates the collection when it is missing, then
     * looks its ID up. When the lookup fails the returned error wraps the
     * existence check's error, which is nil at that point, so it carries
     * no cause.
     */
    method InitCollection<T>(existence: Http<T>, create: Http<T>, listing: Http<seq<Collection>>)
      returns (err: Option<string>)
      modifies this
      ensures CollectionExists(existence).Err? ==>
        err == Some("检查集合存在性失败: " + CollectionExists(existence).error) && collectionId == old(collectionId)
      ensures CollectionExists(existence) == Ok(false) && CreateCollection(create).Some? ==>
        err == Some("创建集合失败: " + CreateCollection(create).value) && collectionId == old(collectionId)
      ensures err.None? <==> (CollectionExists(existence).Ok?
        && (CollectionExists(existence) == Ok(false) ==> CreateCollection(create).None?)
        && listing.Response? && listing.status == 200 && listing.body.Ok?
        && FindID(listing.body.value, collection).Some?)
      ensures err.None? ==> collectionId == FindID(listing.body.value, collection).value
      ensures err.Some? ==> collectionId == old(collectionId)
    {
      var present := CollectionExists(existence);
      if present.Err? {
        return Some("检查集合存在性失败: " + present.error);
      }
      if !present.value {
        var createErr := CreateCollection(create);
        if createErr.Some? {
          return Some("创建集合失败: " + createErr.value);
        }
      }
      var coID := GetCollectionIDByName(listing);
      if coID.Err? {
        return Some("获取集合ID失败：%!w(<nil>)");
      }
      collectionId := coID.value;
      return None;
    }
  }
}
