/** The client of the document database. Every request carries the stored token;
    the server is a script of replies consumed one per request, and the requests
    are recorded in the order they were sent. Reply bodies are JSON objects. */
module Database {
  import opened Wrappers
  import opened JsonData
  import opened Text

  /** `str(v)` and f-string rendering of the JSON scalars; lists and objects are
      not rendered in this model. */
  function Str(v: Json): string {
    match v
    case JNull => "None"
    case JBool(b) => if b then "True" else "False"
    case JInt(i) => IntText(i)
    case JStr(s) => s
    case _ => ""
  }

  /** The exceptions the client raises. */
  datatype DbError =
    | ConnectFailed                     // the login endpoint did not answer 200
    | NotAccessible                     // the database probe did not answer 200
    | NotAuthenticated                  // no token stored, or an empty one
    | Unreachable                       // the transport raised: no reply came
    | NoProxy                           // the record has no proxy tag
    | UnknownProxy(tag: Json)           // the tag names no registered proxy type
    | NoDocument(id: string)            // the document read did not answer 200
    | BadQuery                          // the query did not answer 201
    | CollectionNotCreated(name: string)
    | DocumentNotCreated(name: string)

  datatype HttpRequest = HttpRequest(verb: string, url: string, body: Option<Doc>, authorization: string)
  datatype HttpResponse = HttpResponse(status: int, body: Doc)

  /** `if not self.jwt`: None and "" both count as absent. */
  predicate HasJwt(jwt: Json) {
    Truthy(jwt)
  }

  function Bearer(jwt: Json): string {
    "Bearer " + Str(jwt)
  }

  /** Every recorded request went out with a bearer header. */
  predicate Authorized(sent: seq<HttpRequest>) {
    forall k :: 0 <= k < |sent| ==> "Bearer " <= sent[k].authorization
  }

  /** `{"username": ..., "password": ...}`, the body `connect` posts. */
  function Credentials(username: string, password: string): Doc {
    map["username" := JStr(username), "password" := JStr(password)]
  }

  /** `n` copies of the request `q`. */
  function Repeat(n: nat, q: HttpRequest): (r: seq<HttpRequest>)
    ensures |r| == n && forall k :: 0 <= k < n ==> r[k] == q
  {
    if n == 0 then [] else Repeat(n - 1, q) + [q]
  }

  /** A handle built by a registered proxy type: its tag and the record's `_id`. */
  datatype Proxy = Proxy(tag: string, id: Json)

  /** `DocumentProxy.__init__`: the handle keeps the record's `_id` and nothing else. */
  function NewProxy(data: Doc, tag: string): (p: Proxy)
    ensures p.tag == tag
    ensures "_id" in data ==> p.id == data["_id"]
    ensures "_id" !in data ==> p.id == JNull
  {
    Proxy(tag, Get(data, "_id", JNull))
  }

  /** `getProxy(data)`: the tag must be present, non-empty and registered; there is
      no default type. */
  function GetProxy(data: Doc, registry: set<string>): (r: Result<Proxy, DbError>)
    ensures r.Success? <==> ("proxy" in data && data["proxy"].JStr? && data["proxy"].s != "" && data["proxy"].s in registry)
    ensures r.Success? ==> r.value == NewProxy(data, data["proxy"].s)
    ensures !Truthy(Get(data, "proxy", JNull)) ==> r == Failure(NoProxy)
    ensures Truthy(Get(data, "proxy", JNull)) && r.Failure? ==> r == Failure(UnknownProxy(data["proxy"]))
  {
    var tag := Get(data, "proxy", JNull);
    if !Truthy(tag) then Failure(NoProxy)
    else if tag.JStr? && tag.s in registry then Success(NewProxy(data, tag.s))
    else Failure(UnknownProxy(tag))
  }

  /** What `getDocument` and `create_document` give back: the raw record or a handle. */
  datatype Fetched = Raw(doc: Doc) | Handle(proxy: Proxy)

  /** The cursor run the server's replies lead to: the items yielded, the exception
      that ended it if any, the number of batch requests sent and the replies left. */
  datatype CursorRun = CursorRun(items: seq<Json>, error: Option<DbError>, fetches: nat, rest: seq<HttpResponse>)

  /** `results` over the batch `data`: yield its items, then fetch the next batch
      while the batch names one and the fetch answers 200. */
  function Batches(data: Doc, authorized: bool, replies: seq<HttpResponse>): (r: CursorRun)
    ensures |r.rest| <= |replies|
    ensures r.error.None? ==> |r.rest| + r.fetches == |replies|
    decreases |replies|
  {
    var items := Items(Get(data, "result", JArr([])));
    if "nextBatchId" !in data || !Truthy(data["nextBatchId"]) then CursorRun(items, None, 0, replies)
    else if !authorized then CursorRun(items, Some(NotAuthenticated), 0, replies)
    else if replies == [] then CursorRun(items, Some(Unreachable), 1, [])
    else if replies[0].status != 200 then CursorRun(items, None, 1, replies[1..])
    else
      var next := Batches(replies[0].body, authorized, replies[1..]);
      CursorRun(items + next.items, next.error, next.fetches + 1, next.rest)
  }

  /** The result list of each batch, first to last. */
  function Concat(batches: seq<Doc>): seq<Json> {
    if batches == [] then [] else Items(Get(batches[0], "result", JArr([]))) + Concat(batches[1..])
  }

  /** A chain of batches: every batch but the last names a next one, the last
      names none. */
  predicate Chain(batches: seq<Doc>) {
    |batches| > 0
    && (forall k :: 0 <= k < |batches| - 1 ==> "nextBatchId" in batches[k] && Truthy(batches[k]["nextBatchId"]))
    && ("nextBatchId" !in batches[|batches| - 1] || !Truthy(batches[|batches| - 1]["nextBatchId"]))
  }

  /** When the server answers every fetch with 200 and the next batch of a chain,
      the cursor yields the concatenation of all the batches' results, with one
      request per batch after the first. */
  lemma {:induction false} ChainYieldsAll(batches: seq<Doc>, more: seq<HttpResponse>)
    requires Chain(batches)
    ensures Batches(batches[0], true, seq(|batches| - 1, k requires 0 <= k < |batches| - 1 => HttpResponse(200, batches[k + 1])) + more)
      == CursorRun(Concat(batches), None, |batches| - 1, more)
    decreases |batches|
  {
    var replies := seq(|batches| - 1, k requires 0 <= k < |batches| - 1 => HttpResponse(200, batches[k + 1])) + more;
    if |batches| == 1 {
      assert replies == more;
      assert Concat(batches) == Items(Get(batches[0], "result", JArr([]))) + Concat([]);
    } else {
      var tail := batches[1..];
      assert Chain(tail);
      var tailReplies := seq(|tail| - 1, k requires 0 <= k < |tail| - 1 => HttpResponse(200, tail[k + 1])) + more;
      assert replies[0] == HttpResponse(200, batches[1]);
      assert replies[1..] == tailReplies;
      ChainYieldsAll(tail, more);
    }
  }

  class DatabaseManager {
    var jwt: Json
    /** The requests the database client sent, oldest first. */
    var sent: seq<HttpRequest>
    /** The credentials posted to `/_open/auth` through the server client, which
        sends no token, oldest first. */
    var logins: seq<Doc>
    /** The server's replies still to come. */
    var replies: seq<HttpResponse>

    constructor (replies: seq<HttpResponse>)
      ensures jwt == JNull && sent == [] && logins == [] && this.replies == replies
    {
      jwt := JNull;
      sent := [];
      logins := [];
      this.replies := replies;
    }

    /** `connect`: post the credentials to the server client (without a token),
        keep the token it returns, then probe the database with it. */
    method Connect(username: string, password: string) returns (r: Result<(), DbError>)
      modifies this
      ensures old(replies) == [] ==> r == Failure(Unreachable) && jwt == old(jwt)
      ensures old(replies) != [] && old(replies)[0].status != 200 ==> r == Failure(ConnectFailed) && jwt == old(jwt)
      ensures old(replies) != [] && old(replies)[0].status == 200 ==> jwt == Get(old(replies)[0].body, "jwt", JNull)
      ensures r.Success? <==> (|old(replies)| >= 2 && old(replies)[0].status == 200 && HasJwt(jwt)
                               && old(replies)[1].status == 200)
      ensures old(replies) != [] && old(replies)[0].status == 200 && HasJwt(jwt) && |old(replies)| < 2
        ==> r == Failure(Unreachable)
      ensures old(replies) != [] && old(replies)[0].status == 200 && !HasJwt(jwt) ==> r == Failure(NotAuthenticated)
      ensures |old(replies)| >= 2 && old(replies)[0].status == 200 && HasJwt(jwt) && old(replies)[1].status != 200
        ==> r == Failure(NotAccessible)
      ensures logins == old(logins) + [Credentials(username, password)]
      ensures old(replies) != [] && old(replies)[0].status == 200 && HasJwt(jwt) ==>
        sent == old(sent) + [HttpRequest("get", "/_api/database/current", None, Bearer(jwt))]
      ensures !(old(replies) != [] && old(replies)[0].status == 200 && HasJwt(jwt)) ==> sent == old(sent)
      ensures old(Authorized(sent)) ==> Authorized(sent)
    {
      logins := logins + [Credentials(username, password)];
      if replies == [] {
        return Failure(Unreachable);
      }
      var reply := replies[0];
      replies := replies[1..];
      if reply.status != 200 {
        return Failure(ConnectFailed);
      }
      jwt := Get(reply.body, "jwt", JNull);
      var probe := Request("get", "/_api/database/current", None);
      if probe.Failure? {
        return Failure(probe.error);
      }
      if probe.value.status != 200 {
        return Failure(NotAccessible);
      }
      r := Success(());
    }

    /** `request`: refuse without a token, else send with the bearer header and
        take the next reply. */
    method Request(verb: string, url: string, body: Option<Doc>) returns (r: Result<HttpResponse, DbError>)
      modifies this
      ensures jwt == old(jwt)
      ensures !HasJwt(jwt) ==> r == Failure(NotAuthenticated) && sent == old(sent) && replies == old(replies)
      ensures HasJwt(jwt) ==> sent == old(sent) + [HttpRequest(verb, url, body, Bearer(jwt))]
      ensures HasJwt(jwt) && old(replies) == [] ==> r == Failure(Unreachable) && replies == []
      ensures HasJwt(jwt) && old(replies) != [] ==> r == Success(old(replies)[0]) && replies == old(replies)[1..]
      ensures old(Authorized(sent)) ==> Authorized(sent)
      ensures logins == old(logins)
    {
      if !HasJwt(jwt) {
        return Failure(NotAuthenticated);
      }
      sent := sent + [HttpRequest(verb, url, body, Bearer(jwt))];
      if replies == [] {
        return Failure(Unreachable);
      }
      r := Success(replies[0]);
      replies := replies[1..];
    }

    /** `getDocument(id, proxy)`. */
    method GetDocument(id: string, proxy: bool, registry: set<string>) returns (r: Result<Fetched, DbError>)
      modifies this
      ensures jwt == old(jwt) && (old(Authorized(sent)) ==> Authorized(sent))
      ensures logins == old(logins)
      ensures HasJwt(jwt) ==> sent == old(sent) + [HttpRequest("get", "/_api/document/" + id, None, Bearer(jwt))]
      ensures HasJwt(jwt) && old(replies) != [] && old(replies)[0].status != 200 ==> r == Failure(NoDocument(id))
      ensures HasJwt(jwt) && old(replies) != [] && old(replies)[0].status == 200 ==> (
        if proxy then (if GetProxy(old(replies)[0].body, registry).Success?
                       then r == Success(Handle(GetProxy(old(replies)[0].body, registry).value))
                       else r == Failure(GetProxy(old(replies)[0].body, registry).error))
        else r == Success(Raw(old(replies)[0].body)))
      ensures !HasJwt(jwt) ==> r == Failure(NotAuthenticated)
    {
      var reply := Request("get", "/_api/document/" + id, None);
      if reply.Failure? {
        return Failure(reply.error);
      }
      if reply.value.status != 200 {
        return Failure(NoDocument(id));
      }
      if !proxy {
        return Success(Raw(reply.value.body));
      }
      var handle := GetProxy(reply.value.body, registry);
      if handle.Failure? {
        return Failure(handle.error);
      }
      r := Success(Handle(handle.value));
    }

    /** `query(query, **bindings)`: the whole result list, with the cursor closed
        once every result has been read. */
    method Query(query: string, bindVars: map<string, Json>) returns (r: Result<seq<Json>, DbError>)
      modifies this
      ensures jwt == old(jwt) && (old(Authorized(sent)) ==> Authorized(sent))
      ensures logins == old(logins)
      ensures !HasJwt(jwt) ==> r == Failure(NotAuthenticated) && sent == old(sent)
      ensures HasJwt(jwt) ==> |sent| > |old(sent)| && sent[|old(sent)|] == HttpRequest("post", "/_api/cursor", Some(QueryBody(query, bindVars)), Bearer(jwt))
      ensures HasJwt(jwt) && old(replies) != [] && old(replies)[0].status != 201 ==> r == Failure(BadQuery)
      ensures HasJwt(jwt) && old(replies) != [] && old(replies)[0].status == 201 ==> (
        var run := Batches(old(replies)[0].body, true, old(replies)[1..]);
        (run.error.Some? ==> r == Failure(run.error.value))
        && (run.error.None? ==> (
              r == (if run.rest == [] then Failure(Unreachable) else Success(run.items))
              && sent == old(sent) + [HttpRequest("post", "/_api/cursor", Some(QueryBody(query, bindVars)), Bearer(jwt))]
                 + Repeat(run.fetches, CursorPost(Get(old(replies)[0].body, "id", JNull), jwt))
                 + [HttpRequest("delete", "/_api/cursor/" + Str(Get(old(replies)[0].body, "id", JNull)), None, Bearer(jwt))])))
    {
      var reply := Request("post", "/_api/cursor", Some(QueryBody(query, bindVars)));
      if reply.Failure? {
        return Failure(reply.error);
      }
      if reply.value.status != 201 {
        return Failure(BadQuery);
      }
      var cursor := new Cursor(reply.value.body, this);
      var items, err := cursor.Results();
      if err.Some? {
        return Failure(err.value);
      }
      var closed := cursor.Close();
      if closed.Failure? {
        return Failure(closed.error);
      }
      r := Success(items);
    }
  }

  /** A query's request body: `bindVars` only when bindings are given. */
  function QueryBody(query: string, bindVars: map<string, Json>): (d: Doc)
    ensures "query" in d && d["query"] == JStr(query)
    ensures "bindVars" in d <==> |bindVars| > 0
    ensures "bindVars" in d ==> d["bindVars"] == JObj(bindVars)
    ensures d.Keys <= {"query", "bindVars"}
  {
    if |bindVars| > 0 then map["query" := JStr(query), "bindVars" := JObj(bindVars)]
    else map["query" := JStr(query)]
  }

  /** The request that fetches the next batch of cursor `id`. */
  function CursorPost(id: Json, jwt: Json): HttpRequest {
    HttpRequest("post", "/_api/cursor/" + Str(id), None, Bearer(jwt))
  }

  /** One step of `Batches`, case by case, phrased as `fetch_next_batch` sees the batch. */
  lemma BatchesStep(d: Doc, auth: bool, replies: seq<HttpResponse>)
    ensures var items := Items(Get(d, "result", JArr([])));
      var run := Batches(d, auth, replies);
      && (!Truthy(Get(d, "nextBatchId", JNull)) ==> run == CursorRun(items, None, 0, replies))
      && (Truthy(Get(d, "nextBatchId", JNull)) && !auth ==> run == CursorRun(items, Some(NotAuthenticated), 0, replies))
      && (Truthy(Get(d, "nextBatchId", JNull)) && auth && replies == [] ==> run == CursorRun(items, Some(Unreachable), 1, []))
      && (Truthy(Get(d, "nextBatchId", JNull)) && auth && replies != [] && replies[0].status != 200 ==>
            run == CursorRun(items, None, 1, replies[1..]))
      && (Truthy(Get(d, "nextBatchId", JNull)) && auth && replies != [] && replies[0].status == 200 ==>
            var next := Batches(replies[0].body, auth, replies[1..]);
            run == CursorRun(items + next.items, next.error, next.fetches + 1, next.rest))
  {
  }

  lemma SentAssoc(a: seq<HttpRequest>, b: seq<HttpRequest>, c: seq<HttpRequest>)
    ensures (a + b) + c == a + (b + c)
  {
  }

  lemma JsonAssoc(a: seq<Json>, b: seq<Json>, c: seq<Json>)
    ensures (a + b) + c == a + (b + c)
  {
  }

  /** A server-side cursor over a query's result. */
  class Cursor {
    const id: Json
    /** The current batch; None once a fetch has failed. */
    var data: Option<Doc>
    const db: DatabaseManager

    constructor (data: Doc, db: DatabaseManager)
      ensures id == Get(data, "id", JNull) && this.data == Some(data) && this.db == db
    {
      id := Get(data, "id", JNull);
      this.data := Some(data);
      this.db := db;
    }

    /** `count`: the size of the current batch's result list; reading it after a
        failed fetch raises (None). */
    function Count(): (n: Option<nat>)
      reads this
      ensures n.None? <==> data.None?
      ensures data.Some? && "result" !in data.value ==> n == Some(0)
      ensures data.Some? && "result" in data.value && data.value["result"].JArr? ==> n == Some(|data.value["result"].items|)
    {
      if data.None? then None else Some(|Items(Get(data.value, "result", JArr([])))|)
    }

    /** `fetch_next_batch`: a falsy `nextBatchId` sends nothing and answers falsy;
        otherwise the next batch replaces the current one on 200, and on any other
        status the cursor loses its data. */
    method FetchNextBatch() returns (r: Result<bool, DbError>)
      requires data.Some?
      modifies this, db
      ensures db.jwt == old(db.jwt) && (old(Authorized(db.sent)) ==> Authorized(db.sent))
      ensures db.logins == old(db.logins)
      ensures !Truthy(Get(old(data.value), "nextBatchId", JNull)) ==> (
        r == Success(false) && data == old(data) && db.sent == old(db.sent) && db.replies == old(db.replies))
      ensures Truthy(Get(old(data.value), "nextBatchId", JNull)) ==> (
        (!HasJwt(db.jwt) ==> r == Failure(NotAuthenticated) && data == old(data) && db.sent == old(db.sent) && db.replies == old(db.replies))
        && (HasJwt(db.jwt) ==> db.sent == old(db.sent) + [CursorPost(id, db.jwt)])
        && (HasJwt(db.jwt) && old(db.replies) == [] ==> r == Failure(Unreachable) && data == old(data) && db.replies == [])
        && (HasJwt(db.jwt) && old(db.replies) != [] ==> (
              db.replies == old(db.replies)[1..]
              && (old(db.replies)[0].status == 200 ==> r == Success(true) && data == Some(old(db.replies)[0].body))
              && (old(db.replies)[0].status != 200 ==> r == Success(false) && data == None))))
    {
      if !Truthy(Get(data.value, "nextBatchId", JNull)) {
        return Success(false);
      }
      var reply := db.Request("post", "/_api/cursor/" + Str(id), None);
      if reply.Failure? {
        return Failure(reply.error);
      }
      if reply.value.status == 200 {
        data := Some(reply.value.body);
        return Success(true);
      }
      data := None;
      r := Success(false);
    }

    /** `results`: every item of every batch, in order, until a batch names no next
        one or a fetch does not answer 200. */
    method Results() returns (items: seq<Json>, err: Option<DbError>)
      requires data.Some?
      modifies this, db
      ensures db.jwt == old(db.jwt) && (old(Authorized(db.sent)) ==> Authorized(db.sent))
      ensures db.logins == old(db.logins)
      ensures items == Batches(old(data.value), HasJwt(db.jwt), old(db.replies)).items
      ensures err == Batches(old(data.value), HasJwt(db.jwt), old(db.replies)).error
      ensures db.replies == Batches(old(data.value), HasJwt(db.jwt), old(db.replies)).rest
      ensures db.sent == old(db.sent) + Repeat(Batches(old(data.value), HasJwt(db.jwt), old(db.replies)).fetches, CursorPost(id, db.jwt))
    {
      ghost var total := Batches(data.value, HasJwt(db.jwt), db.replies);
      ghost var fetched: nat := 0;
      items, err := [], None;
      var done := false;
      while !done
        invariant db.jwt == old(db.jwt) && (old(Authorized(db.sent)) ==> Authorized(db.sent))
        invariant db.logins == old(db.logins)
        invariant db.sent == old(db.sent) + Repeat(fetched, CursorPost(id, db.jwt))
        invariant !done ==> (
          data.Some?
          && items + Batches(data.value, HasJwt(db.jwt), db.replies).items == total.items
          && Batches(data.value, HasJwt(db.jwt), db.replies).error == total.error
          && Batches(data.value, HasJwt(db.jwt), db.replies).rest == total.rest
          && fetched + Batches(data.value, HasJwt(db.jwt), db.replies).fetches == total.fetches)
        invariant done ==> items == total.items
        invariant done ==> err == total.error
        invariant !done ==> err.None?
        invariant done ==> db.replies == total.rest
        invariant done ==> fetched == total.fetches
        decreases |db.replies| + (if done then 0 else 1)
      {
        ghost var run := Batches(data.value, HasJwt(db.jwt), db.replies);
        BatchesStep(data.value, HasJwt(db.jwt), db.replies);
        var batch := Items(Get(data.value, "result", JArr([])));
        ghost var prefix := items;
        ghost var sent := db.sent;
        items := items + batch;
        if "nextBatchId" in data.value {
          ghost var before := db.replies;
          var next := FetchNextBatch();
          if next.Failure? {
            err := Some(next.error);
            done := true;
            if next.error == Unreachable {
              assert db.sent == old(db.sent) + Repeat(fetched + 1, CursorPost(id, db.jwt)) by {
                SentAssoc(old(db.sent), Repeat(fetched, CursorPost(id, db.jwt)), [CursorPost(id, db.jwt)]);
              }
              fetched := fetched + 1;
            }
          } else if !next.value {
            if db.replies != before {
              assert db.sent == old(db.sent) + Repeat(fetched + 1, CursorPost(id, db.jwt)) by {
                SentAssoc(old(db.sent), Repeat(fetched, CursorPost(id, db.jwt)), [CursorPost(id, db.jwt)]);
              }
              fetched := fetched + 1;
            }
            done := true;
          } else {
            assert db.sent == old(db.sent) + Repeat(fetched + 1, CursorPost(id, db.jwt)) by {
              SentAssoc(old(db.sent), Repeat(fetched, CursorPost(id, db.jwt)), [CursorPost(id, db.jwt)]);
            }
            JsonAssoc(prefix, batch, Batches(data.value, HasJwt(db.jwt), db.replies).items);
            fetched := fetched + 1;
          }
        } else {
          done := true;
        }
      }
    }

    /** `close`: delete the cursor on the server. */
    method Close() returns (r: Result<HttpResponse, DbError>)
      modifies db
      ensures db.jwt == old(db.jwt) && (old(Authorized(db.sent)) ==> Authorized(db.sent))
      ensures db.logins == old(db.logins)
      ensures HasJwt(db.jwt) ==> db.sent == old(db.sent) + [HttpRequest("delete", "/_api/cursor/" + Str(id), None, Bearer(db.jwt))]
      ensures HasJwt(db.jwt) ==> (r.Failure? <==> old(db.replies) == [])
      ensures HasJwt(db.jwt) && old(db.replies) == [] ==> r == Failure(Unreachable)
      ensures !HasJwt(db.jwt) ==> r == Failure(NotAuthenticated)
    {
      r := db.Request("delete", "/_api/cursor/" + Str(id), None);
    }
  }

  /** The record `create_document` sends: `_key` set to `str(key)` when the key
      is not None, and the collection's proxy tag written over any tag of the caller's. */
  function Prepared(data: Doc, key: Option<Json>, proxy: Option<string>): (d: Doc)
    ensures KeyGiven(key) ==> "_key" in d && d["_key"] == JStr(Str(key.value))
    ensures proxy.Some? && proxy.value != "" ==> "proxy" in d && d["proxy"] == JStr(proxy.value)
    ensures d.Keys == data.Keys + (if KeyGiven(key) then {"_key"} else {}) + (if proxy.Some? && proxy.value != "" then {"proxy"} else {})
    ensures forall f :: f in data && f != "_key" && f != "proxy" ==> d[f] == data[f]
    ensures !KeyGiven(key) && "_key" in data ==> d["_key"] == data["_key"]
    ensures !(proxy.Some? && proxy.value != "") && "proxy" in data ==> d["proxy"] == data["proxy"]
  {
    var keyed := if KeyGiven(key) then data["_key" := JStr(Str(key.value))] else data;
    if proxy.Some? && proxy.value != "" then keyed["proxy" := JStr(proxy.value)] else keyed
  }

  /** `key is not None`: an absent key and an explicit None both leave `_key` alone. */
  predicate KeyGiven(key: Option<Json>) {
    key.Some? && !key.value.JNull?
  }

  /** The schema `create_collection` posts: type 3 marks an edge collection. */
  function Schema(name: string, edge: bool): (d: Doc)
    ensures "name" in d && d["name"] == JStr(name)
    ensures "type" in d <==> edge
    ensures edge ==> d["type"] == JInt(3)
  {
    if edge then map["name" := JStr(name), "type" := JInt(3)] else map["name" := JStr(name)]
  }

  /** One collection and the client it talks through. */
  class CollectionManager {
    const name: string
    const edge: bool
    const proxy: Option<string>
    const db: DatabaseManager

    constructor (name: string, edge: bool, proxy: Option<string>, db: DatabaseManager)
      ensures this.name == name && this.edge == edge && this.proxy == proxy && this.db == db
    {
      this.name := name;
      this.edge := edge;
      this.proxy := proxy;
      this.db := db;
    }

    /** `create_collection`: create only when the probe answers 404; the creation
        must answer 200. The result says whether a creation was sent. */
    method CreateCollection() returns (r: Result<bool, DbError>)
      modifies db
      ensures db.jwt == old(db.jwt) && (old(Authorized(db.sent)) ==> Authorized(db.sent))
      ensures db.logins == old(db.logins)
      ensures !HasJwt(db.jwt) ==> r == Failure(NotAuthenticated) && db.sent == old(db.sent)
      ensures HasJwt(db.jwt) && old(db.replies) != [] && old(db.replies)[0].status != 404 ==> (
        r == Success(false) && db.sent == old(db.sent) + [HttpRequest("get", "/_api/collection/" + name, None, Bearer(db.jwt))])
      ensures HasJwt(db.jwt) && old(db.replies) != [] && old(db.replies)[0].status == 404 ==> (
        db.sent == old(db.sent) + [HttpRequest("get", "/_api/collection/" + name, None, Bearer(db.jwt)),
                                   HttpRequest("post", "/_api/collection", Some(Schema(name, edge)), Bearer(db.jwt))]
        && (|old(db.replies)| >= 2 && old(db.replies)[1].status == 200 ==> r == Success(true))
        && (|old(db.replies)| >= 2 && old(db.replies)[1].status != 200 ==> r == Failure(CollectionNotCreated(name))))
    {
      var probe := db.Request("get", "/_api/collection/" + name, None);
      if probe.Failure? {
        return Failure(probe.error);
      }
      if probe.value.status != 404 {
        return Success(false);
      }
      var created := db.Request("post", "/_api/collection", Some(Schema(name, edge)));
      if created.Failure? {
        return Failure(created.error);
      }
      if created.value.status != 200 {
        return Failure(CollectionNotCreated(name));
      }
      r := Success(true);
    }

    /** `create_document(data, key)`: the prepared record is written; 201 and 202
        are accepted; the reply becomes a handle iff the collection has a proxy tag. */
    method CreateDocument(data: Doc, key: Option<Json>, registry: set<string>) returns (r: Result<Fetched, DbError>)
      modifies db
      ensures db.jwt == old(db.jwt) && (old(Authorized(db.sent)) ==> Authorized(db.sent))
      ensures db.logins == old(db.logins)
      ensures !HasJwt(db.jwt) ==> r == Failure(NotAuthenticated)
      ensures HasJwt(db.jwt) ==> db.sent == old(db.sent) + [HttpRequest("put", "/_api/document/user", Some(Prepared(data, key, proxy)), Bearer(db.jwt))]
      ensures HasJwt(db.jwt) && old(db.replies) != [] ==> (
        var reply := old(db.replies)[0];
        (reply.status != 201 && reply.status != 202 ==> r == Failure(DocumentNotCreated(name)))
        && ((reply.status == 201 || reply.status == 202) && !(proxy.Some? && proxy.value != "") ==> r == Success(Raw(reply.body)))
        && ((reply.status == 201 || reply.status == 202) && proxy.Some? && proxy.value != "" ==>
              (if GetProxy(reply.body, registry).Success? then r == Success(Handle(GetProxy(reply.body, registry).value))
               else r == Failure(GetProxy(reply.body, registry).error))))
    {
      var reply := db.Request("put", "/_api/document/user", Some(Prepared(data, key, proxy)));
      if reply.Failure? {
        return Failure(reply.error);
      }
      if reply.value.status != 201 && reply.value.status != 202 {
        return Failure(DocumentNotCreated(name));
      }
      if !(proxy.Some? && proxy.value != "") {
        return Success(Raw(reply.value.body));
      }
      var handle := GetProxy(reply.value.body, registry);
      if handle.Failure? {
        return Failure(handle.error);
      }
      r := Success(Handle(handle.value));
    }
  }
}
