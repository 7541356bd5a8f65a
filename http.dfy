/** The request client shared by the service modules: HTTP responses as
    input records, the header dictionary `buildHeaders` returns, the
    `handleResponse` error translation and the ETag response cache behind
    `fetchJSON` (api.js and gameRoundsAPI.js each hold a copy of the same
    code over a module-private `Map`). */
module Http {
  import opened Wrappers
  import opened Text
  import opened Json

  /** Header names, lower-cased: `Headers` look-ups are case-insensitive,
      so `get('ETag')`, `get('Etag')` and `get('etag')` read one entry. */
  const AcceptHeader := "accept"
  const PlayerHeader := "player"
  const PasswordHeader := "password"
  const ContentTypeHeader := "content-type"
  const IfNoneMatchHeader := "if-none-match"
  const IfMatchHeader := "if-match"
  const IdempotencyHeader := "idempotency-key"
  const EtagHeader := "etag"
  const XMsgHeader := "x-msg"
  const JsonMediaType := "application/json"

  type Headers = map<string, string>

  /** A response as `fetch` resolves it. `body` is what `response.json()`
      yields (None when the text is not JSON, where `json()` rejects) and
      `text` is what `response.text()` yields. */
  datatype Response = Response(
    status: int,
    statusText: string,
    headers: Headers,
    body: Option<Json>,
    text: string)

  /** The settled `fetch` promise: a response, or a rejection such as the
      browser's "Failed to fetch" TypeError. */
  datatype Reply = Received(res: Response) | NetworkFailure(message: string)

  /** `response.ok`. */
  predicate IsOk(res: Response) {
    200 <= res.status <= 299
  }

  /** `${status} ${statusText}`. */
  function StatusLine(res: Response): string {
    IntToString(res.status) + " " + res.statusText
  }

  /** `headers.get(name)`, None for `null`. */
  function Header(res: Response, name: string): Option<string> {
    if name in res.headers then Some(res.headers[name]) else None
  }

  /** Message of the TypeError JavaScript throws on `null.msg`. */
  const NullMsgAccess := "Cannot read properties of null (reading 'msg')"
  /** Message of the SyntaxError `response.json()` rejects with on a body
      that is not JSON. */
  const JsonSyntax := "Unexpected token in JSON"

  /** `new Error(v)` for an arbitrary value: the message is `String(v)`. */
  function ErrorOf<T>(v: Json, status: Option<int>): Result<T> {
    Err(Error(ToStr(v), status))
  }

  /** `handleResponse` (gameJoinAPI.js; gameRoundsAPI.js holds the same
      code): a failed response throws `errorData.msg`, or
      `Error: status statusText` when the body has no truthy `msg` (a body
      that is not JSON counts as `{}`); a successful one yields its JSON. */
  function HandleResponse(reply: Reply): (r: Result<Json>)
    ensures reply.NetworkFailure? ==> r == Thrown(reply.message)
    ensures reply.Received? && IsOk(reply.res) && reply.res.body.Some? ==> r == Ok(reply.res.body.value)
    ensures reply.Received? && !IsOk(reply.res) ==> r.Err? && r.error.status == None
    ensures reply.Received? && !IsOk(reply.res) && reply.res.body.Some? && reply.res.body.value.JObj?
            && Truthy(Get(reply.res.body.value, "msg"))
            ==> r.error.message == ToStr(Get(reply.res.body.value, "msg"))
    ensures reply.Received? && !IsOk(reply.res)
            && (reply.res.body.None? || (reply.res.body.value.JObj? && !Truthy(Get(reply.res.body.value, "msg"))))
            ==> r.error.message == "Error: " + StatusLine(reply.res)
    ensures reply.Received? && !IsOk(reply.res) && reply.res.body == Some(JNull) ==> r == Thrown(NullMsgAccess)
    ensures reply.Received? && !IsOk(reply.res) && reply.res.body.Some?
            && !reply.res.body.value.JObj? && !reply.res.body.value.JNull?
            ==> r == Thrown("Error: " + StatusLine(reply.res))
    ensures reply.Received? && IsOk(reply.res) && reply.res.body.None? ==> r == Thrown(JsonSyntax)
  {
    match reply
    case NetworkFailure(m) => Thrown(m)
    case Received(res) =>
      if !IsOk(res) then
        var errorData := res.body.GetOr(JObj(map[]));
        if errorData.JNull? then Thrown(NullMsgAccess)
        else ErrorOf(Or(Get(errorData, "msg"), JStr("Error: " + StatusLine(res))), None)
      else if res.body.Some? then Ok(res.body.value)
      else Thrown(JsonSyntax)
  }

  /** `buildHeaders`: Accept always, and each optional header exactly when
      its argument is a non-empty string. */
  function BuildHeaders(player: string, password: string, json: bool,
                        ifNoneMatch: string, idempotencyKey: string): (h: Headers)
    ensures AcceptHeader in h && h[AcceptHeader] == JsonMediaType
    ensures (PlayerHeader in h) == (player != "") && (player != "" ==> h[PlayerHeader] == player)
    ensures (PasswordHeader in h) == (password != "") && (password != "" ==> h[PasswordHeader] == password)
    ensures (ContentTypeHeader in h) == json && (json ==> h[ContentTypeHeader] == JsonMediaType)
    ensures (IfNoneMatchHeader in h) == (ifNoneMatch != "") && (ifNoneMatch != "" ==> h[IfNoneMatchHeader] == ifNoneMatch)
    ensures (IdempotencyHeader in h) == (idempotencyKey != "")
            && (idempotencyKey != "" ==> h[IdempotencyHeader] == idempotencyKey)
    ensures h.Keys <= {AcceptHeader, PlayerHeader, PasswordHeader, ContentTypeHeader, IfNoneMatchHeader, IdempotencyHeader}
  {
    var h0 := map[AcceptHeader := JsonMediaType];
    var h1 := if player != "" then h0[PlayerHeader := player] else h0;
    var h2 := if password != "" then h1[PasswordHeader := password] else h1;
    var h3 := if json then h2[ContentTypeHeader := JsonMediaType] else h2;
    var h4 := if ifNoneMatch != "" then h3[IfNoneMatchHeader := ifNoneMatch] else h3;
    if idempotencyKey != "" then h4[IdempotencyHeader := idempotencyKey] else h4
  }

  /** The message `fetchJSON` throws for a failed response:
      `(body && (body.msg || body.message)) || "status statusText"`. */
  function FetchErrorMessage(res: Response): (m: string)
    ensures var b := res.body.GetOr(JNull);
            Truthy(b) && Truthy(Get(b, "msg")) ==> m == ToStr(Get(b, "msg"))
    ensures var b := res.body.GetOr(JNull);
            Truthy(b) && !Truthy(Get(b, "msg")) && Truthy(Get(b, "message")) ==> m == ToStr(Get(b, "message"))
    ensures var b := res.body.GetOr(JNull);
            (!Truthy(b) || (!Truthy(Get(b, "msg")) && !Truthy(Get(b, "message")))) ==> m == StatusLine(res)
  {
    var body := res.body.GetOr(JNull);
    var picked := if Truthy(body) then Or(Get(body, "msg"), Get(body, "message")) else body;
    ToStr(Or(picked, JStr(StatusLine(res))))
  }

  /** A remembered response: its ETag (`null` for none), its body and when
      it was stored. */
  datatype CacheEntry = CacheEntry(etag: Option<string>, body: Json, timestamp: int)

  /** What `fetchJSON` yields or throws for `reply`, given the cache's
      entries before the call: a 304 answered from a truthy cached body,
      a failed status thrown with its message and status, and a good
      status yielding its body (null when not JSON). */
  function FetchOutcome(entries: map<string, CacheEntry>, cacheKey: string, reply: Reply): (r: Result<Json>)
    ensures reply.NetworkFailure? ==> r == Thrown(reply.message)
    ensures reply.Received? && reply.res.status == 304 && cacheKey != "" && cacheKey in entries
            && Truthy(entries[cacheKey].body)
            ==> r == Ok(entries[cacheKey].body)
    ensures reply.Received? && !IsOk(reply.res)
            && !(reply.res.status == 304 && cacheKey != "" && cacheKey in entries && Truthy(entries[cacheKey].body))
            ==> r == Err(Error(FetchErrorMessage(reply.res), Some(reply.res.status)))
    ensures reply.Received? && IsOk(reply.res) ==> r == Ok(reply.res.body.GetOr(JNull))
  {
    match reply
    case NetworkFailure(m) => Thrown(m)
    case Received(res) =>
      if res.status == 304 && cacheKey != "" && cacheKey in entries && Truthy(entries[cacheKey].body)
      then Ok(entries[cacheKey].body)
      else if !IsOk(res) then Err(Error(FetchErrorMessage(res), Some(res.status)))
      else Ok(res.body.GetOr(JNull))
  }

  /** The cache's entries after `fetchJSON`: only a good status under a
      non-empty key stores the body with its ETag; nothing else changes. */
  function FetchStore(entries: map<string, CacheEntry>, cacheKey: string, reply: Reply, now: int)
    : (e: map<string, CacheEntry>)
    ensures reply.Received? && IsOk(reply.res) && cacheKey != ""
            ==> cacheKey in e && e[cacheKey] == CacheEntry(Header(reply.res, EtagHeader), reply.res.body.GetOr(JNull), now)
    ensures !(reply.Received? && IsOk(reply.res) && cacheKey != "") ==> e == entries
    ensures forall k :: k != cacheKey ==> (k in e <==> k in entries)
    ensures forall k :: k != cacheKey && k in e ==> e[k] == entries[k]
  {
    if reply.Received? && IsOk(reply.res) && cacheKey != ""
    then entries[cacheKey := CacheEntry(Header(reply.res, EtagHeader), reply.res.body.GetOr(JNull), now)]
    else entries
  }

  /** The module-private `_cache` Map with `getCache`, `setCache`,
      `invalidateCache` and `fetchJSON` over it. */
  class EtagCache {
    var entries: map<string, CacheEntry>

    constructor ()
      ensures entries == map[]
    {
      entries := map[];
    }

    /** `getCache(key)`: null for an empty key or a missing entry. */
    function Get(key: string): (e: Option<CacheEntry>)
      reads this
      ensures key == "" ==> e == None
      ensures key != "" ==> (e.Some? <==> key in entries)
      ensures e.Some? ==> key in entries && e.value == entries[key]
    {
      if key != "" && key in entries then Some(entries[key]) else None
    }

    /** `setCache(key, {etag, body})`: an empty key is ignored; otherwise
        the entry is replaced, stamped with `now`. */
    method Set(key: string, etag: Option<string>, body: Json, now: int)
      modifies this
      ensures key == "" ==> entries == old(entries)
      ensures key != "" ==> entries == old(entries)[key := CacheEntry(etag, body, now)]
    {
      if key != "" {
        entries := entries[key := CacheEntry(etag, body, now)];
      }
    }

    /** `invalidateCache(key)` of api.js: removes that one key; an empty
        key does nothing. */
    method Invalidate(key: string)
      modifies this
      ensures key == "" ==> entries == old(entries)
      ensures key != "" ==> entries == old(entries) - {key}
      ensures forall k :: k in old(entries) && k != key ==> k in entries && entries[k] == old(entries)[k]
    {
      if key != "" {
        entries := entries - {key};
      }
    }

    /** `fetchJSON(url, {headers, cacheKey})` with the network call's
        outcome given as `reply`. Returns the headers the request was sent
        with and what the call yields or throws. */
    method FetchJson(cacheKey: string, headers: Headers, reply: Reply, now: int)
      returns (sent: Headers, r: Result<Json>)
      modifies this
      // the request: Accept set, If-None-Match added from the cached ETag
      // only when the caller did not set a non-empty one
      ensures var cached := old(Get(cacheKey));
              var conditional := (cacheKey != "" && (IfNoneMatchHeader !in headers || headers[IfNoneMatchHeader] == "")
                                  && cached.Some? && cached.value.etag.Some? && cached.value.etag.value != "");
              sent == (if conditional then headers[AcceptHeader := JsonMediaType][IfNoneMatchHeader := cached.value.etag.value]
                       else headers[AcceptHeader := JsonMediaType])
      ensures reply.NetworkFailure? ==> r == Thrown(reply.message) && entries == old(entries)
      // 304 with a truthy cached body: the cached body, cache untouched
      ensures reply.Received? && reply.res.status == 304 && old(Get(cacheKey)).Some? && Truthy(old(Get(cacheKey)).value.body)
              ==> r == Ok(old(Get(cacheKey)).value.body) && entries == old(entries)
      // otherwise a failed response throws with its status, cache untouched
      ensures reply.Received? && !(reply.res.status == 304 && old(Get(cacheKey)).Some? && Truthy(old(Get(cacheKey)).value.body))
              && !IsOk(reply.res)
              ==> r == Err(Error(FetchErrorMessage(reply.res), Some(reply.res.status))) && entries == old(entries)
      // and a successful one yields its body (null when not JSON) and stores it with its ETag
      ensures reply.Received? && IsOk(reply.res)
              ==> r == Ok(reply.res.body.GetOr(JNull))
                  && entries == (if cacheKey == "" then old(entries)
                                 else old(entries)[cacheKey := CacheEntry(Header(reply.res, EtagHeader), reply.res.body.GetOr(JNull), now)])
      // in short: the outcome and the new entries the two functions above give
      ensures r == FetchOutcome(old(entries), cacheKey, reply) && entries == FetchStore(old(entries), cacheKey, reply, now)
      // entries under other keys are untouched
      ensures forall k :: k != cacheKey ==> (k in entries <==> k in old(entries))
      ensures forall k :: k != cacheKey && k in entries ==> entries[k] == old(entries)[k]
    {
      sent := headers[AcceptHeader := JsonMediaType];
      var cached := if cacheKey != "" then Get(cacheKey) else None;
      if cacheKey != "" && (IfNoneMatchHeader !in sent || sent[IfNoneMatchHeader] == "")
         && cached.Some? && cached.value.etag.Some? && cached.value.etag.value != "" {
        sent := sent[IfNoneMatchHeader := cached.value.etag.value];
      }
      if reply.NetworkFailure? {
        r := Thrown(reply.message);
        return;
      }
      var res := reply.res;
      if res.status == 304 && cacheKey != "" && cached.Some? && Truthy(cached.value.body) {
        r := Ok(cached.value.body);
        return;
      }
      var body := res.body.GetOr(JNull);
      if !IsOk(res) {
        r := Err(Error(FetchErrorMessage(res), Some(res.status)));
        return;
      }
      if cacheKey != "" {
        Set(cacheKey, Header(res, EtagHeader), body, now);
      }
      r := Ok(body);
    }
  }
}
