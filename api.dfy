/** The lobby-facing game service of api.js: error-message extraction,
    the search query and the per-game summary the lobby lists, the
    page-by-page loader, and the game-detail request. The ETag cache and
    `buildHeaders` of the same file are in module Http. */
module Api {
  import opened Wrappers
  import opened Text
  import opened Json
  import opened Http

  const Unauthorized401 := "Credenciales inválidas"
  const Forbidden403 := "No autorizado para esta acción"
  const NotFound404 := "Recurso no encontrado"
  const Conflict409 := "Acción inválida para la fase actual"
  const Precondition428 := "Condición previa no satisfecha"

  /** The fixed text `parseError` gives a status it knows. */
  function StatusMessage(status: int): Option<string> {
    if status == 401 then Some(Unauthorized401)
    else if status == 403 then Some(Forbidden403)
    else if status == 404 then Some(NotFound404)
    else if status == 409 then Some(Conflict409)
    else if status == 428 then Some(Precondition428)
    else None
  }

  /** `parseError(response)`: a non-empty X-Msg header first, then a truthy
      `msg` in the JSON body, then the fixed text for the status, then
      `Error: status statusText`. */
  function ParseError(res: Response): (m: string)
    ensures Header(res, XMsgHeader).Some? && Header(res, XMsgHeader).value != ""
            ==> m == Header(res, XMsgHeader).value
    ensures (Header(res, XMsgHeader).None? || Header(res, XMsgHeader).value == "")
            && res.body.Some? && Truthy(Get(res.body.value, "msg"))
            ==> m == ToStr(Get(res.body.value, "msg"))
    ensures (Header(res, XMsgHeader).None? || Header(res, XMsgHeader).value == "")
            && (res.body.None? || !Truthy(Get(res.body.value, "msg")))
            ==> m == (if StatusMessage(res.status).Some? then StatusMessage(res.status).value
                      else "Error: " + StatusLine(res))
  {
    var headerMsg := Header(res, XMsgHeader);
    if headerMsg.Some? && headerMsg.value != "" then headerMsg.value
    else
      // `data?.msg || ''`: a null body, a body without msg and a body
      // that is not JSON all leave the JSON message empty
      var jsonMsg := if res.body.Some? then Or(Get(res.body.value, "msg"), JStr("")) else JStr("");
      if Truthy(jsonMsg) then ToStr(jsonMsg)
      else StatusMessage(res.status).GetOr("Error: " + StatusLine(res))
  }

  /** The X-Msg header outranks everything the body or the status says. */
  lemma HeaderMessageWins(res: Response, other: Response)
    requires Header(res, XMsgHeader) == Header(other, XMsgHeader)
    requires Header(res, XMsgHeader).Some? && Header(res, XMsgHeader).value != ""
    ensures ParseError(res) == ParseError(other)
  {
  }

  /** `handleJSON(response)`: a failed response throws `parseError`'s
      message; a successful one yields its JSON. */
  function HandleJson(reply: Reply): (r: Result<Json>)
    ensures reply.NetworkFailure? ==> r == Thrown(reply.message)
    ensures reply.Received? && !IsOk(reply.res) ==> r == Thrown(ParseError(reply.res))
    ensures reply.Received? && IsOk(reply.res) ==> (r.Ok? <==> reply.res.body.Some?)
    ensures r.Ok? ==> reply.Received? && IsOk(reply.res) && r.value == reply.res.body.value
  {
    match reply
    case NetworkFailure(m) => Thrown(m)
    case Received(res) =>
      if !IsOk(res) then Thrown(ParseError(res))
      else if res.body.Some? then Ok(res.body.value)
      else Thrown(JsonSyntax)
  }

  const DefaultLimit := 100
  const MaxLimit := 200

  /** The filters of the query, before the limit: the name only for 3 to
      20 characters, the status when given, the page when positive, each
      with its value and in that order. */
  function SearchFilters(name: string, status: string, page: int): (fs: seq<(string, string)>)
    ensures (exists i :: 0 <= i < |fs| && fs[i].0 == "name") <==> 3 <= |name| <= 20
    ensures (exists i :: 0 <= i < |fs| && fs[i].0 == "status") <==> status != ""
    ensures (exists i :: 0 <= i < |fs| && fs[i].0 == "page") <==> page > 0
    ensures forall i :: 0 <= i < |fs| && fs[i].0 == "name" ==> fs[i].1 == name && i == 0
    ensures forall i :: 0 <= i < |fs| && fs[i].0 == "status" ==> fs[i].1 == status && i == (if 3 <= |name| <= 20 then 1 else 0)
    ensures forall i :: 0 <= i < |fs| && fs[i].0 == "page" ==> fs[i].1 == IntToString(page) && i == |fs| - 1
    ensures forall i :: 0 <= i < |fs| ==> fs[i].0 in {"name", "status", "page"}
  {
    var p1: seq<(string, string)> := if 3 <= |name| <= 20 then [("name", name)] else [];
    var p2 := p1 + (if status != "" then [("status", status)] else []);
    var fs := p2 + (if page > 0 then [("page", IntToString(page))] else []);
    // the three keys differ in their first letter
    assert "name"[0] == 'n' && "status"[0] == 's' && "page"[0] == 'p';
    assert forall i :: 0 <= i < |p1| ==> fs[i] == ("name", name);
    assert forall i :: |p1| <= i < |p2| ==> fs[i] == ("status", status) && i == |p1|;
    assert forall i :: |p2| <= i < |fs| ==> fs[i] == ("page", IntToString(page)) && i == |p2|;
    assert 3 <= |name| <= 20 ==> fs[0].0 == "name";
    assert status != "" ==> fs[|p1|].0 == "status";
    assert page > 0 ==> fs[|p2|].0 == "page";
    fs
  }

  /** The query of `searchGames` as the ordered name/value pairs of its
      URLSearchParams. */
  function SearchParams(name: string, status: string, page: int, limit: int): (ps: seq<(string, string)>)
    // the filters, with their values and in their order, then exactly one limit
    ensures |ps| > 0 && ps[..|ps| - 1] == SearchFilters(name, status, page)
    ensures ps[|ps| - 1].0 == "limit" && forall i :: 0 <= i < |ps| - 1 ==> ps[i].0 != "limit"
    // the caller's limit only when 1..200
    ensures ps[|ps| - 1].1 == (if 0 < limit <= MaxLimit then IntToString(limit) else IntToString(DefaultLimit))
  {
    var fs := SearchFilters(name, status, page);
    var ps := fs + [("limit", IntToString(if 0 < limit <= MaxLimit then limit else DefaultLimit))];
    assert "limit"[0] == 'l' && "name"[0] == 'n' && "status"[0] == 's' && "page"[0] == 'p';
    assert ps[..|ps| - 1] == fs;
    ps
  }

  /** One game as the lobby lists it. */
  datatype GameSummary = GameSummary(
    id: Json,
    name: Json,
    players: Json,
    maxPlayers: int,
    requiresPassword: Json,
    status: Json,
    owner: Json,
    currentRound: Json,
    enemies: Json)

  /** `v[0]`. */
  function First(v: Json): Json {
    match v
    case JArr(items) => if |items| > 0 then items[0] else JUndefined
    case JStr(s) => if |s| > 0 then JStr([s[0]]) else JUndefined
    case JObj(_) => Get(v, "0")
    case _ => JUndefined
  }

  /** `x > 0` for the values a `length` can be. */
  predicate Positive(x: Json) {
    (x.JNum? && x.n > 0) || x == JBool(true)
  }

  /** The summary `searchGames` builds from one game record (never null
      here: a null record makes the whole search fail). */
  function Summarize(game: Json): (g: GameSummary)
    requires !IsNullish(game)
    ensures g.maxPlayers == 10
    ensures g.players == (if Truthy(Get(game, "players")) then Get(Get(game, "players"), "length") else JNum(0))
    ensures Get(game, "players").JArr? ==> g.players == JNum(|Get(game, "players").items|)
    ensures Get(game, "players").JArr? && |Get(game, "players").items| > 0 ==> g.owner == Get(game, "players").items[0]
    ensures !Truthy(Get(game, "players")) ==> g.owner == JStr("Unknown")
    ensures Get(game, "players").JArr? && |Get(game, "players").items| == 0 ==> g.owner == JStr("Unknown")
    ensures Truthy(g.status) && Truthy(g.enemies)
    // status 'lobby', enemies [] and no password unless the record gives them
    ensures g.status == (if Truthy(Get(game, "status")) then Get(game, "status") else JStr("lobby"))
    ensures g.enemies == (if Truthy(Get(game, "enemies")) then Get(game, "enemies") else JArr([]))
    ensures g.requiresPassword == (if Truthy(Get(game, "password")) then Get(game, "password") else JBool(false))
    ensures g.id == Get(game, "id") && g.name == Get(game, "name") && g.currentRound == Get(game, "currentRound")
  {
    var players := Get(game, "players");
    GameSummary(
      Get(game, "id"),
      Get(game, "name"),
      if Truthy(players) then Get(players, "length") else JNum(0),
      10,
      Or(Get(game, "password"), JBool(false)),
      Or(Get(game, "status"), JStr("lobby")),
      if Truthy(players) && Positive(Get(players, "length")) then First(players) else JStr("Unknown"),
      Get(game, "currentRound"),
      Or(Get(game, "enemies"), JArr([])))
  }

  /** `data.data.map(...)`: every record summarised in order, or None when
      a record is null, where the mapping throws. */
  function SummarizeAll(items: seq<Json>): (r: Option<seq<GameSummary>>)
    ensures r.None? <==> exists i :: 0 <= i < |items| && IsNullish(items[i])
    ensures r.Some? ==> |r.value| == |items| && forall i :: 0 <= i < |items| ==> r.value[i] == Summarize(items[i])
  {
    if items == [] then Some([])
    else if IsNullish(items[0]) then None
    else
      var rest := SummarizeAll(items[1..]);
      assert forall i :: 1 <= i < |items| ==> items[i] == items[1..][i - 1];
      if rest.None? then None else Some([Summarize(items[0])] + rest.value)
  }

  /** `searchGames` on the settled request: every record summarised, or []
      when anything goes wrong (a failed status, a body that is not JSON,
      a null body, a null record), since the function catches all. */
  function SearchGames(reply: Reply): (gs: seq<GameSummary>)
    ensures reply.NetworkFailure? || !IsOk(reply.res) || reply.res.body.None? ==> gs == []
    ensures gs != [] ==> var data := Get(reply.res.body.value, "data");
            data.JArr? && |gs| == |data.items|
            && forall i :: 0 <= i < |gs| ==> !IsNullish(data.items[i]) && gs[i] == Summarize(data.items[i])
    // a good reply whose `data` is an array of records: one summary per record, in order
    // (SummarizeAll), unless a record is null, where the mapping throws and the catch gives []
    ensures reply.Received? && IsOk(reply.res) && reply.res.body.Some? && !IsNullish(reply.res.body.value)
            && Get(reply.res.body.value, "data").JArr?
            ==> gs == SummarizeAll(Get(reply.res.body.value, "data").items).GetOr([])
    // a null body, or a `data` that is not an array, gives []
    ensures reply.Received? && reply.res.body.Some?
            && (IsNullish(reply.res.body.value) || !Get(reply.res.body.value, "data").JArr?)
            ==> gs == []
  {
    if reply.NetworkFailure? || !IsOk(reply.res) || reply.res.body.None? then []
    else
      var body := reply.res.body.value;
      // `data.data` on a null body throws, and the catch returns []
      if IsNullish(body) then []
      else
        var data := Get(body, "data");
        if Truthy(data) && data.JArr? then SummarizeAll(data.items).GetOr([])
        else []
  }

  /** The reply to the request for page `page`; pages past the given
      replies fail like an unreachable server. */
  function ReplyAt(replies: seq<Reply>, page: nat): Reply {
    if page < |replies| then replies[page] else NetworkFailure("Failed to fetch")
  }

  /** What `getAllGames` accumulates from page `page` on: each page
      appended, stopping after an empty page or one shorter than 100. */
  function AllGamesFrom(replies: seq<Reply>, page: nat): seq<GameSummary>
    decreases |replies| - page
  {
    var games := SearchGames(ReplyAt(replies, page));
    if |games| == 0 || |games| < DefaultLimit then games
    else games + AllGamesFrom(replies, page + 1)
  }

  /** `getAllGames`: requests pages 0, 1, 2, ... (limit 100) while each
      answer is full; the listing is the pages' games in order. */
  method GetAllGames(replies: seq<Reply>) returns (all: seq<GameSummary>)
    ensures all == AllGamesFrom(replies, 0)
  {
    all := [];
    var currentPage: nat := 0;
    var hasMore := true;
    while hasMore
      invariant currentPage <= |replies|
      invariant hasMore ==> all + AllGamesFrom(replies, currentPage) == AllGamesFrom(replies, 0)
      invariant !hasMore ==> all == AllGamesFrom(replies, 0)
      decreases |replies| - currentPage, hasMore
    {
      var games := FetchPage(replies, currentPage);
      if |games| == 0 {
        hasMore := false;
      } else {
        AppendAssoc(all, games, AllGamesFrom(replies, currentPage + 1));
        all := all + games;
        currentPage := currentPage + 1;
      }
      if |games| < DefaultLimit {
        hasMore := false;
      }
    }
  }

  /** One `searchGames` call of the page loop, described by what the
      listing does with its answer. */
  method FetchPage(replies: seq<Reply>, page: nat) returns (games: seq<GameSummary>)
    ensures AllGamesFrom(replies, page) == (if |games| == 0 || |games| < DefaultLimit then games
                                            else games + AllGamesFrom(replies, page + 1))
    ensures |games| > 0 ==> page < |replies|
  {
    games := SearchGames(ReplyAt(replies, page));
    AllGamesFromStep(replies, page);
  }

  /** One page of `AllGamesFrom`; only a page that exists yields games. */
  lemma AllGamesFromStep(replies: seq<Reply>, page: nat)
    ensures var games := SearchGames(ReplyAt(replies, page));
            && AllGamesFrom(replies, page) == (if |games| == 0 || |games| < DefaultLimit then games
                                               else games + AllGamesFrom(replies, page + 1))
            && (|games| > 0 ==> page < |replies|)
  {
  }

  lemma AppendAssoc<T>(a: seq<T>, b: seq<T>, c: seq<T>)
    ensures (a + b) + c == a + (b + c)
  {
  }

  /** Every listed game comes from one of the pages read from `page` on. */
  lemma {:induction false} AllGamesFromPages(replies: seq<Reply>, page: nat, g: GameSummary)
    requires g in AllGamesFrom(replies, page)
    ensures exists k :: page <= k < |replies| && g in SearchGames(ReplyAt(replies, k))
    decreases |replies| - page
  {
    var games := SearchGames(ReplyAt(replies, page));
    if g !in games {
      AllGamesFromPages(replies, page + 1, g);
    }
  }

  /** The headers of `getGameDetails`: the player always, the password only
      when it is non-empty. */
  function DetailHeaders(playerName: string, password: string): (h: Headers)
    ensures PlayerHeader in h && h[PlayerHeader] == playerName
    ensures (PasswordHeader in h) == (password != "") && (password != "" ==> h[PasswordHeader] == password)
  {
    var h := map[AcceptHeader := JsonMediaType, ContentTypeHeader := JsonMediaType, PlayerHeader := playerName];
    if password != "" then h[PasswordHeader := password] else h
  }

  /** Message of the TypeError of `data.data` on a null body. */
  const NullDataAccess := "Cannot read properties of null (reading 'data')"

  /** The message `getGameDetails` throws for a failed response: the text
      parsed as JSON and its `msg`, or the raw text when it is not JSON,
      each falling back to `Error: status statusText`. */
  function DetailErrorMessage(res: Response): (m: string)
    ensures res.body.Some? && res.body.value.JObj? && Truthy(Get(res.body.value, "msg"))
            ==> m == ToStr(Get(res.body.value, "msg"))
    ensures res.body.Some? && res.body.value.JObj? && !Truthy(Get(res.body.value, "msg"))
            ==> m == "Error: " + StatusLine(res)
    ensures res.body.None? ==> m == (if res.text != "" then res.text else "Error: " + StatusLine(res))
    ensures res.body == Some(JNull) ==> m == NullMsgAccess
    ensures res.body.Some? && !res.body.value.JObj? && !res.body.value.JNull?
            ==> m == "Error: " + StatusLine(res)
  {
    var fallback := "Error: " + StatusLine(res);
    var errorData := if res.body.Some? then res.body.value
                     else JObj(map["msg" := JStr(if res.text != "" then res.text else fallback)]);
    if errorData.JNull? then NullMsgAccess
    else ToStr(Or(Get(errorData, "msg"), JStr(fallback)))
  }

  /** `getGameDetails` on the settled request: the request headers and what
      the call yields or throws. */
  function GetGameDetails(playerName: string, password: string, reply: Reply): (out: (Headers, Result<Json>))
    ensures out.0 == DetailHeaders(playerName, password)
    ensures reply.NetworkFailure? ==> out.1 == Thrown(reply.message)
    ensures reply.Received? && !IsOk(reply.res) ==> out.1 == Thrown(DetailErrorMessage(reply.res))
    ensures out.1.Ok? ==> reply.Received? && IsOk(reply.res) && reply.res.body == Some(out.1.value)
                          && !out.1.value.JNull?
    // a good reply yields its JSON body; one that is not JSON, or is null, throws
    ensures reply.Received? && IsOk(reply.res) && reply.res.body.Some? && !reply.res.body.value.JNull?
            ==> out.1 == Ok(reply.res.body.value)
    ensures reply.Received? && IsOk(reply.res) && reply.res.body.None? ==> out.1 == Thrown(JsonSyntax)
    ensures reply.Received? && IsOk(reply.res) && reply.res.body == Some(JNull) ==> out.1 == Thrown(NullDataAccess)
  {
    var h := DetailHeaders(playerName, password);
    match reply
    case NetworkFailure(m) => (h, Thrown(m))
    case Received(res) =>
      if !IsOk(res) then (h, Thrown(DetailErrorMessage(res)))
      else if res.body.None? then (h, Thrown(JsonSyntax))
      else if res.body.value.JNull? then (h, Thrown(NullDataAccess))
      else (h, Ok(res.body.value))
  }
}
