/** The round gateway of gameRoundsAPI.js: validation and normalisation of
    the server's round records, the capped round history, and the
    mutating round calls with their client-side preconditions. */
module RoundsApi {
  import opened Wrappers
  import opened Text
  import opened Json
  import opened Seqs
  import opened Http

  const MaxRounds := 5
  const Statuses: seq<string> := ["waiting-on-leader", "voting", "waiting-on-group", "ended"]
  const Results: seq<string> := ["none", "citizens", "enemies"]
  const Phases: seq<string> := ["vote1", "vote2", "vote3"]

  /** A round after `normalizeRound`. */
  datatype Round = Round(
    id: string,
    leader: string,
    status: string,
    result: string,
    phase: string,
    group: seq<string>,
    votes: seq<bool>)

  function RoundId(r: Round): string { r.id }

  /** A member name as the client keeps it: non-empty and trimmed. */
  predicate Clean(m: string) { m != "" && Trim(m) == m }

  /** The shape every normalised round has: known status, result and phase,
      trimmed identities, and group members that are trimmed and non-empty. */
  predicate WellFormed(r: Round) {
    && r.status in Statuses && r.result in Results && r.phase in Phases
    && Trim(r.id) == r.id && Trim(r.leader) == r.leader
    && forall m :: m in r.group ==> Clean(m)
  }

  /** `isRoundLike(x)`: a truthy object whose id and leader are strings,
      whose status, result and phase are among the known values and whose
      group and votes are arrays. */
  predicate IsRoundLike(x: Json) {
    && Truthy(x) && (x.JObj? || x.JArr?)
    && Get(x, "id").JStr?
    && Get(x, "leader").JStr?
    && Get(x, "status").JStr? && Get(x, "status").s in Statuses
    && Get(x, "result").JStr? && Get(x, "result").s in Results
    && Get(x, "phase").JStr? && Get(x, "phase").s in Phases
    && Get(x, "group").JArr?
    && Get(x, "votes").JArr?
  }

  /** Arrays are objects to `typeof`, yet none is round-like: only a plain
      object with the seven fields passes. */
  lemma RoundLikeIsObject(x: Json)
    requires IsRoundLike(x)
    ensures x.JObj? && {"id", "leader", "status", "result", "phase", "group", "votes"} <= x.fields.Keys
  {
  }

  /** `String(p).trim()` of a group entry. */
  function MemberName(p: Json): string { TrimmedStr(p) }

  /** `group.map(p => String(p).trim()).filter(Boolean)`. */
  function GroupMembers(items: seq<Json>): (g: seq<string>)
    ensures |g| == Count(items, (x: Json) => MemberName(x) != "")
    ensures forall m :: m in g ==> Clean(m)
    ensures forall i :: 0 <= i < |items| && MemberName(items[i]) != "" ==> MemberName(items[i]) in g
    // every member is the name of an entry, in the order of the entries
    ensures forall m :: m in g ==> exists i :: 0 <= i < |items| && MemberName(items[i]) == m
    ensures IsSubseq(g, Map(items, MemberName))
  {
    var g := NonEmptyImages(items, MemberName);
    NonEmptyImagesShape(items, MemberName);
    NonEmptyImagesCount(items, MemberName, (x: Json) => MemberName(x) != "");
    assert forall m :: m in g ==> Clean(m) by {
      forall m | m in g ensures Clean(m) {
        var i :| 0 <= i < |items| && MemberName(items[i]) == m;
      }
    }
    g
  }

  /** `votes.filter(v => typeof v === 'boolean')`, as booleans. */
  function BoolVotes(items: seq<Json>): (v: seq<bool>)
    ensures |v| == Count(items, (x: Json) => x.JBool?)
    ensures Count(v, (b: bool) => b) == Count(items, (x: Json) => x == JBool(true))
    ensures Count(v, (b: bool) => !b) == Count(items, (x: Json) => x == JBool(false))
  {
    if items == [] then []
    else if items[0].JBool? then [items[0].b] + BoolVotes(items[1..])
    else BoolVotes(items[1..])
  }

  /** `normalizeRound(raw)`, applied only to round-like records. */
  function NormalizeRound(raw: Json): (r: Round)
    requires IsRoundLike(raw)
    ensures WellFormed(r)
    ensures r.id == Trim(Get(raw, "id").s) && r.leader == Trim(Get(raw, "leader").s)
    ensures r.status == Get(raw, "status").s && r.result == Get(raw, "result").s && r.phase == Get(raw, "phase").s
    ensures var items := Get(raw, "group").items;
            |r.group| == Count(items, (x: Json) => MemberName(x) != "")
            && forall i :: 0 <= i < |items| && MemberName(items[i]) != "" ==> MemberName(items[i]) in r.group
    ensures var items := Get(raw, "group").items;
            IsSubseq(r.group, Map(items, MemberName))
            && forall m :: m in r.group ==> exists i :: 0 <= i < |items| && MemberName(items[i]) == m
    ensures var items := Get(raw, "votes").items;
            |r.votes| == Count(items, (x: Json) => x.JBool?)
            && Count(r.votes, (b: bool) => b) == Count(items, (x: Json) => x == JBool(true))
            && Count(r.votes, (b: bool) => !b) == Count(items, (x: Json) => x == JBool(false))
  {
    TrimIdempotent(Get(raw, "id").s);
    TrimIdempotent(Get(raw, "leader").s);
    // id and leader are strings here, so `String(...)` leaves them as they are
    Round(
      Trim(Get(raw, "id").s),
      Trim(Get(raw, "leader").s),
      Get(raw, "status").s,
      Get(raw, "result").s,
      Get(raw, "phase").s,
      GroupMembers(Get(raw, "group").items),
      BoolVotes(Get(raw, "votes").items))
  }

  /** `data.filter(isRoundLike).map(normalizeRound)`. */
  function NormalizeAll(items: seq<Json>): (rs: seq<Round>)
    // the round-like records, each normalised, in their order
    ensures var like := Filter(items, IsRoundLike);
            |rs| == |like| == Count(items, IsRoundLike) && forall k :: 0 <= k < |like| ==> rs[k] == NormalizeRound(like[k])
    ensures forall r :: r in rs ==> WellFormed(r)
  {
    var rs := FilterMap(items, IsRoundLike, NormalizeRound);
    assert forall r :: r in rs ==> WellFormed(r) by {
      forall r | r in rs ensures WellFormed(r) {
        var k :| 0 <= k < |rs| && rs[k] == r;
      }
    }
    rs
  }

  /** `dedupeById(rounds)`: the `seen` Set and the `out` array of the
      source; the first round with each id is kept, in input order. */
  method DedupeById(rounds: seq<Round>) returns (out: seq<Round>)
    ensures out == DedupBy(rounds, RoundId, {})
    ensures IsSubseq(out, rounds) && DistinctKeys(out, RoundId)
    ensures Keys(out, RoundId) == Keys(rounds, RoundId)
    ensures forall i :: 0 <= i < |rounds| && FirstOfKey(rounds, RoundId, i) ==> rounds[i] in out
  {
    var seen: set<string> := {};
    out := [];
    for i := 0 to |rounds|
      invariant out + DedupBy(rounds[i..], RoundId, seen) == DedupBy(rounds, RoundId, {})
    {
      assert rounds[i..][1..] == rounds[i + 1..];
      if rounds[i].id !in seen {
        seen := seen + {rounds[i].id};
        out := out + [rounds[i]];
      }
    }
    DedupByShape(rounds, RoundId, {});
    forall i | 0 <= i < |rounds| && FirstOfKey(rounds, RoundId, i) ensures rounds[i] in out {
      DedupByKeepsFirst(rounds, RoundId, {}, i);
    }
  }

  /** The round history `getRounds` returns for the `data` array it
      received: normalised, de-duplicated by id, the first five kept. */
  function History(items: seq<Json>): seq<Round> {
    Take(DedupBy(NormalizeAll(items), RoundId, {}), MaxRounds)
  }

  /** At most five rounds, all well formed, with distinct ids, being the
      first five of the de-duplicated normalised list. */
  lemma HistoryShape(items: seq<Json>)
    ensures var h := History(items);
            && |h| <= MaxRounds
            && (forall i :: 0 <= i < |h| ==> WellFormed(h[i]))
            && DistinctKeys(h, RoundId)
            && h == DedupBy(NormalizeAll(items), RoundId, {})[..|h|]
            && (|DedupBy(NormalizeAll(items), RoundId, {})| >= MaxRounds ==> |h| == MaxRounds)
  {
    var n := NormalizeAll(items);
    var d := DedupBy(n, RoundId, {});
    DedupByShape(n, RoundId, {});
    SubseqMembers(d, n);
    var h := History(items);
    forall i | 0 <= i < |h| ensures WellFormed(h[i]) {
      assert h[i] == d[i] && d[i] in n;
    }
  }

  /** Every element of a subsequence is an element of the sequence. */
  lemma {:induction false} SubseqMembers<T>(a: seq<T>, b: seq<T>)
    requires IsSubseq(a, b)
    ensures forall x :: x in a ==> x in b
    decreases |b|
  {
    if a != [] {
      if a[0] == b[0] && IsSubseq(a[1..], b[1..]) {
        SubseqMembers(a[1..], b[1..]);
        forall x | x in a ensures x in b {
          if x != a[0] { assert x in a[1..]; assert x in b[1..]; }
        }
      } else {
        SubseqMembers(a, b[1..]);
      }
    }
  }

  /** The envelope `getRounds` resolves with. */
  datatype RoundsEnvelope = RoundsEnvelope(status: Json, msg: Json, data: seq<Round>)

  const GameIdMissing := "gameId no encontrada."
  const PlayerNameMissing := "playerName no encontrado."
  const MalformedRounds := "Malformed server response: se esperaba un arreglo o { data [] }"

  /** The body handling of `getRounds`: an object with a `data` array is the
      envelope, a bare array is wrapped with status 200 and 'Rounds found',
      anything else is malformed. */
  function ParseRoundsBody(res: Json): (r: Result<RoundsEnvelope>)
    ensures res.JArr? ==> r == Ok(RoundsEnvelope(JNum(200), JStr("Rounds found"), History(res.items)))
    ensures res.JObj? && Get(res, "data").JArr?
            ==> r.Ok? && r.value.data == History(Get(res, "data").items)
                && r.value.status == Coalesce(Get(res, "status"), JNum(200))
                && r.value.msg == Coalesce(Get(res, "msg"), JStr("Rounds found"))
    ensures !res.JArr? && !(res.JObj? && Get(res, "data").JArr?) ==> r == Thrown(MalformedRounds)
  {
    if Truthy(res) && (res.JObj? || res.JArr?) && Get(res, "data").JArr? then
      Ok(RoundsEnvelope(Coalesce(Get(res, "status"), JNum(200)),
                        Coalesce(Get(res, "msg"), JStr("Rounds found")),
                        History(Get(res, "data").items)))
    else if res.JArr? then
      Ok(RoundsEnvelope(JNum(200), JStr("Rounds found"), History(res.items)))
    else
      Thrown(MalformedRounds)
  }

  /** `getRounds`: blank identifiers throw before any request; otherwise
      the list is fetched through the cache under
      `rounds-list:<gameId>:<player>` and its body parsed. `fetched` is what
      `fetchJSON` gave, None when no request was made. */
  method GetRounds(cache: EtagCache, gameId: string, playerName: string, password: string,
                   reply: Reply, now: int)
    returns (fetched: Option<Result<Json>>, r: Result<RoundsEnvelope>)
    modifies cache
    ensures IsBlank(gameId) ==> fetched == None && r == Thrown(GameIdMissing) && cache.entries == old(cache.entries)
    ensures !IsBlank(gameId) && IsBlank(playerName)
            ==> fetched == None && r == Thrown(PlayerNameMissing) && cache.entries == old(cache.entries)
    ensures !IsBlank(gameId) && !IsBlank(playerName) ==> fetched.Some?
    // the fetch is answered as `fetchJSON` answers `reply` under the player's list key
    ensures !IsBlank(gameId) && !IsBlank(playerName)
            ==> var key := "rounds-list:" + gameId + ":" + playerName;
                fetched == Some(FetchOutcome(old(cache.entries), key, reply))
                && cache.entries == FetchStore(old(cache.entries), key, reply, now)
    ensures fetched.Some? && fetched.value.Err? ==> r == Err(fetched.value.error)
    ensures fetched.Some? && fetched.value.Ok? ==> r == ParseRoundsBody(fetched.value.value)
  {
    if IsBlank(gameId) {
      return None, Thrown(GameIdMissing);
    }
    if IsBlank(playerName) {
      return None, Thrown(PlayerNameMissing);
    }
    var cacheKey := "rounds-list:" + gameId + ":" + playerName;
    var headers := BuildHeaders(playerName, password, false, "", "");
    var sent, res := cache.FetchJson(cacheKey, headers, reply, now);
    fetched := Some(res);
    if res.Err? {
      r := Err(res.error);
      return;
    }
    r := ParseRoundsBody(res.value);
  }

  /** Whatever body arrives, a resolved history holds at most five well
      formed rounds with distinct ids. */
  lemma ParsedRoundsShape(res: Json)
    requires ParseRoundsBody(res).Ok?
    ensures var d := ParseRoundsBody(res).value.data;
            |d| <= MaxRounds && DistinctKeys(d, RoundId) && forall i :: 0 <= i < |d| ==> WellFormed(d[i])
  {
    HistoryShape(if res.JArr? then res.items else Get(res, "data").items);
  }

  /** Index of the first truthy entry of `arr` whose `id` is `roundId`
      (`arr.find(r => r && r.id === roundId)`). */
  function FindById(arr: seq<Json>, roundId: string): (k: Option<nat>)
    ensures k.Some? ==> k.value < |arr| && Truthy(arr[k.value]) && Get(arr[k.value], "id") == JStr(roundId)
    ensures k.Some? ==> forall j :: 0 <= j < k.value ==> !(Truthy(arr[j]) && Get(arr[j], "id") == JStr(roundId))
    ensures k.None? ==> forall j :: 0 <= j < |arr| ==> !(Truthy(arr[j]) && Get(arr[j], "id") == JStr(roundId))
  {
    if arr == [] then None
    else if Truthy(arr[0]) && Get(arr[0], "id") == JStr(roundId) then Some(0)
    else
      var k := FindById(arr[1..], roundId);
      assert forall j :: 1 <= j < |arr| ==> arr[j] == arr[1..][j - 1];
      if k.Some? then Some(k.value + 1) else None
  }

  /** `readRoundSnapshot`: the cached detail under `round:<game>:<round>`
      when its data is that round, else the matching entry of the cached
      list under `rounds-list:<game>`, wrapped as a list-cache envelope. */
  function ReadRoundSnapshot(cache: EtagCache, gameId: string, roundId: string): (s: Option<Json>)
    reads cache
    ensures var specific := cache.Get("round:" + gameId + ":" + roundId);
            specific.Some? && Truthy(Get(specific.value.body, "data"))
            && Get(Get(specific.value.body, "data"), "id") == JStr(roundId)
            ==> s == Some(specific.value.body)
    ensures s.Some? ==> Get(Get(s.value, "data"), "id") == JStr(roundId)
    // otherwise the cached list is searched for a truthy entry with that id
    ensures var specific := cache.Get("round:" + gameId + ":" + roundId);
            var list := cache.Get("rounds-list:" + gameId);
            var arr := if list.Some? then Get(list.value.body, "data") else JUndefined;
            !(specific.Some? && Truthy(Get(specific.value.body, "data"))
              && Get(Get(specific.value.body, "data"), "id") == JStr(roundId))
            ==> (&& (s.Some? <==> arr.JArr? && exists j :: 0 <= j < |arr.items| && Truthy(arr.items[j])
                                                             && Get(arr.items[j], "id") == JStr(roundId))
                 && (s.Some? ==> var k := FindById(arr.items, roundId).value;
                                 s.value == JObj(map["status" := JNum(200), "msg" := JStr("From list cache"),
                                                     "data" := arr.items[k]])))
  {
    var specific := cache.Get("round:" + gameId + ":" + roundId);
    if specific.Some? && Truthy(Get(specific.value.body, "data"))
       && Get(Get(specific.value.body, "data"), "id") == JStr(roundId) then
      Some(specific.value.body)
    else
      var list := cache.Get("rounds-list:" + gameId);
      var arr := if list.Some? then Get(list.value.body, "data") else JUndefined;
      if arr.JArr? then
        var k := FindById(arr.items, roundId);
        if k.Some? then
          Some(JObj(map["status" := JNum(200), "msg" := JStr("From list cache"), "data" := arr.items[k.value]]))
        else None
      else None
  }

  const RoundIdNotFound := "roundId no encontrada"

  /** `showRound`: the same identifier checks as `getRounds` plus the round
      id; with `preferCache` a snapshot already in the cache is returned at
      once, otherwise the round is fetched under
      `round:<game>:<round>:<player>`. `fetched` is what `fetchJSON` gave,
      None when no blocking request was made. */
  method ShowRound(cache: EtagCache, gameId: string, roundId: string, playerName: string, password: string,
                   preferCache: bool, reply: Reply, now: int)
    returns (fetched: Option<Result<Json>>, r: Result<Json>)
    modifies cache
    ensures IsBlank(gameId) ==> fetched == None && r == Thrown(GameIdMissing)
    ensures !IsBlank(gameId) && IsBlank(roundId) ==> fetched == None && r == Thrown(RoundIdNotFound)
    ensures !IsBlank(gameId) && !IsBlank(roundId) && IsBlank(playerName) ==> fetched == None && r == Thrown(PlayerNameMissing)
    ensures fetched == None ==> cache.entries == old(cache.entries)
    // a cached snapshot wins when the caller prefers the cache
    ensures !IsBlank(gameId) && !IsBlank(roundId) && !IsBlank(playerName) && preferCache
            && old(ReadRoundSnapshot(cache, gameId, roundId)).Some?
            ==> fetched == None && r == Ok(old(ReadRoundSnapshot(cache, gameId, roundId)).value)
    ensures !IsBlank(gameId) && !IsBlank(roundId) && !IsBlank(playerName)
            && !(preferCache && old(ReadRoundSnapshot(cache, gameId, roundId)).Some?)
            ==> var key := "round:" + gameId + ":" + roundId + ":" + playerName;
                fetched == Some(r) && r == FetchOutcome(old(cache.entries), key, reply)
                && cache.entries == FetchStore(old(cache.entries), key, reply, now)
  {
    if IsBlank(gameId) {
      return None, Thrown(GameIdMissing);
    }
    if IsBlank(roundId) {
      return None, Thrown(RoundIdNotFound);
    }
    if IsBlank(playerName) {
      return None, Thrown(PlayerNameMissing);
    }
    var cacheKey := "round:" + gameId + ":" + roundId + ":" + playerName;
    var headers := BuildHeaders(playerName, password, false, "", "");
    if preferCache {
      var snapshot := ReadRoundSnapshot(cache, gameId, roundId);
      if snapshot.Some? {
        return None, Ok(snapshot.value);
      }
    }
    var sent, res := cache.FetchJson(cacheKey, headers, reply, now);
    fetched := Some(res);
    r := res;
  }

  /** `String(name || '').trim()` of a proposed member. */
  function ProposedName(p: Json): string {
    if Truthy(p) then TrimmedStr(p) else ""
  }

  /** The non-empty trimmed names of a proposed group, in order. */
  function ProposedNames(items: seq<Json>): seq<string> {
    NonEmptyImages(items, ProposedName)
  }

  function Id(s: string): string { s }

  /** The normalisation loop of `proposeGroup`: trim, drop empties, keep the
      first occurrence of each name. */
  method NormalizeGroup(items: seq<Json>) returns (group: seq<string>)
    ensures group == DedupBy(ProposedNames(items), Id, {})
    ensures forall n :: n in group ==> Clean(n)
    ensures forall i, j :: 0 <= i < j < |group| ==> group[i] != group[j]
    ensures forall i :: 0 <= i < |items| && ProposedName(items[i]) != "" ==> ProposedName(items[i]) in group
  {
    var seen: set<string> := {};
    group := [];
    for i := 0 to |items|
      invariant group + DedupBy(ProposedNames(items[i..]), Id, seen) == DedupBy(ProposedNames(items), Id, {})
    {
      var n := ProposedName(items[i]);
      ghost var rest := ProposedNames(items[i + 1..]);
      ProposedNamesFrom(items, i);
      if n != "" {
        assert ProposedNames(items[i..]) == [n] + rest;
        DedupByCons(n, rest, Id, seen);
        if n !in seen {
          assert DedupBy([n] + rest, Id, seen) == [n] + DedupBy(rest, Id, seen + {n});
          assert group + ([n] + DedupBy(rest, Id, seen + {n})) == (group + [n]) + DedupBy(rest, Id, seen + {n});
          seen := seen + {n};
          group := group + [n];
        } else {
          assert DedupBy([n] + rest, Id, seen) == DedupBy(rest, Id, seen);
        }
      } else {
        assert ProposedNames(items[i..]) == rest;
      }
    }
    assert items[|items|..] == [];
    ProposedGroupShape(items);
  }

  /** `ProposedNames` walks the records one at a time. */
  lemma ProposedNamesFrom(items: seq<Json>, i: int)
    requires 0 <= i < |items|
    ensures ProposedNames(items[i..])
         == (if ProposedName(items[i]) != "" then [ProposedName(items[i])] else []) + ProposedNames(items[i + 1..])
  {
    assert items[i..][1..] == items[i + 1..];
  }

  /** The normalised group holds clean, distinct names and every name the
      caller gave. */
  lemma ProposedGroupShape(items: seq<Json>)
    ensures var g := DedupBy(ProposedNames(items), Id, {});
            && (forall n :: n in g ==> Clean(n))
            && (forall i, j :: 0 <= i < j < |g| ==> g[i] != g[j])
            && (forall i :: 0 <= i < |items| && ProposedName(items[i]) != "" ==> ProposedName(items[i]) in g)
  {
    var names := ProposedNames(items);
    var g := DedupBy(names, Id, {});
    DedupByShape(names, Id, {});
    SubseqMembers(g, names);
    forall n | n in g ensures Clean(n) {
      NonEmptyImagesFrom(items, ProposedName, n);
      var i :| 0 <= i < |items| && ProposedName(items[i]) == n;
    }
    forall i, j | 0 <= i < j < |g| ensures g[i] != g[j] {
      assert Id(g[i]) != Id(g[j]);
    }
    forall i | 0 <= i < |items| && ProposedName(items[i]) != "" ensures ProposedName(items[i]) in g {
      NonEmptyImagesCover(items, ProposedName, i);
      var k :| 0 <= k < |names| && names[k] == ProposedName(items[i]);
      assert Id(names[k]) in Keys(names, Id);
      assert Id(names[k]) in Keys(g, Id);
    }
  }

  /** The PATCH `proposeGroup` sends: its headers and the `{group}` body. */
  datatype PatchRequest = PatchRequest(headers: Headers, group: seq<string>)

  const GameIdRequired := "gameId es requerido"
  const RoundIdRequired := "roundId es requerido"
  const PlayerNameRequired := "playerName es requerido"
  const GroupNotArray := "El cuerpo del grupo debe ser un arreglo"
  const GroupEmpty := "El grupo no puede estar vacío"
  const RoundStateUnavailable := "No se pudo cargar el estado actual del round."
  const InvalidPhase := "No se puede proponer grupo en el estado actual del round."

  /** The argument checks of `proposeGroup`, in source order. */
  function ProposeValidation(gameId: string, roundId: string, groupArray: Json, playerName: string): Option<string> {
    if IsBlank(gameId) then Some(GameIdRequired)
    else if IsBlank(roundId) then Some(RoundIdRequired)
    else if IsBlank(playerName) then Some(PlayerNameRequired)
    else if !groupArray.JArr? then Some(GroupNotArray)
    else None
  }

  /** The message a failed PATCH throws: `msg`, else `message`, else the
      status line. */
  function PatchErrorMessage(res: Response): (m: string)
    ensures var b := res.body.GetOr(JNull);
            Truthy(b) && Truthy(Get(b, "msg")) ==> m == ToStr(Get(b, "msg"))
    ensures var b := res.body.GetOr(JNull);
            Truthy(b) && !Truthy(Get(b, "msg")) && Truthy(Get(b, "message")) ==> m == ToStr(Get(b, "message"))
    ensures var b := res.body.GetOr(JNull);
            !(Truthy(b) && (Truthy(Get(b, "msg")) || Truthy(Get(b, "message")))) ==> m == StatusLine(res)
  {
    var b := res.body.GetOr(JNull);
    if Truthy(b) && (Truthy(Get(b, "msg")) || Truthy(Get(b, "message")))
    then ToStr(Or(Get(b, "msg"), Get(b, "message")))
    else StatusLine(res)
  }

  /** `proposeGroup`. The three network calls it makes (the pre-check GET,
      the PATCH, the re-fetch GET) are given as replies. Returns the round
      it read before patching (None when it does not read one), the PATCH
      it sent (None when it sent none) and its outcome. */
  method ProposeGroup(cache: EtagCache, gameId: string, roundId: string, groupArray: Json,
                      playerName: string, password: string, idempotencyKey: string, etag: string,
                      preReply: Reply, patchReply: Reply, postReply: Reply, now: int)
    returns (current: Option<Json>, patch: Option<PatchRequest>, r: Result<Json>)
    modifies cache
    // argument errors and an empty group throw before any request
    ensures ProposeValidation(gameId, roundId, groupArray, playerName).Some?
            ==> current == None && patch == None && cache.entries == old(cache.entries)
                && r == Thrown(ProposeValidation(gameId, roundId, groupArray, playerName).value)
    ensures ProposeValidation(gameId, roundId, groupArray, playerName).None?
            && DedupBy(ProposedNames(groupArray.items), Id, {}) == []
            ==> current == None && patch == None && cache.entries == old(cache.entries) && r == Thrown(GroupEmpty)
    // past those checks: the pre-check read of `round:<game>:<round>` decides
    ensures ProposeValidation(gameId, roundId, groupArray, playerName).None?
            && DedupBy(ProposedNames(groupArray.items), Id, {}) != []
            ==> var pre := FetchOutcome(old(cache.entries), "round:" + gameId + ":" + roundId, preReply);
                && (pre.Err? ==> current == None && patch == None && r == Err(pre.error))
                && (pre.Ok? && !(Truthy(pre.value) && Truthy(Get(pre.value, "data")))
                    ==> current == None && patch == None && r == Thrown(RoundStateUnavailable))
                && (pre.Ok? && Truthy(pre.value) && Truthy(Get(pre.value, "data"))
                    ==> current == Some(Get(pre.value, "data")))
    ensures current.Some? && Get(current.value, "status") == JStr("waiting-on-leader") ==> patch.Some?
    // the PATCH goes out only after the pre-check read a round waiting on its leader
    ensures patch.Some? ==> current.Some? && Get(current.value, "status") == JStr("waiting-on-leader")
    ensures current.Some? && Get(current.value, "status") != JStr("waiting-on-leader")
            ==> patch == None && r == Thrown(InvalidPhase)
    // the group sent is the trimmed, non-empty, first-occurrence list
    ensures patch.Some? ==> groupArray.JArr? && patch.value.group == DedupBy(ProposedNames(groupArray.items), Id, {})
                            && patch.value.group != []
                            && PlayerHeader in patch.value.headers && patch.value.headers[PlayerHeader] == playerName
                            && (etag != "" ==> IfMatchHeader in patch.value.headers && patch.value.headers[IfMatchHeader] == etag)
    ensures r.Ok? ==> patch.Some?
    // after a successful PATCH the player's round and list entries are blanked
    ensures patch.Some? && patchReply.Received? && IsOk(patchReply.res)
            ==> BlankedAfterPatch(cache.entries, gameId, roundId, playerName, now)
    ensures patch.Some? && patchReply.Received? && !IsOk(patchReply.res)
            ==> r == Err(Error(PatchErrorMessage(patchReply.res), Some(patchReply.res.status)))
    // a good PATCH answers with the round read again
    ensures patch.Some? && patchReply.Received? && IsOk(patchReply.res) && postReply.Received? && IsOk(postReply.res)
            ==> r == Ok(postReply.res.body.GetOr(JNull))
    ensures patch.Some? && patchReply.Received? && IsOk(patchReply.res) && postReply.NetworkFailure?
            ==> r == Thrown(postReply.message)
    ensures patch.Some? && patchReply.NetworkFailure? ==> r == Thrown(patchReply.message)
    // the cache past the argument checks: what the pre-check read stored, and
    // after a good PATCH the blanked entries with what the re-read stored
    ensures ProposeValidation(gameId, roundId, groupArray, playerName).None?
            && DedupBy(ProposedNames(groupArray.items), Id, {}) != []
            && !(patch.Some? && patchReply.Received? && IsOk(patchReply.res))
            ==> cache.entries == FetchStore(old(cache.entries), "round:" + gameId + ":" + roundId, preReply, now)
    ensures var e1 := FetchStore(old(cache.entries), "round:" + gameId + ":" + roundId, preReply, now);
            var blanked := Blanked(e1, gameId, roundId, playerName, now);
            patch.Some? && patchReply.Received? && IsOk(patchReply.res)
            ==> r == FetchOutcome(blanked, "round:" + gameId + ":" + roundId, postReply)
                && cache.entries == FetchStore(blanked, "round:" + gameId + ":" + roundId, postReply, now)
  {
    current, patch := None, None;
    var invalid := ProposeValidation(gameId, roundId, groupArray, playerName);
    if invalid.Some? {
      r := Thrown(invalid.value);
      return;
    }
    var normalizedGroup := NormalizeGroup(groupArray.items);
    if |normalizedGroup| == 0 {
      r := Thrown(GroupEmpty);
      return;
    }
    var headers := BuildHeaders(playerName, password, true, "", idempotencyKey);
    current, patch, r := CheckPhaseAndPatch(cache, gameId, roundId, playerName, headers, normalizedGroup, etag,
                                            preReply, patchReply, postReply, now);
  }

  /** The part of `proposeGroup` after its argument checks: the pre-check
      read of the round, the phase test, then the PATCH. */
  method CheckPhaseAndPatch(cache: EtagCache, gameId: string, roundId: string, playerName: string, headers: Headers,
                            group: seq<string>, etag: string, preReply: Reply, patchReply: Reply, postReply: Reply, now: int)
    returns (current: Option<Json>, patch: Option<PatchRequest>, r: Result<Json>)
    requires playerName != "" && PlayerHeader in headers && headers[PlayerHeader] == playerName
    modifies cache
    // the pre-check read of `round:<game>:<round>`: a failure is thrown as it is, a body
    // without data throws, otherwise its data is the current round
    ensures var pre := FetchOutcome(old(cache.entries), "round:" + gameId + ":" + roundId, preReply);
            && (pre.Err? ==> current == None && patch == None && r == Err(pre.error))
            && (pre.Ok? && !(Truthy(pre.value) && Truthy(Get(pre.value, "data")))
                ==> current == None && patch == None && r == Thrown(RoundStateUnavailable))
            && (pre.Ok? && Truthy(pre.value) && Truthy(Get(pre.value, "data"))
                ==> current == Some(Get(pre.value, "data")))
    // a round waiting on its leader gets the PATCH
    ensures current.Some? && Get(current.value, "status") == JStr("waiting-on-leader") ==> patch.Some?
    // the PATCH goes out only after the pre-check read a round waiting on its leader
    ensures patch.Some? ==> current.Some? && Get(current.value, "status") == JStr("waiting-on-leader")
    ensures current.Some? && Get(current.value, "status") != JStr("waiting-on-leader")
            ==> patch == None && r == Thrown(InvalidPhase)
    ensures patch.Some? ==> patch.value.group == group
                            && PlayerHeader in patch.value.headers && patch.value.headers[PlayerHeader] == playerName
                            && (etag != "" ==> IfMatchHeader in patch.value.headers && patch.value.headers[IfMatchHeader] == etag)
    ensures r.Ok? ==> patch.Some?
    ensures patch.Some? && patchReply.Received? && IsOk(patchReply.res)
            ==> BlankedAfterPatch(cache.entries, gameId, roundId, playerName, now)
    ensures patch.Some? && patchReply.Received? && !IsOk(patchReply.res)
            ==> r == Err(Error(PatchErrorMessage(patchReply.res), Some(patchReply.res.status)))
    // a good PATCH answers with the round read again
    ensures patch.Some? && patchReply.Received? && IsOk(patchReply.res) && postReply.Received? && IsOk(postReply.res)
            ==> r == Ok(postReply.res.body.GetOr(JNull))
    ensures patch.Some? && patchReply.Received? && IsOk(patchReply.res) && postReply.NetworkFailure?
            ==> r == Thrown(postReply.message)
    ensures patch.Some? && patchReply.NetworkFailure? ==> r == Thrown(patchReply.message)
    // the cache: what the pre-check read stored, and after a good PATCH the
    // blanked entries with what the re-read stored; its outcome is the answer
    ensures var e1 := FetchStore(old(cache.entries), "round:" + gameId + ":" + roundId, preReply, now);
            !(patch.Some? && patchReply.Received? && IsOk(patchReply.res)) ==> cache.entries == e1
    ensures var e1 := FetchStore(old(cache.entries), "round:" + gameId + ":" + roundId, preReply, now);
            var blanked := Blanked(e1, gameId, roundId, playerName, now);
            patch.Some? && patchReply.Received? && IsOk(patchReply.res)
            ==> r == FetchOutcome(blanked, "round:" + gameId + ":" + roundId, postReply)
                && cache.entries == FetchStore(blanked, "round:" + gameId + ":" + roundId, postReply, now)
  {
    current, patch := None, None;
    var roundCacheKey := "round:" + gameId + ":" + roundId;
    // fetchJSON sets Accept and If-None-Match on the caller's Headers
    // object, so the later requests carry what the pre-check added
    var sent, pre := cache.FetchJson(roundCacheKey, headers, preReply, now);
    if pre.Err? {
      r := Err(pre.error);
      return;
    }
    if !(Truthy(pre.value) && Truthy(Get(pre.value, "data"))) {
      r := Thrown(RoundStateUnavailable);
      return;
    }
    current := Some(Get(pre.value, "data"));
    if Get(current.value, "status") != JStr("waiting-on-leader") {
      r := Thrown(InvalidPhase);
      return;
    }
    HeaderNamesDistinct();
    assert PlayerHeader in sent && sent[PlayerHeader] == playerName;
    var p;
    p, r := PatchGroup(cache, gameId, roundId, playerName, sent, group, etag, patchReply, postReply, now);
    patch := Some(p);
  }

  /** The Player header is none of the headers `fetchJSON` and the PATCH
      add. */
  lemma HeaderNamesDistinct()
    ensures PlayerHeader != AcceptHeader && PlayerHeader != IfNoneMatchHeader && PlayerHeader != IfMatchHeader
  {
    assert PlayerHeader[0] == 'p' && AcceptHeader[0] == 'a' && IfNoneMatchHeader[0] == 'i' && IfMatchHeader[0] == 'i';
  }

  /** After a successful PATCH: the player's round entry and round-list
      entry hold no ETag and a null body. */
  ghost predicate BlankedAfterPatch(entries: map<string, CacheEntry>, gameId: string, roundId: string,
                                    playerName: string, now: int) {
    var rk := "round:" + gameId + ":" + roundId + ":" + playerName;
    var lk := "rounds-list:" + gameId + ":" + playerName;
    && rk in entries && entries[rk] == CacheEntry(None, JNull, now)
    && lk in entries && entries[lk] == CacheEntry(None, JNull, now)
  }

  /** The entries after the two `setCache` calls of a successful PATCH:
      the player's round and round-list entries blanked, every other
      entry as it was. */
  ghost function Blanked(entries: map<string, CacheEntry>, gameId: string, roundId: string,
                         playerName: string, now: int): (e: map<string, CacheEntry>)
    ensures BlankedAfterPatch(e, gameId, roundId, playerName, now)
    ensures forall k :: k != "round:" + gameId + ":" + roundId + ":" + playerName
                        && k != "rounds-list:" + gameId + ":" + playerName
                        ==> (k in e <==> k in entries) && (k in e ==> e[k] == entries[k])
  {
    entries["round:" + gameId + ":" + roundId + ":" + playerName := CacheEntry(None, JNull, now)]
           ["rounds-list:" + gameId + ":" + playerName := CacheEntry(None, JNull, now)]
  }

  /** The PATCH of `proposeGroup` and what follows it: If-Match added to the
      shared headers, the two per-player cache entries blanked on success,
      and the round fetched again. */
  method PatchGroup(cache: EtagCache, gameId: string, roundId: string, playerName: string, headers: Headers,
                    group: seq<string>, etag: string, patchReply: Reply, postReply: Reply, now: int)
    returns (patch: PatchRequest, r: Result<Json>)
    requires playerName != ""
    modifies cache
    ensures patch == PatchRequest(if etag != "" then headers[IfMatchHeader := etag] else headers, group)
    ensures patchReply.NetworkFailure? ==> r == Thrown(patchReply.message) && cache.entries == old(cache.entries)
    ensures patchReply.Received? && !IsOk(patchReply.res)
            ==> r == Err(Error(PatchErrorMessage(patchReply.res), Some(patchReply.res.status)))
                && cache.entries == old(cache.entries)
    ensures patchReply.Received? && IsOk(patchReply.res) ==> BlankedAfterPatch(cache.entries, gameId, roundId, playerName, now)
    // the answer is the round read again after the PATCH
    ensures patchReply.Received? && IsOk(patchReply.res) && postReply.Received? && IsOk(postReply.res)
            ==> r == Ok(postReply.res.body.GetOr(JNull))
    ensures patchReply.Received? && IsOk(patchReply.res) && postReply.NetworkFailure? ==> r == Thrown(postReply.message)
    // in full: the re-read of `round:<game>:<round>` runs against the blanked entries
    ensures patchReply.Received? && IsOk(patchReply.res)
            ==> var blanked := Blanked(old(cache.entries), gameId, roundId, playerName, now);
                && r == FetchOutcome(blanked, "round:" + gameId + ":" + roundId, postReply)
                && cache.entries == FetchStore(blanked, "round:" + gameId + ":" + roundId, postReply, now)
  {
    var sent := if etag != "" then headers[IfMatchHeader := etag] else headers;
    patch := PatchRequest(sent, group);
    if patchReply.NetworkFailure? {
      r := Thrown(patchReply.message);
      return;
    }
    if !IsOk(patchReply.res) {
      r := Err(Error(PatchErrorMessage(patchReply.res), Some(patchReply.res.status)));
      return;
    }
    var roundCacheKey := "round:" + gameId + ":" + roundId;
    var roundKey := "round:" + gameId + ":" + roundId + ":" + playerName;
    var listKey := "rounds-list:" + gameId + ":" + playerName;
    cache.Set(roundKey, None, JNull, now);
    cache.Set(listKey, None, JNull, now);
    assert cache.entries == Blanked(old(cache.entries), gameId, roundId, playerName, now);
    assert roundCacheKey != roundKey by {
      assert |roundKey| > |roundCacheKey|;
    }
    assert roundCacheKey != listKey by {
      assert roundCacheKey[5] == ':' && listKey[5] == 's';
    }
    var sent2, post := cache.FetchJson(roundCacheKey, sent, postReply, now);
    r := post;
  }

  /** The request `voteForGroup` or `submitAction` sends: headers and the
      JSON body. */
  datatype RoundRequest = RoundRequest(headers: Headers, body: Json)

  const VoteNotBoolean := "El voto debe ser un valor booleano (true/false)"
  const ActionNotBoolean := "La acción debe ser un valor booleano (true/false)"

  /** The argument checks shared by `voteForGroup` and `submitAction`, in
      source order, with the message for a non-boolean choice. */
  function ChoiceValidation(gameId: string, roundId: string, playerName: string, choice: Json,
                            notBoolean: string): (e: Option<string>)
    ensures e.None? <==> !IsBlank(gameId) && !IsBlank(roundId) && !IsBlank(playerName) && choice.JBool?
    ensures IsBlank(gameId) ==> e == Some(GameIdRequired)
    ensures !IsBlank(gameId) && IsBlank(roundId) ==> e == Some(RoundIdRequired)
    ensures !IsBlank(gameId) && !IsBlank(roundId) && IsBlank(playerName) ==> e == Some(PlayerNameRequired)
    ensures !IsBlank(gameId) && !IsBlank(roundId) && !IsBlank(playerName) && !choice.JBool? ==> e == Some(notBoolean)
  {
    if IsBlank(gameId) then Some(GameIdRequired)
    else if IsBlank(roundId) then Some(RoundIdRequired)
    else if IsBlank(playerName) then Some(PlayerNameRequired)
    else if !choice.JBool? then Some(notBoolean)
    else None
  }

  /** The headers of a vote or action: the trimmed player, the trimmed
      password when it is not blank, If-Match and Idempotency-Key when set. */
  function ChoiceHeaders(playerName: string, password: string, etag: string, idempotencyKey: string): (h: Headers)
    ensures PlayerHeader in h && h[PlayerHeader] == Trim(playerName)
    ensures AcceptHeader in h && ContentTypeHeader in h
    ensures (PasswordHeader in h) == !IsBlank(password)
    ensures PasswordHeader in h ==> h[PasswordHeader] == Trim(password)
    ensures (IfMatchHeader in h) == (etag != "") && (IdempotencyHeader in h) == (idempotencyKey != "")
    ensures AcceptHeader in h && h[AcceptHeader] == JsonMediaType
    ensures ContentTypeHeader in h && h[ContentTypeHeader] == JsonMediaType
    ensures etag != "" ==> h[IfMatchHeader] == etag
    ensures idempotencyKey != "" ==> h[IdempotencyHeader] == idempotencyKey
    ensures h.Keys <= {AcceptHeader, ContentTypeHeader, PlayerHeader, PasswordHeader, IfMatchHeader, IdempotencyHeader}
  {
    TrimmedChoiceHeaders(Trim(playerName), Trim(password), etag, idempotencyKey)
  }

  /** The same headers from the already trimmed player and password. */
  function TrimmedChoiceHeaders(player: string, pw: string, etag: string, idempotencyKey: string): (h: Headers)
    ensures PlayerHeader in h && h[PlayerHeader] == player
    ensures AcceptHeader in h && ContentTypeHeader in h
    ensures (PasswordHeader in h) == (pw != "") && (pw != "" ==> h[PasswordHeader] == pw)
    ensures (IfMatchHeader in h) == (etag != "") && (IdempotencyHeader in h) == (idempotencyKey != "")
    ensures AcceptHeader in h && h[AcceptHeader] == JsonMediaType
    ensures ContentTypeHeader in h && h[ContentTypeHeader] == JsonMediaType
    ensures etag != "" ==> h[IfMatchHeader] == etag
    ensures idempotencyKey != "" ==> h[IdempotencyHeader] == idempotencyKey
    ensures h.Keys <= {AcceptHeader, ContentTypeHeader, PlayerHeader, PasswordHeader, IfMatchHeader, IdempotencyHeader}
  {
    var h0 := map[AcceptHeader := JsonMediaType, ContentTypeHeader := JsonMediaType, PlayerHeader := player];
    var h1 := if pw != "" then h0[PasswordHeader := pw] else h0;
    var h2 := if etag != "" then h1[IfMatchHeader := etag] else h1;
    if idempotencyKey != "" then h2[IdempotencyHeader := idempotencyKey] else h2
  }

  /** `voteForGroup`: returns the POST it sends (None when validation
      throws first) and the server's answer through `handleResponse`. */
  function VoteForGroup(gameId: string, roundId: string, vote: Json, playerName: string, password: string,
                        etag: string, idempotencyKey: string, reply: Reply): (out: (Option<RoundRequest>, Result<Json>))
    ensures var e := ChoiceValidation(gameId, roundId, playerName, vote, VoteNotBoolean);
            e.Some? ==> out.0 == None && out.1 == Thrown(e.value)
    // a call that passes the checks sends its request
    ensures out.0.Some? <==> ChoiceValidation(gameId, roundId, playerName, vote, VoteNotBoolean).None?
    ensures out.0.Some? ==> vote.JBool? && out.0.value.body == JObj(map["vote" := vote])
                            && out.0.value.headers == ChoiceHeaders(playerName, password, etag, idempotencyKey)
    ensures out.0.Some? ==> out.1 == HandleResponse(reply)
  {
    var e := ChoiceValidation(gameId, roundId, playerName, vote, VoteNotBoolean);
    if e.Some? then (None, Thrown(e.value))
    else (Some(RoundRequest(ChoiceHeaders(playerName, password, etag, idempotencyKey), JObj(map["vote" := vote]))),
          HandleResponse(reply))
  }

  /** `submitAction`: the same checks and headers, body `{action}`, sent
      with PUT. */
  function SubmitAction(gameId: string, roundId: string, collaborate: Json, playerName: string, password: string,
                        etag: string, idempotencyKey: string, reply: Reply): (out: (Option<RoundRequest>, Result<Json>))
    ensures var e := ChoiceValidation(gameId, roundId, playerName, collaborate, ActionNotBoolean);
            e.Some? ==> out.0 == None && out.1 == Thrown(e.value)
    // a call that passes the checks sends its request
    ensures out.0.Some? <==> ChoiceValidation(gameId, roundId, playerName, collaborate, ActionNotBoolean).None?
    ensures out.0.Some? ==> collaborate.JBool? && out.0.value.body == JObj(map["action" := collaborate])
                            && out.0.value.headers == ChoiceHeaders(playerName, password, etag, idempotencyKey)
    ensures out.0.Some? ==> out.1 == HandleResponse(reply)
  {
    var e := ChoiceValidation(gameId, roundId, playerName, collaborate, ActionNotBoolean);
    if e.Some? then (None, Thrown(e.value))
    else (Some(RoundRequest(ChoiceHeaders(playerName, password, etag, idempotencyKey), JObj(map["action" := collaborate]))),
          HandleResponse(reply))
  }
}
