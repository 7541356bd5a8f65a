/** The pure rules of the in-game screen (In-Game.jsx): the group-size
    table, the vote tally, the finish test, the round-status to screen-phase
    switch, the decade and score counts over the round history, roles, the
    polling interval, the leader's draft toggle and the group a submit
    sends, and the choice of the active round. */
module InGameRules {
  import opened Wrappers
  import opened Text
  import opened Json
  import opened Seqs
  import opened RoundsApi

  const MaxDecades := 5
  const WinTarget := 3

  /** `GROUP_SIZES`, rows for 5 to 10 players, indexed by decade; index 0
      of each row is a placeholder. */
  const GroupSizes: seq<seq<int>> := [
    [0, 2, 3, 2, 3, 3],
    [0, 2, 3, 4, 3, 4],
    [0, 2, 3, 3, 4, 4],
    [0, 3, 4, 4, 5, 5],
    [0, 3, 4, 4, 5, 5],
    [0, 3, 4, 4, 5, 5]]

  /** `clamp(n, lo, hi)`: `n` brought into `[lo, hi]`. */
  function Clamp(n: int, lo: int, hi: int): (r: int)
    requires lo <= hi
    ensures lo <= r <= hi
    ensures lo <= n <= hi ==> r == n
    ensures n < lo ==> r == lo
    ensures n > hi ==> r == hi
  {
    if n < lo then lo else if n > hi then hi else n
  }

  /** `requiredGroupSize(totalPlayers, decade)`: both arguments are clamped
      into the table, so the `: 0` fallback and the placeholder column are
      never reached and every size is between 2 and 5, below the (clamped)
      number of players. */
  function RequiredGroupSize(totalPlayers: int, decade: int): (k: int)
    ensures 2 <= k <= 5
    ensures k <= Clamp(totalPlayers, 5, 10) - 2
  {
    GroupSizes[Clamp(totalPlayers, 5, 10) - 5][Clamp(decade, 1, 5)]
  }

  /** Only the clamped arguments matter: fewer than five players read the
      five-player row, more than ten the ten-player row, and decades outside
      1..5 read the first or the fifth column. */
  lemma RequiredGroupSizeClamps(totalPlayers: int, decade: int)
    ensures RequiredGroupSize(totalPlayers, decade) == RequiredGroupSize(Clamp(totalPlayers, 5, 10), Clamp(decade, 1, 5))
  {
  }

  /** The table itself, decade by decade. */
  lemma RequiredGroupSizeTable(totalPlayers: int)
    ensures var p := Clamp(totalPlayers, 5, 10);
            && RequiredGroupSize(totalPlayers, 1) == (if p <= 7 then 2 else 3)
            && RequiredGroupSize(totalPlayers, 2) == (if p <= 7 then 3 else 4)
            && RequiredGroupSize(totalPlayers, 3) == (if p == 5 then 2 else if p == 6 then 4 else if p == 7 then 3 else 4)
            && RequiredGroupSize(totalPlayers, 4) == (if p <= 6 then 3 else if p == 7 then 4 else 5)
            && RequiredGroupSize(totalPlayers, 5) == (if p == 5 then 3 else if p <= 7 then 4 else 5)
  {
  }

  /** `calculateVotes` result. `pending` is not clamped at zero. */
  datatype VoteInfo = VoteInfo(yes: nat, no: nat, total: nat, allVoted: bool, pending: int)

  predicate IsYes(v: Json) { v == JBool(true) }
  predicate IsNo(v: Json) { v == JBool(false) }

  /** `calculateVotes(votesArray, playersCount)`. */
  function CalculateVotes(votes: Json, playersCount: int): (v: VoteInfo)
    ensures !votes.JArr? ==> v == VoteInfo(0, 0, 0, false, playersCount)
    ensures votes.JArr? ==> v.total == |votes.items| && v.pending == playersCount - v.total
    ensures votes.JArr? ==> v.yes == Count(votes.items, IsYes) && v.no == Count(votes.items, IsNo)
    ensures votes.JArr? ==> (v.allVoted <==> v.pending <= 0)
    ensures v.yes + v.no <= v.total
  {
    if !votes.JArr? then VoteInfo(0, 0, 0, false, playersCount)
    else
      var items := votes.items;
      assert Count(items, IsYes) + Count(items, IsNo) <= |items| by {
        CountSplit(items, IsYes, IsNo);
      }
      VoteInfo(Count(items, IsYes), Count(items, IsNo), |items|, |items| >= playersCount, playersCount - |items|)
  }

  /** A list holding booleans only splits exactly into yes and no votes. */
  lemma BooleanVotesSplit(items: seq<Json>, playersCount: int)
    requires forall i :: 0 <= i < |items| ==> items[i].JBool?
    ensures var v := CalculateVotes(JArr(items), playersCount); v.yes + v.no == v.total
  {
    CountSplit(items, IsYes, IsNo);
  }

  /** The votes of a normalised round as the JSON booleans they came from. */
  function VotesJson(votes: seq<bool>): (items: seq<Json>)
    ensures |items| == |votes|
    ensures forall i :: 0 <= i < |votes| ==> items[i] == JBool(votes[i])
  {
    Map(votes, (b: bool) => JBool(b))
  }

  /** The tally of a normalised round's votes: the trues, the falses, all
      of them, and `playersCount` minus their number still pending. */
  lemma {:induction false} TallyOfRound(votes: seq<bool>, playersCount: int)
    ensures var v := CalculateVotes(JArr(VotesJson(votes)), playersCount);
            && v.yes == Count(votes, (b: bool) => b)
            && v.no == Count(votes, (b: bool) => !b)
            && v.yes + v.no == |votes|
  {
    var items := VotesJson(votes);
    BooleanVotesSplit(items, playersCount);
    if votes != [] {
      TallyOfRound(votes[1..], playersCount);
      assert VotesJson(votes[1..]) == items[1..];
    }
  }

  /** A scoreboard. */
  datatype Scores = Scores(citizens: nat, enemies: nat)

  /** `isGameFinished()` over the scores and decade it reads. */
  predicate IsGameFinished(scores: Scores, decade: int) {
    scores.citizens >= WinTarget || scores.enemies >= WinTarget || decade > MaxDecades
  }

  /** A round counted toward the decade: ended with a result. */
  predicate Completed(r: Round) { r.status == "ended" && r.result != "none" }
  predicate CitizensWon(r: Round) { r.result == "citizens" }
  predicate EnemiesWon(r: Round) { r.result == "enemies" }

  /** The decade derived from the history: completed rounds plus one,
      capped at five. */
  function Decade(rounds: seq<Round>): (d: int)
    ensures 1 <= d <= MaxDecades
    ensures d == MaxDecades || d == Count(rounds, Completed) + 1
  {
    if Count(rounds, Completed) + 1 < MaxDecades then Count(rounds, Completed) + 1 else MaxDecades
  }

  /** The scores derived from the history: rounds by result, whatever
      their status. */
  function ScoresOf(rounds: seq<Round>): (s: Scores)
    ensures s.citizens + s.enemies <= |rounds|
  {
    CountSplit(rounds, CitizensWon, EnemiesWon);
    Scores(Count(rounds, CitizensWon), Count(rounds, EnemiesWon))
  }

  /** A derived decade never passes five, so a game finishes only when a
      side reaches three wins. */
  lemma FinishedOnlyByScore(rounds: seq<Round>)
    ensures IsGameFinished(ScoresOf(rounds), Decade(rounds))
            <==> ScoresOf(rounds).citizens >= WinTarget || ScoresOf(rounds).enemies >= WinTarget
  {
  }

  /** Over well-formed rounds every completed round is a win for one side,
      so the decade is at most one more than the rounds won. */
  lemma {:induction false} CompletedAreWins(rounds: seq<Round>)
    requires forall i :: 0 <= i < |rounds| ==> rounds[i].result in Results
    ensures Count(rounds, Completed) <= Count(rounds, CitizensWon) + Count(rounds, EnemiesWon)
  {
    if rounds != [] {
      assert rounds[0].result in Results;
      assert forall i :: 0 <= i < |rounds[1..]| ==> rounds[1..][i] == rounds[i + 1];
      CompletedAreWins(rounds[1..]);
    }
  }

  lemma DecadeBoundedByScores(rounds: seq<Round>)
    requires forall i :: 0 <= i < |rounds| ==> WellFormed(rounds[i])
    ensures Decade(rounds) <= ScoresOf(rounds).citizens + ScoresOf(rounds).enemies + 1
  {
    assert forall i :: 0 <= i < |rounds| ==> rounds[i].result in Results by {
      forall i | 0 <= i < |rounds| ensures rounds[i].result in Results {
        assert WellFormed(rounds[i]);
      }
    }
    CompletedAreWins(rounds);
  }

  /** The voting sub-phase number: vote2 is 2, vote3 is 3, anything else 1. */
  function SubPhase(phase: string): (n: int)
    ensures 1 <= n <= 3
    ensures n == 2 <==> phase == "vote2"
    ensures n == 3 <==> phase == "vote3"
  {
    if phase == "vote2" then 2 else if phase == "vote3" then 3 else 1
  }

  /** The screen phases. */
  const UiPhases: seq<string> := ["waiting-on-leader", "choose-group", "voting", "waiting-on-group", "between-rounds", "ended"]

  /** `amLeader`: the trimmed leader is the trimmed player. */
  predicate AmLeader(leader: string, player: string) {
    Trim(leader) == Trim(player)
  }

  /** The phase switch of `updateFullGameState`. */
  function DerivePhase(finished: bool, status: string, amLeader: bool): (p: string)
    ensures p in UiPhases
    ensures (p == "ended") == finished
    ensures !finished ==> (p == "choose-group" <==> status == "waiting-on-leader" && amLeader)
    ensures !finished && status == "voting" ==> p == "voting"
    ensures !finished && status == "waiting-on-group" ==> p == "waiting-on-group"
    ensures !finished && status == "ended" ==> p == "between-rounds"
    ensures !finished && !(status in ["voting", "waiting-on-group", "ended"]) && !(status == "waiting-on-leader" && amLeader)
            ==> p == "waiting-on-leader"
  {
    if finished then "ended"
    else if status == "waiting-on-leader" then (if amLeader then "choose-group" else "waiting-on-leader")
    else if status == "voting" then "voting"
    else if status == "waiting-on-group" then "waiting-on-group"
    else if status == "ended" then "between-rounds"
    else "waiting-on-leader"
  }

  /** `getPollingInterval()`: milliseconds between passes. */
  function PollingInterval(decade: int, phase: string, isLeader: bool): (ms: int)
    ensures (phase == "voting" || phase == "waiting-on-group") ==> ms <= 2000 && ms <= 3000 + 500 * decade
    ensures phase == "choose-group" && isLeader ==> ms == 3000
    ensures !(phase in ["voting", "waiting-on-group"]) && !(phase == "choose-group" && isLeader) ==> ms == 3000 + 500 * decade
  {
    var base := 3000 + decade * 500;
    if phase == "voting" || phase == "waiting-on-group" then (if base < 2000 then base else 2000)
    else if phase == "choose-group" && isLeader then 3000
    else base
  }

  /** For every decade the screen can hold, voting and waiting on the group
      poll every 2 seconds, faster than any other phase. */
  lemma PollingForDerivedDecade(decade: int, phase: string, isLeader: bool)
    requires 1 <= decade <= MaxDecades
    ensures (phase == "voting" || phase == "waiting-on-group") ==> PollingInterval(decade, phase, isLeader) == 2000
    ensures !(phase in ["voting", "waiting-on-group"]) ==> 3000 <= PollingInterval(decade, phase, isLeader) <= 5500
  {
  }

  /** The value `details?.enemies`. */
  function Enemies(details: Json): Json {
    if IsNullish(details) then JUndefined else Get(details, "enemies")
  }

  /** `arr.includes(x)` for values freshly parsed from JSON: a primitive is
      found by value; an object or array parsed elsewhere is never the same
      reference as an entry of `arr`. */
  predicate Includes(arr: Json, x: Json) {
    arr.JArr? && x in arr.items && !(x.JObj? || x.JArr?)
  }

  /** `Array.isArray(details?.enemies) && details.enemies.includes(name)`. */
  predicate IsEnemy(details: Json, name: Json) {
    Includes(Enemies(details), name)
  }

  /** `serverRole`. */
  function ServerRole(details: Json, player: string): (role: string)
    ensures role == "psychopath" || role == "citizen"
    ensures role == "psychopath" <==> Enemies(details).JArr? && JStr(player) in Enemies(details).items
  {
    if IsEnemy(details, JStr(player)) then "psychopath" else "citizen"
  }

  /** The label and list class the player list shows for entry `p`. */
  function DisplayRole(p: Json, leaderName: string, player: string, details: Json): (shown: (string, string))
    ensures shown.0 in ["Psicópata", "Ciudadano", "Líder"]
    ensures shown.1 == (if shown.0 == "Psicópata" then "psychopath" else if shown.0 == "Líder" then "leader" else "citizen")
  {
    var isEnemy := IsEnemy(details, p);
    var viewerIsEnemy := IsEnemy(details, JStr(player));
    if p == JStr(player) then
      (if viewerIsEnemy then ("Psicópata", "psychopath") else ("Ciudadano", "citizen"))
    else if p == JStr(leaderName) then ("Líder", "leader")
    else if viewerIsEnemy && isEnemy then ("Psicópata", "psychopath")
    else ("Ciudadano", "citizen")
  }

  /** What the player list reveals: the player sees their own server role,
      a citizen sees no psychopath, a psychopath sees the other psychopaths
      except the leader, and another leader always shows as leader. */
  lemma DisplayRoleReveals(p: Json, leaderName: string, player: string, details: Json)
    ensures var tag := DisplayRole(p, leaderName, player, details).0;
            && (p == JStr(player) ==> (tag == "Psicópata" <==> ServerRole(details, player) == "psychopath"))
            && (tag == "Psicópata" ==> ServerRole(details, player) == "psychopath")
            && (p != JStr(player) && p != JStr(leaderName) ==> (tag == "Psicópata" <==> IsEnemy(details, JStr(player)) && IsEnemy(details, p)))
            && (p != JStr(player) && p == JStr(leaderName) ==> tag == "Líder")
  {
  }

  /** The updater `handlePlayerSelection` applies to the draft: a member is
      removed (every copy of it), a newcomer appended while the draft is
      below `requiredTotal`. */
  function Toggle(draft: seq<string>, player: string, requiredTotal: int): (next: seq<string>)
    ensures player in draft ==> player !in next
    ensures player !in draft ==> (player in next <==> |draft| < requiredTotal)
    ensures forall q :: q != player ==> (q in next <==> q in draft)
    ensures |next| <= |draft| || |next| <= requiredTotal
    ensures |draft| <= requiredTotal ==> |next| <= requiredTotal
  {
    if player in draft then
      var next := Filter(draft, (q: string) => q != player);
      assert forall q :: q != player && q in draft ==> q in next by {
        forall q | q != player && q in draft ensures q in next {
          FilterKeeps(draft, (q': string) => q' != player, q);
        }
      }
      next
    else if |draft| < requiredTotal then draft + [player]
    else draft
  }

  /** Toggling a newcomer in and out again restores the membership. */
  lemma ToggleTwice(draft: seq<string>, player: string, requiredTotal: int)
    requires player !in draft && |draft| < requiredTotal
    ensures Toggle(Toggle(draft, player, requiredTotal), player, requiredTotal) == draft
  {
    var next := draft + [player];
    var back := Filter(next, (q: string) => q != player);
    FilterKeepsAll(draft, (q: string) => q != player);
    FilterAppendDropped(draft, player, (q: string) => q != player);
  }

  lemma {:induction false} FilterKeepsAll<T>(s: seq<T>, p: T -> bool)
    requires forall i :: 0 <= i < |s| ==> p(s[i])
    ensures Filter(s, p) == s
  {
    if s != [] {
      FilterKeepsAll(s[1..], p);
    }
  }

  lemma {:induction false} FilterAppendDropped<T>(s: seq<T>, x: T, p: T -> bool)
    requires !p(x)
    ensures Filter(s + [x], p) == Filter(s, p)
  {
    if s == [] {
      assert [x][1..] == [];
    } else {
      assert (s + [x])[1..] == s[1..] + [x];
      FilterAppendDropped(s[1..], x, p);
    }
  }

  /** `Array.from(new Set(proposedGroup)).slice(0, requiredTotal)` and the
      length check of `handleSubmitGroup`: None when the draft is rejected. */
  function GroupToSubmit(draft: seq<string>, requiredTotal: nat): (g: Option<seq<string>>)
    ensures g.Some? ==> |g.value| == requiredTotal && DistinctKeys(g.value, Id)
    ensures g.Some? ==> forall m :: m in g.value ==> m in draft
    ensures g.Some? <==> |DedupBy(draft, Id, {})| >= requiredTotal
    // the first `requiredTotal` distinct names, in the order they were picked
    ensures g.Some? ==> g.value == DedupBy(draft, Id, {})[..requiredTotal]
  {
    var d := DedupBy(draft, Id, {});
    DedupByShape(draft, Id, {});
    SubseqMembers(d, draft);
    var t := Take(d, requiredTotal);
    assert DistinctKeys(t, Id) by {
      forall i, j | 0 <= i < j < |t| ensures Id(t[i]) != Id(t[j]) {
        assert t[i] == d[i] && t[j] == d[j];
      }
    }
    if |t| != requiredTotal then None else Some(t)
  }

  /** A draft of the required length is sent as it is when its names are
      distinct, and rejected when one repeats. */
  lemma SubmitDraftOfRequiredLength(draft: seq<string>, requiredTotal: nat)
    requires |draft| == requiredTotal
    ensures GroupToSubmit(draft, requiredTotal).Some? <==> DistinctKeys(draft, Id)
    ensures DistinctKeys(draft, Id) ==> GroupToSubmit(draft, requiredTotal) == Some(draft)
  {
    var d := DedupBy(draft, Id, {});
    DedupByShape(draft, Id, {});
    SubseqLength(d, draft);
    if DistinctKeys(draft, Id) {
      DedupByDistinct(draft, Id, {});
    }
  }

  /** The last index below `n` whose round is not ended. */
  function LastOpen(rounds: seq<Round>, n: nat): (k: Option<nat>)
    requires n <= |rounds|
    ensures k.Some? ==> k.value < n && rounds[k.value].status != "ended"
                        && forall j :: k.value < j < n ==> rounds[j].status == "ended"
    ensures k.None? ==> forall j :: 0 <= j < n ==> rounds[j].status == "ended"
  {
    if n == 0 then None
    else if rounds[n - 1].status != "ended" then Some(n - 1)
    else LastOpen(rounds, n - 1)
  }

  /** The round `getActiveRound` picks from a non-empty list: the last one
      not ended, or the last one when all are ended. */
  function ActiveRound(rounds: seq<Round>): (r: Option<Round>)
    ensures r.None? <==> rounds == []
    ensures r.Some? ==> r.value in rounds
    ensures (exists j :: 0 <= j < |rounds| && rounds[j].status != "ended")
            ==> r.Some? && r.value.status != "ended"
                && exists k :: 0 <= k < |rounds| && r.value == rounds[k]
                               && forall j :: k < j < |rounds| ==> rounds[j].status == "ended"
    ensures rounds != [] && (forall j :: 0 <= j < |rounds| ==> rounds[j].status == "ended")
            ==> r == Some(rounds[|rounds| - 1])
  {
    if rounds == [] then None
    else
      match LastOpen(rounds, |rounds|)
      case Some(k) => Some(rounds[k])
      case None => Some(rounds[|rounds| - 1])
  }

  /** The backward scan of `getActiveRound`. */
  method FindActiveRound(rounds: seq<Round>) returns (r: Option<Round>)
    ensures r == ActiveRound(rounds)
  {
    if |rounds| == 0 {
      return None;
    }
    var i := |rounds| - 1;
    while i >= 0
      invariant -1 <= i < |rounds|
      invariant LastOpen(rounds, i + 1) == LastOpen(rounds, |rounds|)
    {
      if rounds[i].status != "ended" {
        return Some(rounds[i]);
      }
      i := i - 1;
    }
    r := Some(rounds[|rounds| - 1]);
  }
}
