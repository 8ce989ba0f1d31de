/**
 * Seeding (app/services/seeding_service.py): totals of the seeding room's
 * scores per competitor, provisional placements by descending total, and
 * finalisation into placements. The room's playlist is a parameter: one
 * entry per map, None where fetching that map's scores failed, and the
 * whole playlist None when the room could not be fetched.
 */
module SeedingService {
  import opened Common
  import opened Text
  import opened Sorting
  import opened SiteData
  import opened MatchService

  /** The sum of the totals uid scored on one map. */
  function MapTotal(scores: seq<Score>, uid: int): int {
    if scores == [] then 0
    else MapTotal(scores[..|scores| - 1], uid) +
         (if scores[|scores| - 1].userId == uid then scores[|scores| - 1].totalScore else 0)
  }

  /** The sum over all fetched maps. */
  function Total(items: seq<Option<seq<Score>>>, uid: int): int {
    if items == [] then 0
    else Total(items[..|items| - 1], uid) +
         (if items[|items| - 1].Some? then MapTotal(items[|items| - 1].value, uid) else 0)
  }

  /** What get_seeding_scores returns: each competitor's total, for totals above 0. */
  function SeedingTotals(room: Option<seq<Option<seq<Score>>>>, ids: seq<int>): (r: map<int, int>)
    ensures room.None? || room == Some([]) ==> r == map[]
    ensures forall u :: u in r <==> room.Some? && room.value != [] && u in ids && Total(room.value, u) > 0
    ensures forall u :: u in r ==> r[u] == Total(room.value, u) > 0
  {
    if room.None? || room.value == [] then map[]
    else map u | u in ids && Total(room.value, u) > 0 :: Total(room.value, u)
  }

  /** get_seeding_scores: a counter per competitor, bumped by each of its scores. */
  method GetSeedingScores(room: Option<seq<Option<seq<Score>>>>, ids: seq<int>) returns (r: map<int, int>)
    ensures r == SeedingTotals(room, ids)
  {
    if room.None? || room.value == [] {
      return map[];
    }
    var items := room.value;
    var acc: map<int, int> := map[];
    var c := 0;
    while c < |ids|
      invariant 0 <= c <= |ids|
      invariant acc.Keys == set u | u in ids[..c]
      invariant forall u :: u in acc ==> acc[u] == 0
    {
      acc := acc[ids[c] := 0];
      assert ids[..c + 1] == ids[..c] + [ids[c]];
      c := c + 1;
    }
    assert ids[..c] == ids;
    var k := 0;
    while k < |items|
      invariant 0 <= k <= |items|
      invariant acc.Keys == set u | u in ids
      invariant forall u :: u in acc ==> acc[u] == Total(items[..k], u)
    {
      assert items[..k + 1][..k] == items[..k];
      if items[k].Some? {
        var scores := items[k].value;
        var j := 0;
        while j < |scores|
          invariant 0 <= j <= |scores|
          invariant acc.Keys == set u | u in ids
          invariant forall u :: u in acc ==> acc[u] == Total(items[..k], u) + MapTotal(scores[..j], u)
        {
          assert scores[..j + 1][..j] == scores[..j];
          if scores[j].userId in ids {
            acc := acc[scores[j].userId := acc[scores[j].userId] + scores[j].totalScore];
          }
          j := j + 1;
        }
        assert scores[..j] == scores;
      }
      k := k + 1;
    }
    assert items[..k] == items;
    r := map u | u in acc && acc[u] > 0 :: acc[u];
  }

  /** `[c['id'] for c in competitors if c.get('id')]`. */
  function CompetitorIds(comps: seq<Competitor>): (r: seq<int>)
    ensures forall u :: u in r <==> u != 0 && exists c :: c in comps && c.id == Some(u)
  {
    if comps == [] then []
    else
      var rest := CompetitorIds(comps[1..]);
      assert forall c :: c in comps <==> c == comps[0] || c in comps[1..];
      (if comps[0].id.Some? && comps[0].id.value != 0 then [comps[0].id.value] else []) + rest
  }

  /** The seeding total of a competitor, when it has one. */
  function ScoreOf(scores: map<int, int>, c: Competitor): Option<int> {
    if c.id.Some? && c.id.value in scores then Some(scores[c.id.value]) else None
  }

  /** A competitor after the first loop of update_seeding_scores. */
  function Scoring(c: Competitor, scores: map<int, int>): (r: Competitor)
    ensures r.seedingScore == ScoreOf(scores, c)
    ensures ScoreOf(scores, c).None? ==> r.provisional.None?
    ensures ScoreOf(scores, c).Some? ==> r.provisional == c.provisional
    ensures r.(seedingScore := c.seedingScore, provisional := c.provisional) == c
  {
    match ScoreOf(scores, c)
    case Some(s) => c.(seedingScore := Some(s))
    case None => c.(seedingScore := None, provisional := None)
  }

  /** The positions of the competitors that scored, in list order. */
  function Seeded(comps: seq<Competitor>, scores: map<int, int>): (r: seq<nat>)
    ensures forall k :: 0 <= k < |r| ==> r[k] < |comps| && ScoreOf(scores, comps[r[k]]).Some?
    ensures forall i :: 0 <= i < |comps| && ScoreOf(scores, comps[i]).Some? ==> i in r
    ensures forall a, b :: 0 <= a < b < |r| ==> r[a] < r[b]
  {
    if comps == [] then []
    else
      var rest := Seeded(comps[..|comps| - 1], scores);
      if ScoreOf(scores, comps[|comps| - 1]).Some? then rest + [|comps| - 1] else rest
  }

  /** The sort key of seeded_players.sort(key=seeding_score, reverse=True), as an ascending key. */
  function RankKey(comps: seq<Competitor>, scores: map<int, int>): nat -> (int, int) {
    (i: nat) => if i < |comps| && ScoreOf(scores, comps[i]).Some? then (-ScoreOf(scores, comps[i]).value, 0) else (0, 0)
  }

  /** The seeded positions in placement order: a stable sort by descending total. */
  function Ranked(comps: seq<Competitor>, scores: map<int, int>): seq<nat> {
    SortBy(Seeded(comps, scores), RankKey(comps, scores))
  }

  predicate Distinct(s: seq<nat>) {
    forall a, b :: 0 <= a < b < |s| ==> s[a] != s[b]
  }

  /** A permutation of a sequence without repeats has none. */
  lemma PermutationDistinct(s: seq<nat>, t: seq<nat>)
    requires Distinct(s) && multiset(s) == multiset(t)
    ensures Distinct(t)
  {
    forall a, b | 0 <= a < b < |t|
      ensures t[a] != t[b]
    {
      if t[a] == t[b] {
        var t' := t[..b] + t[b + 1..];
        assert t == t' [..b] + [t[b]] + t[b + 1..];
        assert t[a] in t';
        assert multiset(t) == multiset(t') + multiset{t[b]};
        assert multiset(s)[t[a]] >= 2;
        CountOne(s, t[a]);
      }
    }
  }

  /** A value occurs at most once in a distinct sequence. */
  lemma {:induction false} CountOne(s: seq<nat>, x: nat)
    requires Distinct(s)
    ensures multiset(s)[x] <= 1
  {
    if s != [] {
      var t := s[..|s| - 1];
      assert s == t + [s[|s| - 1]];
      assert Distinct(t);
      CountOne(t, x);
      if s[|s| - 1] == x {
        assert x !in t;
      }
    }
  }

  /** The placement order holds each scoring competitor, and nothing else. */
  lemma RankedMembers(comps: seq<Competitor>, scores: map<int, int>)
    ensures var r := Ranked(comps, scores);
            (forall k :: 0 <= k < |r| ==> r[k] < |comps| && ScoreOf(scores, comps[r[k]]).Some?) &&
            (forall i :: 0 <= i < |comps| && ScoreOf(scores, comps[i]).Some? ==> i in r)
  {
    var s := Seeded(comps, scores);
    var r := Ranked(comps, scores);
    assert multiset(r) == multiset(s);
    forall k | 0 <= k < |r|
      ensures r[k] in s
    {
      assert r[k] in multiset(r);
    }
    forall i | 0 <= i < |comps| && ScoreOf(scores, comps[i]).Some?
      ensures i in r
    {
      assert i in multiset(s);
    }
  }

  /** Each scoring competitor appears in the placement order once. */
  lemma RankedDistinct(comps: seq<Competitor>, scores: map<int, int>)
    ensures Distinct(Ranked(comps, scores))
  {
    PermutationDistinct(Seeded(comps, scores), Ranked(comps, scores));
  }

  /** Totals never increase along the placement order. */
  lemma RankedDescending(comps: seq<Competitor>, scores: map<int, int>, a: nat, b: nat)
    requires a < b < |Ranked(comps, scores)|
    ensures var r := Ranked(comps, scores);
            r[a] < |comps| && r[b] < |comps| &&
            ScoreOf(scores, comps[r[a]]).Some? && ScoreOf(scores, comps[r[b]]).Some? &&
            ScoreOf(scores, comps[r[a]]).value >= ScoreOf(scores, comps[r[b]]).value
  {
    RankedMembers(comps, scores);
    var r := Ranked(comps, scores);
    assert SortedBy(r, RankKey(comps, scores));
    assert KeyLe(RankKey(comps, scores)(r[a]), RankKey(comps, scores)(r[b]));
  }

  /**
   * The competitors after update_seeding_scores: those with a total carry it
   * and their rank as provisional placement, the others neither.
   */
  predicate Updated(out: seq<Competitor>, comps: seq<Competitor>, scores: map<int, int>) {
    var r := Ranked(comps, scores);
    |out| == |comps| &&
    (forall j :: 0 <= j < |r| ==>
       r[j] < |comps| && out[r[j]] == Scoring(comps[r[j]], scores).(provisional := Some(j + 1))) &&
    (forall i :: 0 <= i < |comps| && i !in r ==> out[i] == Scoring(comps[i], scores))
  }

  /** The first loop of update_seeding_scores: totals written, the scoring positions collected. */
  method ScoreAll(comps: seq<Competitor>, scores: map<int, int>) returns (out: seq<Competitor>, seeded: seq<nat>)
    ensures |out| == |comps|
    ensures forall k :: 0 <= k < |comps| ==> out[k] == Scoring(comps[k], scores)
    ensures seeded == Seeded(comps, scores)
  {
    out := comps;
    seeded := [];
    var i := 0;
    while i < |comps|
      invariant 0 <= i <= |comps| == |out|
      invariant seeded == Seeded(comps[..i], scores)
      invariant forall k :: 0 <= k < i ==> out[k] == Scoring(comps[k], scores)
      invariant forall k :: i <= k < |comps| ==> out[k] == comps[k]
    {
      assert comps[..i + 1][..i] == comps[..i];
      if ScoreOf(scores, comps[i]).Some? {
        seeded := seeded + [i];
      }
      out := out[i := Scoring(comps[i], scores)];
      i := i + 1;
    }
    assert comps[..i] == comps;
  }

  /** The second loop: placement j + 1 to the competitor at ranked[j]. */
  method PlaceAll(comps: seq<Competitor>, ranked: seq<nat>) returns (out: seq<Competitor>)
    requires Distinct(ranked) && forall k :: 0 <= k < |ranked| ==> ranked[k] < |comps|
    ensures |out| == |comps|
    ensures forall j :: 0 <= j < |ranked| ==> out[ranked[j]] == comps[ranked[j]].(provisional := Some(j + 1))
    ensures forall k :: 0 <= k < |comps| && k !in ranked ==> out[k] == comps[k]
  {
    out := comps;
    var j := 0;
    while j < |ranked|
      invariant 0 <= j <= |ranked|
      invariant |out| == |comps|
      invariant forall a :: 0 <= a < j ==> out[ranked[a]] == comps[ranked[a]].(provisional := Some(a + 1))
      invariant forall k :: 0 <= k < |comps| && k !in ranked[..j] ==> out[k] == comps[k]
    {
      assert ranked[..j + 1] == ranked[..j] + [ranked[j]];
      out := out[ranked[j] := comps[ranked[j]].(provisional := Some(j + 1))];
      j := j + 1;
    }
    assert ranked[..j] == ranked;
  }

  /** A competitor after finalize_seeding. */
  function Finalized(c: Competitor): (r: Competitor)
    ensures c.provisional.Some? ==> r.placement == c.provisional && r.provisional.None? && r.seedingScore.None?
    ensures c.provisional.None? ==> r == c
    ensures r.(placement := c.placement, provisional := c.provisional, seedingScore := c.seedingScore) == c
  {
    if c.provisional.Some? then c.(placement := c.provisional, provisional := None, seedingScore := None) else c
  }

  /** The number of competitors holding a provisional placement. */
  function CountProvisional(comps: seq<Competitor>): (r: nat)
    ensures r <= |comps|
  {
    if comps == [] then 0
    else CountProvisional(comps[..|comps| - 1]) + (if comps[|comps| - 1].provisional.Some? then 1 else 0)
  }

  /** The seeding keys of the tournament data. */
  class SeedingDesk {
    var competitors: seq<Competitor>
    var roomUrl: Option<string>
    var roomId: Option<int>
    var inProgress: Option<bool>

    constructor (c: seq<Competitor>, u: Option<string>, i: Option<int>, p: Option<bool>)
      ensures competitors == c && roomUrl == u && roomId == i && inProgress == p
    {
      competitors, roomUrl, roomId, inProgress := c, u, i, p;
    }

    /**
     * start_seeding: the URL must be given and name a room (id not 0) that the
     * API can open (`roomOpens`); only then are the three seeding keys set.
     */
    method StartSeeding(url: string, roomOpens: bool) returns (reply: Reply)
      modifies this
      ensures competitors == old(competitors)
      ensures url == "" ==>
                reply == Reply(Error, "Seeding room URL is required.") && unchanged(this)
      ensures url != "" && (ExtractRoomId(url).None? || ExtractRoomId(url) == Some(0)) ==>
                reply == Reply(Error, "Invalid multiplayer room URL format.") && unchanged(this)
      ensures url != "" && ExtractRoomId(url).Some? && ExtractRoomId(url) != Some(0) && !roomOpens ==>
                reply.kind == Error && unchanged(this)
      ensures url != "" && ExtractRoomId(url).Some? && ExtractRoomId(url) != Some(0) && roomOpens ==>
                reply == Reply(Success, "Seeding room set! Players can now play seeding maps.") &&
                roomUrl == Some(url) && roomId == Some(ExtractRoomId(url).value) &&
                inProgress == Some(true)
    {
      if url == "" {
        return Reply(Error, "Seeding room URL is required.");
      }
      var id := ExtractRoomId(url);
      if id.None? || id.value == 0 {
        return Reply(Error, "Invalid multiplayer room URL format.");
      }
      if !roomOpens {
        return Reply(Error, "Could not access the specified multiplayer room.");
      }
      roomUrl, roomId, inProgress := Some(url), Some(id.value), Some(true);
      reply := Reply(Success, "Seeding room set! Players can now play seeding maps.");
    }

    /**
     * update_seeding_scores: competitors with a total get it and a provisional
     * placement by rank; the others lose both keys.
     */
    method UpdateSeedingScores(room: Option<seq<Option<seq<Score>>>>) returns (reply: Reply)
      modifies this
      ensures roomUrl == old(roomUrl) && roomId == old(roomId) && inProgress == old(inProgress)
      ensures roomId.None? || roomId == Some(0) ==>
                reply == Reply(Error, "No seeding room configured.") && competitors == old(competitors)
      ensures roomId.Some? && roomId != Some(0) && CompetitorIds(old(competitors)) == [] ==>
                reply == Reply(Error, "No competitors found.") && competitors == old(competitors)
      ensures roomId.Some? && roomId != Some(0) && CompetitorIds(old(competitors)) != [] &&
              SeedingTotals(room, CompetitorIds(old(competitors))) == map[] ==>
                reply == Reply(Error, "No seeding scores found in the multiplayer room.") &&
                competitors == old(competitors)
      ensures roomId.Some? && roomId != Some(0) && CompetitorIds(old(competitors)) != [] &&
              SeedingTotals(room, CompetitorIds(old(competitors))) != map[] ==>
                var scores := SeedingTotals(room, CompetitorIds(old(competitors)));
                reply == Reply(Success, "Updated seeding scores for " + NatToString(|Ranked(old(competitors), scores)|) + " players.") &&
                Updated(competitors, old(competitors), scores)
    {
      if roomId.None? || roomId.value == 0 {
        return Reply(Error, "No seeding room configured.");
      }
      var ids := CompetitorIds(competitors);
      if ids == [] {
        return Reply(Error, "No competitors found.");
      }
      var scores := GetSeedingScores(room, ids);
      if scores == map[] {
        return Reply(Error, "No seeding scores found in the multiplayer room.");
      }
      var n := ApplyScores(scores);
      reply := Reply(Success, "Updated seeding scores for " + NatToString(n) + " players.");
    }

    /** The success path of update_seeding_scores: score, rank and place everyone. */
    method ApplyScores(scores: map<int, int>) returns (n: nat)
      modifies this
      ensures roomUrl == old(roomUrl) && roomId == old(roomId) && inProgress == old(inProgress)
      ensures Updated(competitors, old(competitors), scores)
      ensures n == |Ranked(old(competitors), scores)|
    {
      var start := competitors;
      var scored, seeded := ScoreAll(start, scores);
      var ranked := SortBy(seeded, RankKey(start, scores));
      RankedDistinct(start, scores);
      RankedMembers(start, scores);
      competitors := PlaceAll(scored, ranked);
      assert Updated(competitors, start, scores);
      n := |ranked|;
    }

    /**
     * finalize_seeding: provisional placements become placements, the
     * temporary keys and the seeding room go, and the count converted is
     * reported (the bracket is then regenerated).
     */
    method FinalizeSeeding() returns (count: nat, reply: Reply)
      modifies this
      ensures |competitors| == |old(competitors)|
      ensures forall i :: 0 <= i < |competitors| ==> competitors[i] == Finalized(old(competitors)[i])
      ensures count == CountProvisional(old(competitors))
      ensures reply == Reply(Success, "Seeding finalized for " + NatToString(count) + " players and bracket regenerated.")
      ensures roomUrl.None? && roomId.None? && inProgress.None?
    {
      ghost var start := competitors;
      count := 0;
      var i := 0;
      while i < |competitors|
        invariant 0 <= i <= |competitors| == |start|
        invariant count == CountProvisional(start[..i])
        invariant forall k :: 0 <= k < i ==> competitors[k] == Finalized(start[k])
        invariant forall k :: i <= k < |start| ==> competitors[k] == start[k]
      {
        assert start[..i + 1][..i] == start[..i];
        if competitors[i].provisional.Some? {
          count := count + 1;
        }
        competitors := competitors[i := Finalized(competitors[i])];
        i := i + 1;
      }
      assert start[..i] == start;
      roomUrl, roomId, inProgress := None, None, None;
      reply := Reply(Success, "Seeding finalized for " + NatToString(count) + " players and bracket regenerated.");
    }
  }

  /**
   * update_seeding_scores and finalize_seeding end in save_tournament_data,
   * which re-sorts the competitors by pp. Neither changes a pp, so a list
   * that was saved before keeps its order, and the in-place result is what
   * is written.
   */
  lemma SeedingSavesInPlace(out: seq<Competitor>, comps: seq<Competitor>, scores: map<int, int>)
    requires forall i, j :: 0 <= i < j < |comps| ==> comps[i].pp >= comps[j].pp
    ensures Updated(out, comps, scores) ==> SaveOrder(out) == out
    ensures var fin := seq(|comps|, i requires 0 <= i < |comps| => Finalized(comps[i]));
            SaveOrder(fin) == fin
  {
    if Updated(out, comps, scores) {
      var r := Ranked(comps, scores);
      forall i | 0 <= i < |comps|
        ensures out[i].pp == comps[i].pp
      {
        if i in r {
          var j :| 0 <= j < |r| && r[j] == i;
          assert out[r[j]] == Scoring(comps[r[j]], scores).(provisional := Some(j + 1));
        }
      }
      SaveOrderKept(out, comps);
    }
    var fin := seq(|comps|, i requires 0 <= i < |comps| => Finalized(comps[i]));
    SaveOrderKept(fin, comps);
  }

  /** Finalising twice converts nothing the second time. */
  lemma FinalizeTwiceCountsNothing(comps: seq<Competitor>)
    ensures CountProvisional(seq(|comps|, i requires 0 <= i < |comps| => Finalized(comps[i]))) == 0
  {
    var f := seq(|comps|, i requires 0 <= i < |comps| => Finalized(comps[i]));
    NoProvisionalCountsZero(f);
  }

  lemma {:induction false} NoProvisionalCountsZero(comps: seq<Competitor>)
    requires forall i :: 0 <= i < |comps| ==> comps[i].provisional.None?
    ensures CountProvisional(comps) == 0
  {
    if comps != [] {
      NoProvisionalCountsZero(comps[..|comps| - 1]);
    }
  }
}
