/**
 * Result recording on the JSON bracket (app/services/match_service.py):
 * looking a match up by id, starting and resetting it, recording a score or a
 * winner, attaching a multiplayer room, and tallying per-map results.
 *
 * advance_round_if_ready is a callee this model does not see; it is the
 * parameter `advance`, and the brackets it returns are what gets stored.
 */
module MatchService {
  import opened Common
  import opened Text
  import opened SiteData

  const RoomMarker: string := "osu.ppy.sh/multiplayer/rooms/"

  /** find_match visits the upper rounds, the lower rounds, the grand final, then its predecessor. */
  function FindRank(l: Loc): nat {
    match l
    case InUpper(_, _) => 0
    case InLower(_, _) => 1
    case AtFinal => 2
    case AtPreviousFinal => 3
  }

  /** a is visited before b by find_match. */
  predicate FindsBefore(a: Loc, b: Loc) {
    FindRank(a) < FindRank(b) ||
    (a.InUpper? && b.InUpper? && CellBefore(a.round, a.idx, b.round, b.idx)) ||
    (a.InLower? && b.InLower? && CellBefore(a.round, a.idx, b.round, b.idx))
  }

  /** The match find_match returns: the first one, in its visiting order, with the id. */
  function Find(b: Brackets, mid: string): (r: Option<Loc>)
    ensures r.Some? ==> ValidLoc(b, r.value) && MatchAt(b, r.value).id == mid &&
                        forall l :: ValidLoc(b, l) && FindsBefore(l, r.value) ==> MatchAt(b, l).id != mid
    ensures r.None? ==> forall l :: ValidLoc(b, l) ==> MatchAt(b, l).id != mid
  {
    var up := FirstInRounds(b.upper, WithId(mid));
    var low := FirstInRounds(b.lower, WithId(mid));
    if up.Some? then
      Some(InUpper(up.value.0, up.value.1))
    else if low.Some? then
      Some(InLower(low.value.0, low.value.1))
    else if b.grandFinals.Some? && b.grandFinals.value.id == mid then
      Some(AtFinal)
    else if b.grandFinals.Some? && b.grandFinals.value.previousGf.Some? &&
            b.grandFinals.value.previousGf.value.id == mid then
      Some(AtPreviousFinal)
    else None
  }

  /** find_match's loops over the brackets in turn. */
  method FindMatch(b: Brackets, mid: string) returns (r: Option<Loc>)
    ensures r == Find(b, mid)
  {
    var up := ScanRounds(b.upper, WithId(mid));
    if up.Some? {
      return Some(InUpper(up.value.0, up.value.1));
    }
    var low := ScanRounds(b.lower, WithId(mid));
    if low.Some? {
      return Some(InLower(low.value.0, low.value.1));
    }
    if b.grandFinals.Some? {
      var gf := b.grandFinals.value;
      if gf.id == mid {
        return Some(AtFinal);
      }
      if gf.previousGf.Some? && gf.previousGf.value.id == mid {
        return Some(AtPreviousFinal);
      }
    }
    return None;
  }

  /**
   * The checks set_match_score makes before looking the match up; None for
   * scores it accepts. A score that is not an integer is None.
   */
  function ScoreError(s1: Option<int>, s2: Option<int>): (r: Option<string>)
    ensures r.None? <==> s1.Some? && s2.Some? && 0 <= s1.value <= 4 && 0 <= s2.value <= 4 &&
                         !(s1.value == 4 && s2.value == 4)
    ensures s1.None? || s2.None? ==> r == Some("Invalid score values.")
    ensures s1.Some? && s2.Some? && !(0 <= s1.value <= 4 && 0 <= s2.value <= 4) ==>
              r == Some("Scores must be between 0-4 (Best of 7 format).")
    ensures s1.Some? && s2.Some? && s1.value == 4 && s2.value == 4 ==> r == Some("Both players cannot have 4 points.")
  {
    if s1.None? || s2.None? then Some("Invalid score values.")
    else if s1.value < 0 || s2.value < 0 || s1.value > 4 || s2.value > 4 then
      Some("Scores must be between 0-4 (Best of 7 format).")
    else if s1.value == 4 && s2.value == 4 then Some("Both players cannot have 4 points.")
    else None
  }

  /**
   * A match after set_match_score: the scores and room are written, four
   * points win, otherwise there is no winner and any point means the match
   * is in progress; at 0-0 the status is kept (a missing one becomes next_up).
   */
  function Scored(m: SiteMatch, s1: int, s2: int, room: Option<string>): (r: SiteMatch)
    ensures r.scoreP1 == s1 && r.scoreP2 == s2 && r.roomUrl == room
    ensures r.winner.Some? <==> s1 == 4 || s2 == 4
    ensures s1 == 4 ==> r.winner == Some(m.player1) && r.status == Some("completed")
    ensures s1 != 4 && s2 == 4 ==> r.winner == Some(m.player2) && r.status == Some("completed")
    ensures s1 != 4 && s2 != 4 && (s1 > 0 || s2 > 0) ==> r.status == Some("in_progress")
    ensures s1 == 0 && s2 == 0 ==> r.status == (if m.status.Some? then m.status else Some("next_up"))
    ensures r.(scoreP1 := m.scoreP1, scoreP2 := m.scoreP2, roomUrl := m.roomUrl,
               winner := m.winner, status := m.status) == m
  {
    var n := m.(scoreP1 := s1, scoreP2 := s2, roomUrl := room);
    if s1 == 4 then n.(winner := Some(m.player1), status := Some("completed"))
    else if s2 == 4 then n.(winner := Some(m.player2), status := Some("completed"))
    else if s1 > 0 || s2 > 0 then n.(winner := None, status := Some("in_progress"))
    else n.(winner := None, status := if m.status.Some? then m.status else Some("next_up"))
  }

  /** `player.get('id') and str(player['id']) == winner_id`. */
  predicate Names(p: Player, winnerId: string) {
    p.id.Some? && p.id.value != 0 && IntToString(p.id.value) == winnerId
  }

  /** The tournament data's brackets, as the match service reads and writes them. */
  class MatchStore {
    var brackets: Brackets

    constructor (b: Brackets)
      ensures brackets == b
    {
      brackets := b;
    }

    /** start_match: the found match becomes in progress; false when there is none. */
    method StartMatch(mid: string) returns (ok: bool)
      modifies this
      ensures ok <==> Find(old(brackets), mid).Some?
      ensures !ok ==> brackets == old(brackets)
      ensures ok ==>
                var l := Find(old(brackets), mid).value;
                brackets == WithMatchAt(old(brackets), l,
                                        MatchAt(old(brackets), l).(status := Some("in_progress")))
    {
      var l := FindMatch(brackets, mid);
      if l.None? {
        return false;
      }
      var m := MatchAt(brackets, l.value);
      brackets := WithMatchAt(brackets, l.value, m.(status := Some("in_progress")));
      return true;
    }

    /** reset_match: the found match is next up again, with no winner, no score and no room. */
    method ResetMatch(mid: string) returns (ok: bool)
      modifies this
      ensures ok <==> Find(old(brackets), mid).Some?
      ensures !ok ==> brackets == old(brackets)
      ensures ok ==>
                var l := Find(old(brackets), mid).value;
                brackets == WithMatchAt(old(brackets), l,
                                        MatchAt(old(brackets), l).(status := Some("next_up"), winner := None,
                                                                   scoreP1 := 0, scoreP2 := 0, roomUrl := None))
    {
      var l := FindMatch(brackets, mid);
      if l.None? {
        return false;
      }
      var m := MatchAt(brackets, l.value);
      brackets := WithMatchAt(brackets, l.value,
                              m.(status := Some("next_up"), winner := None, scoreP1 := 0, scoreP2 := 0, roomUrl := None));
      return true;
    }

    /**
     * set_match_score. Rejected scores, an unknown id and a malformed room URL
     * leave the data as it was; otherwise the edited data goes to advance.
     */
    method SetMatchScore(mid: string, s1: Option<int>, s2: Option<int>, roomUrl: string,
                         advance: Brackets -> Brackets) returns (reply: Reply)
      modifies this
      ensures ScoreError(s1, s2).Some? ==>
                reply == Reply(Error, ScoreError(s1, s2).value) && brackets == old(brackets)
      ensures ScoreError(s1, s2).None? && Find(old(brackets), mid).None? ==>
                reply == Reply(Error, "Match not found.") && brackets == old(brackets)
      ensures ScoreError(s1, s2).None? && Find(old(brackets), mid).Some? &&
              roomUrl != "" && !Contains(roomUrl, RoomMarker) ==>
                reply == Reply(Error, "Invalid multiplayer room URL format.") && brackets == old(brackets)
      ensures ScoreError(s1, s2).None? && Find(old(brackets), mid).Some? &&
              (roomUrl == "" || Contains(roomUrl, RoomMarker)) ==>
                var l := Find(old(brackets), mid).value;
                var room := if roomUrl == "" then None else Some(roomUrl);
                reply == Reply(Success, "Match score updated successfully.") &&
                brackets == advance(WithMatchAt(old(brackets), l,
                                                Scored(MatchAt(old(brackets), l), s1.value, s2.value, room)))
    {
      var err := ScoreError(s1, s2);
      if err.Some? {
        return Reply(Error, err.value);
      }
      var l := FindMatch(brackets, mid);
      if l.None? {
        return Reply(Error, "Match not found.");
      }
      var room: Option<string> := None;
      if roomUrl != "" {
        if Contains(roomUrl, RoomMarker) {
          room := Some(roomUrl);
        } else {
          return Reply(Error, "Invalid multiplayer room URL format.");
        }
      }
      var m := Scored(MatchAt(brackets, l.value), s1.value, s2.value, room);
      brackets := advance(WithMatchAt(brackets, l.value, m));
      reply := Reply(Success, "Match score updated successfully.");
    }

    /**
     * set_winner: the seated player whose id reads as winnerId wins 4-0 and
     * the match is completed; any other id changes nothing.
     */
    method SetWinner(mid: string, winnerId: string, advance: Brackets -> Brackets) returns (reply: Reply)
      modifies this
      ensures Find(old(brackets), mid).None? ==>
                reply == Reply(Error, "Match not found.") && brackets == old(brackets)
      ensures Find(old(brackets), mid).Some? ==>
                var l := Find(old(brackets), mid).value;
                var m := MatchAt(old(brackets), l);
                (Names(m.player1, winnerId) ==>
                   reply == Reply(Success, "Winner set successfully.") &&
                   brackets == advance(WithMatchAt(old(brackets), l,
                                                   m.(winner := Some(m.player1), scoreP1 := 4, scoreP2 := 0,
                                                      status := Some("completed"))))) &&
                (!Names(m.player1, winnerId) && Names(m.player2, winnerId) ==>
                   reply == Reply(Success, "Winner set successfully.") &&
                   brackets == advance(WithMatchAt(old(brackets), l,
                                                   m.(winner := Some(m.player2), scoreP1 := 0, scoreP2 := 4,
                                                      status := Some("completed"))))) &&
                (!Names(m.player1, winnerId) && !Names(m.player2, winnerId) ==>
                   reply == Reply(Error, "Invalid winner ID.") && brackets == old(brackets))
    {
      var l := FindMatch(brackets, mid);
      if l.None? {
        return Reply(Error, "Match not found.");
      }
      var m := MatchAt(brackets, l.value);
      if Names(m.player1, winnerId) {
        m := m.(winner := Some(m.player1), scoreP1 := 4, scoreP2 := 0);
      } else if Names(m.player2, winnerId) {
        m := m.(winner := Some(m.player2), scoreP1 := 0, scoreP2 := 4);
      } else {
        return Reply(Error, "Invalid winner ID.");
      }
      m := m.(status := Some("completed"));
      brackets := advance(WithMatchAt(brackets, l.value, m));
      reply := Reply(Success, "Winner set successfully.");
    }

    /** set_match_room: an empty URL clears the room; any other must be a multiplayer-room link. */
    method SetMatchRoom(mid: string, url: string) returns (reply: Reply)
      modifies this
      ensures Find(old(brackets), mid).None? ==>
                reply == Reply(Error, "Match not found.") && brackets == old(brackets)
      ensures Find(old(brackets), mid).Some? && url != "" && !Contains(url, RoomMarker) ==>
                reply == Reply(Error, "Invalid multiplayer room URL format. Must be an osu! multiplayer room link.") &&
                brackets == old(brackets)
      ensures Find(old(brackets), mid).Some? && (url == "" || Contains(url, RoomMarker)) ==>
                var l := Find(old(brackets), mid).value;
                brackets == WithMatchAt(old(brackets), l, MatchAt(old(brackets), l).(roomUrl := Some(url))) &&
                reply == Reply(Success, if url == "" then "Match room URL cleared." else "Match room URL set successfully.")
    {
      var l := FindMatch(brackets, mid);
      if l.None? {
        return Reply(Error, "Match not found.");
      }
      if url != "" && !Contains(url, RoomMarker) {
        return Reply(Error, "Invalid multiplayer room URL format. Must be an osu! multiplayer room link.");
      }
      var m := MatchAt(brackets, l.value);
      brackets := WithMatchAt(brackets, l.value, m.(roomUrl := Some(url)));
      if url != "" {
        reply := Reply(Success, "Match room URL set successfully.");
      } else {
        reply := Reply(Success, "Match room URL cleared.");
      }
    }
  }

  /** One score in a playlist item's results. */
  datatype Score = Score(userId: int, totalScore: int)

  /** The total of the last score listed for uid, as the loop that overwrites its variable keeps it. */
  function LastScore(scores: seq<Score>, uid: int): (r: Option<int>)
    ensures r.Some? <==> exists k :: 0 <= k < |scores| && scores[k].userId == uid
    ensures r.Some? ==> exists k :: 0 <= k < |scores| && scores[k].userId == uid &&
                          r.value == scores[k].totalScore &&
                          forall j :: k < j < |scores| ==> scores[j].userId != uid
  {
    if scores == [] then None
    else if scores[|scores| - 1].userId == uid then Some(scores[|scores| - 1].totalScore)
    else LastScore(scores[..|scores| - 1], uid)
  }

  /** The points a map gives: the higher total wins, a tie gives none, a lone score wins. */
  function MapPoint(scores: seq<Score>, p1: int, p2: int): (r: (nat, nat))
    ensures r.0 + r.1 <= 1
    ensures var a := LastScore(scores, p1);
            var b := if p1 == p2 then None else LastScore(scores, p2);
            (r == (1, 0) <==> a.Some? && (b.None? || a.value > b.value)) &&
            (r == (0, 1) <==> b.Some? && (a.None? || b.value > a.value))
  {
    var a := LastScore(scores, p1);
    var b := if p1 == p2 then None else LastScore(scores, p2);
    if a.Some? && b.Some? then
      (if a.value > b.value then (1, 0) else if b.value > a.value then (0, 1) else (0, 0))
    else if a.Some? then (1, 0)
    else if b.Some? then (0, 1)
    else (0, 0)
  }

  /**
   * Points over the playlist; an item whose scores could not be fetched
   * (None) is skipped. At most one point is handed out per fetched map.
   */
  function Points(items: seq<Option<seq<Score>>>, p1: int, p2: int): (r: (nat, nat))
    ensures r.0 + r.1 <= Fetched(items) <= |items|
  {
    if items == [] then (0, 0)
    else
      var before := Points(items[..|items| - 1], p1, p2);
      var last := items[|items| - 1];
      var pt := if last.Some? then MapPoint(last.value, p1, p2) else (0, 0);
      (before.0 + pt.0, before.1 + pt.1)
  }

  /** The number of items whose scores were fetched. */
  function Fetched(items: seq<Option<seq<Score>>>): (n: nat)
    ensures n <= |items|
  {
    if items == [] then 0 else Fetched(items[..|items| - 1]) + (if items[|items| - 1].Some? then 1 else 0)
  }

  datatype Outcome = Outcome(winner: Option<int>, winsP1: nat, winsP2: nat, status: string)

  /**
   * What get_match_results returns for a room's playlist (None when the room
   * could not be fetched).
   */
  function MatchOutcome(room: Option<seq<Option<seq<Score>>>>, p1: int, p2: int): (r: Outcome)
    ensures room.None? ==> r == Outcome(None, 0, 0, "error")
    ensures room == Some([]) ==> r == Outcome(None, 0, 0, "no_playlist")
    ensures r.status == "completed" ==>
              (r.winner == Some(p1) && r.winsP1 >= 4) || (r.winner == Some(p2) && r.winsP2 >= 4 && r.winsP1 < 4)
    ensures r.status != "completed" ==> r.winner.None? && r.winsP1 < 4 && r.winsP2 < 4
    ensures r.status == "in_progress" ==> r.winsP1 + r.winsP2 > 0
    ensures room.Some? ==> r.winsP1 + r.winsP2 <= |room.value|
    ensures room.Some? && room.value != [] ==>
              var pts := Points(room.value, p1, p2);
              (r.winsP1, r.winsP2) == pts &&
              (r.status == "completed" <==> pts.0 >= 4 || pts.1 >= 4) &&
              (r.status == "in_progress" <==> pts.0 < 4 && pts.1 < 4 && pts.0 + pts.1 > 0) &&
              (r.status == "no_scores" <==> pts == (0, 0))
  {
    match room
    case None => Outcome(None, 0, 0, "error")
    case Some(items) =>
      if items == [] then Outcome(None, 0, 0, "no_playlist")
      else
        var pts := Points(items, p1, p2);
        if pts.0 >= 4 then Outcome(Some(p1), pts.0, pts.1, "completed")
        else if pts.1 >= 4 then Outcome(Some(p2), pts.0, pts.1, "completed")
        else if pts.0 > 0 || pts.1 > 0 then Outcome(None, pts.0, pts.1, "in_progress")
        else Outcome(None, 0, 0, "no_scores")
  }

  /** A map's point does not depend on which player is asked about first. */
  lemma MapPointSwap(scores: seq<Score>, p1: int, p2: int)
    requires p1 != p2
    ensures MapPoint(scores, p2, p1) == (MapPoint(scores, p1, p2).1, MapPoint(scores, p1, p2).0)
  {
  }

  /** Swapping the two players swaps their points. */
  lemma {:induction false} PointsSwap(items: seq<Option<seq<Score>>>, p1: int, p2: int)
    requires p1 != p2
    ensures Points(items, p2, p1) == (Points(items, p1, p2).1, Points(items, p1, p2).0)
  {
    if items != [] {
      PointsSwap(items[..|items| - 1], p1, p2);
      var last := items[|items| - 1];
      if last.Some? {
        MapPointSwap(last.value, p1, p2);
      }
    }
  }

  /**
   * Unless both players reach four points, the result names the same
   * winner and status whichever player is passed first.
   */
  lemma OutcomeSwap(room: Option<seq<Option<seq<Score>>>>, p1: int, p2: int)
    requires p1 != p2
    requires room.Some? ==> Points(room.value, p1, p2).0 < 4 || Points(room.value, p1, p2).1 < 4
    ensures var r := MatchOutcome(room, p1, p2);
            var q := MatchOutcome(room, p2, p1);
            q.winner == r.winner && q.status == r.status && q.winsP1 == r.winsP2 && q.winsP2 == r.winsP1
  {
    if room.Some? {
      PointsSwap(room.value, p1, p2);
    }
  }

  /** The inner loop of get_match_results: the scores it keeps for the two players on one map. */
  method KeptScores(scores: seq<Score>, p1: int, p2: int) returns (a: Option<int>, b: Option<int>)
    ensures a == LastScore(scores, p1)
    ensures b == (if p1 == p2 then None else LastScore(scores, p2))
  {
    a, b := None, None;
    var k := 0;
    while k < |scores|
      invariant 0 <= k <= |scores|
      invariant a == LastScore(scores[..k], p1)
      invariant b == (if p1 == p2 then None else LastScore(scores[..k], p2))
    {
      assert scores[..k + 1][..k] == scores[..k];
      if scores[k].userId == p1 {
        a := Some(scores[k].totalScore);
      } else if scores[k].userId == p2 {
        b := Some(scores[k].totalScore);
      }
      k := k + 1;
    }
    assert scores[..k] == scores;
  }

  /** The body of get_match_results' loop for one fetched map. */
  method CountMap(scores: seq<Score>, p1: int, p2: int) returns (pt: (nat, nat))
    ensures pt == MapPoint(scores, p1, p2)
  {
    var a, b := KeptScores(scores, p1, p2);
    pt := (0, 0);
    if a.Some? && b.Some? {
      if a.value > b.value {
        pt := (1, 0);
      } else if b.value > a.value {
        pt := (0, 1);
      }
    } else if a.Some? {
      pt := (1, 0);
    } else if b.Some? {
      pt := (0, 1);
    }
  }

  /** get_match_results: the per-map tally and the status it implies. */
  method GetMatchResults(room: Option<seq<Option<seq<Score>>>>, p1: int, p2: int) returns (r: Outcome)
    ensures r == MatchOutcome(room, p1, p2)
  {
    if room.None? {
      return Outcome(None, 0, 0, "error");
    }
    var items := room.value;
    if |items| == 0 {
      return Outcome(None, 0, 0, "no_playlist");
    }
    var w1: nat, w2: nat := 0, 0;
    var k := 0;
    while k < |items|
      invariant 0 <= k <= |items|
      invariant (w1, w2) == Points(items[..k], p1, p2)
    {
      assert items[..k + 1][..k] == items[..k];
      if items[k].Some? {
        var pt := CountMap(items[k].value, p1, p2);
        w1, w2 := w1 + pt.0, w2 + pt.1;
      }
      k := k + 1;
    }
    assert items[..k] == items;
    assert (w1, w2) == Points(items, p1, p2);
    if w1 >= 4 {
      r := Outcome(Some(p1), w1, w2, "completed");
    } else if w2 >= 4 {
      r := Outcome(Some(p2), w1, w2, "completed");
    } else if w1 > 0 || w2 > 0 {
      r := Outcome(None, w1, w2, "in_progress");
    } else {
      r := Outcome(None, 0, 0, "no_scores");
    }
  }
}
