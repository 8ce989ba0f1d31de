/**
 * The overlay's current-match query (app/http_events.py): the grand final if
 * it is live or next up, else the first such match of the upper rounds, else
 * of the lower rounds, in round order and then slot order.
 */
module HttpEvents {
  import opened Common
  import opened SiteData

  /** Scan order of get_current_match_data; the grand final's predecessor is never looked at. */
  function LiveRank(l: Loc): nat {
    match l
    case AtFinal => 0
    case InUpper(_, _) => 1
    case InLower(_, _) => 2
    case AtPreviousFinal => 3
  }

  predicate ScannedBefore(a: Loc, b: Loc) {
    LiveRank(a) < LiveRank(b) ||
    (a.InUpper? && b.InUpper? && CellBefore(a.round, a.idx, b.round, b.idx)) ||
    (a.InLower? && b.InLower? && CellBefore(a.round, a.idx, b.round, b.idx))
  }

  /** The match the overlay shows: the first scanned one whose status is in_progress or next_up. */
  function LiveLoc(b: Brackets): (r: Option<Loc>)
    ensures r.Some? ==> ValidLoc(b, r.value) && !r.value.AtPreviousFinal? &&
                        Satisfies(Live, MatchAt(b, r.value)) &&
                        forall l :: ValidLoc(b, l) && ScannedBefore(l, r.value) ==> !Satisfies(Live, MatchAt(b, l))
    ensures r.None? ==> forall l :: ValidLoc(b, l) && !l.AtPreviousFinal? ==> !Satisfies(Live, MatchAt(b, l))
  {
    var up := FirstInRounds(b.upper, Live);
    var low := FirstInRounds(b.lower, Live);
    if b.grandFinals.Some? && Satisfies(Live, b.grandFinals.value) then Some(AtFinal)
    else if up.Some? then Some(InUpper(up.value.0, up.value.1))
    else if low.Some? then Some(InLower(low.value.0, low.value.1))
    else None
  }

  datatype CurrentMatch =
    | Found(player1: Player, player2: Player, scoreP1: int, scoreP2: int, status: string,
            bracket: string, roundIndex: nat)
    | NotFound(message: string)

  function BracketLabel(l: Loc): string {
    match l
    case AtFinal => "Grand Finals"
    case InUpper(_, _) => "Upper"
    case InLower(_, _) => "Lower"
    case AtPreviousFinal => ""
  }

  /** get_current_match_data. */
  method GetCurrentMatchData(b: Brackets) returns (r: CurrentMatch)
    ensures LiveLoc(b).None? ==> r == NotFound("No active or upcoming matches found")
    ensures LiveLoc(b).Some? ==>
              var l := LiveLoc(b).value;
              var m := MatchAt(b, l);
              r == Found(m.player1, m.player2, m.scoreP1, m.scoreP2, m.status.value, BracketLabel(l),
                         if l.AtFinal? then 0 else l.round)
  {
    var current: Option<SiteMatch> := None;
    var bracketType := "";
    var roundIndex := 0;
    if b.grandFinals.Some? && Satisfies(Live, b.grandFinals.value) {
      current := b.grandFinals;
      bracketType := "Grand Finals";
    }
    if current.None? {
      var up := ScanRounds(b.upper, Live);
      if up.Some? {
        current := Some(b.upper[up.value.0][up.value.1]);
        bracketType := "Upper";
        roundIndex := up.value.0;
      }
    }
    if current.None? {
      var low := ScanRounds(b.lower, Live);
      if low.Some? {
        current := Some(b.lower[low.value.0][low.value.1]);
        bracketType := "Lower";
        roundIndex := low.value.0;
      }
    }
    if current.Some? {
      var m := current.value;
      var status := if m.status.Some? then m.status.value else "unknown";
      return Found(m.player1, m.player2, m.scoreP1, m.scoreP2, status, bracketType, roundIndex);
    }
    return NotFound("No active or upcoming matches found");
  }

  /** A match that is next up earlier in the scan is preferred to one in progress later. */
  lemma EarlierNextUpWins(b: Brackets, early: Loc, late: Loc)
    requires ValidLoc(b, early) && ValidLoc(b, late) && ScannedBefore(early, late)
    requires MatchAt(b, early).status == Some("next_up")
    requires MatchAt(b, late).status == Some("in_progress")
    ensures LiveLoc(b) != Some(late)
  {
  }
}
