/**
 * The JSON bracket the web services edit: data['brackets'] holds a list of
 * upper rounds, a list of lower rounds and an optional grand-finals match,
 * which may carry the match it replaced under 'previous_gf'. A missing
 * bracket list is the empty list; a missing score is 0.
 */
module SiteData {
  import opened Common
  import opened Sorting

  datatype Player = Player(id: Option<int>, name: string)

  datatype SiteMatch = SiteMatch(id: string, player1: Player, player2: Player,
                                 winner: Option<Player>, scoreP1: int, scoreP2: int,
                                 status: Option<string>, roomUrl: Option<string>,
                                 tiebreakerUrl: Option<string>, previousGf: Option<SiteMatch>)

  datatype Brackets = Brackets(upper: seq<seq<SiteMatch>>, lower: seq<seq<SiteMatch>>,
                               grandFinals: Option<SiteMatch>)

  /**
   * An entry of data['competitors'], on the keys the services read: the osu!
   * id, name, skill, and the seeding keys (absent keys are None).
   */
  datatype Competitor = Competitor(id: Option<int>, name: string, pp: int, seedingScore: Option<int>,
                                   provisional: Option<int>, placement: Option<int>)

  /** `key=lambda x: x.get('pp', 0), reverse=True` as an ascending key. */
  function CompetitorKey(c: Competitor): (int, int) {
    (-c.pp, 0)
  }

  /**
   * The competitor order save_tournament_data (app/data_manager.py:13-17)
   * writes: a stable sort by pp, highest first.
   */
  function SaveOrder(cs: seq<Competitor>): (r: seq<Competitor>)
    ensures |r| == |cs| && multiset(r) == multiset(cs)
    ensures forall i, j :: 0 <= i < j < |r| ==> r[i].pp >= r[j].pp
  {
    var r := SortBy(cs, CompetitorKey);
    assert forall i, j :: 0 <= i < j < |r| ==> KeyLe(CompetitorKey(r[i]), CompetitorKey(r[j]));
    assert |r| == |multiset(r)| == |multiset(cs)| == |cs|;
    r
  }

  /**
   * A save that follows an edit leaving every pp in place keeps a list that
   * was saved before (so sorted by pp) in its order.
   */
  lemma SaveOrderKept(out: seq<Competitor>, cs: seq<Competitor>)
    requires |out| == |cs| && forall i :: 0 <= i < |cs| ==> out[i].pp == cs[i].pp
    requires forall i, j :: 0 <= i < j < |cs| ==> cs[i].pp >= cs[j].pp
    ensures SaveOrder(out) == out
  {
    assert SortedBy(out, CompetitorKey) by {
      forall i, j | 0 <= i < j < |out|
        ensures KeyLe(CompetitorKey(out[i]), CompetitorKey(out[j]))
      {
        assert cs[i].pp >= cs[j].pp;
      }
    }
    SortSorted(out, CompetitorKey);
  }

  /** Where a match sits: (round, index) in a bracket list, the grand final, or its predecessor. */
  datatype Loc = InUpper(round: nat, idx: nat) | InLower(round: nat, idx: nat) | AtFinal | AtPreviousFinal

  predicate ValidLoc(b: Brackets, l: Loc) {
    match l
    case InUpper(r, i) => r < |b.upper| && i < |b.upper[r]|
    case InLower(r, i) => r < |b.lower| && i < |b.lower[r]|
    case AtFinal => b.grandFinals.Some?
    case AtPreviousFinal => b.grandFinals.Some? && b.grandFinals.value.previousGf.Some?
  }

  function MatchAt(b: Brackets, l: Loc): SiteMatch
    requires ValidLoc(b, l)
  {
    match l
    case InUpper(r, i) => b.upper[r][i]
    case InLower(r, i) => b.lower[r][i]
    case AtFinal => b.grandFinals.value
    case AtPreviousFinal => b.grandFinals.value.previousGf.value
  }

  /**
   * The brackets with the match at l replaced by m, as an in-place edit of
   * that match dict. An edit of the grand final keeps its 'previous_gf'.
   */
  function WithMatchAt(b: Brackets, l: Loc, m: SiteMatch): (r: Brackets)
    requires ValidLoc(b, l)
    requires l == AtFinal ==> m.previousGf == MatchAt(b, l).previousGf
    ensures forall l' :: ValidLoc(r, l') <==> ValidLoc(b, l')
    ensures ValidLoc(r, l) && MatchAt(r, l) == m
    ensures forall l' :: ValidLoc(b, l') && l' != l && !(l == AtPreviousFinal && l' == AtFinal) ==>
              MatchAt(r, l') == MatchAt(b, l')
    ensures l == AtPreviousFinal ==>
              MatchAt(r, AtFinal) == MatchAt(b, AtFinal).(previousGf := Some(m))
  {
    match l
    case InUpper(x, i) => b.(upper := b.upper[x := b.upper[x][i := m]])
    case InLower(x, i) => b.(lower := b.lower[x := b.lower[x][i := m]])
    case AtFinal => b.(grandFinals := Some(m))
    case AtPreviousFinal => b.(grandFinals := Some(b.grandFinals.value.(previousGf := Some(m))))
  }

  /** The tests the scans apply to a match (`match.get('id') == match_id` and the like). */
  datatype Query = WithId(mid: string) | TiedWithId(mid: string) | Live

  predicate Satisfies(q: Query, m: SiteMatch) {
    match q
    case WithId(mid) => m.id == mid
    case TiedWithId(mid) => m.id == mid && m.scoreP1 == 3 && m.scoreP2 == 3
    case Live => m.status == Some("in_progress") || m.status == Some("next_up")
  }

  /** The first index of row whose match satisfies q. */
  function FirstInRow(row: seq<SiteMatch>, q: Query): (r: Option<nat>)
    ensures r.Some? ==> r.value < |row| && Satisfies(q, row[r.value]) &&
                        forall j :: 0 <= j < r.value ==> !Satisfies(q, row[j])
    ensures r.None? ==> forall j :: 0 <= j < |row| ==> !Satisfies(q, row[j])
  {
    if row == [] then None
    else if Satisfies(q, row[0]) then Some(0)
    else
      match FirstInRow(row[1..], q)
      case None => None
      case Some(j) => Some(j + 1)
  }

  /** The first (round, index), in round order and then slot order, whose match satisfies q. */
  function FirstInRounds(rounds: seq<seq<SiteMatch>>, q: Query): (r: Option<(nat, nat)>)
    ensures r.Some? ==> InGrid(rounds, r.value.0, r.value.1) &&
                        Satisfies(q, rounds[r.value.0][r.value.1]) &&
                        forall x, y :: InGrid(rounds, x, y) && CellBefore(x, y, r.value.0, r.value.1) ==>
                                       !Satisfies(q, rounds[x][y])
    ensures r.None? ==> forall x, y :: InGrid(rounds, x, y) ==> !Satisfies(q, rounds[x][y])
  {
    if rounds == [] then None
    else
      match FirstInRow(rounds[0], q)
      case Some(i) => Some((0, i))
      case None =>
        var rest := FirstInRounds(rounds[1..], q);
        assert forall x, y :: InGrid(rounds, x, y) && x > 0 ==> rounds[x][y] == rounds[1..][x - 1][y];
        match rest
        case None => None
        case Some(c) => Some((c.0 + 1, c.1))
  }

  /** A satisfying cell with no satisfying cell before it is what FirstInRounds finds. */
  lemma FirstInRoundsIs(rounds: seq<seq<SiteMatch>>, q: Query, x: nat, y: nat)
    requires InGrid(rounds, x, y) && Satisfies(q, rounds[x][y])
    requires forall x', y' :: InGrid(rounds, x', y') && CellBefore(x', y', x, y) ==> !Satisfies(q, rounds[x'][y'])
    ensures FirstInRounds(rounds, q) == Some((x, y))
  {
    var r := FirstInRounds(rounds, q);
    assert r.Some?;
    assert !CellBefore(r.value.0, r.value.1, x, y);
    assert !CellBefore(x, y, r.value.0, r.value.1);
  }

  /**
   * The scan `for round in rounds: for match in round: if test(match): ...
   * break`, stopping at the first hit.
   */
  method ScanRounds(rounds: seq<seq<SiteMatch>>, q: Query) returns (r: Option<(nat, nat)>)
    ensures r == FirstInRounds(rounds, q)
  {
    var x := 0;
    while x < |rounds|
      invariant 0 <= x <= |rounds|
      invariant forall x', y' :: InGrid(rounds, x', y') && x' < x ==> !Satisfies(q, rounds[x'][y'])
    {
      var y := 0;
      while y < |rounds[x]|
        invariant 0 <= y <= |rounds[x]|
        invariant forall y' :: 0 <= y' < y ==> !Satisfies(q, rounds[x][y'])
      {
        if Satisfies(q, rounds[x][y]) {
          FirstInRoundsIs(rounds, q, x, y);
          return Some((x, y));
        }
        y := y + 1;
      }
      x := x + 1;
    }
    return None;
  }
}
