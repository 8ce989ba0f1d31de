/**
 * The match table of a double-elimination tournament and the rules by which
 * app/engine/bracket_engine.py moves players through it.
 *
 * A match is addressed by (bracket, round, index). The engine never reads
 * match ids; competitor and match uuids are modelled as naturals.
 * The engine tests a player id by truthiness (`if not player_id` in
 * _fill_player, bracket_engine.py:142, and `player1_id and player2_id` at
 * line 152), which treats an empty id as no player. A competitor id is a
 * 36-character uuid string (models.py:34), never empty, so the only id the
 * engine treats as absent is None: here every Some(id), 0 included, is a
 * player.
 */
module EngineModel {
  import opened Common

  type CompetitorId = nat

  datatype Bracket = Upper | Lower | GrandFinals

  datatype Key = Key(bracket: Bracket, round: nat, idx: nat)

  datatype Status = Waiting | NextUp | InProgress | Completed

  datatype Match = Match(id: nat, p1: Option<CompetitorId>, p2: Option<CompetitorId>,
                         scoreP1: int, scoreP2: int, winner: Option<CompetitorId>,
                         status: Status, bo: int)

  type Table = map<Key, Match>

  /** The grand final and its bracket reset. */
  const GF0: Key := Key(GrandFinals, 0, 0)
  const GF1: Key := Key(GrandFinals, 1, 0)

  /** Slot 0 is player 1; any other slot number is player 2. */
  function Seat(m: Match, slot: nat): Option<CompetitorId> {
    if slot == 0 then m.p1 else m.p2
  }

  /** A match counts as decided when it is completed and names a winner. */
  predicate Decided(m: Match) {
    m.status == Completed && m.winner.Some?
  }

  /** The player the engine treats as the loser: player 2 when player 1 won, else player 1. */
  function LoserOf(m: Match): (r: Option<CompetitorId>)
    ensures m.winner == m.p1 ==> r == m.p2
    ensures m.winner.Some? && m.winner == m.p2 && m.p1 != m.p2 ==> r == m.p1
  {
    if m.winner == m.p1 then m.p2 else m.p1
  }

  /** A waiting match whose two seats are taken becomes next up. */
  function Promote(m: Match): (r: Match)
    ensures r.(status := m.status) == m
    ensures r.status != m.status ==> r.status == NextUp
    ensures r.status == NextUp <==> m.status == NextUp || (m.status == Waiting && m.p1.Some? && m.p2.Some?)
  {
    if m.status == Waiting && m.p1.Some? && m.p2.Some? then m.(status := NextUp) else m
  }

  /**
   * _fill_player: put pid in the given seat. Nothing happens for a missing id
   * or when the seat already holds it; the flag says whether the seat changed.
   */
  function Fill(m: Match, pid: Option<CompetitorId>, slot: nat): (r: (Match, bool))
    ensures pid.None? ==> r == (m, false)
    ensures r.1 <==> pid.Some? && Seat(m, slot) != pid
    ensures !r.1 ==> r.0 == m
    ensures pid.Some? ==> Seat(r.0, slot) == pid
    ensures slot == 0 ==> r.0.p2 == m.p2
    ensures slot != 0 ==> r.0.p1 == m.p1
    ensures r.0.(p1 := m.p1, p2 := m.p2, status := m.status) == m
    ensures r.0.status != m.status ==>
              m.status == Waiting && r.0.status == NextUp && r.0.p1.Some? && r.0.p2.Some? && r.1
    ensures r.1 && m.status == Waiting && r.0.p1.Some? && r.0.p2.Some? ==> r.0.status == NextUp
  {
    if pid.None? then (m, false)
    else if slot == 0 then
      if m.p1 == pid then (m, false) else (Promote(m.(p1 := pid)), true)
    else
      if m.p2 == pid then (m, false) else (Promote(m.(p2 := pid)), true)
  }

  /** Filling the same seat twice with the same player changes nothing the second time. */
  lemma FillIdempotent(m: Match, pid: Option<CompetitorId>, slot: nat)
    ensures Fill(Fill(m, pid, slot).0, pid, slot) == (Fill(m, pid, slot).0, false)
  {
  }

  /** A fill of the match at t, when the table has one. */
  function FillAt(ms: Table, t: Key, pid: Option<CompetitorId>, slot: nat): (r: (Table, bool))
    ensures r.0.Keys == ms.Keys
  {
    if t in ms then
      var f := Fill(ms[t], pid, slot);
      (ms[t := f.0], f.1)
    else (ms, false)
  }

  /** The winner path of a decided upper-bracket match (bracket_engine.py:88-98). */
  function UpperWinnerPath(ms: Table, k: Key): (r: (Table, bool))
    requires k in ms && k.bracket == Upper
    ensures r.0.Keys == ms.Keys
  {
    var tu := Key(Upper, k.round + 1, k.idx / 2);
    if tu in ms then FillAt(ms, tu, ms[k].winner, k.idx % 2) else FillAt(ms, GF0, ms[k].winner, 0)
  }

  /** The loser path of an upper-bracket match (bracket_engine.py:100-109). */
  function UpperLoserPath(ms: Table, k: Key, loser: Option<CompetitorId>): (r: (Table, bool))
    requires k.bracket == Upper
    ensures r.0.Keys == ms.Keys
  {
    if loser.None? then (ms, false)
    else if k.round == 0 then FillAt(ms, Key(Lower, 0, k.idx / 2), loser, k.idx % 2)
    else FillAt(ms, Key(Lower, 2 * k.round - 1, k.idx), loser, 1)
  }

  /** Routing of a decided upper-bracket match; the loser is fixed before the winner moves. */
  function ProcessUpper(ms: Table, k: Key): (r: (Table, bool))
    requires k in ms && k.bracket == Upper
    ensures r.0.Keys == ms.Keys
  {
    var loser := LoserOf(ms[k]);
    var win := UpperWinnerPath(ms, k);
    var lose := UpperLoserPath(win.0, k, loser);
    (lose.0, win.1 || lose.1)
  }

  /**
   * Routing of a decided lower-bracket match (bracket_engine.py:111-127): even
   * ("minor") rounds keep the index and use slot 0, odd ("major") rounds halve
   * it; past the last lower round the winner takes grand-final slot 1.
   */
  function ProcessLower(ms: Table, k: Key): (r: (Table, bool))
    requires k in ms && k.bracket == Lower
    ensures r.0.Keys == ms.Keys
  {
    var minor := k.round % 2 == 0;
    var tl := Key(Lower, k.round + 1, if minor then k.idx else k.idx / 2);
    if tl in ms then FillAt(ms, tl, ms[k].winner, if minor then 0 else k.idx % 2)
    else FillAt(ms, GF0, ms[k].winner, 1)
  }

  /** The bracket reset of bracket_engine.py:129-137. */
  function ProcessGrandFinals(ms: Table, k: Key): (r: (Table, bool))
    requires k in ms && k.bracket == GrandFinals
    ensures r.0.Keys == ms.Keys
  {
    var m := ms[k];
    if k.round == 0 && m.winner == m.p2 && GF1 in ms && ms[GF1].status == Waiting then
      var a := FillAt(ms, GF1, m.p1, 0);
      var b := FillAt(a.0, GF1, m.p2, 1);
      (b.0[GF1 := b.0[GF1].(status := NextUp)], true)
    else (ms, false)
  }

  /** One iteration of the inner loop of advance, for the match at k. */
  function Process(ms: Table, k: Key): (r: (Table, bool))
    requires k in ms
    ensures r.0.Keys == ms.Keys
  {
    if !Decided(ms[k]) then (ms, false)
    else
      match k.bracket
      case Upper => ProcessUpper(ms, k)
      case Lower => ProcessLower(ms, k)
      case GrandFinals => ProcessGrandFinals(ms, k)
  }

  /** One pass of advance over the matches in `order`; the flag is `changed`. */
  function Pass(ms: Table, order: seq<Key>): (r: (Table, bool))
    requires forall k :: k in order ==> k in ms
    ensures r.0.Keys == ms.Keys
  {
    if order == [] then (ms, false)
    else
      var a := Pass(ms, order[..|order| - 1]);
      var b := Process(a.0, order[|order| - 1]);
      (b.0, a.1 || b.1)
  }

  /** A table on which a whole pass reports no change: advance stops here. */
  predicate Settled(ms: Table, order: seq<Key>)
    requires forall k :: k in order ==> k in ms
  {
    Pass(ms, order) == (ms, false)
  }

  /**
   * The match keys generate creates for `rounds` upper rounds
   * (bracket_engine.py:23-49): upper round r has 2^(rounds-1-r) matches, lower
   * round lr has 2^(rounds-2-lr/2), and the grand final and reset are one each.
   * These are the source's counts P // 2**(r+1) and P // 2**(2 + lr//2) for
   * P = 2^rounds (BracketEngine.UpperCountIsSource, LowerCountIsSource).
   */
  predicate InSkeleton(rounds: nat, k: Key) {
    match k.bracket
    case Upper => k.round < rounds && k.idx < Pow2(rounds - 1 - k.round)
    case Lower => k.round < 2 * (rounds - 1) && k.idx < Pow2(rounds - 2 - k.round / 2)
    case GrandFinals => k.round < 2 && k.idx == 0
  }

  /** A table whose keys are exactly the skeleton of some bracket size. */
  ghost predicate Shaped(rounds: nat, ms: Table) {
    rounds >= 1 && forall k :: k in ms <==> InSkeleton(rounds, k)
  }

  /** What advance may change: seats, and a status from waiting to next up. */
  predicate Kept(m: Match, m': Match) {
    m'.(p1 := m.p1, p2 := m.p2, status := m.status) == m &&
    (m'.status == m.status || (m.status == Waiting && m'.status == NextUp))
  }

  predicate Frozen(ms: Table, ms': Table) {
    ms'.Keys == ms.Keys && forall k :: k in ms ==> Kept(ms[k], ms'[k])
  }

  /** Nothing routes into the first upper round. */
  predicate RootsKept(ms: Table, ms': Table) {
    forall k :: k in ms && k in ms' && k.bracket == Upper && k.round == 0 ==> ms'[k] == ms[k]
  }
}
