/**
 * The dict-based brackets of the two legacy applications, old/app.py and
 * app.py. Both keep rounds as lists of match dicts that advance builds on
 * the fly; the shapes, the pairing rules and the upper-bracket step are
 * common to both and live here. A BYE is the dict {'name': 'BYE', 'id': None};
 * uuids are fresh naturals drawn from a counter.
 */
module DictBracket {
  import opened Common
  import opened Text
  import opened Sorting

  /** A player dict: name, osu! id, pp (as an integer key) and the dropped_from_round tag. */
  datatype DPlayer = DPlayer(name: string, id: Option<int>, pp: int, dropped: Option<int>)

  const Bye: DPlayer := DPlayer("BYE", None, 0, None)

  /** The source recognises a BYE by its name alone. */
  predicate IsBye(p: DPlayer) {
    p.name == "BYE"
  }

  /** `p.get('id')` is truthy. */
  predicate HasId(p: DPlayer) {
    p.id.Some? && p.id.value != 0
  }

  datatype DMatch = DMatch(id: nat, player1: DPlayer, player2: DPlayer, winner: Option<DPlayer>,
                           isGrandFinals: bool)

  /** The tournament record: competitors, the three bracket keys, loser_pool and the id counter. */
  datatype Tour = Tour(competitors: seq<DPlayer>, upper: seq<seq<DMatch>>, lower: seq<seq<DMatch>>,
                       grandFinals: Option<DMatch>, loserPool: Option<seq<DPlayer>>, next: nat)

  function Last<T>(s: seq<T>): T
    requires s != []
  {
    s[|s| - 1]
  }

  /** A new match dict; a BYE in seat 2 hands the win to seat 1 at once. */
  function NewMatch(id: nat, p1: DPlayer, p2: DPlayer): DMatch {
    DMatch(id, p1, p2, if IsBye(p2) then Some(p1) else None, false)
  }

  function Seat(m: DMatch, slot: nat): DPlayer {
    if slot == 0 then m.player1 else m.player2
  }

  /** pool[j], or a BYE past the end. */
  function Partner(pool: seq<DPlayer>, j: nat): DPlayer {
    if j < |pool| then pool[j] else Bye
  }

  /**
   * `for i in range(0, len(pool), 2)`: pool[i] against pool[i + 1], the last
   * player against a BYE when the count is odd. Every pool entry keeps its
   * place and nothing else is seated.
   */
  function PairConsecutive(pool: seq<DPlayer>, next: nat): (r: seq<DMatch>)
    ensures |pool| <= 2 * |r| <= |pool| + 1
    ensures forall k :: 0 <= k < |r| ==>
              r[k].id == next + k && !r[k].isGrandFinals && r[k].player1 == pool[2 * k] &&
              r[k].player2 == (if 2 * k + 1 < |pool| then pool[2 * k + 1] else Bye) &&
              r[k].winner == (if IsBye(r[k].player2) then Some(r[k].player1) else None)
  {
    seq((|pool| + 1) / 2, k requires 0 <= k < (|pool| + 1) / 2 =>
          NewMatch(next + k, pool[2 * k], Partner(pool, 2 * k + 1)))
  }

  /** The pairing loop of both applications. */
  method PairUp(pool: seq<DPlayer>, next: nat) returns (ms: seq<DMatch>)
    ensures ms == PairConsecutive(pool, next)
  {
    ms := [];
    var i := 0;
    while i < |pool|
      invariant i == 2 * |ms| <= |pool| + 1
      invariant forall k :: 0 <= k < |ms| ==> ms[k] == NewMatch(next + k, pool[2 * k], Partner(pool, 2 * k + 1))
    {
      var p2 := if i + 1 < |pool| then pool[i + 1] else Bye;
      ms := ms + [NewMatch(next + |ms|, pool[i], p2)];
      i := i + 2;
    }
    var r := PairConsecutive(pool, next);
    assert |ms| == |r|;
  }

  /** `1 << (n - 1).bit_length()`: the smallest power of two not below n. */
  function FieldSize(n: nat): (p: nat)
    requires n >= 1
    ensures p >= n && p == Pow2(BitLength(n - 1))
  {
    BitLengthBounds(n - 1);
    Pow2(BitLength(n - 1))
  }

  /** The competitors followed by enough BYEs to fill the field. */
  function Padded(comps: seq<DPlayer>): (r: seq<DPlayer>)
    requires |comps| >= 1
    ensures |r| == FieldSize(|comps|) && r[..|comps|] == comps
    ensures forall i :: |comps| <= i < |r| ==> r[i] == Bye
  {
    comps + seq(FieldSize(|comps|) - |comps|, _ => Bye)
  }

  /** The bye-padding loop of generate_bracket. */
  method PadWithByes(comps: seq<DPlayer>) returns (seeded: seq<DPlayer>)
    requires |comps| >= 1
    ensures seeded == Padded(comps)
  {
    var size := FieldSize(|comps|);
    seeded := comps;
    var k := 0;
    while k < size - |comps|
      invariant 0 <= k <= size - |comps|
      invariant seeded == comps + seq(k, _ => Bye)
    {
      seeded := seeded + [Bye];
      k := k + 1;
    }
  }

  /** The top half against the reversed bottom half. */
  function PairHalves(seeded: seq<DPlayer>, next: nat): (r: seq<DMatch>)
    ensures |r| == |seeded| / 2
    ensures forall i :: 0 <= i < |r| ==> r[i] == NewMatch(next + i, seeded[i], seeded[|seeded| - 1 - i])
  {
    seq(|seeded| / 2, i requires 0 <= i < |seeded| / 2 => NewMatch(next + i, seeded[i], seeded[|seeded| - 1 - i]))
  }

  /** The match loop of generate_bracket. */
  method PairHalvesLoop(seeded: seq<DPlayer>, next: nat) returns (ms: seq<DMatch>)
    ensures ms == PairHalves(seeded, next)
  {
    var half := |seeded| / 2;
    var top := seeded[..half];
    var bottom := Reversed(seeded[half..]);
    ms := [];
    var i := 0;
    while i < half
      invariant 0 <= i <= half
      invariant |ms| == i
      invariant forall k :: 0 <= k < i ==> ms[k] == NewMatch(next + k, seeded[k], seeded[|seeded| - 1 - k])
    {
      ms := ms + [NewMatch(next + i, top[i], bottom[i])];
      i := i + 1;
    }
  }

  /**
   * generate_bracket, in both applications: fewer than two competitors leave
   * only empty upper and lower lists; otherwise round 0 is built and the lower
   * bracket reset, and every other bracket key (grand finals) stays.
   */
  function Generated(t: Tour): (r: Tour)
    ensures |t.competitors| < 2 ==> r == t.(upper := [], lower := [], grandFinals := None)
    ensures |t.competitors| >= 2 ==>
              r == t.(upper := [PairHalves(Padded(t.competitors), t.next)], lower := [],
                      next := t.next + FieldSize(|t.competitors|) / 2)
  {
    if |t.competitors| < 2 then t.(upper := [], lower := [], grandFinals := None)
    else
      var round := PairHalves(Padded(t.competitors), t.next);
      t.(upper := [round], lower := [], next := t.next + |round|)
  }

  /** The pp-descending sort key of save_tournament_data. */
  function PpKey(p: DPlayer): (int, int) {
    (-p.pp, 0)
  }

  /** save_tournament_data sorts the competitors by pp, highest first, keeping ties in order. */
  function Saved(t: Tour): (r: Tour)
    ensures r.(competitors := t.competitors) == t
    ensures SortedBy(r.competitors, PpKey) && multiset(r.competitors) == multiset(t.competitors)
  {
    t.(competitors := SortBy(t.competitors, PpKey))
  }

  /** `str(p['id']) == winner_id` for a player with a truthy id. */
  predicate Picks(p: DPlayer, wid: string) {
    HasId(p) && IntToString(p.id.value) == wid
  }

  /** The match set_winner acts on: the right id and a seat the winner id names. */
  predicate Qualifies(m: DMatch, mid: nat, wid: string) {
    m.id == mid && (Picks(m.player1, wid) || Picks(m.player2, wid))
  }

  function FirstInRow(row: seq<DMatch>, mid: nat, wid: string): (r: Option<nat>)
    ensures r.Some? ==> r.value < |row| && Qualifies(row[r.value], mid, wid) &&
                        forall j :: 0 <= j < r.value ==> !Qualifies(row[j], mid, wid)
    ensures r.None? ==> forall j :: 0 <= j < |row| ==> !Qualifies(row[j], mid, wid)
  {
    if row == [] then None
    else if Qualifies(row[0], mid, wid) then Some(0)
    else
      match FirstInRow(row[1..], mid, wid)
      case None => None
      case Some(j) => Some(j + 1)
  }

  /** The first qualifying match in the order the nested loops of set_winner visit. */
  function FirstCell(rows: seq<seq<DMatch>>, mid: nat, wid: string): (r: Option<(nat, nat)>)
    ensures r.Some? ==> InGrid(rows, r.value.0, r.value.1) && Qualifies(rows[r.value.0][r.value.1], mid, wid) &&
                        forall x, y :: InGrid(rows, x, y) && CellBefore(x, y, r.value.0, r.value.1) ==>
                                       !Qualifies(rows[x][y], mid, wid)
    ensures r.None? ==> forall x, y :: InGrid(rows, x, y) ==> !Qualifies(rows[x][y], mid, wid)
  {
    if rows == [] then None
    else
      match FirstInRow(rows[0], mid, wid)
      case Some(i) => Some((0, i))
      case None =>
        var rest := FirstCell(rows[1..], mid, wid);
        assert forall x, y :: InGrid(rows, x, y) && x > 0 ==> rows[x][y] == rows[1..][x - 1][y];
        match rest
        case None => None
        case Some(c) => Some((c.0 + 1, c.1))
  }

  /** A qualifying cell with none before it is what FirstCell finds. */
  lemma FirstCellIs(rows: seq<seq<DMatch>>, mid: nat, wid: string, x: nat, y: nat)
    requires InGrid(rows, x, y) && Qualifies(rows[x][y], mid, wid)
    requires forall x', y' :: InGrid(rows, x', y') && CellBefore(x', y', x, y) ==> !Qualifies(rows[x'][y'], mid, wid)
    ensures FirstCell(rows, mid, wid) == Some((x, y))
  {
    var r := FirstCell(rows, mid, wid);
    assert r.Some?;
    assert !CellBefore(r.value.0, r.value.1, x, y);
    assert !CellBefore(x, y, r.value.0, r.value.1);
  }

  /** The nested search loops of set_winner, stopping at the first match they act on. */
  method FindCell(rows: seq<seq<DMatch>>, mid: nat, wid: string) returns (r: Option<(nat, nat)>)
    ensures r == FirstCell(rows, mid, wid)
  {
    var x := 0;
    while x < |rows|
      invariant 0 <= x <= |rows|
      invariant forall x', y' :: InGrid(rows, x', y') && x' < x ==> !Qualifies(rows[x'][y'], mid, wid)
    {
      var y := 0;
      while y < |rows[x]|
        invariant 0 <= y <= |rows[x]|
        invariant forall x', y' :: InGrid(rows, x', y') && CellBefore(x', y', x, y) ==> !Qualifies(rows[x'][y'], mid, wid)
      {
        var m := rows[x][y];
        if m.id == mid && (Picks(m.player1, wid) || Picks(m.player2, wid)) {
          FirstCellIs(rows, mid, wid, x, y);
          return Some((x, y));
        }
        y := y + 1;
      }
      x := x + 1;
    }
    r := None;
  }

  /** The rounds set_winner searches: upper, lower and, in old/app.py, the grand final. */
  function SearchRows(t: Tour, withFinals: bool): seq<seq<DMatch>> {
    t.upper + t.lower + (if withFinals && t.grandFinals.Some? then [[t.grandFinals.value]] else [])
  }

  /** The winner assignment: player 1 when the id names player 1, else player 2. */
  function Decide(m: DMatch, wid: string): (r: DMatch)
    ensures Qualifies(m, m.id, wid) ==> r.winner.Some? && Picks(r.winner.value, wid) &&
                                        (r.winner == Some(m.player1) || r.winner == Some(m.player2))
    ensures r.(winner := m.winner) == m
  {
    m.(winner := Some(if Picks(m.player1, wid) then m.player1 else m.player2))
  }

  /** The record with m written at cell (x, y) of the searched rounds. */
  function Place(t: Tour, withFinals: bool, x: nat, y: nat, m: DMatch): Tour
    requires InGrid(SearchRows(t, withFinals), x, y)
  {
    if x < |t.upper| then t.(upper := t.upper[x := t.upper[x][y := m]])
    else if x < |t.upper| + |t.lower| then
      t.(lower := t.lower[x - |t.upper| := t.lower[x - |t.upper|][y := m]])
    else t.(grandFinals := Some(m))
  }

  /** Writing a cell changes that cell of the searched rounds and nothing else of the record. */
  lemma PlaceWrites(t: Tour, withFinals: bool, x: nat, y: nat, m: DMatch)
    requires InGrid(SearchRows(t, withFinals), x, y)
    ensures var r := Place(t, withFinals, x, y, m);
            var rows := SearchRows(t, withFinals);
            |r.upper| == |t.upper| && |r.lower| == |t.lower| && r.grandFinals.Some? == t.grandFinals.Some? &&
            r.(upper := t.upper, lower := t.lower, grandFinals := t.grandFinals) == t &&
            SearchRows(r, withFinals) == rows[x := rows[x][y := m]]
  {
    var gfRows := if withFinals && t.grandFinals.Some? then [[t.grandFinals.value]] else [];
    var rows := SearchRows(t, withFinals);
    var r := Place(t, withFinals, x, y, m);
    var v := rows[x][y := m];
    if x < |t.upper| {
      UpdateLeft(t.upper, t.lower + gfRows, x, v);
      assert t.upper + (t.lower + gfRows) == rows;
      assert r.upper + (t.lower + gfRows) == SearchRows(r, withFinals);
    } else if x < |t.upper| + |t.lower| {
      UpdateRight(t.upper, t.lower + gfRows, x, v);
      UpdateLeft(t.lower, gfRows, x - |t.upper|, v);
      assert t.upper + (t.lower + gfRows) == rows;
      assert t.upper + (r.lower + gfRows) == SearchRows(r, withFinals);
    } else {
      assert gfRows == [[t.grandFinals.value]] && y == 0;
      UpdateRight(t.upper + t.lower, gfRows, x, v);
      assert rows[x] == gfRows[x - |t.upper + t.lower|] == [t.grandFinals.value];
      assert v == [m];
      assert gfRows[x - |t.upper + t.lower| := v] == [[m]];
    }
  }

  lemma UpdateLeft<T>(a: seq<T>, b: seq<T>, x: nat, v: T)
    requires x < |a|
    ensures (a + b)[x := v] == a[x := v] + b
  {
  }

  lemma UpdateRight<T>(a: seq<T>, b: seq<T>, x: nat, v: T)
    requires |a| <= x < |a| + |b|
    ensures (a + b)[x := v] == a + b[x - |a| := v]
  {
  }

  /** set_winner before its call to advance. */
  function WithWinner(t: Tour, withFinals: bool, mid: nat, wid: string): Tour {
    var rows := SearchRows(t, withFinals);
    match FirstCell(rows, mid, wid)
    case None => t
    case Some(c) => Place(t, withFinals, c.0, c.1, Decide(rows[c.0][c.1], wid))
  }

  /**
   * set_winner changes one match at most: the first match with id mid and a
   * seat the winner id names gets that seat as winner. With no such match no
   * field of any match changes.
   */
  lemma WinnerOnlyThere(t: Tour, withFinals: bool, mid: nat, wid: string)
    ensures var r := WithWinner(t, withFinals, mid, wid);
            var rows := SearchRows(t, withFinals);
            var c := FirstCell(rows, mid, wid);
            (c.None? ==> r == t) &&
            (c.Some? ==> r.(upper := t.upper, lower := t.lower, grandFinals := t.grandFinals) == t &&
                         SearchRows(r, withFinals) == rows[c.value.0 := rows[c.value.0][c.value.1 := Decide(rows[c.value.0][c.value.1], wid)]] &&
                         Decide(rows[c.value.0][c.value.1], wid).winner.Some? &&
                         Picks(Decide(rows[c.value.0][c.value.1], wid).winner.value, wid))
  {
    var rows := SearchRows(t, withFinals);
    match FirstCell(rows, mid, wid)
    case None =>
    case Some(c) =>
      PlaceWrites(t, withFinals, c.0, c.1, Decide(rows[c.0][c.1], wid));
  }

  /** `all(m.get('winner') for m in round)`. */
  predicate AllDecided(round: seq<DMatch>) {
    forall k :: 0 <= k < |round| ==> round[k].winner.Some?
  }

  /** `[m['winner'] for m in round]`. */
  function Winners(round: seq<DMatch>): (r: seq<DPlayer>)
    requires AllDecided(round)
    ensures |r| == |round| && forall k :: 0 <= k < |r| ==> Some(r[k]) == round[k].winner
  {
    seq(|round|, k requires 0 <= k < |round| => round[k].winner.value)
  }

  /** Both seats hold a player with an id: not a BYE match. */
  predicate BothIds(m: DMatch) {
    HasId(m.player1) && HasId(m.player2)
  }

  /** player 2 when the winner's id is player 1's, else player 1: the seat that did not win. */
  function Loser(m: DMatch): (r: DPlayer)
    requires m.winner.Some?
    ensures r == m.player1 || r == m.player2
    ensures m.player1.id != m.player2.id && m.winner == Some(m.player1) ==> r == m.player2
    ensures m.player1.id != m.player2.id && m.winner == Some(m.player2) ==> r == m.player1
  {
    if m.winner.value.id == m.player1.id then m.player2 else m.player1
  }

  /** The match with its loser's seat tagged dropped_from_round = ix. */
  function Tagged(m: DMatch, ix: int): (r: DMatch)
    requires m.winner.Some?
    ensures r.winner == m.winner && r.id == m.id && r.isGrandFinals == m.isGrandFinals
    ensures r.player1.(dropped := m.player1.dropped) == m.player1
    ensures r.player2.(dropped := m.player2.dropped) == m.player2
    ensures Loser(r) == Loser(m).(dropped := Some(ix))
  {
    if m.winner.value.id == m.player1.id then m.(player2 := m.player2.(dropped := Some(ix)))
    else m.(player1 := m.player1.(dropped := Some(ix)))
  }

  /** The last upper round after the loser loop: every non-BYE match has its loser tagged. */
  function TagRound(round: seq<DMatch>, ix: int): (r: seq<DMatch>)
    requires AllDecided(round)
    ensures |r| == |round| && AllDecided(r)
    ensures forall k :: 0 <= k < |r| ==> r[k] == if BothIds(round[k]) then Tagged(round[k], ix) else round[k]
  {
    seq(|round|, k requires 0 <= k < |round| => if BothIds(round[k]) then Tagged(round[k], ix) else round[k])
  }

  /**
   * The losers the loop collects: one per non-BYE match, in round order, each
   * tagged with the round index.
   */
  function Losers(round: seq<DMatch>, ix: int): (r: seq<DPlayer>)
    requires AllDecided(round)
    ensures |r| <= |round|
    ensures forall k :: 0 <= k < |r| ==> r[k].dropped == Some(ix) && HasId(r[k])
    ensures r == [] <==> forall k :: 0 <= k < |round| ==> !BothIds(round[k])
  {
    if round == [] then []
    else
      var m := Last(round);
      var rest := Losers(round[..|round| - 1], ix);
      assert forall k :: 0 <= k < |round| - 1 ==> round[..|round| - 1][k] == round[k];
      if BothIds(m) then rest + [Loser(m).(dropped := Some(ix))] else rest
  }

  /** The loser loop: tags each loser's seat and collects it. */
  method CollectLosers(round: seq<DMatch>, ix: int) returns (tagged: seq<DMatch>, losers: seq<DPlayer>)
    requires AllDecided(round)
    ensures tagged == TagRound(round, ix) && losers == Losers(round, ix)
  {
    tagged, losers := round, [];
    var k := 0;
    while k < |round|
      invariant 0 <= k <= |round| && |tagged| == |round|
      invariant losers == Losers(round[..k], ix)
      invariant forall j :: 0 <= j < k ==> tagged[j] == TagRound(round, ix)[j]
      invariant forall j :: k <= j < |round| ==> tagged[j] == round[j]
    {
      assert round[..k + 1][..k] == round[..k];
      var m := round[k];
      if HasId(m.player1) && HasId(m.player2) {
        var loser := if m.winner.value.id == m.player1.id then m.player2 else m.player1;
        loser := loser.(dropped := Some(ix));
        tagged := tagged[k := Tagged(m, ix)];
        losers := losers + [loser];
      }
      k := k + 1;
    }
    assert round[..k] == round;
  }

  /** The last upper round has been through the loser loop: one of its losers carries its tag. */
  predicate Processed(round: seq<DMatch>, ix: int)
    requires AllDecided(round)
  {
    exists k :: 0 <= k < |round| && BothIds(round[k]) && Loser(round[k]).dropped == Some(ix)
  }

  /**
   * The upper-bracket step shared by old/app.py:182-206 and app.py:176-209.
   * It runs when the last upper round is fully decided; then it tags and
   * collects that round's losers and, for more than one winner, appends the
   * next round. The guard meant to stop a second run (`len(upper) ==
   * last_index + 1`) always holds, so as written (`skipProcessed` false) the
   * step runs again on every call; the corrected step skips a round one of
   * whose losers already carries its tag. The result is the new record and,
   * when the step ran, the losers it collected.
   */
  function UpperStep(t: Tour, skipProcessed: bool): (r: (Tour, Option<seq<DPlayer>>))
    ensures r.0.(upper := t.upper, next := t.next) == t
    ensures r.1.None? <==> t.upper == [] || !AllDecided(Last(t.upper)) ||
                           (skipProcessed && Processed(Last(t.upper), |t.upper| - 1))
    ensures r.1.None? ==> r.0 == t
    ensures r.1.Some? ==>
              var last := Last(t.upper);
              r.1.value == Losers(last, |t.upper| - 1) &&
              |r.0.upper| == |t.upper| + (if |last| > 1 then 1 else 0) &&
              r.0.upper[..|t.upper| - 1] == t.upper[..|t.upper| - 1] &&
              r.0.upper[|t.upper| - 1] == TagRound(last, |t.upper| - 1) &&
              (|last| > 1 ==> Last(r.0.upper) == PairConsecutive(Winners(last), t.next) &&
                              r.0.next == t.next + (|last| + 1) / 2) &&
              (|last| <= 1 ==> r.0.next == t.next)
  {
    if t.upper == [] then (t, None)
    else
      var ix := |t.upper| - 1;
      var last := t.upper[ix];
      if !(AllDecided(last) && |t.upper| == ix + 1) || (skipProcessed && Processed(last, ix)) then (t, None)
      else
        var winners := Winners(last);
        var upper := t.upper[ix := TagRound(last, ix)];
        if |winners| > 1 then
          var round := PairConsecutive(winners, t.next);
          (t.(upper := upper + [round], next := t.next + |round|), Some(Losers(last, ix)))
        else (t.(upper := upper), Some(Losers(last, ix)))
  }

  /** The losers an upper step dropped; none when it did not run. */
  function Dropped(u: Option<seq<DPlayer>>): seq<DPlayer> {
    if u.Some? then u.value else []
  }

  /** The upper-bracket step as the source runs it, mutating the round in place. */
  method RunUpperStep(t: Tour) returns (r: Tour, dropped: Option<seq<DPlayer>>)
    ensures (r, dropped) == UpperStep(t, false)
  {
    r, dropped := t, None;
    if t.upper != [] {
      var ix := |t.upper| - 1;
      var last := t.upper[ix];
      if AllDecided(last) && |t.upper| == ix + 1 {
        var winners := Winners(last);
        var tagged, losers := CollectLosers(last, ix);
        r := r.(upper := t.upper[ix := tagged]);
        if |winners| > 1 {
          var round := PairUp(winners, t.next);
          r := r.(upper := r.upper + [round], next := t.next + |round|);
        }
        dropped := Some(losers);
      }
    }
  }

  /** No decided match of the round has a winner named like a BYE. */
  predicate NoByeWinners(round: seq<DMatch>) {
    forall k :: 0 <= k < |round| && round[k].winner.Some? ==> !IsBye(round[k].winner.value)
  }

  /**
   * With the corrected guard an upper round drops its losers once: whatever
   * the lower and grand-final steps do afterwards, the next call's upper step
   * collects nobody. The new round an upper step appends pairs two real
   * winners in its first match, so it is not decided yet; a round that stays
   * last carries the tags that mark it processed.
   */
  lemma UpperStepOnce(t: Tour, t': Tour)
    requires t.upper != [] ==> NoByeWinners(Last(t.upper))
    requires t'.upper == UpperStep(t, true).0.upper
    ensures Dropped(UpperStep(t', true).1) == []
  {
    var u := UpperStep(t, true);
    if u.1.Some? {
      var ix := |t.upper| - 1;
      var last := Last(t.upper);
      if |last| > 1 {
        var ws := Winners(last);
        var round := PairConsecutive(ws, t.next);
        assert Last(t'.upper) == round;
        assert round[0].player2 == ws[1] && Some(ws[1]) == last[1].winner;
        assert round[0].winner.None?;
      } else {
        var tagged := TagRound(last, ix);
        assert |t'.upper| == |t.upper| && Last(t'.upper) == tagged;
        if k :| 0 <= k < |last| && BothIds(last[k]) {
          assert tagged[k] == Tagged(last[k], ix);
          assert BothIds(tagged[k]) && Loser(tagged[k]).dropped == Some(ix);
          assert Processed(tagged, ix);
        } else {
          assert forall k :: 0 <= k < |tagged| ==> tagged[k] == last[k];
        }
      }
    }
  }

  /** The seats of a round in order: player 1 and player 2 of each match. */
  function Flat(ms: seq<DMatch>): (r: seq<DPlayer>)
    ensures |r| == 2 * |ms|
  {
    if ms == [] then [] else [ms[0].player1, ms[0].player2] + Flat(ms[1..])
  }

  /** The seats of f are the pool in order, then possibly one BYE. */
  predicate SeatsPool(f: seq<DPlayer>, pool: seq<DPlayer>) {
    |pool| <= |f| && f[..|pool|] == pool && (|f| == |pool| || (|f| == |pool| + 1 && f[|pool|] == Bye))
  }

  /** Pairing seats the whole pool in order, and a BYE after it when the count is odd. */
  lemma {:induction false} PairFlat(pool: seq<DPlayer>, next: nat)
    ensures SeatsPool(Flat(PairConsecutive(pool, next)), pool)
  {
    var ms := PairConsecutive(pool, next);
    if |pool| >= 2 {
      PairFlat(pool[2..], next + 1);
      PairFlatStep(pool, next);
    } else if |pool| == 1 {
      assert ms[1..] == [];
      assert Flat(ms) == [pool[0], Bye];
    } else {
      assert ms == [];
    }
  }

  lemma PairFlatStep(pool: seq<DPlayer>, next: nat)
    requires |pool| >= 2
    requires SeatsPool(Flat(PairConsecutive(pool[2..], next + 1)), pool[2..])
    ensures SeatsPool(Flat(PairConsecutive(pool, next)), pool)
  {
    var ms := PairConsecutive(pool, next);
    var tail := pool[2..];
    RestPairs(pool, next);
    var g := Flat(ms[1..]);
    var f := Flat(ms);
    assert f == [pool[0], pool[1]] + g;
    assert f[..|pool|] == [pool[0], pool[1]] + g[..|tail|];
    assert pool == [pool[0], pool[1]] + tail;
  }

  /** Pairing a pool of two or more is its first match followed by the pairing of the rest. */
  lemma RestPairs(pool: seq<DPlayer>, next: nat)
    requires |pool| >= 2
    ensures PairConsecutive(pool, next)[1..] == PairConsecutive(pool[2..], next + 1)
  {
    var ms := PairConsecutive(pool, next);
    var rest := PairConsecutive(pool[2..], next + 1);
    assert |rest| == |ms| - 1;
    forall k | 0 <= k < |rest|
      ensures rest[k] == ms[k + 1]
    {
      assert pool[2..][2 * k] == pool[2 * (k + 1)];
      assert 2 * k + 1 < |pool[2..]| ==> pool[2..][2 * k + 1] == pool[2 * (k + 1) + 1];
    }
  }

  /** Every match id is below the counter: the uuids handed out so far. */
  predicate IdsBelow(t: Tour) {
    (forall x, y :: 0 <= x < |t.upper| && 0 <= y < |t.upper[x]| ==> t.upper[x][y].id < t.next) &&
    (forall x, y :: 0 <= x < |t.lower| && 0 <= y < |t.lower[x]| ==> t.lower[x][y].id < t.next) &&
    (t.grandFinals.Some? ==> t.grandFinals.value.id < t.next)
  }

  const Alice: DPlayer := DPlayer("alice", Some(1), 200, None)
  const Bob: DPlayer := DPlayer("bob", Some(2), 100, None)
  /** Bob tagged as dropped from upper round 0. */
  const BobOut: DPlayer := Bob.(dropped := Some(0))
  /** The only upper match of a two-player bracket, won by Alice. */
  const Final: DMatch := DMatch(0, Alice, Bob, Some(Alice), false)
  const FinalTagged: DMatch := DMatch(0, Alice, BobOut, Some(Alice), false)

  /** Two competitors after Alice won the only upper match. */
  const TwoPlayers: Tour := Tour([Alice, Bob], [[Final]], [], None, None, 1)

  lemma SortedTwo()
    ensures SortBy([Alice, Bob], PpKey) == [Alice, Bob]
  {
    assert Insert(Bob, [], PpKey) == [Bob];
    assert Insert(Alice, [Bob], PpKey) == [Alice, Bob];
  }

  /** The first upper step drops Bob, with either guard. */
  lemma FirstUpperStep(skipProcessed: bool)
    ensures UpperStep(TwoPlayers, skipProcessed) == (TwoPlayers.(upper := [[FinalTagged]]), Some([BobOut]))
  {
    assert AllDecided([Final]) && Winners([Final]) == [Alice];
    assert Loser(Final) == Bob && !Processed([Final], 0);
    assert Losers([Final], 0) == [BobOut];
    assert TagRound([Final], 0) == [FinalTagged];
    assert [[Final]][0 := [FinalTagged]] == [[FinalTagged]];
  }

  /** Every later upper step drops Bob again as written, and nobody once corrected. */
  lemma RepeatedUpperStep(t: Tour)
    requires t.upper == [[FinalTagged]]
    ensures UpperStep(t, false) == (t, Some([BobOut]))
    ensures UpperStep(t, true) == (t, None)
  {
    assert AllDecided([FinalTagged]) && Winners([FinalTagged]) == [Alice];
    assert [FinalTagged][0] == FinalTagged && BothIds(FinalTagged);
    assert Loser(FinalTagged) == BobOut && Processed([FinalTagged], 0);
    assert Losers([FinalTagged], 0) == [BobOut];
    assert TagRound([FinalTagged], 0) == [FinalTagged];
    assert [[FinalTagged]][0 := [FinalTagged]] == [[FinalTagged]];
  }
}
