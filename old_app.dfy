/**
 * The bracket of old/app.py: the dict rounds of DictBracket, a lower bracket
 * seeded by dropped_from_round, and a grand final created once both
 * champions are known.
 */
module OldApp {
  import opened Common
  import opened Sorting
  import opened DictBracket

  /** `(p.get('dropped_from_round', 999), -p.get('pp', 0))`. */
  function DropKey(p: DPlayer): (int, int) {
    (if p.dropped.Some? then p.dropped.value else 999, -p.pp)
  }

  /**
   * The lower-bracket step of advance_round_if_ready. It only ever appends
   * one round: the first from this call's losers when the lower bracket is
   * empty, a later one from the winners of a fully decided last lower round
   * together with the new losers.
   */
  function LowerStep(t: Tour, losers: seq<DPlayer>): (r: Tour)
    ensures r.(lower := t.lower, next := t.next) == t
    ensures |t.lower| <= |r.lower| <= |t.lower| + 1 && r.lower[..|t.lower|] == t.lower
  {
    if t.lower == [] then FirstLower(t, losers) else LaterLower(t, losers)
  }

  /** old/app.py:213-224: the first lower round from this call's losers, by pp. */
  function FirstLower(t: Tour, losers: seq<DPlayer>): (r: Tour)
    requires t.lower == []
    ensures r.(lower := t.lower, next := t.next) == t && |r.lower| <= 1
  {
    if losers == [] then t
    else
      var round := PairConsecutive(SortBy(losers, PpKey), t.next);
      var t1 := t.(next := t.next + |round|);
      if round != [] then t1.(lower := [round]) else t1
  }

  /** old/app.py:226-252: a later lower round from the last round's winners and the new losers. */
  function LaterLower(t: Tour, losers: seq<DPlayer>): (r: Tour)
    requires t.lower != []
    ensures r.(lower := t.lower, next := t.next) == t
    ensures |t.lower| <= |r.lower| <= |t.lower| + 1 && r.lower[..|t.lower|] == t.lower
  {
    var last := Last(t.lower);
    if !AllDecided(last) then t
    else
      var pool := Winners(last) + losers;
      if |pool| < 2 then t
      else
        var round := PairConsecutive(SortBy(pool, DropKey), t.next);
        var t1 := t.(next := t.next + |round|);
        if last != round then t1.(lower := t.lower + [round]) else t1
  }

  /** The first lower round seats exactly this call's losers, by pp from highest, plus a BYE when odd. */
  lemma FirstLowerRound(t: Tour, losers: seq<DPlayer>)
    requires t.lower == []
    ensures losers == [] ==> LowerStep(t, losers) == t
    ensures losers != [] ==>
              var r := LowerStep(t, losers);
              var order := SortBy(losers, PpKey);
              |r.lower| == 1 && SeatsPool(Flat(r.lower[0]), order) &&
              SortedBy(order, PpKey) && multiset(order) == multiset(losers)
  {
    if losers != [] {
      PairFlat(SortBy(losers, PpKey), t.next);
    }
  }

  /**
   * A later lower round forms only from a fully decided last lower round and
   * at least two players; it seats the winners and the new losers ordered by
   * the round they dropped from (999 for none) and then by pp. With fresh
   * uuids the comparison with the last round never blocks it.
   */
  lemma LaterLowerRound(t: Tour, losers: seq<DPlayer>)
    requires t.lower != []
    ensures var r := LowerStep(t, losers);
            |r.lower| == |t.lower| + 1 ==>
              AllDecided(Last(t.lower)) && |Winners(Last(t.lower)) + losers| >= 2 &&
              var order := SortBy(Winners(Last(t.lower)) + losers, DropKey);
              SeatsPool(Flat(Last(r.lower)), order) && SortedBy(order, DropKey) &&
              multiset(order) == multiset(Winners(Last(t.lower)) + losers)
    ensures IdsBelow(t) && AllDecided(Last(t.lower)) && |Winners(Last(t.lower)) + losers| >= 2 ==>
              |LowerStep(t, losers).lower| == |t.lower| + 1
  {
    var last := Last(t.lower);
    if AllDecided(last) {
      var pool := Winners(last) + losers;
      if |pool| >= 2 {
        var order := SortBy(pool, DropKey);
        PairFlat(order, t.next);
        var round := PairConsecutive(order, t.next);
        if IdsBelow(t) && last != [] {
          assert last[0].id < t.next == round[0].id;
        }
      }
    }
  }

  /** The upper champion: the winner of a one-match last upper round. */
  function UpperChampion(t: Tour): Option<DPlayer> {
    if t.upper != [] && |Last(t.upper)| == 1 && Last(t.upper)[0].winner.Some? then Last(t.upper)[0].winner
    else None
  }

  /** The lower champion, counted only when no loser dropped in this call. */
  function LowerChampion(t: Tour, losers: seq<DPlayer>): Option<DPlayer> {
    if t.lower != [] && |Last(t.lower)| == 1 && Last(t.lower)[0].winner.Some? && losers == [] then
      Last(t.lower)[0].winner
    else None
  }

  /**
   * The grand-final step: a grand final is created at most once, from the
   * two champions; loser_pool is deleted.
   */
  function FinalsStep(t: Tour, losers: seq<DPlayer>): (r: Tour)
    ensures r.(grandFinals := t.grandFinals, next := t.next, loserPool := t.loserPool) == t
    ensures r.loserPool.None?
    ensures t.grandFinals.Some? || losers != [] ==> r.grandFinals == t.grandFinals && r.next == t.next
    ensures r.grandFinals != t.grandFinals <==>
              t.grandFinals.None? && UpperChampion(t).Some? && LowerChampion(t, losers).Some?
    ensures r.grandFinals != t.grandFinals ==>
              r.grandFinals == Some(DMatch(t.next, UpperChampion(t).value, LowerChampion(t, losers).value, None, true)) &&
              r.next == t.next + 1
  {
    var uw := UpperChampion(t);
    var lw := LowerChampion(t, losers);
    var t1 := if uw.Some? && lw.Some? && t.grandFinals.None? then
                t.(grandFinals := Some(DMatch(t.next, uw.value, lw.value, None, true)), next := t.next + 1)
              else t;
    t1.(loserPool := None)
  }

  /**
   * advance_round_if_ready: the upper step, then the lower and grand-final
   * steps with the losers it dropped, then the save. `skipProcessed` false
   * is the code as written.
   */
  function Advance(t: Tour, skipProcessed: bool): (r: Tour)
    ensures t.upper != [] ==> |t.upper| <= |r.upper| <= |t.upper| + 1 &&
                              r.upper[..|t.upper| - 1] == t.upper[..|t.upper| - 1]
    ensures t.upper == [] ==> r.upper == []
    ensures |t.lower| <= |r.lower| <= |t.lower| + 1 && r.lower[..|t.lower|] == t.lower
    ensures t.grandFinals.Some? ==> r.grandFinals == t.grandFinals
    ensures r.loserPool.None?
    ensures SortedBy(r.competitors, PpKey) && multiset(r.competitors) == multiset(t.competitors)
  {
    var u := UpperStep(t, skipProcessed);
    var losers := Dropped(u.1);
    Saved(FinalsStep(LowerStep(u.0, losers), losers))
  }

  /** The tournament file as old/app.py reads and rewrites it. */
  class OldTournament {
    var competitors: seq<DPlayer>
    var upper: seq<seq<DMatch>>
    var lower: seq<seq<DMatch>>
    var grandFinals: Option<DMatch>
    var loserPool: Option<seq<DPlayer>>
    var next: nat

    function Data(): Tour
      reads this
    {
      Tour(competitors, upper, lower, grandFinals, loserPool, next)
    }

    constructor (t: Tour)
      ensures Data() == t
    {
      competitors, upper, lower, grandFinals, loserPool, next :=
        t.competitors, t.upper, t.lower, t.grandFinals, t.loserPool, t.next;
    }

    /** generate_bracket, then the save. */
    method GenerateBracket()
      modifies this
      ensures Data() == Saved(Generated(old(Data())))
    {
      if |competitors| < 2 {
        upper, lower, grandFinals := [], [], None;
      } else {
        var seeded := PadWithByes(competitors);
        var round := PairHalvesLoop(seeded, next);
        upper, lower := [round], [];
        next := next + |round|;
      }
      competitors := SortBy(competitors, PpKey);
    }

    /** set_winner over upper, lower and grand finals, then advance. */
    method SetWinner(mid: nat, wid: string)
      modifies this
      ensures Data() == Advance(WithWinner(old(Data()), true, mid, wid), false)
    {
      RecordWinner(mid, wid);
      AdvanceRoundIfReady();
    }

    /** The search loops of set_winner and the assignment of the winner. */
    method RecordWinner(mid: nat, wid: string)
      modifies this
      ensures Data() == WithWinner(old(Data()), true, mid, wid)
    {
      var rows := SearchRows(Data(), true);
      var c := FindCell(rows, mid, wid);
      if c.Some? {
        var x, y := c.value.0, c.value.1;
        var m := Decide(rows[x][y], wid);
        assert rows == upper + lower + (if grandFinals.Some? then [[grandFinals.value]] else []);
        if x < |upper| {
          upper := upper[x := upper[x][y := m]];
        } else if x < |upper| + |lower| {
          lower := lower[x - |upper| := lower[x - |upper|][y := m]];
        } else {
          grandFinals := Some(m);
        }
      }
    }

    /** advance_round_if_ready as written. */
    method AdvanceRoundIfReady()
      modifies this
      ensures Data() == Advance(old(Data()), false)
    {
      var t, dropped := RunUpperStep(Data());
      upper, next := t.upper, t.next;
      var losers := Dropped(dropped);
      RunLowerStep(losers);
      RunFinalsStep(losers);
      competitors := SortBy(competitors, PpKey);
    }

    /** The lower-bracket part of advance_round_if_ready. */
    method RunLowerStep(losers: seq<DPlayer>)
      modifies this
      ensures Data() == LowerStep(old(Data()), losers)
    {
      if lower == [] {
        RunFirstLower(losers);
      } else {
        RunLaterLower(losers);
      }
    }

    method RunFirstLower(losers: seq<DPlayer>)
      requires lower == []
      modifies this
      ensures Data() == FirstLower(old(Data()), losers)
    {
      if losers != [] {
        var round := PairUp(SortBy(losers, PpKey), next);
        next := next + |round|;
        if round != [] {
          lower := [round];
        }
      }
    }

    method RunLaterLower(losers: seq<DPlayer>)
      requires lower != []
      modifies this
      ensures Data() == LaterLower(old(Data()), losers)
    {
      ghost var t := Data();
      var last := lower[|lower| - 1];
      assert last == Last(t.lower);
      if AllDecided(last) {
        var pool := Winners(last) + losers;
        if |pool| >= 2 {
          var order := SortBy(pool, DropKey);
          var round := PairUp(order, next);
          assert round == PairConsecutive(order, t.next);
          next := next + |round|;
          if last != round {
            lower := lower + [round];
          }
          assert Data() == LaterLower(t, losers);
        }
      }
    }

    /** The grand-final part of advance_round_if_ready and the removal of loser_pool. */
    method RunFinalsStep(losers: seq<DPlayer>)
      modifies this
      ensures Data() == FinalsStep(old(Data()), losers)
    {
      var upperWinner: Option<DPlayer> := None;
      if upper != [] && |upper[|upper| - 1]| == 1 && upper[|upper| - 1][0].winner.Some? {
        upperWinner := upper[|upper| - 1][0].winner;
      }
      var lowerWinner: Option<DPlayer> := None;
      if lower != [] && |lower[|lower| - 1]| == 1 && lower[|lower| - 1][0].winner.Some? && losers == [] {
        lowerWinner := lower[|lower| - 1][0].winner;
      }
      if upperWinner.Some? && lowerWinner.Some? && grandFinals.None? {
        grandFinals := Some(DMatch(next, upperWinner.value, lowerWinner.value, None, true));
        next := next + 1;
      }
      loserPool := None;
    }
  }

  /** The upper final is decided between two players with ids. */
  predicate UpperFinalDecided(t: Tour) {
    t.upper != [] && |Last(t.upper)| == 1 && Last(t.upper)[0].winner.Some? && BothIds(Last(t.upper)[0])
  }

  /**
   * As written, once the upper final is decided every call drops its loser
   * again, so the lower champion never counts and no grand final is ever
   * created; the state after the call is again of this kind.
   */
  lemma AsWrittenNeverCreatesFinals(t: Tour)
    requires UpperFinalDecided(t) && t.grandFinals.None?
    ensures Advance(t, false).grandFinals.None?
    ensures UpperFinalDecided(Advance(t, false))
  {
    var u := UpperStep(t, false);
    var ix := |t.upper| - 1;
    var last := Last(t.upper);
    assert AllDecided(last);
    assert Losers(last, ix) != [];
    var tagged := TagRound(last, ix);
    assert Last(u.0.upper) == tagged && tagged[0] == Tagged(last[0], ix);
  }

  const ByeRound: DMatch := DMatch(1, BobOut, Bye, Some(BobOut), false)

  /** The record after one call: Bob dropped once, into a BYE match. */
  const AfterOne: Tour := Tour([Alice, Bob], [[FinalTagged]], [[ByeRound]], None, None, 2)

  lemma FirstLowerStep()
    ensures LowerStep(TwoPlayers.(upper := [[FinalTagged]]), [BobOut]) == AfterOne
  {
    assert SortBy([BobOut], PpKey) == [BobOut];
    assert PairConsecutive([BobOut], 1) == [ByeRound];
  }

  /** The first call is the same with either guard. */
  lemma AfterFirstCall(skipProcessed: bool)
    ensures Advance(TwoPlayers, skipProcessed) == AfterOne
  {
    FirstUpperStep(skipProcessed);
    FirstLowerStep();
    assert FinalsStep(AfterOne, [BobOut]) == AfterOne;
    SortedTwo();
  }

  lemma SecondLowerStep()
    ensures LowerStep(AfterOne, [BobOut]) ==
            AfterOne.(lower := [[ByeRound], [DMatch(2, BobOut, BobOut, None, false)]], next := 3)
  {
    assert Winners([ByeRound]) + [BobOut] == [BobOut, BobOut];
    assert Insert(BobOut, [], DropKey) == [BobOut];
    assert Insert(BobOut, [BobOut], DropKey) == [BobOut, BobOut];
    assert SortBy([BobOut, BobOut], DropKey) == [BobOut, BobOut];
    assert PairConsecutive([BobOut, BobOut], 2) == [DMatch(2, BobOut, BobOut, None, false)];
  }

  /**
   * As written, two calls with no new result seat Bob against himself in the
   * lower bracket, and no grand final appears.
   */
  lemma AsWrittenTwoPlayerRun()
    ensures var t := Advance(Advance(TwoPlayers, false), false);
            t.lower == [[ByeRound], [DMatch(2, BobOut, BobOut, None, false)]] && t.grandFinals.None?
  {
    AfterFirstCall(false);
    RepeatedUpperStep(AfterOne);
    SecondLowerStep();
  }

  /**
   * With the corrected guard no upper round drops its losers twice: the call
   * after any call collects nobody from the rounds already processed.
   */
  lemma CorrectedDropsOnce(t: Tour)
    requires t.upper != [] ==> NoByeWinners(Last(t.upper))
    ensures Dropped(UpperStep(Advance(t, true), true).1) == []
  {
    UpperStepOnce(t, Advance(t, true));
  }

  /**
   * With the corrected guard the two-player bracket gets its grand final,
   * Alice against Bob, on the second call, and a third call changes nothing.
   */
  lemma CorrectedTwoPlayerRun()
    ensures var t := Advance(Advance(TwoPlayers, true), true);
            t.grandFinals == Some(DMatch(2, Alice, BobOut, None, true)) && Advance(t, true) == t
  {
    AfterFirstCall(true);
    SecondCorrectedCall();
    ThirdCorrectedCall();
  }

  /** The record once the grand final exists. */
  const Finished: Tour := AfterOne.(grandFinals := Some(DMatch(2, Alice, BobOut, None, true)), next := 3)

  lemma SecondCorrectedCall()
    ensures Advance(AfterOne, true) == Finished
  {
    RepeatedUpperStep(AfterOne);
    assert Winners([ByeRound]) == [BobOut];
    assert LowerStep(AfterOne, []) == AfterOne;
    assert FinalsStep(AfterOne, []) == Finished;
    SortedTwo();
  }

  lemma ThirdCorrectedCall()
    ensures Advance(Finished, true) == Finished
  {
    RepeatedUpperStep(Finished);
    assert Winners([ByeRound]) == [BobOut];
    assert LowerStep(Finished, []) == Finished;
    assert FinalsStep(Finished, []) == Finished;
    SortedTwo();
  }

  /*
   * A four-player bracket whose upper final is decided before the first
   * lower match: Ann beat Dee and Ben beat Cid in upper round 0, Ann beat
   * Ben in the upper final, and Cid against Dee is still open.
   */
  const Ann: DPlayer := DPlayer("ann", Some(1), 400, None)
  const Ben: DPlayer := DPlayer("ben", Some(2), 300, None)
  const CidOut: DPlayer := DPlayer("cid", Some(3), 200, Some(0))
  const DeeOut: DPlayer := DPlayer("dee", Some(4), 100, Some(0))
  /** Ben tagged as dropped from the upper final, round 1. */
  const BenOut: DPlayer := Ben.(dropped := Some(1))
  const FirstUpper: seq<DMatch> := [DMatch(0, Ann, DeeOut, Some(Ann), false), DMatch(1, Ben, CidOut, Some(Ben), false)]
  const OpenLower: seq<DMatch> := [DMatch(3, CidOut, DeeOut, None, false)]
  const DecidedLower: seq<DMatch> := [DMatch(3, CidOut, DeeOut, Some(CidOut), false)]
  const Lagging: Tour :=
    Tour([Ann, Ben, CidOut, DeeOut], [FirstUpper, [DMatch(2, Ann, Ben, Some(Ann), false)]], [OpenLower], None, None, 4)

  const UpperFinal: DMatch := DMatch(2, Ann, Ben, Some(Ann), false)
  const UpperFinalTagged: DMatch := DMatch(2, Ann, BenOut, Some(Ann), false)
  /** The record once the upper final has been through the loser loop. */
  const LaggingTagged: Tour := Lagging.(upper := [FirstUpper, [UpperFinalTagged]])
  /** The same record after Cid's win over Dee is recorded. */
  const CaughtUp: Tour := LaggingTagged.(lower := [DecidedLower])

  lemma LaggingSorted()
    ensures Saved(LaggingTagged) == LaggingTagged && Saved(CaughtUp) == CaughtUp
  {
    assert SortedBy(Lagging.competitors, PpKey);
    SortSorted(Lagging.competitors, PpKey);
  }

  lemma LaggingUpperStep()
    ensures UpperStep(Lagging, true) == (LaggingTagged, Some([BenOut]))
  {
    assert Last(Lagging.upper) == [UpperFinal];
    assert Loser(UpperFinal) == Ben;
    assert !Processed([UpperFinal], 1);
    assert Losers([UpperFinal], 1) == [BenOut];
    assert TagRound([UpperFinal], 1) == [UpperFinalTagged];
    assert Lagging.upper[1 := [UpperFinalTagged]] == LaggingTagged.upper;
  }

  lemma CaughtUpUpperStep()
    ensures UpperStep(CaughtUp, true) == (CaughtUp, None)
  {
    assert Last(CaughtUp.upper) == [UpperFinalTagged];
    assert BothIds(UpperFinalTagged) && Loser(UpperFinalTagged).dropped == Some(1);
    assert [UpperFinalTagged][0] == UpperFinalTagged;
    assert Processed([UpperFinalTagged], 1);
  }

  lemma CaughtUpFinals()
    ensures FinalsStep(LowerStep(CaughtUp, []), []) ==
            CaughtUp.(grandFinals := Some(DMatch(4, Ann, CidOut, None, true)), next := 5)
  {
    assert Winners(DecidedLower) == [CidOut];
    assert LowerStep(CaughtUp, []) == CaughtUp;
    assert UpperChampion(CaughtUp) == Some(Ann);
    assert LowerChampion(CaughtUp, []) == Some(CidOut);
  }

  /**
   * With the corrected guard alone, the call that processes the upper final
   * drops Ben while the lower round is still open, so the lower step does
   * not seat him; once Cid wins, the next call sees the upper final as
   * processed and makes Ann against Cid the grand final. Ben never plays in
   * the lower bracket.
   */
  lemma CorrectedSkipsLaggingLoser()
    ensures Advance(Lagging, true) == LaggingTagged && LaggingTagged.lower == Lagging.lower
    ensures Advance(CaughtUp, true) ==
            CaughtUp.(grandFinals := Some(DMatch(4, Ann, CidOut, None, true)), next := 5)
  {
    LaggingUpperStep();
    LaggingSorted();
    assert LowerStep(LaggingTagged, [BenOut]) == LaggingTagged;
    assert FinalsStep(LaggingTagged, [BenOut]) == LaggingTagged;
    CaughtUpUpperStep();
    CaughtUpFinals();
  }

  lemma CaughtUpUpperAsWritten()
    ensures UpperStep(CaughtUp, false) == (CaughtUp, Some([BenOut]))
  {
    assert Last(CaughtUp.upper) == [UpperFinalTagged];
    assert AllDecided([UpperFinalTagged]) && BothIds(UpperFinalTagged);
    assert Losers([UpperFinalTagged], 1) == [BenOut];
    assert TagRound([UpperFinalTagged], 1) == [UpperFinalTagged];
    assert CaughtUp.upper[1 := [UpperFinalTagged]] == CaughtUp.upper;
  }

  lemma CaughtUpLowerAsWritten()
    ensures LowerStep(CaughtUp, [BenOut]).lower == [DecidedLower, [DMatch(4, CidOut, BenOut, None, false)]]
  {
    assert Winners(DecidedLower) + [BenOut] == [CidOut, BenOut];
    assert Insert(BenOut, [], DropKey) == [BenOut];
    assert Insert(CidOut, [BenOut], DropKey) == [CidOut, BenOut];
    assert SortBy([CidOut, BenOut], DropKey) == [CidOut, BenOut];
    assert PairConsecutive([CidOut, BenOut], 4) == [DMatch(4, CidOut, BenOut, None, false)];
  }

  /** As written, the caught-up record seats Ben against Cid in a new lower round. */
  lemma AsWrittenSeatsLaggingLoser()
    ensures Advance(CaughtUp, false).lower == [DecidedLower, [DMatch(4, CidOut, BenOut, None, false)]]
  {
    CaughtUpUpperAsWritten();
    CaughtUpLowerAsWritten();
  }
}
