/**
 * The bracket of app.py: the dict rounds of DictBracket, with upper-bracket
 * losers held in a loser_pool list between calls and merged into the lower
 * bracket in pool order. This variant has no grand final.
 */
module PoolApp {
  import opened Common
  import opened Sorting
  import opened DictBracket

  /** The players waiting in loser_pool; none when the key is absent. */
  function PoolOf(t: Tour): seq<DPlayer> {
    if t.loserPool.Some? then t.loserPool.value else []
  }

  /** app.py:176-209: the upper step, after which the losers it dropped join loser_pool. */
  function PoolUpperStep(t: Tour, skipProcessed: bool): (r: Tour)
    ensures r.(upper := t.upper, next := t.next, loserPool := t.loserPool) == t
    ensures r.upper == UpperStep(t, skipProcessed).0.upper
    ensures PoolOf(r) == PoolOf(t) + Dropped(UpperStep(t, skipProcessed).1)
    ensures UpperStep(t, skipProcessed).1.Some? ==> r.loserPool.Some?
    ensures UpperStep(t, skipProcessed).1.None? ==> r == t
  {
    var u := UpperStep(t, skipProcessed);
    if u.1.Some? then u.0.(loserPool := Some(PoolOf(t) + u.1.value)) else u.0
  }

  /**
   * app.py:216-248: the first lower round takes the whole pool once it holds
   * two players; later rounds merge a fully decided last lower round's
   * winners with the pool.
   */
  function LowerStep(t: Tour): (r: Tour)
    ensures r.(lower := t.lower, next := t.next, loserPool := t.loserPool) == t
    ensures |t.lower| <= |r.lower| <= |t.lower| + 1 && r.lower[..|t.lower|] == t.lower
  {
    if t.lower == [] then FirstLower(t) else LaterLower(t)
  }

  /** app.py:216-225: with no lower round yet, a pool of two or more is popped and paired in order. */
  function FirstLower(t: Tour): (r: Tour)
    requires t.lower == []
    ensures r.(lower := t.lower, next := t.next, loserPool := t.loserPool) == t
    ensures |r.lower| <= 1
  {
    if t.loserPool.Some? && |t.loserPool.value| >= 2 then
      var round := PairConsecutive(t.loserPool.value, t.next);
      var t1 := t.(loserPool := None, next := t.next + |round|);
      if round != [] then t1.(lower := [round]) else t1
    else t
  }

  /**
   * app.py:226-248: once the last lower round is fully decided, its winners
   * followed by the pool form the next round; the pool is popped whenever
   * that round is decided, even when fewer than two players result.
   */
  function LaterLower(t: Tour): (r: Tour)
    requires t.lower != []
    ensures r.(lower := t.lower, next := t.next, loserPool := t.loserPool) == t
    ensures |t.lower| <= |r.lower| <= |t.lower| + 1 && r.lower[..|t.lower|] == t.lower
  {
    var last := Last(t.lower);
    if !AllDecided(last) then t
    else
      var pool := Winners(last) + PoolOf(t);
      var t1 := t.(loserPool := None);
      if |pool| >= 2 then
        var round := PairConsecutive(pool, t.next);
        var t2 := t1.(next := t.next + |round|);
        // app.py:247 compares len(lower) with len(lower[:-1]) + 1, which always holds
        if |t.lower| == |t.lower[..|t.lower| - 1]| + 1 then t2.(lower := t.lower + [round]) else t2
      else t1
  }

  /** The first lower round is built from the pool, in pool order, exactly when the pool holds two or more. */
  lemma FirstLowerFromPool(t: Tour)
    requires t.lower == []
    ensures var r := LowerStep(t);
            (|r.lower| == 1 <==> |PoolOf(t)| >= 2) &&
            (|PoolOf(t)| >= 2 ==> r.loserPool.None? && SeatsPool(Flat(r.lower[0]), PoolOf(t))) &&
            (|PoolOf(t)| < 2 ==> r == t)
  {
    if |PoolOf(t)| >= 2 {
      PairFlat(PoolOf(t), t.next);
    }
  }

  /**
   * A later lower round forms exactly when the last lower round is fully
   * decided and its winners and the pool make two or more; it seats the
   * winners, then the pool, in that order.
   */
  lemma LaterLowerMerge(t: Tour)
    requires t.lower != []
    ensures var r := LowerStep(t);
            (|r.lower| == |t.lower| + 1 <==>
               AllDecided(Last(t.lower)) && |Winners(Last(t.lower)) + PoolOf(t)| >= 2) &&
            (|r.lower| == |t.lower| + 1 ==>
               SeatsPool(Flat(Last(r.lower)), Winners(Last(t.lower)) + PoolOf(t))) &&
            (AllDecided(Last(t.lower)) ==> r.loserPool.None?) &&
            (!AllDecided(Last(t.lower)) ==> r == t)
  {
    var last := Last(t.lower);
    if AllDecided(last) {
      var pool := Winners(last) + PoolOf(t);
      assert |t.lower[..|t.lower| - 1]| + 1 == |t.lower|;
      if |pool| >= 2 {
        PairFlat(pool, t.next);
      }
    }
  }

  /** advance_round_if_ready, then the save; `skipProcessed` false is the code as written. */
  function Advance(t: Tour, skipProcessed: bool): (r: Tour)
    ensures t.upper != [] ==> |t.upper| <= |r.upper| <= |t.upper| + 1 &&
                              r.upper[..|t.upper| - 1] == t.upper[..|t.upper| - 1]
    ensures t.upper == [] ==> r.upper == []
    ensures |t.lower| <= |r.lower| <= |t.lower| + 1 && r.lower[..|t.lower|] == t.lower
    ensures r.grandFinals == t.grandFinals
    ensures SortedBy(r.competitors, PpKey) && multiset(r.competitors) == multiset(t.competitors)
  {
    Saved(LowerStep(PoolUpperStep(t, skipProcessed)))
  }

  /** The tournament file as app.py reads and rewrites it. */
  class PoolTournament {
    var competitors: seq<DPlayer>
    var upper: seq<seq<DMatch>>
    var lower: seq<seq<DMatch>>
    var grandFinals: Option<DMatch>
    var loserPool: Option<seq<DPlayer>>
    var next: nat

    function Data(): Tour
      reads this
    {
      Tour(competitors, upper, lower, grandFinals, loserPool, next)
    }

    constructor (t: Tour)
      ensures Data() == t
    {
      competitors, upper, lower, grandFinals, loserPool, next :=
        t.competitors, t.upper, t.lower, t.grandFinals, t.loserPool, t.next;
    }

    /** generate_bracket, then the save; identical to old/app.py's. */
    method GenerateBracket()
      modifies this
      ensures Data() == Saved(Generated(old(Data())))
    {
      if |competitors| < 2 {
        upper, lower, grandFinals := [], [], None;
      } else {
        var seeded := PadWithByes(competitors);
        var round := PairHalvesLoop(seeded, next);
        upper, lower := [round], [];
        next := next + |round|;
      }
      competitors := SortBy(competitors, PpKey);
    }

    /** set_winner over upper and lower only; advance runs whether or not a match was found. */
    method SetWinner(mid: nat, wid: string)
      modifies this
      ensures Data() == Advance(WithWinner(old(Data()), false, mid, wid), false)
    {
      RecordWinner(mid, wid);
      AdvanceRoundIfReady();
    }

    method RecordWinner(mid: nat, wid: string)
      modifies this
      ensures Data() == WithWinner(old(Data()), false, mid, wid)
    {
      var rows := SearchRows(Data(), false);
      var c := FindCell(rows, mid, wid);
      if c.Some? {
        var x, y := c.value.0, c.value.1;
        var m := Decide(rows[x][y], wid);
        assert rows == upper + lower + [];
        if x < |upper| {
          upper := upper[x := upper[x][y := m]];
        } else {
          lower := lower[x - |upper| := lower[x - |upper|][y := m]];
        }
      }
    }

    /** advance_round_if_ready as written. */
    method AdvanceRoundIfReady()
      modifies this
      ensures Data() == Advance(old(Data()), false)
    {
      RunPoolUpper();
      if lower == [] {
        RunFirstLower();
      } else {
        RunLaterLower();
      }
      competitors := SortBy(competitors, PpKey);
    }

    /** The upper-bracket part: the step, then the losers appended to loser_pool. */
    method RunPoolUpper()
      modifies this
      ensures Data() == PoolUpperStep(old(Data()), false)
    {
      var t, dropped := RunUpperStep(Data());
      upper, next := t.upper, t.next;
      if dropped.Some? {
        if loserPool.None? {
          loserPool := Some([]);
        }
        loserPool := Some(loserPool.value + dropped.value);
      }
    }

    method RunFirstLower()
      requires lower == []
      modifies this
      ensures Data() == FirstLower(old(Data()))
    {
      if loserPool.Some? && |loserPool.value| >= 2 {
        var pool := loserPool.value;
        loserPool := None;
        var round := PairUp(pool, next);
        next := next + |round|;
        if round != [] {
          lower := [round];
        }
      }
    }

    method RunLaterLower()
      requires lower != []
      modifies this
      ensures Data() == LaterLower(old(Data()))
    {
      var last := lower[|lower| - 1];
      if AllDecided(last) {
        var pool := Winners(last);
        if loserPool.Some? {
          pool := pool + loserPool.value;
          loserPool := None;
        }
        assert pool == Winners(Last(old(Data()).lower)) + PoolOf(old(Data()));
        if |pool| >= 2 {
          var round := PairUp(pool, next);
          next := next + |round|;
          if |lower| == |lower[..|lower| - 1]| + 1 {
            lower := lower + [round];
          }
        }
      }
    }
  }

  /** The record after one call: Bob waits alone in the pool. */
  const AfterOne: Tour := Tour([Alice, Bob], [[FinalTagged]], [], None, Some([BobOut]), 1)

  /** The first call is the same with either guard. */
  lemma AfterFirstCall(skipProcessed: bool)
    ensures Advance(TwoPlayers, skipProcessed) == AfterOne
  {
    FirstUpperStep(skipProcessed);
    assert LowerStep(AfterOne) == AfterOne;
    SortedTwo();
  }

  /**
   * As written, the second call adds Bob to the pool again, and the first
   * lower round seats Bob against himself.
   */
  lemma AsWrittenPoolRun()
    ensures Advance(Advance(TwoPlayers, false), false).lower == [[DMatch(1, BobOut, BobOut, None, false)]]
  {
    AfterFirstCall(false);
    SecondPoolUpper();
    SecondLower();
    SortedTwo();
  }

  /** The second upper step, as written, puts Bob in the pool a second time. */
  lemma SecondPoolUpper()
    ensures PoolUpperStep(AfterOne, false) == AfterOne.(loserPool := Some([BobOut, BobOut]))
  {
    RepeatedUpperStep(AfterOne);
    assert PoolOf(AfterOne) + [BobOut] == [BobOut, BobOut];
  }

  lemma SecondLower()
    ensures var t := AfterOne.(loserPool := Some([BobOut, BobOut]));
            LowerStep(t) == t.(lower := [[DMatch(1, BobOut, BobOut, None, false)]], loserPool := None, next := 2)
  {
    assert PairConsecutive([BobOut, BobOut], 1) == [DMatch(1, BobOut, BobOut, None, false)];
  }

  /** With the corrected guard a second call adds nobody to the pool. */
  lemma CorrectedPoolOnce(t: Tour)
    requires t.upper != [] ==> NoByeWinners(Last(t.upper))
    ensures PoolOf(PoolUpperStep(Advance(t, true), true)) == PoolOf(Advance(t, true))
  {
    UpperStepOnce(t, Advance(t, true));
  }

  /** With the corrected guard Bob stays alone in the pool on every later call. */
  lemma CorrectedPoolRun()
    ensures Advance(Advance(TwoPlayers, true), true) == AfterOne
  {
    AfterFirstCall(true);
    RepeatedUpperStep(AfterOne);
    assert LowerStep(AfterOne) == AfterOne;
    SortedTwo();
  }
}
