/**
 * Why the `while changed` loop of advance stops, and what holds once it has.
 *
 * On a table with the generated shape every routed seat has exactly one
 * feeder (Writer): an earlier match and the path (winner or loser) along
 * which it sends a player. Demand is the player that feeder currently sends.
 * Every fill writes the demanded player into its seat, so the number of
 * seats that disagree with their demand goes down; upper seats first, since
 * a write there can change what a lower seat demands, then lower and
 * grand-final seats, then the number of waiting matches (the reset).
 */
module EngineProofs {
  import opened Common
  import opened EngineModel

  datatype Feed = WinnerFeed | LoserFeed

  /** The match and path feeding seat s of t (the inverse of the routing rules). */
  function Writer(rounds: nat, t: Key, s: nat): Option<(Key, Feed)> {
    match t.bracket
    case Upper =>
      if t.round >= 1 then Some((Key(Upper, t.round - 1, 2 * t.idx + s), WinnerFeed)) else None
    case Lower =>
      if t.round == 0 then Some((Key(Upper, 0, 2 * t.idx + s), LoserFeed))
      else if t.round % 2 == 1 then
        if s == 0 then Some((Key(Lower, t.round - 1, t.idx), WinnerFeed))
        else Some((Key(Upper, (t.round + 1) / 2, t.idx), LoserFeed))
      else Some((Key(Lower, t.round - 1, 2 * t.idx + s), WinnerFeed))
    case GrandFinals =>
      if t == GF0 && rounds >= 1 then
        if s == 0 then Some((Key(Upper, rounds - 1, 0), WinnerFeed))
        else if rounds >= 2 then Some((Key(Lower, 2 * rounds - 3, 0), WinnerFeed))
        else None
      else None
  }

  /** The player a match sends along a path: nothing until it is decided. */
  function Produced(m: Match, feed: Feed): Option<CompetitorId> {
    if Decided(m) then (if feed == LoserFeed then LoserOf(m) else m.winner) else None
  }

  function Demand(rounds: nat, ms: Table, t: Key, s: nat): Option<CompetitorId> {
    match Writer(rounds, t, s)
    case None => None
    case Some(w) => if w.0 in ms then Produced(ms[w.0], w.1) else None
  }

  predicate OnSide(t: Key, upperSide: bool) {
    if upperSide then t.bracket == Upper else t.bracket == Lower || t == GF0
  }

  predicate Wrong(rounds: nat, ms: Table, t: Key, s: nat) {
    t in ms && Demand(rounds, ms, t, s).Some? && Seat(ms[t], s) != Demand(rounds, ms, t, s)
  }

  function WrongSeats(rounds: nat, ms: Table, upperSide: bool, s: nat): set<Key> {
    set t | t in ms && OnSide(t, upperSide) && Wrong(rounds, ms, t, s)
  }

  function WaitingSet(ms: Table): set<Key> {
    set t | t in ms && ms[t].status == Waiting
  }

  function Measure(rounds: nat, ms: Table): (nat, nat, nat) {
    (|WrongSeats(rounds, ms, true, 0)| + |WrongSeats(rounds, ms, true, 1)|,
     |WrongSeats(rounds, ms, false, 0)| + |WrongSeats(rounds, ms, false, 1)|,
     |WaitingSet(ms)|)
  }

  predicate LexLt(a: (nat, nat, nat), b: (nat, nat, nat)) {
    a.0 < b.0 || (a.0 == b.0 && (a.1 < b.1 || (a.1 == b.1 && a.2 < b.2)))
  }

  predicate LexLe(a: (nat, nat, nat), b: (nat, nat, nat)) {
    a == b || LexLt(a, b)
  }

  lemma LexTrans(a: (nat, nat, nat), b: (nat, nat, nat), c: (nat, nat, nat))
    requires LexLe(a, b) && LexLe(b, c)
    ensures LexLe(a, c)
    ensures LexLt(a, b) || LexLt(b, c) ==> LexLt(a, c)
  {
  }

  lemma SubsetCard<T>(a: set<T>, b: set<T>)
    requires a <= b
    ensures |a| <= |b|
  {
    assert b == a + (b - a);
  }

  lemma ProperSubsetCard<T>(a: set<T>, b: set<T>)
    requires a < b
    ensures |a| < |b|
  {
    assert b == a + (b - a);
    assert b - a != {};
  }

  /** Two seat counts, one of them strictly smaller and neither larger. */
  lemma PairShrinks<T>(a0: set<T>, b0: set<T>, a1: set<T>, b1: set<T>)
    requires a0 <= b0 && a1 <= b1 && (a0 < b0 || a1 < b1)
    ensures |a0| + |a1| < |b0| + |b1|
  {
    SubsetCard(a0, b0);
    SubsetCard(a1, b1);
    if a0 < b0 { ProperSubsetCard(a0, b0); } else { ProperSubsetCard(a1, b1); }
  }

  /**
   * Replacing the match at t by one advance may produce changes no demand,
   * except demands for t's loser when t's seats moved.
   */
  lemma DemandAfterWrite(rounds: nat, ms: Table, t: Key, m': Match, t': Key, s': nat)
    requires t in ms && Kept(ms[t], m')
    requires Writer(rounds, t', s') != Some((t, LoserFeed)) || (m'.p1 == ms[t].p1 && m'.p2 == ms[t].p2)
    ensures Demand(rounds, ms[t := m'], t', s') == Demand(rounds, ms, t', s')
  {
  }

  /** A write at t changes no seat but the written one, and keeps the demands of `side`. */
  lemma SideAfterWrite(rounds: nat, ms: Table, t: Key, m': Match, s: nat, upperSide: bool, s': nat)
    requires t in ms && Kept(ms[t], m') && s < 2 && s' < 2
    requires s == 0 ==> m'.p2 == ms[t].p2
    requires s != 0 ==> m'.p1 == ms[t].p1
    requires Seat(m', s) == Seat(ms[t], s) || (Seat(m', s) == Demand(rounds, ms, t, s) && Seat(m', s).Some?)
    requires forall t0 :: t0 in ms && OnSide(t0, upperSide) ==>
               Demand(rounds, ms[t := m'], t0, s') == Demand(rounds, ms, t0, s')
    ensures WrongSeats(rounds, ms[t := m'], upperSide, s') <= WrongSeats(rounds, ms, upperSide, s')
    ensures Seat(m', s) != Seat(ms[t], s) && OnSide(t, upperSide) && s' == s ==>
              WrongSeats(rounds, ms[t := m'], upperSide, s') < WrongSeats(rounds, ms, upperSide, s')
  {
    var ms' := ms[t := m'];
    forall t0 | t0 in WrongSeats(rounds, ms', upperSide, s')
      ensures t0 in WrongSeats(rounds, ms, upperSide, s')
    {
      if t0 == t && s' == s {
        assert Seat(m', s) == Seat(ms[t], s);
      }
    }
    if Seat(m', s) != Seat(ms[t], s) && OnSide(t, upperSide) && s' == s {
      assert t in WrongSeats(rounds, ms, upperSide, s');
      assert t !in WrongSeats(rounds, ms', upperSide, s');
    }
  }

  /** A demanded seat written into an upper match. */
  lemma UpperFillStep(rounds: nat, ms: Table, t: Key, pid: Option<CompetitorId>, s: nat)
    requires t in ms && t.bracket == Upper && s < 2 && pid.Some? && Demand(rounds, ms, t, s) == pid
    ensures Fill(ms[t], pid, s).1 ==>
              LexLt(Measure(rounds, ms[t := Fill(ms[t], pid, s).0]), Measure(rounds, ms))
  {
    var f := Fill(ms[t], pid, s);
    if f.1 {
      forall s' | s' < 2
        ensures WrongSeats(rounds, ms[t := f.0], true, s') <= WrongSeats(rounds, ms, true, s')
        ensures s' == s ==> WrongSeats(rounds, ms[t := f.0], true, s') < WrongSeats(rounds, ms, true, s')
      {
        forall t0 | t0 in ms && OnSide(t0, true)
          ensures Demand(rounds, ms[t := f.0], t0, s') == Demand(rounds, ms, t0, s')
        {
          DemandAfterWrite(rounds, ms, t, f.0, t0, s');
        }
        SideAfterWrite(rounds, ms, t, f.0, s, true, s');
      }
      var ms' := ms[t := f.0];
      if s == 0 {
        PairShrinks(WrongSeats(rounds, ms', true, 0), WrongSeats(rounds, ms, true, 0),
                    WrongSeats(rounds, ms', true, 1), WrongSeats(rounds, ms, true, 1));
      } else {
        PairShrinks(WrongSeats(rounds, ms', true, 0), WrongSeats(rounds, ms, true, 0),
                    WrongSeats(rounds, ms', true, 1), WrongSeats(rounds, ms, true, 1));
      }
    }
  }

  /** The waiting set never grows under a fill. */
  lemma WaitingAfterKept(ms: Table, t: Key, m': Match)
    requires t in ms && Kept(ms[t], m')
    ensures WaitingSet(ms[t := m']) <= WaitingSet(ms)
    ensures ms[t].status == Waiting && m'.status != Waiting ==> WaitingSet(ms[t := m']) < WaitingSet(ms)
  {
    if ms[t].status == Waiting && m'.status != Waiting {
      assert t in WaitingSet(ms) && t !in WaitingSet(ms[t := m']);
    }
  }

  /** A demanded seat written into a lower-bracket match or the grand final. */
  lemma LowerFillStep(rounds: nat, ms: Table, t: Key, pid: Option<CompetitorId>, s: nat)
    requires t in ms && OnSide(t, false) && s < 2 && pid.Some? && Demand(rounds, ms, t, s) == pid
    ensures Fill(ms[t], pid, s).1 ==>
              LexLt(Measure(rounds, ms[t := Fill(ms[t], pid, s).0]), Measure(rounds, ms))
  {
    var f := Fill(ms[t], pid, s);
    if f.1 {
      var ms' := ms[t := f.0];
      forall s', side | s' < 2
        ensures WrongSeats(rounds, ms', side, s') <= WrongSeats(rounds, ms, side, s')
        ensures WrongSeats(rounds, ms', true, s') == WrongSeats(rounds, ms, true, s')
        ensures s' == s ==> WrongSeats(rounds, ms', false, s') < WrongSeats(rounds, ms, false, s')
      {
        forall t0
          ensures Demand(rounds, ms', t0, s') == Demand(rounds, ms, t0, s')
        {
          DemandAfterWrite(rounds, ms, t, f.0, t0, s');
        }
        SideAfterWrite(rounds, ms, t, f.0, s, side, s');
        SideAfterWrite(rounds, ms, t, f.0, s, false, s');
        assert WrongSeats(rounds, ms', true, s') == WrongSeats(rounds, ms, true, s');
      }
      PairShrinks(WrongSeats(rounds, ms', false, 0), WrongSeats(rounds, ms, false, 0),
                  WrongSeats(rounds, ms', false, 1), WrongSeats(rounds, ms, false, 1));
    }
  }

  lemma FrozenTrans(a: Table, b: Table, c: Table)
    requires Frozen(a, b) && Frozen(b, c)
    ensures Frozen(a, c)
  {
  }

  /**
   * A seat nobody can fill: it has no feeder, or its feeder is a first-round
   * upper match (which nothing changes) that sends nobody.
   */
  ghost predicate Unfed(rounds: nat, ms: Table, t: Key, s: nat) {
    Demand(rounds, ms, t, s).None? &&
    (Writer(rounds, t, s).None? ||
     (Writer(rounds, t, s).value.0.bracket == Upper && Writer(rounds, t, s).value.0.round == 0))
  }

  ghost predicate UnfedKept(rounds: nat, ms: Table, ms': Table) {
    ms'.Keys == ms.Keys &&
    forall t, s :: t in ms && t != GF1 && s < 2 && Unfed(rounds, ms, t, s) ==> Seat(ms'[t], s) == Seat(ms[t], s)
  }

  /**
   * A match outside the reset whose two seats nobody can fill, still empty and
   * waiting: Fill promotes only a match with both seats taken, so it stays waiting.
   */
  ghost predicate Stranded(rounds: nat, ms: Table, t: Key) {
    t in ms && t != GF1 && Unfed(rounds, ms, t, 0) && Unfed(rounds, ms, t, 1) &&
    ms[t].p1.None? && ms[t].p2.None? && ms[t].status == Waiting
  }

  ghost predicate StrandedKept(rounds: nat, ms: Table, ms': Table) {
    ms'.Keys == ms.Keys &&
    forall t :: Stranded(rounds, ms, t) ==> ms'[t].status == Waiting
  }

  /** Seat s of t has a feeder that is decided, so it sends a player or a bye's empty seat. */
  ghost predicate Fed(rounds: nat, ms: Table, t: Key, s: nat) {
    Writer(rounds, t, s).Some? && Writer(rounds, t, s).value.0 in ms &&
    Decided(ms[Writer(rounds, t, s).value.0])
  }

  /** The reset, once the grand final is decided. */
  predicate ResetFed(ms: Table, t: Key) {
    t == GF1 && GF0 in ms && Decided(ms[GF0])
  }

  /**
   * Every change has a cause: a seat changes only to a player, and only when its
   * feeder is decided (or it is the reset after the grand final); a status changes
   * only once both seats are taken (or for the reset).
   */
  ghost predicate Justified(rounds: nat, ms: Table, ms': Table) {
    ms'.Keys == ms.Keys &&
    (forall t, s :: t in ms && s < 2 && Seat(ms'[t], s) != Seat(ms[t], s) ==>
       Seat(ms'[t], s).Some? && (Fed(rounds, ms, t, s) || ResetFed(ms, t))) &&
    (forall t :: t in ms && ms'[t].status != ms[t].status ==>
       (ms'[t].p1.Some? && ms'[t].p2.Some?) || ResetFed(ms, t))
  }

  /** No match waits with both seats taken: `_fill_player` promotes it when the second is filled. */
  predicate Paired(ms: Table) {
    forall t :: t in ms && ms[t].status == Waiting ==> ms[t].p1.None? || ms[t].p2.None?
  }

  /** Causes found after a frozen step were already there before it. */
  lemma JustifiedTrans(rounds: nat, a: Table, b: Table, c: Table)
    requires Frozen(a, b) && Frozen(b, c) && Justified(rounds, a, b) && Justified(rounds, b, c)
    ensures Justified(rounds, a, c)
  {
    forall t, s | t in a && s < 2 && Seat(c[t], s) != Seat(a[t], s)
      ensures Seat(c[t], s).Some? && (Fed(rounds, a, t, s) || ResetFed(a, t))
    {
      DecidedFrozen(a, b, t, s, rounds);
    }
    forall t | t in a && c[t].status != a[t].status
      ensures (c[t].p1.Some? && c[t].p2.Some?) || ResetFed(a, t)
    {
      assert Kept(a[t], b[t]) && Kept(b[t], c[t]);
      DecidedFrozen(a, b, t, 0, rounds);
      if b[t].status != a[t].status {
        assert Seat(c[t], 0) == Seat(b[t], 0) || Seat(c[t], 0).Some?;
        assert Seat(c[t], 1) == Seat(b[t], 1) || Seat(c[t], 1).Some?;
      }
    }
  }

  /** A frozen step keeps which matches are decided, so Fed and ResetFed read back. */
  lemma DecidedFrozen(a: Table, b: Table, t: Key, s: nat, rounds: nat)
    requires Frozen(a, b)
    ensures Fed(rounds, b, t, s) ==> Fed(rounds, a, t, s)
    ensures ResetFed(b, t) ==> ResetFed(a, t)
  {
    if Writer(rounds, t, s).Some? && Writer(rounds, t, s).value.0 in a {
      assert Kept(a[Writer(rounds, t, s).value.0], b[Writer(rounds, t, s).value.0]);
    }
    if GF0 in a {
      assert Kept(a[GF0], b[GF0]);
    }
  }

  lemma UnfedStable(rounds: nat, ms: Table, ms': Table, t: Key, s: nat)
    requires ms'.Keys == ms.Keys && RootsKept(ms, ms') && Unfed(rounds, ms, t, s)
    ensures Unfed(rounds, ms', t, s)
  {
  }

  /** What a fill of one seat leaves alone. */
  lemma FillAtFrame(rounds: nat, ms: Table, t: Key, pid: Option<CompetitorId>, s: nat)
    requires s < 2 && pid.Some? && (OnSide(t, true) || OnSide(t, false))
    requires t in ms ==> Demand(rounds, ms, t, s) == pid
    ensures Frozen(ms, FillAt(ms, t, pid, s).0)
    ensures RootsKept(ms, FillAt(ms, t, pid, s).0)
    ensures !FillAt(ms, t, pid, s).1 ==> FillAt(ms, t, pid, s).0 == ms
    ensures forall t' :: t' in ms && t' != t ==> FillAt(ms, t, pid, s).0[t'] == ms[t']
    ensures t in ms ==> Seat(FillAt(ms, t, pid, s).0[t], s) == pid
    ensures t in ms && s == 0 ==> FillAt(ms, t, pid, s).0[t].p2 == ms[t].p2
    ensures t in ms && s != 0 ==> FillAt(ms, t, pid, s).0[t].p1 == ms[t].p1
    ensures UnfedKept(rounds, ms, FillAt(ms, t, pid, s).0)
    ensures StrandedKept(rounds, ms, FillAt(ms, t, pid, s).0)
    ensures Justified(rounds, ms, FillAt(ms, t, pid, s).0)
    ensures Paired(ms) ==> Paired(FillAt(ms, t, pid, s).0)
  {
    var r := FillAt(ms, t, pid, s);
    if t in ms {
      var f := Fill(ms[t], pid, s);
      assert r == (ms[t := f.0], f.1);
      assert Kept(ms[t], f.0);
    }
  }

  /** A fill of a seat with the player its feeder demands. */
  lemma FillAtStep(rounds: nat, ms: Table, t: Key, pid: Option<CompetitorId>, s: nat)
    requires s < 2 && pid.Some? && (OnSide(t, true) || OnSide(t, false))
    requires t in ms ==> Demand(rounds, ms, t, s) == pid
    ensures Frozen(ms, FillAt(ms, t, pid, s).0)
    ensures RootsKept(ms, FillAt(ms, t, pid, s).0)
    ensures FillAt(ms, t, pid, s).1 ==> LexLt(Measure(rounds, FillAt(ms, t, pid, s).0), Measure(rounds, ms))
    ensures !FillAt(ms, t, pid, s).1 ==> FillAt(ms, t, pid, s).0 == ms
    ensures forall t' :: t' in ms && t' != t ==> FillAt(ms, t, pid, s).0[t'] == ms[t']
    ensures t in ms ==> Seat(FillAt(ms, t, pid, s).0[t], s) == pid
    ensures t in ms && s == 0 ==> FillAt(ms, t, pid, s).0[t].p2 == ms[t].p2
    ensures t in ms && s != 0 ==> FillAt(ms, t, pid, s).0[t].p1 == ms[t].p1
    ensures UnfedKept(rounds, ms, FillAt(ms, t, pid, s).0)
    ensures StrandedKept(rounds, ms, FillAt(ms, t, pid, s).0)
    ensures Justified(rounds, ms, FillAt(ms, t, pid, s).0)
    ensures Paired(ms) ==> Paired(FillAt(ms, t, pid, s).0)
  {
    FillAtFrame(rounds, ms, t, pid, s);
    if t in ms {
      if t.bracket == Upper {
        UpperFillStep(rounds, ms, t, pid, s);
      } else {
        LowerFillStep(rounds, ms, t, pid, s);
      }
    }
  }

  /** Where the winner of an upper match goes when there is no next upper round. */
  lemma UpperFinalFallback(rounds: nat, ms: Table, k: Key)
    requires Shaped(rounds, ms) && k in ms && k.bracket == Upper
    requires Key(Upper, k.round + 1, k.idx / 2) !in ms
    ensures k.round == rounds - 1 && k.idx == 0
  {
    assert InSkeleton(rounds, k);
    if k.round + 1 < rounds {
      assert Pow2(rounds - 1 - k.round) == 2 * Pow2(rounds - 1 - (k.round + 1));
      assert InSkeleton(rounds, Key(Upper, k.round + 1, k.idx / 2));
    }
  }

  /** Where the winner of a lower match goes when there is no next lower match. */
  lemma LowerFinalFallback(rounds: nat, ms: Table, k: Key)
    requires Shaped(rounds, ms) && k in ms && k.bracket == Lower
    requires Key(Lower, k.round + 1, if k.round % 2 == 0 then k.idx else k.idx / 2) !in ms
    ensures rounds >= 2 && k.round == 2 * rounds - 3 && k.idx == 0
  {
    assert InSkeleton(rounds, k);
    var q := k.round / 2;
    if k.round % 2 == 0 {
      assert false;
    } else {
      assert k.round == 2 * q + 1;
      if q + 2 < rounds {
        assert (k.round + 1) / 2 == q + 1;
        assert Pow2(rounds - 2 - q) == 2 * Pow2(rounds - 2 - (q + 1));
        assert InSkeleton(rounds, Key(Lower, k.round + 1, k.idx / 2));
      }
      assert q + 2 == rounds;
    }
  }

  /** What one processed match does to the table. */
  ghost predicate StepOK(rounds: nat, ms: Table, r: (Table, bool)) {
    Frozen(ms, r.0) && RootsKept(ms, r.0) && UnfedKept(rounds, ms, r.0) && StrandedKept(rounds, ms, r.0) &&
    Justified(rounds, ms, r.0) && (Paired(ms) ==> Paired(r.0)) &&
    (r.1 ==> LexLt(Measure(rounds, r.0), Measure(rounds, ms))) &&
    (!r.1 ==> r.0 == ms)
  }

  /** A stranded match is still stranded after a step. */
  lemma StrandedStable(rounds: nat, ms: Table, ms': Table, t: Key)
    requires RootsKept(ms, ms') && UnfedKept(rounds, ms, ms') && StrandedKept(rounds, ms, ms')
    requires Stranded(rounds, ms, t)
    ensures Stranded(rounds, ms', t)
  {
    UnfedStable(rounds, ms, ms', t, 0);
    UnfedStable(rounds, ms, ms', t, 1);
    assert Seat(ms'[t], 0) == Seat(ms[t], 0) && Seat(ms'[t], 1) == Seat(ms[t], 1);
  }

  /** Two steps in a row: the flags combine with `or`, as `changed` does. */
  lemma StepCompose(rounds: nat, ms: Table, a: (Table, bool), b: (Table, bool))
    requires StepOK(rounds, ms, a) && StepOK(rounds, a.0, b)
    ensures StepOK(rounds, ms, (b.0, a.1 || b.1))
  {
    FrozenTrans(ms, a.0, b.0);
    JustifiedTrans(rounds, ms, a.0, b.0);
    forall t, s | t in ms && t != GF1 && s < 2 && Unfed(rounds, ms, t, s)
      ensures Seat(b.0[t], s) == Seat(ms[t], s)
    {
      UnfedStable(rounds, ms, a.0, t, s);
    }
    forall t | Stranded(rounds, ms, t)
      ensures b.0[t].status == Waiting
    {
      StrandedStable(rounds, ms, a.0, t);
    }
    if a.1 || b.1 {
      if a.1 && b.1 {
        LexTrans(Measure(rounds, b.0), Measure(rounds, a.0), Measure(rounds, ms));
      }
    }
  }

  lemma UpperWinnerStep(rounds: nat, ms: Table, k: Key)
    requires Shaped(rounds, ms) && k in ms && k.bracket == Upper && Decided(ms[k])
    ensures StepOK(rounds, ms, UpperWinnerPath(ms, k))
    ensures UpperWinnerPath(ms, k).0[k] == ms[k]
  {
    if Key(Upper, k.round + 1, k.idx / 2) in ms {
      UpperNextStep(rounds, ms, k);
    } else {
      UpperFinalStep(rounds, ms, k);
    }
  }

  lemma UpperNextStep(rounds: nat, ms: Table, k: Key)
    requires k in ms && k.bracket == Upper && Decided(ms[k])
    requires Key(Upper, k.round + 1, k.idx / 2) in ms
    ensures StepOK(rounds, ms, UpperWinnerPath(ms, k))
    ensures UpperWinnerPath(ms, k).0[k] == ms[k]
  {
    FillAtStep(rounds, ms, Key(Upper, k.round + 1, k.idx / 2), ms[k].winner, k.idx % 2);
  }

  lemma UpperFinalStep(rounds: nat, ms: Table, k: Key)
    requires Shaped(rounds, ms) && k in ms && k.bracket == Upper && Decided(ms[k])
    requires Key(Upper, k.round + 1, k.idx / 2) !in ms
    ensures StepOK(rounds, ms, UpperWinnerPath(ms, k))
    ensures UpperWinnerPath(ms, k).0[k] == ms[k]
  {
    UpperFinalFallback(rounds, ms, k);
    assert InSkeleton(rounds, GF0);
    FillAtStep(rounds, ms, GF0, ms[k].winner, 0);
  }

  /** The loser path, run on the table the winner path left, with k itself untouched. */
  lemma UpperLoserStep(rounds: nat, ms: Table, k: Key)
    requires k in ms && k.bracket == Upper && Decided(ms[k])
    ensures StepOK(rounds, ms, UpperLoserPath(ms, k, LoserOf(ms[k])))
  {
    var loser := LoserOf(ms[k]);
    var r := UpperLoserPath(ms, k, loser);
    if loser.None? {
      assert r == (ms, false);
      StepStill(rounds, ms);
    } else if k.round == 0 {
      assert r == FillAt(ms, Key(Lower, 0, k.idx / 2), loser, k.idx % 2);
      UpperLoserFirst(rounds, ms, k);
    } else {
      assert r == FillAt(ms, Key(Lower, 2 * k.round - 1, k.idx), loser, 1);
      UpperLoserLater(rounds, ms, k);
    }
  }

  /** A step that changes nothing is allowed. */
  lemma StepStill(rounds: nat, ms: Table)
    ensures StepOK(rounds, ms, (ms, false))
  {
  }

  /** A first-round loser drops to lower round 0. */
  lemma UpperLoserFirst(rounds: nat, ms: Table, k: Key)
    requires k in ms && k.bracket == Upper && k.round == 0 && Decided(ms[k]) && LoserOf(ms[k]).Some?
    ensures StepOK(rounds, ms, FillAt(ms, Key(Lower, 0, k.idx / 2), LoserOf(ms[k]), k.idx % 2))
  {
    var t := Key(Lower, 0, k.idx / 2);
    assert 2 * (k.idx / 2) + k.idx % 2 == k.idx;
    assert Writer(rounds, t, k.idx % 2) == Some((k, LoserFeed));
    FillAtStep(rounds, ms, t, LoserOf(ms[k]), k.idx % 2);
  }

  /** A later upper loser takes player 2 of the major lower round 2r - 1. */
  lemma UpperLoserLater(rounds: nat, ms: Table, k: Key)
    requires k in ms && k.bracket == Upper && k.round >= 1 && Decided(ms[k]) && LoserOf(ms[k]).Some?
    ensures StepOK(rounds, ms, FillAt(ms, Key(Lower, 2 * k.round - 1, k.idx), LoserOf(ms[k]), 1))
  {
    var t := Key(Lower, 2 * k.round - 1, k.idx);
    assert t.round % 2 == 1 && (t.round + 1) / 2 == k.round;
    assert Writer(rounds, t, 1) == Some((k, LoserFeed));
    FillAtStep(rounds, ms, t, LoserOf(ms[k]), 1);
  }

  lemma ProcessUpperStep(rounds: nat, ms: Table, k: Key)
    requires Shaped(rounds, ms) && k in ms && k.bracket == Upper && Decided(ms[k])
    ensures StepOK(rounds, ms, ProcessUpper(ms, k))
  {
    var win := UpperWinnerPath(ms, k);
    UpperWinnerStep(rounds, ms, k);
    UpperLoserStep(rounds, win.0, k);
    StepCompose(rounds, ms, win, UpperLoserPath(win.0, k, LoserOf(ms[k])));
  }

  lemma LowerNextStep(rounds: nat, ms: Table, k: Key)
    requires k in ms && k.bracket == Lower && Decided(ms[k])
    requires Key(Lower, k.round + 1, if k.round % 2 == 0 then k.idx else k.idx / 2) in ms
    ensures StepOK(rounds, ms, ProcessLower(ms, k))
  {
    var minor := k.round % 2 == 0;
    var tl := Key(Lower, k.round + 1, if minor then k.idx else k.idx / 2);
    FillAtStep(rounds, ms, tl, ms[k].winner, if minor then 0 else k.idx % 2);
  }

  lemma LowerFinalStep(rounds: nat, ms: Table, k: Key)
    requires Shaped(rounds, ms) && k in ms && k.bracket == Lower && Decided(ms[k])
    requires Key(Lower, k.round + 1, if k.round % 2 == 0 then k.idx else k.idx / 2) !in ms
    ensures StepOK(rounds, ms, ProcessLower(ms, k))
  {
    LowerFinalFallback(rounds, ms, k);
    FillAtStep(rounds, ms, GF0, ms[k].winner, 1);
  }

  lemma ProcessLowerStep(rounds: nat, ms: Table, k: Key)
    requires Shaped(rounds, ms) && k in ms && k.bracket == Lower && Decided(ms[k])
    ensures StepOK(rounds, ms, ProcessLower(ms, k))
  {
    if Key(Lower, k.round + 1, if k.round % 2 == 0 then k.idx else k.idx / 2) in ms {
      LowerNextStep(rounds, ms, k);
    } else {
      LowerFinalStep(rounds, ms, k);
    }
  }
  /** What the reset branch writes: only GF1, next up, each seat kept or given a player. */
  lemma ResetWrite(ms: Table)
    requires GF0 in ms && GF1 in ms && Decided(ms[GF0]) && ms[GF0].winner == ms[GF0].p2 && ms[GF1].status == Waiting
    ensures var g := ProcessGrandFinals(ms, GF0).0[GF1];
            ProcessGrandFinals(ms, GF0) == (ms[GF1 := g], true) && Kept(ms[GF1], g) && g.status == NextUp &&
            (Seat(g, 0) == Seat(ms[GF1], 0) || Seat(g, 0).Some?) &&
            (Seat(g, 1) == Seat(ms[GF1], 1) || Seat(g, 1).Some?)
  {
    var m := ms[GF0];
    var a := FillAt(ms, GF1, m.p1, 0);
    var b := FillAt(a.0, GF1, m.p2, 1);
    var ms' := b.0[GF1 := b.0[GF1].(status := NextUp)];
    assert ms' == ms[GF1 := ms'[GF1]];
  }

  /** The reset write lowers the measure: one fewer waiting match, no seat demand moved. */
  lemma ResetMeasure(rounds: nat, ms: Table, g: Match)
    requires GF1 in ms && Kept(ms[GF1], g) && ms[GF1].status == Waiting && g.status == NextUp
    ensures LexLt(Measure(rounds, ms[GF1 := g]), Measure(rounds, ms))
  {
    var ms' := ms[GF1 := g];
    forall s' | s' < 2
      ensures WrongSeats(rounds, ms', true, s') == WrongSeats(rounds, ms, true, s')
      ensures WrongSeats(rounds, ms', false, s') == WrongSeats(rounds, ms, false, s')
    {
      forall t0
        ensures Demand(rounds, ms', t0, s') == Demand(rounds, ms, t0, s')
      {
        DemandAfterWrite(rounds, ms, GF1, g, t0, s');
      }
    }
    assert GF1 in WaitingSet(ms) && GF1 !in WaitingSet(ms');
    assert WaitingSet(ms') < WaitingSet(ms);
    ProperSubsetCard(WaitingSet(ms'), WaitingSet(ms));
  }

  lemma ProcessGrandFinalsStep(rounds: nat, ms: Table, k: Key)
    requires Shaped(rounds, ms) && k in ms && k.bracket == GrandFinals && Decided(ms[k])
    ensures StepOK(rounds, ms, ProcessGrandFinals(ms, k))
  {
    var m := ms[k];
    if k.round == 0 && m.winner == m.p2 && GF1 in ms && ms[GF1].status == Waiting {
      assert InSkeleton(rounds, k) && k == GF0;
      ResetWrite(ms);
      ResetStep(rounds, ms, ProcessGrandFinals(ms, k).0[GF1]);
    }
  }

  /** The reset write is an admissible step. */
  lemma ResetStep(rounds: nat, ms: Table, g: Match)
    requires GF0 in ms && Decided(ms[GF0]) && GF1 in ms && ms[GF1].status == Waiting
    requires Kept(ms[GF1], g) && g.status == NextUp
    requires (Seat(g, 0) == Seat(ms[GF1], 0) || Seat(g, 0).Some?) && (Seat(g, 1) == Seat(ms[GF1], 1) || Seat(g, 1).Some?)
    ensures StepOK(rounds, ms, (ms[GF1 := g], true))
  {
    ResetMeasure(rounds, ms, g);
    ResetFrame(rounds, ms, g);
    ResetCaused(rounds, ms, g);
  }

  lemma ResetFrame(rounds: nat, ms: Table, g: Match)
    requires GF1 in ms && Kept(ms[GF1], g)
    ensures Frozen(ms, ms[GF1 := g]) && RootsKept(ms, ms[GF1 := g])
    ensures UnfedKept(rounds, ms, ms[GF1 := g]) && StrandedKept(rounds, ms, ms[GF1 := g])
  {
  }

  lemma ResetCaused(rounds: nat, ms: Table, g: Match)
    requires GF0 in ms && Decided(ms[GF0]) && GF1 in ms && Kept(ms[GF1], g) && g.status == NextUp
    requires (Seat(g, 0) == Seat(ms[GF1], 0) || Seat(g, 0).Some?) && (Seat(g, 1) == Seat(ms[GF1], 1) || Seat(g, 1).Some?)
    ensures Justified(rounds, ms, ms[GF1 := g]) && (Paired(ms) ==> Paired(ms[GF1 := g]))
  {
    assert ResetFed(ms, GF1);
  }

  /** One match processed: the table keeps its shape and the measure drops on a change. */
  lemma ProcessStep(rounds: nat, ms: Table, k: Key)
    requires Shaped(rounds, ms) && k in ms
    ensures StepOK(rounds, ms, Process(ms, k))
    ensures Shaped(rounds, Process(ms, k).0)
  {
    if Decided(ms[k]) {
      match k.bracket
      case Upper => ProcessUpperStep(rounds, ms, k);
      case Lower => ProcessLowerStep(rounds, ms, k);
      case GrandFinals => ProcessGrandFinalsStep(rounds, ms, k);
    }
  }

  /** A whole pass keeps the shape, and reports a change exactly when the measure dropped. */
  lemma {:induction false} PassStep(rounds: nat, ms: Table, order: seq<Key>)
    requires Shaped(rounds, ms) && forall k :: k in order ==> k in ms
    ensures StepOK(rounds, ms, Pass(ms, order))
    ensures Shaped(rounds, Pass(ms, order).0)
  {
    if order != [] {
      var front := order[..|order| - 1];
      var a := Pass(ms, front);
      PassStep(rounds, ms, front);
      ProcessStep(rounds, a.0, order[|order| - 1]);
      StepCompose(rounds, ms, a, Process(a.0, order[|order| - 1]));
    }
  }

  /** On a settled table, processing any listed match changes nothing. */
  lemma {:induction false} SettledEach(rounds: nat, ms: Table, order: seq<Key>, k: Key)
    requires Shaped(rounds, ms) && (forall k0 :: k0 in order ==> k0 in ms)
    requires Settled(ms, order) && k in order
    ensures Process(ms, k) == (ms, false)
  {
    var front := order[..|order| - 1];
    PassStep(rounds, ms, front);
    if k != order[|order| - 1] {
      assert k in front;
      SettledEach(rounds, ms, front, k);
    }
  }

  /** A fill that reports no change found the player already seated. */
  lemma QuietFill(ms: Table, t: Key, pid: Option<CompetitorId>, s: nat)
    requires t in ms && pid.Some? && !FillAt(ms, t, pid, s).1
    ensures Seat(ms[t], s) == pid && FillAt(ms, t, pid, s).0 == ms
  {
  }

  lemma UpperNextPresent(rounds: nat, ms: Table, k: Key)
    requires Shaped(rounds, ms) && k in ms && k.bracket == Upper && k.round + 1 < rounds
    ensures Key(Upper, k.round + 1, k.idx / 2) in ms
  {
    assert InSkeleton(rounds, k);
    assert Pow2(rounds - 1 - k.round) == 2 * Pow2(rounds - 1 - (k.round + 1));
    assert InSkeleton(rounds, Key(Upper, k.round + 1, k.idx / 2));
  }

  lemma UpperLastAbsent(rounds: nat, ms: Table, k: Key)
    requires Shaped(rounds, ms) && k.round + 1 == rounds
    ensures Key(Upper, k.round + 1, k.idx / 2) !in ms && GF0 in ms
  {
    assert InSkeleton(rounds, GF0);
  }

  lemma LowerDropPresent(rounds: nat, ms: Table, k: Key)
    requires Shaped(rounds, ms) && k in ms && k.bracket == Upper
    ensures k.round == 0 && rounds >= 2 ==> Key(Lower, 0, k.idx / 2) in ms
    ensures k.round > 0 ==> Key(Lower, 2 * k.round - 1, k.idx) in ms
  {
    assert InSkeleton(rounds, k);
    if k.round == 0 && rounds >= 2 {
      assert Pow2(rounds - 1) == 2 * Pow2(rounds - 2);
      assert InSkeleton(rounds, Key(Lower, 0, k.idx / 2));
    } else if k.round > 0 {
      assert (2 * k.round - 1) / 2 == k.round - 1;
      assert InSkeleton(rounds, Key(Lower, 2 * k.round - 1, k.idx));
    }
  }

  lemma LowerNextPresent(rounds: nat, ms: Table, k: Key)
    requires Shaped(rounds, ms) && k in ms && k.bracket == Lower
    ensures k.round % 2 == 0 ==> Key(Lower, k.round + 1, k.idx) in ms
    ensures k.round % 2 == 1 && k.round + 1 < 2 * (rounds - 1) ==> Key(Lower, k.round + 1, k.idx / 2) in ms
    ensures k.round + 1 == 2 * (rounds - 1) ==> Key(Lower, k.round + 1, k.idx / 2) !in ms && GF0 in ms
  {
    assert InSkeleton(rounds, k);
    assert InSkeleton(rounds, GF0);
    if k.round % 2 == 0 {
      if Key(Lower, k.round + 1, k.idx) !in ms {
        LowerFinalFallback(rounds, ms, k);
      }
    } else if k.round + 1 < 2 * (rounds - 1) {
      var q := k.round / 2;
      assert (k.round + 1) / 2 == q + 1;
      assert Pow2(rounds - 2 - q) == 2 * Pow2(rounds - 2 - (q + 1));
      assert InSkeleton(rounds, Key(Lower, k.round + 1, k.idx / 2));
    }
  }

  /** The upper routes of a decided match k, as seats that hold a given player. */
  ghost predicate UpperRouted(rounds: nat, ms: Table, k: Key)
    requires k in ms
  {
    var w := ms[k].winner;
    var l := LoserOf(ms[k]);
    (k.round + 1 < rounds ==>
       Key(Upper, k.round + 1, k.idx / 2) in ms && Seat(ms[Key(Upper, k.round + 1, k.idx / 2)], k.idx % 2) == w) &&
    (k.round + 1 == rounds ==> GF0 in ms && ms[GF0].p1 == w) &&
    (l.Some? && k.round == 0 && rounds >= 2 ==>
       Key(Lower, 0, k.idx / 2) in ms && Seat(ms[Key(Lower, 0, k.idx / 2)], k.idx % 2) == l) &&
    (l.Some? && k.round > 0 ==>
       Key(Lower, 2 * k.round - 1, k.idx) in ms && ms[Key(Lower, 2 * k.round - 1, k.idx)].p2 == l)
  }

  /** The lower route of a decided match k. */
  ghost predicate LowerRouted(rounds: nat, ms: Table, k: Key)
    requires k in ms
  {
    var w := ms[k].winner;
    (k.round % 2 == 0 ==> Key(Lower, k.round + 1, k.idx) in ms && ms[Key(Lower, k.round + 1, k.idx)].p1 == w) &&
    (k.round % 2 == 1 && k.round + 1 < 2 * (rounds - 1) ==>
       Key(Lower, k.round + 1, k.idx / 2) in ms && Seat(ms[Key(Lower, k.round + 1, k.idx / 2)], k.idx % 2) == w) &&
    (k.round + 1 == 2 * (rounds - 1) ==> GF0 in ms && ms[GF0].p2 == w)
  }

  lemma QuietUpperWinner(rounds: nat, ms: Table, k: Key)
    requires Shaped(rounds, ms) && k in ms && k.bracket == Upper && Decided(ms[k])
    requires !UpperWinnerPath(ms, k).1
    ensures UpperWinnerPath(ms, k).0 == ms
    ensures k.round + 1 < rounds ==>
              Key(Upper, k.round + 1, k.idx / 2) in ms &&
              Seat(ms[Key(Upper, k.round + 1, k.idx / 2)], k.idx % 2) == ms[k].winner
    ensures k.round + 1 == rounds ==> GF0 in ms && ms[GF0].p1 == ms[k].winner
  {
    if k.round + 1 < rounds {
      UpperNextPresent(rounds, ms, k);
      QuietFill(ms, Key(Upper, k.round + 1, k.idx / 2), ms[k].winner, k.idx % 2);
    } else if k.round + 1 == rounds {
      UpperLastAbsent(rounds, ms, k);
      QuietFill(ms, GF0, ms[k].winner, 0);
    } else {
      assert false;
    }
  }

  lemma QuietUpperLoser(rounds: nat, ms: Table, k: Key)
    requires Shaped(rounds, ms) && k in ms && k.bracket == Upper && Decided(ms[k])
    requires !UpperLoserPath(ms, k, LoserOf(ms[k])).1
    ensures LoserOf(ms[k]).Some? && k.round == 0 && rounds >= 2 ==>
              Key(Lower, 0, k.idx / 2) in ms && Seat(ms[Key(Lower, 0, k.idx / 2)], k.idx % 2) == LoserOf(ms[k])
    ensures LoserOf(ms[k]).Some? && k.round > 0 ==>
              Key(Lower, 2 * k.round - 1, k.idx) in ms && ms[Key(Lower, 2 * k.round - 1, k.idx)].p2 == LoserOf(ms[k])
  {
    LowerDropPresent(rounds, ms, k);
    var loser := LoserOf(ms[k]);
    if loser.Some? {
      if k.round == 0 && rounds >= 2 {
        QuietFill(ms, Key(Lower, 0, k.idx / 2), loser, k.idx % 2);
      } else if k.round > 0 {
        QuietFill(ms, Key(Lower, 2 * k.round - 1, k.idx), loser, 1);
      }
    }
  }

  /** A decided upper match whose processing changes nothing has its routed seats in place. */
  lemma QuietUpper(rounds: nat, ms: Table, k: Key)
    requires Shaped(rounds, ms) && k in ms && k.bracket == Upper && Decided(ms[k])
    requires Process(ms, k) == (ms, false)
    ensures UpperRouted(rounds, ms, k)
  {
    var win := UpperWinnerPath(ms, k);
    assert !win.1;
    QuietUpperWinner(rounds, ms, k);
    QuietUpperLoser(rounds, ms, k);
  }

  /** A decided lower match whose processing changes nothing has its winner seated. */
  lemma QuietLower(rounds: nat, ms: Table, k: Key)
    requires Shaped(rounds, ms) && k in ms && k.bracket == Lower && Decided(ms[k])
    requires Process(ms, k) == (ms, false)
    ensures LowerRouted(rounds, ms, k)
  {
    LowerNextPresent(rounds, ms, k);
    if k.round % 2 == 0 {
      QuietFill(ms, Key(Lower, k.round + 1, k.idx), ms[k].winner, 0);
    } else if k.round + 1 < 2 * (rounds - 1) {
      QuietFill(ms, Key(Lower, k.round + 1, k.idx / 2), ms[k].winner, k.idx % 2);
    } else if k.round + 1 == 2 * (rounds - 1) {
      QuietFill(ms, GF0, ms[k].winner, 1);
    }
  }

  /**
   * Once advance has settled, every decided upper-bracket match has its winner
   * in the next upper round (slot idx % 2) or, from the upper final, in grand-final
   * slot 0; a first-round loser sits in lower round 0 (match idx / 2, slot idx % 2)
   * and a later loser of upper round r in slot 1 of lower round 2r - 1, same index.
   */
  lemma SettledUpperRouting(rounds: nat, ms: Table, order: seq<Key>, k: Key)
    requires Shaped(rounds, ms) && (forall k0 :: k0 in order <==> k0 in ms) && Settled(ms, order)
    requires k in ms && k.bracket == Upper && Decided(ms[k])
    ensures UpperRouted(rounds, ms, k)
  {
    SettledEach(rounds, ms, order, k);
    QuietUpper(rounds, ms, k);
  }

  /**
   * Once advance has settled, the winner of an even ("minor") lower round sits in
   * slot 0 of the same index one round on; the winner of an odd ("major") round in
   * match idx / 2, slot idx % 2; the winner of the last lower round in grand-final slot 1.
   */
  lemma SettledLowerRouting(rounds: nat, ms: Table, order: seq<Key>, k: Key)
    requires Shaped(rounds, ms) && (forall k0 :: k0 in order <==> k0 in ms) && Settled(ms, order)
    requires k in ms && k.bracket == Lower && Decided(ms[k])
    ensures LowerRouted(rounds, ms, k)
  {
    SettledEach(rounds, ms, order, k);
    QuietLower(rounds, ms, k);
  }

  /**
   * Once advance has settled, every seat whose feeder sends a player holds that
   * player: the routing rules, read from the seat's side.
   */
  lemma SettledSeatsDemand(rounds: nat, ms: Table, order: seq<Key>, t: Key, s: nat)
    requires Shaped(rounds, ms) && (forall k0 :: k0 in order <==> k0 in ms) && Settled(ms, order)
    requires t in ms && s < 2 && Demand(rounds, ms, t, s).Some?
    ensures Seat(ms[t], s) == Demand(rounds, ms, t, s)
  {
    var w := Writer(rounds, t, s).value.0;
    if w.bracket == Upper {
      SettledUpperRouting(rounds, ms, order, w);
      SettledFromUpper(rounds, ms, t, s);
    } else {
      SettledLowerRouting(rounds, ms, order, w);
      SettledFromLower(rounds, ms, t, s);
    }
  }

  /** A seat fed by a routed upper match holds what it sends. */
  lemma SettledFromUpper(rounds: nat, ms: Table, t: Key, s: nat)
    requires Shaped(rounds, ms) && t in ms && s < 2 && Demand(rounds, ms, t, s).Some?
    requires Writer(rounds, t, s).value.0.bracket == Upper
    requires UpperRouted(rounds, ms, Writer(rounds, t, s).value.0)
    ensures Seat(ms[t], s) == Demand(rounds, ms, t, s)
  {
    assert InSkeleton(rounds, t);
    if t.bracket == Upper || t.round == 0 {
      SeatOfPair(t.idx, s);
    }
  }

  /** A seat fed by a routed lower match holds its winner. */
  lemma SettledFromLower(rounds: nat, ms: Table, t: Key, s: nat)
    requires Shaped(rounds, ms) && t in ms && s < 2 && Demand(rounds, ms, t, s).Some?
    requires Writer(rounds, t, s).value.0.bracket == Lower
    requires LowerRouted(rounds, ms, Writer(rounds, t, s).value.0)
    ensures Seat(ms[t], s) == Demand(rounds, ms, t, s)
  {
    assert InSkeleton(rounds, t);
    if t.bracket == Lower && t.round % 2 == 0 {
      SeatOfPair(t.idx, s);
    }
  }

  /** Match 2i + s of a round feeds match i, seat s, of the next. */
  lemma SeatOfPair(i: nat, s: nat)
    requires s < 2
    ensures (2 * i + s) / 2 == i && (2 * i + s) % 2 == s
  {
  }

  /**
   * The bracket reset: when player 2 wins the grand final while the reset match is
   * waiting, the reset gets the same players in the same seats and is next up, and
   * nothing else changes; when player 1 wins, processing the final changes nothing.
   */
  lemma ResetRule(ms: Table)
    requires GF0 in ms && GF1 in ms && Decided(ms[GF0])
    ensures ms[GF0].winner != ms[GF0].p2 ==> Process(ms, GF0) == (ms, false)
    ensures ms[GF0].winner == ms[GF0].p2 && ms[GF1].status == Waiting ==>
              var r := Process(ms, GF0);
              r.1 && r.0[GF1].status == NextUp &&
              (ms[GF0].p1.Some? ==> r.0[GF1].p1 == ms[GF0].p1) &&
              r.0[GF1].p2 == ms[GF0].p2 &&
              r.0 == ms[GF1 := r.0[GF1]] && Kept(ms[GF1], r.0[GF1])
    ensures ms[GF0].winner == ms[GF0].p2 && ms[GF1].status != Waiting ==> Process(ms, GF0) == (ms, false)
  {
  }

  /** A settled table has no pending reset: a final won by player 2 leaves the reset seated. */
  lemma SettledReset(rounds: nat, ms: Table, order: seq<Key>)
    requires Shaped(rounds, ms) && (forall k0 :: k0 in order <==> k0 in ms) && Settled(ms, order)
    requires Decided(ms[GF0]) && ms[GF0].winner == ms[GF0].p2
    ensures ms[GF1].status != Waiting
  {
    assert InSkeleton(rounds, GF0) && InSkeleton(rounds, GF1);
    SettledEach(rounds, ms, order, GF0);
    ResetRule(ms);
  }

  /**
   * A match outside the reset whose two seats are both unfed, while empty and
   * waiting, is still waiting, with both seats empty, after any number of passes.
   */
  lemma StrandedMatchWaits(rounds: nat, ms: Table, order: seq<Key>, t: Key)
    requires Shaped(rounds, ms) && (forall k0 :: k0 in order ==> k0 in ms)
    requires Stranded(rounds, ms, t)
    ensures Pass(ms, order).0[t].status == Waiting
    ensures Pass(ms, order).0[t].p1.None? && Pass(ms, order).0[t].p2.None?
  {
    PassStep(rounds, ms, order);
    StrandedStable(rounds, ms, Pass(ms, order).0, t);
  }

  /**
   * A seat without a feeder, or fed by a first-round upper match that sends
   * nobody (a bye), keeps its occupant through any number of passes.
   */
  lemma UnfedSeatStays(rounds: nat, ms: Table, order: seq<Key>, t: Key, s: nat)
    requires Shaped(rounds, ms) && (forall k0 :: k0 in order ==> k0 in ms)
    requires t in ms && t != GF1 && s < 2 && Unfed(rounds, ms, t, s)
    ensures Seat(Pass(ms, order).0[t], s) == Seat(ms[t], s)
  {
    PassStep(rounds, ms, order);
  }
}
