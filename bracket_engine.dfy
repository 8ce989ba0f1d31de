/**
 * The double-elimination strategy of app/engine/bracket_engine.py, acting on
 * the tournament's match rows. generate lays out the whole bracket (upper,
 * lower, grand final and reset) in one go, seeds the first upper round and
 * lets advance push byes through; advance repeats passes over all matches
 * until a pass changes nothing.
 */
module BracketEngine {
  import opened Common
  import opened Sorting
  import opened EngineModel
  import opened EngineProofs

  datatype Competitor = Competitor(id: CompetitorId, placement: Option<int>, pp: int)

  /** The placement that competitors without one sort under. */
  const NoPlacement: int := 9999

  /** Seeding key: placement ascending (missing last), then pp descending. */
  function SeedKey(c: Competitor): (int, int) {
    (if c.placement.Some? then c.placement.value else NoPlacement, -c.pp)
  }

  /** The seeding order: a stable sort by SeedKey, as Python's sorted(). */
  function Seeded(cs: seq<Competitor>): (r: seq<Competitor>)
    ensures SortedBy(r, SeedKey)
    ensures multiset(r) == multiset(cs) && |r| == |cs|
    ensures forall v :: WithKey(r, SeedKey, v) == WithKey(cs, SeedKey, v)
  {
    var r := SortBy(cs, SeedKey);
    assert |r| == |multiset(r)| == |multiset(cs)| == |cs|;
    r
  }

  /** A freshly created match row: no players, no scores, waiting. */
  function NewMatch(id: nat, bo: int): Match {
    Match(id, None, None, 0, 0, None, Waiting, bo)
  }

  /** The keys of one round of n matches, by index. */
  function RoundKeys(b: Bracket, r: nat, n: nat): (ks: seq<Key>)
    ensures |ks| == n && forall i :: 0 <= i < n ==> ks[i] == Key(b, r, i)
  {
    if n == 0 then [] else RoundKeys(b, r, n - 1) + [Key(b, r, n - 1)]
  }

  /** The keys of the first r upper rounds of a 2^rounds-slot bracket, in creation order. */
  function UpperKeys(rounds: nat, r: nat): seq<Key>
    requires r <= rounds
  {
    if r == 0 then [] else UpperKeys(rounds, r - 1) + RoundKeys(Upper, r - 1, Pow2(rounds - r))
  }

  /** The keys of the first lr lower rounds, in creation order. */
  function LowerKeys(rounds: nat, lr: nat): seq<Key>
    requires lr <= 2 * (rounds - 1)
  {
    if lr == 0 then [] else LowerKeys(rounds, lr - 1) + RoundKeys(Lower, lr - 1, Pow2(rounds - 2 - (lr - 1) / 2))
  }

  /** The grand final rounds: one match each. */
  function FinalKeys(n: nat): (ks: seq<Key>)
    ensures |ks| == n && forall r :: 0 <= r < n ==> ks[r] == Key(GrandFinals, r, 0)
  {
    if n == 0 then [] else FinalKeys(n - 1) + RoundKeys(GrandFinals, n - 1, 1)
  }

  /** Every key generate creates for rounds upper rounds, in creation order. */
  function BracketKeys(rounds: nat): seq<Key>
    requires rounds >= 1
  {
    UpperKeys(rounds, rounds) + LowerKeys(rounds, 2 * (rounds - 1)) + FinalKeys(2)
  }

  /** The rows created for the keys ks, ids counting up from lo. */
  function Layout(ks: seq<Key>, lo: nat, bo: int): Table {
    if ks == [] then map[]
    else Layout(ks[..|ks| - 1], lo, bo)[ks[|ks| - 1] := NewMatch(lo + |ks| - 1, bo)]
  }

  /** Creating one more row. */
  lemma LayoutSnoc(ks: seq<Key>, k: Key, lo: nat, bo: int)
    ensures Layout(ks + [k], lo, bo) == Layout(ks, lo, bo)[k := NewMatch(lo + |ks|, bo)]
  {
    assert (ks + [k])[..|ks|] == ks;
  }

  predicate NoDup<T(==)>(s: seq<T>) {
    forall i, j :: 0 <= i < j < |s| ==> s[i] != s[j]
  }

  /** The upper bracket of 2^R slots has 2^R - 1 matches. */
  lemma {:induction false} UpperTotal(rounds: nat, r: nat)
    requires r <= rounds
    ensures |UpperKeys(rounds, r)| == Pow2(rounds) - Pow2(rounds - r)
  {
    if r > 0 {
      UpperTotal(rounds, r - 1);
      assert Pow2(rounds - (r - 1)) == 2 * Pow2(rounds - r);
    }
  }

  /** Lower round lr adds 2^(rounds - 2 - lr/2) keys. */
  lemma LowerKeysStep(rounds: nat, lr: nat)
    requires lr < 2 * (rounds - 1)
    ensures |LowerKeys(rounds, lr + 1)| == |LowerKeys(rounds, lr)| + Pow2(rounds - 2 - lr / 2)
  {
  }

  /** A minor and a major lower round of the same size. */
  lemma LowerKeysPair(rounds: nat, q: nat)
    requires 1 <= q <= rounds - 1
    ensures |LowerKeys(rounds, 2 * q)| == |LowerKeys(rounds, 2 * q - 2)| + 2 * Pow2(rounds - 1 - q)
  {
    var lr := 2 * q - 2;
    HalvesOfPair(q);
    LowerKeysStep(rounds, lr);
    LowerKeysStep(rounds, lr + 1);
  }

  /** Lower rounds 2q - 2 and 2q - 1 share the size index q - 1. */
  lemma HalvesOfPair(q: nat)
    requires q >= 1
    ensures (2 * q - 2) / 2 == q - 1 && (2 * q - 1) / 2 == q - 1
  {
  }

  /** The lower bracket of 2^R slots has 2^R - 2 matches, in 2(R - 1) rounds. */
  lemma {:induction false} LowerTotal(rounds: nat, q: nat)
    requires 1 <= rounds && q <= rounds - 1
    ensures |LowerKeys(rounds, 2 * q)| == Pow2(rounds) - 2 * Pow2(rounds - 1 - q)
  {
    if q > 0 {
      var e := rounds - 1 - q;
      var pe := Pow2(e);
      LowerTotal(rounds, q - 1);
      assert |LowerKeys(rounds, 2 * q - 2)| == Pow2(rounds) - 2 * (2 * pe) by {
        assert 2 * (q - 1) == 2 * q - 2;
        assert rounds - 1 - (q - 1) == e + 1;
      }
      LowerKeysPair(rounds, q);
    }
  }

  /** Upper round r of a 2^R bracket: the source's P // 2**(r+1) matches. */
  lemma UpperCountIsSource(rounds: nat, r: nat)
    requires r < rounds
    ensures Pow2(rounds) / Pow2(r + 1) == Pow2(rounds - 1 - r)
  {
    Pow2Div(rounds, r + 1);
  }

  /** Lower round lr of a 2^R bracket: the source's P // 2**(2 + lr//2) matches. */
  lemma LowerCountIsSource(rounds: nat, lr: nat)
    requires lr < 2 * (rounds - 1)
    ensures Pow2(rounds) / Pow2(2 + lr / 2) == Pow2(rounds - 2 - lr / 2)
  {
    Pow2Div(rounds, 2 + lr / 2);
  }

  lemma RoundKeysMembers(b: Bracket, r: nat, n: nat)
    ensures forall k :: k in RoundKeys(b, r, n) <==> k.bracket == b && k.round == r && k.idx < n
  {
    var ks := RoundKeys(b, r, n);
    forall k: Key | k.bracket == b && k.round == r && k.idx < n
      ensures k in ks
    {
      assert ks[k.idx] == k;
    }
  }

  /** The keys of the first r upper rounds: the upper skeleton keys below round r. */
  lemma {:induction false} UpperKeysMembers(rounds: nat, r: nat)
    requires r <= rounds
    ensures forall k :: k in UpperKeys(rounds, r) <==>
              k.bracket == Upper && k.round < r && k.idx < Pow2(rounds - 1 - k.round)
  {
    if r > 0 {
      var n := Pow2(rounds - r);
      var a, b := UpperKeys(rounds, r - 1), RoundKeys(Upper, r - 1, n);
      UpperKeysMembers(rounds, r - 1);
      RoundKeysMembers(Upper, r - 1, n);
      assert UpperKeys(rounds, r) == a + b;
      forall k: Key
        ensures k in a + b <==> k.bracket == Upper && k.round < r && k.idx < Pow2(rounds - 1 - k.round)
      {
        if k.round == r - 1 {
          assert rounds - 1 - k.round == rounds - r;
        }
      }
    }
  }

  /** No upper key is created twice. */
  lemma {:induction false} UpperKeysNoDup(rounds: nat, r: nat)
    requires r <= rounds
    ensures NoDup(UpperKeys(rounds, r))
  {
    if r > 0 {
      UpperKeysNoDup(rounds, r - 1);
      UpperKeysMembers(rounds, r - 1);
      RoundKeysMembers(Upper, r - 1, Pow2(rounds - r));
      NoDupAppend(UpperKeys(rounds, r - 1), RoundKeys(Upper, r - 1, Pow2(rounds - r)));
    }
  }

  /** The keys of the first lr lower rounds: the lower skeleton keys below round lr. */
  lemma {:induction false} LowerKeysMembers(rounds: nat, lr: nat)
    requires lr <= 2 * (rounds - 1)
    ensures forall k :: k in LowerKeys(rounds, lr) <==>
              k.bracket == Lower && k.round < lr && k.idx < Pow2(rounds - 2 - k.round / 2)
  {
    if lr > 0 {
      var n := Pow2(rounds - 2 - (lr - 1) / 2);
      var a, b := LowerKeys(rounds, lr - 1), RoundKeys(Lower, lr - 1, n);
      LowerKeysMembers(rounds, lr - 1);
      RoundKeysMembers(Lower, lr - 1, n);
      assert LowerKeys(rounds, lr) == a + b;
      forall k: Key
        ensures k in a + b <==> k.bracket == Lower && k.round < lr && k.idx < Pow2(rounds - 2 - k.round / 2)
      {
      }
    }
  }

  /** No lower key is created twice. */
  lemma {:induction false} LowerKeysNoDup(rounds: nat, lr: nat)
    requires lr <= 2 * (rounds - 1)
    ensures NoDup(LowerKeys(rounds, lr))
  {
    if lr > 0 {
      LowerKeysNoDup(rounds, lr - 1);
      LowerKeysMembers(rounds, lr - 1);
      RoundKeysMembers(Lower, lr - 1, Pow2(rounds - 2 - (lr - 1) / 2));
      NoDupAppend(LowerKeys(rounds, lr - 1), RoundKeys(Lower, lr - 1, Pow2(rounds - 2 - (lr - 1) / 2)));
    }
  }

  /** A round of fresh indices appended to earlier rounds. */
  lemma NoDupAppend(a: seq<Key>, b: seq<Key>)
    requires NoDup(a) && (forall i, j :: 0 <= i < j < |b| ==> b[i] != b[j])
    requires forall x :: x in a ==> x !in b
    ensures NoDup(a + b)
  {
    forall i, j | 0 <= i < j < |a + b|
      ensures (a + b)[i] != (a + b)[j]
    {
      if i < |a| && j >= |a| {
        assert (a + b)[i] in a && (a + b)[j] in b;
      } else if i >= |a| {
        assert (a + b)[i] == b[i - |a|] && (a + b)[j] == b[j - |a|];
      }
    }
  }

  /** Three disjoint duplicate-free pieces make a duplicate-free whole. */
  lemma NoDupConcat3<T>(a: seq<T>, b: seq<T>, c: seq<T>)
    requires NoDup(a) && NoDup(b) && NoDup(c)
    requires forall x :: x in a ==> x !in b && x !in c
    requires forall x :: x in b ==> x !in c
    ensures NoDup(a + b + c)
  {
    var s := a + b + c;
    forall i, j | 0 <= i < j < |s|
      ensures s[i] != s[j]
    {
      if i < |a| {
        assert s[i] in a;
        if j < |a| { assert s[j] == a[j]; }
        else if j < |a| + |b| { assert s[j] == b[j - |a|]; assert s[j] in b; }
        else { assert s[j] == c[j - |a| - |b|]; assert s[j] in c; }
      } else if i < |a| + |b| {
        assert s[i] == b[i - |a|] && s[i] in b;
        if j < |a| + |b| { assert s[j] == b[j - |a|]; }
        else { assert s[j] == c[j - |a| - |b|]; assert s[j] in c; }
      } else {
        assert s[i] == c[i - |a| - |b|] && s[j] == c[j - |a| - |b|];
      }
    }
  }

  /** The keys generate lays out are exactly the skeleton. */
  lemma BracketKeysMembers(rounds: nat)
    requires rounds >= 1
    ensures forall k :: k in BracketKeys(rounds) <==> InSkeleton(rounds, k)
  {
    UpperKeysMembers(rounds, rounds);
    LowerKeysMembers(rounds, 2 * (rounds - 1));
    assert forall k :: k in FinalKeys(2) <==> k == GF0 || k == GF1;
  }

  /** Each key is created once. */
  lemma BracketKeysNoDup(rounds: nat)
    requires rounds >= 1
    ensures NoDup(BracketKeys(rounds))
  {
    var u := UpperKeys(rounds, rounds);
    var l := LowerKeys(rounds, 2 * (rounds - 1));
    var g := FinalKeys(2);
    UpperKeysMembers(rounds, rounds);
    LowerKeysMembers(rounds, 2 * (rounds - 1));
    UpperKeysNoDup(rounds, rounds);
    LowerKeysNoDup(rounds, 2 * (rounds - 1));
    assert forall k :: k in g <==> k == GF0 || k == GF1;
    NoDupConcat3(u, l, g);
  }

  /** A bracket of P = 2^R slots has 2P - 1 matches. */
  lemma BracketKeysCount(rounds: nat)
    requires rounds >= 1
    ensures |BracketKeys(rounds)| == 2 * Pow2(rounds) - 1
  {
    UpperTotal(rounds, rounds);
    LowerTotal(rounds, rounds - 1);
  }

  /** The laid-out rows: one per key, ids lo, lo + 1, ... in creation order. */
  lemma {:induction false} LayoutFacts(ks: seq<Key>, lo: nat, bo: int)
    requires NoDup(ks)
    ensures forall k :: k in Layout(ks, lo, bo) <==> k in ks
    ensures forall i :: 0 <= i < |ks| ==> Layout(ks, lo, bo)[ks[i]] == NewMatch(lo + i, bo)
  {
    if ks != [] {
      var init := ks[..|ks| - 1];
      assert NoDup(init);
      LayoutFacts(init, lo, bo);
      assert ks == init + [ks[|ks| - 1]];
      forall i | 0 <= i < |ks| - 1
        ensures ks[i] != ks[|ks| - 1]
      {
      }
    }
  }

  /** Fresh rows: no players, no scores, waiting; ids distinct. */
  lemma LaidOutRows(ks: seq<Key>, lo: nat, bo: int)
    requires NoDup(ks)
    ensures DistinctIds(Layout(ks, lo, bo))
    ensures forall k :: k in Layout(ks, lo, bo) ==> Layout(ks, lo, bo)[k] == NewMatch(Layout(ks, lo, bo)[k].id, bo)
  {
    var ms := Layout(ks, lo, bo);
    LayoutFacts(ks, lo, bo);
    forall a, b | a in ms && b in ms && a != b
      ensures ms[a].id != ms[b].id
    {
      var i :| 0 <= i < |ks| && ks[i] == a;
      var j :| 0 <= j < |ks| && ks[j] == b;
    }
    forall k | k in ms
      ensures ms[k] == NewMatch(ms[k].id, bo)
    {
      var i :| 0 <= i < |ks| && ks[i] == k;
    }
  }

  /**
   * Match i of upper round 0 as generate seats it (bracket_engine.py:53-72): the
   * i-th seed against the i-th from the bottom, or a bye when the bottom half has
   * run out, which is completed at once with player 1 the winner on bo // 2 + 1.
   */
  ghost predicate SeededOpening(m: Match, seeded: seq<Competitor>, half: nat, i: nat, bo: int)
    requires i < half < |seeded| <= 2 * half
  {
    m.p1 == Some(seeded[i].id) &&
    m.p2 == (if i < |seeded| - half then Some(seeded[|seeded| - 1 - i].id) else None) &&
    (m.p2.None? ==> m.status == Completed && m.winner == m.p1 && m.scoreP1 == bo / 2 + 1 && m.scoreP2 == 0) &&
    (m.p2.Some? ==> m.status == NextUp && m.winner.None? && m.scoreP1 == 0 && m.scoreP2 == 0) &&
    m.bo == bo
  }

  predicate DistinctIds(ms: Table) {
    forall a, b :: a in ms && b in ms && a != b ==> ms[a].id != ms[b].id
  }

  ghost predicate ShapedOrEmpty(rounds: nat, ms: Table) {
    ms.Keys == {} || Shaped(rounds, ms)
  }

  lemma RootsTrans(a: Table, b: Table, c: Table)
    requires a.Keys == b.Keys == c.Keys && RootsKept(a, b) && RootsKept(b, c)
    ensures RootsKept(a, c)
  {
  }

  /** What one pass of advance does, relative to the table advance started from. */
  lemma AfterPass(rounds: nat, orig: Table, start: Table, order: seq<Key>, res: (Table, bool))
    requires ShapedOrEmpty(rounds, start) && (forall k :: k in order <==> k in start)
    requires res == Pass(start, order)
    requires Frozen(orig, start) && RootsKept(orig, start)
    requires orig.Keys != {} ==> UnfedKept(rounds, orig, start)
    requires orig.Keys != {} ==> StrandedKept(rounds, orig, start)
    requires Justified(rounds, orig, start) && (Paired(orig) ==> Paired(start))
    requires Settled(orig, order) ==> start == orig
    ensures ShapedOrEmpty(rounds, res.0) && forall k :: k in order <==> k in res.0
    ensures Frozen(orig, res.0) && RootsKept(orig, res.0)
    ensures orig.Keys != {} ==> UnfedKept(rounds, orig, res.0)
    ensures orig.Keys != {} ==> StrandedKept(rounds, orig, res.0)
    ensures Justified(rounds, orig, res.0) && (Paired(orig) ==> Paired(res.0))
    ensures !res.1 ==> res.0 == start && Settled(res.0, order)
    ensures res.1 ==> LexLt(Measure(rounds, res.0), Measure(rounds, start))
    ensures Settled(orig, order) ==> res.0 == orig && !res.1
  {
    if start.Keys != {} {
      PassStep(rounds, start, order);
      FrozenTrans(orig, start, res.0);
      RootsTrans(orig, start, res.0);
      JustifiedTrans(rounds, orig, start, res.0);
      if orig.Keys != {} {
        forall t, s | t in orig && t != GF1 && s < 2 && Unfed(rounds, orig, t, s)
          ensures Seat(res.0[t], s) == Seat(orig[t], s)
        {
          UnfedStable(rounds, orig, start, t, s);
        }
        forall t | Stranded(rounds, orig, t)
          ensures res.0[t].status == Waiting
        {
          StrandedStable(rounds, orig, start, t);
        }
      }
    } else {
      assert order == [];
    }
  }

  /** The table the creation loops leave: the skeleton, fresh rows, distinct ids, 2P - 1 of them. */
  lemma LaidOutBracket(rounds: nat, ks: seq<Key>, ms: Table, lo: nat, bo: int)
    requires rounds >= 1 && ks == BracketKeys(rounds) && ms == Layout(ks, lo, bo)
    ensures Shaped(rounds, ms) && forall k :: k in ks <==> k in ms
    ensures |ms| == 2 * Pow2(rounds) - 1
    ensures DistinctIds(ms) && forall k :: k in ms ==> ms[k] == NewMatch(ms[k].id, bo)
  {
    BracketKeysMembers(rounds);
    BracketKeysNoDup(rounds);
    BracketKeysCount(rounds);
    LayoutFacts(ks, lo, bo);
    LaidOutRows(ks, lo, bo);
    assert ms.Keys == set k | k in ks;
    NoDupCard(ks);
  }

  /** A duplicate-free sequence has as many distinct elements as entries. */
  lemma {:induction false} NoDupCard<T>(s: seq<T>)
    requires NoDup(s)
    ensures |set x | x in s| == |s|
  {
    if s != [] {
      var init := s[..|s| - 1];
      assert NoDup(init);
      NoDupCard(init);
      assert s == init + [s[|s| - 1]];
      assert (set x | x in s) == (set x | x in init) + {s[|s| - 1]};
      assert s[|s| - 1] !in init by {
        forall i | 0 <= i < |init|
          ensures init[i] != s[|s| - 1]
        {
          assert init[i] == s[i];
        }
      }
    }
  }

  /** P // 2 for P = 2^R. */
  lemma HalfOfPow2(rounds: nat)
    requires rounds >= 1
    ensures Pow2(rounds) == 2 * Pow2(rounds - 1) && Pow2(rounds) / 2 == Pow2(rounds - 1)
  {
    MulDiv(Pow2(rounds - 1), 2);
  }

  /** n >= 2 players need R = bit_length(n - 1) >= 1 rounds, and 2^(R-1) < n <= 2^R. */
  lemma RoundsFor(n: nat)
    requires n >= 2
    ensures BitLength(n - 1) >= 1
    ensures Pow2(BitLength(n - 1) - 1) < n <= 2 * Pow2(BitLength(n - 1) - 1)
  {
    BitLengthBounds(n - 1);
  }

  /** Shape and size depend on the keys alone. */
  lemma SameKeysShaped(rounds: nat, a: Table, b: Table, order: seq<Key>)
    requires Shaped(rounds, a) && a.Keys == b.Keys && forall k :: k in order <==> k in a
    ensures Shaped(rounds, b) && |b| == |a| && forall k :: k in order <==> k in b
  {
    assert |b| == |b.Keys| == |a.Keys| == |a|;
  }

  lemma OpeningKeysPresent(rounds: nat, ms: Table)
    requires Shaped(rounds, ms)
    ensures forall i :: 0 <= i < Pow2(rounds - 1) ==> Key(Upper, 0, i) in ms
  {
    forall i | 0 <= i < Pow2(rounds - 1)
      ensures Key(Upper, 0, i) in ms
    {
      assert InSkeleton(rounds, Key(Upper, 0, i));
    }
  }

  /** Match i of the opening round once seeded (bracket_engine.py:55-72). */
  function Opening(m: Match, seeded: seq<Competitor>, half: nat, i: nat, bo: int): Match
    requires i < half < |seeded| <= 2 * half
  {
    if i < |seeded| - half then
      m.(p1 := Some(seeded[i].id), p2 := Some(seeded[|seeded| - 1 - i].id), status := NextUp)
    else
      m.(p1 := Some(seeded[i].id), p2 := None, status := Completed, winner := Some(seeded[i].id), scoreP1 := bo / 2 + 1)
  }

  /** The table once seeded: distinct ids, the opening round as seeded, every later row fresh. */
  ghost predicate Opened(ms: Table, seeded: seq<Competitor>, half: nat, bo: int)
    requires half < |seeded| <= 2 * half
  {
    DistinctIds(ms) &&
    (forall k :: k in ms && k.bracket == Upper && k.round == 0 && k.idx < half ==>
       SeededOpening(ms[k], seeded, half, k.idx, bo)) &&
    (forall k :: k in ms && !(k.bracket == Upper && k.round == 0) ==> ms[k] == NewMatch(ms[k].id, bo))
  }

  /** Seeding fresh rows gives SeededOpening, keeps ids distinct and leaves later rounds fresh. */
  lemma OpeningSeated(laid: Table, sd: Table, seeded: seq<Competitor>, half: nat, bo: int)
    requires half < |seeded| <= 2 * half
    requires DistinctIds(laid) && forall k :: k in laid ==> laid[k] == NewMatch(laid[k].id, bo)
    requires sd.Keys == laid.Keys
    requires forall k :: k in sd ==>
               sd[k] == if k.bracket == Upper && k.round == 0 && k.idx < half
                        then Opening(laid[k], seeded, half, k.idx, bo) else laid[k]
    ensures Opened(sd, seeded, half, bo)
  {
    forall a, b | a in sd && b in sd && a != b
      ensures sd[a].id != sd[b].id
    {
      assert sd[a].id == laid[a].id && sd[b].id == laid[b].id;
    }
  }

  /**
   * What generate leaves for seeded competitors in `rounds` upper rounds: the whole
   * skeleton (2P - 1 rows for P = 2^rounds slots), every row listed once in order,
   * distinct ids, a table advance has settled, the opening round seeded as
   * SeededOpening says, and every later row without winner or score, at the
   * tournament's best-of, holding in each seat what its feeder sends (nobody
   * while the feeder is undecided or a bye's empty side), and next up exactly
   * when both seats are taken.
   */
  ghost predicate GeneratedBracket(rounds: nat, ms: Table, order: seq<Key>, seeded: seq<Competitor>, bo: int) {
    Shaped(rounds, ms) && (forall k :: k in order <==> k in ms) &&
    |ms| == 2 * Pow2(rounds) - 1 && Settled(ms, order) && DistinctIds(ms) &&
    Pow2(rounds - 1) < |seeded| <= 2 * Pow2(rounds - 1) &&
    (forall i :: 0 <= i < Pow2(rounds - 1) ==>
       Key(Upper, 0, i) in ms && SeededOpening(ms[Key(Upper, 0, i)], seeded, Pow2(rounds - 1), i, bo)) &&
    (forall k :: k in ms && !(k.bracket == Upper && k.round == 0) ==>
       ms[k].winner.None? && ms[k].scoreP1 == 0 && ms[k].scoreP2 == 0 &&
       ms[k].bo == bo && (ms[k].status == Waiting || ms[k].status == NextUp)) &&
    (forall k, s :: k in ms && !(k.bracket == Upper && k.round == 0) && s < 2 ==>
       Seat(ms[k], s) == Demand(rounds, ms, k, s)) &&
    (forall k :: k in ms && !(k.bracket == Upper && k.round == 0) ==>
       (ms[k].status == NextUp <==> ms[k].p1.Some? && ms[k].p2.Some?))
  }

  /** The table generate hands to advance: the skeleton, listed in order, seeded. */
  ghost predicate Built(rounds: nat, ms: Table, order: seq<Key>, seeded: seq<Competitor>, bo: int) {
    rounds >= 1 && Pow2(rounds - 1) < |seeded| <= 2 * Pow2(rounds - 1) &&
    Shaped(rounds, ms) && (forall k :: k in order <==> k in ms) && |ms| == 2 * Pow2(rounds) - 1 &&
    Opened(ms, seeded, Pow2(rounds - 1), bo)
  }

  /** Seeding the laid-out skeleton gives the table advance starts from. */
  lemma BuiltFrom(rounds: nat, laid: Table, sd: Table, order: seq<Key>, seeded: seq<Competitor>, bo: int)
    requires rounds >= 1 && Pow2(rounds - 1) < |seeded| <= 2 * Pow2(rounds - 1)
    requires Shaped(rounds, laid) && (forall k :: k in order <==> k in laid) && |laid| == 2 * Pow2(rounds) - 1
    requires DistinctIds(laid) && forall k :: k in laid ==> laid[k] == NewMatch(laid[k].id, bo)
    requires sd.Keys == laid.Keys
    requires forall k :: k in sd ==>
               sd[k] == if k.bracket == Upper && k.round == 0 && k.idx < Pow2(rounds - 1)
                        then Opening(laid[k], seeded, Pow2(rounds - 1), k.idx, bo) else laid[k]
    ensures Built(rounds, sd, order, seeded, bo) && ShapedOrEmpty(rounds, sd)
  {
    OpeningSeated(laid, sd, seeded, Pow2(rounds - 1), bo);
    SameKeysShaped(rounds, laid, sd, order);
  }

  /** On the seeded table no match waits with both seats taken. */
  lemma BuiltPaired(rounds: nat, sd: Table, order: seq<Key>, seeded: seq<Competitor>, bo: int)
    requires Built(rounds, sd, order, seeded, bo)
    ensures Paired(sd)
  {
    forall t | t in sd && t.bracket == Upper && t.round == 0
      ensures sd[t].status != Waiting
    {
      assert InSkeleton(rounds, t);
      assert SeededOpening(sd[t], seeded, Pow2(rounds - 1), t.idx, bo);
    }
  }

  /** On the seeded table only first-round upper matches (the byes) are decided. */
  lemma BuiltDecided(rounds: nat, sd: Table, order: seq<Key>, seeded: seq<Competitor>, bo: int)
    requires Built(rounds, sd, order, seeded, bo)
    ensures forall t :: t in sd && Decided(sd[t]) ==> t.bracket == Upper && t.round == 0
    ensures forall t, s :: t in sd && !(t.bracket == Upper && t.round == 0) && s < 2 ==> Seat(sd[t], s).None?
  {
  }

  /**
   * A seat whose feeder sends nobody after the advance was empty before it and
   * was never written: its feeder, if any, is a first-round match advance does
   * not touch, and the reset's writer was undecided.
   */
  lemma UnsentSeatEmpty(rounds: nat, sd: Table, fin: Table, k: Key, s: nat)
    requires k in sd && s < 2 && RootsKept(sd, fin)
    requires Justified(rounds, sd, fin) && UnfedKept(rounds, sd, fin)
    requires forall t :: t in sd && Decided(sd[t]) ==> t.bracket == Upper && t.round == 0
    requires Demand(rounds, fin, k, s).None? && Seat(sd[k], s).None?
    ensures Seat(fin[k], s).None?
  {
    var w := Writer(rounds, k, s);
    if Fed(rounds, sd, k, s) {
      assert fin[w.value.0] == sd[w.value.0];
      assert Unfed(rounds, sd, k, s);
    }
  }

  /**
   * After generate's advance, a seat outside the opening round holds what its
   * feeder sends: a seat whose feeder sends nobody was never written.
   */
  lemma GeneratedSeat(rounds: nat, sd: Table, fin: Table, order: seq<Key>, seeded: seq<Competitor>, bo: int, k: Key, s: nat)
    requires Built(rounds, sd, order, seeded, bo)
    requires Frozen(sd, fin) && RootsKept(sd, fin) && Settled(fin, order)
    requires Justified(rounds, sd, fin) && UnfedKept(rounds, sd, fin)
    requires k in fin && !(k.bracket == Upper && k.round == 0) && s < 2
    ensures Seat(fin[k], s) == Demand(rounds, fin, k, s)
  {
    SameKeysShaped(rounds, sd, fin, order);
    if Demand(rounds, fin, k, s).Some? {
      SettledSeatsDemand(rounds, fin, order, k, s);
    } else {
      BuiltDecided(rounds, sd, order, seeded, bo);
      UnsentSeatEmpty(rounds, sd, fin, k, s);
    }
  }

  /** advance after seeding keeps the opening round and only seats players and promotes elsewhere. */
  lemma AfterGenerate(rounds: nat, sd: Table, fin: Table, order: seq<Key>, seeded: seq<Competitor>, bo: int)
    requires Built(rounds, sd, order, seeded, bo)
    requires Frozen(sd, fin) && RootsKept(sd, fin) && Settled(fin, order)
    requires Justified(rounds, sd, fin) && UnfedKept(rounds, sd, fin) && Paired(fin)
    ensures GeneratedBracket(rounds, fin, order, seeded, bo)
  {
    var half := Pow2(rounds - 1);
    SameKeysShaped(rounds, sd, fin, order);
    OpeningKeysPresent(rounds, sd);
    forall a, b | a in fin && b in fin && a != b
      ensures fin[a].id != fin[b].id
    {
      assert Kept(sd[a], fin[a]) && Kept(sd[b], fin[b]);
    }
    forall k | k in fin && !(k.bracket == Upper && k.round == 0)
      ensures fin[k].winner.None? && fin[k].scoreP1 == 0 && fin[k].scoreP2 == 0 &&
              fin[k].bo == bo && (fin[k].status == Waiting || fin[k].status == NextUp)
    {
      assert Kept(sd[k], fin[k]);
    }
    GeneratedSeats(rounds, sd, fin, order, seeded, bo);
    GeneratedStatuses(rounds, sd, fin, order, seeded, bo);
  }

  /** After generate's advance every seat outside the opening round holds what its feeder sends. */
  lemma GeneratedSeats(rounds: nat, sd: Table, fin: Table, order: seq<Key>, seeded: seq<Competitor>, bo: int)
    requires Built(rounds, sd, order, seeded, bo)
    requires Frozen(sd, fin) && RootsKept(sd, fin) && Settled(fin, order)
    requires Justified(rounds, sd, fin) && UnfedKept(rounds, sd, fin)
    ensures forall k, s :: k in fin && !(k.bracket == Upper && k.round == 0) && s < 2 ==>
              Seat(fin[k], s) == Demand(rounds, fin, k, s)
  {
    forall k, s | k in fin && !(k.bracket == Upper && k.round == 0) && s < 2
      ensures Seat(fin[k], s) == Demand(rounds, fin, k, s)
    {
      GeneratedSeat(rounds, sd, fin, order, seeded, bo, k, s);
    }
  }

  /** After generate's advance a match outside the opening round is next up exactly when both seats are taken. */
  lemma GeneratedStatuses(rounds: nat, sd: Table, fin: Table, order: seq<Key>, seeded: seq<Competitor>, bo: int)
    requires Built(rounds, sd, order, seeded, bo)
    requires Frozen(sd, fin) && Justified(rounds, sd, fin) && Paired(fin)
    ensures forall k :: k in fin && !(k.bracket == Upper && k.round == 0) ==>
              (fin[k].status == NextUp <==> fin[k].p1.Some? && fin[k].p2.Some?)
  {
    BuiltDecided(rounds, sd, order, seeded, bo);
    forall k | k in fin && !(k.bracket == Upper && k.round == 0)
      ensures fin[k].status == NextUp <==> fin[k].p1.Some? && fin[k].p2.Some?
    {
      assert sd[k].status == Waiting && Kept(sd[k], fin[k]);
    }
  }

  /** Five seeds need three upper rounds: 2^2 < 5 <= 2^3. */
  lemma FiveSeedsThreeRounds(rounds: nat)
    requires rounds >= 1 && Pow2(rounds - 1) < 5 <= 2 * Pow2(rounds - 1)
    ensures rounds == 3
  {
    if rounds >= 4 {
      Pow2Add(3, rounds - 4);
    }
  }

  /**
   * Five players: the opening round is 1 v 5 and three byes, so both seats of lower
   * match 1 of round 0 are fed by byes (upper matches 2 and 3): it is stranded.
   */
  lemma FivePlayersStrandLower(rounds: nat, sd: Table, order: seq<Key>, seeded: seq<Competitor>, bo: int)
    requires Built(rounds, sd, order, seeded, bo) && |seeded| == 5
    ensures rounds == 3 && Stranded(rounds, sd, Key(Lower, 0, 1))
  {
    FiveSeedsThreeRounds(rounds);
    assert Pow2(2) == 4 && Pow2(1) == 2;
    var t, u2, u3 := Key(Lower, 0, 1), Key(Upper, 0, 2), Key(Upper, 0, 3);
    assert InSkeleton(rounds, t) && InSkeleton(rounds, u2) && InSkeleton(rounds, u3);
    assert SeededOpening(sd[u2], seeded, 4, 2, bo) && SeededOpening(sd[u3], seeded, 4, 3, bo);
  }

  /** The double-elimination strategy together with the match rows of one tournament. */
  class DoubleEliminationStrategy {
    var matches: Table
    /** The number of upper rounds of the generated bracket. */
    ghost var rounds: nat
    /** The next unused match id (uuid4 in the source). */
    var nextId: nat
    /** Tournament.default_bo. */
    const defaultBo: int

    ghost predicate Valid()
      reads this
    {
      ShapedOrEmpty(rounds, matches)
    }

    constructor (defaultBo: int)
      ensures this.defaultBo == defaultBo && matches == map[] && nextId == 0 && Valid()
    {
      this.defaultBo := defaultBo;
      matches := map[];
      nextId := 0;
      rounds := 0;
    }

    /** db.session.add of a fresh match row at k. */
    method AddMatch(k: Key)
      modifies this
      ensures matches == old(matches)[k := NewMatch(old(nextId), defaultBo)]
      ensures nextId == old(nextId) + 1 && rounds == old(rounds)
    {
      matches := matches[k := NewMatch(nextId, defaultBo)];
      nextId := nextId + 1;
    }

    /** The inner creation loop: numMatches rows of round r of bracket b, appended to created. */
    method AddRound(b: Bracket, r: nat, numMatches: nat, ghost lo: nat, created: seq<Key>) returns (created': seq<Key>)
      requires matches == Layout(created, lo, defaultBo) && nextId == lo + |created|
      modifies this
      ensures created' == created + RoundKeys(b, r, numMatches)
      ensures matches == Layout(created', lo, defaultBo) && nextId == lo + |created'| && rounds == old(rounds)
    {
      created' := created;
      for i := 0 to numMatches
        invariant created' == created + RoundKeys(b, r, i)
        invariant matches == Layout(created', lo, defaultBo) && nextId == lo + |created'| && rounds == old(rounds)
      {
        LayoutSnoc(created', Key(b, r, i), lo, defaultBo);
        AddMatch(Key(b, r, i));
        created' := created' + [Key(b, r, i)];
      }
    }

    /** The upper-bracket creation loop (bracket_engine.py:23-30). */
    method LayOutUpper(numRounds: nat, p: nat, ghost lo: nat) returns (created: seq<Key>)
      requires p == Pow2(numRounds) && matches == map[] && nextId == lo
      modifies this
      ensures created == UpperKeys(numRounds, numRounds)
      ensures matches == Layout(created, lo, defaultBo) && nextId == lo + |created| && rounds == old(rounds)
    {
      created := [];
      for r := 0 to numRounds
        invariant created == UpperKeys(numRounds, r)
        invariant matches == Layout(created, lo, defaultBo) && nextId == lo + |created| && rounds == old(rounds)
      {
        var numMatches := p / Pow2(r + 1);
        UpperCountIsSource(numRounds, r);
        created := AddRound(Upper, r, numMatches, lo, created);
        assert UpperKeys(numRounds, r + 1) == UpperKeys(numRounds, r) + RoundKeys(Upper, r, numMatches);
      }
    }

    /** The lower-bracket creation loop (bracket_engine.py:33-41). */
    method LayOutLower(numRounds: nat, p: nat, ghost lo: nat, before: seq<Key>) returns (created: seq<Key>)
      requires numRounds >= 1 && p == Pow2(numRounds)
      requires matches == Layout(before, lo, defaultBo) && nextId == lo + |before|
      modifies this
      ensures created == before + LowerKeys(numRounds, 2 * (numRounds - 1))
      ensures matches == Layout(created, lo, defaultBo) && nextId == lo + |created| && rounds == old(rounds)
    {
      created := before;
      var numLowerRounds := 2 * (numRounds - 1);
      for lr := 0 to numLowerRounds
        invariant created == before + LowerKeys(numRounds, lr)
        invariant matches == Layout(created, lo, defaultBo) && nextId == lo + |created| && rounds == old(rounds)
      {
        var numMatches := p / Pow2(2 + lr / 2);
        LowerCountIsSource(numRounds, lr);
        created := AddRound(Lower, lr, numMatches, lo, created);
        assert LowerKeys(numRounds, lr + 1) == LowerKeys(numRounds, lr) + RoundKeys(Lower, lr, numMatches);
        ConcatAssoc(before, LowerKeys(numRounds, lr), RoundKeys(Lower, lr, numMatches));
      }
    }

    /** The grand final and its reset (bracket_engine.py:44-49). */
    method LayOutFinals(ghost lo: nat, before: seq<Key>) returns (created: seq<Key>)
      requires matches == Layout(before, lo, defaultBo) && nextId == lo + |before|
      modifies this
      ensures created == before + FinalKeys(2)
      ensures matches == Layout(created, lo, defaultBo) && nextId == lo + |created| && rounds == old(rounds)
    {
      created := before;
      for r := 0 to 2
        invariant created == before + FinalKeys(r)
        invariant matches == Layout(created, lo, defaultBo) && nextId == lo + |created| && rounds == old(rounds)
      {
        created := AddRound(GrandFinals, r, 1, lo, created);
        assert FinalKeys(r + 1) == FinalKeys(r) + RoundKeys(GrandFinals, r, 1);
        ConcatAssoc(before, FinalKeys(r), RoundKeys(GrandFinals, r, 1));
      }
    }

    /** The three creation loops of generate (bracket_engine.py:22-49), on a cleared table. */
    method LayOut(numRounds: nat, p: nat) returns (allMatches: seq<Key>)
      requires numRounds >= 1 && p == Pow2(numRounds)
      modifies this
      ensures allMatches == BracketKeys(numRounds)
      ensures matches == Layout(allMatches, old(nextId), defaultBo) && nextId == old(nextId) + |allMatches|
      ensures rounds == old(rounds)
    {
      matches := map[];
      allMatches := LayOutUpper(numRounds, p, nextId);
      allMatches := LayOutLower(numRounds, p, old(nextId), allMatches);
      allMatches := LayOutFinals(old(nextId), allMatches);
    }

    /** The reversed bottom half of the seeds, padded with byes to half entries. */
    method BottomHalf(seeded: seq<Competitor>, half: nat) returns (bottom: seq<Option<Competitor>>)
      requires half < |seeded| <= 2 * half
      ensures |bottom| == half
      ensures forall j :: 0 <= j < half ==>
                bottom[j] == if j < |seeded| - half then Some(seeded[|seeded| - 1 - j]) else None
    {
      var rest := Reversed(seeded[half..]);
      bottom := seq(|rest|, j requires 0 <= j < |rest| => Some(rest[j]));
      while |bottom| < half
        invariant |rest| <= |bottom| <= half
        invariant forall j :: 0 <= j < |bottom| ==> bottom[j] == if j < |rest| then Some(rest[j]) else None
      {
        bottom := bottom + [None];
      }
    }

    /** The opening round: top half against the reversed bottom half, byes completed. */
    method SeedOpeningRound(seeded: seq<Competitor>, half: nat)
      requires 1 <= half < |seeded| <= 2 * half
      requires forall i :: 0 <= i < half ==> Key(Upper, 0, i) in matches
      modifies this
      ensures rounds == old(rounds) && nextId == old(nextId) && matches.Keys == old(matches).Keys
      ensures forall k :: k in matches ==>
                matches[k] == if k.bracket == Upper && k.round == 0 && k.idx < half
                              then Opening(old(matches)[k], seeded, half, k.idx, defaultBo)
                              else old(matches)[k]
    {
      var top := seeded[..half];
      var bottom := BottomHalf(seeded, half);
      for i := 0 to half
        invariant rounds == old(rounds) && nextId == old(nextId) && matches.Keys == old(matches).Keys
        invariant forall k :: k in matches ==>
                    matches[k] == if k.bracket == Upper && k.round == 0 && k.idx < i
                                  then Opening(old(matches)[k], seeded, half, k.idx, defaultBo)
                                  else old(matches)[k]
      {
        var p1 := top[i];
        var p2 := bottom[i];
        var k := Key(Upper, 0, i);
        var m := matches[k];
        m := m.(p1 := Some(p1.id), p2 := if p2.Some? then Some(p2.value.id) else None);
        // top[i] always exists (there are more seeds than half), so a bye is
        // always in slot 1 and the `not p1 and p2` branch of the source never runs
        if p2.None? {
          m := m.(status := Completed, winner := Some(p1.id), scoreP1 := defaultBo / 2 + 1);
        } else {
          m := m.(status := NextUp);
        }
        assert m == Opening(old(matches)[k], seeded, half, i, defaultBo);
        matches := matches[k := m];
      }
    }

    /** generate up to the call of advance (bracket_engine.py:19-72), on a cleared table. */
    method Build(seeded: seq<Competitor>, numRounds: nat) returns (allMatches: seq<Key>)
      requires numRounds >= 1 && Pow2(numRounds - 1) < |seeded| <= 2 * Pow2(numRounds - 1)
      modifies this
      ensures rounds == numRounds && Valid() && Built(rounds, matches, allMatches, seeded, defaultBo)
    {
      var p := Pow2(numRounds);
      HalfOfPow2(numRounds);
      var half := p / 2;
      allMatches := LayOut(numRounds, p);
      rounds := numRounds;
      LaidOutBracket(numRounds, allMatches, matches, nextId - |allMatches|, defaultBo);
      ghost var laid := matches;
      OpeningKeysPresent(numRounds, laid);
      SeedOpeningRound(seeded, half);
      BuiltFrom(numRounds, laid, matches, allMatches, seeded, defaultBo);
    }

    /**
     * bracket_logic.py's generate_bracket: clear the rows, then the strategy's
     * generate. Returns the created rows in creation order (all_matches).
     */
    method Generate(competitors: seq<Competitor>) returns (allMatches: seq<Key>)
      modifies this
      ensures Valid()
      ensures |competitors| < 2 ==> matches == map[] && allMatches == []
      ensures |competitors| >= 2 ==>
                rounds == BitLength(|competitors| - 1) &&
                GeneratedBracket(rounds, matches, allMatches, Seeded(competitors), defaultBo)
      ensures |competitors| == 5 ==> Stranded(rounds, matches, Key(Lower, 0, 1))
    {
      matches := map[];
      allMatches := [];
      var seeded := Seeded(competitors);
      var numPlayers := |seeded|;
      if numPlayers < 2 {
        return;
      }
      var numRounds := BitLength(numPlayers - 1);
      assert numRounds == BitLength(|competitors| - 1) by {
        assert numPlayers == |competitors|;
      }
      RoundsFor(numPlayers);
      allMatches := Build(seeded, numRounds);
      ghost var seededTable := matches;
      BuiltPaired(rounds, seededTable, allMatches, seeded, defaultBo);
      Advance(allMatches);
      AfterGenerate(rounds, seededTable, matches, allMatches, seeded, defaultBo);
      if numPlayers == 5 {
        FivePlayersStrandLower(rounds, seededTable, allMatches, seeded, defaultBo);
        StrandedStable(rounds, seededTable, matches, Key(Lower, 0, 1));
      }
    }

    /** _fill_player on the row at k. */
    method FillPlayer(k: Key, pid: Option<CompetitorId>, slot: nat) returns (updated: bool)
      requires k in matches
      modifies this
      ensures (matches, updated) == FillAt(old(matches), k, pid, slot)
      ensures rounds == old(rounds) && nextId == old(nextId)
    {
      if pid.None? {
        assert old(matches)[k := old(matches)[k]] == old(matches);
        return false;
      }
      var m := matches[k];
      updated := false;
      if slot == 0 {
        if m.p1 != pid {
          m := m.(p1 := pid);
          updated := true;
        }
      } else {
        if m.p2 != pid {
          m := m.(p2 := pid);
          updated := true;
        }
      }
      if updated && m.status == Waiting {
        if m.p1.Some? && m.p2.Some? {
          m := m.(status := NextUp);
        }
      }
      matches := matches[k := m];
    }

    /** The body of advance's inner loop for the match at k. */
    method RouteMatch(k: Key) returns (changed: bool)
      requires k in matches
      modifies this
      ensures (matches, changed) == Process(old(matches), k)
      ensures rounds == old(rounds) && nextId == old(nextId)
    {
      changed := false;
      var m := matches[k];
      if m.status == Completed && m.winner.Some? {
        var winnerId := m.winner;
        var loserId := if m.winner == m.p1 then m.p2 else m.p1;
        if k.bracket == Upper {
          // winner path
          var tu := Key(Upper, k.round + 1, k.idx / 2);
          if tu in matches {
            var u := FillPlayer(tu, winnerId, k.idx % 2);
            if u { changed := true; }
          } else if GF0 in matches {
            var u := FillPlayer(GF0, winnerId, 0);
            if u { changed := true; }
          }
          ghost var afterWin := matches;
          assert (afterWin, changed) == UpperWinnerPath(old(matches), k);
          // loser path
          if loserId.Some? {
            if k.round == 0 {
              var tl := Key(Lower, 0, k.idx / 2);
              if tl in matches {
                var u := FillPlayer(tl, loserId, k.idx % 2);
                if u { changed := true; }
              }
            } else {
              var tl := Key(Lower, 2 * k.round - 1, k.idx);
              if tl in matches {
                var u := FillPlayer(tl, loserId, 1);
                if u { changed := true; }
              }
            }
          }
          assert matches == UpperLoserPath(afterWin, k, loserId).0;
        } else if k.bracket == Lower {
          var minor := k.round % 2 == 0;
          var targetIdx := if minor then k.idx else k.idx / 2;
          var slot := if minor then 0 else k.idx % 2;
          var tl := Key(Lower, k.round + 1, targetIdx);
          if tl in matches {
            var u := FillPlayer(tl, winnerId, slot);
            if u { changed := true; }
          } else if GF0 in matches {
            var u := FillPlayer(GF0, winnerId, 1);
            if u { changed := true; }
          }
        } else {
          if k.round == 0 && m.winner == m.p2 {
            if GF1 in matches && matches[GF1].status == Waiting {
              var u := FillPlayer(GF1, m.p1, 0);
              u := FillPlayer(GF1, m.p2, 1);
              matches := matches[GF1 := matches[GF1].(status := NextUp)];
              changed := true;
            }
          }
        }
      }
    }

    /**
     * advance: passes over the matches in `order` (the rows as queried) until a
     * pass changes nothing. The result is settled, only seats and waiting-to-next-up
     * statuses changed, nothing routes into the first upper round, a seat nobody
     * can fill kept its occupant, and a table that was already settled is untouched.
     */
    method Advance(order: seq<Key>)
      requires Valid() && forall k :: k in order <==> k in matches
      modifies this
      ensures Valid() && rounds == old(rounds) && nextId == old(nextId)
      ensures Frozen(old(matches), matches) && RootsKept(old(matches), matches)
      ensures Settled(matches, order)
      ensures old(matches).Keys != {} ==> UnfedKept(rounds, old(matches), matches)
      ensures old(matches).Keys != {} ==> StrandedKept(rounds, old(matches), matches)
      ensures Justified(rounds, old(matches), matches)
      ensures Paired(old(matches)) ==> Paired(matches)
      ensures Settled(old(matches), order) ==> matches == old(matches)
    {
      var changed := true;
      while changed
        invariant Valid() && rounds == old(rounds) && nextId == old(nextId)
        invariant forall k :: k in order <==> k in matches
        invariant Frozen(old(matches), matches) && RootsKept(old(matches), matches)
        invariant old(matches).Keys != {} ==> UnfedKept(rounds, old(matches), matches)
        invariant old(matches).Keys != {} ==> StrandedKept(rounds, old(matches), matches)
        invariant Justified(rounds, old(matches), matches) && (Paired(old(matches)) ==> Paired(matches))
        invariant !changed ==> Settled(matches, order)
        invariant Settled(old(matches), order) ==> matches == old(matches)
        decreases Measure(rounds, matches).0, Measure(rounds, matches).1, Measure(rounds, matches).2, changed
      {
        ghost var start := matches;
        changed := RunPass(order);
        AfterPass(rounds, old(matches), start, order, (matches, changed));
      }
    }

    /** One pass of advance's `for m in all_matches` loop. */
    method RunPass(order: seq<Key>) returns (changed: bool)
      requires forall k :: k in order ==> k in matches
      modifies this
      ensures (matches, changed) == Pass(old(matches), order)
      ensures rounds == old(rounds) && nextId == old(nextId)
    {
      changed := false;
      for j := 0 to |order|
        invariant (matches, changed) == Pass(old(matches), order[..j])
        invariant rounds == old(rounds) && nextId == old(nextId)
      {
        assert order[..j + 1][..j] == order[..j];
        var c := RouteMatch(order[j]);
        if c { changed := true; }
      }
      assert order[..|order|] == order;
    }
  }
}
