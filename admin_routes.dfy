/**
 * The rule-bearing parts of the admin routes (app/routes/admin_routes.py):
 * who may open the host panel and the developer tools, the host and full
 * admin lists and their grant and revoke operations, signup approval and
 * locking, tiebreaker maps for 3-3 matches, and the victory-screen winner.
 */
module AdminRoutes {
  import opened Common
  import opened Text
  import opened SiteData
  import opened MatchService

  /** ADMIN_OSU_ID in config.py: a list of id strings. */
  const MainAdminIds: seq<string> := ["11365195", "11579864"]

  /** `str(user_id) in ADMIN_OSU_ID`. */
  predicate IsMainAdmin(id: int) {
    IntToString(id) in MainAdminIds
  }

  /** Both configured ids are recognised from their integer form. */
  lemma MainAdminsRecognised()
    ensures IsMainAdmin(11365195) && IsMainAdmin(11579864)
  {
    assert NatToString(11) == "11";
    assert NatToString(113) == "113";
    assert NatToString(1136) == "1136";
    assert NatToString(11365) == "11365";
    assert NatToString(113651) == "113651";
    assert NatToString(1136519) == "1136519";
    assert NatToString(11365195) == "11365195";
    assert NatToString(115) == "115";
    assert NatToString(1157) == "1157";
    assert NatToString(11579) == "11579";
    assert NatToString(115798) == "115798";
    assert NatToString(1157986) == "1157986";
    assert NatToString(11579864) == "11579864";
  }

  /** A negative id prints with a leading minus sign, so it is never a main admin. */
  lemma NegativeNotMainAdmin(n: int)
    requires n < 0
    ensures !IsMainAdmin(n)
  {
    assert IntToString(n)[0] == '-';
    assert MainAdminIds[0][0] == '1' && MainAdminIds[1][0] == '1';
  }

  /** A natural number printing as a configured id is that id: printing is injective. */
  lemma MainAdminDigits(n: nat)
    requires NatToString(n) in MainAdminIds
    ensures n == 11365195 || n == 11579864
  {
    MainAdminsRecognised();
    DigitsRoundTrip(n);
    DigitsRoundTrip(11365195);
    DigitsRoundTrip(11579864);
    assert NatToString(n) == NatToString(11365195) || NatToString(n) == NatToString(11579864);
  }

  /** Exactly the two configured ids are main admins: no other integer prints as one of them. */
  lemma MainAdminsExactly(n: int)
    ensures IsMainAdmin(n) <==> n == 11365195 || n == 11579864
  {
    MainAdminsRecognised();
    if n < 0 {
      NegativeNotMainAdmin(n);
    } else if IsMainAdmin(n) {
      MainAdminDigits(n);
    }
  }

  /** host_required: an admin session with an id that is a host, a full admin or a main admin. */
  predicate HostAccess(isAdmin: bool, sessionId: Option<int>, hosts: seq<int>, fulls: seq<int>) {
    isAdmin && sessionId.Some? && sessionId.value != 0 &&
    (sessionId.value in hosts || sessionId.value in fulls || IsMainAdmin(sessionId.value))
  }

  /** full_admin_required: as above, but only full admins and main admins. */
  predicate FullAccess(isAdmin: bool, sessionId: Option<int>, fulls: seq<int>) {
    isAdmin && sessionId.Some? && sessionId.value != 0 &&
    (sessionId.value in fulls || IsMainAdmin(sessionId.value))
  }

  predicate NoDup(s: seq<int>) {
    forall i, j :: 0 <= i < j < |s| ==> s[i] != s[j]
  }

  /** The permission lists hold no repeats and nobody is in both. */
  predicate ValidLists(hosts: seq<int>, fulls: seq<int>) {
    NoDup(hosts) && NoDup(fulls) && forall x :: x in hosts ==> x !in fulls
  }

  /** list.remove(x) when x is present; the list itself otherwise. */
  function Without(s: seq<int>, x: int): (r: seq<int>)
    ensures x !in s ==> r == s
    ensures x in s ==> |r| == |s| - 1
    ensures forall y :: y != x ==> (y in r <==> y in s)
  {
    if s == [] then []
    else if s[0] == x then s[1..]
    else [s[0]] + Without(s[1..], x)
  }

  /** Removing from a list without repeats removes every copy and adds none. */
  lemma {:induction false} WithoutNoDup(s: seq<int>, x: int)
    requires NoDup(s)
    ensures NoDup(Without(s, x)) && x !in Without(s, x)
  {
    if s != [] {
      assert NoDup(s[1..]) by {
        forall i, j | 0 <= i < j < |s[1..]|
          ensures s[1..][i] != s[1..][j]
        {
          assert s[1..][i] == s[i + 1] && s[1..][j] == s[j + 1];
        }
      }
      if s[0] != x {
        WithoutNoDup(s[1..], x);
        var t := Without(s[1..], x);
        assert s[0] !in s[1..];
        assert s[0] !in t;
        var r := [s[0]] + t;
        forall i, j | 0 <= i < j < |r|
          ensures r[i] != r[j]
        {
          if i > 0 {
            assert r[i] == t[i - 1] && r[j] == t[j - 1];
          } else {
            assert r[j] == t[j - 1];
          }
        }
      } else {
        assert s[0] !in s[1..];
      }
    }
  }

  lemma AppendNoDup(s: seq<int>, x: int)
    requires NoDup(s) && x !in s
    ensures NoDup(s + [x])
  {
  }

  datatype Lists = Lists(hosts: seq<int>, fulls: seq<int>)

  /** grant_host_perms: no change for a host or a full admin; otherwise appended to the hosts. */
  function GrantHost(ls: Lists, u: int): (r: Lists)
    ensures u in r.hosts || u in r.fulls
    ensures r.fulls == ls.fulls
    ensures forall y :: y != u ==> (y in r.hosts <==> y in ls.hosts)
    ensures u in ls.hosts || u in ls.fulls ==> r == ls
  {
    if u in ls.hosts || u in ls.fulls then ls else ls.(hosts := ls.hosts + [u])
  }

  /** revoke_host_perms: the user leaves the hosts. */
  function RevokeHost(ls: Lists, u: int): (r: Lists)
    ensures r.fulls == ls.fulls
    ensures forall y :: y != u ==> (y in r.hosts <==> y in ls.hosts)
    ensures u !in ls.hosts ==> r == ls
  {
    if u in ls.hosts then ls.(hosts := Without(ls.hosts, u)) else ls
  }

  /** grant_admin_perms: an upgrade leaves the hosts and joins the full admins. */
  function GrantAdmin(ls: Lists, u: int): (r: Lists)
    ensures u in r.fulls
    ensures forall y :: y != u ==> (y in r.hosts <==> y in ls.hosts) && (y in r.fulls <==> y in ls.fulls)
    ensures u in ls.fulls ==> r == ls
  {
    if u in ls.fulls then ls else Lists(Without(ls.hosts, u), ls.fulls + [u])
  }

  /** revoke_admin_perms: never for a main admin; otherwise the user leaves the full admins. */
  function RevokeAdmin(ls: Lists, u: int): (r: Lists)
    ensures r.hosts == ls.hosts
    ensures forall y :: y != u ==> (y in r.fulls <==> y in ls.fulls)
    ensures IsMainAdmin(u) || u !in ls.fulls ==> r == ls
  {
    if IsMainAdmin(u) then ls
    else if u in ls.fulls then ls.(fulls := Without(ls.fulls, u))
    else ls
  }

  /** Every grant and revoke keeps the lists duplicate-free and disjoint, and does what it says. */
  lemma PermissionEditsKeepValid(ls: Lists, u: int)
    requires ValidLists(ls.hosts, ls.fulls)
    ensures ValidLists(GrantHost(ls, u).hosts, GrantHost(ls, u).fulls)
    ensures ValidLists(RevokeHost(ls, u).hosts, RevokeHost(ls, u).fulls) && u !in RevokeHost(ls, u).hosts
    ensures ValidLists(GrantAdmin(ls, u).hosts, GrantAdmin(ls, u).fulls) && u !in GrantAdmin(ls, u).hosts
    ensures ValidLists(RevokeAdmin(ls, u).hosts, RevokeAdmin(ls, u).fulls)
    ensures !IsMainAdmin(u) ==> u !in RevokeAdmin(ls, u).fulls
  {
    if u !in ls.hosts && u !in ls.fulls {
      AppendNoDup(ls.hosts, u);
    }
    WithoutNoDup(ls.hosts, u);
    WithoutNoDup(ls.fulls, u);
    if u !in ls.fulls {
      AppendNoDup(ls.fulls, u);
    }
  }

  /** A granted host passes host_required; a granted admin passes both checks. */
  lemma GrantsGiveAccess(ls: Lists, u: int)
    requires u != 0
    ensures HostAccess(true, Some(u), GrantHost(ls, u).hosts, GrantHost(ls, u).fulls)
    ensures FullAccess(true, Some(u), GrantAdmin(ls, u).fulls)
    ensures HostAccess(true, Some(u), GrantAdmin(ls, u).hosts, GrantAdmin(ls, u).fulls)
  {
  }

  /** Full-admin access implies host access. */
  lemma FullAccessIsHostAccess(isAdmin: bool, sessionId: Option<int>, hosts: seq<int>, fulls: seq<int>)
    requires FullAccess(isAdmin, sessionId, fulls)
    ensures HostAccess(isAdmin, sessionId, hosts, fulls)
  {
  }

  /** The user_id form field: missing or empty, not an integer, or a number. */
  datatype UserField = Blank | NotNumber | Number(n: int)

  /**
   * The two permission lists of the tournament data. `userKnown` says
   * whether the osu! API finds the user; the grants look the user up before
   * reading the data, the revokes only after saving.
   */
  class PermissionLists {
    var hosts: seq<int>
    var fulls: seq<int>

    constructor (h: seq<int>, f: seq<int>)
      ensures hosts == h && fulls == f
    {
      hosts, fulls := h, f;
    }

    method GrantHostPerms(field: UserField, userKnown: bool) returns (kind: Kind)
      modifies this
      ensures !field.Number? || !userKnown ==> kind == Error && hosts == old(hosts) && fulls == old(fulls)
      ensures field.Number? && userKnown ==>
                Lists(hosts, fulls) == GrantHost(Lists(old(hosts), old(fulls)), field.n) &&
                kind == (if field.n in old(hosts) || field.n in old(fulls) then Info else Success)
    {
      if !field.Number? || !userKnown {
        return Error;
      }
      var u := field.n;
      if u in hosts {
        return Info;
      }
      if u in fulls {
        return Info;
      }
      hosts := hosts + [u];
      return Success;
    }

    method RevokeHostPerms(field: UserField, userKnown: bool) returns (kind: Kind)
      modifies this
      ensures !field.Number? ==> kind == Error && hosts == old(hosts) && fulls == old(fulls)
      ensures field.Number? ==>
                Lists(hosts, fulls) == RevokeHost(Lists(old(hosts), old(fulls)), field.n) &&
                kind == (if field.n !in old(hosts) then Info else if userKnown then Success else Error)
    {
      if !field.Number? {
        return Error;
      }
      var u := field.n;
      if u in hosts {
        hosts := Without(hosts, u);
        kind := if userKnown then Success else Error;
      } else {
        kind := Info;
      }
    }

    method GrantAdminPerms(field: UserField, userKnown: bool) returns (kind: Kind)
      modifies this
      ensures !field.Number? || !userKnown ==> kind == Error && hosts == old(hosts) && fulls == old(fulls)
      ensures field.Number? && userKnown ==>
                Lists(hosts, fulls) == GrantAdmin(Lists(old(hosts), old(fulls)), field.n) &&
                kind == (if field.n in old(fulls) then Info else Success)
    {
      if !field.Number? || !userKnown {
        return Error;
      }
      var u := field.n;
      if u in fulls {
        return Info;
      }
      if u in hosts {
        hosts := Without(hosts, u);
      }
      fulls := fulls + [u];
      return Success;
    }

    method RevokeAdminPerms(field: UserField, userKnown: bool) returns (kind: Kind)
      modifies this
      ensures !field.Number? ==> kind == Error && hosts == old(hosts) && fulls == old(fulls)
      ensures field.Number? ==>
                Lists(hosts, fulls) == RevokeAdmin(Lists(old(hosts), old(fulls)), field.n) &&
                kind == (if IsMainAdmin(field.n) then Error else if field.n !in old(fulls) then Info
                         else if userKnown then Success else Error)
    {
      if !field.Number? {
        return Error;
      }
      var u := field.n;
      if IsMainAdmin(u) {
        return Error;
      }
      if u in fulls {
        fulls := Without(fulls, u);
        kind := if userKnown then Success else Error;
      } else {
        kind := Info;
      }
    }
  }

  /** An entry of data['pending_signups']. */
  datatype Signup = Signup(id: Option<int>, name: string, pp: int)

  /** The competitor an approved signup becomes. */
  function Approved(s: Signup): Competitor {
    Competitor(s.id, s.name, s.pp, None, None, None)
  }

  /** The first pending signup with the id. */
  function FirstSignup(pending: seq<Signup>, uid: int): (r: Option<nat>)
    ensures r.Some? ==> r.value < |pending| && pending[r.value].id == Some(uid) &&
                        forall j :: 0 <= j < r.value ==> pending[j].id != Some(uid)
    ensures r.None? ==> forall j :: 0 <= j < |pending| ==> pending[j].id != Some(uid)
  {
    if pending == [] then None
    else if pending[0].id == Some(uid) then Some(0)
    else
      match FirstSignup(pending[1..], uid)
      case None => None
      case Some(j) => Some(j + 1)
  }

  predicate IsCompetitor(competitors: seq<Competitor>, uid: int) {
    exists c :: c in competitors && c.id == Some(uid)
  }

  /** The signup keys of the tournament data. */
  class SignupDesk {
    var pending: seq<Signup>
    var competitors: seq<Competitor>
    var locked: Option<bool>

    constructor (p: seq<Signup>, c: seq<Competitor>, l: Option<bool>)
      ensures pending == p && competitors == c && locked == l
    {
      pending, competitors, locked := p, c, l;
    }

    /**
     * approve_signup: an unknown id is an error; a user who already competes
     * is reported and nothing is saved; otherwise the signup moves from the
     * pending list to the end of the competitors, which the save then
     * orders by pp (the bracket is then regenerated).
     */
    method ApproveSignup(uid: int) returns (kind: Kind)
      modifies this
      ensures locked == old(locked)
      ensures FirstSignup(old(pending), uid).None? ==>
                kind == Error && pending == old(pending) && competitors == old(competitors)
      ensures FirstSignup(old(pending), uid).Some? && IsCompetitor(old(competitors), uid) ==>
                kind == Info && pending == old(pending) && competitors == old(competitors)
      ensures FirstSignup(old(pending), uid).Some? && !IsCompetitor(old(competitors), uid) ==>
                var i := FirstSignup(old(pending), uid).value;
                kind == Success && pending == old(pending)[..i] + old(pending)[i + 1..] &&
                competitors == SaveOrder(old(competitors) + [Approved(old(pending)[i])])
    {
      var i := 0;
      var found := false;
      while i < |pending|
        invariant 0 <= i <= |pending|
        invariant forall j :: 0 <= j < i ==> pending[j].id != Some(uid)
      {
        if pending[i].id == Some(uid) {
          found := true;
          break;
        }
        i := i + 1;
      }
      if !found {
        assert FirstSignup(pending, uid).None?;
        return Error;
      }
      assert FirstSignup(pending, uid) == Some(i);
      var k := 0;
      while k < |competitors|
        invariant 0 <= k <= |competitors|
        invariant forall j :: 0 <= j < k ==> competitors[j].id != Some(uid)
      {
        if competitors[k].id == Some(uid) {
          return Info;
        }
        k := k + 1;
      }
      var signup := pending[i];
      pending := pending[..i] + pending[i + 1..];
      competitors := SaveOrder(competitors + [Approved(signup)]);
      kind := Success;
    }

    /** toggle_signups: the lock flips (absent means unlocked); the save orders the competitors by pp. */
    method ToggleSignups() returns (message: string)
      modifies this
      ensures pending == old(pending) && competitors == SaveOrder(old(competitors))
      ensures locked == Some(old(locked) != Some(true))
      ensures message == "Tournament signups are now " + (if locked == Some(true) then "locked" else "unlocked") + "."
    {
      var current := if locked.Some? then locked.value else false;
      locked := Some(!current);
      competitors := SaveOrder(competitors);
      message := "Tournament signups are now " + (if !current then "locked" else "unlocked") + ".";
    }
  }

  /**
   * The match the tiebreaker routes act on: the first one, over upper, lower
   * and the grand final (its predecessor is not searched), satisfying q.
   */
  function TieTarget(b: Brackets, q: Query): (r: Option<Loc>)
    ensures r.Some? ==> ValidLoc(b, r.value) && !r.value.AtPreviousFinal? && Satisfies(q, MatchAt(b, r.value)) &&
                        forall l :: ValidLoc(b, l) && FindsBefore(l, r.value) ==> !Satisfies(q, MatchAt(b, l))
    ensures r.None? ==> forall l :: ValidLoc(b, l) && !l.AtPreviousFinal? ==> !Satisfies(q, MatchAt(b, l))
  {
    var up := FirstInRounds(b.upper, q);
    var low := FirstInRounds(b.lower, q);
    if up.Some? then Some(InUpper(up.value.0, up.value.1))
    else if low.Some? then Some(InLower(low.value.0, low.value.1))
    else if b.grandFinals.Some? && Satisfies(q, b.grandFinals.value) then Some(AtFinal)
    else None
  }

  method ScanTieTarget(b: Brackets, q: Query) returns (r: Option<Loc>)
    ensures r == TieTarget(b, q)
  {
    var up := ScanRounds(b.upper, q);
    if up.Some? {
      return Some(InUpper(up.value.0, up.value.1));
    }
    var low := ScanRounds(b.lower, q);
    if low.Some? {
      return Some(InLower(low.value.0, low.value.1));
    }
    if b.grandFinals.Some? && Satisfies(q, b.grandFinals.value) {
      return Some(AtFinal);
    }
    return None;
  }

  /** The brackets as the tiebreaker routes edit them. */
  class TiebreakerDesk {
    var brackets: Brackets

    constructor (b: Brackets)
      ensures brackets == b
    {
      brackets := b;
    }

    /**
     * set_tiebreaker_map: only a match with the id standing at 3-3 takes the
     * map; `url` is the raw form value, stored with surrounding whitespace stripped.
     */
    method SetTiebreakerMap(mid: string, url: string) returns (kind: Kind)
      modifies this
      ensures mid == "" || TieTarget(old(brackets), TiedWithId(mid)).None? ==>
                kind == Error && brackets == old(brackets)
      ensures mid != "" && TieTarget(old(brackets), TiedWithId(mid)).Some? ==>
                var l := TieTarget(old(brackets), TiedWithId(mid)).value;
                kind == Success &&
                brackets == WithMatchAt(old(brackets), l, MatchAt(old(brackets), l).(tiebreakerUrl := Some(Strip(url))))
    {
      if mid == "" {
        return Error;
      }
      var l := ScanTieTarget(brackets, TiedWithId(mid));
      if l.None? {
        return Error;
      }
      var m := MatchAt(brackets, l.value);
      brackets := WithMatchAt(brackets, l.value, m.(tiebreakerUrl := Some(Strip(url))));
      return Success;
    }

    /** clear_tiebreaker_map: the first match with the id loses its map, if it has one. */
    method ClearTiebreakerMap(mid: string) returns (kind: Kind)
      modifies this
      ensures mid == "" || TieTarget(old(brackets), WithId(mid)).None? ==>
                kind == Error && brackets == old(brackets)
      ensures mid != "" && TieTarget(old(brackets), WithId(mid)).Some? ==>
                var l := TieTarget(old(brackets), WithId(mid)).value;
                kind == Success &&
                brackets == WithMatchAt(old(brackets), l, MatchAt(old(brackets), l).(tiebreakerUrl := None))
    {
      if mid == "" {
        return Error;
      }
      var l := ScanTieTarget(brackets, WithId(mid));
      if l.None? {
        return Error;
      }
      var m := MatchAt(brackets, l.value);
      brackets := WithMatchAt(brackets, l.value, m.(tiebreakerUrl := None));
      return Success;
    }
  }

  /** A tiebreaker is only ever stored on a 3-3 match. */
  lemma TiebreakerOnlyAtThreeAll(b: Brackets, mid: string)
    requires TieTarget(b, TiedWithId(mid)).Some?
    ensures MatchAt(b, TieTarget(b, TiedWithId(mid)).value).scoreP1 == 3
    ensures MatchAt(b, TieTarget(b, TiedWithId(mid)).value).scoreP2 == 3
  {
  }

  /**
   * The victory screen's winner: four points, or the lead with at least one
   * point, for player 1 first, then player 2; player 1 when neither holds.
   */
  function VictoryWinner(p1: int, p2: int): (r: Side)
    ensures p1 >= 4 ==> r == Player1
    ensures p1 == p2 ==> r == Player1
    ensures 0 <= p1 <= 4 && 0 <= p2 <= 4 && !(p1 == 4 && p2 == 4) ==> (r == Player2 <==> p2 > p1)
  {
    if p1 >= 4 || (p1 > p2 && p1 > 0) then Player1
    else if p2 >= 4 || (p2 > p1 && p2 > 0) then Player2
    else Player1
  }
}
