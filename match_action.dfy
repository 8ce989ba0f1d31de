/**
 * match_action of app/routes/player_routes.py: the ban, pick and ability
 * state a match's two seated players drive. The state lives in the match's
 * `match_state` dict; a rejected request returns before the save, so it
 * leaves the stored state as it was.
 */
module MatchAction {
  import opened Common

  function Opponent(s: Side): (o: Side)
    ensures o != s
  {
    if s == Player1 then Player2 else Player1
  }

  datatype Phase = BanPhase | PickPhase

  /** One player's entry of abilities_used. */
  datatype Usage = Usage(forceNomod: bool, forceMod: bool, personalMod: nat)

  /** A map_mods value: 'nomod', a forced mod, or a personal mod of one player. */
  datatype MapMod = NoMod | Forced(mod: string) | Personal(player: Side, mod: string)

  /** An entry of picked_maps. */
  datatype Pick = Pick(mapId: string, pickedBy: Side, order: nat)

  /** pending_force_nomod_counter (its display name of the map is not modelled). */
  datatype Counter = Counter(target: Side, mapId: string, opponentMod: string, personalModPlayer: Side)

  datatype MatchState = MatchState(
    phase: Phase,
    currentTurn: Side,
    firstPlayer: Side,
    banned: seq<string>,
    picked: seq<Pick>,
    usage1: Usage,
    usage2: Usage,
    mapMods: map<string, MapMod>,
    counter: Option<Counter>)

  datatype AbilityKind = ForceNomod | ForceMod | PersonalMod | OtherAbility

  /** The action_type of the request; any other value is OtherAction. */
  datatype Action = Ban | PickMap | Ability(kind: AbilityKind) | CounterNomod | SkipCounter | OtherAction

  /** The form fields; a missing mod_choice is the empty string, which `not mod_choice` treats alike. */
  datatype Request = Request(action: Action, target: string, mod: string)

  /** The error replies of match_action, one per message the handler returns. */
  datatype Refusal =
    | PickLocked            // a new pick before the last pick has been scored
    | NotYourTurn           // ban or pick out of turn
    | NoCounterOpportunity  // counter or skip without a pending counter for the player
    | AbilityNotNow         // ability neither on turn, after an own pick, nor in a running pick phase
    | BanPhaseOver
    | AlreadyBanned
    | PickPhaseNotActive
    | PickBanned            // picking a banned map
    | AlreadyPicked
    | ForceNomodUsed
    | ForceModUsed
    | ModChoiceRequired
    | PersonalModExhausted  // a third personal mod
    | Unauthorized          // the user holds neither seat (status 403)

  /** The JSON reply: an error with its HTTP status, or success with the saved state. */
  datatype Outcome = Rejected(status: nat, error: Refusal) | Accepted(state: MatchState)

  /** The fields of the match the handler reads. */
  datatype MatchRecord = MatchRecord(p1: Option<int>, p2: Option<int>, scoreP1: int, scoreP2: int, state: Option<MatchState>)

  function UsageOf(s: MatchState, side: Side): Usage {
    if side == Player1 then s.usage1 else s.usage2
  }

  function WithUsage(s: MatchState, side: Side, u: Usage): (r: MatchState)
    ensures UsageOf(r, side) == u && UsageOf(r, Opponent(side)) == UsageOf(s, Opponent(side))
    ensures r.(usage1 := s.usage1, usage2 := s.usage2) == s
  {
    if side == Player1 then s.(usage1 := u) else s.(usage2 := u)
  }

  /** The state created on the first request, `first` being the coin flip's result. */
  function Initial(first: Side): MatchState {
    MatchState(BanPhase, first, first, [], [], Usage(false, false, 0), Usage(false, false, 0), map[], None)
  }

  function PickedIds(picks: seq<Pick>): (r: seq<string>)
    ensures |r| == |picks| && forall k :: 0 <= k < |picks| ==> r[k] == picks[k].mapId
  {
    seq(|picks|, k requires 0 <= k < |picks| => picks[k].mapId)
  }

  /** A player's own last pick, which also allows them an ability. */
  predicate JustPicked(s: MatchState, side: Side) {
    s.picked != [] && s.picked[|s.picked| - 1].pickedBy == side
  }

  predicate CounterFor(s: MatchState, side: Side) {
    s.counter.Some? && s.counter.value.target == side
  }

  /** The checks made before the action is processed: the pick lock, then whose turn it is. */
  function Precheck(s: MatchState, side: Side, scoreTotal: int, a: Action): Option<Refusal> {
    if a == PickMap && |s.picked| > 0 && scoreTotal < |s.picked| then
      Some(PickLocked)
    else if (a == Ban || a == PickMap) && s.currentTurn != side then Some(NotYourTurn)
    else if (a == CounterNomod || a == SkipCounter) && !CounterFor(s, side) then Some(NoCounterOpportunity)
    else if a.Ability? && s.currentTurn != side && !JustPicked(s, side) && !(s.phase == PickPhase && s.picked != []) then
      Some(AbilityNotNow)
    else None
  }

  /** The checks made while processing the action. */
  function ActionCheck(s: MatchState, side: Side, r: Request): Option<Refusal> {
    match r.action
    case Ban =>
      if s.phase != BanPhase then Some(BanPhaseOver)
      else if r.target in s.banned then Some(AlreadyBanned)
      else None
    case PickMap =>
      if s.phase != PickPhase then Some(PickPhaseNotActive)
      else if r.target in s.banned then Some(PickBanned)
      else if r.target in PickedIds(s.picked) then Some(AlreadyPicked)
      else None
    case Ability(ForceNomod) =>
      if UsageOf(s, side).forceNomod then Some(ForceNomodUsed) else None
    case Ability(ForceMod) =>
      if UsageOf(s, side).forceMod then Some(ForceModUsed)
      else if r.mod == "" then Some(ModChoiceRequired)
      else None
    case Ability(PersonalMod) =>
      if UsageOf(s, side).personalMod >= 2 then Some(PersonalModExhausted)
      else if r.mod == "" then Some(ModChoiceRequired)
      else None
    case CounterNomod =>
      if UsageOf(s, side).forceNomod then Some(ForceNomodUsed) else None
    case _ => None
  }

  /** The change an accepted request makes. */
  function Effect(s: MatchState, side: Side, r: Request): MatchState {
    match r.action
    case Ban =>
      var s1 := s.(banned := s.banned + [r.target], currentTurn := Opponent(side));
      if |s1.banned| >= 6 then s1.(phase := PickPhase, currentTurn := Player1) else s1
    case PickMap =>
      s.(picked := s.picked + [Pick(r.target, side, |s.picked| + 1)], currentTurn := Opponent(side))
    case Ability(ForceNomod) =>
      WithUsage(s, side, UsageOf(s, side).(forceNomod := true)).(mapMods := s.mapMods[r.target := NoMod])
    case Ability(ForceMod) =>
      WithUsage(s, side, UsageOf(s, side).(forceMod := true)).(mapMods := s.mapMods[r.target := Forced(r.mod)])
    case Ability(PersonalMod) =>
      var s1 := WithUsage(s, side, UsageOf(s, side).(personalMod := UsageOf(s, side).personalMod + 1));
      var s2 := s1.(mapMods := s.mapMods[r.target := Personal(side, r.mod)]);
      if !UsageOf(s, Opponent(side)).forceNomod then
        s2.(counter := Some(Counter(Opponent(side), r.target, r.mod, side)))
      else s2
    case CounterNomod =>
      WithUsage(s, side, UsageOf(s, side).(forceNomod := true)).(mapMods := s.mapMods[r.target := NoMod], counter := None)
    case SkipCounter => s.(counter := None)
    case _ => s
  }

  /** One request by a seated player against the (possibly just created) state. */
  function Step(s: MatchState, side: Side, scoreTotal: int, r: Request): Outcome {
    var pre := Precheck(s, side, scoreTotal, r.action);
    if pre.Some? then Rejected(400, pre.value)
    else
      var check := ActionCheck(s, side, r);
      if check.Some? then Rejected(400, check.value) else Accepted(Effect(s, side, r))
  }

  /** Which seat the user holds, if any; player1 is checked first. */
  function SideOf(m: MatchRecord, user: int): Option<Side> {
    if m.p1 == Some(user) then Some(Player1)
    else if m.p2 == Some(user) then Some(Player2)
    else None
  }

  /** The state the request is checked against: the stored one, or a fresh one. */
  function Current(m: MatchRecord, first: Side): MatchState {
    if m.state.Some? then m.state.value else Initial(first)
  }

  /** match_action for a found match. */
  function Handle(m: MatchRecord, user: int, first: Side, r: Request): Outcome {
    var side := SideOf(m, user);
    if side.None? then Rejected(403, Unauthorized)
    else Step(Current(m, first), side.value, m.scoreP1 + m.scoreP2, r)
  }

  // ---------------------------------------------------------------------
  // Properties
  // ---------------------------------------------------------------------

  /** What every state reachable from Initial satisfies. */
  predicate Valid(s: MatchState) {
    Orderly(s.phase, s.banned, s.picked) &&
    s.usage1.personalMod <= 2 && s.usage2.personalMod <= 2 &&
    (s.counter.Some? ==> s.counter.value.target != s.counter.value.personalModPlayer)
  }

  /**
   * At most six distinct bans, the ban phase lasting exactly until the
   * sixth; picks only after it, distinct, unbanned and numbered from 1.
   */
  predicate Orderly(phase: Phase, banned: seq<string>, picked: seq<Pick>) {
    |banned| <= 6 &&
    (phase == BanPhase <==> |banned| < 6) &&
    (phase == BanPhase ==> picked == []) &&
    (forall i, j :: 0 <= i < j < |banned| ==> banned[i] != banned[j]) &&
    (forall i, j :: 0 <= i < j < |picked| ==> picked[i].mapId != picked[j].mapId) &&
    (forall k :: 0 <= k < |picked| ==> picked[k].order == k + 1 && picked[k].mapId !in banned)
  }

  lemma InitialValid(first: Side)
    ensures Valid(Initial(first))
    ensures Initial(first).currentTurn == first && Initial(first).phase == BanPhase
  {
  }

  /** Every accepted request keeps the state valid. */
  lemma StepKeepsValid(s: MatchState, side: Side, scoreTotal: int, r: Request)
    requires Valid(s)
    requires Step(s, side, scoreTotal, r).Accepted?
    ensures Valid(Step(s, side, scoreTotal, r).state)
  {
    match r.action {
      case Ban => BanKeepsValid(s, side, r);
      case PickMap => PickKeepsValid(s, side, r);
      case _ => OtherKeepsValid(s, side, r);
    }
  }

  lemma BanKeepsValid(s: MatchState, side: Side, r: Request)
    requires Valid(s) && r.action == Ban
    requires s.phase == BanPhase && r.target !in s.banned
    ensures Valid(Effect(s, side, r))
  {
    var t := Effect(s, side, r);
    assert t.banned == s.banned + [r.target];
    assert forall i :: 0 <= i < |s.banned| ==> t.banned[i] == s.banned[i];
  }

  lemma PickKeepsValid(s: MatchState, side: Side, r: Request)
    requires Valid(s) && r.action == PickMap
    requires s.phase == PickPhase && r.target !in s.banned && r.target !in PickedIds(s.picked)
    ensures Valid(Effect(s, side, r))
  {
    var t := Effect(s, side, r);
    assert t.picked == s.picked + [Pick(r.target, side, |s.picked| + 1)];
    assert forall k :: 0 <= k < |s.picked| ==> t.picked[k] == s.picked[k];
    assert forall k :: 0 <= k < |s.picked| ==> s.picked[k].mapId != r.target by {
      assert forall k :: 0 <= k < |s.picked| ==> PickedIds(s.picked)[k] == s.picked[k].mapId;
    }
  }

  /** Abilities and counters touch neither bans, picks nor the phase. */
  lemma OtherKeepsValid(s: MatchState, side: Side, r: Request)
    requires Valid(s) && r.action != Ban && r.action != PickMap
    requires r.action == Ability(PersonalMod) ==> UsageOf(s, side).personalMod < 2
    ensures Valid(Effect(s, side, r))
  {
    var u := UsageOf(s, side);
    if r.action == Ability(ForceNomod) {
      UsageKeepsValid(s, side, u.(forceNomod := true), s.mapMods[r.target := NoMod], s.counter);
    } else if r.action == Ability(ForceMod) {
      UsageKeepsValid(s, side, u.(forceMod := true), s.mapMods[r.target := Forced(r.mod)], s.counter);
    } else if r.action == Ability(PersonalMod) {
      var c := if !UsageOf(s, Opponent(side)).forceNomod
               then Some(Counter(Opponent(side), r.target, r.mod, side)) else s.counter;
      UsageKeepsValid(s, side, u.(personalMod := u.personalMod + 1), s.mapMods[r.target := Personal(side, r.mod)], c);
    } else if r.action == CounterNomod {
      UsageKeepsValid(s, side, u.(forceNomod := true), s.mapMods[r.target := NoMod], None);
    } else if r.action == SkipCounter {
      UsageKeepsValid(s, side, u, s.mapMods, None);
    }
  }

  /** Replacing one side's usage, the mod table and the counter keeps a state valid. */
  lemma UsageKeepsValid(s: MatchState, side: Side, u: Usage, mods: map<string, MapMod>, c: Option<Counter>)
    requires Valid(s) && u.personalMod <= 2
    requires c.Some? ==> c.value.target != c.value.personalModPlayer
    ensures Valid(WithUsage(s, side, u).(mapMods := mods, counter := c))
  {
    var t := WithUsage(s, side, u).(mapMods := mods, counter := c);
    assert t.banned == s.banned && t.picked == s.picked && t.phase == s.phase;
    assert UsageOf(t, side) == u && UsageOf(t, Opponent(side)) == UsageOf(s, Opponent(side));
  }

  /** The stored state stays valid across accepted requests, starting from the fresh one. */
  lemma HandleKeepsValid(m: MatchRecord, user: int, first: Side, r: Request)
    requires m.state.Some? ==> Valid(m.state.value)
    requires Handle(m, user, first, r).Accepted?
    ensures Valid(Handle(m, user, first, r).state)
  {
    var side := SideOf(m, user).value;
    InitialValid(first);
    StepKeepsValid(Current(m, first), side, m.scoreP1 + m.scoreP2, r);
  }

  /** Only the two seated players may act. */
  lemma OnlySeatedPlayers(m: MatchRecord, user: int, first: Side, r: Request)
    ensures Handle(m, user, first, r).Accepted? ==> m.p1 == Some(user) || m.p2 == Some(user)
    ensures m.p1 != Some(user) && m.p2 != Some(user) ==> Handle(m, user, first, r) == Rejected(403, Unauthorized)
  {
  }

  /**
   * A ban is accepted exactly in the ban phase, on the player's turn, for a
   * map not yet banned; it is appended, the turn passes, and the sixth ban
   * opens the pick phase with player1 to move.
   */
  lemma BanRule(s: MatchState, side: Side, scoreTotal: int, target: string, mod: string)
    ensures var o := Step(s, side, scoreTotal, Request(Ban, target, mod));
            (o.Accepted? <==> s.phase == BanPhase && s.currentTurn == side && target !in s.banned) &&
            (o.Accepted? ==>
               o.state.banned == s.banned + [target] && o.state.picked == s.picked &&
               o.state.mapMods == s.mapMods && o.state.counter == s.counter &&
               (|o.state.banned| >= 6 ==> o.state.phase == PickPhase && o.state.currentTurn == Player1) &&
               (|o.state.banned| < 6 ==> o.state.phase == BanPhase && o.state.currentTurn == Opponent(side)))
  {
  }

  /**
   * A pick is accepted exactly when the previous pick has been scored, in
   * the pick phase, on the player's turn, for a map neither banned nor
   * picked; it is recorded with the next order number and the turn passes.
   */
  lemma PickRule(s: MatchState, side: Side, scoreTotal: int, target: string, mod: string)
    ensures var o := Step(s, side, scoreTotal, Request(PickMap, target, mod));
            (o.Accepted? <==>
               !(|s.picked| > 0 && scoreTotal < |s.picked|) && s.phase == PickPhase && s.currentTurn == side &&
               target !in s.banned && forall k :: 0 <= k < |s.picked| ==> s.picked[k].mapId != target) &&
            (o.Accepted? ==>
               o.state.picked == s.picked + [Pick(target, side, |s.picked| + 1)] &&
               o.state.currentTurn == Opponent(side) && o.state.phase == PickPhase &&
               o.state.banned == s.banned)
  {
    var ids := PickedIds(s.picked);
    assert (target in ids) <==> exists k :: 0 <= k < |s.picked| && s.picked[k].mapId == target;
  }

  /** Whether the player may use an ability now. */
  predicate AbilityTime(s: MatchState, side: Side) {
    s.currentTurn == side || JustPicked(s, side) || (s.phase == PickPhase && s.picked != [])
  }

  /**
   * Force NoMod and Force Mod are accepted only at an allowed time and once
   * per player (Force Mod also needs a mod); each sets the map's mod.
   */
  lemma ForceRules(s: MatchState, side: Side, scoreTotal: int, target: string, mod: string)
    ensures var o := Step(s, side, scoreTotal, Request(Ability(ForceNomod), target, mod));
            (o.Accepted? <==> AbilityTime(s, side) && !UsageOf(s, side).forceNomod) &&
            (o.Accepted? ==> UsageOf(o.state, side).forceNomod && o.state.mapMods == s.mapMods[target := NoMod] &&
                             UsageOf(o.state, Opponent(side)) == UsageOf(s, Opponent(side)))
    ensures var o := Step(s, side, scoreTotal, Request(Ability(ForceMod), target, mod));
            (o.Accepted? <==> AbilityTime(s, side) && !UsageOf(s, side).forceMod && mod != "") &&
            (o.Accepted? ==> UsageOf(o.state, side).forceMod && o.state.mapMods == s.mapMods[target := Forced(mod)] &&
                             UsageOf(o.state, Opponent(side)) == UsageOf(s, Opponent(side)))
  {
  }

  /**
   * Personal Mod is accepted at an allowed time with a mod, fewer than two
   * times per player; it opens a counter for the opponent exactly when the
   * opponent's Force NoMod is unused.
   */
  lemma PersonalModRule(s: MatchState, side: Side, scoreTotal: int, target: string, mod: string)
    ensures var o := Step(s, side, scoreTotal, Request(Ability(PersonalMod), target, mod));
            (o.Accepted? <==> AbilityTime(s, side) && UsageOf(s, side).personalMod < 2 && mod != "") &&
            (o.Accepted? ==>
               UsageOf(o.state, side).personalMod == UsageOf(s, side).personalMod + 1 &&
               o.state.mapMods == s.mapMods[target := Personal(side, mod)] &&
               (!UsageOf(s, Opponent(side)).forceNomod ==> o.state.counter == Some(Counter(Opponent(side), target, mod, side))) &&
               (UsageOf(s, Opponent(side)).forceNomod ==> o.state.counter == s.counter))
  {
  }

  /**
   * Countering needs a pending counter aimed at the player and an unused
   * Force NoMod, which it spends; the map becomes nomod and the counter is
   * gone. Skipping needs the same pending counter and only removes it.
   */
  lemma CounterRules(s: MatchState, side: Side, scoreTotal: int, target: string, mod: string)
    ensures var o := Step(s, side, scoreTotal, Request(CounterNomod, target, mod));
            (o.Accepted? <==> CounterFor(s, side) && !UsageOf(s, side).forceNomod) &&
            (o.Accepted? ==> UsageOf(o.state, side).forceNomod && o.state.mapMods == s.mapMods[target := NoMod] &&
                             o.state.counter.None?)
    ensures var o := Step(s, side, scoreTotal, Request(SkipCounter, target, mod));
            (o.Accepted? <==> CounterFor(s, side)) &&
            (o.Accepted? ==> o.state == s.(counter := None))
  {
  }

  // ---------------------------------------------------------------------
  // The stored match
  // ---------------------------------------------------------------------

  /**
   * The match_state dict of one match, which match_action creates on first
   * use and then changes in place; the seats and scores it reads are passed
   * in, since the handler never changes them.
   */
  class MatchRoom {
    var started: bool
    var phase: Phase
    var currentTurn: Side
    var firstPlayer: Side
    var banned: seq<string>
    var picked: seq<Pick>
    var usage1: Usage
    var usage2: Usage
    var mapMods: map<string, MapMod>
    var counter: Option<Counter>

    function State(): MatchState
      reads this
    {
      MatchState(phase, currentTurn, firstPlayer, banned, picked, usage1, usage2, mapMods, counter)
    }

    /** The stored match_state, None before the first accepted request. */
    function Stored(): Option<MatchState>
      reads this
    {
      if started then Some(State()) else None
    }

    constructor (stored: Option<MatchState>)
      ensures Stored() == stored
    {
      var s := if stored.Some? then stored.value else Initial(Player1);
      started := stored.Some?;
      phase, currentTurn, firstPlayer, banned, picked := s.phase, s.currentTurn, s.firstPlayer, s.banned, s.picked;
      usage1, usage2, mapMods, counter := s.usage1, s.usage2, s.mapMods, s.counter;
    }

    /**
     * match_action: a rejected request leaves the stored state as it was;
     * an accepted one stores the initial state if there was none, then
     * applies the action in place.
     */
    method Act(p1: Option<int>, p2: Option<int>, scoreP1: int, scoreP2: int, user: int, first: Side, r: Request)
      returns (o: Outcome)
      modifies this
      ensures o == Handle(MatchRecord(p1, p2, scoreP1, scoreP2, old(Stored())), user, first, r)
      ensures Stored() == if o.Accepted? then Some(o.state) else old(Stored())
    {
      var m := MatchRecord(p1, p2, scoreP1, scoreP2, Stored());
      var side := SideOf(m, user);
      if side.None? {
        return Rejected(403, Unauthorized);
      }
      o := Step(Current(m, first), side.value, scoreP1 + scoreP2, r);
      if o.Rejected? {
        return;
      }
      if !started {
        Start(first);
      }
      Apply(side.value, r);
    }

    /** Stores the freshly initialised match_state. */
    method Start(first: Side)
      modifies this
      ensures started && State() == Initial(first)
    {
      var s := Initial(first);
      started := true;
      phase, currentTurn, firstPlayer, banned, picked := s.phase, s.currentTurn, s.firstPlayer, s.banned, s.picked;
      usage1, usage2, mapMods, counter := s.usage1, s.usage2, s.mapMods, s.counter;
    }

    /** The in-place changes of an accepted action. */
    method Apply(side: Side, r: Request)
      modifies this
      ensures State() == Effect(old(State()), side, r) && started == old(started)
    {
      match r.action {
        case Ban =>
          banned := banned + [r.target];
          currentTurn := Opponent(side);
          if |banned| >= 6 {
            phase := PickPhase;
            currentTurn := Player1;
          }
        case PickMap =>
          picked := picked + [Pick(r.target, side, |picked| + 1)];
          currentTurn := Opponent(side);
        case Ability(kind) =>
          ApplyAbility(side, kind, r.target, r.mod);
        case CounterNomod =>
          SetUsage(side, UsageOf(State(), side).(forceNomod := true));
          mapMods := mapMods[r.target := NoMod];
          counter := None;
        case SkipCounter =>
          counter := None;
        case OtherAction =>
      }
    }

    method ApplyAbility(side: Side, kind: AbilityKind, target: string, mod: string)
      modifies this
      ensures State() == Effect(old(State()), side, Request(Ability(kind), target, mod)) && started == old(started)
    {
      var u := UsageOf(State(), side);
      match kind {
        case ForceNomod =>
          SetUsage(side, u.(forceNomod := true));
          mapMods := mapMods[target := NoMod];
        case ForceMod =>
          SetUsage(side, u.(forceMod := true));
          mapMods := mapMods[target := Forced(mod)];
        case PersonalMod =>
          var opponentUnused := !UsageOf(State(), Opponent(side)).forceNomod;
          SetUsage(side, u.(personalMod := u.personalMod + 1));
          mapMods := mapMods[target := Personal(side, mod)];
          if opponentUnused {
            counter := Some(Counter(Opponent(side), target, mod, side));
          }
        case OtherAbility =>
      }
    }

    method SetUsage(side: Side, u: Usage)
      modifies this
      ensures State() == WithUsage(old(State()), side, u) && started == old(started)
    {
      if side == Player1 {
        usage1 := u;
      } else {
        usage2 := u;
      }
    }
  }
}
