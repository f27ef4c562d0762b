/** Warsong Gulch (src/game/BattleGroundWS.cpp): two flags, each carried by the other team. */
module BattleGroundWS {
  import opened WorldStates
  import Ev = BattleGroundEvents

  type Guid = nat

  const ALLIANCE: nat := 0
  const HORDE: nat := 1

  const ON_BASE: nat := 0
  const WAIT_RESPAWN: nat := 1
  const ON_PLAYER: nat := 2
  const ON_GROUND: nat := 3

  const MAX_TEAM_SCORE: nat := 3
  const FLAG_RESPAWN_TIME: int := 23000
  const FLAG_DROP_TIME: int := 10000
  const TIME_LIMIT: nat := 25 * 60 * 1000

  const NOT_CARRYING: int := 1
  const CARRYING: int := 2
  const IN_HANDS: int := 1
  const DROPPED: int := -1
  const AT_HOME: int := 0

  /** A world state: the captures of a team, the minutes left, whether a team carries a flag,
      where the flag of a team is, the captures that win, or that there is a clock. */
  datatype Icon = Captures(team: nat) | Minutes | Carrier(team: nat) | Flag(team: nat) | Limit | Clock

  /** The battle; flags, keepers, timers and scores by team. The captured counts are those
      that really happened; ends lists the winners announced, 0 for a tie. */
  datatype Battle = Battle(
    flag: seq<nat>, keeper: seq<Guid>, timer: seq<int>, dropTimer: seq<int>, scores: seq<nat>, captured: seq<nat>,
    endTimer: nat, lastCapture: nat, active: map<nat, nat>, ends: seq<nat>, running: bool, client: map<nat, int>)

  function Other(t: nat): nat {
    if t == ALLIANCE then HORDE else ALLIANCE
  }

  /** How winners are named. */
  function Name(t: nat): nat {
    if t == ALLIANCE then 1 else 2
  }

  predicate Shaped(s: Battle) {
    && |s.flag| == 2 && |s.keeper| == 2 && |s.timer| == 2 && |s.dropTimer| == 2 && |s.scores| == 2 && |s.captured| == 2
    && ALLIANCE in s.active && HORDE in s.active
  }

  /** The flag of a team is seen at its base exactly while event 0 of its channel is active. */
  predicate Spawned(s: Battle, t: nat) {
    t in s.active && s.active[t] == 0
  }

  function SpawnFlag(s: Battle, t: nat, on: bool): (r: Battle)
    requires Shaped(s) && t < 2
    ensures Shaped(r)
  {
    s.(active := Ev.Switched(s.active, t, 0, on))
  }

  // ----- world states -----

  predicate Drawn(i: Icon) {
    match i
    case Captures(t) => t < 2
    case Carrier(t) => t < 2
    case Flag(t) => t < 2
    case _ => true
  }

  /** The number of each world state. */
  function Id(i: Icon): nat {
    match i
    case Captures(t) => if t == ALLIANCE then 1581 else 1582
    case Minutes => 4248
    case Carrier(t) => if t == ALLIANCE then 2339 else 2338
    case Flag(t) => if t == ALLIANCE then 1545 else 1546
    case Limit => 1601
    case Clock => 4247
  }

  lemma TableInjective()
    ensures Injective(Table(Drawn, Id))
  {
    forall i, j ensures Apart(Table(Drawn, Id), i, j) {
    }
  }

  const TABLE: Numbering<Icon> := (TableInjective(); Table(Drawn, Id))

  /** Only icons that are drawn are ever sent. */
  function Send(s: Battle, i: Icon, v: int): (r: Battle)
    requires Drawn(i)
    ensures Shaped(s) ==> Shaped(r)
  {
    s.(client := Store(TABLE, s.client, i, v))
  }

  function RespawnFlag(s: Battle, t: nat, captured: bool): (r: Battle)
    requires Shaped(s) && t < 2
    ensures Shaped(r)
  {
    var s1 := SpawnFlag(s.(flag := s.flag[t := ON_BASE]), t, true);
    if captured then SpawnFlag(SpawnFlag(s1, ALLIANCE, true), HORDE, true) else s1
  }

  /** A player takes the flag of a team. */
  function PickUp(s: Battle, t: nat, g: Guid): (r: Battle)
    requires Shaped(s) && t < 2
    ensures Shaped(r)
  {
    var s1 := SpawnFlag(s, t, false).(keeper := s.keeper[t := g], flag := s.flag[t := ON_PLAYER]);
    Send(Send(s1, Carrier(Other(t)), CARRYING), Flag(t), IN_HANDS)
  }

  function TakeFromBase(s: Battle, t: nat, g: Guid, team: nat, event1: nat): (r: Battle)
    requires Shaped(s) && t < 2
    ensures Shaped(r)
  {
    if team == Other(t) && s.flag[t] == ON_BASE && event1 == t then PickUp(s, t, g) else s
  }

  /** On the ground a flag is returned by its own team, and picked up again by the other. */
  function TakeFromGround(s: Battle, t: nat, g: Guid, team: nat, close: bool): (r: Battle)
    requires Shaped(s) && t < 2
    ensures Shaped(r)
  {
    if s.flag[t] != ON_GROUND || !close then s
    else if team == t then RespawnFlag(Send(s, Carrier(Other(t)), NOT_CARRYING), t, false)
    else PickUp(s, t, g)
  }

  /** One use of an object: four rules, one after the other. */
  function ClickedOnFlag(s: Battle, g: Guid, team: nat, event1: nat, close: bool): (r: Battle)
    requires Shaped(s) && team < 2
    ensures Shaped(r)
  {
    if !s.running then s
    else
      var s1 := TakeFromBase(s, ALLIANCE, g, team, event1);
      var s2 := TakeFromBase(s1, HORDE, g, team, event1);
      TakeFromGround(TakeFromGround(s2, ALLIANCE, g, team, close), HORDE, g, team, close)
  }

  function DroppedFlag(s: Battle, g: Guid, team: nat): (r: Battle)
    requires Shaped(s) && team < 2
    ensures Shaped(r)
  {
    var t := Other(team);
    if s.keeper[t] == 0 || s.keeper[t] != g then s
    else if !s.running then s.(keeper := s.keeper[t := 0])
    else
      var s1 := s.(keeper := s.keeper[t := 0], flag := s.flag[t := ON_GROUND]);
      Send(Send(s1, Carrier(team), NOT_CARRYING), Flag(t), DROPPED).(dropTimer := s.dropTimer[t := FLAG_DROP_TIME])
  }

  function EndBattle(s: Battle, winner: nat): (r: Battle)
    requires Shaped(s)
    ensures Shaped(r)
  {
    s.(ends := s.ends + [winner], running := false)
  }

  /** The score of a capture: the flag waits, both flags vanish, and clients are told. */
  function Score(s: Battle, team: nat): (r: Battle)
    requires Shaped(s) && team < 2
    ensures Shaped(r)
  {
    var t := Other(team);
    var score := if s.scores[team] < MAX_TEAM_SCORE then s.scores[team] + 1 else s.scores[team];
    var s1 := s.(keeper := s.keeper[t := 0], flag := s.flag[t := WAIT_RESPAWN],
                 scores := s.scores[team := score], captured := s.captured[team := s.captured[team] + 1]);
    var s2 := SpawnFlag(SpawnFlag(s1, ALLIANCE, false), HORDE, false);
    Send(Send(s2, Carrier(team), NOT_CARRYING), Captures(team), score)
  }

  /** The last capture wins: no icon shows a flag any more. */
  function Win(s: Battle, team: nat): (r: Battle)
    requires Shaped(s)
    ensures Shaped(r)
  {
    var s1 := Send(Send(s, Flag(ALLIANCE), AT_HOME), Flag(HORDE), AT_HOME);
    EndBattle(Send(Send(s1, Carrier(ALLIANCE), NOT_CARRYING), Carrier(HORDE), NOT_CARRYING), Name(team))
  }

  function CapturedFlag(s: Battle, team: nat): (r: Battle)
    requires Shaped(s) && team < 2
    ensures Shaped(r)
  {
    if !s.running then s
    else if s.keeper[Other(team)] == 0 then s.(lastCapture := Name(team))
    else
      var s1 := Score(s.(lastCapture := Name(team)), team);
      if s1.scores[HORDE] == MAX_TEAM_SCORE then Win(s1, HORDE)
      else if s1.scores[ALLIANCE] == MAX_TEAM_SCORE then Win(s1, ALLIANCE)
      else s1.(timer := s.timer[Other(team) := FLAG_RESPAWN_TIME])
  }

  /** A player stands at the flag room of team home: a carried flag is captured there. */
  function AreaTrigger(s: Battle, home: nat, g: Guid, team: nat): (r: Battle)
    requires Shaped(s) && home < 2 && team < 2
    ensures Shaped(r)
  {
    if s.running && s.flag[Other(home)] != ON_BASE && s.flag[home] == ON_BASE && s.keeper[Other(home)] == g then
      CapturedFlag(s, team)
    else s
  }

  function LeaveOne(s: Battle, t: nat, g: Guid, team: nat, online: bool): (r: Battle)
    requires Shaped(s) && t < 2 && team < 2
    ensures Shaped(r)
  {
    if s.keeper[t] == 0 || s.keeper[t] != g then s
    else if online then DroppedFlag(s, g, team)
    else RespawnFlag(s.(keeper := s.keeper[t := 0]), t, false)
  }

  function RemovePlayer(s: Battle, g: Guid, team: nat, online: bool): (r: Battle)
    requires Shaped(s) && team < 2
    ensures Shaped(r)
  {
    LeaveOne(LeaveOne(s, ALLIANCE, g, team, online), HORDE, g, team, online)
  }

  function UpdateWait(s: Battle, t: nat, diff: nat): (r: Battle)
    requires Shaped(s) && t < 2
    ensures Shaped(r)
  {
    var timer := s.timer[t] - diff;
    if s.flag[t] != WAIT_RESPAWN then s
    else if timer < 0 then RespawnFlag(s.(timer := s.timer[t := 0]), t, true)
    else s.(timer := s.timer[t := timer])
  }

  function UpdateGround(s: Battle, t: nat, diff: nat): (r: Battle)
    requires Shaped(s) && t < 2
    ensures Shaped(r)
  {
    var timer := s.dropTimer[t] - diff;
    if s.flag[t] != ON_GROUND then s
    else if timer < 0 then RespawnFlag(s.(dropTimer := s.dropTimer[t := 0]), t, false)
    else s.(dropTimer := s.dropTimer[t := timer])
  }

  /** Whole minutes, rounded up. */
  function MinutesLeft(endTimer: nat): nat {
    if endTimer == 0 then 0 else (endTimer - 1) / 60000 + 1
  }

  /** When the time is over the higher score wins, or the last capture. */
  function UpdateClock(s: Battle, diff: nat): (r: Battle)
    requires Shaped(s)
    ensures Shaped(r)
  {
    if s.endTimer <= diff then
      EndBattle(s, if s.scores[ALLIANCE] > s.scores[HORDE] then Name(ALLIANCE)
                   else if s.scores[ALLIANCE] < s.scores[HORDE] then Name(HORDE)
                   else s.lastCapture)
    else
      var s1 := s.(endTimer := s.endTimer - diff);
      if MinutesLeft(s1.endTimer) != MinutesLeft(s.endTimer) then Send(s1, Minutes, MinutesLeft(s1.endTimer)) else s1
  }

  function Update(s: Battle, diff: nat): (r: Battle)
    requires Shaped(s)
    ensures Shaped(r)
  {
    if !s.running then s
    else
      var s1 := UpdateGround(UpdateWait(s, ALLIANCE, diff), ALLIANCE, diff);
      UpdateClock(UpdateGround(UpdateWait(s1, HORDE, diff), HORDE, diff), diff)
  }

  /** The doors open and the flags appear. */
  function Start(client: map<nat, int>): Battle {
    Battle([ON_BASE, ON_BASE], [0, 0], [0, 0], [0, 0], [0, 0], [0, 0], TIME_LIMIT, 0,
           map[ALLIANCE := 0, HORDE := 0], [], true, client)
  }

  // ----- the invariant -----

  /** One flag of a running battle: carried exactly when it has a keeper, who is of the other
      team; seen at its base exactly while it is there and the other one does not wait; and
      while the other one waits it is at its base. */
  predicate FlagOk(s: Battle, side: Guid -> nat, t: nat)
    requires Shaped(s) && t < 2
  {
    && s.flag[t] <= ON_GROUND
    && (s.keeper[t] != 0 <==> s.flag[t] == ON_PLAYER)
    && (s.keeper[t] != 0 ==> side(s.keeper[t]) == Other(t))
    && (Spawned(s, t) <==> s.flag[t] == ON_BASE && s.flag[Other(t)] != WAIT_RESPAWN)
    && (s.flag[Other(t)] == WAIT_RESPAWN ==> s.flag[t] == ON_BASE)
  }

  predicate ScoresOk(s: Battle)
    requires Shaped(s)
  {
    && (s.running <==> s.ends == [])
    && s.scores == s.captured
    && (forall t :: 0 <= t < 2 ==> s.scores[t] <= MAX_TEAM_SCORE && (s.running ==> s.scores[t] < MAX_TEAM_SCORE))
  }

  /** What a late joiner is shown. */
  function Snapshot(s: Battle, i: Icon): int
    requires Shaped(s) && Drawn(i)
  {
    match i
    case Captures(t) => s.scores[t]
    case Minutes => MinutesLeft(s.endTimer)
    case Carrier(t) => if s.flag[t] == ON_PLAYER then CARRYING else NOT_CARRYING
    case Flag(t) => if s.flag[t] == ON_GROUND then DROPPED else if s.flag[t] == ON_PLAYER then IN_HANDS else AT_HOME
    case Limit => MAX_TEAM_SCORE
    case Clock => 1
  }

  /** A client that was filled just now. */
  ghost predicate Filled(s: Battle, fill: map<nat, int>)
    requires Shaped(s)
  {
    Clean(TABLE, fill) && forall i :: Drawn(i) ==> Show(TABLE, fill, i) == Snapshot(s, i)
  }

  /** Captures and minutes are the same for a late joiner and for everybody else, and so is what
      never changes; no number outside the table is held. */
  ghost predicate Told(s: Battle)
    requires Shaped(s)
  {
    && Clean(TABLE, s.client)
    && Show(TABLE, s.client, Captures(ALLIANCE)) == s.scores[ALLIANCE]
    && Show(TABLE, s.client, Captures(HORDE)) == s.scores[HORDE]
    && Show(TABLE, s.client, Minutes) == MinutesLeft(s.endTimer)
    && Show(TABLE, s.client, Limit) == MAX_TEAM_SCORE && Show(TABLE, s.client, Clock) == 1
  }

  /** A flag that is away is shown where it is, and as carried by the team that carries it. */
  predicate IconOk(s: Battle, t: nat)
    requires Shaped(s) && t < 2
  {
    && (s.flag[t] == ON_PLAYER ==>
          Show(TABLE, s.client, Carrier(Other(t))) == CARRYING && Show(TABLE, s.client, Flag(t)) == IN_HANDS)
    && (s.flag[t] == ON_GROUND ==> Show(TABLE, s.client, Flag(t)) == DROPPED)
  }

  ghost predicate Ok(s: Battle, side: Guid -> nat) {
    && Shaped(s) && ScoresOk(s) && Told(s)
    && (s.running ==> FlagOk(s, side, ALLIANCE) && FlagOk(s, side, HORDE) && IconOk(s, ALLIANCE) && IconOk(s, HORDE))
  }

  // ----- the steps -----

  lemma PickUpOk(s: Battle, side: Guid -> nat, t: nat, g: Guid)
    requires Ok(s, side) && s.running && t < 2 && g != 0 && side(g) == Other(t)
    requires s.keeper[t] == 0 && s.flag[Other(t)] != WAIT_RESPAWN && s.flag[t] != WAIT_RESPAWN
    ensures Ok(PickUp(s, t, g), side)
  {
  }

  lemma ReturnOk(s: Battle, side: Guid -> nat, t: nat)
    requires Ok(s, side) && s.running && t < 2 && s.flag[t] == ON_GROUND
    ensures Ok(RespawnFlag(Send(s, Carrier(Other(t)), NOT_CARRYING), t, false), side)
  {
  }

  lemma TakeFromBaseOk(s: Battle, side: Guid -> nat, t: nat, g: Guid, team: nat, event1: nat)
    requires Ok(s, side) && s.running && t < 2 && g != 0 && team == side(g)
    requires event1 == t ==> Spawned(s, event1)
    ensures Ok(TakeFromBase(s, t, g, team, event1), side)
  {
    if team == Other(t) && s.flag[t] == ON_BASE && event1 == t {
      assert FlagOk(s, side, t);
      PickUpOk(s, side, t, g);
    }
  }

  lemma TakeFromGroundOk(s: Battle, side: Guid -> nat, t: nat, g: Guid, team: nat, close: bool)
    requires Ok(s, side) && s.running && t < 2 && team < 2 && g != 0 && team == side(g)
    ensures Ok(TakeFromGround(s, t, g, team, close), side)
  {
    if s.flag[t] == ON_GROUND && close {
      assert FlagOk(s, side, t);
      if team == t {
        ReturnOk(s, side, t);
      } else {
        PickUpOk(s, side, t, g);
      }
    }
  }

  /** Any use of an object that is there keeps both flags in order. */
  lemma ClickedOnFlagOk(s: Battle, side: Guid -> nat, g: Guid, team: nat, event1: nat, close: bool)
    requires Ok(s, side) && team < 2 && g != 0 && team == side(g)
    requires event1 < 2 ==> Spawned(s, event1)
    ensures Ok(ClickedOnFlag(s, g, team, event1, close), side)
  {
    if s.running {
      TakeFromBaseOk(s, side, ALLIANCE, g, team, event1);
      var s1 := TakeFromBase(s, ALLIANCE, g, team, event1);
      TakeFromBaseOk(s1, side, HORDE, g, team, event1);
      var s2 := TakeFromBase(s1, HORDE, g, team, event1);
      TakeFromGroundOk(s2, side, ALLIANCE, g, team, close);
      TakeFromGroundOk(TakeFromGround(s2, ALLIANCE, g, team, close), side, HORDE, g, team, close);
    }
  }

  /** Without that, it takes one use of a flag that is not there: the flags lose their order
      exactly when the flag's base is out of play because the other flag waits. */
  lemma HiddenFlagIff(s: Battle, side: Guid -> nat, g: Guid, t: nat)
    requires Ok(s, side) && s.running && t < 2 && g != 0 && side(g) == Other(t) && s.flag[t] == ON_BASE
    ensures Ok(TakeFromBase(s, t, g, Other(t), t), side) <==> s.flag[Other(t)] != WAIT_RESPAWN
  {
    var s' := TakeFromBase(s, t, g, Other(t), t);
    assert s'.flag[t] == ON_PLAYER;
    assert Ok(s', side) ==> FlagOk(s', side, t);
  }

  lemma DroppedFlagOk(s: Battle, side: Guid -> nat, g: Guid, team: nat)
    requires Ok(s, side) && team < 2
    ensures Ok(DroppedFlag(s, g, team), side)
  {
  }

  /** The score of a capture keeps both flags in order and tells the new score. */
  lemma ScoreOk(s0: Battle, s: Battle, side: Guid -> nat, team: nat)
    requires Ok(s0, side) && s == s0.(lastCapture := s.lastCapture)
    requires s.running && team < 2 && s.keeper[Other(team)] != 0 && s.flag[team] == ON_BASE
    ensures
      var s' := Score(s, team);
      && FlagOk(s', side, ALLIANCE) && FlagOk(s', side, HORDE) && IconOk(s', ALLIANCE) && IconOk(s', HORDE)
      && Told(s') && s'.scores == s'.captured
      && s'.scores == s.scores[team := s.scores[team] + 1] && s'.flag == s.flag[Other(team) := WAIT_RESPAWN]
  {
  }

  lemma WinTold(s: Battle, team: nat)
    requires Shaped(s) && Told(s)
    ensures
      var s' := Win(s, team);
      Told(s') && s' == s.(client := s'.client, ends := s.ends + [Name(team)], running := false)
  {
  }

  /** A capture: only the captured flag waits, the capturing team's score grows by one, and the
      match ends with the third. */
  lemma CapturedFlagOk(s: Battle, side: Guid -> nat, team: nat)
    requires Ok(s, side) && s.running && team < 2 && s.keeper[Other(team)] != 0 && s.flag[team] == ON_BASE
    ensures
      var s' := CapturedFlag(s, team);
      && Ok(s', side) && s'.scores == s.scores[team := s.scores[team] + 1]
      && s'.flag == s.flag[Other(team) := WAIT_RESPAWN]
      && (s'.running <==> s.scores[team] + 1 < MAX_TEAM_SCORE)
      && s'.ends == if s'.running then [] else [Name(team)]
  {
    ScoreOk(s, s.(lastCapture := Name(team)), side, team);
    WinTold(Score(s.(lastCapture := Name(team)), team), team);
  }

  lemma AreaTriggerOk(s: Battle, side: Guid -> nat, home: nat, g: Guid, team: nat)
    requires Ok(s, side) && home < 2 && team < 2 && g != 0 && team == side(g)
    ensures Ok(AreaTrigger(s, home, g, team), side)
  {
    if s.running && s.flag[Other(home)] != ON_BASE && s.flag[home] == ON_BASE && s.keeper[Other(home)] == g {
      assert FlagOk(s, side, Other(home)) && team == home;
      CapturedFlagOk(s, side, team);
    }
  }

  lemma LeaveOneOk(s: Battle, side: Guid -> nat, t: nat, g: Guid, team: nat, online: bool)
    requires Ok(s, side) && t < 2 && team < 2
    ensures Ok(LeaveOne(s, t, g, team, online), side)
  {
    DroppedFlagOk(s, side, g, team);
  }

  lemma RemovePlayerOk(s: Battle, side: Guid -> nat, g: Guid, team: nat, online: bool)
    requires Ok(s, side) && team < 2
    ensures Ok(RemovePlayer(s, g, team, online), side)
  {
    LeaveOneOk(s, side, ALLIANCE, g, team, online);
    LeaveOneOk(LeaveOne(s, ALLIANCE, g, team, online), side, HORDE, g, team, online);
  }

  lemma UpdateWaitOk(s: Battle, side: Guid -> nat, t: nat, diff: nat)
    requires Ok(s, side) && s.running && t < 2
    ensures Ok(UpdateWait(s, t, diff), side) && UpdateWait(s, t, diff).running
  {
  }

  lemma UpdateGroundOk(s: Battle, side: Guid -> nat, t: nat, diff: nat)
    requires Ok(s, side) && s.running && t < 2
    ensures Ok(UpdateGround(s, t, diff), side) && UpdateGround(s, t, diff).running
  {
  }

  lemma UpdateClockOk(s: Battle, side: Guid -> nat, diff: nat)
    requires Ok(s, side) && s.running
    ensures Ok(UpdateClock(s, diff), side)
  {
  }

  lemma UpdateOk(s: Battle, side: Guid -> nat, diff: nat)
    requires Ok(s, side)
    ensures Ok(Update(s, diff), side)
  {
    if s.running {
      UpdateWaitOk(s, side, ALLIANCE, diff);
      UpdateGroundOk(UpdateWait(s, ALLIANCE, diff), side, ALLIANCE, diff);
      var s1 := UpdateGround(UpdateWait(s, ALLIANCE, diff), ALLIANCE, diff);
      UpdateWaitOk(s1, side, HORDE, diff);
      UpdateGroundOk(UpdateWait(s1, HORDE, diff), side, HORDE, diff);
      UpdateClockOk(UpdateGround(UpdateWait(s1, HORDE, diff), HORDE, diff), side, diff);
    }
  }

  // ----- whole runs -----

  datatype Event =
    | Ticked(diff: nat)
    | Clicked(guid: Guid, event1: nat, close: bool)
    | Killed(guid: Guid)
    | Arrived(guid: Guid, home: nat)
    | Left(guid: Guid, online: bool)

  /** Players have a guid and a team, and use only objects that are there. */
  predicate Possible(s: Battle, side: Guid -> nat, e: Event) {
    match e
    case Ticked(_) => true
    case Clicked(g, event1, _) => g != 0 && side(g) < 2 && (event1 < 2 ==> Spawned(s, event1))
    case Killed(g) => side(g) < 2
    case Arrived(g, home) => g != 0 && side(g) < 2 && home < 2
    case Left(g, _) => side(g) < 2
  }

  function Apply(s: Battle, side: Guid -> nat, e: Event): (r: Battle)
    requires Shaped(s)
    ensures Shaped(r)
  {
    if !Possible(s, side, e) then s
    else
      match e
      case Ticked(diff) => Update(s, diff)
      case Clicked(g, event1, close) => ClickedOnFlag(s, g, side(g), event1, close)
      case Killed(g) => if s.running then DroppedFlag(s, g, side(g)) else s
      case Arrived(g, home) => AreaTrigger(s, home, g, side(g))
      case Left(g, online) => RemovePlayer(s, g, side(g), online)
  }

  function Run(s: Battle, side: Guid -> nat, es: seq<Event>): (r: Battle)
    requires Shaped(s)
    ensures Shaped(r)
    decreases |es|
  {
    if es == [] then s else Run(Apply(s, side, es[0]), side, es[1..])
  }

  lemma ApplyOk(s: Battle, side: Guid -> nat, e: Event)
    requires Ok(s, side)
    ensures Ok(Apply(s, side, e), side)
  {
    if Possible(s, side, e) {
      match e {
        case Ticked(diff) => UpdateOk(s, side, diff);
        case Clicked(g, event1, close) => ClickedOnFlagOk(s, side, g, side(g), event1, close);
        case Killed(g) => DroppedFlagOk(s, side, g, side(g));
        case Arrived(g, home) => AreaTriggerOk(s, side, home, g, side(g));
        case Left(g, online) =>
          RemovePlayerOk(s, side, g, side(g), online);
      }
    }
  }

  /** In every state of every run, as long as the match is on: flags and keepers agree, the
      flags that are seen are those at their bases, and scores are the captures, below three. */
  lemma {:induction false} RunOk(s: Battle, side: Guid -> nat, es: seq<Event>)
    requires Ok(s, side)
    ensures Ok(Run(s, side, es), side)
    decreases |es|
  {
    if es == [] {
    } else {
      ApplyOk(s, side, es[0]);
      RunOk(Apply(s, side, es[0]), side, es[1..]);
    }
  }

  /** Icons whose incremental updates follow the fill. */
  predicate Steady(i: Icon) {
    !i.Carrier? && !i.Flag?
  }

  /** After every run a client that was told piece by piece shows what a client filled at that
      moment shows: for everything but the flags always, and for a flag that is away. */
  lemma RunScreen(s: Battle, side: Guid -> nat, es: seq<Event>, fill: map<nat, int>, i: Icon)
    requires Ok(s, side) && Filled(Run(s, side, es), fill) && Drawn(i)
    requires
      var s' := Run(s, side, es);
      Steady(i) || (i.Flag? && s'.running && s'.flag[i.team] in {ON_PLAYER, ON_GROUND})
    ensures Held(Run(s, side, es).client, Id(i)) == Held(fill, Id(i))
  {
    RunOk(s, side, es);
    assert Show(TABLE, fill, i) == Snapshot(Run(s, side, es), i);
  }

  /** No other number is ever told. */
  lemma RunClean(s: Battle, side: Guid -> nat, es: seq<Event>, fill: map<nat, int>, id: nat)
    requires Ok(s, side) && Filled(Run(s, side, es), fill) && !Known(TABLE, id)
    ensures Held(Run(s, side, es).client, id) == Held(fill, id) == 0
  {
    RunOk(s, side, es);
  }

  /** While exactly one flag is carried the fill shows the team whose flag it is as the carrier, and
      everybody else sees the team that has it: on that icon they always differ. */
  lemma CarrierDiffers(s: Battle, side: Guid -> nat, es: seq<Event>, fill: map<nat, int>, t: nat)
    requires Ok(s, side) && Filled(Run(s, side, es), fill) && t < 2 && Run(s, side, es).running
    requires Run(s, side, es).flag[t] == ON_PLAYER && Run(s, side, es).flag[Other(t)] != ON_PLAYER
    ensures Held(Run(s, side, es).client, Id(Carrier(Other(t)))) == CARRYING
    ensures Held(fill, Id(Carrier(Other(t)))) == NOT_CARRYING && Held(fill, Id(Carrier(t))) == CARRYING
  {
    RunOk(s, side, es);
    assert Show(TABLE, fill, Carrier(t)) == CARRYING && Show(TABLE, fill, Carrier(Other(t))) == NOT_CARRYING;
  }

  /** A flag that was dropped and returned stays marked as dropped for those who saw it. */
  lemma ReturnUntold(s: Battle, side: Guid -> nat, g: Guid, t: nat)
    requires Ok(s, side) && s.running && t < 2 && s.flag[t] == ON_GROUND
    ensures
      var s' := TakeFromGround(s, t, g, t, true);
      Show(TABLE, s'.client, Flag(t)) == DROPPED && Snapshot(s', Flag(t)) == AT_HOME
  {
    assert IconOk(s, t);
  }

  lemma StartOk(client: map<nat, int>, side: Guid -> nat)
    ensures Shaped(Start(client)) && (Told(Start(client)) ==> Ok(Start(client), side))
  {
  }
}
