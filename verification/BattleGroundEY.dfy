/** Eye of the Storm (src/game/BattleGroundEY.cpp): four bases that are captured by standing
    near them, and one flag. */
module BattleGroundEY {
  import opened WorldStates
  import Ev = BattleGroundEvents

  type Guid = nat

  /** Team ids, as players carry them; 0 stands for no owner. */
  const HORDE: nat := 67
  const ALLIANCE: nat := 469
  const NO_OWNER: nat := 0

  const NODES: nat := 4
  const OUT_OF_POINTS: nat := 4
  const NEUTRAL_EVENT: nat := 2
  const FLAG_EVENT: nat := 4
  const FLAG_CENTER: nat := 4

  const UNCONTROLLED: nat := 0
  const UNDER_CONTROL: nat := 3

  const FLAG_ON_BASE: nat := 0
  const FLAG_WAIT_RESPAWN: nat := 1
  const FLAG_ON_PLAYER: nat := 2
  const FLAG_ON_GROUND: nat := 3

  const MAX_CAPTURERS: int := 5
  const NEUTRAL_LOW: int := 30
  const NEUTRAL_HIGH: int := 70
  const BAR_MIDDLE: int := 50
  const BAR_FULL: int := 100
  const TICK_TIME: int := 2000
  const FLAG_RESPAWN_TIME: int := 10000
  const MAX_TEAM_SCORE: nat := 1600

  const TICK_POINTS: seq<nat> := [1, 2, 5, 10]
  const FLAG_POINTS: seq<nat> := [75, 85, 100, 500]

  /** A player the server finds: the team, and the bases it is near to and may capture. */
  datatype Person = Person(team: nat, at: set<nat>)

  /** Who is found at this moment. */
  type Crowd = map<Guid, Person>

  /** The battle. The near lists hold the players at each base and, last, elsewhere; the client
      holds world states by number. */
  datatype Battle = Battle(
    owner: seq<nat>, state: seq<nat>, bar: seq<int>, near: seq<seq<Guid>>, counts: seq<nat>,
    points: seq<nat>, scores: seq<nat>, honor: seq<nat>, honorTics: nat,
    flagState: nat, keeper: Guid, flagTimer: int, pointTimer: int, checkTimer: int,
    active: map<nat, nat>, ends: seq<nat>, running: bool, client: map<nat, int>)

  datatype Icon = Uncontrol(node: nat) | Control(node: nat, team: nat) | Bases(team: nat) | Resources(team: nat) | Netherstorm

  function Index(team: nat): nat {
    if team == ALLIANCE then 0 else 1
  }

  predicate Team(t: nat) {
    t == ALLIANCE || t == HORDE
  }

  predicate Shaped(s: Battle) {
    && |s.owner| == NODES && |s.state| == NODES && |s.bar| == NODES && |s.near| == NODES + 1
    && |s.counts| == 2 * NODES && |s.points| == 2 && |s.scores| == 2 && |s.honor| == 2
    && (forall e :: 0 <= e <= FLAG_EVENT ==> e in s.active)
  }

  ghost predicate ValidCrowd(crowd: Crowd) {
    forall g :: g in crowd ==> Team(crowd[g].team)
  }

  function SpawnEvent(s: Battle, event1: nat, event2: nat, on: bool): Battle
    requires event1 in s.active
  {
    s.(active := Ev.Switched(s.active, event1, event2, on))
  }

  // ----- world states -----

  predicate Drawn(i: Icon) {
    match i
    case Uncontrol(n) => n < NODES
    case Control(n, t) => n < NODES && Team(t)
    case Bases(t) => Team(t)
    case Resources(t) => Team(t)
    case Netherstorm => true
  }

  /** One entry for each base. */
  function Entry(node: nat, felReaver: nat, bloodElf: nat, draenei: nat, mage: nat): nat {
    if node == 0 then felReaver else if node == 1 then bloodElf else if node == 2 then draenei else mage
  }

  /** The number of each world state. */
  function Id(i: Icon): nat {
    match i
    case Uncontrol(n) => Entry(n, 2725, 2722, 2731, 2728)
    case Control(n, t) => if t == ALLIANCE then Entry(n, 2726, 2723, 2732, 2730) else Entry(n, 2727, 2724, 2733, 2729)
    case Bases(t) => if t == ALLIANCE then 2752 else 2753
    case Resources(t) => if t == ALLIANCE then 2749 else 2750
    case Netherstorm => 2757
  }

  /** No two icons share a world state. */
  lemma IdInjective(i: Icon, j: Icon)
    requires Drawn(i) && Drawn(j) && Id(i) == Id(j)
    ensures i == j
  {
  }

  lemma TableInjective()
    ensures Injective(Table(Drawn, Id))
  {
    forall i, j ensures Apart(Table(Drawn, Id), i, j) {
      if Drawn(i) && Drawn(j) && Id(i) == Id(j) {
        IdInjective(i, j);
      }
    }
  }

  const TABLE: Numbering<Icon> := (TableInjective(); Table(Drawn, Id))

  /** Only icons that are drawn are ever sent. */
  function Send(s: Battle, i: Icon, v: int): Battle
    requires Drawn(i)
  {
    s.(client := Store(TABLE, s.client, i, v))
  }

  // ----- who is near what -----

  predicate Joins(crowd: Crowd, g: Guid, i: nat) {
    g in crowd && i in crowd[g].at
  }

  /** The players of a list that are at a base, in order. */
  function At(list: seq<Guid>, crowd: Crowd, i: nat): seq<Guid> {
    if list == [] then []
    else (if Joins(crowd, list[0], i) then [list[0]] else []) + At(list[1..], crowd, i)
  }

  function NotAt(list: seq<Guid>, crowd: Crowd, i: nat): seq<Guid> {
    if list == [] then []
    else (if Joins(crowd, list[0], i) then [] else [list[0]]) + NotAt(list[1..], crowd, i)
  }

  function JoinPoint(near: seq<seq<Guid>>, crowd: Crowd, i: nat): seq<seq<Guid>>
    requires |near| == NODES + 1 && i < NODES
  {
    near[i := near[i] + At(near[OUT_OF_POINTS], crowd, i)][OUT_OF_POINTS := NotAt(near[OUT_OF_POINTS], crowd, i)]
  }

  /** The first pass: players join the bases they are at, one base after the other. */
  function Joined(near: seq<seq<Guid>>, crowd: Crowd, i: nat): (r: seq<seq<Guid>>)
    requires |near| == NODES + 1 && i <= NODES
    ensures |r| == NODES + 1
    decreases NODES - i
  {
    if i == NODES then near else Joined(JoinPoint(near, crowd, i), crowd, i + 1)
  }

  /** The second pass over one base, under way: its list, the list of players elsewhere, and how
      many of each team were counted. */
  datatype Pass = Pass(list: seq<Guid>, out: seq<Guid>, alliance: nat, horde: nat)

  function Erase(list: seq<Guid>, j: nat): seq<Guid>
    requires j < |list|
  {
    list[..j] + list[j + 1..]
  }

  function MoveOut(p: Pass, j: nat): Pass
    requires j < |p.list|
  {
    p.(list := Erase(p.list, j), out := p.out + [p.list[j]])
  }

  function Count(p: Pass, team: nat): Pass {
    if team == ALLIANCE then p.(alliance := p.alliance + 1) else p.(horde := p.horde + 1)
  }

  /** From position j on. A player who is not found leaves, and the next one is passed over. */
  function LeaveFrom(p: Pass, crowd: Crowd, i: nat, j: nat): Pass
    decreases |p.list| - j
  {
    if j >= |p.list| then p
    else if p.list[j] !in crowd then LeaveFrom(MoveOut(p, j), crowd, i, j + 1)
    else if i !in crowd[p.list[j]].at then LeaveFrom(MoveOut(p, j), crowd, i, j)
    else LeaveFrom(Count(p, crowd[p.list[j]].team), crowd, i, j + 1)
  }

  function LeavePoint(s: Battle, crowd: Crowd, i: nat): (r: Battle)
    requires Shaped(s) && i < NODES
    ensures Shaped(r)
  {
    var p := LeaveFrom(Pass(s.near[i], s.near[OUT_OF_POINTS], 0, 0), crowd, i, 0);
    s.(near := s.near[i := p.list][OUT_OF_POINTS := p.out],
       counts := s.counts[2 * i := p.alliance][2 * i + 1 := p.horde])
  }

  function LeavePoints(s: Battle, crowd: Crowd, i: nat): (r: Battle)
    requires Shaped(s) && i <= NODES
    ensures Shaped(r)
    decreases NODES - i
  {
    if i == NODES then s else LeavePoints(LeavePoint(s, crowd, i), crowd, i + 1)
  }

  // ----- ownership -----

  /** Which team a bar gives its base to. */
  function Classify(bar: int): nat {
    if bar <= NEUTRAL_LOW then HORDE else if bar >= NEUTRAL_HIGH then ALLIANCE else NO_OWNER
  }

  function Clamp(bar: int): int {
    if bar > BAR_FULL then BAR_FULL else if bar < 0 then 0 else bar
  }

  function Push(alliance: nat, horde: nat): int {
    if alliance - horde < MAX_CAPTURERS then alliance - horde else MAX_CAPTURERS
  }

  function UpdatePointsIcons(s: Battle, team: nat, i: nat): Battle
    requires i < |s.state| == NODES && Team(team)
  {
    if s.state[i] == UNDER_CONTROL then Send(Send(s, Uncontrol(i), 0), Control(i, team), 1)
    else Send(Send(s, Control(i, team), 0), Uncontrol(i), 1)
  }

  function UpdatePointsCount(s: Battle, team: nat): Battle
    requires |s.points| == 2 && Team(team)
  {
    Send(s, Bases(team), s.points[Index(team)])
  }

  /** How many bases a team owns. */
  function Owned(owner: seq<nat>, team: nat): nat
    requires |owner| == NODES
  {
    (if owner[0] == team then 1 else 0) + (if owner[1] == team then 1 else 0)
    + (if owner[2] == team then 1 else 0) + (if owner[3] == team then 1 else 0)
  }

  lemma OwnedUpdate(owner: seq<nat>, i: nat, team: nat, t: nat)
    requires |owner| == NODES && i < NODES
    ensures Owned(owner[i := team], t) + (if owner[i] == t then 1 else 0) == Owned(owner, t) + if team == t then 1 else 0
  {
  }

  /** The records of ownership agree: owners, states and the number of bases of each team. */
  predicate Consistent(s: Battle) {
    && Shaped(s)
    && s.points[0] == Owned(s.owner, ALLIANCE) && s.points[1] == Owned(s.owner, HORDE)
    && forall i :: 0 <= i < NODES ==>
         && (s.owner[i] == NO_OWNER || Team(s.owner[i]))
         && s.state[i] == if s.owner[i] == NO_OWNER then UNCONTROLLED else UNDER_CONTROL
  }

  /** Icons and counts for a base that a team just won or lost. */
  function Tell(s: Battle, i: nat, team: nat): (r: Battle)
    requires Shaped(s) && i < NODES && Team(team)
    ensures r == s.(client := r.client)
  {
    UpdatePointsCount(UpdatePointsIcons(s, team, i), team)
  }

  function Disown(s: Battle, i: nat): Battle
    requires Shaped(s) && i < NODES && s.points[Index(s.owner[i])] > 0
  {
    var t := Index(s.owner[i]);
    SpawnEvent(s.(points := s.points[t := s.points[t] - 1], owner := s.owner[i := NO_OWNER], state := s.state[i := UNCONTROLLED]),
               i, NEUTRAL_EVENT, true)
  }

  lemma DisownConsistent(s: Battle, i: nat)
    requires Consistent(s) && i < NODES && s.owner[i] != NO_OWNER
    ensures s.points[Index(s.owner[i])] > 0 && Consistent(Disown(s, i))
  {
    OwnedUpdate(s.owner, i, NO_OWNER, ALLIANCE);
    OwnedUpdate(s.owner, i, NO_OWNER, HORDE);
  }

  function Own(s: Battle, i: nat, team: nat): Battle
    requires Shaped(s) && i < NODES
  {
    var t := Index(team);
    SpawnEvent(s.(points := s.points[t := s.points[t] + 1], owner := s.owner[i := team], state := s.state[i := UNDER_CONTROL]),
               i, t, true)
  }

  lemma OwnConsistent(s: Battle, i: nat, team: nat)
    requires Consistent(s) && i < NODES && s.owner[i] == NO_OWNER && Team(team)
    ensures Consistent(Own(s, i, team))
  {
    OwnedUpdate(s.owner, i, team, ALLIANCE);
    OwnedUpdate(s.owner, i, team, HORDE);
  }

  /** A base is lost by its owner to nobody. */
  function LostPoint(s: Battle, i: nat): (r: Battle)
    requires Consistent(s) && i < NODES && s.owner[i] != NO_OWNER
    ensures Consistent(r)
  {
    DisownConsistent(s, i);
    if s.running then Tell(Disown(s, i), i, s.owner[i]) else s
  }

  /** A base is captured by a team, and only from nobody. */
  function CapturedPoint(s: Battle, i: nat, team: nat): (r: Battle)
    requires Consistent(s) && i < NODES && s.owner[i] == NO_OWNER && Team(team)
    ensures Consistent(r)
  {
    OwnConsistent(s, i, team);
    if s.running then Tell(Own(s, i, team), i, team) else s
  }

  /** What the presence of one found player does when a base should belong to a team. */
  function Greet(s: Battle, i: nat, wanted: nat, team: nat): (r: Battle)
    requires Consistent(s) && i < NODES && Team(team)
    ensures Consistent(r) && r.near == s.near
  {
    if wanted == s.owner[i] then s
    else
      var s1 := if s.state[i] == UNCONTROLLED && team == wanted then CapturedPoint(s, i, team) else s;
      if s1.state[i] == UNDER_CONTROL && team != s1.owner[i] then LostPoint(s1, i) else s1
  }

  function Noticed(s: Battle, crowd: Crowd, i: nat, wanted: nat, g: Guid): (r: Battle)
    requires Consistent(s) && i < NODES && ValidCrowd(crowd)
    ensures Consistent(r) && r.near == s.near
  {
    if g in crowd then Greet(s, i, wanted, crowd[g].team) else s
  }

  function GreetFrom(s: Battle, crowd: Crowd, i: nat, wanted: nat, k: nat): (r: Battle)
    requires Consistent(s) && i < NODES && k <= |s.near[i]| && ValidCrowd(crowd)
    ensures Consistent(r)
    decreases |s.near[i]| - k
  {
    if k == |s.near[i]| then s
    else GreetFrom(Noticed(s, crowd, i, wanted, s.near[i][k]), crowd, i, wanted, k + 1)
  }

  /** Moves the bar of one base and lets the players there notice. */
  function UpdatePoint(s: Battle, crowd: Crowd, i: nat): (r: Battle)
    requires Consistent(s) && i < NODES && ValidCrowd(crowd)
    ensures Consistent(r)
  {
    if s.near[i] == [] then s
    else
      var bar := Clamp(s.bar[i] + Push(s.counts[2 * i], s.counts[2 * i + 1]));
      GreetFrom(s.(bar := s.bar[i := bar]), crowd, i, Classify(bar), 0)
  }

  function UpdatePoints(s: Battle, crowd: Crowd, i: nat): (r: Battle)
    requires Consistent(s) && i <= NODES && ValidCrowd(crowd)
    ensures Consistent(r)
    decreases NODES - i
  {
    if i == NODES then s else UpdatePoints(UpdatePoint(s, crowd, i), crowd, i + 1)
  }

  /** The periodic check: who came, who left, and what the bars make of it. */
  function CheckTowers(s: Battle, crowd: Crowd): (r: Battle)
    requires Consistent(s) && ValidCrowd(crowd)
    ensures Consistent(r)
  {
    UpdatePoints(LeavePoints(s.(near := Joined(s.near, crowd, 0)), crowd, 0), crowd, 0)
  }

  // ----- points and the flag -----

  function EndBattle(s: Battle, winner: nat): Battle {
    s.(ends := s.ends + [winner], running := false)
  }

  function Credit(s: Battle, team: nat, points: nat): (r: Battle)
    requires Consistent(s)
    ensures Consistent(r)
  {
    var t := Index(team);
    var honor := s.honor[t] + points;
    s.(scores := s.scores[t := s.scores[t] + points],
       honor := s.honor[t := if honor >= s.honorTics then honor - s.honorTics else honor])
  }

  function UpdateTeamScore(s: Battle, team: nat): (r: Battle)
    requires Consistent(s) && Team(team)
    ensures Consistent(r)
  {
    var score := s.scores[Index(team)];
    if score >= MAX_TEAM_SCORE then Send(EndBattle(s, team), Resources(team), MAX_TEAM_SCORE)
    else Send(s, Resources(team), score)
  }

  function AddPoints(s: Battle, team: nat, points: nat): (r: Battle)
    requires Consistent(s) && Team(team)
    ensures Consistent(r)
  {
    UpdateTeamScore(Credit(s, team, points), team)
  }

  /** What holding bases pays. The table has one entry for each number of bases. */
  function AddTick(s: Battle, team: nat): (r: Battle)
    requires Consistent(s) && Team(team)
    ensures Consistent(r)
  {
    var points := s.points[Index(team)];
    if points > 0 then AddPoints(s, team, TICK_POINTS[points - 1]) else s
  }

  function RespawnFlag(s: Battle): Battle
    requires Shaped(s)
  {
    Send(SpawnEvent(s.(flagState := FLAG_ON_BASE), FLAG_EVENT, FLAG_CENTER, true), Netherstorm, 1)
  }

  function ClickedOnFlag(s: Battle, g: Guid): Battle
    requires Shaped(s)
  {
    if !s.running || s.keeper != 0 then s
    else
      var s1 := if s.flagState == FLAG_ON_BASE then Send(s, Netherstorm, 0) else s;
      SpawnEvent(s1.(flagState := FLAG_ON_PLAYER, keeper := g), FLAG_EVENT, FLAG_CENTER, false)
  }

  function DroppedFlag(s: Battle, g: Guid): Battle {
    if s.keeper == 0 || s.keeper != g then s
    else if !s.running then s.(keeper := 0)
    else s.(keeper := 0, flagState := FLAG_ON_GROUND, flagTimer := FLAG_RESPAWN_TIME)
  }

  /** The carrier stands at a base: with the base in its team's hands, the flag is captured. */
  function AreaTrigger(s: Battle, g: Guid, team: nat, i: nat): (r: Battle)
    requires Consistent(s) && Team(team) && i < NODES
    ensures Consistent(r)
  {
    if !s.running || s.state[i] != UNDER_CONTROL || s.owner[i] != team || s.flagState == FLAG_ON_BASE || s.keeper != g then s
    else CapturedFlag(s, team, i)
  }

  function CapturedFlag(s: Battle, team: nat, i: nat): (r: Battle)
    requires Consistent(s) && Team(team) && i < NODES
    ensures Consistent(r)
  {
    var s1 := SpawnEvent(s.(keeper := 0, flagState := FLAG_WAIT_RESPAWN, flagTimer := FLAG_RESPAWN_TIME), FLAG_EVENT, i, true);
    var points := s.points[Index(team)];
    if points > 0 then AddPoints(s1, team, FLAG_POINTS[points - 1]) else s1
  }

  function UpdateFlag(s: Battle, diff: nat): (r: Battle)
    requires Consistent(s)
    ensures Consistent(r)
  {
    if s.flagState != FLAG_WAIT_RESPAWN && s.flagState != FLAG_ON_GROUND then s
    else
      var timer := s.flagTimer - diff;
      if timer < 0 then RespawnFlag(s.(flagTimer := 0)) else s.(flagTimer := timer)
  }

  function UpdateTicks(s: Battle, diff: nat): (r: Battle)
    requires Consistent(s)
    ensures Consistent(r)
  {
    var timer := s.pointTimer - diff;
    if timer <= 0 then AddTick(AddTick(s.(pointTimer := TICK_TIME), ALLIANCE), HORDE) else s.(pointTimer := timer)
  }

  function CountDown(s: Battle, diff: nat): (r: Battle)
    requires Consistent(s)
    ensures Consistent(r)
  {
    s.(checkTimer := s.checkTimer - diff)
  }

  function CheckIfDue(s: Battle, crowd: Crowd): (r: Battle)
    requires Consistent(s) && ValidCrowd(crowd)
    ensures Consistent(r)
  {
    if s.checkTimer <= 0 then CheckTowers(s, crowd).(checkTimer := TICK_TIME) else s
  }

  function Update(s: Battle, diff: nat, crowd: Crowd): (r: Battle)
    requires Consistent(s) && ValidCrowd(crowd)
    ensures Consistent(r)
  {
    if !s.running then s else CheckIfDue(CountDown(UpdateFlag(UpdateTicks(s, diff), diff), diff), crowd)
  }

  // ----- players come and go -----

  function AddPlayer(s: Battle, g: Guid): (r: Battle)
    requires Consistent(s)
    ensures Consistent(r)
  {
    s.(near := s.near[OUT_OF_POINTS := s.near[OUT_OF_POINTS] + [g]])
  }

  /** Erasing while walking passes over the element after each erased one. */
  function EraseFrom(list: seq<Guid>, g: Guid, i: nat): seq<Guid>
    decreases |list| - i
  {
    if i >= |list| then list
    else EraseFrom(if list[i] == g then Erase(list, i) else list, g, i + 1)
  }

  function EraseAll(near: seq<seq<Guid>>, g: Guid): seq<seq<Guid>>
    requires |near| == NODES + 1
  {
    [EraseFrom(near[0], g, 0), EraseFrom(near[1], g, 0), EraseFrom(near[2], g, 0),
     EraseFrom(near[3], g, 0), EraseFrom(near[4], g, 0)]
  }

  /** A player leaves; one that is not online any more cannot drop the flag in its place. */
  function RemovePlayer(s: Battle, g: Guid, online: bool): (r: Battle)
    requires Consistent(s)
    ensures Consistent(r)
  {
    var s1 := s.(near := EraseAll(s.near, g));
    if s.keeper == 0 || s.keeper != g then s1
    else if online then DroppedFlag(s1, g)
    else RespawnFlag(s1.(keeper := 0))
  }
}
