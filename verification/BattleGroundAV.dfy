/** The objectives of Alterac Valley (src/game/BattleGroundAV.cpp): fifteen nodes that are
    assaulted, defended and destroyed, two mines, and the armor scraps that upgrade the
    defenders of graveyards. What is spawned is left to the event layer; what clients see
    are world states, sent in full to a late joiner and piecewise afterwards. */
module BattleGroundAV {
  import opened WorldStates
  import Ev = BattleGroundEvents

  const ALLIANCE: nat := 0
  const HORDE: nat := 1
  const NEUTRAL: nat := 2

  const ASSAULTED: nat := 0
  const CONTROLLED: nat := 1

  const NODES: nat := 15
  const SNOWFALL: nat := 3
  const FIRST_TOWER: nat := 7

  const CAPTIME: nat := 240000
  const SNOWFALL_FIRSTCAP: nat := 300000
  const MINE_TICK_TIMER: nat := 45000
  const MINE_RECLAIM_TIMER: nat := 1200000
  const INITIAL_POINTS: int := 600
  const RES_TOWER: int := 75
  const RES_CAPTAIN: int := 100

  const MINE_BOSSES: nat := 46
  const MINE_EVENT: nat := 50
  const MARSHALS: nat := 52
  const BOSS_A: nat := 61
  const BOSS_H: nat := 62
  const CAPTAIN_A: nat := 48
  const CAPTAIN_H: nat := 49
  const CAPTAIN_DEAD: nat := 63

  datatype Node = Node(
    totalOwner: nat, owner: nat, prevOwner: nat, state: nat, prevState: nat, timer: nat, tower: bool)

  datatype Mine = Mine(owner: nat, prevOwner: nat, timer: int, reclaim: nat)

  /** The battle: its objectives, the scraps and reinforcements of both teams, the active events,
      the winners announced so far, and the world states one client holds, by number. */
  datatype Battle = Battle(
    nodes: seq<Node>, mines: seq<Mine>, scraps: seq<nat>, scores: seq<int>,
    active: map<nat, nat>, ends: seq<nat>, running: bool, client: map<nat, int>)

  // ----- world states -----

  /** One world state: a node held by a team in a state, neutral snowfall, a mine held by an
      owner, or the reinforcements of a team. */
  datatype Icon = NodeIcon(node: nat, kind: nat) | SnowfallNeutral | MineIcon(mine: nat, owner: nat) | Score(team: nat)

  predicate Drawn(i: Icon) {
    match i
    case NodeIcon(n, k) => n < NODES && k < 4
    case SnowfallNeutral => true
    case MineIcon(m, o) => m < 2 && o < 3
    case Score(t) => t < 2
  }

  /** One entry of a row of four. */
  function Entry(kind: nat, aAssaulted: nat, aControlled: nat, hAssaulted: nat, hControlled: nat): nat {
    if kind == 0 then aAssaulted else if kind == 1 then aControlled else if kind == 2 then hAssaulted else hControlled
  }

  function NodeState(node: nat, kind: nat): nat {
    match node
    case 0 => Entry(kind, 1326, 1325, 1328, 1327)
    case 1 => Entry(kind, 1335, 1333, 1336, 1334)
    case 2 => Entry(kind, 1304, 1302, 1303, 1301)
    case 3 => Entry(kind, 1343, 1341, 1344, 1342)
    case 4 => Entry(kind, 1348, 1346, 1349, 1347)
    case 5 => Entry(kind, 1339, 1337, 1340, 1338)
    case 6 => Entry(kind, 1331, 1329, 1332, 1330)
    case 7 => Entry(kind, 1375, 1361, 1378, 1370)
    case 8 => Entry(kind, 1374, 1362, 1379, 1371)
    case 9 => Entry(kind, 1376, 1363, 1380, 1372)
    case 10 => Entry(kind, 1377, 1364, 1381, 1373)
    case 11 => Entry(kind, 1390, 1368, 1395, 1385)
    case 12 => Entry(kind, 1389, 1367, 1394, 1384)
    case 13 => Entry(kind, 1388, 1366, 1393, 1383)
    case _ => Entry(kind, 1387, 1365, 1392, 1382)
  }

  function Id(i: Icon): nat {
    match i
    case NodeIcon(n, k) => NodeState(n, k)
    case SnowfallNeutral => 1966
    case MineIcon(m, o) => if m == 0 then 1358 + o else 1355 + o
    case Score(t) => 3127 + t
  }

  function InRow(n: nat, id: nat): Icon {
    NodeIcon(n, if id == NodeState(n, 0) then 0 else if id == NodeState(n, 1) then 1 else if id == NodeState(n, 2) then 2 else 3)
  }

  function InColumn(k: nat, id: nat, n: nat): Icon
    requires k < 4 && n <= 14
    decreases 14 - n
  {
    if n == 14 || id == NodeState(n, k) then NodeIcon(n, k) else InColumn(k, id, n + 1)
  }

  /** The tables read backwards: the ids of a graveyard lie together, and so do those of four
      towers in one condition. */
  function Decode(id: nat): Icon {
    if id <= 1304 then InRow(2, id)
    else if id <= 1328 then InRow(0, id)
    else if id <= 1332 then InRow(6, id)
    else if id <= 1336 then InRow(1, id)
    else if id <= 1340 then InRow(5, id)
    else if id <= 1344 then InRow(3, id)
    else if id <= 1349 then InRow(4, id)
    else if id <= 1357 then MineIcon(1, (id - 1355) % 3)
    else if id <= 1360 then MineIcon(0, (id - 1358) % 3)
    else if id <= 1368 then InColumn(1, id, 7)
    else if id <= 1373 then InColumn(3, id, 7)
    else if id <= 1377 then InColumn(0, id, 7)
    else if id <= 1381 then InColumn(2, id, 7)
    else if id <= 1385 then InColumn(3, id, 11)
    else if id <= 1390 then InColumn(0, id, 11)
    else if id <= 1395 then InColumn(2, id, 11)
    else if id == 1966 then SnowfallNeutral
    else Score((id - 3127) % 2)
  }

  /** No two icons share a world state. */
  lemma IdInjective(i: Icon)
    requires Drawn(i)
    ensures Decode(Id(i)) == i
  {
    if i.NodeIcon? && FIRST_TOWER <= i.node {
      TowerIdInjective(i.node, i.kind);
    }
  }

  lemma TowerIdInjective(n: nat, k: nat)
    requires FIRST_TOWER <= n < NODES && k < 4
    ensures Decode(NodeState(n, k)) == NodeIcon(n, k)
  {
    var id := NodeState(n, k);
    var from := if id <= 1381 then 7 else 11;
    assert InColumn(k, id, from) == NodeIcon(n, k) by {
      assert InColumn(k, id, 14) == NodeIcon(14, k);
    }
  }

  lemma TableInjective()
    ensures Injective(Table(Drawn, Id))
  {
    forall i, j ensures Apart(Table(Drawn, Id), i, j) {
      if Drawn(i) && Drawn(j) && Id(i) == Id(j) {
        IdInjective(i);
        IdInjective(j);
      }
    }
  }

  const TABLE: Numbering<Icon> := (TableInjective(); Table(Drawn, Id))

  // ----- nodes -----

  function NodeKind(state: nat, team: nat): nat {
    team * 2 + state
  }

  /** What holds of every node in every battle. */
  predicate NodeOk(n: Node, i: nat) {
    && n.totalOwner < 3 && n.owner < 3 && n.prevOwner < 3 && n.state < 2 && n.prevState < 2
    && (n.tower <==> i >= FIRST_TOWER) && (n.totalOwner == NEUTRAL ==> i == SNOWFALL)
    && (n.state == CONTROLLED ==> n.owner == n.totalOwner && n.timer == 0)
    && (n.state == ASSAULTED ==>
          && n.owner < 2 && n.owner != n.totalOwner && n.timer > 0
          && (n.totalOwner != NEUTRAL ==> n.prevOwner == n.totalOwner))
  }

  function InitNode(team: nat, tower: bool): Node {
    Node(team, team, team, CONTROLLED, CONTROLLED, 0, tower)
  }

  /** Requires what the source asserts. */
  function AssaultNode(n: Node, team: nat): Node
    requires team < 3 && n.totalOwner != team && n.owner != team
    requires n.state != ASSAULTED || n.totalOwner == NEUTRAL
  {
    n.(timer := if n.prevOwner != NEUTRAL then CAPTIME else SNOWFALL_FIRSTCAP,
       prevOwner := n.owner, owner := team, prevState := n.state, state := ASSAULTED)
  }

  function DestroyNode(n: Node): Node
    requires n.state == ASSAULTED
  {
    n.(totalOwner := n.owner, prevOwner := n.owner, prevState := n.state, state := CONTROLLED, timer := 0)
  }

  function DefendNode(n: Node, team: nat): Node
    requires team < 3 && n.totalOwner == team && n.owner != team && n.state != CONTROLLED
  {
    n.(prevOwner := n.owner, owner := team, prevState := n.state, state := CONTROLLED, timer := 0)
  }

  // ----- steps -----

  /** The channels that Reset announces to the event layer. */
  predicate Channel(e: nat) {
    e < NODES + FIRST_TOWER || MINE_BOSSES <= e < CAPTAIN_DEAD + 2
  }

  ghost predicate Announced(active: map<nat, nat>) {
    forall e :: Channel(e) ==> e in active
  }

  ghost predicate NodesOk(s: Battle) {
    && Announced(s.active)
    && |s.nodes| == NODES && |s.mines| == 2 && |s.scraps| == 2 && |s.scores| == 2
    && (forall i :: 0 <= i < NODES ==> NodeOk(s.nodes[i], i))
    && (forall m :: 0 <= m < 2 ==> s.mines[m].owner < 3 && s.mines[m].prevOwner < 3)
  }

  function SpawnEvent(s: Battle, event1: nat, event2: nat, on: bool): Battle
    requires event1 in s.active
  {
    s.(active := Ev.Switched(s.active, event1, event2, on))
  }

  /** Only icons that are drawn are ever sent. */
  function Send(s: Battle, i: Icon, v: int): Battle
    requires Drawn(i)
  {
    s.(client := Store(TABLE, s.client, i, v))
  }

  function Tier(scraps: nat): nat {
    if scraps < 500 then 0 else if scraps < 1000 then 1 else if scraps < 1500 then 2 else 3
  }

  /** Graveyards have defenders: those of the owner come, and at an assault they leave. */
  function Garrison(active: map<nat, nat>, i: nat, n: Node, scraps: seq<nat>): map<nat, nat>
    requires |scraps| == 2 && n.owner < 3 && (n.tower || NODES + i in active)
  {
    if n.tower || n.owner == NEUTRAL then active
    else if n.state == CONTROLLED then Ev.Switched(active, NODES + i, n.owner * 4 + Tier(scraps[n.owner]), true)
    else Ev.Switched(active, NODES + i, n.prevOwner * 4 + Tier(scraps[n.owner]), false)
  }

  /** What is active once a node has been populated. */
  function Populated(active: map<nat, nat>, i: nat, n: Node, scraps: seq<nat>): map<nat, nat>
    requires |scraps| == 2 && n.owner < 3 && (n.tower || NODES + i in active) && i in active
  {
    Ev.Switched(Garrison(active, i, n, scraps), i, NodeKind(n.state, n.owner), true)
  }

  function PopulateNode(s: Battle, i: nat): (r: Battle)
    requires NodesOk(s) && i < NODES
    ensures NodesOk(r)
  {
    assert Channel(i) && (i < FIRST_TOWER ==> Channel(NODES + i));
    s.(active := Populated(s.active, i, s.nodes[i], s.scraps))
  }

  /** A node that a team has just taken: its number for every owner and state is in the table. */
  function UpdateNodeWorldState(s: Battle, i: nat): Battle
    requires i < |s.nodes| == NODES && NodeOk(s.nodes[i], i) && s.nodes[i].owner < 2
  {
    var n := s.nodes[i];
    var s1 := Send(s, NodeIcon(i, NodeKind(n.state, n.owner)), 1);
    if n.prevOwner == NEUTRAL then Send(s1, SnowfallNeutral, 0)
    else Send(s1, NodeIcon(i, NodeKind(n.prevState, n.prevOwner)), 0)
  }

  function SetNode(s: Battle, i: nat, n: Node): Battle
    requires i < |s.nodes|
  {
    s.(nodes := s.nodes[i := n])
  }

  /** A node changes hands or state: its spawns and its icons follow. */
  function NodeStep(s: Battle, i: nat, n: Node): (r: Battle)
    requires NodesOk(s) && i < NODES && NodeOk(n, i) && n.owner < 2
    ensures NodesOk(r)
  {
    UpdateNodeWorldState(PopulateNode(SetNode(s, i, n), i), i)
  }

  function AssaultsPoint(s: Battle, i: nat, team: nat): (r: Battle)
    requires NodesOk(s) && i < NODES && team < 2
    ensures NodesOk(r)
  {
    var n := s.nodes[i];
    if n.owner == team || team == n.totalOwner then s
    else NodeStep(s, i, AssaultNode(n, team))
  }

  /** Points of neither team yet are left to the assault. */
  function DefendsPoint(s: Battle, i: nat, team: nat): (r: Battle)
    requires NodesOk(s) && i < NODES && team < 2
    ensures NodesOk(r)
  {
    var n := s.nodes[i];
    if n.owner == team || n.state != ASSAULTED then s
    else if n.totalOwner == NEUTRAL then AssaultsPoint(s, i, team)
    else if n.prevOwner != team then s
    else NodeStep(s, i, DefendNode(n, team))
  }

  function EndBattle(s: Battle, winner: nat): Battle {
    s.(ends := s.ends + [winner], running := false)
  }

  function UpdateScore(s: Battle, team: nat, points: int): (r: Battle)
    requires team < 2 && |s.scores| == 2
    ensures |r.scores| == 2
  {
    var score := s.scores[team] + points;
    var s1 :=
      if points < 0 && score < 1 then EndBattle(s.(scores := s.scores[team := 0]), 1 - team)
      else s.(scores := s.scores[team := score]);
    Send(s1, Score(team), s1.scores[team])
  }

  /** A burnt tower costs its team reinforcements and its marshal. */
  function LoseTower(s: Battle, marshal: nat, team: nat): (r: Battle)
    requires NodesOk(s) && MARSHALS <= marshal < MARSHALS + 8 && team < 2
    ensures NodesOk(r)
  {
    assert Channel(marshal);
    UpdateScore(SpawnEvent(s, marshal, 0, false), team, -RES_TOWER)
  }

  /** The assault has lasted: the node belongs to its attacker. */
  function TakeNode(s: Battle, i: nat): (r: Battle)
    requires NodesOk(s) && i < NODES && s.nodes[i].state == ASSAULTED
    ensures NodesOk(r)
  {
    NodeStep(s, i, DestroyNode(s.nodes[i]))
  }

  /** A tower burns when it is taken. */
  function Burn(s: Battle, i: nat): (r: Battle)
    requires NodesOk(s) && i < NODES && s.nodes[i].owner < 2
    ensures NodesOk(r)
  {
    if s.nodes[i].tower then LoseTower(s, MARSHALS + i - FIRST_TOWER, 1 - s.nodes[i].owner) else s
  }

  function DestroyedPoint(s: Battle, i: nat): (r: Battle)
    requires NodesOk(s) && i < NODES && s.nodes[i].state == ASSAULTED
    ensures NodesOk(r)
  {
    Burn(TakeNode(s, i), i)
  }

  function SendMine(s: Battle, m: nat): Battle
    requires m < |s.mines| == 2 && s.mines[m].owner < 3 && s.mines[m].prevOwner < 3
  {
    var s1 := Send(s, MineIcon(m, s.mines[m].owner), 1);
    if s.mines[m].owner != s.mines[m].prevOwner then Send(s1, MineIcon(m, s.mines[m].prevOwner), 0) else s1
  }

  function ChangeMineOwner(s: Battle, m: nat, team: nat): (r: Battle)
    requires NodesOk(s) && m < 2 && team < 3
    ensures NodesOk(r)
  {
    assert Channel(MINE_EVENT + m) && Channel(MINE_BOSSES + m);
    var mine := s.mines[m].(timer := MINE_TICK_TIMER);
    if mine.owner == team then s.(mines := s.mines[m := mine])
    else
      var mine' := mine.(prevOwner := mine.owner, owner := team,
                         reclaim := if team == NEUTRAL then mine.reclaim else MINE_RECLAIM_TIMER);
      SpawnEvent(SpawnEvent(SendMine(s.(mines := s.mines[m := mine']), m),
                            MINE_EVENT + m, team, true), MINE_BOSSES + m, team, true)
  }

  /** A held mine pays a point whenever its tick timer runs out. */
  function PayMine(s: Battle, m: nat, diff: nat): (r: Battle)
    requires NodesOk(s) && m < 2 && s.mines[m].owner != NEUTRAL
    ensures NodesOk(r)
  {
    var timer := s.mines[m].timer - diff;
    if timer <= 0 then
      UpdateScore(s, s.mines[m].owner, 1).(mines := s.mines[m := s.mines[m].(timer := MINE_TICK_TIMER)])
    else s.(mines := s.mines[m := s.mines[m].(timer := timer)])
  }

  /** A held mine falls back to neutral when its reclaim timer runs out. */
  function ReclaimMine(s: Battle, m: nat, diff: nat): (r: Battle)
    requires NodesOk(s) && m < 2
    ensures NodesOk(r)
  {
    if s.mines[m].reclaim > diff then s.(mines := s.mines[m := s.mines[m].(reclaim := s.mines[m].reclaim - diff)])
    else ChangeMineOwner(s, m, NEUTRAL)
  }

  function UpdateMine(s: Battle, m: nat, diff: nat): (r: Battle)
    requires NodesOk(s) && m < 2
    ensures NodesOk(r)
  {
    if s.mines[m].owner == NEUTRAL then s else ReclaimMine(PayMine(s, m, diff), m, diff)
  }

  function UpdateNode(s: Battle, i: nat, diff: nat): (r: Battle)
    requires NodesOk(s) && i < NODES
    ensures NodesOk(r)
  {
    var n := s.nodes[i];
    if n.state != ASSAULTED then s
    else if n.timer > diff then SetNode(s, i, n.(timer := n.timer - diff))
    else DestroyedPoint(s, i)
  }

  function UpdateNodes(s: Battle, i: nat, diff: nat): (r: Battle)
    requires NodesOk(s) && i <= NODES
    ensures NodesOk(r)
    decreases NODES - i
  {
    if i == NODES then s else UpdateNodes(UpdateNode(s, i, diff), i + 1, diff)
  }

  function Update(s: Battle, diff: nat): (r: Battle)
    requires NodesOk(s)
    ensures NodesOk(r)
  {
    if !s.running then s else UpdateNodes(UpdateMine(UpdateMine(s, 0, diff), 1, diff), 0, diff)
  }

  /** A banner was used; its object belongs to a node event of the given state. */
  function ClickedOnFlag(s: Battle, i: nat, state: nat, team: nat): (r: Battle)
    requires NodesOk(s) && team < 2
    ensures NodesOk(r)
  {
    if !s.running || i >= NODES then s
    else if state == CONTROLLED then AssaultsPoint(s, i, team)
    else if state == ASSAULTED then DefendsPoint(s, i, team)
    else s
  }

  function KillPlayer(s: Battle, team: nat): (r: Battle)
    requires NodesOk(s) && team < 2
    ensures NodesOk(r)
  {
    if s.running then UpdateScore(s, team, -1) else s
  }

  function KillCaptain(s: Battle, team: nat): (r: Battle)
    requires NodesOk(s) && team < 2
    ensures NodesOk(r)
  {
    assert Channel(CAPTAIN_DEAD + team);
    if s.active[CAPTAIN_DEAD + team] == 0 then s
    else SpawnEvent(UpdateScore(s, team, -RES_CAPTAIN), CAPTAIN_DEAD + team, 0, true)
  }

  /** A creature of the channel died at the hands of a team. */
  function KillUnit(s: Battle, event1: nat, killer: nat): (r: Battle)
    requires NodesOk(s) && killer < 2
    ensures NodesOk(r)
  {
    if !s.running then s
    else if event1 == BOSS_A then EndBattle(s, HORDE)
    else if event1 == BOSS_H then EndBattle(s, ALLIANCE)
    else if event1 == CAPTAIN_A || event1 == CAPTAIN_H then KillCaptain(s, event1 - CAPTAIN_A)
    else if event1 == MINE_BOSSES || event1 == MINE_BOSSES + 1 then ChangeMineOwner(s, event1 - MINE_BOSSES, killer)
    else s
  }

  /** Puts the upgraded defenders into the graveyards a team controls, from one node on. */
  function Upgrade(active: map<nat, nat>, nodes: seq<Node>, scraps: seq<nat>, team: nat, i: nat): (r: map<nat, nat>)
    requires |nodes| == NODES && |scraps| == 2 && team < 2 && i <= FIRST_TOWER && Announced(active)
    ensures r.Keys == active.Keys
    decreases FIRST_TOWER - i
  {
    if i == FIRST_TOWER then active
    else if nodes[i].owner == team && nodes[i].state == CONTROLLED then
      assert Channel(i) && Channel(NODES + i);
      Upgrade(Populated(active, i, nodes[i], scraps), nodes, scraps, team, i + 1)
    else Upgrade(active, nodes, scraps, team, i + 1)
  }

  function AddScraps(s: Battle, team: nat): (r: Battle)
    requires NodesOk(s) && team < 2
    ensures NodesOk(r)
  {
    var scraps := s.scraps[team := s.scraps[team] + 20];
    if scraps[team] == 500 || scraps[team] == 1000 || scraps[team] == 1500 then
      s.(scraps := scraps, active := Upgrade(s.active, s.nodes, scraps, team, 0))
    else s.(scraps := scraps)
  }

  function TurnInScraps(s: Battle, team: nat): (r: Battle)
    requires NodesOk(s) && team < 2
    ensures NodesOk(r)
  {
    if s.running then AddScraps(s, team) else s
  }
}
