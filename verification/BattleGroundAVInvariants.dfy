/** What every run of Alterac Valley keeps. */
module BattleGroundAVInvariants {
  import opened BattleGroundAV
  import opened WorldStates
  import Ev = BattleGroundEvents

  // ----- the active events -----

  /** Every node shows its owner and state. */
  ghost predicate Shown(nodes: seq<Node>, active: map<nat, nat>)
    requires |nodes| == NODES
  {
    forall i :: 0 <= i < NODES ==> i in active && active[i] == NodeKind(nodes[i].state, nodes[i].owner)
  }

  /** A graveyard a team controls has the defenders its scraps paid for. */
  predicate Guarded(n: Node, i: nat, scraps: seq<nat>, active: map<nat, nat>)
    requires |scraps| == 2
  {
    NODES + i in active
    && (n.state == CONTROLLED && n.owner < 2 ==> active[NODES + i] == n.owner * 4 + Tier(scraps[n.owner]))
  }

  ghost predicate Defended(nodes: seq<Node>, scraps: seq<nat>, active: map<nat, nat>)
    requires |nodes| == NODES && |scraps| == 2
  {
    forall i :: 0 <= i < FIRST_TOWER ==> Guarded(nodes[i], i, scraps, active)
  }

  /** A mine works for its owner. */
  predicate Works(mine: Mine, m: nat, active: map<nat, nat>) {
    && MINE_EVENT + m in active && active[MINE_EVENT + m] == mine.owner
    && MINE_BOSSES + m in active && active[MINE_BOSSES + m] == mine.owner
  }

  predicate Worked(mines: seq<Mine>, active: map<nat, nat>)
    requires |mines| == 2
  {
    Works(mines[0], 0, active) && Works(mines[1], 1, active)
  }

  predicate InTwenties(scraps: seq<nat>) {
    forall t :: 0 <= t < |scraps| ==> scraps[t] % 20 == 0
  }

  /** The active events follow the objectives. */
  ghost predicate Follows(nodes: seq<Node>, scraps: seq<nat>, mines: seq<Mine>, active: map<nat, nat>)
    requires |nodes| == NODES && |scraps| == 2 && |mines| == 2
  {
    && Announced(active) && InTwenties(scraps)
    && Shown(nodes, active) && Defended(nodes, scraps, active) && Worked(mines, active)
  }

  /** When a node and its channels move together, everything follows the objectives again. */
  lemma NodeFollows(nodes: seq<Node>, scraps: seq<nat>, mines: seq<Mine>, active: map<nat, nat>, i: nat, n: Node)
    requires |nodes| == NODES && |scraps| == 2 && |mines| == 2 && i < NODES && NodeOk(n, i)
    requires Follows(nodes, scraps, mines, active)
    ensures (n.tower || NODES + i in active) && i in active
    ensures Follows(nodes[i := n], scraps, mines, Populated(active, i, n, scraps))
  {
    assert Channel(i) && (i < FIRST_TOWER ==> Channel(NODES + i));
    var active1 := Garrison(active, i, n, scraps);
    assert forall e :: e in active && (e != NODES + i || n.tower) ==> active1[e] == active[e];
  }

  lemma MineFollows(nodes: seq<Node>, scraps: seq<nat>, mines: seq<Mine>, active: map<nat, nat>, m: nat, mine: Mine)
    requires |nodes| == NODES && |scraps| == 2 && |mines| == 2 && m < 2 && Follows(nodes, scraps, mines, active)
    ensures Follows(nodes, scraps, mines[m := mine],
                    active[MINE_EVENT + m := mine.owner][MINE_BOSSES + m := mine.owner])
  {
  }

  /** Channels that no objective is bound to may do as they like. */
  lemma OtherFollows(nodes: seq<Node>, scraps: seq<nat>, mines: seq<Mine>, active: map<nat, nat>, e: nat, e2: nat)
    requires |nodes| == NODES && |scraps| == 2 && |mines| == 2 && Follows(nodes, scraps, mines, active)
    requires e >= MARSHALS
    ensures Follows(nodes, scraps, mines, active[e := e2])
  {
  }

  // ----- the clients -----

  /** What a late joiner is shown. */
  function Current(s: Battle, i: Icon): int
    requires NodesOk(s) && Drawn(i)
  {
    match i
    case NodeIcon(n, k) => if s.nodes[n].owner != NEUTRAL && NodeKind(s.nodes[n].state, s.nodes[n].owner) == k then 1 else 0
    case SnowfallNeutral => if s.nodes[SNOWFALL].owner == NEUTRAL then 1 else 0
    case MineIcon(m, o) => if s.mines[m].owner == o then 1 else 0
    case Score(t) => s.scores[t]
  }

  /** The client shows every icon as it is, and holds no number outside the table. */
  ghost predicate Agrees(s: Battle)
    requires NodesOk(s)
  {
    Clean(TABLE, s.client) && forall i :: Drawn(i) ==> Show(TABLE, s.client, i) == Current(s, i)
  }

  /** One icon on and one icon off is a complete story when nothing else changes. */
  lemma SwapAgrees(s: Battle, s': Battle, on: Icon, off: Icon)
    requires NodesOk(s) && Agrees(s) && NodesOk(s') && Drawn(on) && Drawn(off)
    requires s'.client == Store(TABLE, Store(TABLE, s.client, on, 1), off, 0)
    requires forall j :: Drawn(j) ==> Current(s', j) == if j == off then 0 else if j == on then 1 else Current(s, j)
    ensures Agrees(s')
  {
    forall j | Drawn(j) ensures Show(TABLE, s'.client, j) == Current(s', j) {
      assert Show(TABLE, s.client, j) == Current(s, j);
    }
  }

  /** The icon a node is shown by. */
  function Face(node: nat, owner: nat, state: nat): Icon {
    if owner == NEUTRAL then SnowfallNeutral else NodeIcon(node, NodeKind(state, owner))
  }

  lemma NodeCurrent(s: Battle, s': Battle, i: nat, n: Node)
    requires NodesOk(s) && NodesOk(s') && i < NODES && NodeOk(n, i) && n.owner != NEUTRAL
    requires n.prevOwner == s.nodes[i].owner && n.prevState == s.nodes[i].state
    requires n.owner != n.prevOwner || n.state != n.prevState
    requires s'.nodes == s.nodes[i := n] && s'.mines == s.mines && s'.scores == s.scores
    ensures forall j :: Drawn(j) ==>
              Current(s', j) ==
              if j == Face(i, n.prevOwner, n.prevState) then 0
              else if j == Face(i, n.owner, n.state) then 1 else Current(s, j)
  {
    assert NodeOk(s.nodes[i], i);
  }

  /** Every change of a node, told as one icon on and one icon off, is told completely. */
  lemma NodeDelta(s: Battle, i: nat, n: Node)
    requires NodesOk(s) && Agrees(s) && i < NODES && NodeOk(n, i)
    requires n.prevOwner == s.nodes[i].owner && n.prevState == s.nodes[i].state && n.owner != NEUTRAL
    requires n.owner != n.prevOwner || n.state != n.prevState
    ensures Agrees(UpdateNodeWorldState(SetNode(s, i, n), i))
  {
    var s' := UpdateNodeWorldState(SetNode(s, i, n), i);
    NodeCurrent(s, s', i, n);
    SwapAgrees(s, s', Face(i, n.owner, n.state), Face(i, n.prevOwner, n.prevState));
  }

  lemma MineDelta(s: Battle, m: nat, mine: Mine)
    requires NodesOk(s) && Agrees(s) && m < 2 && mine.owner < 3 && mine.prevOwner == s.mines[m].owner
    ensures Agrees(SendMine(s.(mines := s.mines[m := mine]), m))
  {
    var s' := SendMine(s.(mines := s.mines[m := mine]), m);
    forall j | Drawn(j) ensures Show(TABLE, s'.client, j) == Current(s', j) {
      assert Show(TABLE, s.client, j) == Current(s, j);
    }
  }

  lemma ScoreDelta(s: Battle, team: nat, points: int)
    requires NodesOk(s) && Agrees(s) && team < 2
    ensures Agrees(UpdateScore(s, team, points))
  {
    var s' := UpdateScore(s, team, points);
    forall j | Drawn(j) ensures Show(TABLE, s'.client, j) == Current(s', j) {
      assert Show(TABLE, s.client, j) == Current(s, j);
    }
  }

  // ----- the list for a late joiner -----

  /** What an icon of a node shows. */
  function Lit(n: Node, kind: nat): int {
    if n.owner != NEUTRAL && NodeKind(n.state, n.owner) == kind then 1 else 0
  }

  predicate IconTold(data: map<nat, int>, i: nat, n: Node, kind: nat)
    requires i < NODES && kind < 4
  {
    Show(TABLE, data, NodeIcon(i, kind)) == Lit(n, kind)
  }

  /** Both icons of a node for one state. */
  predicate StateTold(data: map<nat, int>, i: nat, n: Node, j: nat)
    requires i < NODES && j < 2
  {
    IconTold(data, i, n, j) && IconTold(data, i, n, 2 + j)
  }

  predicate NodeTold(data: map<nat, int>, i: nat, n: Node)
    requires i < NODES
  {
    StateTold(data, i, n, ASSAULTED) && StateTold(data, i, n, CONTROLLED)
  }

  /** Two lists differ in the icons of one node only, and in no number outside the table. */
  ghost predicate Apart(before: map<nat, int>, data: map<nat, int>, i: nat) {
    && (Clean(TABLE, before) ==> Clean(TABLE, data))
    && forall icon :: Drawn(icon) && !(icon.NodeIcon? && icon.node == i) ==> Show(TABLE, data, icon) == Show(TABLE, before, icon)
  }

  lemma ApartKeeps(before: map<nat, int>, data: map<nat, int>, i: nat, k: nat, n: Node)
    requires Apart(before, data, i) && k < NODES && k != i && NodeTold(before, k, n)
    ensures NodeTold(data, k, n)
  {
  }

  lemma OthersKeep(before: map<nat, int>, data: map<nat, int>, k: nat, n: Node)
    requires forall icon: Icon :: Drawn(icon) && icon.NodeIcon? ==> Show(TABLE, data, icon) == Show(TABLE, before, icon)
    requires k < NODES && NodeTold(before, k, n)
    ensures NodeTold(data, k, n)
  {
  }

  /** A list that tells each node, snowfall, both mines and both scores is current. */
  lemma ListAgrees(s: Battle, data: map<nat, int>)
    requires NodesOk(s) && forall i: nat :: i < NODES ==> NodeTold(data, i, s.nodes[i])
    requires Show(TABLE, data, SnowfallNeutral) == if s.nodes[SNOWFALL].owner == NEUTRAL then 1 else 0
    requires forall m: nat, o: nat :: m < 2 && o < 3 ==>
               Show(TABLE, data, MineIcon(m, o)) == if s.mines[m].owner == o then 1 else 0
    requires Show(TABLE, data, Score(ALLIANCE)) == s.scores[ALLIANCE] && Show(TABLE, data, Score(HORDE)) == s.scores[HORDE]
    requires Clean(TABLE, data)
    ensures Agrees(s.(client := data))
  {
    forall icon | Drawn(icon) ensures Show(TABLE, data, icon) == Current(s, icon) {
      if icon.NodeIcon? {
        assert NodeTold(data, icon.node, s.nodes[icon.node]);
      }
    }
  }

  ghost predicate SameHolders(s: Battle, s': Battle) {
    && |s.nodes| == |s'.nodes| && |s.mines| == |s'.mines|
    && (forall i :: 0 <= i < |s.nodes| ==> s'.nodes[i].owner == s.nodes[i].owner && s'.nodes[i].state == s.nodes[i].state)
    && (forall m :: 0 <= m < |s.mines| ==> s'.mines[m].owner == s.mines[m].owner)
  }

  /** Agreement is about who holds what, the scores and the client alone. */
  lemma SameAgrees(s: Battle, s': Battle)
    requires NodesOk(s) && Agrees(s) && NodesOk(s') && SameHolders(s, s')
    requires s'.scores == s.scores && s'.client == s.client
    ensures Agrees(s')
  {
    forall j | Drawn(j) ensures Show(TABLE, s'.client, j) == Current(s', j) {
      assert Show(TABLE, s.client, j) == Current(s, j);
    }
  }

  // ----- the invariant -----

  /** The battle runs until someone wins, and not a moment longer than both teams have
      reinforcements. */
  predicate EndOk(s: Battle) {
    && |s.scores| == 2 && (s.running <==> s.ends == [])
    && (s.running ==> s.scores[ALLIANCE] >= 1 && s.scores[HORDE] >= 1)
  }

  ghost predicate Ok(s: Battle) {
    NodesOk(s) && Follows(s.nodes, s.scraps, s.mines, s.active) && Agrees(s) && EndOk(s)
  }

  // ----- the steps -----

  /** A node transition with its spawns and its icons. */
  lemma NodeStepOk(s: Battle, i: nat, n: Node)
    requires Ok(s) && i < NODES && NodeOk(n, i)
    requires n.prevOwner == s.nodes[i].owner && n.prevState == s.nodes[i].state && n.owner != NEUTRAL
    requires n.owner != n.prevOwner || n.state != n.prevState
    ensures Ok(NodeStep(s, i, n))
  {
    NodeDelta(s, i, n);
    NodeFollows(s.nodes, s.scraps, s.mines, s.active, i, n);
    SameAgrees(UpdateNodeWorldState(SetNode(s, i, n), i), NodeStep(s, i, n));
  }

  lemma AssaultsPointOk(s: Battle, i: nat, team: nat)
    requires Ok(s) && i < NODES && team < 2
    ensures Ok(AssaultsPoint(s, i, team))
  {
    var n := s.nodes[i];
    if n.owner != team && team != n.totalOwner {
      NodeStepOk(s, i, AssaultNode(n, team));
    }
  }

  /** Nobody can defend a point that was not its team's: the branch for that is dead. */
  lemma DefenderOwned(s: Battle, i: nat, team: nat)
    requires NodesOk(s) && i < NODES && team < 2
    requires s.nodes[i].owner != team && s.nodes[i].state == ASSAULTED && s.nodes[i].totalOwner != NEUTRAL
    ensures s.nodes[i].prevOwner == team == s.nodes[i].totalOwner
  {
    assert NodeOk(s.nodes[i], i);
  }

  lemma DefendsPointOk(s: Battle, i: nat, team: nat)
    requires Ok(s) && i < NODES && team < 2
    ensures Ok(DefendsPoint(s, i, team))
  {
    var n := s.nodes[i];
    if n.owner != team && n.state == ASSAULTED {
      if n.totalOwner == NEUTRAL {
        AssaultsPointOk(s, i, team);
      } else {
        DefenderOwned(s, i, team);
        NodeStepOk(s, i, DefendNode(n, team));
      }
    }
  }

  lemma UpdateScoreOk(s: Battle, team: nat, points: int)
    requires Ok(s) && team < 2
    ensures Ok(UpdateScore(s, team, points))
  {
    ScoreDelta(s, team, points);
  }

  lemma SpawnOk(s: Battle, event1: nat, event2: nat, on: bool)
    requires Ok(s) && MARSHALS <= event1 && event1 in s.active
    ensures Ok(SpawnEvent(s, event1, event2, on))
  {
    OtherFollows(s.nodes, s.scraps, s.mines, s.active, event1, event2);
    OtherFollows(s.nodes, s.scraps, s.mines, s.active, event1, Ev.EVENT_NONE);
    SameAgrees(s, SpawnEvent(s, event1, event2, on));
  }

  lemma LoseTowerOk(s: Battle, marshal: nat, team: nat)
    requires Ok(s) && MARSHALS <= marshal < MARSHALS + 8 && team < 2
    ensures Ok(LoseTower(s, marshal, team))
  {
    assert Channel(marshal);
    SpawnOk(s, marshal, 0, false);
    UpdateScoreOk(SpawnEvent(s, marshal, 0, false), team, -RES_TOWER);
  }

  lemma TakeNodeOk(s: Battle, i: nat)
    requires Ok(s) && i < NODES && s.nodes[i].state == ASSAULTED
    ensures var s' := TakeNode(s, i); Ok(s') && s'.nodes[i].owner < 2
  {
    NodeStepOk(s, i, DestroyNode(s.nodes[i]));
  }

  lemma TowerBurns(s: Battle, i: nat, marshal: nat, team: nat)
    requires Ok(s) && i < NODES && s.nodes[i].tower && s.nodes[i].owner < 2
    requires marshal == MARSHALS + i - FIRST_TOWER && team == 1 - s.nodes[i].owner
    ensures Ok(Burn(s, i))
  {
    assert NodeOk(s.nodes[i], i);
    LoseTowerOk(s, marshal, team);
    assert Burn(s, i) == LoseTower(s, marshal, team);
  }

  lemma BurnOk(s: Battle, i: nat)
    requires Ok(s) && i < NODES && s.nodes[i].owner < 2
    ensures Ok(Burn(s, i))
  {
    if s.nodes[i].tower {
      TowerBurns(s, i, MARSHALS + i - FIRST_TOWER, 1 - s.nodes[i].owner);
    }
  }

  lemma DestroyedPointOk(s: Battle, i: nat)
    requires Ok(s) && i < NODES && s.nodes[i].state == ASSAULTED
    ensures Ok(DestroyedPoint(s, i))
  {
    TakeNodeOk(s, i);
    BurnOk(TakeNode(s, i), i);
  }

  /** Timers count for nothing else. */
  lemma MineTimerOk(s: Battle, m: nat, mine: Mine)
    requires Ok(s) && m < 2 && mine.owner == s.mines[m].owner && mine.prevOwner == s.mines[m].prevOwner
    ensures Ok(s.(mines := s.mines[m := mine]))
  {
    SameAgrees(s, s.(mines := s.mines[m := mine]));
  }

  lemma ChangeMineOwnerOk(s: Battle, m: nat, team: nat)
    requires Ok(s) && m < 2 && team < 3
    ensures Ok(ChangeMineOwner(s, m, team))
  {
    var mine := s.mines[m].(timer := MINE_TICK_TIMER);
    if mine.owner == team {
      MineTimerOk(s, m, mine);
    } else {
      var mine' := mine.(prevOwner := mine.owner, owner := team,
                         reclaim := if team == NEUTRAL then mine.reclaim else MINE_RECLAIM_TIMER);
      MineDelta(s, m, mine');
      MineFollows(s.nodes, s.scraps, s.mines, s.active, m, mine');
      SameAgrees(SendMine(s.(mines := s.mines[m := mine']), m), ChangeMineOwner(s, m, team));
    }
  }

  lemma PayMineOk(s: Battle, m: nat, diff: nat)
    requires Ok(s) && m < 2 && s.mines[m].owner != NEUTRAL
    ensures Ok(PayMine(s, m, diff))
  {
    var timer := s.mines[m].timer - diff;
    if timer <= 0 {
      UpdateScoreOk(s, s.mines[m].owner, 1);
      MineTimerOk(UpdateScore(s, s.mines[m].owner, 1), m, s.mines[m].(timer := MINE_TICK_TIMER));
    } else {
      MineTimerOk(s, m, s.mines[m].(timer := timer));
    }
  }

  lemma ReclaimMineOk(s: Battle, m: nat, diff: nat)
    requires Ok(s) && m < 2
    ensures Ok(ReclaimMine(s, m, diff))
  {
    if s.mines[m].reclaim > diff {
      MineTimerOk(s, m, s.mines[m].(reclaim := s.mines[m].reclaim - diff));
    } else {
      ChangeMineOwnerOk(s, m, NEUTRAL);
    }
  }

  lemma UpdateMineOk(s: Battle, m: nat, diff: nat)
    requires Ok(s) && m < 2
    ensures Ok(UpdateMine(s, m, diff))
  {
    if s.mines[m].owner != NEUTRAL {
      PayMineOk(s, m, diff);
      ReclaimMineOk(PayMine(s, m, diff), m, diff);
    }
  }

  lemma NodeTimerOk(s: Battle, i: nat, timer: nat)
    requires Ok(s) && i < NODES && s.nodes[i].state == ASSAULTED && timer > 0
    ensures Ok(SetNode(s, i, s.nodes[i].(timer := timer)))
  {
    SameAgrees(s, SetNode(s, i, s.nodes[i].(timer := timer)));
  }

  lemma NodeWaits(s: Battle, i: nat, diff: nat, timer: nat)
    requires Ok(s) && i < NODES && s.nodes[i].state == ASSAULTED && 0 < timer == s.nodes[i].timer - diff
    ensures Ok(UpdateNode(s, i, diff))
  {
    NodeTimerOk(s, i, timer);
  }

  lemma UpdateNodeOk(s: Battle, i: nat, diff: nat)
    requires Ok(s) && i < NODES
    ensures Ok(UpdateNode(s, i, diff))
  {
    if s.nodes[i].state == ASSAULTED {
      if s.nodes[i].timer > diff {
        NodeWaits(s, i, diff, s.nodes[i].timer - diff);
      } else {
        DestroyedPointOk(s, i);
      }
    }
  }

  lemma {:induction false} UpdateNodesOk(s: Battle, i: nat, diff: nat)
    requires Ok(s) && i <= NODES
    ensures Ok(UpdateNodes(s, i, diff))
    decreases NODES - i
  {
    if i == NODES {
    } else {
      UpdateNodeOk(s, i, diff);
      UpdateNodesOk(UpdateNode(s, i, diff), i + 1, diff);
    }
  }

  lemma UpdateOk(s: Battle, diff: nat)
    requires Ok(s)
    ensures Ok(Update(s, diff))
  {
    if s.running {
      UpdateMineOk(s, 0, diff);
      UpdateMineOk(UpdateMine(s, 0, diff), 1, diff);
      UpdateNodesOk(UpdateMine(UpdateMine(s, 0, diff), 1, diff), 0, diff);
    }
  }

  lemma EndBattleOk(s: Battle, winner: nat)
    requires Ok(s)
    ensures Ok(EndBattle(s, winner))
  {
    SameAgrees(s, EndBattle(s, winner));
  }

  lemma KillCaptainOk(s: Battle, team: nat)
    requires Ok(s) && team < 2
    ensures Ok(KillCaptain(s, team))
  {
    assert Channel(CAPTAIN_DEAD + team);
    UpdateScoreOk(s, team, -RES_CAPTAIN);
    SpawnOk(UpdateScore(s, team, -RES_CAPTAIN), CAPTAIN_DEAD + team, 0, true);
  }

  lemma KillUnitOk(s: Battle, event1: nat, killer: nat)
    requires Ok(s) && killer < 2
    ensures Ok(KillUnit(s, event1, killer))
  {
    if s.running {
      if event1 == BOSS_A {
        EndBattleOk(s, HORDE);
      } else if event1 == BOSS_H {
        EndBattleOk(s, ALLIANCE);
      } else if event1 == CAPTAIN_A || event1 == CAPTAIN_H {
        KillCaptainOk(s, event1 - CAPTAIN_A);
      } else if event1 == MINE_BOSSES || event1 == MINE_BOSSES + 1 {
        ChangeMineOwnerOk(s, event1 - MINE_BOSSES, killer);
      }
    }
  }

  /** Graveyards before a position already show the upgraded defenders; the others of the team
      may not. */
  ghost predicate UpgradedTo(nodes: seq<Node>, scraps: seq<nat>, active: map<nat, nat>, team: nat, i: nat)
    requires |nodes| == NODES && |scraps| == 2 && team < 2
  {
    && Announced(active) && Shown(nodes, active)
    && (forall j :: 0 <= j < FIRST_TOWER && (j < i || nodes[j].owner != team) ==> Guarded(nodes[j], j, scraps, active))
    && (forall j :: 0 <= j < FIRST_TOWER ==> !nodes[j].tower)
  }

  lemma UpgradeOne(nodes: seq<Node>, scraps: seq<nat>, mines: seq<Mine>, active: map<nat, nat>, team: nat, i: nat)
    requires |nodes| == NODES && |scraps| == 2 && |mines| == 2 && team < 2 && i < FIRST_TOWER
    requires UpgradedTo(nodes, scraps, active, team, i) && Worked(mines, active)
    requires nodes[i].owner == team && nodes[i].state == CONTROLLED
    ensures i in active && NODES + i in active
    ensures
      var active' := Populated(active, i, nodes[i], scraps);
      active'.Keys == active.Keys && UpgradedTo(nodes, scraps, active', team, i + 1) && Worked(mines, active')
  {
    assert Channel(i) && Channel(NODES + i);
    var active' := Populated(active, i, nodes[i], scraps);
    assert forall e :: e in active && e != NODES + i ==> active'[e] == active[e];
  }

  lemma {:induction false} UpgradeOk(
      nodes: seq<Node>, scraps: seq<nat>, mines: seq<Mine>, active: map<nat, nat>, team: nat, i: nat)
    requires |nodes| == NODES && |scraps| == 2 && |mines| == 2 && team < 2 && i <= FIRST_TOWER
    requires UpgradedTo(nodes, scraps, active, team, i) && Worked(mines, active)
    ensures
      var active' := Upgrade(active, nodes, scraps, team, i);
      UpgradedTo(nodes, scraps, active', team, FIRST_TOWER) && Worked(mines, active')
    decreases FIRST_TOWER - i
  {
    if i == FIRST_TOWER {
    } else {
      if nodes[i].owner == team && nodes[i].state == CONTROLLED {
        UpgradeOne(nodes, scraps, mines, active, team, i);
        UpgradeOk(nodes, scraps, mines, Populated(active, i, nodes[i], scraps), team, i + 1);
      } else {
        UpgradeOk(nodes, scraps, mines, active, team, i + 1);
      }
    }
  }

  /** Scraps come in twenties, so no threshold is ever stepped over. */
  lemma TierSteps(scraps: nat)
    requires scraps % 20 == 0 && scraps + 20 !in {500, 1000, 1500}
    ensures Tier(scraps + 20) == Tier(scraps)
  {
  }

  lemma UpgradeFollows(s: Battle, scraps: seq<nat>, team: nat)
    requires NodesOk(s) && Follows(s.nodes, s.scraps, s.mines, s.active) && team < 2
    requires |scraps| == 2 && InTwenties(scraps) && scraps[1 - team] == s.scraps[1 - team]
    ensures Follows(s.nodes, scraps, s.mines, Upgrade(s.active, s.nodes, scraps, team, 0))
  {
    assert UpgradedTo(s.nodes, scraps, s.active, team, 0);
    UpgradeOk(s.nodes, scraps, s.mines, s.active, team, 0);
  }

  lemma AddScrapsFollows(s: Battle, team: nat)
    requires NodesOk(s) && Follows(s.nodes, s.scraps, s.mines, s.active) && team < 2
    ensures var s' := AddScraps(s, team); Follows(s'.nodes, s'.scraps, s'.mines, s'.active)
  {
    var scraps := s.scraps[team := s.scraps[team] + 20];
    assert InTwenties(scraps);
    if scraps[team] in {500, 1000, 1500} {
      UpgradeFollows(s, scraps, team);
    } else {
      TierSteps(s.scraps[team]);
    }
  }

  lemma AddScrapsOk(s: Battle, team: nat)
    requires Ok(s) && team < 2
    ensures Ok(AddScraps(s, team))
  {
    AddScrapsFollows(s, team);
    SameAgrees(s, AddScraps(s, team));
  }

  // ----- whole runs -----

  datatype Event =
    | Clicked(node: nat, state: nat, team: nat)
    | PlayerKilled(team: nat)
    | UnitKilled(event1: nat, killer: nat)
    | ScrapsTurnedIn(team: nat)
    | Ticked(diff: nat)

  function Apply(s: Battle, e: Event): (r: Battle)
    requires NodesOk(s)
    ensures NodesOk(r)
  {
    match e
    case Clicked(node, state, team) => if team < 2 then ClickedOnFlag(s, node, state, team) else s
    case PlayerKilled(team) => if team < 2 then KillPlayer(s, team) else s
    case UnitKilled(event1, killer) => if killer < 2 then KillUnit(s, event1, killer) else s
    case ScrapsTurnedIn(team) => if team < 2 then TurnInScraps(s, team) else s
    case Ticked(diff) => Update(s, diff)
  }

  function Run(s: Battle, es: seq<Event>): (r: Battle)
    requires NodesOk(s)
    ensures NodesOk(r)
    decreases |es|
  {
    if es == [] then s else Run(Apply(s, es[0]), es[1..])
  }

  lemma ApplyOk(s: Battle, e: Event)
    requires Ok(s)
    ensures Ok(Apply(s, e))
  {
    match e {
      case Clicked(node, state, team) =>
        if team < 2 && s.running && node < NODES {
          AssaultsPointOk(s, node, team);
          DefendsPointOk(s, node, team);
        }
      case PlayerKilled(team) =>
        if team < 2 { UpdateScoreOk(s, team, -1); }
      case UnitKilled(event1, killer) =>
        if killer < 2 { KillUnitOk(s, event1, killer); }
      case ScrapsTurnedIn(team) =>
        if team < 2 { AddScrapsOk(s, team); }
      case Ticked(diff) =>
        UpdateOk(s, diff);
    }
  }

  /** In every state of every run the node records are sound, so no assertion of the source can
      fail; the active events of nodes, graveyard defenders and mines follow the records; a
      client that was right once stays right; and the battle ends when reinforcements do. */
  lemma {:induction false} RunOk(s: Battle, es: seq<Event>)
    requires Ok(s)
    ensures Ok(Run(s, es))
    decreases |es|
  {
    if es == [] {
    } else {
      ApplyOk(s, es[0]);
      RunOk(Apply(s, es[0]), es[1..]);
    }
  }

  /** After every run a client that was told piece by piece holds, under every number, what a
      client filled at that moment holds. */
  lemma RunScreen(s: Battle, es: seq<Event>, fill: map<nat, int>, id: nat)
    requires Ok(s) && Agrees(Run(s, es).(client := fill))
    ensures Held(Run(s, es).client, id) == Held(fill, id)
  {
    RunOk(s, es);
    var s' := Run(s, es);
    forall i | TABLE.drawn(i) ensures Show(TABLE, s'.client, i) == Show(TABLE, fill, i) {
      assert Show(TABLE, s'.client, i) == Current(s', i) && Show(TABLE, fill, i) == Current(s'.(client := fill), i);
    }
    SameScreen(TABLE, s'.client, fill, id);
  }

  /** Banners in the world tell the truth: over an event layer in order, the objects of a node
      that are spawned are those of its owner and state. */
  lemma BannersTrue(s: Battle, l: Ev.Layer, g: Ev.Guid, i: nat, kind: nat)
    requires Ok(s) && l.active == s.active && Ev.Exclusive(l) && i < NODES && Ev.Registered(l, g, i, kind)
    ensures g in l.spawned <==> kind == NodeKind(s.nodes[i].state, s.nodes[i].owner)
  {
    assert Ev.IsActive(l, i, kind) <==> l.active[i] == kind;
  }

  // ----- the start -----

  function StartNode(i: nat): Node {
    InitNode(if i == SNOWFALL then NEUTRAL else if i < SNOWFALL || FIRST_TOWER <= i <= 10 then ALLIANCE else HORDE,
             i >= FIRST_TOWER)
  }

  /** What Reset announces. */
  function StartActive(): map<nat, nat> {
    map e: nat | 0 <= e < CAPTAIN_DEAD + 2 && Channel(e) ::
      if e < NODES then NodeKind(CONTROLLED, StartNode(e).owner)
      else if e < NODES + FIRST_TOWER then StartNode(e - NODES).owner * 4
      else if e in {MINE_BOSSES, MINE_BOSSES + 1, MINE_EVENT, MINE_EVENT + 1} then NEUTRAL
      else if e >= CAPTAIN_DEAD then Ev.EVENT_NONE
      else 0
  }

  function Start(client: map<nat, int>): Battle {
    var mine := Mine(NEUTRAL, NEUTRAL, MINE_TICK_TIMER, 0);
    Battle(seq(NODES, i requires i >= 0 => StartNode(i)), [mine, mine], [0, 0], [INITIAL_POINTS, INITIAL_POINTS],
           StartActive(), [], true, client)
  }

  /** A battle starts in order, its clients having been told. */
  lemma StartOk(client: map<nat, int>)
    ensures NodesOk(Start(client)) && (Agrees(Start(client)) ==> Ok(Start(client)))
  {
    var s := Start(client);
    assert Announced(s.active);
    forall i | 0 <= i < NODES ensures s.nodes[i] == StartNode(i) && NodeOk(s.nodes[i], i) {
    }
    forall i | 0 <= i < FIRST_TOWER ensures Guarded(s.nodes[i], i, s.scraps, s.active) {
      assert Channel(NODES + i) && s.nodes[i] == StartNode(i);
    }
  }

  // ----- the end -----

  /** The final tally indexes its graveyard counters, one per team, by the owner of every
      controlled node. */
  ghost predicate TallyInRange(s: Battle)
    requires NodesOk(s)
  {
    forall i :: 0 <= i < NODES && s.nodes[i].state == CONTROLLED ==> s.nodes[i].owner < 2
  }

  /** That is in range exactly when snowfall has been taken. */
  lemma TallyIff(s: Battle)
    requires NodesOk(s)
    ensures TallyInRange(s) <==> s.nodes[SNOWFALL].owner != NEUTRAL
  {
    forall i | 0 <= i < NODES ensures s.nodes[i].owner == NEUTRAL ==> i == SNOWFALL && s.nodes[i].state == CONTROLLED {
      assert NodeOk(s.nodes[i], i);
    }
  }
}
