/** The rules of Alterac Valley, written down apart from the steps that keep them: what one event
    does to a node, to a mine and to the reinforcements of a team, who wins and when, and what
    follows for whole battles. */
module BattleGroundAVRules {
  import opened BattleGroundAV
  import opened BattleGroundAVInvariants
  import Ev = BattleGroundEvents

  // ----- the rules -----

  /** A team's assault on a node lasts four minutes, the first one on a neutral node five. */
  function Assaulted(n: Node, team: nat): Node {
    Node(n.totalOwner, team, n.owner, ASSAULTED, n.state, if n.prevOwner == NEUTRAL then 300000 else 240000, n.tower)
  }

  /** A banner is used against whoever holds the node; when an assault has lasted, the node is the
      attacker's. */
  predicate NodeRule(n: Node, n': Node, i: nat, e: Event) {
    match e
    case Clicked(node, state, team) =>
      if node != i || team >= 2 || n.owner == team then n' == n
      else if state == CONTROLLED then n' == if n.totalOwner == team then n else Assaulted(n, team)
      else if state == ASSAULTED == n.state then
        n' == if n.totalOwner == NEUTRAL then Assaulted(n, team)
              else Node(team, team, n.owner, CONTROLLED, ASSAULTED, 0, n.tower)
      else n' == n
    case Ticked(diff) =>
      if n.state == CONTROLLED then n' == n
      else if diff < n.timer then n' == n.(timer := n.timer - diff)
      else n' == Node(n.owner, n.owner, n.owner, CONTROLLED, ASSAULTED, 0, n.tower)
    case _ => n' == n
  }

  /** A mine belongs to whoever killed its last boss, for twenty minutes; it pays every 45 seconds. */
  predicate MineRule(mine: Mine, mine': Mine, m: nat, e: Event) {
    match e
    case UnitKilled(event1, killer) =>
      if event1 != 46 + m || killer >= 2 then mine' == mine
      else if mine.owner == killer then mine' == mine.(timer := 45000)
      else mine' == Mine(killer, mine.owner, 45000, 1200000)
    case Ticked(diff) =>
      if mine.owner == NEUTRAL then mine' == mine
      else if diff < mine.reclaim then
        mine' == mine.(timer := if mine.timer <= diff then 45000 else mine.timer - diff, reclaim := mine.reclaim - diff)
      else mine' == Mine(NEUTRAL, mine.owner, 45000, mine.reclaim)
    case _ => mine' == mine
  }

  /** The tower falls at this tick, and it was this team's. */
  predicate Burns(n: Node, diff: nat, team: nat) {
    n.tower && n.state == ASSAULTED && n.timer <= diff && n.totalOwner == team
  }

  function BurntIn(n: Node, diff: nat, team: nat): nat {
    if Burns(n, diff, team) then 1 else 0
  }

  function BurntFrom(nodes: seq<Node>, i: nat, diff: nat, team: nat): nat
    requires i <= |nodes|
    decreases |nodes| - i
  {
    if i == |nodes| then 0 else BurntIn(nodes[i], diff, team) + BurntFrom(nodes, i + 1, diff, team)
  }

  predicate Pays(mine: Mine, diff: nat, team: nat) {
    mine.owner == team && mine.timer <= diff
  }

  /** The captain of a team falls for the first time. */
  predicate CaptainFalls(s: Battle, e: Event, team: nat)
    requires NodesOk(s) && team < 2
  {
    assert Channel(63 + team);
    e.UnitKilled? && e.killer < 2 && e.event1 == 48 + team && s.active[63 + team] != 0
  }

  predicate GeneralFalls(e: Event, team: nat) {
    e.UnitKilled? && e.killer < 2 && e.event1 == 61 + team
  }

  /** What an event costs a team: a player one, a captain a hundred, each of its towers 75. */
  function Loss(s: Battle, e: Event, team: nat): nat
    requires NodesOk(s) && team < 2
  {
    match e
    case PlayerKilled(t) => if t == team then 1 else 0
    case UnitKilled(_, _) => if CaptainFalls(s, e, team) then 100 else 0
    case Ticked(diff) => 75 * BurntFrom(s.nodes, 0, diff, team)
    case _ => 0
  }

  function Gain(s: Battle, e: Event, team: nat): nat
    requires NodesOk(s) && team < 2
  {
    match e
    case Ticked(diff) =>
      (if Pays(s.mines[0], diff, team) then 1 else 0) + (if Pays(s.mines[1], diff, team) then 1 else 0)
    case _ => 0
  }

  /** What the event leaves a team, on paper. */
  function Due(s: Battle, e: Event, team: nat): int
    requires NodesOk(s) && team < 2
  {
    s.scores[team] + Gain(s, e, team) - Loss(s, e, team)
  }

  function AtLeastZero(x: int): int {
    if x < 0 then 0 else x
  }

  /** The event makes a team the winner: the enemy general is dead, or the enemy has nobody left. */
  predicate Wins(s: Battle, e: Event, winner: nat)
    requires NodesOk(s)
  {
    winner < 2 && s.running && (GeneralFalls(e, 1 - winner) || Due(s, e, 1 - winner) < 1)
  }

  /** The winners announced since. */
  function Announcements(s: Battle, s': Battle): seq<nat>
    requires |s.ends| <= |s'.ends|
  {
    s'.ends[|s.ends|..]
  }

  /** One event of a battle that is on. */
  ghost predicate Rules(s: Battle, e: Event, s': Battle)
    requires NodesOk(s) && NodesOk(s')
  {
    && (forall i :: 0 <= i < NODES ==> NodeRule(s.nodes[i], s'.nodes[i], i, e))
    && MineRule(s.mines[0], s'.mines[0], 0, e) && MineRule(s.mines[1], s'.mines[1], 1, e)
    && s'.scores[ALLIANCE] == AtLeastZero(Due(s, e, ALLIANCE)) && s'.scores[HORDE] == AtLeastZero(Due(s, e, HORDE))
    && s.ends <= s'.ends && (forall w :: w in Announcements(s, s') <==> Wins(s, e, w))
    && (s'.running <==> s'.ends == s.ends)
    && (forall t :: 0 <= t < 2 ==> s'.scraps[t] == s.scraps[t] + if e == ScrapsTurnedIn(t) then 20 else 0)
    && Guardians(s, e, s')
  }

  /** A captain's aura shows from his death on, and the marshal of a tower stands until it burns. */
  ghost predicate Guardians(s: Battle, e: Event, s': Battle)
    requires NodesOk(s) && NodesOk(s')
  {
    && (forall t :: 0 <= t < 2 ==> CaptainDead(s'.active, t) == (CaptainDead(s.active, t) || CaptainFalls(s, e, t)))
    && (forall i :: FIRST_TOWER <= i < NODES ==>
          MarshalStands(s'.active, i) ==
          (MarshalStands(s.active, i) && !(e.Ticked? && (Burns(s.nodes[i], e.diff, ALLIANCE) || Burns(s.nodes[i], e.diff, HORDE)))))
  }

  predicate CaptainDead(active: map<nat, nat>, team: nat) {
    63 + team in active && active[63 + team] == 0
  }

  predicate MarshalStands(active: map<nat, nat>, tower: nat) {
    45 + tower in active && active[45 + tower] == 0
  }

  // ----- the steps keep them -----

  /** A loss that leaves less than one reinforcement makes the other team the winner. */
  lemma ScoreEffect(s: Battle, team: nat, points: int, left: int)
    requires |s.scores| == 2 && team < 2 && left == s.scores[team] + points
    ensures
      var r := UpdateScore(s, team, points);
      && r.scores[1 - team] == s.scores[1 - team]
      && (if points < 0 && left < 1
          then r.scores[team] == 0 && r.ends == s.ends + [if team == HORDE then ALLIANCE else HORDE] && !r.running
          else r.scores[team] == left && r.ends == s.ends && r.running == s.running)
      && r.(scores := s.scores, ends := s.ends, running := s.running, client := s.client) == s
  {
  }

  /** A step of one node leaves everything else as it is, but for the channels and icons of nodes. */
  ghost predicate NodesOnly(s: Battle, r: Battle) {
    && r.mines == s.mines && r.scraps == s.scraps && r.scores == s.scores && r.ends == s.ends && r.running == s.running
    && SameGuardians(s, r)
  }

  lemma NodeStepEffect(s: Battle, i: nat, n: Node)
    requires NodesOk(s) && i < NODES && NodeOk(n, i) && n.owner < 2
    ensures var r := NodeStep(s, i, n); r.nodes == s.nodes[i := n] && NodesOnly(s, r)
  {
  }

  lemma AssaultsPointEffect(s: Battle, i: nat, team: nat)
    requires NodesOk(s) && i < NODES && team < 2
    ensures
      var n := s.nodes[i];
      var r := AssaultsPoint(s, i, team);
      && r.nodes == s.nodes[i := if n.owner == team || n.totalOwner == team then n else Assaulted(n, team)]
      && NodesOnly(s, r)
  {
    var n := s.nodes[i];
    if n.owner != team && team != n.totalOwner {
      NodeStepEffect(s, i, AssaultNode(n, team));
    }
  }

  lemma ClickedEffect(s: Battle, i: nat, state: nat, team: nat)
    requires NodesOk(s) && s.running && i < NODES && team < 2
    ensures
      var r := ClickedOnFlag(s, i, state, team);
      && r.nodes == s.nodes[i := r.nodes[i]] && NodeRule(s.nodes[i], r.nodes[i], i, Clicked(i, state, team))
      && NodesOnly(s, r)
  {
    var n := s.nodes[i];
    AssaultsPointEffect(s, i, team);
    if state == ASSAULTED == n.state && n.owner != team && n.totalOwner != NEUTRAL {
      DefenderOwned(s, i, team);
      NodeStepEffect(s, i, DefendNode(n, team));
    }
  }

  /** What one tick costs a team whose towers burn from a node on, and whom that makes win. */
  ghost predicate TeamTicks(s: Battle, r: Battle, burnt: nat, team: nat)
    requires team < |s.scores| && team < |r.scores| && |s.ends| <= |r.ends|
  {
    && r.scores[team] == AtLeastZero(s.scores[team] - 75 * burnt)
    && (1 - team in Announcements(s, r) <==> burnt > 0 && s.scores[team] - 75 * burnt < 1)
  }

  ghost predicate NodesTick(s: Battle, r: Battle, i: nat, diff: nat)
    requires NodesOk(s) && NodesOk(r) && i <= NODES
  {
    && r.mines == s.mines && r.scraps == s.scraps
    && (forall j :: 0 <= j < i ==> r.nodes[j] == s.nodes[j])
    && (forall j :: i <= j < NODES ==> NodeRule(s.nodes[j], r.nodes[j], j, Ticked(diff)))
    && s.ends <= r.ends && (forall w :: w in Announcements(s, r) ==> w < 2)
    && (r.running <==> s.running && r.ends == s.ends)
    && TeamTicks(s, r, BurntFrom(s.nodes, i, diff, ALLIANCE), ALLIANCE)
    && TeamTicks(s, r, BurntFrom(s.nodes, i, diff, HORDE), HORDE)
    && SameCaptains(s, r) && Marshals(s, r, i, diff)
  }

  predicate SameCaptains(s: Battle, r: Battle) {
    CaptainDead(r.active, ALLIANCE) == CaptainDead(s.active, ALLIANCE)
      && CaptainDead(r.active, HORDE) == CaptainDead(s.active, HORDE)
  }

  predicate Burning(n: Node, diff: nat) {
    Burns(n, diff, ALLIANCE) || Burns(n, diff, HORDE)
  }

  lemma {:induction false} BurntAgrees(nodes: seq<Node>, nodes': seq<Node>, i: nat, diff: nat, team: nat)
    requires i <= |nodes| == |nodes'| && forall j :: i <= j < |nodes| ==> nodes'[j] == nodes[j]
    ensures BurntFrom(nodes', i, diff, team) == BurntFrom(nodes, i, diff, team)
    decreases |nodes| - i
  {
    if i == |nodes| {
    } else {
      BurntAgrees(nodes, nodes', i + 1, diff, team);
    }
  }

  /** A team has paid for a tower, and the tower's marshal is gone. */
  ghost predicate Burnt(s: Battle, r: Battle, i: nat, team: nat, left: int)
    requires team < 2 && |s.scores| == |r.scores| == 2
  {
    && r.nodes == s.nodes && r.mines == s.mines && r.scraps == s.scraps
    && r.scores[1 - team] == s.scores[1 - team]
    && (if left < 1 then r.scores[team] == 0 && r.ends == s.ends + [1 - team] && !r.running
        else r.scores[team] == left && r.ends == s.ends && r.running == s.running)
    && !MarshalStands(r.active, i)
    && (forall e :: e >= MARSHALS && e != 45 + i ==> (e in r.active <==> e in s.active) && (e in s.active ==> r.active[e] == s.active[e]))
  }

  /** A tower burns at the cost of the team that had it until then. */
  lemma BurnEffect(s: Battle, i: nat, team: nat, left: int)
    requires NodesOk(s) && FIRST_TOWER <= i < NODES && s.nodes[i].tower && s.nodes[i].owner == 1 - team
    requires team < 2 && left == s.scores[team] - 75
    ensures Burnt(s, Burn(s, i), i, team, left)
  {
    assert Channel(MARSHALS + i - FIRST_TOWER);
    ScoreEffect(SpawnEvent(s, MARSHALS + i - FIRST_TOWER, 0, false), team, -RES_TOWER, left);
  }

  lemma TakeNodeEffect(s: Battle, i: nat)
    requires NodesOk(s) && i < NODES && s.nodes[i].state == ASSAULTED
    ensures
      var r := TakeNode(s, i);
      var n := s.nodes[i];
      && r.nodes == s.nodes[i := Node(n.owner, n.owner, n.owner, CONTROLLED, ASSAULTED, 0, n.tower)] && NodesOnly(s, r)
  {
    NodeStepEffect(s, i, DestroyNode(s.nodes[i]));
  }

  /** What one node's turn in a tick does. */
  ghost predicate NodeTicks(s: Battle, r: Battle, i: nat, diff: nat)
    requires NodesOk(s) && NodesOk(r) && i < NODES
  {
    && r.mines == s.mines && r.scraps == s.scraps
    && r.nodes == s.nodes[i := r.nodes[i]] && NodeRule(s.nodes[i], r.nodes[i], i, Ticked(diff))
    && s.ends <= r.ends && (forall w :: w in Announcements(s, r) ==> w < 2)
    && (r.running <==> s.running && r.ends == s.ends)
    && TeamTicks(s, r, BurntIn(s.nodes[i], diff, ALLIANCE), ALLIANCE)
    && TeamTicks(s, r, BurntIn(s.nodes[i], diff, HORDE), HORDE)
    && SameCaptains(s, r)
    && (forall j :: FIRST_TOWER <= j < NODES ==>
          MarshalStands(r.active, j) == (MarshalStands(s.active, j) && !(j == i && Burning(s.nodes[i], diff))))
  }

  /** A tower burns: the step to it costs its team 75, and the other team pays nothing. */
  lemma TowerTicks(s: Battle, r1: Battle, r: Battle, i: nat, diff: nat, team: nat, left: int)
    requires NodesOk(s) && NodesOk(r1) && NodesOk(r) && FIRST_TOWER <= i < NODES && team < 2
             && left == s.scores[team] - 75
    requires Burns(s.nodes[i], diff, team) && s.scores[1 - team] >= 0
             && NodeRule(s.nodes[i], r.nodes[i], i, Ticked(diff))
    requires NodesOnly(s, r1) && r1.nodes == s.nodes[i := r.nodes[i]] && Burnt(r1, r, i, team, left)
    ensures NodeTicks(s, r, i, diff)
  {
    if left < 1 {
      assert Announcements(s, r) == [1 - team];
    }
  }

  lemma TowerEffect(s: Battle, i: nat, diff: nat, team: nat, left: int)
    requires NodesOk(s) && FIRST_TOWER <= i < NODES && team < 2 && left == s.scores[team] - 75
             && s.scores[1 - team] >= 0
    requires Burns(s.nodes[i], diff, team) && s.nodes[i].owner == 1 - team
    ensures NodeTicks(s, UpdateNode(s, i, diff), i, diff)
  {
    var r1 := TakeNode(s, i);
    TakeNodeEffect(s, i);
    BurnEffect(r1, i, team, left);
    TowerTicks(s, r1, Burn(r1, i), i, diff, team, left);
    assert UpdateNode(s, i, diff) == Burn(r1, i);
  }

  /** A graveyard changes hands, and nobody pays. */
  lemma GraveEffect(s: Battle, i: nat, diff: nat)
    requires NodesOk(s) && i < NODES && s.scores[ALLIANCE] >= 0 && s.scores[HORDE] >= 0
    requires s.nodes[i].state == ASSAULTED && s.nodes[i].timer <= diff && !s.nodes[i].tower
    ensures NodeTicks(s, UpdateNode(s, i, diff), i, diff)
  {
    TakeNodeEffect(s, i);
    assert UpdateNode(s, i, diff) == TakeNode(s, i);
  }

  lemma UpdateNodeEffect(s: Battle, i: nat, diff: nat)
    requires NodesOk(s) && i < NODES && s.scores[ALLIANCE] >= 0 && s.scores[HORDE] >= 0
    ensures NodeTicks(s, UpdateNode(s, i, diff), i, diff)
  {
    var n := s.nodes[i];
    assert NodeOk(n, i);
    if n.state == CONTROLLED || diff < n.timer {
      assert !Burning(n, diff);
    } else if n.tower {
      TowerEffect(s, i, diff, n.totalOwner, s.scores[n.totalOwner] - 75);
    } else {
      GraveEffect(s, i, diff);
    }
  }

  lemma TeamTicksAdd(s: Battle, r1: Battle, r: Battle, one: nat, rest: nat, team: nat)
    requires team < 2 && |s.scores| == |r1.scores| == |r.scores| == 2 && s.scores[team] >= 0
    requires s.ends <= r1.ends <= r.ends
    requires TeamTicks(s, r1, one, team) && TeamTicks(r1, r, rest, team)
    ensures TeamTicks(s, r, one + rest, team)
  {
    assert Announcements(s, r) == Announcements(s, r1) + Announcements(r1, r);
  }

  /** The cost of one node and of those after it. */
  lemma TeamTickAdd(s: Battle, r1: Battle, r: Battle, i: nat, diff: nat, team: nat)
    requires |s.nodes| == |r1.nodes| == NODES && i < NODES && |s.scores| == |r1.scores| == |r.scores| == 2
    requires team < 2 && s.scores[team] >= 0 && s.ends <= r1.ends <= r.ends && r1.nodes == s.nodes[i := r1.nodes[i]]
    requires TeamTicks(s, r1, BurntIn(s.nodes[i], diff, team), team)
    requires TeamTicks(r1, r, BurntFrom(r1.nodes, i + 1, diff, team), team)
    ensures TeamTicks(s, r, BurntFrom(s.nodes, i, diff, team), team)
  {
    BurntAgrees(s.nodes, r1.nodes, i + 1, diff, team);
    TeamTicksAdd(s, r1, r, BurntIn(s.nodes[i], diff, team), BurntFrom(s.nodes, i + 1, diff, team), team);
  }

  lemma NodesTickAdd(s: Battle, r1: Battle, r: Battle, i: nat, diff: nat)
    requires NodesOk(s) && NodesOk(r1) && NodesOk(r) && i < NODES && s.scores[ALLIANCE] >= 0 && s.scores[HORDE] >= 0
    requires NodeTicks(s, r1, i, diff) && NodesTick(r1, r, i + 1, diff)
    ensures NodesTick(s, r, i, diff)
  {
    TeamTickAdd(s, r1, r, i, diff, ALLIANCE);
    TeamTickAdd(s, r1, r, i, diff, HORDE);
    assert Announcements(s, r) == Announcements(s, r1) + Announcements(r1, r);
    MarshalsAdd(s, r1, r, i, diff);
  }

  /** Marshals fall with their towers, from a node on. */
  ghost predicate Marshals(s: Battle, r: Battle, i: nat, diff: nat)
    requires |s.nodes| == NODES
  {
    forall j :: FIRST_TOWER <= j < NODES ==>
      MarshalStands(r.active, j) == (MarshalStands(s.active, j) && !(j >= i && Burning(s.nodes[j], diff)))
  }

  lemma MarshalsAdd(s: Battle, r1: Battle, r: Battle, i: nat, diff: nat)
    requires |s.nodes| == |r1.nodes| == NODES && i < NODES && r1.nodes == s.nodes[i := r1.nodes[i]]
    requires forall j :: FIRST_TOWER <= j < NODES ==>
               MarshalStands(r1.active, j) == (MarshalStands(s.active, j) && !(j == i && Burning(s.nodes[i], diff)))
    requires Marshals(r1, r, i + 1, diff)
    ensures Marshals(s, r, i, diff)
  {
  }

  lemma {:induction false} UpdateNodesEffect(s: Battle, i: nat, diff: nat)
    requires NodesOk(s) && i <= NODES && s.scores[ALLIANCE] >= 0 && s.scores[HORDE] >= 0
    ensures NodesTick(s, UpdateNodes(s, i, diff), i, diff)
    decreases NODES - i
  {
    if i == NODES {
    } else {
      UpdateNodeEffect(s, i, diff);
      UpdateNodesEffect(UpdateNode(s, i, diff), i + 1, diff);
      NodesTickAdd(s, UpdateNode(s, i, diff), UpdateNodes(s, i, diff), i, diff);
    }
  }

  /** One mine has had its turn in a tick. */
  ghost predicate MineTicks(s: Battle, r: Battle, m: nat, diff: nat)
    requires NodesOk(s) && NodesOk(r) && m < 2
  {
    && r.nodes == s.nodes && r.scraps == s.scraps && r.ends == s.ends && r.running == s.running
    && r.mines[1 - m] == s.mines[1 - m] && MineRule(s.mines[m], r.mines[m], m, Ticked(diff))
    && r.scores[ALLIANCE] == s.scores[ALLIANCE] + (if Pays(s.mines[m], diff, ALLIANCE) then 1 else 0)
    && r.scores[HORDE] == s.scores[HORDE] + (if Pays(s.mines[m], diff, HORDE) then 1 else 0)
    && SameGuardians(s, r)
  }

  ghost predicate SameGuardians(s: Battle, r: Battle) {
    forall e :: e >= MARSHALS ==> (e in r.active <==> e in s.active) && (e in s.active ==> r.active[e] == s.active[e])
  }

  lemma PayMineEffect(s: Battle, m: nat, diff: nat, timer: int)
    requires NodesOk(s) && m < 2 && s.mines[m].owner != NEUTRAL && timer == s.mines[m].timer - diff
    ensures
      var r := PayMine(s, m, diff);
      && r.nodes == s.nodes && r.scraps == s.scraps && r.ends == s.ends && r.running == s.running
      && r.active == s.active
      && r.mines == s.mines[m := s.mines[m].(timer := if timer <= 0 then 45000 else timer)]
      && r.scores[ALLIANCE] == s.scores[ALLIANCE] + (if Pays(s.mines[m], diff, ALLIANCE) then 1 else 0)
      && r.scores[HORDE] == s.scores[HORDE] + (if Pays(s.mines[m], diff, HORDE) then 1 else 0)
  {
    ScoreEffect(s, s.mines[m].owner, 1, s.scores[s.mines[m].owner] + 1);
  }

  lemma UpdateMineEffect(s: Battle, m: nat, diff: nat)
    requires NodesOk(s) && m < 2
    ensures MineTicks(s, UpdateMine(s, m, diff), m, diff)
  {
    if s.mines[m].owner != NEUTRAL {
      PayMineEffect(s, m, diff, s.mines[m].timer - diff);
      if s.mines[m].reclaim <= diff {
        ChangeMineOwnerEffect(PayMine(s, m, diff), m, NEUTRAL);
      }
    }
  }

  /** A general's death ends the battle for the other team. */
  lemma GeneralRules(s: Battle, r: Battle, killer: nat, team: nat, winner: nat, e: Event)
    requires NodesOk(s) && EndOk(s) && s.running && NodesOk(r) && killer < 2 && team < 2 && winner == 1 - team
    requires e == UnitKilled(61 + team, killer) && r == s.(ends := s.ends + [winner], running := false)
    ensures Rules(s, e, r)
  {
    assert Channel(63) && Channel(64);
    assert Announcements(s, r) == [winner];
    assert !GeneralFalls(e, winner) && GeneralFalls(e, team);
    GeneralCosts(s, e, team);
  }

  lemma GeneralCosts(s: Battle, e: Event, team: nat)
    requires NodesOk(s) && team < 2 && e.UnitKilled? && e.event1 == 61 + team
    ensures Due(s, e, ALLIANCE) == s.scores[ALLIANCE] && Due(s, e, HORDE) == s.scores[HORDE]
  {
    assert Channel(63) && Channel(64);
  }

  lemma KillGeneralEffect(s: Battle, killer: nat, team: nat, winner: nat)
    requires Ok(s) && s.running && killer < 2 && team < 2 && winner == 1 - team
    ensures Rules(s, UnitKilled(61 + team, killer), KillUnit(s, 61 + team, killer))
  {
    GeneralRules(s, EndBattle(s, winner), killer, team, winner, UnitKilled(61 + team, killer));
  }

  /** A captain has fallen for the first time. */
  lemma CaptainRules(s: Battle, r: Battle, killer: nat, team: nat, left: int)
    requires NodesOk(s) && EndOk(s) && s.running && NodesOk(r) && killer < 2 && team < 2 && left == s.scores[team] - 100
    requires CaptainFalls(s, UnitKilled(48 + team, killer), team)
    requires r.nodes == s.nodes && r.mines == s.mines && r.scraps == s.scraps
             && r.scores[1 - team] == s.scores[1 - team]
    requires if left < 1 then r.scores[team] == 0 && r.ends == s.ends + [1 - team] && !r.running
             else r.scores[team] == left && r.ends == s.ends && r.running
    requires r.active == s.active[63 + team := 0]
    ensures Rules(s, UnitKilled(48 + team, killer), r)
  {
    if left < 1 {
      assert Announcements(s, r) == [1 - team];
    }
  }

  lemma KillCaptainEffect(s: Battle, killer: nat, team: nat)
    requires Ok(s) && s.running && killer < 2 && team < 2
    ensures Rules(s, UnitKilled(48 + team, killer), KillUnit(s, 48 + team, killer))
  {
    if CaptainFalls(s, UnitKilled(48 + team, killer), team) {
      ScoreEffect(s, team, -100, s.scores[team] - 100);
      CaptainRules(s, KillCaptain(s, team), killer, team, s.scores[team] - 100);
    } else {
      DeadCaptainRules(s, killer, team, UnitKilled(48 + team, killer));
    }
  }

  /** Nobody pays for a captain twice. */
  lemma DeadCaptainRules(s: Battle, killer: nat, team: nat, e: Event)
    requires NodesOk(s) && EndOk(s) && s.running && killer < 2 && team < 2 && e == UnitKilled(48 + team, killer)
    requires !CaptainFalls(s, e, team)
    ensures Rules(s, e, s)
  {
    assert Channel(63) && Channel(64);
  }

  lemma ChangeMineOwnerEffect(s: Battle, m: nat, team: nat)
    requires NodesOk(s) && m < 2 && team < 3
    ensures
      var r := ChangeMineOwner(s, m, team);
      var mine := s.mines[m];
      && r.mines == s.mines[m := if mine.owner == team then mine.(timer := 45000)
                                 else Mine(team, mine.owner, 45000, if team == NEUTRAL then mine.reclaim else 1200000)]
      && r.nodes == s.nodes && r.scraps == s.scraps && r.scores == s.scores && r.ends == s.ends
      && r.running == s.running
      && SameGuardians(s, r)
  {
    assert Channel(MINE_EVENT + m) && Channel(MINE_BOSSES + m);
  }

  /** Teams are the Alliance and the Horde; an event of anybody else changes nothing. */
  predicate OfNobody(e: Event) {
    match e
    case Clicked(_, _, team) => team >= 2
    case PlayerKilled(team) => team >= 2
    case UnitKilled(_, killer) => killer >= 2
    case ScrapsTurnedIn(team) => team >= 2
    case Ticked(_) => false
  }

  lemma NobodyRules(s: Battle, e: Event)
    requires NodesOk(s) && EndOk(s) && s.running && OfNobody(e)
    ensures Rules(s, e, s)
  {
  }

  /** Events that cost nobody anything. */
  predicate Free(e: Event) {
    e.Clicked? || e.ScrapsTurnedIn? || (e.UnitKilled? && (e.event1 < 48 || 49 < e.event1) && (e.event1 < 61 || 62 < e.event1))
  }

  lemma FreeRules(s: Battle, r: Battle, e: Event)
    requires NodesOk(s) && EndOk(s) && s.running && NodesOk(r) && Free(e)
    requires r.scores == s.scores && r.ends == s.ends && r.running && SameGuardians(s, r)
    requires forall i :: 0 <= i < NODES ==> NodeRule(s.nodes[i], r.nodes[i], i, e)
    requires MineRule(s.mines[0], r.mines[0], 0, e) && MineRule(s.mines[1], r.mines[1], 1, e)
    requires forall t :: 0 <= t < 2 ==> r.scraps[t] == s.scraps[t] + if e == ScrapsTurnedIn(t) then 20 else 0
    ensures Rules(s, e, r)
  {
  }

  lemma KillMineBossEffect(s: Battle, killer: nat, m: nat, e: Event)
    requires Ok(s) && s.running && killer < 2 && m < 2 && e == UnitKilled(46 + m, killer)
    ensures Rules(s, e, KillUnit(s, 46 + m, killer))
  {
    ChangeMineOwnerEffect(s, m, killer);
    FreeRules(s, ChangeMineOwner(s, m, killer), e);
  }

  lemma KillUnitEffect(s: Battle, event1: nat, killer: nat)
    requires Ok(s) && s.running && killer < 2
    ensures Rules(s, UnitKilled(event1, killer), KillUnit(s, event1, killer))
  {
    if 46 <= event1 < 48 {
      KillMineBossEffect(s, killer, event1 - 46, UnitKilled(event1, killer));
    } else if 48 <= event1 < 50 {
      KillCaptainEffect(s, killer, event1 - 48);
    } else if 61 <= event1 < 63 {
      KillGeneralEffect(s, killer, event1 - 61, 62 - event1);
    } else {
      FreeRules(s, s, UnitKilled(event1, killer));
    }
  }

  /** Both mines have had their turn. */
  ghost predicate MinesTick(s: Battle, r: Battle, diff: nat)
    requires NodesOk(s) && NodesOk(r)
  {
    && r.nodes == s.nodes && r.scraps == s.scraps && r.ends == s.ends && r.running == s.running
    && MineRule(s.mines[0], r.mines[0], 0, Ticked(diff)) && MineRule(s.mines[1], r.mines[1], 1, Ticked(diff))
    && r.scores[ALLIANCE] == s.scores[ALLIANCE] + Gain(s, Ticked(diff), ALLIANCE)
    && r.scores[HORDE] == s.scores[HORDE] + Gain(s, Ticked(diff), HORDE)
    && SameGuardians(s, r)
  }

  lemma MinesTickAdd(s: Battle, r1: Battle, r: Battle, diff: nat)
    requires NodesOk(s) && NodesOk(r1) && NodesOk(r) && MineTicks(s, r1, 0, diff) && MineTicks(r1, r, 1, diff)
    ensures MinesTick(s, r, diff)
  {
  }

  lemma UpdateMinesEffect(s: Battle, diff: nat)
    requires NodesOk(s)
    ensures MinesTick(s, UpdateMine(UpdateMine(s, 0, diff), 1, diff), diff)
  {
    UpdateMineEffect(s, 0, diff);
    UpdateMineEffect(UpdateMine(s, 0, diff), 1, diff);
    MinesTickAdd(s, UpdateMine(s, 0, diff), UpdateMine(UpdateMine(s, 0, diff), 1, diff), diff);
  }

  /** The towers and mines of a tick together. */
  lemma TickWins(s: Battle, r1: Battle, r: Battle, diff: nat, e: Event, w: nat)
    requires NodesOk(s) && s.running && EndOk(s) && NodesOk(r1) && NodesOk(r) && MinesTick(s, r1, diff)
             && NodesTick(r1, r, 0, diff)
    requires e == Ticked(diff)
    ensures w in Announcements(r1, r) <==> Wins(s, e, w)
  {
    if w < 2 {
      assert TeamTicks(r1, r, BurntFrom(r1.nodes, 0, diff, 1 - w), 1 - w);
      assert Due(s, e, 1 - w) == r1.scores[1 - w] - 75 * BurntFrom(r1.nodes, 0, diff, 1 - w);
    }
  }

  lemma TickGuardians(s: Battle, r1: Battle, r: Battle, diff: nat, e: Event)
    requires NodesOk(s) && NodesOk(r1) && NodesOk(r) && MinesTick(s, r1, diff) && NodesTick(r1, r, 0, diff)
    requires e == Ticked(diff)
    ensures Guardians(s, e, r)
  {
  }

  lemma TickRules(s: Battle, r1: Battle, r: Battle, diff: nat, e: Event)
    requires NodesOk(s) && EndOk(s) && s.running && NodesOk(r1) && NodesOk(r) && MinesTick(s, r1, diff)
             && NodesTick(r1, r, 0, diff)
    requires e == Ticked(diff)
    ensures Rules(s, e, r)
  {
    TickGuardians(s, r1, r, diff, e);
    assert Announcements(s, r) == Announcements(r1, r);
    forall w ensures w in Announcements(r1, r) <==> Wins(s, e, w) {
      TickWins(s, r1, r, diff, e, w);
    }
  }

  lemma UpdateEffect(s: Battle, diff: nat)
    requires Ok(s) && s.running
    ensures Rules(s, Ticked(diff), Update(s, diff))
  {
    var r1 := UpdateMine(UpdateMine(s, 0, diff), 1, diff);
    UpdateMinesEffect(s, diff);
    UpdateNodesEffect(r1, 0, diff);
    TickRules(s, r1, UpdateNodes(r1, 0, diff), diff, Ticked(diff));
  }

  lemma PlayerRules(s: Battle, team: nat)
    requires Ok(s) && s.running && team < 2
    ensures Rules(s, PlayerKilled(team), KillPlayer(s, team))
  {
    assert Channel(63) && Channel(64);
    ScoreEffect(s, team, -1, s.scores[team] - 1);
    if s.scores[team] == 1 {
      assert Announcements(s, KillPlayer(s, team)) == [1 - team];
    }
  }

  lemma ScrapsEffect(s: Battle, team: nat)
    requires NodesOk(s) && s.running && team < 2
    ensures
      var r := TurnInScraps(s, team);
      && r.nodes == s.nodes && r.mines == s.mines && r.scores == s.scores && r.ends == s.ends && r.running == s.running
      && r.scraps == s.scraps[team := s.scraps[team] + 20] && SameGuardians(s, r)
  {
    UpgradeKeeps(s.active, s.nodes, s.scraps[team := s.scraps[team] + 20], team, 0);
  }

  /** Upgrades are for graveyards. */
  lemma {:induction false} UpgradeKeeps(active: map<nat, nat>, nodes: seq<Node>, scraps: seq<nat>, team: nat, i: nat)
    requires |nodes| == NODES && |scraps| == 2 && team < 2 && i <= FIRST_TOWER && Announced(active)
    ensures forall e :: e >= MARSHALS && e in active ==> e in Upgrade(active, nodes, scraps, team, i) && Upgrade(active, nodes, scraps, team, i)[e] == active[e]
    decreases FIRST_TOWER - i
  {
    if i == FIRST_TOWER {
    } else {
      assert Channel(i) && Channel(NODES + i);
      if nodes[i].owner == team && nodes[i].state == CONTROLLED {
        UpgradeKeeps(Populated(active, i, nodes[i], scraps), nodes, scraps, team, i + 1);
      } else {
        UpgradeKeeps(active, nodes, scraps, team, i + 1);
      }
    }
  }

  lemma ClickedRules(s: Battle, i: nat, state: nat, team: nat, e: Event)
    requires Ok(s) && s.running && team < 2 && e == Clicked(i, state, team)
    ensures Rules(s, e, ClickedOnFlag(s, i, state, team))
  {
    if i < NODES {
      ClickedEffect(s, i, state, team);
    }
    FreeRules(s, ClickedOnFlag(s, i, state, team), e);
  }

  /** Every event of a battle that is on keeps to the rules. */
  lemma ApplyRules(s: Battle, e: Event)
    requires Ok(s) && s.running
    ensures Rules(s, e, Apply(s, e))
  {
    if OfNobody(e) {
      NobodyRules(s, e);
    } else {
      match e {
        case Clicked(node, state, team) => ClickedRules(s, node, state, team, e);
        case PlayerKilled(team) => PlayerRules(s, team);
        case UnitKilled(event1, killer) => KillUnitEffect(s, event1, killer);
        case ScrapsTurnedIn(team) =>
          ScrapsEffect(s, team);
          FreeRules(s, TurnInScraps(s, team), e);
        case Ticked(diff) => UpdateEffect(s, diff);
      }
    }
  }

  // ----- whole battles -----

  /** When the battle is over nothing moves any more. */
  lemma {:induction false} OverIsOver(s: Battle, es: seq<Event>)
    requires NodesOk(s) && !s.running
    ensures Run(s, es) == s
    decreases |es|
  {
    if es == [] {
    } else {
      OverIsOver(Apply(s, es[0]), es[1..]);
    }
  }

  lemma StillOn(s: Battle, es: seq<Event>)
    requires NodesOk(s) && Run(s, es).running && es != []
    ensures s.running && Apply(s, es[0]).running
  {
    if !s.running {
      OverIsOver(s, es);
    } else if !Apply(s, es[0]).running {
      OverIsOver(Apply(s, es[0]), es[1..]);
    }
  }

  ghost predicate WonInRun(s: Battle, es: seq<Event>, w: nat)
    requires NodesOk(s)
    decreases |es|
  {
    es != [] && (Wins(s, es[0], w) || WonInRun(Apply(s, es[0]), es[1..], w))
  }

  /** The winners of a battle are those who killed the enemy general, or whose enemy ran out of
      reinforcements, while the battle was on; and all of those. */
  lemma {:induction false} RunWinners(s: Battle, es: seq<Event>, w: nat)
    requires Ok(s)
    ensures w in Run(s, es).ends <==> w in s.ends || WonInRun(s, es, w)
    decreases |es|
  {
    if es == [] {
    } else {
      var s1 := Apply(s, es[0]);
      ApplyOk(s, es[0]);
      if s.running {
        ApplyRules(s, es[0]);
        assert s1.ends == s.ends + Announcements(s, s1);
      }
      RunWinners(s1, es[1..], w);
    }
  }

  /** A team without reinforcements has lost. */
  predicate BeatenLost(s: Battle)
    requires |s.scores| == 2
  {
    && s.scores[ALLIANCE] >= 0 && s.scores[HORDE] >= 0
    && (s.scores[ALLIANCE] == 0 ==> HORDE in s.ends) && (s.scores[HORDE] == 0 ==> ALLIANCE in s.ends)
  }

  lemma {:induction false} RunBeaten(s: Battle, es: seq<Event>)
    requires Ok(s) && BeatenLost(s)
    ensures BeatenLost(Run(s, es))
    decreases |es|
  {
    if es == [] {
    } else {
      var s1 := Apply(s, es[0]);
      ApplyOk(s, es[0]);
      if s.running {
        ApplyRules(s, es[0]);
        assert s1.ends == s.ends + Announcements(s, s1);
        assert s1.scores[ALLIANCE] == 0 ==> Wins(s, es[0], HORDE);
        assert s1.scores[HORDE] == 0 ==> Wins(s, es[0], ALLIANCE);
      }
      RunBeaten(s1, es[1..]);
    }
  }

  /** What a team gained and lost over a run. */
  function Balance(s: Battle, es: seq<Event>, team: nat): int
    requires NodesOk(s) && team < 2
    decreases |es|
  {
    if es == [] then 0 else Gain(s, es[0], team) - Loss(s, es[0], team) + Balance(Apply(s, es[0]), es[1..], team)
  }

  lemma StepBalance(s: Battle, e: Event, team: nat)
    requires Ok(s) && s.running && Apply(s, e).running && team < 2
    ensures Ok(Apply(s, e)) && Apply(s, e).scores[team] == Due(s, e, team)
  {
    ApplyOk(s, e);
    ApplyRules(s, e);
    RulesBalance(s, e, Apply(s, e), team, 1 - team);
  }

  /** Nobody has won, so nothing was cut off. */
  lemma RulesBalance(s: Battle, e: Event, r: Battle, team: nat, other: nat)
    requires NodesOk(s) && NodesOk(r) && s.running && r.running && team < 2 && other == 1 - team && Rules(s, e, r)
    ensures r.scores[team] == Due(s, e, team)
  {
    assert !Wins(s, e, other);
  }

  /** While the battle is on, the reinforcements of a team are what it began with, what its mines
      paid, and less its dead, its captain and its towers. */
  lemma {:induction false} RunBalance(s: Battle, es: seq<Event>, team: nat)
    requires Ok(s) && team < 2 && Run(s, es).running
    ensures Run(s, es).scores[team] == s.scores[team] + Balance(s, es, team)
    decreases |es|
  {
    if es == [] {
    } else {
      StillOn(s, es);
      StepBalance(s, es[0], team);
      RunBalance(Apply(s, es[0]), es[1..], team);
    }
  }

  /** A captain is paid for once. */
  lemma {:induction false} CaptainStaysDead(s: Battle, es: seq<Event>, team: nat)
    requires Ok(s) && team < 2 && CaptainDead(s.active, team)
    ensures CaptainDead(Run(s, es).active, team)
    decreases |es|
  {
    if es == [] {
    } else {
      ApplyOk(s, es[0]);
      if s.running {
        ApplyRules(s, es[0]);
      }
      CaptainStaysDead(Apply(s, es[0]), es[1..], team);
    }
  }

  function Elapsed(es: seq<Event>): nat {
    if es == [] then 0 else (if es[0].Ticked? then es[0].diff else 0) + Elapsed(es[1..])
  }

  /** Nobody uses a banner of the node. */
  predicate LeftAlone(es: seq<Event>, i: nat) {
    es == [] || (!(es[0].Clicked? && es[0].node == i) && LeftAlone(es[1..], i))
  }

  /** A node that is left alone for a while. */
  function Fate(n: Node, elapsed: nat): Node {
    if n.state == CONTROLLED then n
    else if elapsed < n.timer then n.(timer := n.timer - elapsed)
    else Node(n.owner, n.owner, n.owner, CONTROLLED, ASSAULTED, 0, n.tower)
  }

  lemma StepFate(s: Battle, e: Event, i: nat, elapsed: nat)
    requires Ok(s) && s.running && i < NODES && !(e.Clicked? && e.node == i)
    ensures Ok(Apply(s, e))
    ensures Fate(Apply(s, e).nodes[i], elapsed) == Fate(s.nodes[i], if e.Ticked? then e.diff + elapsed else elapsed)
  {
    ApplyOk(s, e);
    ApplyRules(s, e);
    RuleFate(s.nodes[i], Apply(s, e).nodes[i], i, e, elapsed);
  }

  lemma RuleFate(n: Node, n': Node, i: nat, e: Event, elapsed: nat)
    requires NodeOk(n, i) && NodeRule(n, n', i, e) && !(e.Clicked? && e.node == i)
    ensures Fate(n', elapsed) == Fate(n, if e.Ticked? then e.diff + elapsed else elapsed)
  {
  }

  /** An assaulted node that is left alone falls to its attacker when its time is up, and not
      before; a controlled one stays. */
  lemma {:induction false} NodeFate(s: Battle, es: seq<Event>, i: nat)
    requires Ok(s) && Run(s, es).running && i < NODES && LeftAlone(es, i)
    ensures Run(s, es).nodes[i] == Fate(s.nodes[i], Elapsed(es))
    decreases |es|
  {
    if es == [] {
      assert NodeOk(s.nodes[i], i);
    } else {
      StillOn(s, es);
      StepFate(s, es[0], i, Elapsed(es[1..]));
      NodeFate(Apply(s, es[0]), es[1..], i);
    }
  }

  /** The defenders of a graveyard leave at an assault exactly when its attacker has turned in
      scraps for the same tier: their event is looked up by the attacker's scraps. */
  lemma DefendersLeaveIff(s: Battle, i: nat, team: nat)
    requires Ok(s) && i < FIRST_TOWER && team < 2 && s.nodes[i].state == CONTROLLED && s.nodes[i].owner == 1 - team
    ensures
      var before, after := s.active, AssaultsPoint(s, i, team).active;
      && 15 + i in before && 15 + i in after && before[15 + i] == s.nodes[i].owner * 4 + Tier(s.scraps[1 - team])
      && after[15 + i] == if Tier(s.scraps[team]) == Tier(s.scraps[1 - team]) then Ev.EVENT_NONE else before[15 + i]
  {
    assert Guarded(s.nodes[i], i, s.scraps, s.active);
  }

  /** What is active in a battle in order: a node's event is twice its owner and its state, defenders
      come by fours for each team, and a mine works for its owner. */
  lemma ChannelsAre(s: Battle, i: nat, m: nat)
    requires Ok(s) && i < NODES && m < 2
    ensures i in s.active && s.active[i] == 2 * s.nodes[i].owner + s.nodes[i].state
    ensures i < 7 && s.nodes[i].state == CONTROLLED && s.nodes[i].owner != NEUTRAL ==>
              15 + i in s.active && s.active[15 + i] == 4 * s.nodes[i].owner + Tier(s.scraps[s.nodes[i].owner])
    ensures 50 + m in s.active && s.active[50 + m] == s.mines[m].owner
    ensures 46 + m in s.active && s.active[46 + m] == s.mines[m].owner
  {
    assert NodeOk(s.nodes[i], i);
    if i < 7 {
      assert Guarded(s.nodes[i], i, s.scraps, s.active);
    }
    assert Works(s.mines[m], m, s.active);
  }

  /** Defenders come in four tiers, for five hundred scraps each. */
  lemma TierIs(scraps: nat)
    ensures Tier(scraps) == (if scraps >= 500 then 1 else 0) + (if scraps >= 1000 then 1 else 0) + (if scraps >= 1500 then 1 else 0)
  {
  }

  /** How a battle begins. */
  lemma StartRules(client: map<nat, int>, i: nat)
    requires i < NODES
    ensures
      var s := Start(client);
      && s.scores == [600, 600] && s.scraps == [0, 0] && s.running && s.ends == []
      && s.mines[0].owner == NEUTRAL == s.mines[1].owner
      && s.nodes[i].state == CONTROLLED
      && (s.nodes[i].owner == ALLIANCE <==> i in {0, 1, 2, 7, 8, 9, 10}) && (s.nodes[i].owner == NEUTRAL <==> i == 3)
      && !CaptainDead(s.active, ALLIANCE) && !CaptainDead(s.active, HORDE) && (i >= FIRST_TOWER ==> MarshalStands(s.active, i))
  {
    var s := Start(client);
    assert Channel(63) && Channel(64) && (i >= FIRST_TOWER ==> Channel(45 + i));
    assert s.nodes[i] == StartNode(i);
  }
}
