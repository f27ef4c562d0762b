/** Arathi Basin (src/game/BattleGroundAB.cpp): five nodes that are contested and occupied, whose
    banners follow with a delay, and resources that come in ticks. */
module BattleGroundAB {
  import opened WorldStates
  import Ev = BattleGroundEvents

  const NODES: nat := 5
  const NEUTRAL: nat := 0
  const CONTESTED: nat := 1
  const OCCUPIED: nat := 3

  const CAPTURING_TIME: nat := 60000
  const BANNER_DELAY: nat := 2000
  const MAX_TEAM_SCORE: nat := 1600
  const DISADVANTAGE: nat := 500

  /** How often so many occupied nodes pay, and how much. */
  const TICK_INTERVALS: seq<nat> := [0, 12000, 9000, 6000, 3000, 1000]
  const TICK_POINTS: seq<nat> := [0, 10, 10, 10, 10, 30]

  /** A banner that waits to be put up; without a running timer there is none. */
  datatype Banner = Banner(timer: nat, kind: nat, team: nat)

  datatype Icon = Plain(node: nat) | State(node: nat, status: nat) | Bases(team: nat) | Resources(team: nat)

  /** Points one team was given at one time. */
  datatype Tick = Tick(team: nat, points: nat)

  /** The battle. A node is 0 while neutral, 1 + team while contested, 3 + team while occupied.
      The client holds world states by number.
      The log holds every tick so far, and the rewards how often honor and reputation were paid. */
  datatype Battle = Battle(
    nodes: seq<nat>, prev: seq<nat>, timers: seq<nat>, banners: seq<Banner>,
    lastTick: seq<nat>, scores: seq<nat>, honor: seq<nat>, reputation: seq<nat>,
    honorRewards: seq<nat>, reputationRewards: seq<nat>, disadvantage: seq<bool>, log: seq<Tick>,
    honorTics: nat, reputationTics: nat,
    active: map<nat, nat>, ends: seq<nat>, running: bool, client: map<nat, int>)

  predicate Shaped(s: Battle) {
    && |s.nodes| == NODES && |s.prev| == NODES && |s.timers| == NODES && |s.banners| == NODES
    && |s.lastTick| == 2 && |s.scores| == 2 && |s.honor| == 2 && |s.reputation| == 2
    && |s.honorRewards| == 2 && |s.reputationRewards| == 2 && |s.disadvantage| == 2
    && (forall e :: 0 <= e < NODES ==> e in s.active && s.nodes[e] < NODES && s.prev[e] < NODES)
  }

  // ----- world states -----

  predicate Drawn(i: Icon) {
    match i
    case Plain(n) => n < NODES
    case State(n, k) => n < NODES && 0 < k < NODES
    case Bases(t) => t < 2
    case Resources(t) => t < 2
  }

  /** One entry for each node. */
  function Entry(node: nat, stables: nat, smith: nat, farm: nat, mill: nat, mine: nat): nat {
    if node == 0 then stables else if node == 1 then smith else if node == 2 then farm else if node == 3 then mill else mine
  }

  /** The number of each world state. */
  function Id(i: Icon): nat {
    match i
    case Plain(n) => Entry(n, 1842, 1846, 1845, 1844, 1843)
    case State(n, k) => Entry(n, 1767, 1782, 1772, 1792, 1787) + Entry(k, 0, 2, 3, 0, 1)
    case Bases(t) => if t == 0 then 1779 else 1778
    case Resources(t) => if t == 0 then 1776 else 1777
  }

  /** No two icons share a world state. */
  lemma IdInjective(i: Icon, j: Icon)
    requires Drawn(i) && Drawn(j) && Id(i) == Id(j)
    ensures i == j
  {
  }

  lemma TableInjective()
    ensures Injective(Table(Drawn, Id))
  {
    forall i, j ensures Apart(Table(Drawn, Id), i, j) {
      if Drawn(i) && Drawn(j) && Id(i) == Id(j) {
        IdInjective(i, j);
      }
    }
  }

  const TABLE: Numbering<Icon> := (TableInjective(); Table(Drawn, Id))

  /** Only icons that are drawn are ever sent. */
  function Send(s: Battle, i: Icon, v: int): Battle
    requires Drawn(i)
  {
    s.(client := Store(TABLE, s.client, i, v))
  }

  /** How many nodes a team occupies. */
  function Occupied(nodes: seq<nat>, team: nat): (n: nat)
    requires |nodes| == NODES
    ensures n < |TICK_INTERVALS|
  {
    (if nodes[0] == team + OCCUPIED then 1 else 0) + (if nodes[1] == team + OCCUPIED then 1 else 0)
    + (if nodes[2] == team + OCCUPIED then 1 else 0) + (if nodes[3] == team + OCCUPIED then 1 else 0)
    + (if nodes[4] == team + OCCUPIED then 1 else 0)
  }

  // ----- nodes -----

  predicate Contested(node: nat) {
    0 < node < OCCUPIED
  }

  /** What holds of every node: the timer runs exactly while the node is contested; a node
      contested out of occupation was the other team's; and the banner of the node's status
      is up, or the one that waits is the one of the node's status. */
  predicate NodeOk(node: nat, prev: nat, timer: nat, banner: Banner, event2: nat) {
    && node < NODES && prev < NODES
    && (timer != 0 <==> Contested(node))
    && (Contested(node) ==> prev == NEUTRAL || prev == OCCUPIED - node || prev == NODES - node)
    && (if banner.timer == 0 then event2 == node else banner.kind != NEUTRAL && banner.kind + banner.team == node)
  }

  predicate NodesOk(s: Battle) {
    Shaped(s) && forall i :: 0 <= i < NODES ==> NodeOk(s.nodes[i], s.prev[i], s.timers[i], s.banners[i], s.active[i])
  }

  /** Puts a banner up; other banners of the node come down. */
  function RaiseBanner(s: Battle, i: nat, kind: nat, team: nat): (r: Battle)
    requires Shaped(s) && i < NODES
    ensures Shaped(r)
  {
    s.(active := Ev.Switched(s.active, i, if kind == NEUTRAL then kind else kind + team, true))
  }

  function SendNodeUpdate(s: Battle, i: nat): (r: Battle)
    requires Shaped(s) && i < NODES && s.nodes[i] != NEUTRAL
    ensures r == s.(client := r.client)
  {
    var s1 := Send(s, if s.prev[i] != NEUTRAL then State(i, s.prev[i]) else Plain(i), 0);
    var s2 := Send(s1, State(i, s.nodes[i]), 1);
    Send(Send(s2, Bases(0), Occupied(s.nodes, 0)), Bases(1), Occupied(s.nodes, 1))
  }

  /** A node changes to contested or occupied by a team. */
  function Turn(s: Battle, i: nat, kind: nat, team: nat, timer: nat): (r: Battle)
    requires Shaped(s) && i < NODES && 0 < kind + team < NODES
    ensures Shaped(r)
  {
    SendNodeUpdate(
      s.(prev := s.prev[i := s.nodes[i]], nodes := s.nodes[i := kind + team],
         banners := s.banners[i := Banner(BANNER_DELAY, kind, team)], timers := s.timers[i := timer]), i)
  }

  predicate MayClick(node: nat, team: nat) {
    node == NEUTRAL || team == node % 2
  }

  function ClickedOnFlag(s: Battle, i: nat, team: nat): (r: Battle)
    requires Shaped(s) && team < 2
    ensures Shaped(r)
  {
    if !s.running || i >= NODES || !MayClick(s.nodes[i], team) then s
    else if s.nodes[i] == NEUTRAL then Turn(s, i, CONTESTED, team, CAPTURING_TIME)
    else if s.nodes[i] < OCCUPIED then
      if s.prev[i] < OCCUPIED then Turn(s, i, CONTESTED, team, CAPTURING_TIME)
      else Turn(s, i, OCCUPIED, team, 0)
    else Turn(s, i, CONTESTED, team, CAPTURING_TIME)
  }

  function UpdateBanner(s: Battle, i: nat, diff: nat): (r: Battle)
    requires Shaped(s) && i < NODES
    ensures Shaped(r)
  {
    var b := s.banners[i];
    if b.timer == 0 then s
    else if b.timer > diff then s.(banners := s.banners[i := b.(timer := b.timer - diff)])
    else RaiseBanner(s.(banners := s.banners[i := b.(timer := 0)]), i, b.kind, b.team)
  }

  /** One minute takes a node from contested to occupied. */
  function UpdateTimer(s: Battle, i: nat, diff: nat): (r: Battle)
    requires Shaped(s) && i < NODES && (s.timers[i] != 0 ==> Contested(s.nodes[i]))
    ensures Shaped(r)
  {
    if s.timers[i] == 0 then s
    else if s.timers[i] > diff then s.(timers := s.timers[i := s.timers[i] - diff])
    else Turn(s, i, OCCUPIED, s.nodes[i] - 1, 0)
  }

  function UpdateNode(s: Battle, i: nat, diff: nat): (r: Battle)
    requires Shaped(s) && i < NODES && (s.timers[i] != 0 ==> Contested(s.nodes[i]))
    ensures Shaped(r)
  {
    UpdateTimer(UpdateBanner(s, i, diff), i, diff)
  }

  function UpdateNodes(s: Battle, i: nat, diff: nat): (r: Battle)
    requires NodesOk(s) && i <= NODES
    ensures NodesOk(r)
    decreases NODES - i
  {
    if i == NODES then s
    else
      UpdateNodeOk(s, i, diff);
      UpdateNodes(UpdateNode(s, i, diff), i + 1, diff)
  }

  lemma UpdateNodesStep(s: Battle, i: nat, diff: nat)
    requires NodesOk(s) && i < NODES
    ensures NodesOk(UpdateNode(s, i, diff)) && UpdateNodes(s, i, diff) == UpdateNodes(UpdateNode(s, i, diff), i + 1, diff)
  {
    UpdateNodeOk(s, i, diff);
  }

  lemma TurnOk(s: Battle, i: nat, kind: nat, team: nat, timer: nat)
    requires NodesOk(s) && i < NODES && kind != NEUTRAL
    requires NodeOk(kind + team, s.nodes[i], timer, Banner(BANNER_DELAY, kind, team), s.active[i])
    ensures NodesOk(Turn(s, i, kind, team, timer))
  {
  }

  lemma UpdateBannerOk(s: Battle, i: nat, diff: nat)
    requires NodesOk(s) && i < NODES
    ensures NodesOk(UpdateBanner(s, i, diff))
  {
  }

  lemma TimerExpires(s: Battle, i: nat, diff: nat, team: nat)
    requires NodesOk(s) && i < NODES && 0 < s.timers[i] <= diff && s.nodes[i] == team + CONTESTED
    ensures NodesOk(UpdateTimer(s, i, diff))
  {
    TurnOk(s, i, OCCUPIED, team, 0);
  }

  lemma UpdateTimerOk(s: Battle, i: nat, diff: nat)
    requires NodesOk(s) && i < NODES
    ensures NodesOk(UpdateTimer(s, i, diff))
  {
    if 0 < s.timers[i] <= diff {
      TimerExpires(s, i, diff, s.nodes[i] - 1);
    }
  }

  lemma UpdateNodeOk(s: Battle, i: nat, diff: nat)
    requires NodesOk(s) && i < NODES
    ensures NodesOk(UpdateBanner(s, i, diff)) && NodesOk(UpdateNode(s, i, diff))
  {
    UpdateBannerOk(s, i, diff);
    UpdateTimerOk(UpdateBanner(s, i, diff), i, diff);
  }

  lemma ClickedOnFlagOk(s: Battle, i: nat, team: nat)
    requires NodesOk(s) && team < 2
    ensures NodesOk(ClickedOnFlag(s, i, team))
  {
    if s.running && i < NODES && MayClick(s.nodes[i], team) {
      if s.nodes[i] == NEUTRAL || s.nodes[i] >= OCCUPIED || s.prev[i] < OCCUPIED {
        TurnOk(s, i, CONTESTED, team, CAPTURING_TIME);
      } else {
        TurnOk(s, i, OCCUPIED, team, 0);
      }
    }
  }

  // ----- resources -----

  /** A measure of points is paid out as soon as it is full. */
  function Rest(points: nat, tics: nat): nat {
    if points >= tics then points - tics else points
  }

  function Paid(rewards: nat, points: nat, tics: nat): nat {
    if points >= tics then rewards + 1 else rewards
  }

  function AddResources(s: Battle, team: nat, points: nat): (r: Battle)
    requires Shaped(s) && team < 2
    ensures Shaped(r)
  {
    var reputation, honor, score := s.reputation[team] + points, s.honor[team] + points, s.scores[team] + points;
    s.(reputation := s.reputation[team := Rest(reputation, s.reputationTics)],
       reputationRewards := s.reputationRewards[team := Paid(s.reputationRewards[team], reputation, s.reputationTics)],
       honor := s.honor[team := Rest(honor, s.honorTics)],
       honorRewards := s.honorRewards[team := Paid(s.honorRewards[team], honor, s.honorTics)],
       scores := s.scores[team := if score > MAX_TEAM_SCORE then MAX_TEAM_SCORE else score],
       log := s.log + [Tick(team, points)])
  }

  /** Tells the score, and marks the other team when it is far behind. */
  function Announce(s: Battle, team: nat): (r: Battle)
    requires Shaped(s) && team < 2
    ensures Shaped(r)
  {
    var s1 := Send(s, Resources(team), s.scores[team]);
    if s.scores[team] > s.scores[1 - team] + DISADVANTAGE then s1.(disadvantage := s.disadvantage[1 - team := true]) else s1
  }

  /** The ticks of one team that holds so many nodes. */
  function UpdateTeam(s: Battle, team: nat, bases: nat, diff: nat): (r: Battle)
    requires Shaped(s) && team < 2 && bases < |TICK_INTERVALS|
    ensures Shaped(r)
  {
    if bases == 0 then s
    else
      var last := s.lastTick[team] + diff;
      if last > TICK_INTERVALS[bases] then
        Announce(AddResources(s.(lastTick := s.lastTick[team := last - TICK_INTERVALS[bases]]), team, TICK_POINTS[bases]), team)
      else s.(lastTick := s.lastTick[team := last])
  }

  function CheckWin(s: Battle, team: nat): (r: Battle)
    requires Shaped(s) && team < 2
    ensures Shaped(r)
  {
    if s.scores[team] >= MAX_TEAM_SCORE then s.(ends := s.ends + [team], running := false) else s
  }

  function UpdateResources(s: Battle, diff: nat): (r: Battle)
    requires Shaped(s)
    ensures Shaped(r)
  {
    var s1 := UpdateTeam(s, 0, Occupied(s.nodes, 0), diff);
    CheckWin(CheckWin(UpdateTeam(s1, 1, Occupied(s.nodes, 1), diff), 0), 1)
  }

  function Update(s: Battle, diff: nat): (r: Battle)
    requires NodesOk(s)
    ensures Shaped(r)
  {
    if s.running then UpdateResources(UpdateNodes(s, 0, diff), diff) else s
  }
}
