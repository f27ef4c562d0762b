/** The rules of Arathi Basin, written down apart from the steps that keep them: who gets a node and
    when, what nodes pay, who wins, and what follows for whole battles. */
module BattleGroundABRules {
  import opened BattleGroundAB
  import opened BattleGroundABInvariants
  import Ev = BattleGroundEvents

  // ----- nodes -----

  /** A node: its status and the one before, how long it has yet to be contested, and how long its
      next banner waits. */
  datatype Node = Node(status: nat, prev: nat, timer: nat, banner: nat)

  function NodeOf(s: Battle, i: nat): Node
    requires Shaped(s) && i < NODES
  {
    Node(s.nodes[i], s.prev[i], s.timers[i], s.banners[i].timer)
  }

  /** Whose a node that is not neutral is, contested or occupied. */
  function Holder(status: nat): nat {
    if status == 1 || status == 3 then 0 else 1
  }

  /** A banner is used by the other team: it contests the node for a minute, and defends one that it
      occupied before. */
  function Used(n: Node, team: nat): Node {
    if n.status != NEUTRAL && Holder(n.status) == team then n
    else if (n.status == 1 || n.status == 2) && n.prev >= 3 then Node(3 + team, n.status, 0, 2000)
    else Node(1 + team, n.status, 60000, 2000)
  }

  /** A while later: the banner goes up, and a node contested for its minute is occupied. */
  function Later(n: Node, diff: nat): Node {
    var banner := if n.banner <= diff then 0 else n.banner - diff;
    if n.timer == 0 then n.(banner := banner)
    else if diff < n.timer then n.(timer := n.timer - diff, banner := banner)
    else Node(n.status + 2, n.status, 0, 2000)
  }

  function NodeAfter(n: Node, i: nat, e: Event): Node {
    match e
    case Clicked(node, team) => if node == i && team < 2 then Used(n, team) else n
    case Ticked(diff) => Later(n, diff)
  }

  /** One node has changed, and nothing but nodes. */
  ghost predicate NodeSet(s: Battle, r: Battle, i: nat, n: Node)
    requires Shaped(s) && Shaped(r) && i < NODES
  {
    NodeOf(r, i) == n && (forall j :: 0 <= j < NODES && j != i ==> NodeOf(r, j) == NodeOf(s, j)) && SameResources(s, r)
  }

  lemma TurnEffect(s: Battle, i: nat, kind: nat, team: nat, timer: nat, status: nat)
    requires Shaped(s) && i < NODES && 0 < status < NODES && status == kind + team
    ensures NodeSet(s, Turn(s, i, kind, team, timer), i, Node(status, s.nodes[i], timer, 2000))
  {
  }

  lemma MayClickIff(status: nat, team: nat)
    requires status < NODES && team < 2
    ensures MayClick(status, team) <==> status == 0 || Holder(status) != team
  {
  }

  /** The flag is used by the team that does not have the node. */
  lemma TakenEffect(s: Battle, i: nat, team: nat, n: Node)
    requires NodesOk(s) && s.running && i < NODES && team < 2 && n == NodeOf(s, i) && MayClick(n.status, team)
    requires n.status == 0 || Holder(n.status) != team
    ensures NodeSet(s, ClickedOnFlag(s, i, team), i, Used(n, team))
  {
    if (n.status == 1 || n.status == 2) && n.prev >= 3 {
      TurnEffect(s, i, OCCUPIED, team, 0, 3 + team);
      assert ClickedOnFlag(s, i, team) == Turn(s, i, OCCUPIED, team, 0);
    } else {
      TurnEffect(s, i, CONTESTED, team, CAPTURING_TIME, 1 + team);
      assert ClickedOnFlag(s, i, team) == Turn(s, i, CONTESTED, team, CAPTURING_TIME);
    }
  }

  lemma ClickedEffect(s: Battle, i: nat, team: nat)
    requires NodesOk(s) && s.running && i < NODES && team < 2
    ensures NodeSet(s, ClickedOnFlag(s, i, team), i, Used(NodeOf(s, i), team))
  {
    var n := NodeOf(s, i);
    MayClickIff(n.status, team);
    if n.status == 0 || Holder(n.status) != team {
      TakenEffect(s, i, team, n);
    }
  }

  lemma UpdateBannerEffect(s: Battle, i: nat, diff: nat, banner: nat)
    requires NodesOk(s) && i < NODES && banner == if s.banners[i].timer <= diff then 0 else s.banners[i].timer - diff
    ensures NodeSet(s, UpdateBanner(s, i, diff), i, NodeOf(s, i).(banner := banner))
  {
  }

  lemma UpdateTimerEffect(s: Battle, i: nat, diff: nat, n: Node)
    requires NodesOk(s) && i < NODES && n == NodeOf(s, i)
    ensures NodeSet(s, UpdateTimer(s, i, diff), i, Lasted(n, diff))
  {
    if 0 < n.timer <= diff {
      assert NodeOk(s.nodes[i], s.prev[i], s.timers[i], s.banners[i], s.active[i]);
      TurnEffect(s, i, OCCUPIED, n.status - 1, 0, n.status + 2);
    }
  }

  /** A node contested for its minute is occupied. */
  function Lasted(n: Node, diff: nat): Node {
    if n.timer == 0 then n
    else if diff < n.timer then n.(timer := n.timer - diff)
    else Node(n.status + 2, n.status, 0, 2000)
  }

  lemma UpdateNodeEffect(s: Battle, i: nat, diff: nat)
    requires NodesOk(s) && i < NODES
    ensures NodeSet(s, UpdateNode(s, i, diff), i, Later(NodeOf(s, i), diff))
  {
    var banner := if s.banners[i].timer <= diff then 0 else s.banners[i].timer - diff;
    UpdateBannerEffect(s, i, diff, banner);
    UpdateBannerOk(s, i, diff);
    UpdateTimerEffect(UpdateBanner(s, i, diff), i, diff, NodeOf(s, i).(banner := banner));
  }

  lemma {:induction false} UpdateNodesEffect(s: Battle, i: nat, diff: nat)
    requires NodesOk(s) && i <= NODES
    ensures
      var r := UpdateNodes(s, i, diff);
      && SameResources(s, r)
      && (forall j :: 0 <= j < i ==> NodeOf(r, j) == NodeOf(s, j))
      && (forall j :: i <= j < NODES ==> NodeOf(r, j) == Later(NodeOf(s, j), diff))
    decreases NODES - i
  {
    if i == NODES {
    } else {
      UpdateNodeEffect(s, i, diff);
      UpdateNodeOk(s, i, diff);
      UpdateNodesEffect(UpdateNode(s, i, diff), i + 1, diff);
    }
  }

  // ----- resources -----

  /** How many nodes a team will have occupied after the nodes' turn. */
  function BasesAfter(s: Battle, diff: nat, team: nat): nat
    requires Shaped(s)
  {
    OccupiedLater(s, 0, diff, team)
  }

  function OccupiedLater(s: Battle, i: nat, diff: nat, team: nat): nat
    requires Shaped(s) && i <= NODES
    decreases NODES - i
  {
    if i == NODES then 0
    else (if Later(NodeOf(s, i), diff).status == 3 + team then 1 else 0) + OccupiedLater(s, i + 1, diff, team)
  }

  /** After how long so many nodes pay. */
  function Interval(bases: nat): nat {
    if bases == 1 then 12000 else if bases == 2 then 9000 else if bases == 3 then 6000 else if bases == 4 then 3000 else 1000
  }

  function Pay(bases: nat): nat {
    if bases == 5 then 30 else 10
  }

  predicate PayDue(s: Battle, diff: nat, team: nat)
    requires Shaped(s) && team < 2
  {
    var bases := BasesAfter(s, diff, team);
    bases > 0 && s.lastTick[team] + diff > Interval(bases)
  }

  function Income(s: Battle, e: Event, team: nat): nat
    requires Shaped(s) && team < 2
  {
    if e.Ticked? && PayDue(s, e.diff, team) then Pay(BasesAfter(s, e.diff, team)) else 0
  }

  /** Time runs for a team that has nodes, and what is over stays. */
  function ClockAfter(s: Battle, e: Event, team: nat): int
    requires Shaped(s) && team < 2
  {
    if e.Clicked? || BasesAfter(s, e.diff, team) == 0 then s.lastTick[team]
    else s.lastTick[team] + e.diff - if PayDue(s, e.diff, team) then Interval(BasesAfter(s, e.diff, team)) else 0
  }

  function AtMost1600(x: nat): nat {
    if x > 1600 then 1600 else x
  }

  /** What a tick makes of one team's resources. */
  predicate TeamRule(s: Battle, r: Battle, team: nat, pay: nat, clock: int)
    requires Shaped(s) && Shaped(r) && team < 2
  {
    r.scores[team] == AtMost1600(s.scores[team] + pay) && r.lastTick[team] == clock
  }

  /** The log of a tick: what the Alliance was paid, then what the Horde was. */
  function Entries(alliance: nat, horde: nat): seq<Tick> {
    (if alliance > 0 then [Tick(0, alliance)] else []) + (if horde > 0 then [Tick(1, horde)] else [])
  }

  function Announcements(s: Battle, r: Battle): seq<nat>
    requires |s.ends| <= |r.ends|
  {
    r.ends[|s.ends|..]
  }

  /** Whoever has sixteen hundred resources is announced, and nobody else. */
  ghost predicate Announced(s: Battle, r: Battle)
    requires Shaped(s) && Shaped(r)
  {
    && s.ends <= r.ends && (forall w: nat :: w in Announcements(s, r) <==> w < 2 && r.scores[w] >= 1600)
    && (r.running <==> r.ends == s.ends)
  }

  /** One event of a battle that is on. */
  ghost predicate Rules(s: Battle, e: Event, r: Battle)
    requires Shaped(s) && Shaped(r)
  {
    && (forall i :: 0 <= i < NODES ==> NodeOf(r, i) == NodeAfter(NodeOf(s, i), i, e))
    && TeamRule(s, r, 0, Income(s, e, 0), ClockAfter(s, e, 0))
    && TeamRule(s, r, 1, Income(s, e, 1), ClockAfter(s, e, 1))
    && r.log == s.log + Entries(Income(s, e, 0), Income(s, e, 1))
    && Announced(s, r)
  }

  // ----- the steps keep them -----

  /** The nodes have had their turn. */
  ghost predicate NodesTicked(s: Battle, r: Battle, diff: nat)
    requires Shaped(s) && Shaped(r)
  {
    SameResources(s, r) && forall j :: 0 <= j < NODES ==> NodeOf(r, j) == Later(NodeOf(s, j), diff)
  }

  lemma BasesAfterIs(s: Battle, r: Battle, diff: nat, team: nat)
    requires Shaped(s) && Shaped(r) && NodesTicked(s, r, diff) && team < 2
    ensures Occupied(r.nodes, team) == BasesAfter(s, diff, team)
  {
    assert forall j :: 0 <= j < NODES ==> (r.nodes[j] == Later(NodeOf(s, j), diff).status) by {
      assert forall j :: 0 <= j < NODES ==> NodeOf(r, j).status == r.nodes[j];
    }
    assert OccupiedLater(s, 4, diff, team) == if r.nodes[4] == 3 + team then 1 else 0;
    assert OccupiedLater(s, 3, diff, team) == (if r.nodes[3] == 3 + team then 1 else 0) + OccupiedLater(s, 4, diff, team);
    assert OccupiedLater(s, 2, diff, team) == (if r.nodes[2] == 3 + team then 1 else 0) + OccupiedLater(s, 3, diff, team);
    assert OccupiedLater(s, 1, diff, team) == (if r.nodes[1] == 3 + team then 1 else 0) + OccupiedLater(s, 2, diff, team);
  }

  /** A team's turn: its clock, its pay, and nothing of the other team's. */
  ghost predicate TeamTicked(s: Battle, r: Battle, team: nat, bases: nat, diff: nat)
    requires Shaped(s) && Shaped(r) && team < 2
  {
    var due := bases > 0 && s.lastTick[team] + diff > Interval(bases);
    && r.lastTick[team] == (if bases == 0 then s.lastTick[team] else s.lastTick[team] + diff - if due then Interval(bases) else 0)
    && r.scores[team] == (if due then AtMost1600(s.scores[team] + Pay(bases)) else s.scores[team])
    && r.log == s.log + (if due then [Tick(team, Pay(bases))] else [])
    && r.lastTick[1 - team] == s.lastTick[1 - team] && r.scores[1 - team] == s.scores[1 - team]
    && r.nodes == s.nodes && r.prev == s.prev && r.timers == s.timers && r.banners == s.banners && r.active == s.active
    && r.ends == s.ends && r.running == s.running
  }

  lemma TablesAre(bases: nat)
    requires 0 < bases <= 5
    ensures TICK_INTERVALS[bases] == Interval(bases) && TICK_POINTS[bases] == Pay(bases)
  {
  }

  lemma UpdateTeamEffect(s: Battle, team: nat, bases: nat, diff: nat, last: nat)
    requires Shaped(s) && team < 2 && bases <= 5 && last == s.lastTick[team] + diff
    ensures TeamTicked(s, UpdateTeam(s, team, bases, diff), team, bases, diff)
  {
    if bases > 0 {
      TablesAre(bases);
      if last > Interval(bases) {
        PayEffect(s, team, s.lastTick[team := last - Interval(bases)], Pay(bases));
      }
    }
    assert s.log + [] == s.log;
  }

  lemma PayEffect(s: Battle, team: nat, lastTick: seq<nat>, points: nat)
    requires Shaped(s) && team < 2 && |lastTick| == 2
    ensures
      var r := Announce(AddResources(s.(lastTick := lastTick), team, points), team);
      && r.scores == s.scores[team := AtMost1600(s.scores[team] + points)] && r.log == s.log + [Tick(team, points)]
      && r.lastTick == lastTick && r.nodes == s.nodes && r.prev == s.prev && r.timers == s.timers
      && r.banners == s.banners
      && r.active == s.active && r.ends == s.ends && r.running == s.running
  {
  }

  /** Both teams have had their turn, and the scores are looked at. */
  lemma TickRules(s: Battle, r0: Battle, r1: Battle, r2: Battle, r: Battle, e: Event, b0: nat, b1: nat)
    requires Shaped(s) && Shaped(r0) && Shaped(r1) && Shaped(r2) && Shaped(r) && e.Ticked? && NodesTicked(s, r0, e.diff)
    requires s.running && s.ends == [] && s.scores[0] < 1600 && s.scores[1] < 1600
    requires b0 == BasesAfter(s, e.diff, 0) && b1 == BasesAfter(s, e.diff, 1)
    requires TeamTicked(r0, r1, 0, b0, e.diff) && TeamTicked(r1, r2, 1, b1, e.diff)
    requires r.ends == r2.ends + (if r2.scores[0] >= 1600 then [0] else []) + (if r2.scores[1] >= 1600 then [1] else [])
    requires r.running <==> r2.scores[0] < 1600 && r2.scores[1] < 1600
    requires r == r2.(ends := r.ends, running := r.running)
    ensures Rules(s, e, r)
  {
    assert Announcements(s, r) == (if r.scores[0] >= 1600 then [0] else []) + (if r.scores[1] >= 1600 then [1] else []);
    forall i | 0 <= i < NODES ensures NodeOf(r, i) == NodeAfter(NodeOf(s, i), i, e) {
      assert NodeOf(r0, i) == Later(NodeOf(s, i), e.diff);
    }
    BothPaid(s, r0, r1, r2, e, b0, b1);
  }

  lemma BothPaid(s: Battle, r0: Battle, r1: Battle, r2: Battle, e: Event, b0: nat, b1: nat)
    requires Shaped(s) && Shaped(r0) && Shaped(r1) && Shaped(r2) && e.Ticked? && SameResources(s, r0)
    requires s.scores[0] < 1600 && s.scores[1] < 1600
    requires b0 == BasesAfter(s, e.diff, 0) && b1 == BasesAfter(s, e.diff, 1)
    requires TeamTicked(r0, r1, 0, b0, e.diff) && TeamTicked(r1, r2, 1, b1, e.diff)
    ensures TeamRule(s, r2, 0, Income(s, e, 0), ClockAfter(s, e, 0))
            && TeamRule(s, r2, 1, Income(s, e, 1), ClockAfter(s, e, 1))
    ensures r2.log == s.log + Entries(Income(s, e, 0), Income(s, e, 1))
  {
  }

  lemma CheckWinEffect(s: Battle)
    requires Shaped(s) && s.running
    ensures
      var r := CheckWin(CheckWin(s, 0), 1);
      && r.ends == s.ends + (if s.scores[0] >= 1600 then [0] else []) + (if s.scores[1] >= 1600 then [1] else [])
      && (r.running <==> s.scores[0] < 1600 && s.scores[1] < 1600) && r == s.(ends := r.ends, running := r.running)
  {
  }

  lemma ResourcesRules(s: Battle, r0: Battle, e: Event, b0: nat, b1: nat)
    requires Shaped(s) && s.running && s.ends == [] && s.scores[0] < 1600 && s.scores[1] < 1600 && e.Ticked?
    requires Shaped(r0) && NodesTicked(s, r0, e.diff)
    requires b0 == BasesAfter(s, e.diff, 0) == Occupied(r0.nodes, 0)
             && b1 == BasesAfter(s, e.diff, 1) == Occupied(r0.nodes, 1)
    ensures Rules(s, e, UpdateResources(r0, e.diff))
  {
    var r1 := UpdateTeam(r0, 0, b0, e.diff);
    var r2 := UpdateTeam(r1, 1, b1, e.diff);
    UpdateTeamEffect(r0, 0, b0, e.diff, r0.lastTick[0] + e.diff);
    UpdateTeamEffect(r1, 1, b1, e.diff, r1.lastTick[1] + e.diff);
    CheckWinEffect(r2);
    TickRules(s, r0, r1, r2, CheckWin(CheckWin(r2, 0), 1), e, b0, b1);
  }

  lemma TickedRules(s: Battle, e: Event)
    requires Ok(s) && s.running && e.Ticked?
    ensures Rules(s, e, Update(s, e.diff))
  {
    var r0 := UpdateNodes(s, 0, e.diff);
    UpdateNodesEffect(s, 0, e.diff);
    BasesAfterIs(s, r0, e.diff, 0);
    BasesAfterIs(s, r0, e.diff, 1);
    ResourcesRules(s, r0, e, BasesAfter(s, e.diff, 0), BasesAfter(s, e.diff, 1));
  }

  lemma ClickedRules(s: Battle, r: Battle, e: Event)
    requires Shaped(s) && Shaped(r) && e.Clicked? && SameResources(s, r) && s.running
    requires s.scores[0] < 1600 && s.scores[1] < 1600
    requires forall i :: 0 <= i < NODES ==> NodeOf(r, i) == NodeAfter(NodeOf(s, i), i, e)
    ensures Rules(s, e, r)
  {
    assert s.log + [] == s.log;
  }

  /** Every event of a battle that is on keeps to the rules. */
  lemma ApplyRules(s: Battle, e: Event)
    requires Ok(s) && s.running
    ensures Rules(s, e, Apply(s, e))
  {
    if e.Ticked? {
      TickedRules(s, e);
    } else {
      if e.team < 2 && e.node < NODES {
        ClickedEffect(s, e.node, e.team);
      }
      ClickedRules(s, Apply(s, e), e);
    }
  }

  // ----- whole battles -----

  /** When the battle is over nothing moves any more. */
  lemma {:induction false} OverIsOver(s: Battle, es: seq<Event>)
    requires Ok(s) && !s.running
    ensures Run(s, es) == s
    decreases |es|
  {
    if es == [] {
    } else {
      ApplyOk(s, es[0]);
      OverIsOver(Apply(s, es[0]), es[1..]);
    }
  }

  lemma StillOn(s: Battle, es: seq<Event>)
    requires Ok(s) && es != [] && Run(s, es).running
    ensures s.running && Ok(Apply(s, es[0])) && Apply(s, es[0]).running
  {
    ApplyOk(s, es[0]);
    if !s.running {
      OverIsOver(s, es);
    } else if !Apply(s, es[0]).running {
      OverIsOver(Apply(s, es[0]), es[1..]);
    }
  }

  /** Those and only those with sixteen hundred resources have won. */
  predicate Decided(s: Battle)
    requires |s.scores| == 2
  {
    (0 in s.ends <==> s.scores[0] >= 1600) && (1 in s.ends <==> s.scores[1] >= 1600) && (forall w :: w in s.ends ==> w < 2)
  }

  lemma StepDecided(s: Battle, e: Event, r: Battle)
    requires Shaped(s) && Shaped(r) && s.running && s.ends == [] && Rules(s, e, r)
    ensures Decided(r)
  {
    assert r.ends == Announcements(s, r);
  }

  lemma {:induction false} RunDecided(s: Battle, es: seq<Event>)
    requires Ok(s) && Decided(s)
    ensures Decided(Run(s, es))
    decreases |es|
  {
    if es == [] {
    } else {
      ApplyOk(s, es[0]);
      if s.running {
        ApplyRules(s, es[0]);
        StepDecided(s, es[0], Apply(s, es[0]));
      }
      RunDecided(Apply(s, es[0]), es[1..]);
    }
  }

  function Payment(s: Battle, e: Event, team: nat): nat
    requires Shaped(s) && team < 2
  {
    if s.running then Income(s, e, team) else 0
  }

  /** What a team was paid over a run, event by event. */
  ghost function Payments(s: Battle, es: seq<Event>, team: nat): seq<nat>
    requires Ok(s) && team < 2
    decreases |es|
  {
    if es == [] then []
    else
      ApplyOk(s, es[0]);
      [Payment(s, es[0], team)] + Payments(Apply(s, es[0]), es[1..], team)
  }

  function Sum(payments: seq<nat>): nat {
    if payments == [] then 0 else payments[0] + Sum(payments[1..])
  }

  /** The payments one after the other, each cut at the limit. */
  function Through(score: nat, payments: seq<nat>): nat
    decreases |payments|
  {
    if payments == [] then score else Through(AtMost1600(score + payments[0]), payments[1..])
  }

  lemma {:induction false} ThroughIs(score: nat, payments: seq<nat>)
    requires score <= 1600
    ensures Through(score, payments) == AtMost1600(score + Sum(payments))
    decreases |payments|
  {
    if payments == [] {
    } else {
      ThroughIs(AtMost1600(score + payments[0]), payments[1..]);
    }
  }

  lemma RulesScore(s: Battle, e: Event, r: Battle, team: nat)
    requires Shaped(s) && Shaped(r) && team < 2 && Rules(s, e, r)
    ensures r.scores[team] == AtMost1600(s.scores[team] + Income(s, e, team))
  {
  }

  lemma StepScore(s: Battle, e: Event, team: nat)
    requires Ok(s) && team < 2 && s.scores[team] <= 1600
    ensures Ok(Apply(s, e))
    ensures Apply(s, e).scores[team] == AtMost1600(s.scores[team] + Payment(s, e, team))
  {
    ApplyOk(s, e);
    if s.running {
      ApplyRules(s, e);
      RulesScore(s, e, Apply(s, e), team);
    }
  }

  lemma {:induction false} RunThrough(s: Battle, es: seq<Event>, team: nat)
    requires Ok(s) && team < 2 && s.scores[team] <= 1600
    ensures Run(s, es).scores[team] == Through(s.scores[team], Payments(s, es, team))
    decreases |es|
  {
    if es == [] {
    } else {
      StepScore(s, es[0], team);
      RunThrough(Apply(s, es[0]), es[1..], team);
      var payments := Payments(s, es, team);
      assert payments[1..] == Payments(Apply(s, es[0]), es[1..], team);
    }
  }

  /** A team's resources are what its nodes have paid, up to the limit. */
  lemma RunTotal(s: Battle, es: seq<Event>, team: nat)
    requires Ok(s) && team < 2 && s.scores[team] <= 1600
    ensures Run(s, es).scores[team] == AtMost1600(s.scores[team] + Sum(Payments(s, es, team)))
  {
    RunThrough(s, es, team);
    ThroughIs(s.scores[team], Payments(s, es, team));
  }

  function Elapsed(es: seq<Event>): nat {
    if es == [] then 0 else (if es[0].Ticked? then es[0].diff else 0) + Elapsed(es[1..])
  }

  /** Nobody uses the banner of the node. */
  predicate LeftAlone(es: seq<Event>, i: nat) {
    es == [] || (!(es[0].Clicked? && es[0].node == i) && LeftAlone(es[1..], i))
  }

  /** A node that is left alone for a while, its banner aside. */
  function Fate(n: Node, elapsed: nat): Node {
    if n.timer == 0 then n
    else if elapsed < n.timer then n.(timer := n.timer - elapsed)
    else n.(status := n.status + 2, timer := 0)
  }

  /** The same status, contested for the same time. */
  predicate Alike(n: Node, n': Node) {
    n'.status == n.status && n'.timer == n.timer
  }

  lemma FateAdds(n: Node, n': Node, diff: nat, rest: nat, elapsed: nat)
    requires elapsed == diff + rest && Alike(n', Later(n, diff))
    ensures Alike(Fate(n', rest), Fate(n, elapsed))
  {
  }

  lemma StepNode(s: Battle, e: Event, i: nat)
    requires Ok(s) && s.running && i < NODES && !(e.Clicked? && e.node == i)
    ensures Ok(Apply(s, e))
    ensures NodeOf(Apply(s, e), i) == if e.Ticked? then Later(NodeOf(s, i), e.diff) else NodeOf(s, i)
  {
    ApplyOk(s, e);
    ApplyRules(s, e);
    assert NodeOf(Apply(s, e), i) == NodeAfter(NodeOf(s, i), i, e);
  }

  /** A contested node that is left alone is occupied by the team that contested it when its minute
      is up, and not before; any other stays as it is. */
  lemma {:induction false} NodeFate(s: Battle, es: seq<Event>, i: nat, n: Node)
    requires Ok(s) && Run(s, es).running && i < NODES && LeftAlone(es, i) && n == NodeOf(s, i)
    ensures Alike(NodeOf(Run(s, es), i), Fate(n, Elapsed(es)))
    decreases |es|
  {
    if es == [] {
    } else {
      var n1 := NodeOf(Apply(s, es[0]), i);
      StillOn(s, es);
      StepNode(s, es[0], i);
      NodeFate(Apply(s, es[0]), es[1..], i, n1);
      if es[0].Ticked? {
        FateAdds(n, n1, es[0].diff, Elapsed(es[1..]), Elapsed(es));
      }
    }
  }

  /** How a battle begins. */
  lemma StartRules(honorTics: nat, reputationTics: nat, client: map<nat, int>, i: nat)
    requires i < NODES
    ensures
      var s := Start(honorTics, reputationTics, client);
      Shaped(s) && NodeOf(s, i) == Node(0, 0, 0, 0) && s.scores == [0, 0] && s.running && Decided(s)
  {
  }
}
