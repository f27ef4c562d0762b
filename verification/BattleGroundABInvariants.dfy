/** What every run of Arathi Basin keeps. */
module BattleGroundABInvariants {
  import opened BattleGroundAB
  import opened WorldStates
  import Ev = BattleGroundEvents

  // ----- the clients -----

  /** What a late joiner is shown. */
  function Snapshot(s: Battle, i: Icon): int
    requires Shaped(s) && Drawn(i)
  {
    match i
    case Plain(n) => if s.nodes[n] == NEUTRAL then 1 else 0
    case State(n, k) => if s.nodes[n] == k then 1 else 0
    case Bases(t) => Occupied(s.nodes, t)
    case Resources(t) => s.scores[t]
  }

  /** The client shows every icon as it is, and holds no number outside the table. */
  ghost predicate Agrees(s: Battle)
    requires Shaped(s)
  {
    Clean(TABLE, s.client) && forall i :: Drawn(i) ==> Show(TABLE, s.client, i) == Snapshot(s, i)
  }

  lemma SameAgrees(s: Battle, s': Battle)
    requires Shaped(s) && Shaped(s') && Agrees(s)
    requires s'.nodes == s.nodes && s'.scores == s.scores && s'.client == s.client
    ensures Agrees(s')
  {
    forall j | Drawn(j) ensures Show(TABLE, s'.client, j) == Snapshot(s', j) {
      assert Show(TABLE, s.client, j) == Snapshot(s, j);
    }
  }

  /** The icon a node is shown by. */
  function Face(node: nat, status: nat): Icon {
    if status == NEUTRAL then Plain(node) else State(node, status)
  }

  lemma NodeSnapshot(s: Battle, s': Battle, i: nat, status: nat)
    requires Shaped(s) && Shaped(s') && i < NODES && 0 < status < NODES && status != s.nodes[i]
    requires s'.nodes == s.nodes[i := status] && s'.scores == s.scores
    ensures forall j: Icon :: Drawn(j) && !j.Bases? ==>
              Snapshot(s', j) ==
              if j == Face(i, s.nodes[i]) then 0 else if j == Face(i, status) then 1 else Snapshot(s, j)
  {
  }

  /** Every change of a node is told completely: the old icon off, the new one on, and counts. */
  lemma NodeDelta(s: Battle, i: nat, kind: nat, team: nat, timer: nat)
    requires NodesOk(s) && Agrees(s) && i < NODES && 0 < kind + team < NODES && kind + team != s.nodes[i]
    ensures Agrees(Turn(s, i, kind, team, timer))
  {
    NodeTold(s, i, kind, team, kind + team, timer);
  }

  lemma NodeTold(s: Battle, i: nat, kind: nat, team: nat, status: nat, timer: nat)
    requires NodesOk(s) && Agrees(s) && i < NODES && 0 < status < NODES && status != s.nodes[i] && status == kind + team
    ensures Agrees(Turn(s, i, kind, team, timer))
  {
    var s' := Turn(s, i, kind, team, timer);
    NodeSnapshot(s, s', i, status);
    forall j | Drawn(j) ensures Show(TABLE, s'.client, j) == Snapshot(s', j) {
      assert Show(TABLE, s.client, j) == Snapshot(s, j);
    }
  }

  // ----- the ledger -----

  /** All points a team was ever given. */
  function Raw(log: seq<Tick>, team: nat): nat {
    if log == [] then 0
    else Raw(log[..|log| - 1], team) + if log[|log| - 1].team == team then log[|log| - 1].points else 0
  }

  function Capped(raw: nat): nat {
    if raw > MAX_TEAM_SCORE then MAX_TEAM_SCORE else raw
  }

  /** After some tick so far the other team led by more than the limit. */
  ghost predicate FellBehind(log: seq<Tick>, team: nat)
    requires team < 2
  {
    exists k :: 0 <= k <= |log| && Behind(log[..k], team)
  }

  predicate Behind(log: seq<Tick>, team: nat)
    requires team < 2
  {
    Capped(Raw(log, 1 - team)) > Capped(Raw(log, team)) + DISADVANTAGE
  }

  lemma RawAppend(log: seq<Tick>, t: Tick, team: nat)
    ensures Raw(log + [t], team) == Raw(log, team) + if t.team == team then t.points else 0
  {
    assert (log + [t])[..|log|] == log;
  }

  /** One more tick: only its own team can newly have left the other behind. */
  lemma FellBehindAppend(log: seq<Tick>, t: Tick, team: nat)
    requires team < 2 && t.team < 2
    ensures FellBehind(log + [t], team) <==> FellBehind(log, team) || Behind(log + [t], team)
  {
    var log' := log + [t];
    assert log'[..|log'|] == log';
    forall k | 0 <= k <= |log| ensures log'[..k] == log[..k] {
    }
    if k :| 0 <= k <= |log'| && Behind(log'[..k], team) {
      if k <= |log| {
        assert Behind(log[..k], team);
      }
    }
    if k :| 0 <= k <= |log| && Behind(log[..k], team) {
      assert Behind(log'[..k], team);
    }
    if Behind(log', team) {
      assert Behind(log'[..|log'|], team);
    }
  }

  /** The ledger of one team: the score is the capped sum of all ticks; honor and reputation
      were paid for every full measure of points, with less than a measure left over. */
  predicate LedgerOk(s: Battle, team: nat)
    requires Shaped(s) && team < 2
  {
    && s.scores[team] == Capped(Raw(s.log, team))
    && s.honorRewards[team] * s.honorTics + s.honor[team] == Raw(s.log, team) && s.honor[team] < s.honorTics
    && s.reputationRewards[team] * s.reputationTics + s.reputation[team] == Raw(s.log, team)
    && s.reputation[team] < s.reputationTics
  }

  ghost predicate ResourcesOk(s: Battle) {
    && Shaped(s) && s.honorTics >= 30 && s.reputationTics >= 30
    && LedgerOk(s, 0) && LedgerOk(s, 1)
    && s.disadvantage[0] == FellBehind(s.log, 0) && s.disadvantage[1] == FellBehind(s.log, 1)
    && (s.running <==> s.ends == []) && (s.running ==> s.scores[0] < MAX_TEAM_SCORE && s.scores[1] < MAX_TEAM_SCORE)
  }

  lemma Reward(rewards: nat, tics: nat, rest: nat, points: nat)
    requires rest < tics && points <= 30 <= tics
    ensures
      Paid(rewards, rest + points, tics) * tics + Rest(rest + points, tics) == rewards * tics + rest + points
      && Rest(rest + points, tics) < tics
  {
  }

  lemma AddResourcesOk(s: Battle, team: nat, points: nat)
    requires Shaped(s) && team < 2 && points <= 30 && s.honorTics >= 30 && s.reputationTics >= 30
    requires LedgerOk(s, 0) && LedgerOk(s, 1)
    ensures var s' := AddResources(s, team, points); LedgerOk(s', 0) && LedgerOk(s', 1)
  {
    Reward(s.honorRewards[team], s.honorTics, s.honor[team], points);
    Reward(s.reputationRewards[team], s.reputationTics, s.reputation[team], points);
    RawAppend(s.log, Tick(team, points), 0);
    RawAppend(s.log, Tick(team, points), 1);
  }

  // ----- the invariant -----

  ghost predicate Ok(s: Battle) {
    NodesOk(s) && Agrees(s) && ResourcesOk(s)
  }

  /** Nodes are nobody's concern but the nodes'. */
  ghost predicate SameResources(s: Battle, s': Battle) {
    && Shaped(s) && Shaped(s')
    && s'.lastTick == s.lastTick && s'.scores == s.scores && s'.honor == s.honor && s'.reputation == s.reputation
    && s'.honorRewards == s.honorRewards && s'.reputationRewards == s.reputationRewards
    && s'.disadvantage == s.disadvantage && s'.log == s.log
    && s'.honorTics == s.honorTics && s'.reputationTics == s.reputationTics && s'.ends == s.ends && s'.running == s.running
  }

  lemma SameResourcesOk(s: Battle, s': Battle)
    requires ResourcesOk(s) && SameResources(s, s')
    ensures ResourcesOk(s')
  {
  }

  // ----- the steps of nodes -----

  lemma ClickedAgrees(s: Battle, i: nat, team: nat)
    requires NodesOk(s) && Agrees(s) && team < 2
    ensures Agrees(ClickedOnFlag(s, i, team)) && SameResources(s, ClickedOnFlag(s, i, team))
  {
    if s.running && i < NODES && MayClick(s.nodes[i], team) {
      if s.nodes[i] == NEUTRAL || s.nodes[i] >= OCCUPIED || s.prev[i] < OCCUPIED {
        NodeDelta(s, i, CONTESTED, team, CAPTURING_TIME);
      } else {
        NodeDelta(s, i, OCCUPIED, team, 0);
      }
    }
  }

  /** Defending gives the node back to the team that occupied it, with its banner to follow;
      and only that team can. */
  lemma DefenceRestores(s: Battle, i: nat, team: nat)
    requires NodesOk(s) && s.running && i < NODES && team < 2 && MayClick(s.nodes[i], team)
    requires Contested(s.nodes[i]) && s.prev[i] >= OCCUPIED
    ensures ClickedOnFlag(s, i, team).nodes == s.nodes[i := s.prev[i]]
    ensures ClickedOnFlag(s, i, team).timers[i] == 0
  {
  }

  lemma TimerTells(s: Battle, i: nat, diff: nat, team: nat)
    requires NodesOk(s) && Agrees(s) && i < NODES && 0 < s.timers[i] <= diff && s.nodes[i] == team + CONTESTED
    ensures Agrees(UpdateTimer(s, i, diff))
  {
    NodeDelta(s, i, OCCUPIED, team, 0);
  }

  lemma UpdateTimerAgrees(s: Battle, i: nat, diff: nat)
    requires NodesOk(s) && Agrees(s) && i < NODES
    ensures Agrees(UpdateTimer(s, i, diff)) && SameResources(s, UpdateTimer(s, i, diff))
  {
    if 0 < s.timers[i] <= diff {
      TimerTells(s, i, diff, s.nodes[i] - 1);
    } else {
      SameAgrees(s, UpdateTimer(s, i, diff));
    }
  }

  lemma UpdateNodeAgrees(s: Battle, i: nat, diff: nat)
    requires NodesOk(s) && Agrees(s) && i < NODES
    ensures Agrees(UpdateNode(s, i, diff)) && SameResources(s, UpdateNode(s, i, diff))
  {
    UpdateBannerOk(s, i, diff);
    SameAgrees(s, UpdateBanner(s, i, diff));
    UpdateTimerAgrees(UpdateBanner(s, i, diff), i, diff);
  }

  lemma {:induction false} UpdateNodesAgrees(s: Battle, i: nat, diff: nat)
    requires NodesOk(s) && Agrees(s) && i <= NODES
    ensures Agrees(UpdateNodes(s, i, diff)) && SameResources(s, UpdateNodes(s, i, diff))
    decreases NODES - i
  {
    if i == NODES {
    } else {
      UpdateNodeOk(s, i, diff);
      UpdateNodeAgrees(s, i, diff);
      UpdateNodesAgrees(UpdateNode(s, i, diff), i + 1, diff);
    }
  }

  lemma ClickedOk(s: Battle, i: nat, team: nat)
    requires Ok(s) && team < 2
    ensures Ok(ClickedOnFlag(s, i, team))
  {
    ClickedOnFlagOk(s, i, team);
    ClickedAgrees(s, i, team);
    SameResourcesOk(s, ClickedOnFlag(s, i, team));
  }

  // ----- the steps of resources -----

  /** The ledgers are in order whoever is ahead by now, and clients were told all but one score. */
  ghost predicate MidTick(s: Battle) {
    && NodesOk(s) && s.honorTics >= 30 && s.reputationTics >= 30
    && LedgerOk(s, 0) && LedgerOk(s, 1) && (s.running <==> s.ends == [])
    && s.disadvantage[0] == FellBehind(s.log, 0) && s.disadvantage[1] == FellBehind(s.log, 1)
  }

  lemma AnnounceTold(s: Battle, team: nat, points: nat)
    requires Shaped(s) && Agrees(s) && team < 2
    ensures Agrees(Announce(AddResources(s, team, points), team))
  {
    var s' := Announce(AddResources(s, team, points), team);
    assert s'.nodes == s.nodes && s'.client == Store(TABLE, s.client, Resources(team), s'.scores[team]);
    forall j | Drawn(j) ensures Show(TABLE, s'.client, j) == Snapshot(s', j) {
      assert Show(TABLE, s.client, j) == Snapshot(s, j);
    }
  }

  /** A tick of one team can leave only the other one behind. */
  lemma MarkStep(log: seq<Tick>, team: nat, other: nat, points: nat)
    requires team < 2 && other == 1 - team
    ensures
      var log' := log + [Tick(team, points)];
      && (FellBehind(log', other) <==> FellBehind(log, other) || Behind(log', other))
      && (FellBehind(log', team) <==> FellBehind(log, team))
  {
    FellBehindAppend(log, Tick(team, points), team);
    FellBehindAppend(log, Tick(team, points), other);
    AheadStays(log, team, points);
  }

  /** The mark of the other team tells whether it ever fell behind. */
  lemma MarksOk(s: Battle, team: nat, other: nat, points: nat)
    requires MidTick(s) && team < 2 && other == 1 - team && points <= 30
    ensures var s' := Announce(AddResources(s, team, points), team);
            s'.disadvantage[team] == FellBehind(s'.log, team) && s'.disadvantage[other] == FellBehind(s'.log, other)
  {
    AddResourcesOk(s, team, points);
    MarkStep(s.log, team, other, points);
  }

  lemma LedgersOk(s: Battle, team: nat, points: nat)
    requires MidTick(s) && team < 2 && points <= 30
    ensures var s' := Announce(AddResources(s, team, points), team);
            NodesOk(s') && LedgerOk(s', 0) && LedgerOk(s', 1)
  {
    AddResourcesOk(s, team, points);
  }

  lemma AnnounceOk(s: Battle, team: nat, points: nat)
    requires MidTick(s) && Agrees(s) && team < 2 && points <= 30
    ensures var s' := Announce(AddResources(s, team, points), team); MidTick(s') && Agrees(s')
  {
    AnnounceTold(s, team, points);
    LedgersOk(s, team, points);
    if team == 0 {
      MarksOk(s, team, 1, points);
    } else {
      MarksOk(s, team, 0, points);
    }
  }

  /** A team that is far behind after its own tick was so before. */
  lemma AheadStays(log: seq<Tick>, team: nat, points: nat)
    requires team < 2
    ensures Behind(log + [Tick(team, points)], team) ==> FellBehind(log, team)
  {
    RawAppend(log, Tick(team, points), 0);
    RawAppend(log, Tick(team, points), 1);
    if Behind(log + [Tick(team, points)], team) {
      assert log[..|log|] == log;
      assert Behind(log[..|log|], team);
    }
  }

  lemma UpdateTeamOk(s: Battle, team: nat, bases: nat, diff: nat)
    requires MidTick(s) && Agrees(s) && team < 2 && bases < |TICK_INTERVALS|
    ensures var s' := UpdateTeam(s, team, bases, diff); MidTick(s') && Agrees(s') && s'.nodes == s.nodes
  {
    if bases != 0 {
      var last := s.lastTick[team] + diff;
      LastTickFree(s, s.lastTick[team := last]);
      if last > TICK_INTERVALS[bases] {
        Spend(s, team, bases, diff, last - TICK_INTERVALS[bases]);
      }
    }
  }

  lemma LastTickFree(s: Battle, lastTick: seq<nat>)
    requires MidTick(s) && Agrees(s) && |lastTick| == 2
    ensures MidTick(s.(lastTick := lastTick)) && Agrees(s.(lastTick := lastTick))
  {
    SameAgrees(s, s.(lastTick := lastTick));
  }

  lemma Spend(s: Battle, team: nat, bases: nat, diff: nat, rest: nat)
    requires MidTick(s) && Agrees(s) && team < 2 && 0 < bases < |TICK_INTERVALS|
    requires rest == s.lastTick[team] + diff - TICK_INTERVALS[bases] && rest > 0
    ensures var s' := UpdateTeam(s, team, bases, diff); MidTick(s') && Agrees(s') && s'.nodes == s.nodes
  {
    SpendPoints(s, team, s.lastTick[team := rest], TICK_POINTS[bases]);
  }

  lemma SpendPoints(s: Battle, team: nat, lastTick: seq<nat>, points: nat)
    requires MidTick(s) && Agrees(s) && team < 2 && |lastTick| == 2 && points <= 30
    ensures
      var s' := Announce(AddResources(s.(lastTick := lastTick), team, points), team);
      MidTick(s') && Agrees(s') && s'.nodes == s.nodes
  {
    LastTickFree(s, lastTick);
    AnnounceOk(s.(lastTick := lastTick), team, points);
  }

  lemma CheckWinOk(s: Battle)
    requires MidTick(s) && Agrees(s)
    ensures Ok(CheckWin(CheckWin(s, 0), 1))
  {
    SameAgrees(s, CheckWin(CheckWin(s, 0), 1));
  }

  lemma UpdateOk(s: Battle, diff: nat)
    requires Ok(s)
    ensures Ok(Update(s, diff))
  {
    if s.running {
      var s1 := UpdateNodes(s, 0, diff);
      UpdateNodesAgrees(s, 0, diff);
      SameResourcesOk(s, s1);
      UpdateTeamOk(s1, 0, Occupied(s1.nodes, 0), diff);
      var s2 := UpdateTeam(s1, 0, Occupied(s1.nodes, 0), diff);
      UpdateTeamOk(s2, 1, Occupied(s1.nodes, 1), diff);
      CheckWinOk(UpdateTeam(s2, 1, Occupied(s1.nodes, 1), diff));
    }
  }

  // ----- whole runs -----

  datatype Event = Ticked(diff: nat) | Clicked(node: nat, team: nat)

  function Apply(s: Battle, e: Event): (r: Battle)
    requires NodesOk(s)
    ensures Shaped(r)
  {
    match e
    case Ticked(diff) => Update(s, diff)
    case Clicked(i, team) => if team < 2 then ClickedOnFlag(s, i, team) else s
  }

  lemma ApplyOk(s: Battle, e: Event)
    requires Ok(s)
    ensures Ok(Apply(s, e))
  {
    match e {
      case Ticked(diff) =>
        UpdateOk(s, diff);
      case Clicked(i, team) =>
        if team < 2 {
          ClickedOk(s, i, team);
        }
    }
  }

  ghost function Run(s: Battle, es: seq<Event>): (r: Battle)
    requires Ok(s)
    ensures Shaped(r)
    decreases |es|
  {
    if es == [] then s
    else
      ApplyOk(s, es[0]);
      Run(Apply(s, es[0]), es[1..])
  }

  /** In every state of every run the nodes, their timers and banners, the icons of clients and
      both ledgers are in order. */
  lemma {:induction false} RunOk(s: Battle, es: seq<Event>)
    requires Ok(s)
    ensures Ok(Run(s, es))
    decreases |es|
  {
    if es == [] {
    } else {
      ApplyOk(s, es[0]);
      RunOk(Apply(s, es[0]), es[1..]);
    }
  }

  /** After every run a client that was told piece by piece holds, under every number, what a
      client filled at that moment holds. */
  lemma RunScreen(s: Battle, es: seq<Event>, fill: map<nat, int>, id: nat)
    requires Ok(s) && Agrees(Run(s, es).(client := fill))
    ensures Held(Run(s, es).client, id) == Held(fill, id)
  {
    RunOk(s, es);
    var s' := Run(s, es);
    forall i | TABLE.drawn(i) ensures Show(TABLE, s'.client, i) == Show(TABLE, fill, i) {
      assert Show(TABLE, s'.client, i) == Snapshot(s', i) && Show(TABLE, fill, i) == Snapshot(s'.(client := fill), i);
    }
    SameScreen(TABLE, s'.client, fill, id);
  }

  /** Over an event layer in order, the objects of a node in the world are those of its status,
      once no banner is waiting. */
  lemma BannersTrue(s: Battle, l: Ev.Layer, g: Ev.Guid, i: nat, status: nat)
    requires Ok(s) && l.active == s.active && Ev.Exclusive(l) && i < NODES && Ev.Registered(l, g, i, status)
    requires s.banners[i].timer == 0
    ensures g in l.spawned <==> status == s.nodes[i]
  {
    assert Ev.IsActive(l, i, status) <==> l.active[i] == status;
  }

  function Start(honorTics: nat, reputationTics: nat, client: map<nat, int>): Battle {
    var none := Banner(0, NEUTRAL, 0);
    Battle([0, 0, 0, 0, 0], [0, 0, 0, 0, 0], [0, 0, 0, 0, 0], [none, none, none, none, none],
           [0, 0], [0, 0], [0, 0], [0, 0], [0, 0], [0, 0], [false, false], [], honorTics, reputationTics,
           map[0 := 0, 1 := 0, 2 := 0, 3 := 0, 4 := 0], [], true, client)
  }

  lemma StartOk(honorTics: nat, reputationTics: nat, client: map<nat, int>)
    requires honorTics >= 30 && reputationTics >= 30
    ensures var s := Start(honorTics, reputationTics, client); Shaped(s) && (Agrees(s) ==> Ok(s))
  {
    var s := Start(honorTics, reputationTics, client);
    forall t | 0 <= t < 2 ensures !FellBehind(s.log, t) {
      assert !Behind([], t);
      assert forall k :: 0 <= k <= |s.log| ==> s.log[..k] == [];
    }
  }
}
