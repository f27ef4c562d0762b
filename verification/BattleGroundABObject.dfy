/** Arathi Basin as the battleground object runs it. */
module BattleGroundABObject {
  import B = BattleGroundAB
  import I = BattleGroundABInvariants
  import opened WorldStates
  import Ev = BattleGroundEvents

  class BattleGroundAB {
    const layer: Ev.EventLayer
    const honorTics: nat
    const reputationTics: nat
    var nodes: seq<nat>
    var prevNodes: seq<nat>
    var nodeTimers: seq<nat>
    var bannerTimers: seq<B.Banner>
    var lastTick: seq<nat>
    var teamScores: seq<nat>
    var honorScoreTics: seq<nat>
    var reputationScoreTics: seq<nat>
    var honorRewards: seq<nat>
    var reputationRewards: seq<nat>
    var teamScores500Disadvantage: seq<bool>
    var log: seq<B.Tick>
    var ends: seq<nat>
    var running: bool
    var client: map<nat, int>
    ghost const homes: map<Ev.Guid, Ev.Home>

    constructor (honorTics: nat, reputationTics: nat, client: map<nat, int>, ghost homes: map<Ev.Guid, Ev.Home>)
      ensures Orderly() && Value() == I.Start(honorTics, reputationTics, client) && fresh(layer)
      ensures honorTics >= 30 && reputationTics >= 30 && I.Agrees(Value()) ==> Valid()
    {
      this.honorTics, this.reputationTics, this.client, this.homes := honorTics, reputationTics, client, homes;
      var none := B.Banner(0, B.NEUTRAL, 0);
      nodes, prevNodes, nodeTimers := [0, 0, 0, 0, 0], [0, 0, 0, 0, 0], [0, 0, 0, 0, 0];
      bannerTimers := [none, none, none, none, none];
      lastTick, teamScores, honorScoreTics, reputationScoreTics := [0, 0], [0, 0], [0, 0], [0, 0];
      honorRewards, reputationRewards, teamScores500Disadvantage := [0, 0], [0, 0], [false, false];
      log, ends, running := [], [], true;
      layer := new Ev.EventLayer(map[0 := 0, 1 := 0, 2 := 0, 3 := 0, 4 := 0]);
      new;
      if honorTics >= 30 && reputationTics >= 30 {
        I.StartOk(honorTics, reputationTics, client);
      }
    }

    function Value(): B.Battle
      reads this, layer
    {
      B.Battle(nodes, prevNodes, nodeTimers, bannerTimers, lastTick, teamScores, honorScoreTics, reputationScoreTics,
               honorRewards, reputationRewards, teamScores500Disadvantage, log, honorTics, reputationTics,
               layer.activeEvents, ends, running, client)
    }

    predicate Shaped()
      reads this, layer
    {
      B.Shaped(Value())
    }

    /** The event layer is in order. */
    ghost predicate LayerOk()
      reads layer
    {
      Ev.Exclusive(layer.Value()) && Ev.OneHome(layer.Value(), homes)
    }

    /** The node records and the event layer are in order. */
    ghost predicate Orderly()
      reads this, layer
    {
      B.NodesOk(Value()) && LayerOk()
    }

    /** Everything a run keeps holds, in the records and in the world. */
    ghost predicate Valid()
      reads this, layer
    {
      LayerOk() && I.Ok(Value())
    }

    /** Unless a banner waits, the objects of a node in the world are those of its status. */
    lemma BannersTrue(g: Ev.Guid, i: nat, status: nat)
      requires Valid() && i < B.NODES && bannerTimers[i].timer == 0 && Ev.Registered(layer.Value(), g, i, status)
      ensures g in layer.spawned <==> status == nodes[i]
    {
      I.BannersTrue(Value(), layer.Value(), g, i, status);
    }

    /** A world state goes out under its number, which is one of the table. */
    method UpdateWorldState(i: B.Icon, v: int)
      requires B.Drawn(i)
      modifies this`client
      ensures Value() == B.Send(old(Value()), i, v)
    {
      client := Store(B.TABLE, client, i, v);
    }

    /** A delayed banner waits; any other goes up at once. */
    method CreateBanner(i: nat, kind: nat, team: nat, delay: bool)
      requires Shaped() && LayerOk() && i < B.NODES && kind + team < B.NODES
      modifies this`bannerTimers, layer
      ensures LayerOk()
      ensures Value() ==
              if delay then old(Value()).(banners := old(bannerTimers)[i := B.Banner(B.BANNER_DELAY, kind, team)])
              else B.RaiseBanner(old(Value()), i, kind, team)
    {
      if delay {
        bannerTimers := bannerTimers[i := B.Banner(B.BANNER_DELAY, kind, team)];
        return;
      }
      var event2 := if kind == B.NEUTRAL then kind else kind + team;
      Ev.SpawnExclusive(layer.Value(), homes, i, event2, true);
      Ev.SpawnSwitches(layer.Value(), i, event2, true);
      layer.SpawnEvent(i, event2, true);
    }

    method CountBases(team: nat) returns (count: nat)
      requires Shaped()
      ensures count == B.Occupied(nodes, team)
    {
      count := 0;
      var i := 0;
      while i < B.NODES
        invariant i <= B.NODES
        invariant count == (if i > 0 && nodes[0] == team + B.OCCUPIED then 1 else 0)
                         + (if i > 1 && nodes[1] == team + B.OCCUPIED then 1 else 0)
                         + (if i > 2 && nodes[2] == team + B.OCCUPIED then 1 else 0)
                         + (if i > 3 && nodes[3] == team + B.OCCUPIED then 1 else 0)
                         + (if i > 4 && nodes[4] == team + B.OCCUPIED then 1 else 0)
      {
        if nodes[i] == team + B.OCCUPIED {
          count := count + 1;
        }
        i := i + 1;
      }
    }

    method SendNodeUpdate(i: nat)
      requires Shaped() && i < B.NODES && nodes[i] != B.NEUTRAL
      modifies this`client
      ensures Value() == B.SendNodeUpdate(old(Value()), i)
    {
      if prevNodes[i] != B.NEUTRAL {
        UpdateWorldState(B.State(i, prevNodes[i]), 0);
      } else {
        UpdateWorldState(B.Plain(i), 0);
      }
      UpdateWorldState(B.State(i, nodes[i]), 1);
      var ally := CountBases(0);
      var horde := CountBases(1);
      UpdateWorldState(B.Bases(0), ally);
      UpdateWorldState(B.Bases(1), horde);
    }

    /** The steps that every change of a node shares. */
    method Turn(i: nat, kind: nat, team: nat, timer: nat)
      requires Shaped() && LayerOk() && i < B.NODES && 0 < kind + team < B.NODES
      modifies this, layer
      ensures LayerOk()
      ensures Value() == B.Turn(old(Value()), i, kind, team, timer)
    {
      nodeTimers := nodeTimers[i := timer];
      prevNodes := prevNodes[i := nodes[i]];
      nodes := nodes[i := kind + team];
      CreateBanner(i, kind, team, true);
      SendNodeUpdate(i);
    }

    method EventPlayerClickedOnFlag(i: nat, team: nat)
      requires Valid() && team < 2
      modifies this, layer
      ensures Valid()
      ensures Value() == B.ClickedOnFlag(old(Value()), i, team)
    {
      I.ClickedOk(Value(), i, team);
      if running && i < B.NODES {
        ClickNode(i, team);
      }
    }

    method ClickNode(i: nat, team: nat)
      requires Orderly() && running && i < B.NODES && team < 2
      modifies this, layer
      ensures LayerOk()
      ensures Value() == B.ClickedOnFlag(old(Value()), i, team)
    {
      if !(nodes[i] == 0 || team == nodes[i] % 2) {
        return;
      }
      if nodes[i] == B.NEUTRAL {
        Turn(i, B.CONTESTED, team, B.CAPTURING_TIME);
      } else if nodes[i] == 1 || nodes[i] == 2 {
        if prevNodes[i] < B.OCCUPIED {
          Turn(i, B.CONTESTED, team, B.CAPTURING_TIME);
        } else {
          Turn(i, B.OCCUPIED, team, 0);
        }
      } else {
        Turn(i, B.CONTESTED, team, B.CAPTURING_TIME);
      }
    }

    method UpdateBanner(i: nat, diff: nat)
      requires Orderly() && i < B.NODES
      modifies this`bannerTimers, layer
      ensures LayerOk()
      ensures Value() == B.UpdateBanner(old(Value()), i, diff)
    {
      if bannerTimers[i].timer != 0 {
        var b := bannerTimers[i];
        if b.timer > diff {
          bannerTimers := bannerTimers[i := b.(timer := b.timer - diff)];
        } else {
          bannerTimers := bannerTimers[i := b.(timer := 0)];
          CreateBanner(i, b.kind, b.team, false);
        }
      }
    }

    /** The contest is over: the node belongs to its attacker. */
    method Occupy(i: nat, team: nat)
      requires Shaped() && LayerOk() && i < B.NODES && team < 2 && nodes[i] == team + B.CONTESTED
      modifies this, layer
      ensures LayerOk()
      ensures Value() == B.Turn(old(Value()), i, B.OCCUPIED, old(nodes[i]) - 1, 0)
    {
      Turn(i, B.OCCUPIED, team, 0);
    }

    method UpdateTimer(i: nat, diff: nat)
      requires Orderly() && i < B.NODES
      modifies this, layer
      ensures LayerOk()
      ensures Value() == B.UpdateTimer(old(Value()), i, diff)
    {
      if nodeTimers[i] != 0 {
        if nodeTimers[i] > diff {
          nodeTimers := nodeTimers[i := nodeTimers[i] - diff];
        } else {
          Occupy(i, nodes[i] - 1);
        }
      }
    }

    method UpdateNode(i: nat, diff: nat)
      requires Orderly() && i < B.NODES
      modifies this, layer
      ensures Orderly() && Value() == B.UpdateNode(old(Value()), i, diff)
      ensures B.UpdateNodes(Value(), i + 1, diff) == B.UpdateNodes(old(Value()), i, diff)
    {
      B.UpdateNodesStep(Value(), i, diff);
      B.UpdateNodeOk(Value(), i, diff);
      UpdateBanner(i, diff);
      UpdateTimer(i, diff);
    }

    method UpdateNodes(diff: nat)
      requires Orderly()
      modifies this, layer
      ensures LayerOk()
      ensures Value() == B.UpdateNodes(old(Value()), 0, diff)
    {
      ghost var result := B.UpdateNodes(Value(), 0, diff);
      var i := 0;
      while i < B.NODES
        invariant i <= B.NODES && Orderly() && B.UpdateNodes(Value(), i, diff) == result
      {
        UpdateNode(i, diff);
        i := i + 1;
      }
    }

    method AddReputation(team: nat, points: nat)
      requires Shaped() && team < 2
      modifies this`reputationScoreTics, this`reputationRewards
      ensures var rest := old(reputationScoreTics[team]) + points;
              && reputationScoreTics == old(reputationScoreTics)[team := B.Rest(rest, reputationTics)]
              && reputationRewards == old(reputationRewards)[team := B.Paid(old(reputationRewards[team]), rest, reputationTics)]
    {
      reputationScoreTics := reputationScoreTics[team := reputationScoreTics[team] + points];
      if reputationScoreTics[team] >= reputationTics {
        reputationRewards := reputationRewards[team := reputationRewards[team] + 1];
        reputationScoreTics := reputationScoreTics[team := reputationScoreTics[team] - reputationTics];
      }
    }

    method AddHonor(team: nat, points: nat)
      requires Shaped() && team < 2
      modifies this`honorScoreTics, this`honorRewards
      ensures var rest := old(honorScoreTics[team]) + points;
              && honorScoreTics == old(honorScoreTics)[team := B.Rest(rest, honorTics)]
              && honorRewards == old(honorRewards)[team := B.Paid(old(honorRewards[team]), rest, honorTics)]
    {
      honorScoreTics := honorScoreTics[team := honorScoreTics[team] + points];
      if honorScoreTics[team] >= honorTics {
        honorRewards := honorRewards[team := honorRewards[team] + 1];
        honorScoreTics := honorScoreTics[team := honorScoreTics[team] - honorTics];
      }
    }

    method AddScore(team: nat, points: nat)
      requires Shaped() && team < 2
      modifies this`teamScores, this`log
      ensures var score := old(teamScores[team]) + points;
              teamScores == old(teamScores)[team := if score > B.MAX_TEAM_SCORE then B.MAX_TEAM_SCORE else score]
      ensures log == old(log) + [B.Tick(team, points)]
    {
      teamScores := teamScores[team := teamScores[team] + points];
      log := log + [B.Tick(team, points)];
      if teamScores[team] > B.MAX_TEAM_SCORE {
        teamScores := teamScores[team := B.MAX_TEAM_SCORE];
      }
    }

    method AddResources(team: nat, points: nat)
      requires Shaped() && team < 2
      modifies this
      ensures Value() == B.AddResources(old(Value()), team, points)
    {
      AddScore(team, points);
      AddReputation(team, points);
      AddHonor(team, points);
    }

    method Announce(team: nat)
      requires Shaped() && team < 2
      modifies this`client, this`teamScores500Disadvantage
      ensures Value() == B.Announce(old(Value()), team)
    {
      UpdateWorldState(B.Resources(team), teamScores[team]);
      var otherTeam := 1 - team;
      if teamScores[team] > teamScores[otherTeam] + B.DISADVANTAGE {
        teamScores500Disadvantage := teamScores500Disadvantage[otherTeam := true];
      }
    }

    method UpdateTeam(team: nat, points: nat, diff: nat)
      requires Shaped() && team < 2 && points < |B.TICK_INTERVALS|
      modifies this
      ensures Value() == B.UpdateTeam(old(Value()), team, points, diff)
    {
      if points == 0 {
        return;
      }
      var last := lastTick[team] + diff;
      if last > B.TICK_INTERVALS[points] {
        lastTick := lastTick[team := last - B.TICK_INTERVALS[points]];
        AddResources(team, B.TICK_POINTS[points]);
        Announce(team);
      } else {
        lastTick := lastTick[team := last];
      }
    }

    method CheckWin(team: nat)
      requires Shaped() && team < 2
      modifies this`ends, this`running
      ensures Value() == B.CheckWin(old(Value()), team)
    {
      if teamScores[team] >= B.MAX_TEAM_SCORE {
        ends, running := ends + [team], false;
      }
    }

    method UpdateResources(diff: nat)
      requires Shaped()
      modifies this
      ensures Value() == B.UpdateResources(old(Value()), diff)
    {
      var ally := CountBases(0);
      var horde := CountBases(1);
      UpdateTeam(0, ally, diff);
      UpdateTeam(1, horde, diff);
      CheckWin(0);
      CheckWin(1);
    }

    method Update(diff: nat)
      requires Valid()
      modifies this, layer
      ensures Valid()
      ensures Value() == B.Update(old(Value()), diff)
    {
      I.UpdateOk(Value(), diff);
      if !running {
        return;
      }
      UpdateNodes(diff);
      UpdateResources(diff);
    }

    /** One entry of the list for a new client. */
    static method FillInitialWorldState(before: map<nat, int>, i: B.Icon, v: int) returns (data: map<nat, int>)
      requires B.Drawn(i)
      ensures Clean(B.TABLE, before) ==> Clean(B.TABLE, data)
      ensures forall j :: B.Drawn(j) ==> Show(B.TABLE, data, j) == if j == i then v else Show(B.TABLE, before, j)
    {
      data := Store(B.TABLE, before, i, v);
    }

    predicate Shows(data: map<nat, int>, i: B.Icon)
      requires Shaped() && B.Drawn(i)
      reads this, layer
    {
      Show(B.TABLE, data, i) == I.Snapshot(Value(), i)
    }

    /** Every icon of a node is current. */
    predicate ShowsNode(data: map<nat, int>, n: nat)
      requires Shaped() && n < B.NODES
      reads this, layer
    {
      forall k :: 0 < k < B.NODES ==> Shows(data, B.State(n, k))
    }

    method FillPlain() returns (data: map<nat, int>)
      requires Shaped()
      ensures Clean(B.TABLE, data) && forall n: nat :: n < B.NODES ==> Shows(data, B.Plain(n))
    {
      data := map[];
      var n := 0;
      while n < B.NODES
        invariant n <= B.NODES && Clean(B.TABLE, data) && forall m: nat :: m < n ==> Shows(data, B.Plain(m))
      {
        data := FillInitialWorldState(data, B.Plain(n), if nodes[n] == 0 then 1 else 0);
        n := n + 1;
      }
    }

    method FillNode(before: map<nat, int>, n: nat) returns (data: map<nat, int>)
      requires Shaped() && n < B.NODES && Clean(B.TABLE, before)
      ensures Clean(B.TABLE, data) && ShowsNode(data, n)
      ensures forall i: B.Icon :: B.Drawn(i) && !(i.State? && i.node == n) ==> Show(B.TABLE, data, i) == Show(B.TABLE, before, i)
    {
      data := before;
      for i := 1 to B.NODES
        invariant Clean(B.TABLE, data) && forall k: nat :: 0 < k < i ==> Shows(data, B.State(n, k))
        invariant forall i: B.Icon :: B.Drawn(i) && !(i.State? && i.node == n) ==> Show(B.TABLE, data, i) == Show(B.TABLE, before, i)
      {
        data := FillInitialWorldState(data, B.State(n, i), if nodes[n] == i then 1 else 0);
      }
    }

    method FillNodes(before: map<nat, int>) returns (data: map<nat, int>)
      requires Shaped() && Clean(B.TABLE, before)
      ensures Clean(B.TABLE, data) && forall n: nat :: n < B.NODES ==> ShowsNode(data, n)
      ensures forall i: B.Icon :: B.Drawn(i) && !i.State? ==> Show(B.TABLE, data, i) == Show(B.TABLE, before, i)
    {
      data := before;
      var n := 0;
      while n < B.NODES
        invariant n <= B.NODES && Clean(B.TABLE, data) && forall m: nat :: m < n ==> ShowsNode(data, m)
        invariant forall i: B.Icon :: B.Drawn(i) && !i.State? ==> Show(B.TABLE, data, i) == Show(B.TABLE, before, i)
      {
        ghost var last := data;
        data := FillNode(data, n);
        forall m: nat | m < n ensures ShowsNode(data, m) {
          assert ShowsNode(last, m);
          forall k | 0 < k < B.NODES ensures Shows(data, B.State(m, k)) {
            assert Shows(last, B.State(m, k));
          }
        }
        n := n + 1;
      }
    }

    method FillCounts(before: map<nat, int>) returns (data: map<nat, int>)
      requires Shaped() && Clean(B.TABLE, before)
      ensures Clean(B.TABLE, data)
      ensures forall t: nat :: t < 2 ==> Shows(data, B.Bases(t)) && Shows(data, B.Resources(t))
      ensures forall i: B.Icon :: B.Drawn(i) && (i.Plain? || i.State?) ==> Show(B.TABLE, data, i) == Show(B.TABLE, before, i)
    {
      var ally := CountBases(0);
      var horde := CountBases(1);
      data := FillInitialWorldState(before, B.Bases(0), ally);
      data := FillInitialWorldState(data, B.Bases(1), horde);
      data := FillInitialWorldState(data, B.Resources(0), teamScores[0]);
      data := FillInitialWorldState(data, B.Resources(1), teamScores[1]);
    }

    /** The world states for a client that joins now: afterwards it agrees with the battle. */
    method FillInitialWorldStates() returns (data: map<nat, int>)
      requires Shaped()
      ensures I.Agrees(Value().(client := data))
    {
      var plain := FillPlain();
      var filled := FillNodes(plain);
      data := FillCounts(filled);
      forall i | B.Drawn(i) ensures Show(B.TABLE, data, i) == I.Snapshot(Value().(client := data), i) {
        match i
        case Plain(n) => assert Shows(plain, B.Plain(n));
        case State(n, k) => assert ShowsNode(filled, n) && Shows(filled, B.State(n, k));
        case Bases(team) => assert Shows(data, B.Bases(team));
        case Resources(team) => assert Shows(data, B.Resources(team));
      }
    }
  }
}
