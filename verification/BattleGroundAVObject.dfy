/** Alterac Valley as the battleground object runs it: node and mine records in place, spawns
    through the event layer, world states to the clients. */
module BattleGroundAVObject {
  import V = BattleGroundAV
  import I = BattleGroundAVInvariants
  import opened WorldStates
  import Ev = BattleGroundEvents

  class BattleGroundAV {
    const nodes: array<V.Node>
    const mines: array<V.Mine>
    const layer: Ev.EventLayer
    var scraps: seq<nat>
    var scores: seq<int>
    var ends: seq<nat>
    var running: bool
    var client: map<nat, int>
    ghost const homes: map<Ev.Guid, Ev.Home>

    constructor (client: map<nat, int>, ghost homes: map<Ev.Guid, Ev.Home>)
      ensures Valid() && Value() == I.Start(client) && fresh(nodes) && fresh(mines) && fresh(layer)
    {
      nodes := new V.Node[V.NODES](i requires 0 <= i => I.StartNode(i));
      mines := new V.Mine[2](i => V.Mine(V.NEUTRAL, V.NEUTRAL, V.MINE_TICK_TIMER, 0));
      var active := I.StartActive();
      layer := new Ev.EventLayer(active);
      this.client, this.homes := client, homes;
      scraps, scores, ends, running := [0, 0], [V.INITIAL_POINTS, V.INITIAL_POINTS], [], true;
      new;
      I.StartOk(client);
      assert nodes[..] == I.Start(client).nodes;
      assert mines[..] == I.Start(client).mines;
    }

    function Value(): V.Battle
      reads this, nodes, mines, layer
    {
      V.Battle(nodes[..], mines[..], scraps, scores, layer.activeEvents, ends, running, client)
    }

    /** The records are sound, and the event layer is in order. */
    ghost predicate Valid()
      reads this, nodes, mines, layer
    {
      V.NodesOk(Value()) && Ev.Exclusive(layer.Value()) && Ev.OneHome(layer.Value(), homes)
    }

    method SpawnEvent(event1: nat, event2: nat, on: bool)
      requires Valid() && event1 in layer.activeEvents && event2 != Ev.EVENT_NONE
      modifies layer
      ensures Valid() && Value() == V.SpawnEvent(old(Value()), event1, event2, on)
    {
      Ev.SpawnExclusive(layer.Value(), homes, event1, event2, on);
      Ev.SpawnSwitches(layer.Value(), event1, event2, on);
      layer.SpawnEvent(event1, event2, on);
    }

    /** A world state goes out under its number, which is one of the table. */
    method UpdateWorldState(i: V.Icon, v: int)
      requires Valid() && V.Drawn(i)
      modifies this`client
      ensures Valid() && Value() == V.Send(old(Value()), i, v)
    {
      client := Store(V.TABLE, client, i, v);
    }

    method PopulateNode(i: nat)
      requires Valid() && i < V.NODES
      modifies layer
      ensures Valid() && Value() == V.PopulateNode(old(Value()), i)
    {
      assert V.NodeOk(nodes[i], i) && V.Channel(i) && (i < V.FIRST_TOWER ==> V.Channel(V.NODES + i));
      var n := nodes[i];
      if !n.tower && n.owner != V.NEUTRAL {
        var graveDefenderType := V.Tier(scraps[n.owner]);
        if n.state == V.CONTROLLED {
          SpawnEvent(V.NODES + i, n.owner * 4 + graveDefenderType, true);
        } else {
          SpawnEvent(V.NODES + i, n.prevOwner * 4 + graveDefenderType, false);
        }
      }
      SpawnEvent(i, V.NodeKind(n.state, n.owner), true);
    }

    method UpdateNodeWorldState(i: nat)
      requires Valid() && i < V.NODES && nodes[i].owner < 2
      modifies this`client
      ensures Valid() && V.NodeOk(nodes[i], i) && Value() == V.UpdateNodeWorldState(old(Value()), i)
    {
      assert V.NodeOk(Value().nodes[i], i);
      var n := nodes[i];
      UpdateWorldState(V.NodeIcon(i, V.NodeKind(n.state, n.owner)), 1);
      if n.prevOwner == V.NEUTRAL {
        UpdateWorldState(V.SnowfallNeutral, 0);
      } else {
        UpdateWorldState(V.NodeIcon(i, V.NodeKind(n.prevState, n.prevOwner)), 0);
      }
    }

    /** Writes a node record. */
    method SetNode(i: nat, n: V.Node)
      requires Valid() && i < V.NODES && V.NodeOk(n, i)
      modifies nodes
      ensures Valid() && Value() == V.SetNode(old(Value()), i, n)
    {
      nodes[i] := n;
      assert nodes[..] == old(nodes[..])[i := n];
    }

    method EventPlayerAssaultsPoint(i: nat, team: nat)
      requires Valid() && i < V.NODES && team < 2
      modifies this`client, nodes, layer
      ensures Valid() && Value() == V.AssaultsPoint(old(Value()), i, team)
      ensures old(I.Ok(Value())) ==> I.Ok(Value())
    {
      if I.Ok(Value()) {
        I.AssaultsPointOk(Value(), i, team);
      }
      assert V.NodeOk(nodes[i], i);
      if nodes[i].owner == team || team == nodes[i].totalOwner {
        return;
      }
      SetNode(i, V.AssaultNode(nodes[i], team));
      UpdateNodeWorldState(i);
      PopulateNode(i);
    }

    method EventPlayerDefendsPoint(i: nat, team: nat)
      requires Valid() && i < V.NODES && team < 2
      modifies this`client, nodes, layer
      ensures Valid() && Value() == V.DefendsPoint(old(Value()), i, team)
      ensures old(I.Ok(Value())) ==> I.Ok(Value())
    {
      if I.Ok(Value()) {
        I.DefendsPointOk(Value(), i, team);
      }
      assert V.NodeOk(nodes[i], i);
      if nodes[i].owner == team || nodes[i].state != V.ASSAULTED {
        return;
      }
      if nodes[i].totalOwner == V.NEUTRAL {
        EventPlayerAssaultsPoint(i, team);
        return;
      }
      if nodes[i].prevOwner != team {
        return;
      }
      SetNode(i, V.DefendNode(nodes[i], team));
      PopulateNode(i);
      UpdateNodeWorldState(i);
    }

    method UpdateScore(team: nat, points: int)
      requires Valid() && team < 2
      modifies this`scores, this`client, this`ends, this`running
      ensures Valid() && Value() == V.UpdateScore(old(Value()), team, points)
    {
      scores := scores[team := scores[team] + points];
      if points < 0 && scores[team] < 1 {
        scores := scores[team := 0];
        EndBattleGround(1 - team);
      }
      UpdateWorldState(V.Score(team), scores[team]);
    }

    method EndBattleGround(winner: nat)
      requires Valid()
      modifies this`ends, this`running
      ensures Valid() && Value() == V.EndBattle(old(Value()), winner)
    {
      ends, running := ends + [winner], false;
    }

    method LoseTower(marshal: nat, team: nat)
      requires Valid() && V.MARSHALS <= marshal < V.MARSHALS + 8 && team < 2
      modifies this`scores, this`client, this`ends, this`running, layer
      ensures Valid() && Value() == V.LoseTower(old(Value()), marshal, team)
    {
      assert V.Channel(marshal);
      SpawnEvent(marshal, 0, false);
      UpdateScore(team, -V.RES_TOWER);
    }

    method EventPlayerDestroyedPoint(i: nat)
      requires Valid() && i < V.NODES && nodes[i].state == V.ASSAULTED
      modifies this, nodes, layer
      ensures Valid() && Value() == V.DestroyedPoint(old(Value()), i)
    {
      TakeNode(i);
      var owner := nodes[i].owner;
      if nodes[i].tower {
        assert V.NodeOk(nodes[i], i);
        LoseTower(V.MARSHALS + i - V.FIRST_TOWER, 1 - owner);
      }
    }

    method TakeNode(i: nat)
      requires Valid() && i < V.NODES && nodes[i].state == V.ASSAULTED
      modifies this`client, nodes, layer
      ensures Valid() && Value() == V.TakeNode(old(Value()), i)
    {
      assert V.NodeOk(nodes[i], i);
      SetNode(i, V.DestroyNode(nodes[i]));
      PopulateNode(i);
      UpdateNodeWorldState(i);
    }

    method SetMine(m: nat, mine: V.Mine)
      requires Valid() && m < 2 && mine.owner < 3 && mine.prevOwner < 3
      modifies mines
      ensures Valid() && Value() == old(Value()).(mines := old(mines[..])[m := mine])
    {
      mines[m] := mine;
      assert mines[..] == old(mines[..])[m := mine];
    }

    method ChangeMineOwner(m: nat, team: nat)
      requires Valid() && m < 2 && team < 3
      modifies this`client, mines, layer
      ensures Valid() && Value() == V.ChangeMineOwner(old(Value()), m, team)
      ensures old(I.Ok(Value())) ==> I.Ok(Value())
    {
      if I.Ok(Value()) {
        I.ChangeMineOwnerOk(Value(), m, team);
      }
      assert V.Channel(V.MINE_EVENT + m) && V.Channel(V.MINE_BOSSES + m);
      if mines[m].owner == team {
        SetMine(m, mines[m].(timer := V.MINE_TICK_TIMER));
        return;
      }
      SetMine(m, mines[m].(timer := V.MINE_TICK_TIMER, prevOwner := mines[m].owner, owner := team,
                           reclaim := if team == V.NEUTRAL then mines[m].reclaim else V.MINE_RECLAIM_TIMER));
      SendMineWorldStates(m);
      SpawnEvent(V.MINE_EVENT + m, team, true);
      SpawnEvent(V.MINE_BOSSES + m, team, true);
    }

    method SendMineWorldStates(m: nat)
      requires Valid() && m < 2
      modifies this`client
      ensures Valid() && Value() == V.SendMine(old(Value()), m)
    {
      UpdateWorldState(V.MineIcon(m, mines[m].owner), 1);
      if mines[m].owner != mines[m].prevOwner {
        UpdateWorldState(V.MineIcon(m, mines[m].prevOwner), 0);
      }
    }

    method Update(diff: nat)
      requires Valid()
      modifies this, nodes, mines, layer
      ensures Valid() && Value() == V.Update(old(Value()), diff)
      ensures old(I.Ok(Value())) ==> I.Ok(Value())
    {
      if I.Ok(Value()) {
        I.UpdateOk(Value(), diff);
      }
      if !running {
        return;
      }
      UpdateMine(0, diff);
      UpdateMine(1, diff);
      UpdateNodes(diff);
    }

    method UpdateNodes(diff: nat)
      requires Valid()
      modifies this, nodes, layer
      ensures Valid() && Value() == V.UpdateNodes(old(Value()), 0, diff)
    {
      var i := 0;
      while i < V.NODES
        invariant Valid() && i <= V.NODES
        invariant V.UpdateNodes(Value(), i, diff) == V.UpdateNodes(old(Value()), 0, diff)
      {
        UpdateNode(i, diff);
        i := i + 1;
      }
    }

    method UpdateMine(m: nat, diff: nat)
      requires Valid() && m < 2
      modifies this, mines, layer
      ensures Valid() && Value() == V.UpdateMine(old(Value()), m, diff)
    {
      if mines[m].owner == V.NEUTRAL {
        return;
      }
      PayMine(m, diff);
      if mines[m].reclaim > diff {
        SetMine(m, mines[m].(reclaim := mines[m].reclaim - diff));
      } else {
        ChangeMineOwner(m, V.NEUTRAL);
      }
    }

    method PayMine(m: nat, diff: nat)
      requires Valid() && m < 2 && mines[m].owner != V.NEUTRAL
      modifies this, mines
      ensures Valid() && Value() == V.PayMine(old(Value()), m, diff)
    {
      var timer := mines[m].timer - diff;
      if timer <= 0 {
        UpdateScore(mines[m].owner, 1);
        timer := V.MINE_TICK_TIMER;
      }
      SetMine(m, mines[m].(timer := timer));
    }

    method UpdateNode(i: nat, diff: nat)
      requires Valid() && i < V.NODES
      modifies this, nodes, layer
      ensures Valid() && Value() == V.UpdateNode(old(Value()), i, diff)
    {
      assert V.NodeOk(nodes[i], i);
      if nodes[i].state == V.ASSAULTED {
        if nodes[i].timer > diff {
          SetNode(i, nodes[i].(timer := nodes[i].timer - diff));
        } else {
          EventPlayerDestroyedPoint(i);
        }
      }
    }

    method HandleQuestComplete(team: nat)
      requires Valid() && team < 2
      modifies this, layer
      ensures Valid() && Value() == V.TurnInScraps(old(Value()), team)
      ensures old(I.Ok(Value())) ==> I.Ok(Value())
    {
      if I.Ok(Value()) {
        I.AddScrapsOk(Value(), team);
      }
      if !running {
        return;
      }
      scraps := scraps[team := scraps[team] + 20];
      if scraps[team] == 500 || scraps[team] == 1000 || scraps[team] == 1500 {
        var i := 0;
        while i < V.FIRST_TOWER
          invariant Valid() && i <= V.FIRST_TOWER
          invariant Value() == old(Value()).(scraps := scraps, active := layer.activeEvents)
          invariant scraps == old(scraps)[team := old(scraps[team]) + 20]
          invariant V.Upgrade(layer.activeEvents, nodes[..], scraps, team, i)
                 == V.Upgrade(old(layer.activeEvents), nodes[..], scraps, team, 0)
        {
          if nodes[i].owner == team && nodes[i].state == V.CONTROLLED {
            PopulateNode(i);
          }
          i := i + 1;
        }
      }
    }

    /** One entry of the list for a new client. */
    static method FillInitialWorldState(before: map<nat, int>, i: V.Icon, v: int) returns (data: map<nat, int>)
      requires V.Drawn(i)
      ensures Clean(V.TABLE, before) ==> Clean(V.TABLE, data)
      ensures forall icon :: V.Drawn(icon) ==> Show(V.TABLE, data, icon) == if icon == i then v else Show(V.TABLE, before, icon)
    {
      data := Store(V.TABLE, before, i, v);
    }

    /** The icon of a node for one state, as held by one team. */
    static method FillIcon(before: map<nat, int>, i: nat, n: V.Node, kind: nat, lit: bool) returns (data: map<nat, int>)
      requires i < V.NODES && kind < 4 && (lit <==> I.Lit(n, kind) == 1)
      ensures I.Apart(before, data, i) && I.IconTold(data, i, n, kind)
      ensures forall k: nat :: k < 4 && I.IconTold(before, i, n, k) ==> I.IconTold(data, i, n, k)
    {
      data := FillInitialWorldState(before, V.NodeIcon(i, kind), if lit then 1 else 0);
    }

    /** Two icons for each state: one for each team. */
    static method FillNode(before: map<nat, int>, i: nat, n: V.Node) returns (data: map<nat, int>)
      requires i < V.NODES && V.NodeOk(n, i)
      ensures I.Apart(before, data, i) && I.NodeTold(data, i, n)
    {
      data := before;
      for j := 0 to 2
        invariant I.Apart(before, data, i)
        invariant forall l: nat :: l < j ==> I.StateTold(data, i, n, l)
      {
        ghost var last := data;
        var stateok := n.state == j;
        data := FillIcon(data, i, n, j, n.owner == V.ALLIANCE && stateok);
        data := FillIcon(data, i, n, 2 + j, n.owner == V.HORDE && stateok);
        forall l: nat | l < j ensures I.StateTold(data, i, n, l) {
          assert I.StateTold(last, i, n, l);
          assert I.IconTold(last, i, n, l) && I.IconTold(last, i, n, 2 + l);
        }
      }
      assert I.StateTold(data, i, n, V.ASSAULTED) && I.StateTold(data, i, n, V.CONTROLLED);
    }

    method FillNodes() returns (data: map<nat, int>)
      requires Valid()
      ensures Clean(V.TABLE, data)
      ensures forall k: nat :: k < V.NODES ==> I.NodeTold(data, k, nodes[k])
      ensures forall icon: V.Icon :: V.Drawn(icon) && !icon.NodeIcon? ==> Show(V.TABLE, data, icon) == 0
    {
      data := map[];
      var i := 0;
      while i < V.NODES
        invariant i <= V.NODES
        invariant Clean(V.TABLE, data)
        invariant forall k: nat :: k < i ==> I.NodeTold(data, k, nodes[k])
        invariant forall icon: V.Icon :: V.Drawn(icon) && !icon.NodeIcon? ==> Show(V.TABLE, data, icon) == 0
      {
        ghost var before := data;
        assert V.NodeOk(Value().nodes[i], i);
        data := FillNode(data, i, nodes[i]);
        forall k: nat | k < i ensures I.NodeTold(data, k, nodes[k]) {
          I.ApartKeeps(before, data, i, k, nodes[k]);
        }
        i := i + 1;
      }
    }

    static method FillMine(before: map<nat, int>, m: nat, mine: V.Mine) returns (data: map<nat, int>)
      requires m < 2 && mine.owner < 3 && mine.prevOwner < 3
      requires forall o: nat :: o < 3 ==> Show(V.TABLE, before, V.MineIcon(m, o)) == 0
      ensures Clean(V.TABLE, before) ==> Clean(V.TABLE, data)
      ensures forall o: nat :: o < 3 ==> Show(V.TABLE, data, V.MineIcon(m, o)) == if mine.owner == o then 1 else 0
      ensures forall icon: V.Icon :: V.Drawn(icon) && !(icon.MineIcon? && icon.mine == m) ==>
                Show(V.TABLE, data, icon) == Show(V.TABLE, before, icon)
    {
      data := FillInitialWorldState(before, V.MineIcon(m, mine.owner), 1);
      if mine.owner != mine.prevOwner {
        data := FillInitialWorldState(data, V.MineIcon(m, mine.prevOwner), 0);
      }
    }

    method FillMines(before: map<nat, int>) returns (data: map<nat, int>)
      requires Valid() && Clean(V.TABLE, before)
      requires forall m: nat, o: nat :: m < 2 && o < 3 ==> Show(V.TABLE, before, V.MineIcon(m, o)) == 0
      ensures Clean(V.TABLE, data)
      ensures forall icon: V.Icon :: V.Drawn(icon) && !icon.MineIcon? ==> Show(V.TABLE, data, icon) == Show(V.TABLE, before, icon)
      ensures forall m: nat, o: nat :: m < 2 && o < 3 ==>
                Show(V.TABLE, data, V.MineIcon(m, o)) == if mines[m].owner == o then 1 else 0
    {
      data := before;
      assert forall m: nat :: m < 2 ==> mines[m] == Value().mines[m];
      for m := 0 to 2
        invariant Clean(V.TABLE, data)
        invariant forall icon: V.Icon :: V.Drawn(icon) && !icon.MineIcon? ==> Show(V.TABLE, data, icon) == Show(V.TABLE, before, icon)
        invariant forall l: nat, o: nat :: l < m && o < 3 ==>
                    Show(V.TABLE, data, V.MineIcon(l, o)) == if mines[l].owner == o then 1 else 0
        invariant forall l: nat, o: nat :: m <= l < 2 && o < 3 ==> Show(V.TABLE, data, V.MineIcon(l, o)) == 0
      {
        data := FillMine(data, m, mines[m]);
      }
    }

    /** The unowned snowfall and the reinforcements. */
    method FillRest(before: map<nat, int>) returns (data: map<nat, int>)
      requires Valid() && Clean(V.TABLE, before) && Show(V.TABLE, before, V.SnowfallNeutral) == 0
      ensures Clean(V.TABLE, data)
      ensures Show(V.TABLE, data, V.SnowfallNeutral) == if nodes[V.SNOWFALL].owner == V.NEUTRAL then 1 else 0
      ensures Show(V.TABLE, data, V.Score(V.ALLIANCE)) == scores[V.ALLIANCE] && Show(V.TABLE, data, V.Score(V.HORDE)) == scores[V.HORDE]
      ensures forall icon: V.Icon :: V.Drawn(icon) && (icon.NodeIcon? || icon.MineIcon?) ==>
                Show(V.TABLE, data, icon) == Show(V.TABLE, before, icon)
    {
      data := before;
      if nodes[V.SNOWFALL].owner == V.NEUTRAL {
        data := FillInitialWorldState(data, V.SnowfallNeutral, 1);
      }
      data := FillInitialWorldState(data, V.Score(V.ALLIANCE), scores[V.ALLIANCE]);
      data := FillInitialWorldState(data, V.Score(V.HORDE), scores[V.HORDE]);
    }

    /** The world states for a client that joins now: afterwards it agrees with the battle. */
    method FillInitialWorldStates() returns (data: map<nat, int>)
      requires Valid()
      ensures I.Agrees(Value().(client := data))
    {
      var filled := FillNodes();
      data := FillRest(filled);
      data := FillMines(data);
      forall k: nat | k < V.NODES ensures I.NodeTold(data, k, Value().nodes[k]) {
        assert I.NodeTold(filled, k, nodes[k]);
        I.OthersKeep(filled, data, k, nodes[k]);
      }
      assert forall m: nat :: m < 2 ==> mines[m] == Value().mines[m];
      I.ListAgrees(Value(), data);
    }
  }
}
