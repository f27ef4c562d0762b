/** Warsong Gulch as the battleground object runs it. */
module BattleGroundWSObject {
  import W = BattleGroundWS
  import opened WorldStates
  import Ev = BattleGroundEvents

  class BattleGroundWS {
    const layer: Ev.EventLayer
    var flagState: seq<nat>
    var flagKeepers: seq<W.Guid>
    var flagsTimer: seq<int>
    var flagsDropTimer: seq<int>
    var teamScores: seq<nat>
    var captured: seq<nat>
    var endTimer: nat
    var lastCapturedFlagTeam: nat
    var ends: seq<nat>
    var running: bool
    var client: map<nat, int>
    ghost const homes: map<Ev.Guid, Ev.Home>
    ghost const side: W.Guid -> nat

    constructor (client: map<nat, int>, ghost homes: map<Ev.Guid, Ev.Home>, ghost side: W.Guid -> nat)
      ensures Orderly() && Value() == W.Start(client) && fresh(layer)
      ensures W.Told(Value()) ==> Valid()
    {
      this.client, this.homes, this.side := client, homes, side;
      flagState, flagKeepers := [W.ON_BASE, W.ON_BASE], [0, 0];
      flagsTimer, flagsDropTimer, teamScores, captured := [0, 0], [0, 0], [0, 0], [0, 0];
      endTimer, lastCapturedFlagTeam, ends, running := W.TIME_LIMIT, 0, [], true;
      layer := new Ev.EventLayer(map[W.ALLIANCE := 0, W.HORDE := 0]);
      new;
      W.StartOk(client, side);
    }

    function Value(): W.Battle
      reads this, layer
    {
      W.Battle(flagState, flagKeepers, flagsTimer, flagsDropTimer, teamScores, captured, endTimer, lastCapturedFlagTeam,
               layer.activeEvents, ends, running, client)
    }

    predicate Shaped()
      reads this, layer
    {
      W.Shaped(Value())
    }

    /** The event layer is in order. */
    ghost predicate LayerOk()
      reads layer
    {
      Ev.Exclusive(layer.Value()) && Ev.OneHome(layer.Value(), homes)
    }

    ghost predicate Orderly()
      reads this, layer
    {
      Shaped() && LayerOk()
    }

    /** Everything a run keeps holds, in the records and in the world. */
    ghost predicate Valid()
      reads this, layer
    {
      LayerOk() && W.Ok(Value(), side)
    }

    /** In a running match the flag of a team is in the world exactly while it is at its base and
        the other one does not wait. */
    lemma FlagTrue(g: Ev.Guid, t: nat)
      requires Valid() && running && t < 2 && Ev.Registered(layer.Value(), g, t, 0)
      ensures g in layer.spawned <==> flagState[t] == W.ON_BASE && flagState[W.Other(t)] != W.WAIT_RESPAWN
    {
      assert W.FlagOk(Value(), side, t);
      assert Ev.IsActive(layer.Value(), t, 0) <==> W.Spawned(Value(), t);
    }

    method SpawnFlag(t: nat, on: bool)
      requires Orderly() && t < 2
      modifies layer
      ensures LayerOk()
      ensures Value() == W.SpawnFlag(old(Value()), t, on)
    {
      Ev.SpawnExclusive(layer.Value(), homes, t, 0, on);
      Ev.SpawnSwitches(layer.Value(), t, 0, on);
      layer.SpawnEvent(t, 0, on);
    }

    /** A world state goes out under its number, which is one of the table. */
    method UpdateWorldState(i: W.Icon, v: int)
      requires W.Drawn(i)
      modifies this`client
      ensures Value() == W.Send(old(Value()), i, v)
    {
      client := Store(W.TABLE, client, i, v);
    }

    method RespawnFlag(t: nat, captured: bool)
      requires Orderly() && t < 2
      modifies this`flagState, layer
      ensures LayerOk()
      ensures Value() == W.RespawnFlag(old(Value()), t, captured)
    {
      flagState := flagState[t := W.ON_BASE];
      SpawnFlag(t, true);
      if captured {
        SpawnFlag(W.ALLIANCE, true);
        SpawnFlag(W.HORDE, true);
      }
    }

    method PickUp(t: nat, g: W.Guid)
      requires Orderly() && t < 2
      modifies this`flagState, this`flagKeepers, this`client, layer
      ensures LayerOk()
      ensures Value() == W.PickUp(old(Value()), t, g)
    {
      SpawnFlag(t, false);
      flagKeepers := flagKeepers[t := g];
      flagState := flagState[t := W.ON_PLAYER];
      UpdateWorldState(W.Carrier(W.Other(t)), W.CARRYING);
      UpdateWorldState(W.Flag(t), W.IN_HANDS);
    }

    method TakeFromBase(t: nat, g: W.Guid, team: nat, event1: nat)
      requires Orderly() && t < 2
      modifies this`flagState, this`flagKeepers, this`client, layer
      ensures LayerOk()
      ensures Value() == W.TakeFromBase(old(Value()), t, g, team, event1)
    {
      if team == W.Other(t) && flagState[t] == W.ON_BASE && event1 == t {
        PickUp(t, g);
      }
    }

    method TakeFromGround(t: nat, g: W.Guid, team: nat, close: bool)
      requires Orderly() && t < 2
      modifies this`flagState, this`flagKeepers, this`client, layer
      ensures LayerOk()
      ensures Value() == W.TakeFromGround(old(Value()), t, g, team, close)
    {
      if flagState[t] == W.ON_GROUND && close {
        if team == t {
          UpdateWorldState(W.Carrier(W.Other(t)), W.NOT_CARRYING);
          RespawnFlag(t, false);
        } else {
          PickUp(t, g);
        }
      }
    }

    method EventPlayerClickedOnFlag(g: W.Guid, team: nat, event1: nat, close: bool)
      requires Orderly() && team < 2
      modifies this`flagState, this`flagKeepers, this`client, layer
      ensures LayerOk()
      ensures Value() == W.ClickedOnFlag(old(Value()), g, team, event1, close)
      ensures old(Valid()) && g != 0 && team == side(g) && (event1 < 2 ==> W.Spawned(old(Value()), event1)) ==> Valid()
    {
      if W.Ok(Value(), side) && g != 0 && team == side(g) && (event1 < 2 ==> W.Spawned(Value(), event1)) {
        W.ClickedOnFlagOk(Value(), side, g, team, event1, close);
      }
      if !running {
        return;
      }
      TakeFromBase(W.ALLIANCE, g, team, event1);
      TakeFromBase(W.HORDE, g, team, event1);
      TakeFromGround(W.ALLIANCE, g, team, close);
      TakeFromGround(W.HORDE, g, team, close);
    }

    method EventPlayerDroppedFlag(g: W.Guid, team: nat)
      requires Shaped() && team < 2
      modifies this`flagState, this`flagKeepers, this`flagsDropTimer, this`client
      ensures Value() == W.DroppedFlag(old(Value()), g, team)
      ensures old(Valid()) ==> Valid()
    {
      if W.Ok(Value(), side) {
        W.DroppedFlagOk(Value(), side, g, team);
      }
      var t := W.Other(team);
      if flagKeepers[t] == 0 || flagKeepers[t] != g {
        return;
      }
      flagKeepers := flagKeepers[t := 0];
      if running {
        flagState := flagState[t := W.ON_GROUND];
        UpdateWorldState(W.Carrier(team), W.NOT_CARRYING);
        UpdateWorldState(W.Flag(t), W.DROPPED);
        flagsDropTimer := flagsDropTimer[t := W.FLAG_DROP_TIME];
      }
    }

    method DespawnFlags()
      requires Orderly()
      modifies layer
      ensures LayerOk()
      ensures Value() == W.SpawnFlag(W.SpawnFlag(old(Value()), W.ALLIANCE, false), W.HORDE, false)
      ensures unchanged(this)
    {
      SpawnFlag(W.ALLIANCE, false);
      SpawnFlag(W.HORDE, false);
    }

    /** The records of a capture: the flag waits, and the score goes up to its limit. */
    method RecordCapture(team: nat)
      requires Orderly() && team < 2
      modifies this`flagState, this`flagKeepers, this`teamScores, this`captured
      ensures Orderly()
      ensures Value() == old(Value()).(keeper := old(flagKeepers)[W.Other(team) := 0],
                                       flag := old(flagState)[W.Other(team) := W.WAIT_RESPAWN],
                                       scores := teamScores, captured := old(captured)[team := old(captured)[team] + 1])
      ensures var score := old(teamScores)[team];
              teamScores == old(teamScores)[team := if score < W.MAX_TEAM_SCORE then score + 1 else score]
    {
      flagKeepers := flagKeepers[W.Other(team) := 0];
      flagState := flagState[W.Other(team) := W.WAIT_RESPAWN];
      captured := captured[team := captured[team] + 1];
      if teamScores[team] < W.MAX_TEAM_SCORE {
        teamScores := teamScores[team := teamScores[team] + 1];
      }
    }

    method AddCapture(team: nat)
      requires Orderly() && team < 2
      modifies this`flagState, this`flagKeepers, this`teamScores, this`captured, this`client, layer
      ensures LayerOk()
      ensures Value() == W.Score(old(Value()), team)
    {
      RecordCapture(team);
      DespawnFlags();
      UpdateWorldState(W.Carrier(team), W.NOT_CARRYING);
      UpdateWorldState(W.Captures(team), teamScores[team]);
    }

    /** No icon shows a flag any more. */
    method ClearFlagIcons()
      requires Shaped()
      modifies this`client
      ensures var s1 := W.Send(W.Send(old(Value()), W.Flag(W.ALLIANCE), W.AT_HOME), W.Flag(W.HORDE), W.AT_HOME);
              Value() == W.Send(W.Send(s1, W.Carrier(W.ALLIANCE), W.NOT_CARRYING), W.Carrier(W.HORDE), W.NOT_CARRYING)
    {
      UpdateWorldState(W.Flag(W.ALLIANCE), W.AT_HOME);
      UpdateWorldState(W.Flag(W.HORDE), W.AT_HOME);
      UpdateWorldState(W.Carrier(W.ALLIANCE), W.NOT_CARRYING);
      UpdateWorldState(W.Carrier(W.HORDE), W.NOT_CARRYING);
    }

    method EventPlayerCapturedFlag(team: nat)
      requires Orderly() && team < 2
      modifies this, layer
      ensures LayerOk()
      ensures Value() == W.CapturedFlag(old(Value()), team)
    {
      if !running {
        return;
      }
      lastCapturedFlagTeam := W.Name(team);
      if flagKeepers[W.Other(team)] == 0 {
        return;
      }
      AddCapture(team);
      var winner := 0;
      if teamScores[W.ALLIANCE] == W.MAX_TEAM_SCORE {
        winner := W.Name(W.ALLIANCE);
      }
      if teamScores[W.HORDE] == W.MAX_TEAM_SCORE {
        winner := W.Name(W.HORDE);
      }
      if winner != 0 {
        ClearFlagIcons();
        EndBattleGround(winner);
      } else {
        flagsTimer := flagsTimer[W.Other(team) := W.FLAG_RESPAWN_TIME];
      }
    }

    method EndBattleGround(winner: nat)
      requires Shaped()
      modifies this`ends, this`running
      ensures Value() == W.EndBattle(old(Value()), winner)
    {
      ends, running := ends + [winner], false;
    }

    method HandleAreaTrigger(home: nat, g: W.Guid, team: nat)
      requires Orderly() && home < 2 && team < 2
      modifies this, layer
      ensures LayerOk()
      ensures Value() == W.AreaTrigger(old(Value()), home, g, team)
      ensures old(Valid()) && g != 0 && team == side(g) ==> Valid()
    {
      if W.Ok(Value(), side) && g != 0 && team == side(g) {
        W.AreaTriggerOk(Value(), side, home, g, team);
      }
      if !running {
        return;
      }
      if flagState[W.Other(home)] != W.ON_BASE && flagState[home] == W.ON_BASE {
        if flagKeepers[W.Other(home)] == g {
          EventPlayerCapturedFlag(team);
        }
      }
    }

    method RemovePlayer(g: W.Guid, team: nat, online: bool)
      requires Orderly() && team < 2
      modifies this, layer
      ensures LayerOk()
      ensures Value() == W.RemovePlayer(old(Value()), g, team, online)
      ensures old(Valid()) ==> Valid()
    {
      if W.Ok(Value(), side) {
        W.RemovePlayerOk(Value(), side, g, team, online);
      }
      LeaveOne(W.ALLIANCE, g, team, online);
      LeaveOne(W.HORDE, g, team, online);
    }

    method LeaveOne(t: nat, g: W.Guid, team: nat, online: bool)
      requires Orderly() && t < 2 && team < 2
      modifies this, layer
      ensures LayerOk()
      ensures Value() == W.LeaveOne(old(Value()), t, g, team, online)
    {
      if flagKeepers[t] != 0 && flagKeepers[t] == g {
        if !online {
          flagKeepers := flagKeepers[t := 0];
          RespawnFlag(t, false);
        } else {
          EventPlayerDroppedFlag(g, team);
        }
      }
    }

    method UpdateWait(t: nat, diff: nat)
      requires Orderly() && t < 2
      modifies this`flagsTimer, this`flagState, layer
      ensures LayerOk()
      ensures Value() == W.UpdateWait(old(Value()), t, diff)
    {
      if flagState[t] == W.WAIT_RESPAWN {
        var timer := flagsTimer[t] - diff;
        if timer < 0 {
          flagsTimer := flagsTimer[t := 0];
          RespawnFlag(t, true);
        } else {
          flagsTimer := flagsTimer[t := timer];
        }
      }
    }

    method UpdateGround(t: nat, diff: nat)
      requires Orderly() && t < 2
      modifies this`flagsDropTimer, this`flagState, layer
      ensures LayerOk()
      ensures Value() == W.UpdateGround(old(Value()), t, diff)
    {
      if flagState[t] == W.ON_GROUND {
        var timer := flagsDropTimer[t] - diff;
        if timer < 0 {
          flagsDropTimer := flagsDropTimer[t := 0];
          RespawnFlag(t, false);
        } else {
          flagsDropTimer := flagsDropTimer[t := timer];
        }
      }
    }

    method UpdateClock(diff: nat)
      requires Shaped()
      modifies this
      ensures Value() == W.UpdateClock(old(Value()), diff)
    {
      if endTimer <= diff {
        if teamScores[W.ALLIANCE] > teamScores[W.HORDE] {
          EndBattleGround(W.Name(W.ALLIANCE));
        } else if teamScores[W.ALLIANCE] < teamScores[W.HORDE] {
          EndBattleGround(W.Name(W.HORDE));
        } else {
          EndBattleGround(lastCapturedFlagTeam);
        }
      } else {
        var minutesLeftPrev := W.MinutesLeft(endTimer);
        endTimer := endTimer - diff;
        var minutesLeft := W.MinutesLeft(endTimer);
        if minutesLeft != minutesLeftPrev {
          UpdateWorldState(W.Minutes, minutesLeft);
        }
      }
    }

    method Update(diff: nat)
      requires Orderly()
      modifies this, layer
      ensures LayerOk()
      ensures Value() == W.Update(old(Value()), diff)
      ensures old(Valid()) ==> Valid()
    {
      if W.Ok(Value(), side) {
        W.UpdateOk(Value(), side, diff);
      }
      if !running {
        return;
      }
      UpdateWait(W.ALLIANCE, diff);
      UpdateGround(W.ALLIANCE, diff);
      UpdateWait(W.HORDE, diff);
      UpdateGround(W.HORDE, diff);
      UpdateClock(diff);
    }

    /** One entry of the list for a new client. */
    static method FillInitialWorldState(before: map<nat, int>, i: W.Icon, v: int) returns (data: map<nat, int>)
      requires W.Drawn(i)
      ensures Clean(W.TABLE, before) ==> Clean(W.TABLE, data)
      ensures forall j :: W.Drawn(j) ==> Show(W.TABLE, data, j) == if j == i then v else Show(W.TABLE, before, j)
    {
      data := Store(W.TABLE, before, i, v);
    }

    method FillFlag(before: map<nat, int>, t: nat) returns (data: map<nat, int>)
      requires Shaped() && t < 2
      ensures Clean(W.TABLE, before) ==> Clean(W.TABLE, data)
      ensures Show(W.TABLE, data, W.Flag(t)) == W.Snapshot(Value(), W.Flag(t))
      ensures forall j :: W.Drawn(j) && j != W.Flag(t) ==> Show(W.TABLE, data, j) == Show(W.TABLE, before, j)
    {
      if flagState[t] == W.ON_GROUND {
        data := FillInitialWorldState(before, W.Flag(t), W.DROPPED);
      } else if flagState[t] == W.ON_PLAYER {
        data := FillInitialWorldState(before, W.Flag(t), W.IN_HANDS);
      } else {
        data := FillInitialWorldState(before, W.Flag(t), W.AT_HOME);
      }
    }

    method FillCarrier(before: map<nat, int>, t: nat) returns (data: map<nat, int>)
      requires Shaped() && t < 2
      ensures Clean(W.TABLE, before) ==> Clean(W.TABLE, data)
      ensures Show(W.TABLE, data, W.Carrier(t)) == W.Snapshot(Value(), W.Carrier(t))
      ensures forall j :: W.Drawn(j) && j != W.Carrier(t) ==> Show(W.TABLE, data, j) == Show(W.TABLE, before, j)
    {
      data := FillInitialWorldState(before, W.Carrier(t), if flagState[t] == W.ON_PLAYER then W.CARRYING else W.NOT_CARRYING);
    }

    method FillScores() returns (data: map<nat, int>)
      requires Shaped()
      ensures Clean(W.TABLE, data)
      ensures forall i: W.Icon :: i in {W.Captures(W.ALLIANCE), W.Captures(W.HORDE), W.Limit, W.Clock, W.Minutes} ==>
                Show(W.TABLE, data, i) == W.Snapshot(Value(), i)
    {
      data := FillInitialWorldState(map[], W.Captures(W.ALLIANCE), teamScores[W.ALLIANCE]);
      data := FillInitialWorldState(data, W.Captures(W.HORDE), teamScores[W.HORDE]);
      data := FillInitialWorldState(data, W.Limit, W.MAX_TEAM_SCORE);
      data := FillInitialWorldState(data, W.Clock, 1);
      data := FillInitialWorldState(data, W.Minutes, W.MinutesLeft(endTimer));
    }

    /** The world states for a client that joins now, in an order of no importance. */
    method FillInitialWorldStates() returns (data: map<nat, int>)
      requires Shaped()
      ensures W.Filled(Value(), data)
    {
      data := FillScores();
      data := FillFlag(data, W.ALLIANCE);
      data := FillFlag(data, W.HORDE);
      data := FillCarrier(data, W.HORDE);
      data := FillCarrier(data, W.ALLIANCE);
    }
  }
}
