/** Eye of the Storm as the battleground object runs it, erasing and appending in its lists of
    players while it walks them. */
module BattleGroundEYObject {
  import Y = BattleGroundEY
  import I = BattleGroundEYInvariants
  import opened WorldStates
  import Ev = BattleGroundEvents

  class BattleGroundEY {
    const layer: Ev.EventLayer
    const honorTics: nat
    var pointOwnedByTeam: seq<nat>
    var pointState: seq<nat>
    var pointBarStatus: seq<int>
    var playersNearPoint: seq<seq<Y.Guid>>
    var currentPointPlayersCount: seq<nat>
    var teamPointsCount: seq<nat>
    var teamScores: seq<nat>
    var honorScoreTics: seq<nat>
    var flagState: nat
    var flagKeeper: Y.Guid
    var flagsTimer: int
    var pointAddingTimer: int
    var towerCapCheckTimer: int
    var ends: seq<nat>
    var running: bool
    var client: map<nat, int>
    ghost const homes: map<Ev.Guid, Ev.Home>

    constructor (honorTics: nat, client: map<nat, int>, ghost homes: map<Ev.Guid, Ev.Home>)
      ensures Orderly() && Value() == I.Start(honorTics, client) && fresh(layer)
      ensures I.Agrees(Value()) ==> Valid()
    {
      this.honorTics, this.client, this.homes := honorTics, client, homes;
      pointOwnedByTeam, pointState := [0, 0, 0, 0], [0, 0, 0, 0];
      pointBarStatus := [Y.BAR_MIDDLE, Y.BAR_MIDDLE, Y.BAR_MIDDLE, Y.BAR_MIDDLE];
      playersNearPoint := [[], [], [], [], []];
      currentPointPlayersCount := [0, 0, 0, 0, 0, 0, 0, 0];
      teamPointsCount, teamScores, honorScoreTics := [0, 0], [0, 0], [0, 0];
      flagState, flagKeeper, flagsTimer, pointAddingTimer, towerCapCheckTimer := Y.FLAG_ON_BASE, 0, 0, 0, 0;
      ends, running := [], true;
      layer := new Ev.EventLayer(map[0 := Y.NEUTRAL_EVENT, 1 := Y.NEUTRAL_EVENT, 2 := Y.NEUTRAL_EVENT,
                                     3 := Y.NEUTRAL_EVENT, Y.FLAG_EVENT := Y.FLAG_CENTER]);
      new;
      I.StartOk(honorTics, client);
    }

    function Value(): Y.Battle
      reads this, layer
    {
      Y.Battle(pointOwnedByTeam, pointState, pointBarStatus, playersNearPoint, currentPointPlayersCount,
               teamPointsCount, teamScores, honorScoreTics, honorTics,
               flagState, flagKeeper, flagsTimer, pointAddingTimer, towerCapCheckTimer,
               layer.activeEvents, ends, running, client)
    }

    /** The event layer is in order. */
    ghost predicate LayerOk()
      reads layer
    {
      Ev.Exclusive(layer.Value()) && Ev.OneHome(layer.Value(), homes)
    }

    /** The records of ownership agree, and the event layer is in order. */
    ghost predicate Orderly()
      reads this, layer
    {
      Y.Consistent(Value()) && LayerOk()
    }

    /** Everything a run keeps holds, in the records and in the world. */
    ghost predicate Valid()
      reads this, layer
    {
      LayerOk() && I.Ok(Value())
    }

    /** The objects of a base in the world are those of its owner, or the neutral ones. */
    lemma BannersTrue(g: Ev.Guid, i: nat, kind: nat)
      requires Valid() && i < Y.NODES && Ev.Registered(layer.Value(), g, i, kind)
      ensures g in layer.spawned <==>
              kind == if pointOwnedByTeam[i] == Y.NO_OWNER then Y.NEUTRAL_EVENT else Y.Index(pointOwnedByTeam[i])
    {
      I.BannersTrue(Value(), layer.Value(), g, i, kind);
    }

    method SpawnEvent(event1: nat, event2: nat, on: bool)
      requires LayerOk() && event1 in layer.activeEvents && event2 != Ev.EVENT_NONE
      modifies layer
      ensures LayerOk()
      ensures Value() == Y.SpawnEvent(old(Value()), event1, event2, on)
    {
      Ev.SpawnExclusive(layer.Value(), homes, event1, event2, on);
      Ev.SpawnSwitches(layer.Value(), event1, event2, on);
      layer.SpawnEvent(event1, event2, on);
    }

    /** A world state goes out under its number, which is one of the table. */
    method UpdateWorldState(i: Y.Icon, v: int)
      requires Y.Drawn(i)
      modifies this`client
      ensures Value() == Y.Send(old(Value()), i, v)
    {
      client := Store(Y.TABLE, client, i, v);
    }

    method CheckSomeoneJoinedPoint(crowd: Y.Crowd)
      requires Orderly()
      modifies this`playersNearPoint
      ensures Value() == old(Value()).(near := Y.Joined(old(playersNearPoint), crowd, 0))
    {
      var i := 0;
      while i < Y.NODES
        invariant i <= Y.NODES && |playersNearPoint| == Y.NODES + 1
        invariant Y.Joined(playersNearPoint, crowd, i) == Y.Joined(old(playersNearPoint), crowd, 0)
      {
        JoinPoint(i, crowd);
        i := i + 1;
      }
    }

    method JoinPoint(i: nat, crowd: Y.Crowd)
      requires |playersNearPoint| == Y.NODES + 1 && i < Y.NODES
      modifies this`playersNearPoint
      ensures playersNearPoint == Y.JoinPoint(old(playersNearPoint), crowd, i)
    {
      var j := 0;
      while j < |playersNearPoint[Y.OUT_OF_POINTS]|
        invariant |playersNearPoint| == Y.NODES + 1 && j <= |playersNearPoint[Y.OUT_OF_POINTS]|
        invariant I.JoinFrom(playersNearPoint, crowd, i, j) == I.JoinFrom(old(playersNearPoint), crowd, i, 0)
        decreases |playersNearPoint[Y.OUT_OF_POINTS]| - j
      {
        var out := playersNearPoint[Y.OUT_OF_POINTS];
        if Y.Joins(crowd, out[j], i) {
          playersNearPoint := playersNearPoint[i := playersNearPoint[i] + [out[j]]];
          playersNearPoint := playersNearPoint[Y.OUT_OF_POINTS := Y.Erase(out, j)];
        } else {
          j := j + 1;
        }
      }
      I.JoinFromIs(old(playersNearPoint), crowd, i);
    }

    method CheckSomeoneLeftPoint(crowd: Y.Crowd)
      requires Orderly()
      modifies this`playersNearPoint, this`currentPointPlayersCount
      ensures Value() == Y.LeavePoints(old(Value()), crowd, 0)
    {
      var i := 0;
      while i < Y.NODES
        invariant i <= Y.NODES && Orderly()
        invariant Y.LeavePoints(Value(), crowd, i) == Y.LeavePoints(old(Value()), crowd, 0)
      {
        LeavePoint(i, crowd);
        i := i + 1;
      }
    }

    method LeavePoint(i: nat, crowd: Y.Crowd)
      requires Orderly() && i < Y.NODES
      modifies this`playersNearPoint, this`currentPointPlayersCount
      ensures Value() == Y.LeavePoint(old(Value()), crowd, i)
    {
      var p := Y.Pass(playersNearPoint[i], playersNearPoint[Y.OUT_OF_POINTS], 0, 0);
      var j := 0;
      while j < |p.list|
        invariant Y.LeaveFrom(p, crowd, i, j)
               == Y.LeaveFrom(Y.Pass(old(playersNearPoint)[i], old(playersNearPoint)[Y.OUT_OF_POINTS], 0, 0), crowd, i, 0)
        decreases |p.list| - j
      {
        var g := p.list[j];
        if g !in crowd {
          p := p.(out := p.out + [g], list := p.list[..j] + p.list[j + 1..]);
          j := j + 1;
        } else if i !in crowd[g].at {
          p := p.(out := p.out + [g], list := p.list[..j] + p.list[j + 1..]);
        } else {
          if crowd[g].team == Y.ALLIANCE {
            p := p.(alliance := p.alliance + 1);
          } else {
            p := p.(horde := p.horde + 1);
          }
          j := j + 1;
        }
      }
      playersNearPoint := playersNearPoint[i := p.list][Y.OUT_OF_POINTS := p.out];
      currentPointPlayersCount := currentPointPlayersCount[2 * i := p.alliance][2 * i + 1 := p.horde];
    }

    method UpdatePointsIcons(i: nat, team: nat)
      requires i < |pointState| == Y.NODES && Y.Team(team)
      modifies this`client
      ensures Value() == Y.UpdatePointsIcons(old(Value()), team, i)
    {
      if pointState[i] == Y.UNDER_CONTROL {
        UpdateWorldState(Y.Uncontrol(i), 0);
        UpdateWorldState(Y.Control(i, team), 1);
      } else {
        UpdateWorldState(Y.Control(i, team), 0);
        UpdateWorldState(Y.Uncontrol(i), 1);
      }
    }

    method UpdatePointsCount(team: nat)
      requires |teamPointsCount| == 2 && Y.Team(team)
      modifies this`client
      ensures Value() == Y.UpdatePointsCount(old(Value()), team)
    {
      UpdateWorldState(Y.Bases(team), teamPointsCount[Y.Index(team)]);
    }

    method EventTeamLostPoint(i: nat)
      requires Orderly() && i < Y.NODES && pointOwnedByTeam[i] != Y.NO_OWNER
      modifies this`pointOwnedByTeam, this`pointState, this`teamPointsCount, this`client, layer
      ensures LayerOk()
      ensures Value() == Y.LostPoint(old(Value()), i)
    {
      if !running {
        return;
      }
      var team := pointOwnedByTeam[i];
      Y.DisownConsistent(Value(), i);
      DisownPoint(i);
      UpdatePointsIcons(i, team);
      UpdatePointsCount(team);
    }

    method DisownPoint(i: nat)
      requires Y.Shaped(Value()) && LayerOk() && i < Y.NODES && teamPointsCount[Y.Index(pointOwnedByTeam[i])] > 0
      modifies this`pointOwnedByTeam, this`pointState, this`teamPointsCount, layer
      ensures LayerOk()
      ensures Value() == Y.Disown(old(Value()), i)
    {
      var t := Y.Index(pointOwnedByTeam[i]);
      teamPointsCount := teamPointsCount[t := teamPointsCount[t] - 1];
      pointOwnedByTeam := pointOwnedByTeam[i := Y.NO_OWNER];
      pointState := pointState[i := Y.UNCONTROLLED];
      SpawnEvent(i, Y.NEUTRAL_EVENT, true);
    }

    method EventTeamCapturedPoint(i: nat, team: nat)
      requires Orderly() && i < Y.NODES && pointOwnedByTeam[i] == Y.NO_OWNER && Y.Team(team)
      modifies this`pointOwnedByTeam, this`pointState, this`teamPointsCount, this`client, layer
      ensures LayerOk()
      ensures Value() == Y.CapturedPoint(old(Value()), i, team)
    {
      if !running {
        return;
      }
      OwnPoint(i, team);
      UpdatePointsIcons(i, team);
      UpdatePointsCount(team);
    }

    method OwnPoint(i: nat, team: nat)
      requires Y.Shaped(Value()) && LayerOk() && i < Y.NODES
      modifies this`pointOwnedByTeam, this`pointState, this`teamPointsCount, layer
      ensures LayerOk()
      ensures Value() == Y.Own(old(Value()), i, team)
    {
      var t := Y.Index(team);
      teamPointsCount := teamPointsCount[t := teamPointsCount[t] + 1];
      SpawnEvent(i, t, true);
      pointOwnedByTeam := pointOwnedByTeam[i := team];
      pointState := pointState[i := Y.UNDER_CONTROL];
    }

    method UpdatePointStatuses(crowd: Y.Crowd)
      requires Orderly() && Y.ValidCrowd(crowd)
      modifies this, layer
      ensures LayerOk()
      ensures Value() == Y.UpdatePoints(old(Value()), crowd, 0)
    {
      var i := 0;
      while i < Y.NODES
        invariant i <= Y.NODES && Orderly()
        invariant Y.UpdatePoints(Value(), crowd, i) == Y.UpdatePoints(old(Value()), crowd, 0)
      {
        UpdatePointStatus(i, crowd);
        i := i + 1;
      }
    }

    method UpdatePointStatus(i: nat, crowd: Y.Crowd)
      requires Orderly() && i < Y.NODES && Y.ValidCrowd(crowd)
      modifies this, layer
      ensures LayerOk()
      ensures Value() == Y.UpdatePoint(old(Value()), crowd, i)
    {
      if playersNearPoint[i] == [] {
        return;
      }
      var bar := PushBar(pointBarStatus[i], currentPointPlayersCount[2 * i], currentPointPlayersCount[2 * i + 1]);
      pointBarStatus := pointBarStatus[i := bar];
      GreetPlayers(i, crowd, Y.Classify(bar));
    }

    method PushBar(before: int, alliance: nat, horde: nat) returns (bar: int)
      ensures bar == Y.Clamp(before + Y.Push(alliance, horde))
    {
      bar := before + if alliance - horde < Y.MAX_CAPTURERS then alliance - horde else Y.MAX_CAPTURERS;
      if bar > Y.BAR_FULL {
        bar := Y.BAR_FULL;
      }
      if bar < 0 {
        bar := 0;
      }
    }

    method GreetPlayers(i: nat, crowd: Y.Crowd, wanted: nat)
      requires Orderly() && i < Y.NODES && Y.ValidCrowd(crowd)
      modifies this, layer
      ensures LayerOk()
      ensures Value() == Y.GreetFrom(old(Value()), crowd, i, wanted, 0)
    {
      var k := 0;
      while k < |playersNearPoint[i]|
        invariant Orderly() && k <= |playersNearPoint[i]|
        invariant Y.GreetFrom(Value(), crowd, i, wanted, k) == Y.GreetFrom(old(Value()), crowd, i, wanted, 0)
        decreases |playersNearPoint[i]| - k
      {
        var g := playersNearPoint[i][k];
        if g in crowd {
          GreetPlayer(i, wanted, crowd[g].team);
        }
        k := k + 1;
      }
    }

    method GreetPlayer(i: nat, wanted: nat, team: nat)
      requires Orderly() && i < Y.NODES && Y.Team(team)
      modifies this, layer
      ensures LayerOk()
      ensures Value() == Y.Greet(old(Value()), i, wanted, team)
    {
      if wanted == pointOwnedByTeam[i] {
        return;
      }
      if pointState[i] == Y.UNCONTROLLED && team == wanted {
        EventTeamCapturedPoint(i, team);
      }
      if pointState[i] == Y.UNDER_CONTROL && team != pointOwnedByTeam[i] {
        EventTeamLostPoint(i);
      }
    }

    method AddPoints(team: nat, points: nat)
      requires Orderly() && Y.Team(team)
      modifies this`teamScores, this`honorScoreTics, this`client, this`ends, this`running
      ensures Value() == Y.AddPoints(old(Value()), team, points)
    {
      CreditPoints(team, points);
      UpdateTeamScore(team);
    }

    method CreditPoints(team: nat, points: nat)
      requires Orderly()
      modifies this`teamScores, this`honorScoreTics
      ensures Value() == Y.Credit(old(Value()), team, points)
    {
      var t := Y.Index(team);
      teamScores := teamScores[t := teamScores[t] + points];
      var honor := honorScoreTics[t] + points;
      if honor >= honorTics {
        honor := honor - honorTics;
      }
      honorScoreTics := honorScoreTics[t := honor];
    }

    method UpdateTeamScore(team: nat)
      requires Orderly() && Y.Team(team)
      modifies this`client, this`ends, this`running
      ensures Value() == Y.UpdateTeamScore(old(Value()), team)
    {
      var score := teamScores[Y.Index(team)];
      if score >= Y.MAX_TEAM_SCORE {
        score := Y.MAX_TEAM_SCORE;
        ends, running := ends + [team], false;
      }
      UpdateWorldState(Y.Resources(team), score);
    }

    method AddTick(team: nat)
      requires Orderly() && Y.Team(team)
      modifies this`teamScores, this`honorScoreTics, this`client, this`ends, this`running
      ensures Value() == Y.AddTick(old(Value()), team)
    {
      var points := teamPointsCount[Y.Index(team)];
      if points > 0 {
        AddPoints(team, Y.TICK_POINTS[points - 1]);
      }
    }

    method RespawnFlag()
      requires Orderly()
      modifies this`flagState, this`client, layer
      ensures LayerOk()
      ensures Value() == Y.RespawnFlag(old(Value()))
    {
      flagState := Y.FLAG_ON_BASE;
      SpawnEvent(Y.FLAG_EVENT, Y.FLAG_CENTER, true);
      UpdateWorldState(Y.Netherstorm, 1);
    }

    method EventPlayerClickedOnFlag(g: Y.Guid)
      requires Valid()
      modifies this`flagState, this`flagKeeper, this`client, layer
      ensures LayerOk() && (g != 0 ==> Valid())
      ensures Value() == Y.ClickedOnFlag(old(Value()), g)
    {
      if g != 0 {
        I.ClickedOnFlagOk(Value(), g);
      }
      if !running || flagKeeper != 0 {
        return;
      }
      if flagState == Y.FLAG_ON_BASE {
        UpdateWorldState(Y.Netherstorm, 0);
      }
      flagState := Y.FLAG_ON_PLAYER;
      SpawnEvent(Y.FLAG_EVENT, Y.FLAG_CENTER, false);
      flagKeeper := g;
    }

    method EventPlayerDroppedFlag(g: Y.Guid)
      requires Valid()
      modifies this`flagState, this`flagKeeper, this`flagsTimer
      ensures Valid()
      ensures Value() == Y.DroppedFlag(old(Value()), g)
    {
      I.DroppedFlagOk(Value(), g);
      if flagKeeper == 0 || flagKeeper != g {
        return;
      }
      flagKeeper := 0;
      if !running {
        return;
      }
      flagState := Y.FLAG_ON_GROUND;
      flagsTimer := Y.FLAG_RESPAWN_TIME;
    }

    method HandleAreaTrigger(g: Y.Guid, team: nat, i: nat)
      requires Valid() && Y.Team(team) && i < Y.NODES
      modifies this, layer
      ensures Valid()
      ensures Value() == Y.AreaTrigger(old(Value()), g, team, i)
    {
      I.AreaTriggerOk(Value(), g, team, i);
      if !running {
        return;
      }
      if pointState[i] == Y.UNDER_CONTROL && pointOwnedByTeam[i] == team {
        if flagState != Y.FLAG_ON_BASE && flagKeeper == g {
          EventPlayerCapturedFlag(team, i);
        }
      }
    }

    method PlaceFlag(i: nat)
      requires Orderly() && i < Y.NODES
      modifies this`flagKeeper, this`flagState, this`flagsTimer, layer
      ensures Orderly()
      ensures Value() == Y.SpawnEvent(old(Value()).(keeper := 0, flagState := Y.FLAG_WAIT_RESPAWN,
                                                    flagTimer := Y.FLAG_RESPAWN_TIME), Y.FLAG_EVENT, i, true)
    {
      flagKeeper := 0;
      flagState := Y.FLAG_WAIT_RESPAWN;
      SpawnEvent(Y.FLAG_EVENT, i, true);
      flagsTimer := Y.FLAG_RESPAWN_TIME;
    }

    method EventPlayerCapturedFlag(team: nat, i: nat)
      requires Orderly() && Y.Team(team) && i < Y.NODES
      modifies this, layer
      ensures LayerOk()
      ensures Value() == Y.CapturedFlag(old(Value()), team, i)
    {
      var points := teamPointsCount[Y.Index(team)];
      PlaceFlag(i);
      if points > 0 {
        AddPoints(team, Y.FLAG_POINTS[points - 1]);
      }
    }

    method Update(diff: nat, crowd: Y.Crowd)
      requires Valid() && Y.ValidCrowd(crowd)
      modifies this, layer
      ensures Valid()
      ensures Value() == Y.Update(old(Value()), diff, crowd)
    {
      I.UpdateOk(Value(), diff, crowd);
      if !running {
        return;
      }
      UpdateTicks(diff);
      UpdateFlag(diff);
      CountDown(diff);
      CheckIfDue(crowd);
    }

    method CountDown(diff: nat)
      requires Orderly()
      modifies this`towerCapCheckTimer
      ensures Value() == Y.CountDown(old(Value()), diff)
    {
      towerCapCheckTimer := towerCapCheckTimer - diff;
    }

    method UpdateTicks(diff: nat)
      requires Orderly()
      modifies this
      ensures Value() == Y.UpdateTicks(old(Value()), diff)
    {
      pointAddingTimer := pointAddingTimer - diff;
      if pointAddingTimer <= 0 {
        pointAddingTimer := Y.TICK_TIME;
        AddTick(Y.ALLIANCE);
        AddTick(Y.HORDE);
      }
    }

    method UpdateFlag(diff: nat)
      requires Orderly()
      modifies this, layer
      ensures LayerOk()
      ensures Value() == Y.UpdateFlag(old(Value()), diff)
    {
      if flagState == Y.FLAG_WAIT_RESPAWN || flagState == Y.FLAG_ON_GROUND {
        flagsTimer := flagsTimer - diff;
        if flagsTimer < 0 {
          flagsTimer := 0;
          RespawnFlag();
        }
      }
    }

    method CheckIfDue(crowd: Y.Crowd)
      requires Orderly() && Y.ValidCrowd(crowd)
      modifies this, layer
      ensures LayerOk()
      ensures Value() == Y.CheckIfDue(old(Value()), crowd)
    {
      if towerCapCheckTimer <= 0 {
        CheckTowers(crowd);
        towerCapCheckTimer := Y.TICK_TIME;
      }
    }

    method CheckTowers(crowd: Y.Crowd)
      requires Orderly() && Y.ValidCrowd(crowd)
      modifies this, layer
      ensures LayerOk()
      ensures Value() == Y.CheckTowers(old(Value()), crowd)
    {
      CheckSomeoneJoinedPoint(crowd);
      CheckSomeoneLeftPoint(crowd);
      UpdatePointStatuses(crowd);
    }

    method AddPlayer(g: Y.Guid)
      requires Valid()
      modifies this`playersNearPoint
      ensures I.On(old(playersNearPoint), g) == 0 ==> Valid()
      ensures Value() == Y.AddPlayer(old(Value()), g)
    {
      if I.On(playersNearPoint, g) == 0 {
        I.AddPlayerOk(Value(), g);
      }
      playersNearPoint := playersNearPoint[Y.OUT_OF_POINTS := playersNearPoint[Y.OUT_OF_POINTS] + [g]];
    }

    method EraseAll(g: Y.Guid)
      requires |playersNearPoint| == Y.NODES + 1
      modifies this`playersNearPoint
      ensures playersNearPoint == Y.EraseAll(old(playersNearPoint), g)
    {
      var j := Y.NODES as int;
      while j >= 0
        invariant -1 <= j <= Y.NODES && |playersNearPoint| == Y.NODES + 1
        invariant forall k :: 0 <= k <= j ==> playersNearPoint[k] == old(playersNearPoint[k])
        invariant forall k :: j < k <= Y.NODES ==> playersNearPoint[k] == Y.EraseFrom(old(playersNearPoint[k]), g, 0)
      {
        var list := EraseWalking(playersNearPoint[j], g);
        playersNearPoint := playersNearPoint[j := list];
        j := j - 1;
      }
    }

    method RemovePlayer(g: Y.Guid, online: bool)
      requires Valid()
      modifies this, layer
      ensures Valid()
      ensures Value() == Y.RemovePlayer(old(Value()), g, online)
    {
      I.RemovePlayerOk(Value(), g, online);
      I.EraseAllOk(Value(), g);
      EraseAll(g);
      assert Value() == old(Value()).(near := Y.EraseAll(old(playersNearPoint), g));
      if flagKeeper != 0 && flagKeeper == g {
        if online {
          EventPlayerDroppedFlag(g);
        } else {
          flagKeeper := 0;
          RespawnFlag();
        }
      }
    }

    method EraseWalking(list0: seq<Y.Guid>, g: Y.Guid) returns (list: seq<Y.Guid>)
      ensures list == Y.EraseFrom(list0, g, 0)
    {
      list := list0;
      var i := 0;
      while i < |list|
        invariant Y.EraseFrom(list, g, i) == Y.EraseFrom(list0, g, 0)
        decreases |list| - i
      {
        if list[i] == g {
          list := list[..i] + list[i + 1..];
        }
        i := i + 1;
      }
    }

    /** One entry of the list for a new client. */
    static method FillInitialWorldState(before: map<nat, int>, i: Y.Icon, v: int) returns (data: map<nat, int>)
      requires Y.Drawn(i)
      ensures Clean(Y.TABLE, before) ==> Clean(Y.TABLE, data)
      ensures forall j :: Y.Drawn(j) ==> Show(Y.TABLE, data, j) == if j == i then v else Show(Y.TABLE, before, j)
    {
      data := Store(Y.TABLE, before, i, v);
    }

    predicate Shows(data: map<nat, int>, i: Y.Icon)
      requires Y.Shaped(Value()) && Y.Drawn(i)
      reads this, layer
    {
      Show(Y.TABLE, data, i) == I.Snapshot(Value(), i)
    }

    predicate ShowsNode(data: map<nat, int>, n: nat)
      requires Y.Shaped(Value()) && n < Y.NODES
      reads this, layer
    {
      Shows(data, Y.Uncontrol(n)) && Shows(data, Y.Control(n, Y.ALLIANCE)) && Shows(data, Y.Control(n, Y.HORDE))
    }

    method FillNode(before: map<nat, int>, n: nat) returns (data: map<nat, int>)
      requires Orderly() && n < Y.NODES && Clean(Y.TABLE, before)
      ensures Clean(Y.TABLE, data) && ShowsNode(data, n)
      ensures forall m: nat :: m < Y.NODES && m != n && ShowsNode(before, m) ==> ShowsNode(data, m)
    {
      var held := pointState[n] == Y.UNDER_CONTROL;
      data := FillInitialWorldState(before, Y.Control(n, Y.HORDE), if pointOwnedByTeam[n] == Y.HORDE && held then 1 else 0);
      data := FillInitialWorldState(data, Y.Control(n, Y.ALLIANCE), if pointOwnedByTeam[n] == Y.ALLIANCE && held then 1 else 0);
      data := FillInitialWorldState(data, Y.Uncontrol(n), if held then 0 else 1);
    }

    method FillNodes() returns (data: map<nat, int>)
      requires Orderly()
      ensures Clean(Y.TABLE, data) && forall n: nat :: n < Y.NODES ==> ShowsNode(data, n)
    {
      data := map[];
      var n := 0;
      while n < Y.NODES
        invariant n <= Y.NODES && Clean(Y.TABLE, data) && forall m: nat :: m < n ==> ShowsNode(data, m)
      {
        data := FillNode(data, n);
        n := n + 1;
      }
    }

    method FillCounts(before: map<nat, int>) returns (data: map<nat, int>)
      requires Orderly() && Clean(Y.TABLE, before)
      ensures Clean(Y.TABLE, data)
      ensures forall i: Y.Icon :: Y.Drawn(i) && !i.Uncontrol? && !i.Control? ==> Shows(data, i)
      ensures forall i: Y.Icon :: Y.Drawn(i) && (i.Uncontrol? || i.Control?) ==> Show(Y.TABLE, data, i) == Show(Y.TABLE, before, i)
    {
      data := FillInitialWorldState(before, Y.Bases(Y.HORDE), teamPointsCount[1]);
      data := FillInitialWorldState(data, Y.Bases(Y.ALLIANCE), teamPointsCount[0]);
      data := FillInitialWorldState(data, Y.Netherstorm, if flagState == Y.FLAG_ON_BASE then 1 else 0);
      data := FillInitialWorldState(data, Y.Resources(Y.HORDE), teamScores[1]);
      data := FillInitialWorldState(data, Y.Resources(Y.ALLIANCE), teamScores[0]);
    }

    /** The world states for a client that joins now. */
    method FillInitialWorldStates() returns (data: map<nat, int>)
      requires Orderly()
      ensures I.Filled(Value(), data)
    {
      var filled := FillNodes();
      data := FillCounts(filled);
      forall i | Y.Drawn(i) ensures Show(Y.TABLE, data, i) == I.Snapshot(Value(), i) {
        if i.Uncontrol? || i.Control? {
          assert ShowsNode(filled, i.node);
        } else {
          assert Shows(data, i);
        }
      }
    }
  }
}
