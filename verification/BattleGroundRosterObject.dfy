/** The base class of the battlegrounds as the server runs it. */
module BattleGroundRosterObject {
  import B = BattleGroundRoster

  class BattleGround {
    const rules: B.Rules
    var status: B.Status
    var events: set<nat>
    var startDelayTime: int
    var endTime: int
    var prematureCountDown: bool
    var prematureCountDownTimer: nat
    var winners: seq<nat>
    var players: map<B.Guid, B.Member>
    var offlineQueue: seq<B.Guid>
    var playersCount: seq<nat>
    var gameTime: nat

    constructor (rules: B.Rules, gameTime: nat)
      ensures this.rules == rules && Value() == B.Fresh(gameTime)
    {
      this.rules, this.gameTime := rules, gameTime;
      status, events, startDelayTime, endTime, winners := B.WaitJoin, {}, 0, 0, [];
      prematureCountDown, prematureCountDownTimer := false, 0;
      players, offlineQueue, playersCount := map[], [], [0, 0];
    }

    function People(): B.Roster
      reads this
    {
      B.Roster(players, offlineQueue, playersCount, gameTime)
    }

    function Stage(): B.Phase
      reads this
    {
      B.Phase(status, events, startDelayTime, endTime, prematureCountDown, prematureCountDownTimer, winners)
    }

    function Value(): B.Battle
      reads this
    {
      B.Battle(Stage(), People())
    }

    method UpdatePlayersCountByTeam(team: nat, remove: bool)
      requires |playersCount| == 2
      modifies this`playersCount
      ensures playersCount == old(playersCount)[B.Index(team) := B.Moved(old(playersCount)[B.Index(team)], if remove then -1 else 1)]
    {
      var t := B.Index(team);
      if remove {
        playersCount := playersCount[t := (playersCount[t] - 1) % B.UINT32_LIMIT];
      } else {
        playersCount := playersCount[t := (playersCount[t] + 1) % B.UINT32_LIMIT];
      }
    }

    method AddPlayer(g: B.Guid, team: nat)
      requires |playersCount| == 2
      modifies this`players, this`playersCount
      ensures People() == B.Add(old(People()), g, team)
    {
      players := players[g := B.Member(team, 0)];
      UpdatePlayersCountByTeam(team, false);
    }

    method RemovePlayerAtLeave(g: B.Guid)
      requires |playersCount| == 2
      modifies this`players, this`playersCount
      ensures People() == B.Remove(old(People()), g)
    {
      if g in players {
        UpdatePlayersCountByTeam(players[g].team, true);
        players := players - {g};
      }
    }

    /** The queue without the first entry of a player. */
    method EraseOffline(queue: seq<B.Guid>, g: B.Guid) returns (rest: seq<B.Guid>)
      ensures rest == B.EraseFirst(queue, g)
    {
      for i := 0 to |queue|
        invariant B.EraseFirst(queue, g) == queue[..i] + B.EraseFirst(queue[i..], g)
      {
        assert queue[i..][1..] == queue[i + 1..];
        if queue[i] == g {
          return queue[..i] + queue[i + 1..];
        }
        assert queue[..i + 1] == queue[..i] + [queue[i]];
      }
      assert queue[..|queue|] + [] == queue;
      rest := queue;
    }

    method EventPlayerLoggedIn(g: B.Guid)
      modifies this`players, this`offlineQueue
      ensures People() == B.Return(old(People()), g)
    {
      offlineQueue := EraseOffline(offlineQueue, g);
      players := players[g := B.Touched(People(), g).(removeTime := 0)];
    }

    method EventPlayerLoggedOut(g: B.Guid)
      modifies this`players, this`offlineQueue
      ensures People() == B.LogOut(old(People()), g)
    {
      offlineQueue := offlineQueue + [g];
      players := players[g := B.Touched(People(), g).(removeTime := gameTime + B.MAX_OFFLINE_TIME)];
    }

    /** What the login of a player does to the battleground it was in. */
    method PlayerLogsIn(g: B.Guid)
      requires |playersCount| == 2
      modifies this`players, this`offlineQueue, this`playersCount
      ensures People() == B.LogIn(old(People()), status == B.WaitLeave, g)
    {
      if g in players && status != B.WaitLeave {
        EventPlayerLoggedIn(g);
      } else if g in players {
        RemovePlayerAtLeave(g);
      }
    }

    /** At most the head of the queue leaves, once its time has come. */
    method UpdateOffline()
      requires |playersCount| == 2
      modifies this`players, this`offlineQueue, this`playersCount
      ensures People() == B.DropOffline(old(People()))
    {
      if offlineQueue != [] {
        var g := offlineQueue[0];
        if g in players && players[g].removeTime <= gameTime {
          RemovePlayerAtLeave(g);
          offlineQueue := offlineQueue[1..];
        }
      }
    }

    method EndBattleGround(winner: nat)
      modifies this`status, this`endTime, this`winners
      ensures Stage() == B.EndBattle(old(Stage()), winner)
    {
      winners := winners + [winner];
      status := B.WaitLeave;
      endTime := B.TIME_TO_AUTOREMOVE;
    }

    /** A side short of players starts the count-down; enough on both stops it. */
    method UpdatePremature(diff: nat)
      requires |playersCount| == 2
      modifies this`status, this`endTime, this`winners, this`prematureCountDown, this`prematureCountDownTimer
      ensures Stage() == B.Premature(old(Stage()), playersCount, rules, diff)
    {
      if status == B.InProgress && rules.prematureTime != 0
         && (playersCount[0] < rules.minPlayers || playersCount[1] < rules.minPlayers)
      {
        if !prematureCountDown {
          prematureCountDown := true;
          prematureCountDownTimer := rules.prematureTime;
        } else if prematureCountDownTimer < diff {
          var winner := 0;
          if playersCount[0] >= rules.minPlayers {
            winner := 1;
          } else if playersCount[1] >= rules.minPlayers {
            winner := 2;
          }
          EndBattleGround(winner);
          prematureCountDown := false;
        } else if !rules.testing {
          prematureCountDownTimer := prematureCountDownTimer - diff;
        }
      } else if prematureCountDown {
        prematureCountDown := false;
      }
    }

    method UpdateStart(diff: nat, setup: bool)
      requires |rules.delays| == 3
      modifies this`status, this`events, this`startDelayTime, this`endTime
      ensures Stage() == B.Starting(old(Stage()), rules, diff, setup)
    {
      if status != B.WaitJoin {
        return;
      }
      startDelayTime := startDelayTime - diff;
      if 1 !in events {
        events := events + {1};
        if !setup {
          status, endTime := B.WaitLeave, 0;
          return;
        }
        startDelayTime := rules.delays[0];
      } else if startDelayTime <= rules.delays[1] && 2 !in events {
        events := events + {2};
      } else if startDelayTime <= rules.delays[2] && 3 !in events {
        events := events + {3};
      } else if startDelayTime <= 0 && 4 !in events {
        events := events + {4};
        status := B.InProgress;
        startDelayTime := 0;
      }
    }

    /** Removes all players, in any order. */
    method RemoveAllPlayers()
      requires B.Wide(playersCount)
      modifies this`players, this`playersCount
      ensures People() == B.RemoveAll(old(People()))
    {
      while players != map[]
        invariant B.Wide(playersCount) && B.RemoveAll(People()) == B.RemoveAll(old(People()))
        decreases players.Keys
      {
        var g :| g in players;
        B.RemoveAllOne(People(), g);
        RemovePlayerAtLeave(g);
      }
      B.RemoveAllNone(People());
    }

    method UpdateEnd(diff: nat)
      requires B.Wide(playersCount)
      modifies this`players, this`playersCount, this`endTime
      ensures Value() == B.Ending(old(Value()), diff)
    {
      if status == B.WaitLeave {
        endTime := endTime - diff;
        if endTime <= 0 {
          endTime := 0;
          RemoveAllPlayers();
        }
      }
    }

    method Update(diff: nat, setup: bool)
      requires |rules.delays| == 3 && B.Wide(playersCount)
      modifies this
      ensures Value() == B.Update(old(Value()), rules, diff, setup)
    {
      if players == map[] {
        return;
      }
      UpdateOffline();
      UpdatePremature(diff);
      if players != map[] {
        var waiting := status == B.WaitJoin;
        UpdateStart(diff, setup);
        if waiting && status == B.WaitLeave {
          return;
        }
      }
      UpdateEnd(diff);
    }
  }
}
