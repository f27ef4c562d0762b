/** Who takes part in a battleground, and when it opens and closes (the base class in
    src/game/BattleGround.cpp, with the login in src/game/Player.cpp). */
module BattleGroundRoster {
  type Guid = nat

  const ALLIANCE: nat := 469
  const UINT32_LIMIT: nat := 0x1_0000_0000
  const MAX_OFFLINE_TIME: nat := 300
  const TIME_TO_AUTOREMOVE: int := 120000

  datatype Status = WaitJoin | InProgress | WaitLeave

  /** The times before the start at which the first three announcements are due, and when a
      one-sided battle is broken off. */
  datatype Rules = Rules(delays: seq<nat>, minPlayers: nat, prematureTime: nat, testing: bool)

  /** A participant; one that is offline has a time at which it is removed. */
  datatype Member = Member(team: nat, removeTime: nat)

  /** The participants, the queue of those that are offline, and the players of each team. */
  datatype Roster = Roster(members: map<Guid, Member>, offline: seq<Guid>, counts: seq<nat>, clock: nat)

  /** How far the battle has come; winners are those announced. */
  datatype Phase = Phase(
    status: Status, started: set<nat>, startDelay: int, endTime: int,
    countDown: bool, countDownTimer: nat, winners: seq<nat>)

  datatype Battle = Battle(phase: Phase, roster: Roster)

  function Index(team: nat): nat {
    if team == ALLIANCE then 0 else 1
  }

  /** A 32-bit counter moved by d. */
  function Moved(count: nat, d: int): nat {
    (count + d) % UINT32_LIMIT
  }

  // ----- coming and going -----

  function Add(r: Roster, g: Guid, team: nat): Roster
    requires |r.counts| == 2
  {
    r.(members := r.members[g := Member(team, 0)],
       counts := r.counts[Index(team) := Moved(r.counts[Index(team)], 1)])
  }

  function Remove(r: Roster, g: Guid): (r': Roster)
    requires |r.counts| == 2
    ensures |r'.counts| == 2
  {
    if g !in r.members then r
    else
      var t := Index(r.members[g].team);
      r.(members := r.members - {g}, counts := r.counts[t := Moved(r.counts[t], -1)])
  }

  /** Indexing the members with an unknown player makes it one, of no team. */
  function Touched(r: Roster, g: Guid): Member {
    if g in r.members then r.members[g] else Member(0, 0)
  }

  function LogOut(r: Roster, g: Guid): Roster {
    r.(offline := r.offline + [g],
       members := r.members[g := Touched(r, g).(removeTime := r.clock + MAX_OFFLINE_TIME)])
  }

  function EraseFirst(list: seq<Guid>, g: Guid): seq<Guid> {
    if list == [] then [] else if list[0] == g then list[1..] else [list[0]] + EraseFirst(list[1..], g)
  }

  function Return(r: Roster, g: Guid): Roster {
    r.(offline := EraseFirst(r.offline, g), members := r.members[g := Touched(r, g).(removeTime := 0)])
  }

  /** A login of a player whose battleground is still there: for a member it goes on, unless it
      is over. */
  function LogIn(r: Roster, over: bool, g: Guid): Roster
    requires |r.counts| == 2
  {
    if g !in r.members then r else if over then Remove(r, g) else Return(r, g)
  }

  // ----- the periodic update -----

  /** Removes the first offline player of the queue when its time has come, if it is a member. */
  function DropOffline(r: Roster): (r': Roster)
    requires |r.counts| == 2
    ensures |r'.counts| == 2
  {
    if r.offline == [] || r.offline[0] !in r.members || r.members[r.offline[0]].removeTime > r.clock then r
    else Remove(r, r.offline[0]).(offline := r.offline[1..])
  }

  function EndBattle(p: Phase, winner: nat): Phase {
    p.(status := WaitLeave, endTime := TIME_TO_AUTOREMOVE, winners := p.winners + [winner])
  }

  predicate OneSided(p: Phase, counts: seq<nat>, rules: Rules)
    requires |counts| == 2
  {
    p.status == InProgress && rules.prematureTime != 0 && (counts[0] < rules.minPlayers || counts[1] < rules.minPlayers)
  }

  /** The team that is still there wins: 1 for the Alliance, 2 for the Horde, 0 for nobody. */
  function Remaining(counts: seq<nat>, rules: Rules): nat
    requires |counts| == 2
  {
    if counts[0] >= rules.minPlayers then 1 else if counts[1] >= rules.minPlayers then 2 else 0
  }

  function Premature(p: Phase, counts: seq<nat>, rules: Rules, diff: nat): Phase
    requires |counts| == 2
  {
    if !OneSided(p, counts, rules) then p.(countDown := false)
    else if !p.countDown then p.(countDown := true, countDownTimer := rules.prematureTime)
    else if p.countDownTimer < diff then EndBattle(p, Remaining(counts, rules)).(countDown := false)
    else if rules.testing then p
    else p.(countDownTimer := p.countDownTimer - diff)
  }

  /** The announcements before the start, one at a time; the fourth opens the doors. A setup that
      fails closes the battle. */
  function Starting(p: Phase, rules: Rules, diff: nat, setup: bool): Phase
    requires |rules.delays| == 3
  {
    if p.status != WaitJoin then p
    else
      var delay := p.startDelay - diff;
      if 1 !in p.started then
        if setup then p.(started := p.started + {1}, startDelay := rules.delays[0])
        else p.(started := p.started + {1}, startDelay := delay, status := WaitLeave, endTime := 0)
      else if delay <= rules.delays[1] && 2 !in p.started then p.(started := p.started + {2}, startDelay := delay)
      else if delay <= rules.delays[2] && 3 !in p.started then p.(started := p.started + {3}, startDelay := delay)
      else if delay <= 0 && 4 !in p.started then p.(started := p.started + {4}, startDelay := 0, status := InProgress)
      else p.(startDelay := delay)
  }

  /** The members of one side. */
  function Side(members: map<Guid, Member>, t: nat): set<Guid> {
    set g | g in members && Index(members[g].team) == t
  }

  function RemoveAll(r: Roster): Roster
    requires |r.counts| == 2
  {
    r.(members := map[],
       counts := [Moved(r.counts[0], -|Side(r.members, 0)|), Moved(r.counts[1], -|Side(r.members, 1)|)])
  }

  function Ending(b: Battle, diff: nat): Battle
    requires |b.roster.counts| == 2
  {
    if b.phase.status != WaitLeave then b
    else if b.phase.endTime - diff <= 0 then Battle(b.phase.(endTime := 0), RemoveAll(b.roster))
    else b.(phase := b.phase.(endTime := b.phase.endTime - diff))
  }

  /** What the update makes of the phase before the end, with the players still there. */
  function Advance(p: Phase, r: Roster, rules: Rules, diff: nat, setup: bool): Phase
    requires |r.counts| == 2 && |rules.delays| == 3
  {
    var p1 := Premature(p, r.counts, rules, diff);
    if r.members == map[] then p1 else Starting(p1, rules, diff, setup)
  }

  /** An empty battle is not updated; one whose setup failed in this update is left at that. */
  function Update(b: Battle, rules: Rules, diff: nat, setup: bool): Battle
    requires |b.roster.counts| == 2 && |rules.delays| == 3
  {
    if b.roster.members == map[] then b
    else
      var r := DropOffline(b.roster);
      var p := Advance(b.phase, r, rules, diff, setup);
      if b.phase.status == WaitJoin && p.status == WaitLeave then Battle(p, r) else Ending(Battle(p, r), diff)
  }

  // ----- the counts -----

  ghost predicate CountsOk(r: Roster) {
    |r.counts| == 2 && forall t :: 0 <= t < 2 ==> r.counts[t] == |Side(r.members, t)| % UINT32_LIMIT
  }

  lemma Card(s: set<Guid>, g: Guid)
    ensures |s| == |s - {g}| + if g in s then 1 else 0
  {
    assert s == s - {g} + if g in s then {g} else {};
  }

  lemma SideAdd(members: map<Guid, Member>, g: Guid, m: Member, t: nat)
    ensures
      |Side(members[g := m], t)| + (if g in members && Index(members[g].team) == t then 1 else 0)
      == |Side(members, t)| + if Index(m.team) == t then 1 else 0
  {
    var before, after := Side(members, t), Side(members[g := m], t);
    assert after - {g} == before - {g};
    Card(before, g);
    Card(after, g);
  }

  lemma SideRemove(members: map<Guid, Member>, g: Guid, t: nat)
    requires g in members
    ensures |Side(members - {g}, t)| + (if Index(members[g].team) == t then 1 else 0) == |Side(members, t)|
  {
    var before, after := Side(members, t), Side(members - {g}, t);
    assert after == before - {g};
    Card(before, g);
  }

  /** 32-bit counting is exact up to whole turns. */
  lemma MovedOk(count: nat, n: int, d: int)
    requires count == n % UINT32_LIMIT
    ensures Moved(count, d) == (n + d) % UINT32_LIMIT
  {
    Turns(n, d, n / UINT32_LIMIT);
  }

  lemma Turns(n: int, d: int, turns: int)
    ensures (n - turns * UINT32_LIMIT + d) % UINT32_LIMIT == (n + d) % UINT32_LIMIT
  {
    var m := n + d;
    var k := m / UINT32_LIMIT - turns;
    assert m - turns * UINT32_LIMIT == k * UINT32_LIMIT + m % UINT32_LIMIT;
  }

  lemma NotNext(n: nat)
    ensures n % UINT32_LIMIT != (n + 1) % UINT32_LIMIT
  {
  }

  /** Adding a player keeps the counts exact if and only if it was no member before. */
  lemma AddCountsIff(r: Roster, g: Guid, team: nat)
    requires CountsOk(r)
    ensures CountsOk(Add(r, g, team)) <==> g !in r.members
  {
    var t := Index(team);
    SideAdd(r.members, g, Member(team, 0), 0);
    SideAdd(r.members, g, Member(team, 0), 1);
    MovedOk(r.counts[t], |Side(r.members, t)|, 1);
    var r' := Add(r, g, team);
    if g in r.members {
      var o := Index(r.members[g].team);
      if o == t {
        assert |Side(r'.members, t)| == |Side(r.members, t)|;
        NotNext(|Side(r.members, t)|);
      } else {
        NotNext(|Side(r'.members, o)|);
        assert r'.counts[o] == r.counts[o];
      }
    }
  }

  lemma RemoveCounts(r: Roster, g: Guid)
    requires CountsOk(r)
    ensures CountsOk(Remove(r, g))
  {
    if g in r.members {
      var t := Index(r.members[g].team);
      SideRemove(r.members, g, 0);
      SideRemove(r.members, g, 1);
      MovedOk(r.counts[t], |Side(r.members, t)|, -1);
    }
  }

  /** A logout keeps them exact if and only if the player was a member: a visitor who logs out
      becomes a member that was never counted. */
  lemma LogOutCountsIff(r: Roster, g: Guid)
    requires CountsOk(r)
    ensures CountsOk(LogOut(r, g)) <==> g in r.members
  {
    var m := Touched(r, g).(removeTime := r.clock + MAX_OFFLINE_TIME);
    SideAdd(r.members, g, m, 0);
    SideAdd(r.members, g, m, 1);
    if g !in r.members {
      NotNext(|Side(r.members, 1)|);
      assert LogOut(r, g).counts == r.counts && Index(m.team) == 1;
    }
  }

  /** When that visitor is removed the Horde counts one player less than it has. */
  lemma VisitorCounted(r: Roster, g: Guid)
    requires CountsOk(r) && g !in r.members
    ensures Remove(LogOut(r, g), g).counts == [r.counts[0], (|Side(r.members, 1)| - 1) % UINT32_LIMIT]
  {
    MovedOk(r.counts[1], |Side(r.members, 1)|, -1);
  }

  lemma RemoveAllCounts(r: Roster)
    requires CountsOk(r)
    ensures CountsOk(RemoveAll(r))
  {
    MovedOk(r.counts[0], |Side(r.members, 0)|, -|Side(r.members, 0)|);
    MovedOk(r.counts[1], |Side(r.members, 1)|, -|Side(r.members, 1)|);
    assert Side(map[], 0) == {} && Side(map[], 1) == {};
  }

  /** The counters are of 32 bits, right or not. */
  predicate Wide(counts: seq<nat>) {
    |counts| == 2 && counts[0] < UINT32_LIMIT && counts[1] < UINT32_LIMIT
  }

  lemma MovedTwice(count: nat, d: int, e: int)
    ensures Moved(Moved(count, d), e) == Moved(count, d + e)
  {
    Turns(count + d, e, (count + d) / UINT32_LIMIT);
  }

  /** Whoever goes first, all go: the counters come out the same, right or not. */
  lemma RemoveAllOne(r: Roster, g: Guid)
    requires |r.counts| == 2 && g in r.members
    ensures RemoveAll(Remove(r, g)) == RemoveAll(r)
  {
    var t := Index(r.members[g].team);
    SideRemove(r.members, g, 0);
    SideRemove(r.members, g, 1);
    MovedTwice(r.counts[t], -1, -|Side(Remove(r, g).members, t)|);
  }

  lemma RemoveAllNone(r: Roster)
    requires Wide(r.counts) && r.members == map[]
    ensures RemoveAll(r) == r
  {
    assert Side(map[], 0) == {} && Side(map[], 1) == {};
  }

  lemma LogInCounts(r: Roster, over: bool, g: Guid)
    requires CountsOk(r)
    ensures CountsOk(LogIn(r, over, g))
  {
    RemoveCounts(r, g);
    if g in r.members {
      SideAdd(r.members, g, r.members[g].(removeTime := 0), 0);
      SideAdd(r.members, g, r.members[g].(removeTime := 0), 1);
    }
  }

  // ----- the queue of offline players -----

  function RemoveTime(r: Roster, g: Guid): nat {
    Touched(r, g).removeTime
  }

  predicate Offline(r: Roster, g: Guid) {
    RemoveTime(r, g) != 0
  }

  /** The queue holds exactly the members that are offline, each once, the first to be removed
      in front. */
  ghost predicate QueueOk(r: Roster) {
    && (forall g :: g in r.offline <==> Offline(r, g))
    && (forall i, j :: 0 <= i < j < |r.offline| ==>
          r.offline[i] != r.offline[j] && RemoveTime(r, r.offline[i]) <= RemoveTime(r, r.offline[j]))
    && (forall g :: g in r.members ==> RemoveTime(r, g) <= r.clock + MAX_OFFLINE_TIME)
  }

  lemma {:induction false} EraseFirstOnce(list: seq<Guid>, g: Guid, k: nat)
    requires k < |list| && list[k] == g && (forall i, j :: 0 <= i < j < |list| ==> list[i] != list[j])
    ensures EraseFirst(list, g) == list[..k] + list[k + 1..]
  {
    if k == 0 {
    } else {
      assert list[1..][k - 1] == g;
      EraseFirstOnce(list[1..], g, k - 1);
      assert list[..k] == [list[0]] + list[1..][..k - 1];
    }
  }

  lemma {:induction false} EraseAbsent(list: seq<Guid>, g: Guid)
    requires g !in list
    ensures EraseFirst(list, g) == list
  {
    if list == [] {
    } else {
      EraseAbsent(list[1..], g);
    }
  }

  lemma Without(list: seq<Guid>, k: nat, h: Guid)
    requires k < |list| && (forall i, j :: 0 <= i < j < |list| ==> list[i] != list[j])
    ensures h in list[..k] + list[k + 1..] <==> h in list && h != list[k]
  {
    var rest := list[..k] + list[k + 1..];
    if h in list && h != list[k] {
      var i :| 0 <= i < |list| && list[i] == h;
      assert rest[if i < k then i else i - 1] == h;
    }
  }

  lemma AddQueue(r: Roster, g: Guid, team: nat)
    requires QueueOk(r) && g !in r.members && |r.counts| == 2
    ensures QueueOk(Add(r, g, team))
  {
    var r' := Add(r, g, team);
    forall h ensures RemoveTime(r', h) == RemoveTime(r, h) {
    }
    forall h ensures h in r'.offline <==> Offline(r', h) {
      assert h in r.offline <==> Offline(r, h);
    }
  }

  lemma LogOutQueue(r: Roster, g: Guid)
    requires QueueOk(r) && g in r.members && !Offline(r, g)
    ensures QueueOk(LogOut(r, g))
  {
    var r' := LogOut(r, g);
    forall h ensures h in r'.offline <==> Offline(r', h) {
    }
    forall i, j | 0 <= i < j < |r'.offline|
      ensures r'.offline[i] != r'.offline[j] && RemoveTime(r', r'.offline[i]) <= RemoveTime(r', r'.offline[j])
    {
      assert r.offline[i] in r.offline;
      if j < |r.offline| { assert r.offline[j] in r.offline; }
    }
  }

  /** Two of the rest of the queue stand in it as they did before. */
  lemma ReturnOrder(r: Roster, g: Guid, k: nat, i: nat, j: nat)
    requires QueueOk(r) && k < |r.offline| && r.offline[k] == g
    requires Return(r, g).offline == r.offline[..k] + r.offline[k + 1..] && i < j < |r.offline| - 1
    ensures
      var r' := Return(r, g);
      r'.offline[i] != r'.offline[j] && RemoveTime(r', r'.offline[i]) <= RemoveTime(r', r'.offline[j])
  {
    var r' := Return(r, g);
    var i', j' := if i < k then i else i + 1, if j < k then j else j + 1;
    assert r'.offline[i] == r.offline[i'] && r'.offline[j] == r.offline[j'];
  }

  lemma ReturnQueue(r: Roster, g: Guid, k: nat)
    requires QueueOk(r) && k < |r.offline| && r.offline[k] == g
    ensures QueueOk(Return(r, g)) && Return(r, g).offline == r.offline[..k] + r.offline[k + 1..]
  {
    EraseFirstOnce(r.offline, g, k);
    var r' := Return(r, g);
    forall h ensures h in r'.offline <==> Offline(r', h) {
      Without(r.offline, k, h);
    }
    forall i, j | 0 <= i < j < |r'.offline|
      ensures r'.offline[i] != r'.offline[j] && RemoveTime(r', r'.offline[i]) <= RemoveTime(r', r'.offline[j])
    {
      ReturnOrder(r, g, k, i, j);
    }
  }

  /** Leaving keeps the queue exact if and only if one is not in it. */
  lemma LeaveQueueIff(r: Roster, g: Guid)
    requires QueueOk(r) && |r.counts| == 2
    ensures QueueOk(Remove(r, g)) <==> g !in r.offline
  {
    var r' := Remove(r, g);
    if g !in r.offline {
      forall i | 0 <= i < |r.offline| ensures r.offline[i] != g && r.offline[i] in r.members {
        assert r.offline[i] in r.offline;
      }
      forall h ensures h in r'.offline <==> Offline(r', h) {
      }
    }
  }

  /** A login keeps the queue exact, unless the player was offline when the battle ended: then it
      is removed from the members and stays in the queue. */
  lemma LogInQueueIff(r: Roster, over: bool, g: Guid)
    requires QueueOk(r) && |r.counts| == 2
    ensures QueueOk(LogIn(r, over, g)) <==> !(over && g in r.offline)
  {
    if g in r.members && !over {
      if g in r.offline {
        var k :| 0 <= k < |r.offline| && r.offline[k] == g;
        ReturnQueue(r, g, k);
      } else {
        EraseAbsent(r.offline, g);
        assert Return(r, g) == r.(members := r.members[g := r.members[g]]) == r;
      }
    } else if g in r.members {
      LeaveQueueIff(r, g);
    }
  }

  lemma DropOfflineQueue(r: Roster)
    requires QueueOk(r) && |r.counts| == 2
    ensures QueueOk(DropOffline(r))
  {
    var r' := DropOffline(r);
    if r' != r {
      var head := r.offline[0];
      forall i | 0 <= i < |r'.offline| ensures r'.offline[i] == r.offline[i + 1] != head && r'.offline[i] in r'.members {
        assert r.offline[i + 1] in r.offline;
      }
      forall h ensures h in r'.offline <==> Offline(r', h) {
        if h in r.offline && h != head {
          var i :| 0 <= i < |r.offline| && r.offline[i] == h;
          assert r'.offline[i - 1] == h;
        }
      }
    }
  }

  lemma LaterQueue(r: Roster, seconds: nat)
    requires QueueOk(r)
    ensures QueueOk(r.(clock := r.clock + seconds))
  {
    var r' := r.(clock := r.clock + seconds);
    forall g ensures RemoveTime(r', g) == RemoveTime(r, g) {
    }
    forall g ensures g in r'.offline <==> Offline(r', g) {
      assert g in r.offline <==> Offline(r, g);
    }
  }

  // ----- the phases -----

  /** The announcements come in order, and the battle runs only after all four. */
  predicate PhaseOk(p: Phase) {
    && (4 in p.started ==> 3 in p.started) && (3 in p.started ==> 2 in p.started) && (2 in p.started ==> 1 in p.started)
    && (p.status == WaitJoin ==> 4 !in p.started) && (p.status == InProgress ==> 4 in p.started)
    && (p.status != WaitLeave ==> p.winners == [])
  }

  predicate Ordered(rules: Rules) {
    |rules.delays| == 3 && rules.delays[1] >= rules.delays[2]
  }

  /** Not everybody has been sent out yet. */
  predicate Lasts(p: Phase) {
    p.status != WaitLeave || p.endTime > 0
  }

  /** A battle is broken off only when it was one-sided for a while, and then for the team that
      is still there. */
  lemma PrematureOk(p: Phase, counts: seq<nat>, rules: Rules, diff: nat)
    requires PhaseOk(p) && |counts| == 2
    ensures
      var p' := Premature(p, counts, rules, diff);
      && PhaseOk(p') && (Lasts(p') ==> Lasts(p)) && p'.started == p.started && p'.startDelay == p.startDelay
      && (p'.status != p.status ==>
            && p.status == InProgress && p'.status == WaitLeave && p.countDown && Lasts(p')
            && (counts[0] < rules.minPlayers || counts[1] < rules.minPlayers)
            && p'.winners == [if counts[0] >= rules.minPlayers then 1 else if counts[1] >= rules.minPlayers then 2 else 0])
  {
  }

  lemma AdvanceOk(p: Phase, r: Roster, rules: Rules, diff: nat, setup: bool)
    requires PhaseOk(p) && |r.counts| == 2 && Ordered(rules)
    ensures var p' := Advance(p, r, rules, diff, setup); PhaseOk(p') && (Lasts(p') ==> Lasts(p))
  {
    PrematureOk(p, r.counts, rules, diff);
  }

  // ----- whole runs -----

  datatype Event =
    | Ticked(diff: nat, setup: bool)
    | Elapsed(seconds: nat)
    | Entered(guid: Guid, team: nat)
    | Left(guid: Guid)
    | LoggedOut(guid: Guid)
    | LoggedIn(guid: Guid)

  /** Players enter when they are not there, and leave and log out when they are there and
      online; an offline player does not come back after the end. */
  predicate Legal(b: Battle, e: Event) {
    match e
    case Ticked(_, _) => true
    case Elapsed(_) => true
    case Entered(g, _) => g !in b.roster.members
    case Left(g) => !Offline(b.roster, g)
    case LoggedOut(g) => g in b.roster.members && !Offline(b.roster, g)
    case LoggedIn(g) => g in b.roster.offline ==> b.phase.status != WaitLeave
  }

  /** What the events other than updates do. */
  function Changed(r: Roster, over: bool, e: Event): Roster
    requires |r.counts| == 2 && !e.Ticked?
  {
    match e
    case Elapsed(seconds) => r.(clock := r.clock + seconds)
    case Entered(g, team) => Add(r, g, team)
    case Left(g) => Remove(r, g)
    case LoggedOut(g) => LogOut(r, g)
    case LoggedIn(g) => LogIn(r, over, g)
  }

  function Apply(b: Battle, rules: Rules, e: Event): Battle
    requires |b.roster.counts| == 2 && |rules.delays| == 3
  {
    if e.Ticked? then Update(b, rules, e.diff, e.setup)
    else b.(roster := Changed(b.roster, b.phase.status == WaitLeave, e))
  }

  lemma CountsStay(b: Battle, rules: Rules, e: Event)
    requires |b.roster.counts| == 2 && |rules.delays| == 3
    ensures |Apply(b, rules, e).roster.counts| == 2
  {
  }

  function Run(b: Battle, rules: Rules, es: seq<Event>): (b': Battle)
    requires |b.roster.counts| == 2 && |rules.delays| == 3
    ensures |b'.roster.counts| == 2
    decreases |es|
  {
    if es == [] then b
    else
      CountsStay(b, rules, es[0]);
      Run(Apply(b, rules, es[0]), rules, es[1..])
  }

  ghost predicate AllLegal(b: Battle, rules: Rules, es: seq<Event>)
    requires |b.roster.counts| == 2 && |rules.delays| == 3
    decreases |es|
  {
    if es == [] then true
    else
      CountsStay(b, rules, es[0]);
      Legal(b, es[0]) && AllLegal(Apply(b, rules, es[0]), rules, es[1..])
  }

  ghost predicate Ok(b: Battle) {
    CountsOk(b.roster) && PhaseOk(b.phase) && (Lasts(b.phase) ==> QueueOk(b.roster))
  }

  lemma UpdateOk(b: Battle, rules: Rules, diff: nat, setup: bool)
    requires Ok(b) && Ordered(rules)
    ensures var b' := Update(b, rules, diff, setup); Ok(b') && (Lasts(b'.phase) ==> Lasts(b.phase))
  {
    if b.roster.members != map[] {
      var r := DropOffline(b.roster);
      if b.roster.offline != [] { RemoveCounts(b.roster, b.roster.offline[0]); }
      if Lasts(b.phase) { DropOfflineQueue(b.roster); }
      AdvanceOk(b.phase, r, rules, diff, setup);
      RemoveAllCounts(r);
    }
  }

  lemma ChangedOk(b: Battle, e: Event)
    requires Ok(b) && Legal(b, e) && !e.Ticked?
    ensures var r := Changed(b.roster, b.phase.status == WaitLeave, e); CountsOk(r) && (Lasts(b.phase) ==> QueueOk(r))
  {
    var r := b.roster;
    match e {
      case Elapsed(seconds) =>
        if Lasts(b.phase) { LaterQueue(r, seconds); }
      case Entered(g, team) =>
        AddCountsIff(r, g, team);
        if Lasts(b.phase) { AddQueue(r, g, team); }
      case Left(g) =>
        RemoveCounts(r, g);
        if Lasts(b.phase) { LeaveQueueIff(r, g); }
      case LoggedOut(g) =>
        LogOutCountsIff(r, g);
        if Lasts(b.phase) { LogOutQueue(r, g); }
      case LoggedIn(g) =>
        LogInCounts(r, b.phase.status == WaitLeave, g);
        if Lasts(b.phase) { LogInQueueIff(r, b.phase.status == WaitLeave, g); }
    }
  }

  lemma ApplyOk(b: Battle, rules: Rules, e: Event)
    requires Ok(b) && Ordered(rules) && Legal(b, e)
    ensures Ok(Apply(b, rules, e))
  {
    if e.Ticked? {
      UpdateOk(b, rules, e.diff, e.setup);
    } else {
      ChangedOk(b, e);
    }
  }

  /** In every state of every run the counts of both teams are exact, the start was announced in
      order, and until everybody is sent out the queue holds exactly the offline members. */
  lemma {:induction false} RunOk(b: Battle, rules: Rules, es: seq<Event>)
    requires Ok(b) && Ordered(rules) && AllLegal(b, rules, es)
    ensures Ok(Run(b, rules, es))
    decreases |es|
  {
    if es == [] {
    } else {
      ApplyOk(b, rules, es[0]);
      RunOk(Apply(b, rules, es[0]), rules, es[1..]);
    }
  }

  function Fresh(clock: nat): Battle {
    Battle(Phase(WaitJoin, {}, 0, 0, false, 0, []), Roster(map[], [], [0, 0], clock))
  }

  lemma FreshOk(clock: nat)
    ensures Ok(Fresh(clock))
  {
    assert Side(map[], 0) == {} && Side(map[], 1) == {};
  }

  // ----- offline players are removed in time -----

  function Ticks(es: seq<Event>): nat {
    if es == [] then 0 else Ticks(es[1..]) + if es[0].Ticked? then 1 else 0
  }

  predicate ComesBack(e: Event, g: Guid) {
    e == LoggedIn(g) || (e.Entered? && e.guid == g)
  }

  /** The player's time has come, and no more than k others are in front of it. */
  ghost predicate Queued(r: Roster, g: Guid, k: nat) {
    RemoveTime(r, g) <= r.clock && exists j :: 0 <= j <= k && j < |r.offline| && r.offline[j] == g
  }

  /** The player is gone, or queued, or everybody is about to be sent out. */
  ghost predicate Due(b: Battle, g: Guid, k: nat) {
    g !in b.roster.members || !Lasts(b.phase) || Queued(b.roster, g, k)
  }

  lemma DropOfflineQueued(r: Roster, g: Guid, k: nat)
    requires QueueOk(r) && |r.counts| == 2 && Queued(r, g, k)
    ensures var r' := DropOffline(r); g !in r'.members || (k > 0 && Queued(r', g, k - 1))
  {
    var j :| 0 <= j <= k && j < |r.offline| && r.offline[j] == g;
    assert r.offline[0] in r.offline;
    if j > 0 {
      assert DropOffline(r).offline[j - 1] == g;
    }
  }

  lemma TickDue(b: Battle, rules: Rules, diff: nat, setup: bool, g: Guid, k: nat)
    requires Ok(b) && Ordered(rules) && Due(b, g, k)
    ensures var b' := Update(b, rules, diff, setup); g !in b'.roster.members || (k > 0 && Due(b', g, k - 1))
  {
    if g in b.roster.members {
      if Lasts(b.phase) {
        DropOfflineQueued(b.roster, g, k);
      } else {
        PrematureOk(b.phase, DropOffline(b.roster).counts, rules, diff);
      }
    }
  }

  lemma ChangedQueued(r: Roster, over: bool, e: Event, g: Guid, k: nat)
    requires QueueOk(r) && |r.counts| == 2 && Legal(Battle(Fresh(0).phase.(status := if over then WaitLeave else InProgress), r), e)
    requires !e.Ticked? && !ComesBack(e, g) && Queued(r, g, k)
    ensures Queued(Changed(r, over, e), g, k)
  {
    var j :| 0 <= j <= k && j < |r.offline| && r.offline[j] == g;
    assert g in r.offline;
    var r' := Changed(r, over, e);
    if e.LoggedIn? {
      ReturnQueued(r, over, e.guid, g, j);
    } else {
      assert r'.offline[j] == g;
    }
  }

  lemma StillQueued(r: Roster, h: Guid, k: nat, g: Guid, j: nat)
    requires QueueOk(r) && k < |r.offline| && r.offline[k] == h && h != g && j < |r.offline| && r.offline[j] == g
    requires RemoveTime(r, g) <= r.clock
    ensures Queued(Return(r, h), g, j)
  {
    ReturnQueue(r, h, k);
    var i := if j < k then j else j - 1;
    assert Return(r, h).offline[i] == g;
  }

  /** The return of another player never puts one further back. */
  lemma ReturnQueued(r: Roster, over: bool, h: Guid, g: Guid, j: nat)
    requires QueueOk(r) && |r.counts| == 2 && h != g && j < |r.offline| && r.offline[j] == g && RemoveTime(r, g) <= r.clock
    requires h in r.offline ==> !over
    ensures Queued(LogIn(r, over, h), g, j)
  {
    if h in r.offline && h in r.members {
      var k :| 0 <= k < |r.offline| && r.offline[k] == h;
      StillQueued(r, h, k, g, j);
    } else {
      EraseAbsent(r.offline, h);
      assert LogIn(r, over, h).offline[j] == g;
    }
  }

  lemma StaysOut(b: Battle, rules: Rules, e: Event, g: Guid)
    requires |b.roster.counts| == 2 && |rules.delays| == 3 && Legal(b, e) && !ComesBack(e, g) && g !in b.roster.members
    ensures g !in Apply(b, rules, e).roster.members
  {
  }

  lemma StepGone(b: Battle, rules: Rules, e: Event, g: Guid, k: nat)
    requires Ok(b) && Ordered(rules) && Legal(b, e) && !ComesBack(e, g) && Due(b, g, k)
    ensures
      var b' := Apply(b, rules, e);
      if g !in b.roster.members || (e.Ticked? && k == 0) then g !in b'.roster.members
      else Due(b', g, if e.Ticked? then k - 1 else k)
  {
    if g !in b.roster.members {
      StaysOut(b, rules, e, g);
    } else if e.Ticked? {
      TickDue(b, rules, e.diff, e.setup, g, k);
    } else if Lasts(b.phase) {
      ChangedQueued(b.roster, b.phase.status == WaitLeave, e, g, k);
    }
  }

  /** A player that is offline and whose time has come is gone after as many updates as there are
      players in front of it, and one, whatever else happens in between, unless it comes back. */
  lemma {:induction false} GoneInTime(b: Battle, rules: Rules, es: seq<Event>, g: Guid, k: nat)
    requires Ok(b) && Ordered(rules) && AllLegal(b, rules, es) && (forall e :: e in es ==> !ComesBack(e, g))
    requires g !in b.roster.members || (Due(b, g, k) && Ticks(es) > k)
    ensures g !in Run(b, rules, es).roster.members
    decreases |es|
  {
    if es == [] {
    } else {
      assert es[0] in es;
      ApplyOk(b, rules, es[0]);
      StepGone(b, rules, es[0], g, k);
      GoneInTime(Apply(b, rules, es[0]), rules, es[1..], g, if es[0].Ticked? && k > 0 then k - 1 else k);
    }
  }

  // ----- a stale queue -----

  /** The head of the queue is no member any more. */
  predicate Stale(r: Roster, h: Guid) {
    r.offline != [] && r.offline[0] == h && h !in r.members
  }

  lemma StaleTick(b: Battle, rules: Rules, diff: nat, setup: bool, h: Guid)
    requires |b.roster.counts| == 2 && Ordered(rules) && PhaseOk(b.phase) && Stale(b.roster, h)
    ensures
      var b' := Update(b, rules, diff, setup);
      PhaseOk(b'.phase) && (Lasts(b'.phase) ==> Lasts(b.phase) && b'.roster == b.roster)
  {
    assert DropOffline(b.roster) == b.roster;
    AdvanceOk(b.phase, b.roster, rules, diff, setup);
  }

  lemma StaleChanged(b: Battle, e: Event, h: Guid)
    requires |b.roster.counts| == 2 && !e.Ticked? && Stale(b.roster, h) && !(e.Entered? && e.guid == h) && e != LoggedOut(h)
    ensures Stale(Changed(b.roster, b.phase.status == WaitLeave, e), h)
  {
  }

  /** Leaves by an own act, and not by an update. */
  predicate Quits(e: Event, g: Guid) {
    e == Left(g) || e == LoggedIn(g)
  }

  lemma ChangedKeeps(r: Roster, over: bool, e: Event, g: Guid)
    requires |r.counts| == 2 && !e.Ticked? && g in r.members && !Quits(e, g)
    ensures g in Changed(r, over, e).members
  {
  }

  /** A queue whose head is no member is stuck for good: however many updates follow, the head stays
      where it is and no member is removed but by an own act, until everybody is sent out or the
      player in front enters again or logs out without being there. Others may come and go as they
      like, and come back after the end as well. */
  lemma {:induction false} StaleHeadStuck(b: Battle, rules: Rules, es: seq<Event>, h: Guid)
    requires |b.roster.counts| == 2 && Ordered(rules) && PhaseOk(b.phase) && Stale(b.roster, h)
    requires forall e :: e in es ==> !(e.Entered? && e.guid == h) && e != LoggedOut(h)
    ensures
      var b' := Run(b, rules, es);
      Lasts(b'.phase) ==>
        && Lasts(b.phase) && Stale(b'.roster, h)
        && forall g :: g in b.roster.members && (forall e :: e in es ==> !Quits(e, g)) ==> g in b'.roster.members
    decreases |es|
  {
    if es == [] {
    } else {
      var b1 := Apply(b, rules, es[0]);
      assert es[0] in es;
      if es[0].Ticked? {
        StaleTick(b, rules, es[0].diff, es[0].setup, h);
        if Lasts(b1.phase) { StaleHeadStuck(b1, rules, es[1..], h); } else { OverStays(b1, rules, es[1..]); }
      } else {
        StaleChanged(b, es[0], h);
        StaleHeadStuck(b1, rules, es[1..], h);
        forall g | g in b.roster.members && !Quits(es[0], g) ensures g in b1.roster.members {
          ChangedKeeps(b.roster, b.phase.status == WaitLeave, es[0], g);
        }
      }
    }
  }

  /** Once everybody is being sent out it stays so. */
  lemma {:induction false} OverStays(b: Battle, rules: Rules, es: seq<Event>)
    requires |b.roster.counts| == 2 && |rules.delays| == 3 && !Lasts(b.phase)
    ensures !Lasts(Run(b, rules, es).phase)
    decreases |es|
  {
    if es == [] {
    } else {
      CountsStay(b, rules, es[0]);
      OverStays(Apply(b, rules, es[0]), rules, es[1..]);
    }
  }

  // ----- the battle opens in time -----

  /** The time that passes, as the updates are told. */
  function Passed(es: seq<Event>): nat {
    if es == [] then 0 else Passed(es[1..]) + if es[0].Ticked? then es[0].diff else 0
  }

  /** How long it is until the doors open. */
  function ToWait(p: Phase, rules: Rules): int
    requires |rules.delays| == 3
  {
    if 1 in p.started then p.startDelay else rules.delays[0]
  }

  lemma TickNotBefore(b: Battle, rules: Rules, diff: nat, setup: bool)
    requires |b.roster.counts| == 2 && |rules.delays| == 3 && b.phase.status != InProgress
    requires b.phase.status == WaitJoin ==> ToWait(b.phase, rules) > diff
    ensures
      var p, p' := b.phase, Update(b, rules, diff, setup).phase;
      && p'.status != InProgress
      && (p'.status == WaitJoin ==> p.status == WaitJoin && ToWait(p', rules) >= ToWait(p, rules) - diff)
  {
    var r := DropOffline(b.roster);
    var p1 := Premature(b.phase, r.counts, rules, diff);
    assert p1 == b.phase.(countDown := false);
    var p2 := Advance(b.phase, r, rules, diff, setup);
    assert p2.status == WaitJoin ==> ToWait(p2, rules) >= ToWait(p1, rules) - diff;
  }

  /** The doors never open before the first delay is over. */
  lemma {:induction false} NotBefore(b: Battle, rules: Rules, es: seq<Event>)
    requires |b.roster.counts| == 2 && |rules.delays| == 3 && b.phase.status != InProgress
    requires b.phase.status == WaitJoin ==> Passed(es) < ToWait(b.phase, rules)
    ensures Run(b, rules, es).phase.status != InProgress
    decreases |es|
  {
    if es == [] {
    } else {
      CountsStay(b, rules, es[0]);
      if es[0].Ticked? { TickNotBefore(b, rules, es[0].diff, es[0].setup); }
      NotBefore(Apply(b, rules, es[0]), rules, es[1..]);
    }
  }

  predicate Here(r: Roster, g: Guid) {
    g in r.members && !Offline(r, g)
  }

  /** A member that is online and stays so, in a battle that can be set up. */
  ghost predicate Stays(b: Battle, g: Guid, es: seq<Event>) {
    Here(b.roster, g) && forall e :: e in es ==> e != Left(g) && e != LoggedOut(g) && (e.Ticked? ==> e.setup)
  }

  lemma DropOfflineHere(r: Roster, g: Guid)
    requires QueueOk(r) && |r.counts| == 2 && Here(r, g)
    ensures Here(DropOffline(r), g)
  {
    assert r.offline != [] ==> r.offline[0] in r.offline;
  }

  lemma TickHere(b: Battle, rules: Rules, diff: nat, g: Guid)
    requires Ok(b) && Ordered(rules) && b.phase.status == WaitJoin && Here(b.roster, g)
    ensures
      var b' := Update(b, rules, diff, true);
      && b'.phase.status != WaitLeave && Here(b'.roster, g)
      && b'.phase == Starting(b.phase.(countDown := false), rules, diff, true)
  {
    DropOfflineHere(b.roster, g);
  }

  lemma ChangedHere(r: Roster, e: Event, g: Guid)
    requires |r.counts| == 2 && !e.Ticked? && Here(r, g) && e != Left(g) && e != LoggedOut(g)
    requires e.Entered? ==> e.guid !in r.members
    ensures Here(Changed(r, false, e), g)
  {
  }

  lemma StepStays(b: Battle, rules: Rules, g: Guid, es: seq<Event>)
    requires es != [] && Ok(b) && Ordered(rules) && Legal(b, es[0]) && b.phase.status == WaitJoin && Stays(b, g, es)
    ensures
      var e, b' := es[0], Apply(b, rules, es[0]);
      && Stays(b', g, es[1..])
      && b'.phase == if e.Ticked? then Starting(b.phase.(countDown := false), rules, e.diff, true) else b.phase
  {
    var e := es[0];
    assert e in es && forall e :: e in es[1..] ==> e in es;
    if e.Ticked? {
      TickHere(b, rules, e.diff, g);
    } else {
      ChangedHere(b.roster, e, g);
    }
  }

  lemma {:induction false} OpenStays(b: Battle, rules: Rules, es: seq<Event>)
    requires |b.roster.counts| == 2 && |rules.delays| == 3 && 4 in b.phase.started
    ensures 4 in Run(b, rules, es).phase.started
    decreases |es|
  {
    if es == [] {
    } else {
      CountsStay(b, rules, es[0]);
      OpenStays(Apply(b, rules, es[0]), rules, es[1..]);
    }
  }

  /** While somebody is there the delay goes down with every update. */
  lemma {:induction false} DelayFalls(b: Battle, rules: Rules, g: Guid, es: seq<Event>)
    requires Ok(b) && Ordered(rules) && AllLegal(b, rules, es) && Stays(b, g, es)
    requires b.phase.status == WaitJoin && 1 in b.phase.started
    ensures
      var b' := Run(b, rules, es);
      4 in b'.phase.started ||
      (b'.phase.status == WaitJoin && 1 in b'.phase.started && b'.phase.startDelay == b.phase.startDelay - Passed(es)
       && Here(b'.roster, g))
    decreases |es|
  {
    if es == [] {
    } else {
      var b1 := Apply(b, rules, es[0]);
      StepStays(b, rules, g, es);
      ApplyOk(b, rules, es[0]);
      if b1.phase.status == WaitJoin {
        DelayFalls(b1, rules, g, es[1..]);
      } else {
        OpenStays(b1, rules, es[1..]);
      }
    }
  }

  /** The announcements still missing. */
  function Missing(p: Phase): nat {
    (if 2 in p.started then 0 else 1) + (if 3 in p.started then 0 else 1) + if 4 in p.started then 0 else 1
  }

  /** When the delay is over, every update makes one of the announcements that are missing. */
  lemma {:induction false} OverdueOpens(b: Battle, rules: Rules, g: Guid, es: seq<Event>)
    requires Ok(b) && Ordered(rules) && AllLegal(b, rules, es) && Stays(b, g, es)
    requires 4 in b.phase.started
             || (b.phase.status == WaitJoin && 1 in b.phase.started && b.phase.startDelay <= 0 && Ticks(es) >= Missing(b.phase))
    ensures 4 in Run(b, rules, es).phase.started
    decreases |es|
  {
    if 4 in b.phase.started {
      OpenStays(b, rules, es);
    } else if es != [] {
      StepStays(b, rules, g, es);
      ApplyOk(b, rules, es[0]);
      OverdueOpens(Apply(b, rules, es[0]), rules, g, es[1..]);
    }
  }

  /** With somebody there all the time, the doors have opened three updates after the first delay
      is over. */
  lemma OpensInTime(b: Battle, rules: Rules, g: Guid, es: seq<Event>, more: seq<Event>)
    requires Ok(b) && Ordered(rules) && AllLegal(b, rules, es) && AllLegal(Run(b, rules, es), rules, more)
    requires Stays(b, g, es + more) && b.phase.status == WaitJoin && 1 in b.phase.started
    requires Passed(es) >= b.phase.startDelay && Ticks(more) >= 3
    ensures 4 in Run(Run(b, rules, es), rules, more).phase.started
  {
    var b1 := Run(b, rules, es);
    RunOk(b, rules, es);
    assert forall e :: e in es || e in more ==> e in es + more;
    DelayFalls(b, rules, g, es);
    if 4 in b1.phase.started {
      OpenStays(b1, rules, more);
    } else {
      OverdueOpens(b1, rules, g, more);
    }
  }
}
