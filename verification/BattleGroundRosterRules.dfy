/** The rules of taking part, written down apart from the steps that keep them: where players are after
    they come, go, drop out and come back, when announcements are made, when a one-sided battle is
    broken off, and when everybody is sent out. */
module BattleGroundRosterRules {
  import opened BattleGroundRoster

  // ----- players -----

  /** The Alliance is 469, everybody else plays for the Horde. */
  function SideOf(team: nat): nat {
    if team == 469 then 0 else 1
  }

  /** One counter of 32 bits has moved, and the other has not. */
  predicate Counted(counts: seq<nat>, counts': seq<nat>, t: nat, d: int) {
    && |counts| == |counts'| == 2 && t < 2
    && counts'[t] == (counts[t] + d) % 0x1_0000_0000 && counts'[1 - t] == counts[1 - t]
  }

  /** Where everybody is after an event other than an update. */
  ghost predicate PlayersRule(r: Roster, over: bool, e: Event, r': Roster)
    requires !e.Ticked?
  {
    match e
    case Elapsed(seconds) => r' == r.(clock := r.clock + seconds)
    case Entered(g, team) =>
      && r' == r.(members := r.members[g := Member(team, 0)], counts := r'.counts)
      && Counted(r.counts, r'.counts, SideOf(team), 1)
    case Left(g) =>
      if g !in r.members then r' == r else Gone(r, r', g)
    case LoggedOut(g) =>
      && r'.members.Keys == r.members.Keys + {g} && r'.members[g].removeTime == r.clock + 300
      && r'.members[g].team == (if g in r.members then r.members[g].team else 0)
      && (forall h :: h in r.members && h != g ==> r'.members[h] == r.members[h])
      && r'.offline == r.offline + [g] && r'.counts == r.counts && r'.clock == r.clock
    case LoggedIn(g) =>
      if g !in r.members then r' == r
      else if over then Gone(r, r', g)
      else
        && r'.members == r.members[g := Member(r.members[g].team, 0)] && r'.counts == r.counts && r'.clock == r.clock
        && (QueueOk(r) ==> forall h :: h in r'.offline <==> h in r.offline && h != g)
  }

  /** A member has left. */
  ghost predicate Gone(r: Roster, r': Roster, g: Guid)
    requires g in r.members
  {
    r' == r.(members := r.members - {g}, counts := r'.counts)
      && Counted(r.counts, r'.counts, SideOf(r.members[g].team), -1)
  }

  lemma ReturnRule(r: Roster, g: Guid)
    requires QueueOk(r) && g in r.members
    ensures forall h :: h in Return(r, g).offline <==> h in r.offline && h != g
  {
    if g in r.offline {
      var k :| 0 <= k < |r.offline| && r.offline[k] == g;
      ReturnQueue(r, g, k);
      forall h ensures h in Return(r, g).offline <==> h in r.offline && h != g {
        Without(r.offline, k, h);
      }
    } else {
      EraseAbsent(r.offline, g);
    }
  }

  /** Players come, go, drop out and come back as the rules say. */
  lemma ChangedRule(r: Roster, over: bool, e: Event)
    requires |r.counts| == 2 && !e.Ticked?
    ensures PlayersRule(r, over, e, Changed(r, over, e))
  {
    if e.LoggedIn? && e.guid in r.members && !over && QueueOk(r) {
      ReturnRule(r, e.guid);
    }
  }

  /** An update removes the player in front of the queue when its time has come, and nobody else. */
  lemma DropRule(r: Roster)
    requires |r.counts| == 2
    ensures
      var r' := DropOffline(r);
      if r.offline != [] && r.offline[0] in r.members && r.members[r.offline[0]].removeTime <= r.clock then
        Gone(r.(offline := r.offline[1..]), r', r.offline[0])
      else r' == r
  {
  }

  // ----- announcements -----

  /** No announcement is early: the second and third are due so long before the start, and the doors
      open when nothing is left to wait. */
  predicate OnTime(p: Phase, rules: Rules)
    requires |rules.delays| == 3
  {
    && (2 in p.started ==> p.startDelay <= rules.delays[1])
    && (3 in p.started ==> p.startDelay <= rules.delays[2])
    && (4 in p.started ==> p.startDelay <= 0)
    && (p.started == {} || 1 in p.started)
  }

  lemma TickOnTime(b: Battle, rules: Rules, diff: nat, setup: bool)
    requires |b.roster.counts| == 2 && Ordered(rules) && PhaseOk(b.phase) && OnTime(b.phase, rules)
    ensures PhaseOk(Update(b, rules, diff, setup).phase) && OnTime(Update(b, rules, diff, setup).phase, rules)
  {
    PrematureOk(b.phase, DropOffline(b.roster).counts, rules, diff);
  }

  lemma {:induction false} RunOnTime(b: Battle, rules: Rules, es: seq<Event>)
    requires |b.roster.counts| == 2 && Ordered(rules) && PhaseOk(b.phase) && OnTime(b.phase, rules)
    ensures OnTime(Run(b, rules, es).phase, rules)
    decreases |es|
  {
    if es == [] {
    } else {
      if es[0].Ticked? {
        TickOnTime(b, rules, es[0].diff, es[0].setup);
      }
      CountsStay(b, rules, es[0]);
      RunOnTime(Apply(b, rules, es[0]), rules, es[1..]);
    }
  }

  /** And none is late: the update that finds one due makes it. */
  lemma Punctual(p: Phase, rules: Rules, diff: nat)
    requires Ordered(rules) && PhaseOk(p) && p.status == WaitJoin && 1 in p.started
    ensures
      var p', left := Starting(p, rules, diff, true), p.startDelay - diff;
      && (left <= rules.delays[1] ==> 2 in p'.started)
      && (left <= rules.delays[2] && 2 in p.started ==> 3 in p'.started)
      && (left <= 0 && 2 in p.started && 3 in p.started ==> 4 in p'.started && p'.status == InProgress)
  {
  }

  /** The first update with somebody there sets the battle up; if that fails it is over at once. */
  lemma SetupRule(p: Phase, rules: Rules, diff: nat, setup: bool)
    requires Ordered(rules) && p.status == WaitJoin && p.started == {}
    ensures
      var p' := Starting(p, rules, diff, setup);
      && p'.started == {1} && p'.winners == p.winners
      && if setup then p'.status == WaitJoin && p'.startDelay == rules.delays[0] else p'.status == WaitLeave && p'.endTime == 0
  {
  }

  // ----- one-sided battles -----

  /** At an update, once the player in front of the queue is dealt with, one side has too few. */
  predicate Lonely(b: Battle, rules: Rules)
    requires |b.roster.counts| == 2
  {
    var counts := DropOffline(b.roster).counts;
    b.roster.members != map[] && (counts[0] < rules.minPlayers || counts[1] < rules.minPlayers)
  }

  /** It is so at every update while the battle is on. */
  predicate LonelyAlways(b: Battle, rules: Rules, es: seq<Event>)
    requires |b.roster.counts| == 2 && |rules.delays| == 3
    decreases |es|
  {
    if es == [] then true
    else
      CountsStay(b, rules, es[0]);
      (es[0].Ticked? && b.phase.status == InProgress ==> Lonely(b, rules)) && LonelyAlways(Apply(b, rules, es[0]), rules, es[1..])
  }

  /** The count-down of a battle that is on. */
  predicate CountsDown(p: Phase, left: nat) {
    p.status == InProgress && p.countDown && p.countDownTimer == left
  }

  lemma LonelyTick(b: Battle, rules: Rules, diff: nat, setup: bool, left: nat)
    requires |b.roster.counts| == 2 && |rules.delays| == 3 && Lonely(b, rules) && CountsDown(b.phase, left)
    requires rules.prematureTime != 0 && !rules.testing
    ensures
      var p' := Update(b, rules, diff, setup).phase;
      if diff > left then p'.status == WaitLeave else CountsDown(p', left - diff)
  {
  }

  lemma {:induction false} LeavesStay(b: Battle, rules: Rules, es: seq<Event>)
    requires |b.roster.counts| == 2 && |rules.delays| == 3 && b.phase.status == WaitLeave
    ensures Run(b, rules, es).phase.status == WaitLeave && Run(b, rules, es).phase.winners == b.phase.winners
    decreases |es|
  {
    if es == [] {
    } else {
      CountsStay(b, rules, es[0]);
      LeavesStay(Apply(b, rules, es[0]), rules, es[1..]);
    }
  }

  /** A battle with too few on one side is broken off when the count-down is over, and not before. */
  lemma {:induction false} LonelyEnds(b: Battle, rules: Rules, es: seq<Event>, left: nat)
    requires |b.roster.counts| == 2 && |rules.delays| == 3 && LonelyAlways(b, rules, es) && CountsDown(b.phase, left)
    requires rules.prematureTime != 0 && !rules.testing
    ensures
      var p' := Run(b, rules, es).phase;
      if Passed(es) > left then p'.status == WaitLeave else CountsDown(p', left - Passed(es))
    decreases |es|
  {
    if es == [] {
    } else {
      CountsStay(b, rules, es[0]);
      var b1 := Apply(b, rules, es[0]);
      if es[0].Ticked? {
        LonelyTick(b, rules, es[0].diff, es[0].setup, left);
        if es[0].diff > left {
          LeavesStay(b1, rules, es[1..]);
        } else {
          LonelyEnds(b1, rules, es[1..], left - es[0].diff);
        }
      } else {
        LonelyEnds(b1, rules, es[1..], left);
      }
    }
  }

  /** The count-down starts with the first update that finds too few, and stops with the first that
      finds enough again. */
  lemma CountDownRule(b: Battle, rules: Rules, diff: nat, setup: bool)
    requires |b.roster.counts| == 2 && |rules.delays| == 3 && b.phase.status == InProgress && b.roster.members != map[]
    ensures
      var p' := Update(b, rules, diff, setup).phase;
      && (rules.prematureTime != 0 && Lonely(b, rules) && !b.phase.countDown ==> CountsDown(p', rules.prematureTime))
      && (rules.prematureTime == 0 || !Lonely(b, rules) ==> p'.status == InProgress && !p'.countDown)
  {
  }

  // ----- the end -----

  /** After the end everybody is sent out when two minutes have passed: the update at which nothing is
      left of them. */
  lemma LeaveTick(b: Battle, rules: Rules, diff: nat, setup: bool)
    requires |b.roster.counts| == 2 && |rules.delays| == 3 && b.phase.status == WaitLeave && b.roster.members != map[]
    ensures
      var b' := Update(b, rules, diff, setup);
      && b'.phase.status == WaitLeave
      && if b.phase.endTime <= diff then b'.roster.members == map[] else b'.phase.endTime == b.phase.endTime - diff
  {
  }

  predicate NobodyEnters(es: seq<Event>) {
    es == [] || (!es[0].Entered? && NobodyEnters(es[1..]))
  }

  lemma {:induction false} EmptyStays(b: Battle, rules: Rules, es: seq<Event>)
    requires |b.roster.counts| == 2 && |rules.delays| == 3 && b.roster.members == map[] && NobodyEnters(es)
             && AllLegal(b, rules, es)
    ensures Run(b, rules, es).roster.members == map[]
    decreases |es|
  {
    if es == [] {
    } else {
      CountsStay(b, rules, es[0]);
      EmptyStays(Apply(b, rules, es[0]), rules, es[1..]);
    }
  }

  lemma {:induction false} PassedTicks(es: seq<Event>)
    requires Ticks(es) == 0
    ensures Passed(es) == 0
  {
    if es == [] {
    } else {
      PassedTicks(es[1..]);
    }
  }

  /** After the end, when nobody enters any more, everybody is out as soon as the time left has
      passed. */
  lemma {:induction false} AllSentOut(b: Battle, rules: Rules, es: seq<Event>)
    requires |b.roster.counts| == 2 && |rules.delays| == 3 && b.phase.status == WaitLeave
    requires NobodyEnters(es) && AllLegal(b, rules, es) && Passed(es) >= b.phase.endTime && Ticks(es) > 0
    ensures Run(b, rules, es).roster.members == map[]
    decreases |es|
  {
    CountsStay(b, rules, es[0]);
    var b1 := Apply(b, rules, es[0]);
    if b.roster.members == map[] {
      EmptyStays(b, rules, es);
    } else if !es[0].Ticked? {
      AllSentOut(b1, rules, es[1..]);
    } else {
      LeaveTick(b, rules, es[0].diff, es[0].setup);
      if b.phase.endTime <= es[0].diff {
        EmptyStays(b1, rules, es[1..]);
      } else {
        if Ticks(es[1..]) == 0 {
          PassedTicks(es[1..]);
        }
        AllSentOut(b1, rules, es[1..]);
      }
    }
  }

  /** Whoever wins, the battle is over for two minutes. */
  lemma EndRule(p: Phase, winner: nat)
    ensures var p' := EndBattle(p, winner); p'.status == WaitLeave && p'.endTime == 120000 && p'.winners == p.winners + [winner]
  {
  }
}
