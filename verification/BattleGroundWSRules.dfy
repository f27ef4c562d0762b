/** The rules of Warsong Gulch, written down apart from the steps that keep them: what becomes of a
    flag, what a capture is and what it counts, who wins, and what follows for whole matches. */
module BattleGroundWSRules {
  import opened BattleGroundWS
  import Ev = BattleGroundEvents

  // ----- flags -----

  /** A team's flag: where it is, who carries it, how long it waits after a capture, and how long it
      lies on the ground. */
  datatype TeamFlag = TeamFlag(state: nat, keeper: Guid, wait: int, ground: int)

  function FlagOf(s: Battle, t: nat): TeamFlag
    requires Shaped(s) && t < 2
  {
    TeamFlag(s.flag[t], s.keeper[t], s.timer[t], s.dropTimer[t])
  }

  /** The carrier of the enemy flag has come home, where its own flag is. */
  predicate Captures(s: Battle, e: Event, team: nat)
    requires Shaped(s) && team < 2
  {
    e.Arrived? && e.guid != 0 && e.home == team && s.keeper[1 - team] == e.guid && s.flag[team] == ON_BASE
  }

  /** A flag that nobody touches for a while: after a capture it is back in more than 23 seconds, and
      from the ground in more than ten. */
  function Untouched(f: TeamFlag, elapsed: nat): TeamFlag {
    if f.state == WAIT_RESPAWN then
      if f.wait < elapsed then f.(state := ON_BASE, wait := 0) else f.(wait := f.wait - elapsed)
    else if f.state == ON_GROUND then
      if f.ground < elapsed then f.(state := ON_BASE, ground := 0) else f.(ground := f.ground - elapsed)
    else f
  }

  /** What one event does to the flag of team t. The other team takes it from its base, or from the
      ground, where its own team returns it; the carrier drops it, or brings it home. */
  function FlagAfter(s: Battle, side: Guid -> nat, e: Event, t: nat): TeamFlag
    requires Shaped(s) && t < 2
  {
    var f := FlagOf(s, t);
    match e
    case Ticked(diff) => Untouched(f, diff)
    case Clicked(g, event1, close) =>
      if f.state == ON_BASE && event1 == t && side(g) == 1 - t then f.(state := ON_PLAYER, keeper := g)
      else if f.state == ON_GROUND && close then
        if side(g) == t then f.(state := ON_BASE) else f.(state := ON_PLAYER, keeper := g)
      else f
    case Killed(g) => if f.keeper != 0 && f.keeper == g then TeamFlag(ON_GROUND, 0, f.wait, 10000) else f
    case Left(g, online) =>
      if f.keeper == 0 || f.keeper != g then f
      else if online then TeamFlag(ON_GROUND, 0, f.wait, 10000)
      else f.(state := ON_BASE, keeper := 0)
    case Arrived(_, _) =>
      if Captures(s, e, 1 - t) then TeamFlag(WAIT_RESPAWN, 0, if s.scores[1 - t] == 2 then f.wait else 23000, f.ground) else f
  }

  // ----- the match -----

  predicate TimeOver(s: Battle, e: Event) {
    e.Ticked? && s.endTimer <= e.diff
  }

  /** The higher score wins; at a draw, whoever captured last; and without a capture nobody, 0. */
  function Verdict(s: Battle): nat
    requires Shaped(s)
  {
    if s.scores[ALLIANCE] > s.scores[HORDE] then 1 else if s.scores[ALLIANCE] < s.scores[HORDE] then 2 else s.lastCapture
  }

  /** A capture counts one for its team, and is remembered. */
  predicate ScoreRule(s: Battle, e: Event, r: Battle)
    requires Shaped(s) && Shaped(r)
  {
    && r.scores[ALLIANCE] == s.scores[ALLIANCE] + (if Captures(s, e, ALLIANCE) then 1 else 0)
    && r.scores[HORDE] == s.scores[HORDE] + (if Captures(s, e, HORDE) then 1 else 0)
    && r.lastCapture == (if Captures(s, e, ALLIANCE) then 1 else if Captures(s, e, HORDE) then 2 else s.lastCapture)
  }

  /** The match ends with a third capture or when its time is over, and with a verdict. */
  predicate EndRule(s: Battle, e: Event, r: Battle)
    requires Shaped(s) && Shaped(r)
  {
    && (r.running <==> !TimeOver(s, e) && r.scores[ALLIANCE] < 3 && r.scores[HORDE] < 3)
    && r.ends == (if r.running then [] else [Verdict(r)])
    && r.endTimer == if e.Ticked? && e.diff < s.endTimer then s.endTimer - e.diff else s.endTimer
  }

  /** One event of a match that is on. */
  predicate Rules(s: Battle, side: Guid -> nat, e: Event, r: Battle)
    requires Shaped(s) && Shaped(r)
  {
    && FlagOf(r, ALLIANCE) == FlagAfter(s, side, e, ALLIANCE) && FlagOf(r, HORDE) == FlagAfter(s, side, e, HORDE)
    && ScoreRule(s, e, r) && EndRule(s, e, r)
  }

  /** The clock shows every minute that has begun. */
  lemma MinutesAre(endTimer: nat)
    ensures (MinutesLeft(endTimer) - 1) * 60000 < endTimer <= MinutesLeft(endTimer) * 60000
            || endTimer == 0 == MinutesLeft(endTimer)
  {
  }

  // ----- the steps keep them -----

  /** Only the flag of team t has changed, and nothing of the match. */
  predicate FlagSet(s: Battle, r: Battle, t: nat, f: TeamFlag)
    requires Shaped(s) && Shaped(r) && t < 2
  {
    FlagOf(r, t) == f && FlagOf(r, 1 - t) == FlagOf(s, 1 - t) && SameMatch(s, r)
  }

  predicate SameMatch(s: Battle, r: Battle) {
    && r.scores == s.scores && r.lastCapture == s.lastCapture && r.endTimer == s.endTimer
    && r.ends == s.ends && r.running == s.running
  }

  lemma UpdateWaitEffect(s: Battle, t: nat, diff: nat)
    requires Shaped(s) && t < 2
    ensures FlagSet(s, UpdateWait(s, t, diff), t,
                    if s.flag[t] == WAIT_RESPAWN then Untouched(FlagOf(s, t), diff) else FlagOf(s, t))
  {
  }

  lemma UpdateGroundEffect(s: Battle, t: nat, diff: nat)
    requires Shaped(s) && t < 2
    ensures FlagSet(s, UpdateGround(s, t, diff), t,
                    if s.flag[t] == ON_GROUND then Untouched(FlagOf(s, t), diff) else FlagOf(s, t))
  {
  }

  lemma OneTicks(s: Battle, t: nat, diff: nat)
    requires Shaped(s) && t < 2
    ensures FlagSet(s, UpdateGround(UpdateWait(s, t, diff), t, diff), t, Untouched(FlagOf(s, t), diff))
  {
    UpdateWaitEffect(s, t, diff);
    UpdateGroundEffect(UpdateWait(s, t, diff), t, diff);
  }

  lemma ClockRules(s: Battle, side: Guid -> nat, s1: Battle, diff: nat, e: Event)
    requires Shaped(s) && Shaped(s1) && s.running && ScoresOk(s) && e == Ticked(diff) && SameMatch(s, s1)
    requires FlagOf(s1, 0) == Untouched(FlagOf(s, 0), diff) && FlagOf(s1, 1) == Untouched(FlagOf(s, 1), diff)
    ensures Rules(s, side, e, UpdateClock(s1, diff))
  {
  }

  lemma TickedRules(s: Battle, side: Guid -> nat, diff: nat)
    requires Ok(s, side) && s.running
    ensures Rules(s, side, Ticked(diff), Update(s, diff))
  {
    var s1 := UpdateGround(UpdateWait(s, ALLIANCE, diff), ALLIANCE, diff);
    OneTicks(s, ALLIANCE, diff);
    OneTicks(s1, HORDE, diff);
    ClockRules(s, side, UpdateGround(UpdateWait(s1, HORDE, diff), HORDE, diff), diff, Ticked(diff));
  }

  lemma TakeFromBaseEffect(s: Battle, t: nat, g: Guid, team: nat, event1: nat)
    requires Shaped(s) && t < 2 && team < 2
    ensures
      var f := FlagOf(s, t);
      FlagSet(s, TakeFromBase(s, t, g, team, event1), t,
              if f.state == ON_BASE && event1 == t && team == 1 - t then f.(state := ON_PLAYER, keeper := g) else f)
  {
  }

  lemma TakeFromGroundEffect(s: Battle, t: nat, g: Guid, team: nat, close: bool)
    requires Shaped(s) && t < 2 && team < 2
    ensures
      var f := FlagOf(s, t);
      FlagSet(s, TakeFromGround(s, t, g, team, close), t,
              if f.state != ON_GROUND || !close then f
              else if team == t then f.(state := ON_BASE) else f.(state := ON_PLAYER, keeper := g))
  {
  }

  lemma ClickedRules(s: Battle, side: Guid -> nat, g: Guid, event1: nat, close: bool)
    requires Ok(s, side) && s.running && side(g) < 2
    ensures Rules(s, side, Clicked(g, event1, close), ClickedOnFlag(s, g, side(g), event1, close))
  {
    var team := side(g);
    var s1 := TakeFromBase(s, ALLIANCE, g, team, event1);
    var s2 := TakeFromBase(s1, HORDE, g, team, event1);
    var s3 := TakeFromGround(s2, ALLIANCE, g, team, close);
    TakeFromBaseEffect(s, ALLIANCE, g, team, event1);
    TakeFromBaseEffect(s1, HORDE, g, team, event1);
    TakeFromGroundEffect(s2, ALLIANCE, g, team, close);
    TakeFromGroundEffect(s3, HORDE, g, team, close);
  }

  lemma KilledRules(s: Battle, side: Guid -> nat, g: Guid)
    requires Ok(s, side) && s.running && side(g) < 2
    ensures Rules(s, side, Killed(g), DroppedFlag(s, g, side(g)))
  {
  }

  /** Leaving with a flag drops it; who is not online any more leaves it at its base. */
  lemma LeaveOneEffect(s: Battle, side: Guid -> nat, t: nat, g: Guid, online: bool)
    requires Ok(s, side) && s.running && t < 2 && side(g) < 2
    ensures FlagSet(s, LeaveOne(s, t, g, side(g), online), t, FlagAfter(s, side, Left(g, online), t))
  {
    assert FlagOk(s, side, t);
  }

  lemma LeftRules(s: Battle, side: Guid -> nat, g: Guid, online: bool)
    requires Ok(s, side) && s.running && side(g) < 2
    ensures Rules(s, side, Left(g, online), RemovePlayer(s, g, side(g), online))
  {
    LeaveOneOk(s, side, ALLIANCE, g, side(g), online);
    LeaveOneEffect(s, side, ALLIANCE, g, online);
    LeaveOneEffect(LeaveOne(s, ALLIANCE, g, side(g), online), side, HORDE, g, online);
  }

  lemma ScoreEffect(s: Battle, team: nat, t: nat)
    requires Shaped(s) && team < 2 && t == 1 - team && s.scores[team] < 3
    ensures
      var r := Score(s, team);
      && r.flag == s.flag[t := WAIT_RESPAWN] && r.keeper == s.keeper[t := 0] && r.dropTimer == s.dropTimer
      && r.timer == s.timer
      && r.scores == s.scores[team := s.scores[team] + 1] && SameMatch(s.(scores := r.scores), r)
  {
  }

  /** A capture by a team whose flag is at home. */
  lemma CapturedEffect(s: Battle, team: nat, t: nat)
    requires Shaped(s) && s.running && team < 2 && t == 1 - team && s.keeper[t] != 0
    requires s.scores[ALLIANCE] < 3 && s.scores[HORDE] < 3
    ensures
      var r := CapturedFlag(s, team);
      && r.flag == s.flag[t := WAIT_RESPAWN] && r.keeper == s.keeper[t := 0] && r.dropTimer == s.dropTimer
      && r.timer == (if s.scores[team] == 2 then s.timer else s.timer[t := 23000])
      && r.scores == s.scores[team := s.scores[team] + 1] && r.lastCapture == team + 1 && r.endTimer == s.endTimer
      && r.running == (s.scores[team] < 2) && r.ends == if s.scores[team] < 2 then s.ends else s.ends + [team + 1]
  {
    ScoreEffect(s.(lastCapture := Name(team)), team, t);
  }

  lemma HomeRules(s: Battle, side: Guid -> nat, r: Battle, e: Event, home: nat, t: nat)
    requires Shaped(s) && ScoresOk(s) && s.running && Shaped(r) && home < 2 && t == 1 - home && Captures(s, e, home)
             && e.Arrived?
    requires s.flag[t] != ON_BASE
    requires r.flag == s.flag[t := WAIT_RESPAWN] && r.keeper == s.keeper[t := 0] && r.dropTimer == s.dropTimer
    requires r.timer == if s.scores[home] == 2 then s.timer else s.timer[t := 23000]
    requires r.scores == s.scores[home := s.scores[home] + 1] && r.lastCapture == home + 1 && r.endTimer == s.endTimer
    requires r.running == (s.scores[home] < 2) && r.ends == if s.scores[home] < 2 then s.ends else s.ends + [home + 1]
    ensures Rules(s, side, e, r)
  {
  }

  lemma ArrivedRules(s: Battle, side: Guid -> nat, g: Guid, home: nat, t: nat)
    requires Ok(s, side) && s.running && g != 0 && side(g) < 2 && home < 2 && t == 1 - home
    ensures Rules(s, side, Arrived(g, home), AreaTrigger(s, home, g, side(g)))
  {
    assert FlagOk(s, side, t);
    if Captures(s, Arrived(g, home), home) {
      CapturedEffect(s, home, t);
      HomeRules(s, side, CapturedFlag(s, home), Arrived(g, home), home, t);
    }
  }

  /** Every event of a match that is on keeps to the rules. */
  lemma ApplyRules(s: Battle, side: Guid -> nat, e: Event)
    requires Ok(s, side) && s.running && Possible(s, side, e)
    ensures Rules(s, side, e, Apply(s, side, e))
  {
    match e {
      case Ticked(diff) => TickedRules(s, side, diff);
      case Clicked(g, event1, close) => ClickedRules(s, side, g, event1, close);
      case Killed(g) => KilledRules(s, side, g);
      case Arrived(g, home) => ArrivedRules(s, side, g, home, 1 - home);
      case Left(g, online) => LeftRules(s, side, g, online);
    }
  }

  // ----- whole matches -----

  /** After the end scores and verdict stand. */
  lemma OverKeeps(s: Battle, side: Guid -> nat, e: Event)
    requires Shaped(s) && !s.running
    ensures SameMatch(s, Apply(s, side, e))
  {
  }

  lemma {:induction false} OverStays(s: Battle, side: Guid -> nat, es: seq<Event>)
    requires Shaped(s) && !s.running
    ensures SameMatch(s, Run(s, side, es))
    decreases |es|
  {
    if es == [] {
    } else {
      OverKeeps(s, side, es[0]);
      OverStays(Apply(s, side, es[0]), side, es[1..]);
    }
  }

  lemma StillOn(s: Battle, side: Guid -> nat, es: seq<Event>)
    requires Shaped(s) && es != [] && Run(s, side, es).running
    ensures s.running && Apply(s, side, es[0]).running
  {
    if !s.running {
      OverStays(s, side, es);
    } else if !Apply(s, side, es[0]).running {
      OverStays(Apply(s, side, es[0]), side, es[1..]);
    }
  }

  /** A match that is over has one verdict. */
  predicate Decided(s: Battle)
    requires Shaped(s)
  {
    && s.ends == (if s.running then [] else [Verdict(s)])
    && (s.lastCapture == 0 <==> s.scores[ALLIANCE] == 0 && s.scores[HORDE] == 0) && s.lastCapture <= 2
  }

  lemma RulesDecide(s: Battle, side: Guid -> nat, e: Event, r: Battle)
    requires Shaped(s) && Shaped(r) && Decided(s) && Rules(s, side, e, r)
    ensures Decided(r)
  {
  }

  /** The winner of every match is the team with more captures; at a draw, the one that captured
      last; and nobody when there was none. */
  lemma {:induction false} RunDecided(s: Battle, side: Guid -> nat, es: seq<Event>)
    requires Ok(s, side) && Decided(s)
    ensures Decided(Run(s, side, es))
    decreases |es|
  {
    if es == [] {
    } else {
      var r := Apply(s, side, es[0]);
      ApplyOk(s, side, es[0]);
      if s.running && Possible(s, side, es[0]) {
        ApplyRules(s, side, es[0]);
        RulesDecide(s, side, es[0], r);
      } else if !s.running {
        OverKeeps(s, side, es[0]);
      }
      RunDecided(r, side, es[1..]);
    }
  }

  function Captured(s: Battle, side: Guid -> nat, e: Event, team: nat): nat
    requires Shaped(s) && team < 2
  {
    if s.running && Possible(s, side, e) && Captures(s, e, team) then 1 else 0
  }

  /** How often a team brought a flag home. */
  function Count(s: Battle, side: Guid -> nat, es: seq<Event>, team: nat): nat
    requires Shaped(s) && team < 2
    decreases |es|
  {
    if es == [] then 0 else Captured(s, side, es[0], team) + Count(Apply(s, side, es[0]), side, es[1..], team)
  }

  lemma RulesCount(s: Battle, e: Event, r: Battle, team: nat)
    requires Shaped(s) && Shaped(r) && team < 2 && ScoreRule(s, e, r)
    ensures r.scores[team] == s.scores[team] + if Captures(s, e, team) then 1 else 0
  {
  }

  lemma StepCount(s: Battle, side: Guid -> nat, e: Event, team: nat)
    requires Ok(s, side) && team < 2
    ensures Ok(Apply(s, side, e), side)
    ensures Apply(s, side, e).scores[team] == s.scores[team] + Captured(s, side, e, team)
  {
    ApplyOk(s, side, e);
    if s.running {
      if Possible(s, side, e) {
        ApplyRules(s, side, e);
        RulesCount(s, e, Apply(s, side, e), team);
      }
    } else {
      OverKeeps(s, side, e);
    }
  }

  /** A team's score counts the flags it brought home. */
  lemma {:induction false} RunCount(s: Battle, side: Guid -> nat, es: seq<Event>, team: nat)
    requires Ok(s, side) && team < 2
    ensures Run(s, side, es).scores[team] == s.scores[team] + Count(s, side, es, team)
    decreases |es|
  {
    if es == [] {
    } else {
      StepCount(s, side, es[0], team);
      RunCount(Apply(s, side, es[0]), side, es[1..], team);
    }
  }

  function Time(e: Event): nat {
    if e.Ticked? then e.diff else 0
  }

  function Elapsed(es: seq<Event>): nat {
    if es == [] then 0 else Time(es[0]) + Elapsed(es[1..])
  }

  /** Nobody uses the flag, neither at its base nor on the ground. */
  predicate LeavesAlone(e: Event, t: nat) {
    !(e.Clicked? && (e.close || e.event1 == t))
  }

  predicate LeftAlone(es: seq<Event>, t: nat) {
    es == [] || (LeavesAlone(es[0], t) && LeftAlone(es[1..], t))
  }

  lemma UntouchedAdds(f: TeamFlag, a: nat, b: nat)
    requires f.wait >= 0 && f.ground >= 0
    ensures Untouched(Untouched(f, a), b) == Untouched(f, a + b) && Untouched(f, 0) == f
    ensures Untouched(f, a).wait >= 0 && Untouched(f, a).ground >= 0 && Untouched(f, a).keeper == f.keeper
  {
  }

  lemma RulesUntouched(s: Battle, side: Guid -> nat, e: Event, t: nat, f: TeamFlag)
    requires Shaped(s) && t < 2 && f == FlagOf(s, t) && f.keeper == 0 && f.wait >= 0 && f.ground >= 0
             && LeavesAlone(e, t)
    ensures FlagAfter(s, side, e, t) == Untouched(f, Time(e))
  {
    UntouchedAdds(f, 0, 0);
  }

  lemma StepUntouched(s: Battle, side: Guid -> nat, e: Event, t: nat)
    requires Ok(s, side) && s.running && t < 2 && s.keeper[t] == 0 && LeavesAlone(e, t)
    requires s.timer[t] >= 0 && s.dropTimer[t] >= 0
    ensures Ok(Apply(s, side, e), side) && FlagOf(Apply(s, side, e), t) == Untouched(FlagOf(s, t), Time(e))
  {
    ApplyOk(s, side, e);
    RulesUntouched(s, side, e, t, FlagOf(s, t));
    if Possible(s, side, e) {
      ApplyRules(s, side, e);
    } else {
      UntouchedAdds(FlagOf(s, t), 0, 0);
    }
  }

  /** A captured flag is back when its 23 seconds are over, a dropped one that nobody uses when its
      ten are, and not before. */
  lemma {:induction false} FlagFate(s: Battle, side: Guid -> nat, es: seq<Event>, t: nat, f: TeamFlag)
    requires Ok(s, side) && Run(s, side, es).running && t < 2 && LeftAlone(es, t)
    requires f == FlagOf(s, t) && f.keeper == 0 && f.wait >= 0 && f.ground >= 0
    ensures FlagOf(Run(s, side, es), t) == Untouched(f, Elapsed(es))
    decreases |es|
  {
    UntouchedAdds(f, 0, 0);
    if es == [] {
    } else {
      StillOn(s, side, es);
      StepUntouched(s, side, es[0], t);
      UntouchedAdds(f, Time(es[0]), Elapsed(es[1..]));
      FlagFate(Apply(s, side, es[0]), side, es[1..], t, Untouched(f, Time(es[0])));
    }
  }

  /** How a match begins. */
  lemma StartRules(client: map<nat, int>, t: nat)
    requires t < 2
    ensures
      var s := Start(client);
      Shaped(s) && FlagOf(s, t) == TeamFlag(ON_BASE, 0, 0, 0) && s.scores[t] == 0 && s.endTimer == 1500000
        && s.running && Decided(s)
  {
  }
}
