/** The rules of Eye of the Storm, written down apart from the steps that keep them: what pays, what
    becomes of the flag, how the bars follow the players at the bases, who wins, and what follows
    for whole battles. */
module BattleGroundEYRules {
  import opened BattleGroundEY
  import opened BattleGroundEYInvariants
  import Ev = BattleGroundEvents

  // ----- the bars -----

  /** A bar moves by the lead of the Alliance among the players counted at its base, by at most five
      up, and stays between 0 and 100. */
  function Pushed(bar: int, alliance: nat, horde: nat): int {
    var lead := if alliance > horde + 5 then 5 else alliance - horde;
    if bar + lead < 0 then 0 else if bar + lead > 100 then 100 else bar + lead
  }

  /** With nobody listed at a base its bar stands still. */
  ghost predicate BarRule(s: Battle, r: Battle, i: nat)
    requires Shaped(s) && Shaped(r) && i < NODES
  {
    r.bar[i] == if r.near[i] == [] then s.bar[i] else Pushed(s.bar[i], r.counts[2 * i], r.counts[2 * i + 1])
  }

  /** What a player's notice may change. */
  ghost predicate OwnersOnly(s: Battle, r: Battle) {
    && r == s.(owner := r.owner, state := r.state, points := r.points, active := r.active, client := r.client)
    && (!s.running ==> r.owner == s.owner)
  }

  lemma NoticedBars(s: Battle, crowd: Crowd, i: nat, wanted: nat, g: Guid)
    requires Consistent(s) && i < NODES && ValidCrowd(crowd)
    ensures OwnersOnly(s, Noticed(s, crowd, i, wanted, g))
  {
  }

  lemma {:induction false} GreetFromBars(s: Battle, crowd: Crowd, i: nat, wanted: nat, k: nat)
    requires Consistent(s) && i < NODES && k <= |s.near[i]| && ValidCrowd(crowd)
    ensures OwnersOnly(s, GreetFrom(s, crowd, i, wanted, k))
    decreases |s.near[i]| - k
  {
    if k == |s.near[i]| {
    } else {
      var s1 := Noticed(s, crowd, i, wanted, s.near[i][k]);
      NoticedBars(s, crowd, i, wanted, s.near[i][k]);
      GreetFromBars(s1, crowd, i, wanted, k + 1);
    }
  }

  lemma UpdatePointBars(s: Battle, crowd: Crowd, i: nat, alliance: nat, horde: nat)
    requires Consistent(s) && i < NODES && ValidCrowd(crowd) && alliance == s.counts[2 * i]
             && horde == s.counts[2 * i + 1]
    ensures
      var r := UpdatePoint(s, crowd, i);
      && r == s.(bar := r.bar, owner := r.owner, state := r.state, points := r.points, active := r.active, client := r.client)
      && r.bar == s.bar[i := if s.near[i] == [] then s.bar[i] else Pushed(s.bar[i], alliance, horde)]
      && (!s.running ==> r.owner == s.owner)
  {
    if s.near[i] != [] {
      var bar := Clamp(s.bar[i] + Push(alliance, horde));
      GreetFromBars(s.(bar := s.bar[i := bar]), crowd, i, Classify(bar), 0);
    }
  }

  lemma BarsAdd(s: Battle, r1: Battle, r: Battle, i: nat, alliance: nat, horde: nat)
    requires Shaped(s) && Shaped(r1) && Shaped(r) && i < NODES
    requires alliance == s.counts[2 * i] && horde == s.counts[2 * i + 1]
    requires r1.near == s.near == r.near && r1.counts == s.counts == r.counts
    requires r1.bar == s.bar[i := if s.near[i] == [] then s.bar[i] else Pushed(s.bar[i], alliance, horde)]
    requires forall k :: 0 <= k < i + 1 ==> r.bar[k] == r1.bar[k]
    requires forall k :: i + 1 <= k < NODES ==> BarRule(r1, r, k)
    ensures forall k :: 0 <= k < i ==> r.bar[k] == s.bar[k]
    ensures forall k :: i <= k < NODES ==> BarRule(s, r, k)
  {
    forall k | i <= k < NODES ensures BarRule(s, r, k) {
      if k == i {
        assert r.bar[i] == r1.bar[i];
      } else {
        assert BarRule(r1, r, k);
      }
    }
  }

  lemma {:induction false} UpdatePointsBars(s: Battle, crowd: Crowd, i: nat)
    requires Consistent(s) && i <= NODES && ValidCrowd(crowd)
    ensures
      var r := UpdatePoints(s, crowd, i);
      && r == s.(bar := r.bar, owner := r.owner, state := r.state, points := r.points, active := r.active, client := r.client)
      && (forall k :: 0 <= k < i ==> r.bar[k] == s.bar[k])
      && (forall k :: i <= k < NODES ==> BarRule(s, r, k))
    decreases NODES - i
  {
    if i == NODES {
    } else {
      var r1 := UpdatePoint(s, crowd, i);
      UpdatePointBars(s, crowd, i, s.counts[2 * i], s.counts[2 * i + 1]);
      UpdatePointsBars(r1, crowd, i + 1);
      BarsAdd(s, r1, UpdatePoints(s, crowd, i), i, s.counts[2 * i], s.counts[2 * i + 1]);
    }
  }

  /** After the end bases do not change hands any more. */
  lemma {:induction false} UpdatePointsOver(s: Battle, crowd: Crowd, i: nat)
    requires Consistent(s) && i <= NODES && ValidCrowd(crowd) && !s.running
    ensures UpdatePoints(s, crowd, i).owner == s.owner
    decreases NODES - i
  {
    if i == NODES {
    } else {
      UpdatePointBars(s, crowd, i, s.counts[2 * i], s.counts[2 * i + 1]);
      UpdatePointsOver(UpdatePoint(s, crowd, i), crowd, i + 1);
    }
  }

  /** A check of the bases moves every bar by the players it has counted there. */
  lemma CheckTowersBars(s: Battle, crowd: Crowd, i: nat)
    requires Consistent(s) && ValidCrowd(crowd) && i < NODES
    ensures BarRule(s, CheckTowers(s, crowd), i)
  {
    CheckTowersEffect(s, crowd);
  }

  lemma CheckTowersEffect(s: Battle, crowd: Crowd)
    requires Consistent(s) && ValidCrowd(crowd)
    ensures
      var r := CheckTowers(s, crowd);
      && r == s.(near := r.near, counts := r.counts, bar := r.bar,
                 owner := r.owner, state := r.state, points := r.points, active := r.active, client := r.client)
      && (forall i :: 0 <= i < NODES ==> BarRule(s, r, i))
      && (!s.running ==> r.owner == s.owner)
  {
    var s1 := s.(near := Joined(s.near, crowd, 0));
    var s2 := LeavePoints(s1, crowd, 0);
    LeavePointsFrame(s1, crowd, 0);
    UpdatePointsBars(s2, crowd, 0);
    if !s.running {
      UpdatePointsOver(s2, crowd, 0);
    }
    forall i | 0 <= i < NODES ensures BarRule(s, UpdatePoints(s2, crowd, 0), i) {
      assert BarRule(s2, UpdatePoints(s2, crowd, 0), i);
    }
  }

  /** What a check makes of the lists depends on the lists and on who is found. */
  lemma {:induction false} LeavePointsSame(s: Battle, s': Battle, crowd: Crowd, i: nat)
    requires Shaped(s) && Shaped(s') && s'.near == s.near && s'.counts == s.counts && i <= NODES
    ensures LeavePoints(s', crowd, i).near == LeavePoints(s, crowd, i).near
    ensures LeavePoints(s', crowd, i).counts == LeavePoints(s, crowd, i).counts
    decreases NODES - i
  {
    if i == NODES {
    } else {
      LeavePointsSame(LeavePoint(s, crowd, i), LeavePoint(s', crowd, i), crowd, i + 1);
    }
  }

  lemma CheckTowersSame(s: Battle, s': Battle, crowd: Crowd)
    requires Consistent(s) && Consistent(s') && s'.near == s.near && s'.counts == s.counts && ValidCrowd(crowd)
    ensures CheckTowers(s', crowd).near == CheckTowers(s, crowd).near
    ensures CheckTowers(s', crowd).counts == CheckTowers(s, crowd).counts
  {
    var s1, s1' := s.(near := Joined(s.near, crowd, 0)), s'.(near := Joined(s'.near, crowd, 0));
    LeavePointsSame(s1, s1', crowd, 0);
    UpdatePointsBars(LeavePoints(s1, crowd, 0), crowd, 0);
    UpdatePointsBars(LeavePoints(s1', crowd, 0), crowd, 0);
  }

  // ----- the lists -----

  /** The server finds every listed player. */
  ghost predicate AllFound(near: seq<seq<Guid>>, crowd: Crowd) {
    forall k, g :: 0 <= k < |near| && g in near[k] ==> g in crowd
  }

  /** The first base, from one on, that a player is at; none of them is the place outside. */
  function First(crowd: Crowd, g: Guid, i: nat): nat
    requires i <= NODES
    decreases NODES - i
  {
    if i == NODES || Joins(crowd, g, i) then i else First(crowd, g, i + 1)
  }

  /** Who was listed at a base, from one on, without being there. */
  predicate Strays(near: seq<seq<Guid>>, crowd: Crowd, g: Guid, i: nat)
    requires |near| == NODES + 1 && i <= NODES
    decreases NODES - i
  {
    i < NODES && ((g in near[i] && !Joins(crowd, g, i)) || Strays(near, crowd, g, i + 1))
  }

  lemma {:induction false} AtMembers(list: seq<Guid>, crowd: Crowd, i: nat, g: Guid)
    ensures g in At(list, crowd, i) <==> g in list && Joins(crowd, g, i)
    ensures g in NotAt(list, crowd, i) <==> g in list && !Joins(crowd, g, i)
  {
    if list == [] {
    } else {
      AtMembers(list[1..], crowd, i, g);
    }
  }

  lemma {:induction false} JoinedMembers(near: seq<seq<Guid>>, crowd: Crowd, i: nat, g: Guid, k: nat)
    requires |near| == NODES + 1 && i <= NODES && k < NODES
    ensures
      var r := Joined(near, crowd, i);
      && (g in r[k] <==> g in near[k] || (g in near[OUT_OF_POINTS] && First(crowd, g, i) == k))
      && (g in r[OUT_OF_POINTS] <==> g in near[OUT_OF_POINTS] && First(crowd, g, i) == NODES)
    decreases NODES - i
  {
    if i == NODES {
    } else {
      AtMembers(near[OUT_OF_POINTS], crowd, i, g);
      JoinedMembers(JoinPoint(near, crowd, i), crowd, i + 1, g, k);
      FirstFrom(crowd, g, i + 1);
    }
  }

  lemma {:induction false} FirstFrom(crowd: Crowd, g: Guid, i: nat)
    requires i <= NODES
    ensures i <= First(crowd, g, i) <= NODES
    decreases NODES - i
  {
    if i < NODES && !Joins(crowd, g, i) {
      FirstFrom(crowd, g, i + 1);
    }
  }

  /** The walk that moves players out, when it finds all of them: those at the base stay. */
  lemma {:induction false} LeaveFromMembers(p: Pass, crowd: Crowd, i: nat, j: nat, g: Guid)
    requires j <= |p.list| && (forall k :: j <= k < |p.list| ==> p.list[k] in crowd)
    ensures
      var p' := LeaveFrom(p, crowd, i, j);
      && (g in p'.list <==> g in p.list[..j] || (g in p.list[j..] && Joins(crowd, g, i)))
      && (g in p'.out <==> g in p.out || (g in p.list[j..] && !Joins(crowd, g, i)))
    decreases |p.list| - j
  {
    if j == |p.list| {
      assert p.list[..j] == p.list;
    } else {
      assert p.list[j..] == [p.list[j]] + p.list[j + 1..];
      if i !in crowd[p.list[j]].at {
        var p1 := MoveOut(p, j);
        assert p1.list[..j] == p.list[..j] && p1.list[j..] == p.list[j + 1..];
        assert forall k :: j <= k < |p1.list| ==> p1.list[k] == p.list[k + 1];
        LeaveFromMembers(p1, crowd, i, j, g);
      } else {
        assert p.list[..j + 1] == p.list[..j] + [p.list[j]];
        LeaveFromMembers(Count(p, crowd[p.list[j]].team), crowd, i, j + 1, g);
      }
    }
  }

  /** The counts of a check are those of the players it leaves at the base. */
  ghost predicate Counted(s: Battle, crowd: Crowd, i: nat)
    requires Shaped(s) && i < NODES
  {
    s.counts[2 * i] == Present(s.near[i], crowd, ALLIANCE) && s.counts[2 * i + 1] == Present(s.near[i], crowd, HORDE)
  }

  ghost predicate FoundAt(near: seq<seq<Guid>>, crowd: Crowd, i: nat)
    requires i < |near|
  {
    forall g :: g in near[i] ==> g in crowd
  }

  lemma LeavePointMembers(s: Battle, crowd: Crowd, i: nat, g: Guid)
    requires Shaped(s) && i < NODES && ValidCrowd(crowd) && FoundAt(s.near, crowd, i)
    ensures
      var r := LeavePoint(s, crowd, i);
      && (g in r.near[i] <==> g in s.near[i] && Joins(crowd, g, i))
      && (g in r.near[OUT_OF_POINTS] <==> g in s.near[OUT_OF_POINTS] || (g in s.near[i] && !Joins(crowd, g, i)))
      && Counted(r, crowd, i)
  {
    var list := s.near[i];
    LeaveFromMembers(Pass(list, s.near[OUT_OF_POINTS], 0, 0), crowd, i, 0, g);
    assert list[..0] == [] && list[0..] == list;
    SettlesIff(list, s.near[OUT_OF_POINTS], crowd, i);
  }

  /** One base's pass leaves the other bases alone. */
  ghost predicate ElseAlone(s: Battle, r: Battle, i: nat)
    requires Shaped(s) && Shaped(r) && i < NODES
  {
    forall k :: 0 <= k < NODES && k != i ==>
      r.near[k] == s.near[k] && r.counts[2 * k] == s.counts[2 * k] && r.counts[2 * k + 1] == s.counts[2 * k + 1]
  }

  lemma {:induction false} LeavePointsRest(s: Battle, crowd: Crowd, i: nat, k: nat)
    requires Shaped(s) && i <= NODES && k < i
    ensures
      var r := LeavePoints(s, crowd, i);
      r.near[k] == s.near[k] && r.counts[2 * k] == s.counts[2 * k] && r.counts[2 * k + 1] == s.counts[2 * k + 1]
    decreases NODES - i
  {
    if i == NODES {
    } else {
      assert ElseAlone(s, LeavePoint(s, crowd, i), i);
      LeavePointsRest(LeavePoint(s, crowd, i), crowd, i + 1, k);
    }
  }

  lemma {:induction false} LeavePointsAt(s: Battle, crowd: Crowd, i: nat, g: Guid, k: nat)
    requires Shaped(s) && i <= k < NODES && ValidCrowd(crowd) && FoundAt(s.near, crowd, k)
    ensures
      var r := LeavePoints(s, crowd, i);
      (g in r.near[k] <==> g in s.near[k] && Joins(crowd, g, k)) && Counted(r, crowd, k)
    decreases NODES - i
  {
    var s1 := LeavePoint(s, crowd, i);
    assert ElseAlone(s, s1, i);
    if i == k {
      LeavePointMembers(s, crowd, i, g);
      LeavePointsRest(s1, crowd, i + 1, k);
    } else {
      LeavePointsAt(s1, crowd, i + 1, g, k);
    }
  }

  lemma {:induction false} LeavePointsOut(s: Battle, crowd: Crowd, i: nat, g: Guid)
    requires Shaped(s) && i <= NODES && ValidCrowd(crowd) && (forall k :: 0 <= k < NODES ==> FoundAt(s.near, crowd, k))
    ensures
      var r := LeavePoints(s, crowd, i);
      g in r.near[OUT_OF_POINTS] <==> g in s.near[OUT_OF_POINTS] || Strays(s.near, crowd, g, i)
    decreases NODES - i
  {
    if i == NODES {
    } else {
      var s1 := LeavePoint(s, crowd, i);
      LeavePointMembers(s, crowd, i, g);
      assert ElseAlone(s, s1, i);
      forall k | 0 <= k < NODES ensures FoundAt(s1.near, crowd, k) {
        if k == i {
          forall h | h in s1.near[i] ensures h in crowd {
            LeavePointMembers(s, crowd, i, h);
          }
        } else {
          assert FoundAt(s.near, crowd, k);
        }
      }
      LeavePointsOut(s1, crowd, i + 1, g);
      StraysSame(s.near, s1.near, crowd, g, i + 1);
    }
  }

  lemma {:induction false} StraysSame(near: seq<seq<Guid>>, near': seq<seq<Guid>>, crowd: Crowd, g: Guid, i: nat)
    requires |near| == |near'| == NODES + 1 && i <= NODES && forall k :: i <= k < NODES ==> near'[k] == near[k]
    ensures Strays(near', crowd, g, i) == Strays(near, crowd, g, i)
    decreases NODES - i
  {
    if i == NODES {
    } else {
      StraysSame(near, near', crowd, g, i + 1);
    }
  }

  lemma JoinedFound(near: seq<seq<Guid>>, crowd: Crowd)
    requires |near| == NODES + 1 && AllFound(near, crowd)
    ensures forall b :: 0 <= b < NODES ==> FoundAt(Joined(near, crowd, 0), crowd, b)
  {
    forall b, h | 0 <= b < NODES && h in Joined(near, crowd, 0)[b] ensures h in crowd {
      JoinedMembers(near, crowd, 0, h, b);
    }
  }

  /** When all listed players are found, a check lists at every base exactly those of its list who
      are there and those from outside who are there first of all, and counts exactly them. */
  lemma CheckTowersLists(s: Battle, crowd: Crowd, g: Guid, k: nat)
    requires Consistent(s) && ValidCrowd(crowd) && AllFound(s.near, crowd) && k < NODES
    ensures
      var r := CheckTowers(s, crowd);
      && (g in r.near[k] <==> Joins(crowd, g, k) && (g in s.near[k] || (g in s.near[OUT_OF_POINTS] && First(crowd, g, 0) == k)))
      && (g in r.near[OUT_OF_POINTS] <==>
            (g in s.near[OUT_OF_POINTS] && First(crowd, g, 0) == NODES) || Strays(s.near, crowd, g, 0))
      && Counted(r, crowd, k)
  {
    var s1 := s.(near := Joined(s.near, crowd, 0));
    JoinedMembers(s.near, crowd, 0, g, k);
    FirstAt(crowd, g, 0);
    JoinedFound(s.near, crowd);
    LeavePointsAt(s1, crowd, 0, g, k);
    LeavePointsOut(s1, crowd, 0, g);
    StraysJoined(s.near, crowd, g, 0);
    UpdatePointsBars(LeavePoints(s1, crowd, 0), crowd, 0);
  }

  lemma {:induction false} FirstAt(crowd: Crowd, g: Guid, i: nat)
    requires i <= NODES
    ensures First(crowd, g, i) < NODES ==> Joins(crowd, g, First(crowd, g, i))
    decreases NODES - i
  {
    if i < NODES && !Joins(crowd, g, i) {
      FirstAt(crowd, g, i + 1);
    }
  }

  /** Joining makes nobody a stray. */
  lemma {:induction false} StraysJoined(near: seq<seq<Guid>>, crowd: Crowd, g: Guid, i: nat)
    requires |near| == NODES + 1 && i <= NODES
    ensures Strays(Joined(near, crowd, 0), crowd, g, i) == Strays(near, crowd, g, i)
    decreases NODES - i
  {
    if i == NODES {
    } else {
      JoinedMembers(near, crowd, 0, g, i);
      FirstAt(crowd, g, 0);
      StraysJoined(near, crowd, g, i + 1);
    }
  }

  // ----- what pays -----

  /** Every two seconds the bases of a team pay. */
  function TickPay(bases: nat): nat {
    if bases == 0 then 0 else if bases == 1 then 1 else if bases == 2 then 2 else if bases == 3 then 5 else 10
  }

  /** A flag brought home pays by the bases held. */
  function FlagPay(bases: nat): nat {
    if bases == 1 then 75 else if bases == 2 then 85 else if bases == 3 then 100 else 500
  }

  /** The carrier has come to a base of its own team. */
  predicate BringsHome(s: Battle, g: Guid, team: nat, i: nat)
    requires Shaped(s) && i < NODES
  {
    s.running && s.owner[i] == team && s.flagState != FLAG_ON_BASE && s.keeper == g
  }

  ghost function Income(s: Battle, e: Event, team: nat): nat
    requires Consistent(s)
  {
    match e
    case Ticked(diff, _) => if s.pointTimer <= diff then TickPay(Owned(s.owner, team)) else 0
    case Arrived(g, t, i) => if i < NODES && BringsHome(s, g, t, i) && t == team then FlagPay(Owned(s.owner, team)) else 0
    case _ => 0
  }

  /** A team is paid; every honor tick that fills up is taken off. */
  predicate Paid(s: Battle, r: Battle, team: nat, pay: nat)
    requires Shaped(s) && Shaped(r)
  {
    var t := Index(team);
    && r.scores[t] == s.scores[t] + pay
    && r.honor[t] == s.honor[t] + pay - (if pay > 0 && s.honor[t] + pay >= s.honorTics then s.honorTics else 0)
  }

  function Announcements(s: Battle, r: Battle): seq<nat>
    requires |s.ends| <= |r.ends|
  {
    r.ends[|s.ends|..]
  }

  /** Whoever has sixteen hundred points is announced, and nobody else. */
  ghost predicate Announced(s: Battle, r: Battle)
    requires Shaped(s) && Shaped(r)
  {
    && s.ends <= r.ends
    && (forall w :: w in Announcements(s, r) <==> Team(w) && s.scores[Index(w)] < 1600 <= r.scores[Index(w)])
    && (r.running <==> s.running && r.ends == s.ends)
  }

  lemma AddPointsEffect(s: Battle, team: nat, points: nat, score: nat)
    requires Consistent(s) && Team(team) && points > 0 && score == s.scores[Index(team)] + points
    ensures
      var r := AddPoints(s, team, points);
      && Paid(s, r, team, points)
      && r.scores[1 - Index(team)] == s.scores[1 - Index(team)] && r.honor[1 - Index(team)] == s.honor[1 - Index(team)]
      && r.ends == s.ends + (if score >= 1600 then [team] else []) && (r.running <==> s.running && score < 1600)
      && r == s.(scores := r.scores, honor := r.honor, ends := r.ends, running := r.running, client := r.client)
  {
  }

  lemma AddTickEffect(s: Battle, team: nat, pay: nat)
    requires Consistent(s) && Team(team) && s.scores[Index(team)] < 1600 && pay == TickPay(Owned(s.owner, team))
    ensures
      var r := AddTick(s, team);
      && Paid(s, r, team, pay)
      && r.scores[1 - Index(team)] == s.scores[1 - Index(team)] && r.honor[1 - Index(team)] == s.honor[1 - Index(team)]
      && r.ends == s.ends + (if r.scores[Index(team)] >= 1600 then [team] else [])
      && (r.running <==> s.running && r.scores[Index(team)] < 1600)
      && r == s.(scores := r.scores, honor := r.honor, ends := r.ends, running := r.running, client := r.client)
  {
    if pay > 0 {
      AddPointsEffect(s, team, pay, s.scores[Index(team)] + pay);
    }
  }

  /** The first part of a tick: the clock of the bases. */
  ghost predicate PayDay(s: Battle, r: Battle, diff: nat)
    requires Consistent(s) && Consistent(r)
  {
    && r.pointTimer == (if s.pointTimer <= diff then 2000 else s.pointTimer - diff)
    && Paid(s, r, ALLIANCE, if s.pointTimer <= diff then TickPay(Owned(s.owner, ALLIANCE)) else 0)
    && Paid(s, r, HORDE, if s.pointTimer <= diff then TickPay(Owned(s.owner, HORDE)) else 0)
    && Announced(s, r)
    && r == s.(pointTimer := r.pointTimer, scores := r.scores, honor := r.honor, ends := r.ends, running := r.running, client := r.client)
  }

  /** Both teams are paid, the Alliance first. */
  lemma BothPaid(s: Battle, r1: Battle, r: Battle, diff: nat)
    requires Consistent(s) && Consistent(r1) && Consistent(r) && s.scores[0] < 1600 && s.scores[1] < 1600
             && s.pointTimer <= diff
    requires Paid(s, r1, ALLIANCE, TickPay(Owned(s.owner, ALLIANCE)))
             && Paid(r1, r, HORDE, TickPay(Owned(s.owner, HORDE)))
    requires r1.scores[1] == s.scores[1] && r1.honor[1] == s.honor[1] && r.scores[0] == r1.scores[0]
             && r.honor[0] == r1.honor[0]
    requires r1.ends == s.ends + (if r1.scores[0] >= 1600 then [ALLIANCE] else [])
    requires r.ends == r1.ends + (if r.scores[1] >= 1600 then [HORDE] else [])
    requires (r1.running <==> s.running && r1.scores[0] < 1600) && (r.running <==> r1.running && r.scores[1] < 1600)
    requires r1.honorTics == s.honorTics && r.pointTimer == 2000
    requires r == s.(pointTimer := r.pointTimer, scores := r.scores, honor := r.honor, ends := r.ends, running := r.running, client := r.client)
    ensures PayDay(s, r, diff)
  {
    assert Announcements(s, r) == (if r.scores[0] >= 1600 then [ALLIANCE] else []) + (if r.scores[1] >= 1600 then [HORDE] else []);
  }

  lemma UpdateTicksEffect(s: Battle, diff: nat)
    requires Ok(s) && s.running
    ensures PayDay(s, UpdateTicks(s, diff), diff)
  {
    if s.pointTimer <= diff {
      var s0 := s.(pointTimer := TICK_TIME);
      var r1 := AddTick(s0, ALLIANCE);
      AddTickEffect(s0, ALLIANCE, TickPay(Owned(s.owner, ALLIANCE)));
      AddTickEffect(r1, HORDE, TickPay(Owned(s.owner, HORDE)));
      BothPaid(s, r1, AddTick(r1, HORDE), diff);
    }
  }

  // ----- the flag -----

  /** Where the flag is: its state, its carrier and the time it has been away. */
  datatype Flag = Flag(state: nat, keeper: Guid, timer: int)

  function FlagOf(s: Battle): Flag {
    Flag(s.flagState, s.keeper, s.flagTimer)
  }

  /** A flag that nobody carries is picked up; the carrier's is dropped, or captured; a dropped or
      captured one is back in the centre when more than ten seconds have passed. */
  ghost predicate FlagRule(s: Battle, e: Event, r: Battle)
    requires Shaped(s)
  {
    var f := FlagOf(s);
    FlagOf(r) ==
    match e
    case Clicked(g) => if f.keeper == 0 then Flag(FLAG_ON_PLAYER, g, f.timer) else f
    case Killed(g) => if f.keeper != 0 && f.keeper == g then Flag(FLAG_ON_GROUND, 0, 10000) else f
    case Left(g, online) =>
      if f.keeper == 0 || f.keeper != g then f
      else if online then Flag(FLAG_ON_GROUND, 0, 10000) else Flag(FLAG_ON_BASE, 0, f.timer)
    case Arrived(g, team, i) => if i < NODES && BringsHome(s, g, team, i) then Flag(FLAG_WAIT_RESPAWN, 0, 10000) else f
    case Ticked(diff, _) => if f.keeper == 0 then Away(f, diff) else f
    case Entered(_) => f
  }

  /** A flag that nobody carries, left alone for a while. */
  function Away(f: Flag, elapsed: nat): Flag {
    if f.state != FLAG_WAIT_RESPAWN && f.state != FLAG_ON_GROUND then f
    else if f.timer < elapsed then Flag(FLAG_ON_BASE, f.keeper, 0)
    else f.(timer := f.timer - elapsed)
  }

  lemma UpdateFlagEffect(s: Battle, diff: nat)
    requires Consistent(s)
    ensures
      var r := UpdateFlag(s, diff);
      && FlagOf(r) == Away(FlagOf(s), diff)
      && r == s.(flagState := r.flagState, flagTimer := r.flagTimer, active := r.active, client := r.client)
  {
    if s.flagState == FLAG_WAIT_RESPAWN || s.flagState == FLAG_ON_GROUND {
      var timer := s.flagTimer - diff;
      if timer < 0 {
        RespawnEffect(s.(flagTimer := 0));
      }
    }
  }

  lemma RespawnEffect(s: Battle)
    requires Shaped(s)
    ensures
      var r := RespawnFlag(s);
      FlagOf(r) == FlagOf(s).(state := FLAG_ON_BASE)
        && r == s.(flagState := r.flagState, active := r.active, client := r.client)
  {
  }

  // ----- the rules -----

  predicate CheckDue(s: Battle, e: Event) {
    e.Ticked? && s.checkTimer <= e.diff
  }

  /** The lists change when players come and go, and at a check. */
  ghost predicate ListRule(s: Battle, e: Event, r: Battle)
    requires Consistent(s)
  {
    match e
    case Ticked(diff, crowd) =>
      if CheckDue(s, e) && ValidCrowd(crowd) then r.near == CheckTowers(s, crowd).near && r.counts == CheckTowers(s, crowd).counts
      else r.near == s.near && r.counts == s.counts
    case Entered(g) => r.near == s.near[OUT_OF_POINTS := s.near[OUT_OF_POINTS] + [g]] && r.counts == s.counts
    case Left(g, _) => r.near == EraseAll(s.near, g) && r.counts == s.counts
    case _ => r.near == s.near && r.counts == s.counts
  }

  /** A base is the Alliance's at 70 and above and the Horde's at 30 and below. */
  predicate OwnerRule(r: Battle, i: nat)
    requires Shaped(r) && i < NODES
  {
    r.owner[i] == if r.bar[i] >= 70 then ALLIANCE else if r.bar[i] <= 30 then HORDE else NO_OWNER
  }

  /** The clocks of the bases' pay and of the next check. */
  predicate ClockRule(s: Battle, e: Event, r: Battle) {
    if e.Ticked? then
      && r.pointTimer == (if s.pointTimer <= e.diff then 2000 else s.pointTimer - e.diff)
      && r.checkTimer == (if s.checkTimer <= e.diff then 2000 else s.checkTimer - e.diff)
    else r.pointTimer == s.pointTimer && r.checkTimer == s.checkTimer
  }

  /** Bars move at a check, and owners follow them while the battle is on. */
  ghost predicate BarsRule(s: Battle, e: Event, r: Battle)
    requires Shaped(s) && Shaped(r)
  {
    && (forall i :: 0 <= i < NODES ==> if CheckDue(s, e) then BarRule(s, r, i) else r.bar[i] == s.bar[i])
    && (if r.running then forall i :: 0 <= i < NODES ==> OwnerRule(r, i) else r.owner == s.owner)
  }

  ghost predicate PayRule(s: Battle, e: Event, r: Battle)
    requires Consistent(s) && Shaped(r)
  {
    Paid(s, r, ALLIANCE, Income(s, e, ALLIANCE)) && Paid(s, r, HORDE, Income(s, e, HORDE)) && Announced(s, r)
  }

  /** One event of a battle that is on. */
  ghost predicate Rules(s: Battle, e: Event, r: Battle)
    requires Consistent(s) && Consistent(r)
  {
    PayRule(s, e, r) && FlagRule(s, e, r) && BarsRule(s, e, r) && ClockRule(s, e, r) && ListRule(s, e, r)
  }

  /** The parts of a tick before the check of the bases. */
  ghost predicate Clocks(s: Battle, r: Battle, diff: nat)
    requires Consistent(s) && Consistent(r)
  {
    && Paid(s, r, ALLIANCE, if s.pointTimer <= diff then TickPay(Owned(s.owner, ALLIANCE)) else 0)
    && Paid(s, r, HORDE, if s.pointTimer <= diff then TickPay(Owned(s.owner, HORDE)) else 0)
    && Announced(s, r) && FlagOf(r) == Away(FlagOf(s), diff)
    && r.pointTimer == (if s.pointTimer <= diff then 2000 else s.pointTimer - diff) && r.checkTimer == s.checkTimer - diff
    && r.near == s.near && r.counts == s.counts && r.bar == s.bar && r.owner == s.owner
  }

  lemma ClocksAdd(s: Battle, s1: Battle, s2: Battle, r: Battle, diff: nat)
    requires Consistent(s) && Consistent(s1) && Consistent(s2) && Consistent(r) && PayDay(s, s1, diff)
    requires FlagOf(s2) == Away(FlagOf(s1), diff)
    requires s2 == s1.(flagState := s2.flagState, flagTimer := s2.flagTimer, active := s2.active, client := s2.client)
    requires r == s2.(checkTimer := s2.checkTimer - diff)
    ensures Clocks(s, r, diff)
  {
  }

  lemma ClocksEffect(s: Battle, diff: nat)
    requires Ok(s) && s.running
    ensures var r := CountDown(UpdateFlag(UpdateTicks(s, diff), diff), diff); Ok(r) && Clocks(s, r, diff)
  {
    var s1 := UpdateTicks(s, diff);
    var s2 := UpdateFlag(s1, diff);
    UpdateTicksEffect(s, diff);
    UpdateFlagEffect(s1, diff);
    ClocksAdd(s, s1, s2, CountDown(s2, diff), diff);
    UpdateTicksOk(s, diff);
    UpdateFlagOk(s1, diff);
    TimersFree(s2, CountDown(s2, diff));
  }

  /** A tick whose check is due: the check and the clocks mind their own business. */
  lemma DueRules(s: Battle, s3: Battle, r: Battle, diff: nat, e: Event)
    requires Consistent(s) && Consistent(s3) && Consistent(r) && s.running && Clocks(s, s3, diff) && s3.checkTimer <= 0
    requires s.keeper != 0 <==> s.flagState == FLAG_ON_PLAYER
    requires e.Ticked? && e.diff == diff && BarsOk(r)
    requires r == s3.(near := r.near, counts := r.counts, bar := r.bar, checkTimer := 2000,
                      owner := r.owner, state := r.state, points := r.points, active := r.active, client := r.client)
    requires forall i :: 0 <= i < NODES ==> BarRule(s3, r, i)
    requires !s3.running ==> r.owner == s3.owner
    ensures PayRule(s, e, r) && FlagRule(s, e, r) && BarsRule(s, e, r) && ClockRule(s, e, r)
  {
    forall i | 0 <= i < NODES ensures BarRule(s, r, i) {
      assert BarRule(s3, r, i);
    }
  }

  lemma CheckedRules(s: Battle, s3: Battle, diff: nat, crowd: Crowd, e: Event)
    requires Ok(s) && s.running && Ok(s3) && Clocks(s, s3, diff) && ValidCrowd(crowd) && s3.checkTimer <= 0
    requires e == Ticked(diff, crowd)
    ensures Rules(s, e, CheckIfDue(s3, crowd))
  {
    var c := CheckTowers(s3, crowd);
    CheckTowersEffect(s3, crowd);
    CheckTowersSame(s, s3, crowd);
    CheckIfDueOk(s3, crowd);
    var r := CheckIfDue(s3, crowd);
    forall i | 0 <= i < NODES ensures BarRule(s3, r, i) {
      assert BarRule(s3, c, i);
    }
    DueRules(s, s3, r, diff, e);
  }

  lemma TickedRules(s: Battle, diff: nat, crowd: Crowd, e: Event)
    requires Ok(s) && s.running && ValidCrowd(crowd) && e == Ticked(diff, crowd)
    ensures Rules(s, e, Update(s, diff, crowd))
  {
    var s3 := CountDown(UpdateFlag(UpdateTicks(s, diff), diff), diff);
    ClocksEffect(s, diff);
    if s3.checkTimer <= 0 {
      CheckedRules(s, s3, diff, crowd, e);
    }
  }

  /** A flag is brought home. */
  lemma HomeRules(s: Battle, r: Battle, g: Guid, team: nat, i: nat, e: Event, pay: nat, score: nat)
    requires Consistent(s) && Consistent(r) && FlagOk(s) && s.running && Team(team) && i < NODES
             && e == Arrived(g, team, i)
    requires BringsHome(s, g, team, i) && pay == FlagPay(Owned(s.owner, team)) && score == s.scores[Index(team)] + pay
    requires Paid(s, r, team, pay)
    requires r.scores[1 - Index(team)] == s.scores[1 - Index(team)]
             && r.honor[1 - Index(team)] == s.honor[1 - Index(team)]
    requires r.ends == s.ends + (if score >= 1600 then [team] else []) && (r.running <==> score < 1600)
    requires FlagOf(r) == Flag(FLAG_WAIT_RESPAWN, 0, 10000) && BarsOk(r)
    requires r == s.(scores := r.scores, honor := r.honor, ends := r.ends, running := r.running, client := r.client,
                     flagState := r.flagState, keeper := r.keeper, flagTimer := r.flagTimer, active := r.active)
    ensures Rules(s, e, r)
  {
    assert Announcements(s, r) == if score >= 1600 then [team] else [];
  }

  /** The captured flag is put up at the base. */
  lemma PlacedEffect(s: Battle, i: nat)
    requires Shaped(s) && i < NODES
    ensures
      var r := SpawnEvent(s.(keeper := 0, flagState := FLAG_WAIT_RESPAWN, flagTimer := FLAG_RESPAWN_TIME), FLAG_EVENT, i, true);
      && FlagOf(r) == Flag(FLAG_WAIT_RESPAWN, 0, 10000) && r.active[FLAG_EVENT] == i
      && r == s.(flagState := r.flagState, keeper := r.keeper, flagTimer := r.flagTimer, active := r.active)
      && (Consistent(s) ==> Consistent(r))
  {
  }

  lemma FlagPaid(s: Battle, s1: Battle, r: Battle, team: nat, pay: nat, score: nat)
    requires Consistent(s) && Consistent(s1) && Shaped(r) && s.running && Team(team) && pay > 0
             && score == s.scores[Index(team)] + pay
    requires s1 == s.(flagState := s1.flagState, keeper := s1.keeper, flagTimer := s1.flagTimer, active := s1.active)
    requires r == AddPoints(s1, team, pay)
    ensures
      && Paid(s, r, team, pay)
      && r.scores[1 - Index(team)] == s.scores[1 - Index(team)] && r.honor[1 - Index(team)] == s.honor[1 - Index(team)]
      && r.ends == s.ends + (if score >= 1600 then [team] else []) && (r.running <==> score < 1600)
      && r == s1.(scores := r.scores, honor := r.honor, ends := r.ends, running := r.running, client := r.client)
  {
    AddPointsEffect(s1, team, pay, score);
  }

  lemma CapturedFlagEffect(s: Battle, team: nat, i: nat, pay: nat)
    requires Ok(s) && s.running && Team(team) && i < NODES && s.owner[i] == team && pay == FlagPay(Owned(s.owner, team))
    ensures
      var r := CapturedFlag(s, team, i);
      && Paid(s, r, team, pay)
      && r.scores[1 - Index(team)] == s.scores[1 - Index(team)] && r.honor[1 - Index(team)] == s.honor[1 - Index(team)]
      && r.ends == s.ends + (if s.scores[Index(team)] + pay >= 1600 then [team] else [])
      && (r.running <==> s.scores[Index(team)] + pay < 1600)
      && FlagOf(r) == Flag(FLAG_WAIT_RESPAWN, 0, 10000) && r.active[FLAG_EVENT] == i
      && r == s.(scores := r.scores, honor := r.honor, ends := r.ends, running := r.running, client := r.client,
                 flagState := r.flagState, keeper := r.keeper, flagTimer := r.flagTimer, active := r.active)
  {
    CapturePays(s, team, i);
    var s1 := SpawnEvent(s.(keeper := 0, flagState := FLAG_WAIT_RESPAWN, flagTimer := FLAG_RESPAWN_TIME), FLAG_EVENT, i, true);
    PlacedEffect(s, i);
    FlagPaid(s, s1, AddPoints(s1, team, pay), team, pay, s.scores[Index(team)] + pay);
    assert CapturedFlag(s, team, i) == AddPoints(s1, team, pay);
  }

  lemma ArrivedRules(s: Battle, g: Guid, team: nat, i: nat, e: Event)
    requires Ok(s) && s.running && Team(team) && i < NODES && e == Arrived(g, team, i)
    ensures Rules(s, e, AreaTrigger(s, g, team, i))
  {
    AreaTriggerOk(s, g, team, i);
    if BringsHome(s, g, team, i) {
      var pay := FlagPay(Owned(s.owner, team));
      CapturedFlagEffect(s, team, i, pay);
      HomeRules(s, AreaTrigger(s, g, team, i), g, team, i, e, pay, s.scores[Index(team)] + pay);
    }
  }

  lemma LeftRules(s: Battle, g: Guid, online: bool, e: Event)
    requires Ok(s) && s.running && e == Left(g, online)
    ensures Rules(s, e, RemovePlayer(s, g, online))
  {
  }

  lemma ClickedRules(s: Battle, g: Guid, e: Event)
    requires Ok(s) && s.running && g != 0 && e == Clicked(g)
    ensures Rules(s, e, ClickedOnFlag(s, g))
  {
  }

  lemma KilledRules(s: Battle, g: Guid, e: Event)
    requires Ok(s) && s.running && e == Killed(g)
    ensures Rules(s, e, DroppedFlag(s, g))
  {
  }

  /** Every event of a battle that is on keeps to the rules. */
  lemma ApplyRules(s: Battle, e: Event)
    requires Ok(s) && s.running && Possible(s, e)
    ensures Rules(s, e, Apply(s, e))
  {
    match e {
      case Ticked(diff, crowd) => TickedRules(s, diff, crowd, e);
      case Clicked(g) => ClickedRules(s, g, e);
      case Killed(g) => KilledRules(s, g, e);
      case Arrived(g, team, i) => ArrivedRules(s, g, team, i, e);
      case Entered(g) =>
      case Left(g, online) => LeftRules(s, g, online, e);
    }
  }

  // ----- whole battles -----

  /** What a player does after the end changes neither scores nor bases, and a battle that is over
      never goes on. */
  lemma OverKeeps(s: Battle, e: Event)
    requires Consistent(s) && !s.running
    ensures
      var r := Apply(s, e);
      !r.running && r.ends == s.ends && r.scores == s.scores && r.owner == s.owner && r.bar == s.bar
  {
  }

  lemma {:induction false} OverStays(s: Battle, es: seq<Event>)
    requires Consistent(s) && !s.running
    ensures !Run(s, es).running
    decreases |es|
  {
    if es == [] {
    } else {
      OverKeeps(s, es[0]);
      OverStays(Apply(s, es[0]), es[1..]);
    }
  }

  lemma StillOn(s: Battle, es: seq<Event>)
    requires Consistent(s) && es != [] && Run(s, es).running
    ensures s.running && Apply(s, es[0]).running
  {
    if !s.running {
      OverStays(s, es);
    } else if !Apply(s, es[0]).running {
      OverStays(Apply(s, es[0]), es[1..]);
    }
  }

  /** Those and only those with sixteen hundred points have won. */
  predicate Decided(s: Battle)
    requires |s.scores| == 2
  {
    && (ALLIANCE in s.ends <==> s.scores[0] >= 1600) && (HORDE in s.ends <==> s.scores[1] >= 1600)
    && (forall w :: w in s.ends ==> Team(w))
  }

  lemma StepDecided(s: Battle, e: Event, r: Battle)
    requires Consistent(s) && FlagOk(s) && Consistent(r) && s.running && Decided(s) && PayRule(s, e, r)
    ensures Decided(r)
  {
    assert r.ends == s.ends + Announcements(s, r);
    assert ALLIANCE in Announcements(s, r) <==> r.scores[0] >= 1600;
    assert HORDE in Announcements(s, r) <==> r.scores[1] >= 1600;
  }

  lemma {:induction false} RunDecided(s: Battle, es: seq<Event>)
    requires Ok(s) && Decided(s)
    ensures Decided(Run(s, es))
    decreases |es|
  {
    if es == [] {
    } else {
      ApplyOk(s, es[0]);
      if s.running && Possible(s, es[0]) {
        ApplyRules(s, es[0]);
        StepDecided(s, es[0], Apply(s, es[0]));
      } else {
        OverDecided(s, es[0]);
      }
      RunDecided(Apply(s, es[0]), es[1..]);
    }
  }

  lemma OverDecided(s: Battle, e: Event)
    requires Consistent(s) && Decided(s) && !(s.running && Possible(s, e))
    ensures Decided(Apply(s, e))
  {
    if !s.running {
      OverKeeps(s, e);
    }
  }

  /** All that a team was paid over a run. */
  ghost function Total(s: Battle, es: seq<Event>, team: nat): nat
    requires Consistent(s)
    decreases |es|
  {
    if es == [] then 0
    else (if s.running && Possible(s, es[0]) then Income(s, es[0], team) else 0) + Total(Apply(s, es[0]), es[1..], team)
  }

  lemma StepScore(s: Battle, e: Event, team: nat)
    requires Ok(s) && Team(team)
    ensures Ok(Apply(s, e))
    ensures Apply(s, e).scores[Index(team)]
         == s.scores[Index(team)] + if s.running && Possible(s, e) then Income(s, e, team) else 0
  {
    ApplyOk(s, e);
    if s.running && Possible(s, e) {
      ApplyRules(s, e);
    } else if !s.running {
      OverKeeps(s, e);
    }
  }

  /** A team's score is what its bases and its flags have paid, not a point more or less. */
  lemma {:induction false} RunTotal(s: Battle, es: seq<Event>, team: nat)
    requires Ok(s) && Team(team)
    ensures Run(s, es).scores[Index(team)] == s.scores[Index(team)] + Total(s, es, team)
    decreases |es|
  {
    if es == [] {
    } else {
      StepScore(s, es[0], team);
      RunTotal(Apply(s, es[0]), es[1..], team);
    }
  }

  function Time(e: Event): nat {
    if e.Ticked? then e.diff else 0
  }

  function Elapsed(es: seq<Event>): nat {
    if es == [] then 0 else Time(es[0]) + Elapsed(es[1..])
  }

  /** Nobody picks the flag up; every tick's crowd has teams. */
  ghost predicate FlagLeft(es: seq<Event>) {
    es == [] || (!es[0].Clicked? && (es[0].Ticked? ==> ValidCrowd(es[0].crowd)) && FlagLeft(es[1..]))
  }

  lemma RulesFlag(s: Battle, e: Event, r: Battle)
    requires Shaped(s) && FlagRule(s, e, r) && s.keeper == 0 && !e.Clicked? && (e.Arrived? ==> e.guid != 0)
    ensures FlagOf(r) == Away(FlagOf(s), Time(e)) || (FlagOf(r) == FlagOf(s) && !e.Ticked?)
  {
  }

  lemma AwayAdds(f: Flag, a: nat, b: nat)
    requires f.timer >= 0
    ensures Away(Away(f, a), b) == Away(f, a + b) && Away(f, 0) == f
    ensures Away(f, a).timer >= 0 && Away(f, a).keeper == f.keeper
  {
  }

  lemma StepFlag(s: Battle, e: Event)
    requires Ok(s) && s.running && s.keeper == 0 && s.flagTimer >= 0 && !e.Clicked? && (e.Ticked? ==> ValidCrowd(e.crowd))
    ensures Ok(Apply(s, e)) && FlagOf(Apply(s, e)) == Away(FlagOf(s), Time(e))
  {
    AwayAdds(FlagOf(s), 0, 0);
    ApplyOk(s, e);
    if Possible(s, e) {
      ApplyRules(s, e);
      RulesFlag(s, e, Apply(s, e));
    }
  }

  /** The time passes event by event. */
  function AwayThrough(f: Flag, es: seq<Event>): Flag
    decreases |es|
  {
    if es == [] then f else AwayThrough(Away(f, Time(es[0])), es[1..])
  }

  lemma {:induction false} AwayThroughIs(f: Flag, es: seq<Event>)
    requires f.timer >= 0
    ensures AwayThrough(f, es) == Away(f, Elapsed(es))
    decreases |es|
  {
    AwayAdds(f, 0, 0);
    if es == [] {
    } else {
      AwayAdds(f, Time(es[0]), Elapsed(es[1..]));
      AwayThroughIs(Away(f, Time(es[0])), es[1..]);
    }
  }

  lemma {:induction false} FlagThrough(s: Battle, es: seq<Event>, f: Flag)
    requires Ok(s) && Run(s, es).running && FlagLeft(es) && f == FlagOf(s) && f.keeper == 0 && f.timer >= 0
    ensures FlagOf(Run(s, es)) == AwayThrough(f, es)
    decreases |es|
  {
    if es == [] {
    } else {
      StillOn(s, es);
      StepFlag(s, es[0]);
      AwayAdds(f, Time(es[0]), 0);
      FlagThrough(Apply(s, es[0]), es[1..], Away(f, Time(es[0])));
    }
  }

  /** A dropped or captured flag that nobody picks up is back in the centre when its ten seconds
      are over, and not before. */
  lemma FlagFate(s: Battle, es: seq<Event>, f: Flag)
    requires Ok(s) && Run(s, es).running && FlagLeft(es) && f == FlagOf(s) && f.keeper == 0 && f.timer >= 0
    ensures FlagOf(Run(s, es)) == Away(f, Elapsed(es))
  {
    FlagThrough(s, es, f);
    AwayThroughIs(f, es);
  }

  // ----- the law of the bars -----

  function Other(team: nat): nat {
    if team == ALLIANCE then HORDE else ALLIANCE
  }

  /** At this event, if the bases are checked, every listed player is found, and a team has so many
      more players at the base than the other. */
  ghost predicate Leads(s: Battle, e: Event, i: nat, team: nat, d: nat)
    requires Consistent(s) && i < NODES
  {
    CheckDue(s, e) ==>
      && ValidCrowd(e.crowd) && AllFound(s.near, e.crowd)
      && Present(Apply(s, e).near[i], e.crowd, team) >= Present(Apply(s, e).near[i], e.crowd, Other(team)) + d
  }

  ghost predicate LeadsAlways(s: Battle, es: seq<Event>, i: nat, team: nat, d: nat)
    requires Consistent(s) && i < NODES
    decreases |es|
  {
    es == [] || (Leads(s, es[0], i, team, d) && LeadsAlways(Apply(s, es[0]), es[1..], i, team, d))
  }

  /** How often the bases are checked. */
  ghost function Checks(s: Battle, es: seq<Event>): nat
    requires Consistent(s)
    decreases |es|
  {
    if es == [] then 0
    else (if CheckDue(s, es[0]) then 1 else 0) + Checks(Apply(s, es[0]), es[1..])
  }

  /** How far a lead moves a bar in one check: five at the most upwards, but any number down. */
  function Stride(team: nat, d: nat): nat {
    if team == ALLIANCE && d > 5 then 5 else d
  }

  /** A bar has come so far towards a team, or all the way. */
  predicate Towards(bar: int, bar': int, team: nat, way: int) {
    if team == ALLIANCE then bar' >= 100 || bar' >= bar + way else bar' <= 0 || bar' <= bar - way
  }

  lemma CheckedLead(s: Battle, r: Battle, crowd: Crowd, i: nat, team: nat, d: nat, own: nat, other: nat)
    requires Shaped(s) && Shaped(r) && i < NODES && Team(team) && BarRule(s, r, i) && Counted(r, crowd, i)
    requires own == Present(r.near[i], crowd, team) && other == Present(r.near[i], crowd, Other(team))
             && own >= other + d && d > 0
    ensures Towards(s.bar[i], r.bar[i], team, Stride(team, d))
  {
    assert r.near[i] != [];
  }

  /** A check that is due counts the found players exactly. */
  lemma DueCounts(s: Battle, e: Event, r: Battle, i: nat)
    requires Consistent(s) && Shaped(r) && CheckDue(s, e) && ValidCrowd(e.crowd) && AllFound(s.near, e.crowd)
             && i < NODES
    requires ListRule(s, e, r)
    ensures Counted(r, e.crowd, i)
  {
    CheckTowersLists(s, e.crowd, 0, i);
  }

  lemma StepLead(s: Battle, e: Event, i: nat, team: nat, d: nat)
    requires Ok(s) && s.running && i < NODES && Team(team) && d > 0 && Leads(s, e, i, team, d)
    ensures Ok(Apply(s, e))
    ensures if CheckDue(s, e) then Towards(s.bar[i], Apply(s, e).bar[i], team, Stride(team, d))
            else Apply(s, e).bar[i] == s.bar[i]
  {
    ApplyOk(s, e);
    if Possible(s, e) {
      var r := Apply(s, e);
      ApplyRules(s, e);
      if CheckDue(s, e) {
        DueCounts(s, e, r, i);
        CheckedLead(s, r, e.crowd, i, team, d, Present(r.near[i], e.crowd, team), Present(r.near[i], e.crowd, Other(team)));
      }
    }
  }

  /** One stride for every check. */
  ghost function Way(s: Battle, es: seq<Event>, stride: nat): nat
    requires Consistent(s)
    decreases |es|
  {
    if es == [] then 0 else (if CheckDue(s, es[0]) then stride else 0) + Way(Apply(s, es[0]), es[1..], stride)
  }

  lemma Multiples(n: nat, stride: nat, k: nat)
    requires k == n + 1
    ensures k * stride == n * stride + stride
  {
  }

  lemma {:induction false} WayIs(s: Battle, es: seq<Event>, stride: nat)
    requires Consistent(s)
    ensures Way(s, es, stride) == Checks(s, es) * stride
    decreases |es|
  {
    if es == [] {
    } else {
      WayIs(Apply(s, es[0]), es[1..], stride);
      Multiples(Checks(Apply(s, es[0]), es[1..]), stride, Checks(Apply(s, es[0]), es[1..]) + 1);
    }
  }

  lemma TowardsAdds(a: int, b: int, c: int, team: nat, way: int, rest: int)
    requires way >= 0 && rest >= 0 && Towards(a, b, team, way) && Towards(b, c, team, rest)
    ensures Towards(a, c, team, way + rest)
  {
  }

  /** The bar follows the players: a lead kept over some checks moves it by as many strides, until
      it is full. */
  lemma {:induction false} BarFollows(s: Battle, es: seq<Event>, i: nat, team: nat, d: nat, stride: nat)
    requires Ok(s) && Run(s, es).running && i < NODES && Team(team) && d > 0 && LeadsAlways(s, es, i, team, d)
    requires stride == Stride(team, d)
    ensures Towards(s.bar[i], Run(s, es).bar[i], team, Way(s, es, stride))
    decreases |es|
  {
    if es == [] {
    } else {
      var s1 := Apply(s, es[0]);
      StillOn(s, es);
      StepLead(s, es[0], i, team, d);
      BarFollows(s1, es[1..], i, team, d, stride);
      if CheckDue(s, es[0]) {
        TowardsAdds(s.bar[i], s1.bar[i], Run(s1, es[1..]).bar[i], team, stride, Way(s1, es[1..], stride));
      }
    }
  }

  /** Whoever keeps the lead at a base for long enough owns it. */
  lemma LeadersOwn(s: Battle, es: seq<Event>, i: nat, team: nat, d: nat, n: nat)
    requires Ok(s) && Run(s, es).running && i < NODES && Team(team) && d > 0 && LeadsAlways(s, es, i, team, d)
    requires n == Checks(s, es)
    requires if team == ALLIANCE then n * (if d > 5 then 5 else d) >= 70 - s.bar[i] else n * d >= s.bar[i] - 30
    ensures Run(s, es).owner[i] == team
  {
    RunOk(s, es);
    BarFollows(s, es, i, team, d, Stride(team, d));
    WayIs(s, es, Stride(team, d));
  }

  /** How a battle begins. */
  lemma StartRules(honorTics: nat, client: map<nat, int>, i: nat)
    requires i < NODES
    ensures
      var s := Start(honorTics, client);
      && s.bar[i] == 50 && s.owner[i] == NO_OWNER && s.near[i] == [] == s.near[OUT_OF_POINTS]
      && s.scores == [0, 0] && s.running && Decided(s) && FlagOf(s) == Flag(FLAG_ON_BASE, 0, 0)
  {
  }
}
