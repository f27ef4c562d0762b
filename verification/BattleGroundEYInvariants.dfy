/** What every run of Eye of the Storm keeps. */
module BattleGroundEYInvariants {
  import opened BattleGroundEY
  import opened WorldStates
  import Ev = BattleGroundEvents

  // ----- the rosters -----

  /** The joining pass over one base as a walk that erases: after an erased player the position
      stays. */
  function JoinFrom(near: seq<seq<Guid>>, crowd: Crowd, i: nat, j: nat): seq<seq<Guid>>
    requires |near| == NODES + 1 && i < NODES
    decreases |near[OUT_OF_POINTS]| - j
  {
    var out := near[OUT_OF_POINTS];
    if j >= |out| then near
    else if Joins(crowd, out[j], i) then
      JoinFrom(near[i := near[i] + [out[j]]][OUT_OF_POINTS := Erase(out, j)], crowd, i, j)
    else JoinFrom(near, crowd, i, j + 1)
  }

  /** Where the walk stands: the players before the position stay, those after it are sorted. */
  lemma {:induction false} JoinFromSorts(near: seq<seq<Guid>>, crowd: Crowd, i: nat, j: nat)
    requires |near| == NODES + 1 && i < NODES && j <= |near[OUT_OF_POINTS]|
    ensures
      var out := near[OUT_OF_POINTS];
      JoinFrom(near, crowd, i, j) ==
      near[i := near[i] + At(out[j..], crowd, i)][OUT_OF_POINTS := out[..j] + NotAt(out[j..], crowd, i)]
    decreases |near[OUT_OF_POINTS]| - j
  {
    var out := near[OUT_OF_POINTS];
    if j == |out| {
      assert near[i] + [] == near[i] && out[..j] + [] == out && near == near[i := near[i]][OUT_OF_POINTS := out];
    } else {
      assert out[j..] == [out[j]] + out[j + 1..];
      if Joins(crowd, out[j], i) {
        var near' := near[i := near[i] + [out[j]]][OUT_OF_POINTS := Erase(out, j)];
        JoinFromSorts(near', crowd, i, j);
        assert Erase(out, j)[j..] == out[j + 1..] && Erase(out, j)[..j] == out[..j];
        assert near'[i] + At(out[j + 1..], crowd, i) == near[i] + At(out[j..], crowd, i);
        assert NotAt(out[j..], crowd, i) == [] + NotAt(out[j + 1..], crowd, i) == NotAt(out[j + 1..], crowd, i);
        var joined, left := near[i] + At(out[j..], crowd, i), out[..j] + NotAt(out[j..], crowd, i);
        assert near'[i := joined][OUT_OF_POINTS := left] == near[i := joined][OUT_OF_POINTS := left];
      } else {
        JoinFromSorts(near, crowd, i, j + 1);
        assert At(out[j..], crowd, i) == [] + At(out[j + 1..], crowd, i) == At(out[j + 1..], crowd, i);
        assert out[..j + 1] + NotAt(out[j + 1..], crowd, i) == out[..j] + NotAt(out[j..], crowd, i);
      }
    }
  }

  /** The walk that erases and appends does what the joining pass is meant to. */
  lemma JoinFromIs(near: seq<seq<Guid>>, crowd: Crowd, i: nat)
    requires |near| == NODES + 1 && i < NODES
    ensures JoinFrom(near, crowd, i, 0) == JoinPoint(near, crowd, i)
  {
    JoinFromSorts(near, crowd, i, 0);
    var out := near[OUT_OF_POINTS];
    assert out[0..] == out && out[..0] + NotAt(out, crowd, i) == NotAt(out, crowd, i);
  }

  /** How often a player is in a list. */
  function Times(list: seq<Guid>, g: Guid): nat {
    if list == [] then 0 else (if list[0] == g then 1 else 0) + Times(list[1..], g)
  }

  /** How often a player is listed anywhere. */
  function On(near: seq<seq<Guid>>, g: Guid): nat
    requires |near| == NODES + 1
  {
    Times(near[0], g) + Times(near[1], g) + Times(near[2], g) + Times(near[3], g) + Times(near[4], g)
  }

  ghost predicate ListedOnce(near: seq<seq<Guid>>)
    requires |near| == NODES + 1
  {
    forall g :: On(near, g) <= 1
  }

  lemma {:induction false} Concat(a: seq<Guid>, b: seq<Guid>, g: Guid)
    ensures Times(a + b, g) == Times(a, g) + Times(b, g)
  {
    if a == [] {
      assert a + b == b;
    } else {
      assert (a + b)[1..] == a[1..] + b;
      Concat(a[1..], b, g);
    }
  }

  lemma {:induction false} ListedTimes(list: seq<Guid>, g: Guid)
    ensures g in list <==> Times(list, g) > 0
  {
    if list == [] {
    } else {
      ListedTimes(list[1..], g);
    }
  }

  lemma {:induction false} AtNotAt(list: seq<Guid>, crowd: Crowd, i: nat, g: Guid)
    ensures Times(At(list, crowd, i), g) + Times(NotAt(list, crowd, i), g) == Times(list, g)
    ensures forall h :: h in NotAt(list, crowd, i) ==> h in list && !Joins(crowd, h, i)
  {
    if list == [] {
    } else {
      AtNotAt(list[1..], crowd, i, g);
      assert list == [list[0]] + list[1..];
      Concat([list[0]], list[1..], g);
      Concat(if Joins(crowd, list[0], i) then [list[0]] else [], At(list[1..], crowd, i), g);
      Concat(if Joins(crowd, list[0], i) then [] else [list[0]], NotAt(list[1..], crowd, i), g);
    }
  }

  lemma JoinPointKeeps(near: seq<seq<Guid>>, crowd: Crowd, i: nat, g: Guid)
    requires |near| == NODES + 1 && i < NODES
    ensures On(JoinPoint(near, crowd, i), g) == On(near, g)
  {
    AtNotAt(near[OUT_OF_POINTS], crowd, i, g);
    Concat(near[i], At(near[OUT_OF_POINTS], crowd, i), g);
  }

  /** The joining pass moves players, and neither adds nor loses one. */
  lemma {:induction false} JoinedKeeps(near: seq<seq<Guid>>, crowd: Crowd, i: nat, g: Guid)
    requires |near| == NODES + 1 && i <= NODES
    ensures On(Joined(near, crowd, i), g) == On(near, g)
    decreases NODES - i
  {
    if i == NODES {
    } else {
      JoinPointKeeps(near, crowd, i, g);
      JoinedKeeps(JoinPoint(near, crowd, i), crowd, i + 1, g);
    }
  }

  /** After it nobody who could join a base is listed elsewhere. */
  lemma {:induction false} JoinedComplete(near: seq<seq<Guid>>, crowd: Crowd, i: nat)
    requires |near| == NODES + 1 && i <= NODES
    requires forall g, k :: g in near[OUT_OF_POINTS] && 0 <= k < i ==> !Joins(crowd, g, k)
    ensures forall g, k :: g in Joined(near, crowd, i)[OUT_OF_POINTS] && 0 <= k < NODES ==> !Joins(crowd, g, k)
    decreases NODES - i
  {
    if i == NODES {
    } else {
      var near1 := JoinPoint(near, crowd, i);
      forall g, k | g in near1[OUT_OF_POINTS] && 0 <= k < i + 1 ensures !Joins(crowd, g, k) {
        AtNotAt(near[OUT_OF_POINTS], crowd, i, g);
      }
      JoinedComplete(near1, crowd, i + 1);
    }
  }

  lemma EraseKeeps(list: seq<Guid>, j: nat, g: Guid)
    requires j < |list|
    ensures Times(Erase(list, j), g) + (if list[j] == g then 1 else 0) == Times(list, g)
  {
    assert list == list[..j] + ([list[j]] + list[j + 1..]);
    Concat(list[..j], [list[j]] + list[j + 1..], g);
    Concat([list[j]], list[j + 1..], g);
    Concat(list[..j], list[j + 1..], g);
  }

  lemma MoveOutKeeps(p: Pass, j: nat, g: Guid)
    requires j < |p.list|
    ensures var p' := MoveOut(p, j);
            Times(p'.list, g) + Times(p'.out, g) == Times(p.list, g) + Times(p.out, g)
  {
    EraseKeeps(p.list, j, g);
    Concat(p.out, [p.list[j]], g);
  }

  lemma {:induction false} LeaveFromKeeps(p: Pass, crowd: Crowd, i: nat, j: nat, g: Guid)
    ensures
      var p' := LeaveFrom(p, crowd, i, j);
      Times(p'.list, g) + Times(p'.out, g) == Times(p.list, g) + Times(p.out, g)
    decreases |p.list| - j
  {
    if j >= |p.list| {
    } else {
      MoveOutKeeps(p, j, g);
      if p.list[j] !in crowd {
        LeaveFromKeeps(MoveOut(p, j), crowd, i, j + 1, g);
      } else if i !in crowd[p.list[j]].at {
        LeaveFromKeeps(MoveOut(p, j), crowd, i, j, g);
      } else {
        LeaveFromKeeps(Count(p, crowd[p.list[j]].team), crowd, i, j + 1, g);
      }
    }
  }

  /** The leaving pass moves players too, and neither adds nor loses one. */
  lemma {:induction false} LeavePointsKeep(s: Battle, crowd: Crowd, i: nat, g: Guid)
    requires Shaped(s) && i <= NODES
    ensures On(LeavePoints(s, crowd, i).near, g) == On(s.near, g)
    decreases NODES - i
  {
    if i == NODES {
    } else {
      LeaveFromKeeps(Pass(s.near[i], s.near[OUT_OF_POINTS], 0, 0), crowd, i, 0, g);
      LeavePointsKeep(LeavePoint(s, crowd, i), crowd, i + 1, g);
    }
  }

  lemma {:induction false} EraseFromKeeps(list: seq<Guid>, g: Guid, i: nat, h: Guid)
    requires h != g
    ensures Times(EraseFrom(list, g, i), h) == Times(list, h)
    decreases |list| - i
  {
    if i >= |list| {
    } else {
      if list[i] == g { EraseKeeps(list, i, h); }
      EraseFromKeeps(if list[i] == g then Erase(list, i) else list, g, i + 1, h);
    }
  }

  /** A player listed once is erased, although the walk passes over an element at each erasure. */
  lemma {:induction false} EraseFromGone(list: seq<Guid>, g: Guid, i: nat)
    requires Times(list, g) <= 1 && (forall k :: 0 <= k < i && k < |list| ==> list[k] != g)
    ensures Times(EraseFrom(list, g, i), g) == 0
    decreases |list| - i
  {
    if i < |list| {
      if list[i] == g {
        EraseKeeps(list, i, g);
        AbsentStays(Erase(list, i), g, i + 1);
      } else {
        EraseFromGone(list, g, i + 1);
      }
    } else {
      ListedTimes(list, g);
    }
  }

  lemma {:induction false} AbsentStays(list: seq<Guid>, g: Guid, i: nat)
    requires Times(list, g) == 0
    ensures EraseFrom(list, g, i) == list
    decreases |list| - i
  {
    if i >= |list| {
    } else {
      ListedTimes(list, g);
      AbsentStays(list, g, i + 1);
    }
  }

  /** After RemovePlayer the player is in no list, and everybody else where it was. */
  lemma RemoveGone(s: Battle, g: Guid, online: bool, h: Guid)
    requires Consistent(s) && On(s.near, g) <= 1
    ensures On(RemovePlayer(s, g, online).near, h) == if h == g then 0 else On(s.near, h)
  {
    assert RemovePlayer(s, g, online).near == EraseAll(s.near, g);
    if h == g {
      forall k | 0 <= k <= NODES ensures Times(EraseFrom(s.near[k], g, 0), g) == 0 {
        EraseFromGone(s.near[k], g, 0);
      }
    } else {
      forall k | 0 <= k <= NODES ensures Times(EraseFrom(s.near[k], g, 0), h) == Times(s.near[k], h) {
        EraseFromKeeps(s.near[k], g, 0, h);
      }
    }
  }

  /** Adding a player keeps the lists free of doubles exactly when it is in none of them. */
  lemma AddPlayerIff(s: Battle, g: Guid)
    requires Consistent(s) && ListedOnce(s.near)
    ensures ListedOnce(AddPlayer(s, g).near) <==> On(s.near, g) == 0
  {
    var near' := AddPlayer(s, g).near;
    forall h ensures On(near', h) == On(s.near, h) + if h == g then 1 else 0 {
      Concat(s.near[OUT_OF_POINTS], [g], h);
    }
    if On(s.near, g) != 0 {
      assert On(near', g) == 2;
    }
  }

  // ----- who stands at a base -----

  /** How many found players of a team a list holds. */
  function Present(list: seq<Guid>, crowd: Crowd, team: nat): nat {
    if list == [] then 0
    else (if list[0] in crowd && crowd[list[0]].team == team then 1 else 0) + Present(list[1..], crowd, team)
  }

  lemma {:induction false} PresentConcat(a: seq<Guid>, b: seq<Guid>, crowd: Crowd, team: nat)
    ensures Present(a + b, crowd, team) == Present(a, crowd, team) + Present(b, crowd, team)
  {
    if a == [] {
      assert a + b == b;
    } else {
      assert (a + b)[1..] == a[1..] + b;
      PresentConcat(a[1..], b, crowd, team);
    }
  }

  lemma PresentNext(list: seq<Guid>, j: nat, crowd: Crowd, team: nat)
    requires j < |list|
    ensures Present(list[..j + 1], crowd, team)
         == Present(list[..j], crowd, team) + if list[j] in crowd && crowd[list[j]].team == team then 1 else 0
  {
    assert list[..j + 1] == list[..j] + [list[j]];
    PresentConcat(list[..j], [list[j]], crowd, team);
    assert [list[j]][1..] == [];
  }

  function Upto(list: seq<Guid>, j: nat): seq<Guid> {
    if j <= |list| then list[..j] else list
  }

  /** Whoever was counted is still there: the counts never exceed the players found at the base. */
  lemma {:induction false} CountedPresent(p: Pass, crowd: Crowd, i: nat, j: nat)
    requires ValidCrowd(crowd)
    requires p.alliance <= Present(Upto(p.list, j), crowd, ALLIANCE) && p.horde <= Present(Upto(p.list, j), crowd, HORDE)
    ensures
      var p' := LeaveFrom(p, crowd, i, j);
      p'.alliance <= Present(p'.list, crowd, ALLIANCE) && p'.horde <= Present(p'.list, crowd, HORDE)
    decreases |p.list| - j
  {
    if j < |p.list| {
      var h := p.list[j];
      var p1 := MoveOut(p, j);
      assert p1.list[..j] == p.list[..j];
      PresentNext(p.list, j, crowd, ALLIANCE);
      PresentNext(p.list, j, crowd, HORDE);
      if h !in crowd {
        if j < |p1.list| {
          PresentNext(p1.list, j, crowd, ALLIANCE);
          PresentNext(p1.list, j, crowd, HORDE);
        } else {
          assert p1.list == p1.list[..j];
        }
        CountedPresent(p1, crowd, i, j + 1);
      } else if i !in crowd[h].at {
        CountedPresent(p1, crowd, i, j);
      } else {
        CountedPresent(Count(p, crowd[h].team), crowd, i, j + 1);
      }
    } else {
      assert Upto(p.list, j) == p.list;
    }
  }

  /** What the leaving pass is for: everybody still listed is at the base, and counted. */
  ghost predicate Settled(list: seq<Guid>, alliance: nat, horde: nat, crowd: Crowd, i: nat) {
    && (forall g :: g in list ==> Joins(crowd, g, i))
    && alliance == Present(list, crowd, ALLIANCE) && horde == Present(list, crowd, HORDE)
  }

  lemma {:induction false} PresentAll(list: seq<Guid>, crowd: Crowd, i: nat)
    requires ValidCrowd(crowd) && (forall g :: g in list ==> Joins(crowd, g, i))
    ensures Present(list, crowd, ALLIANCE) + Present(list, crowd, HORDE) == |list|
  {
    if list == [] {
    } else {
      assert list[0] in list;
      PresentAll(list[1..], crowd, i);
    }
  }

  lemma {:induction false} PrefixStays(p: Pass, crowd: Crowd, i: nat, j: nat)
    requires j <= |p.list|
    ensures var p' := LeaveFrom(p, crowd, i, j); |p'.list| >= j && p'.list[..j] == p.list[..j]
    decreases |p.list| - j
  {
    if j >= |p.list| {
    } else {
      var p1 := MoveOut(p, j);
      assert p1.list[..j] == p.list[..j];
      if p.list[j] !in crowd {
        if j + 1 <= |p1.list| {
          PrefixStays(p1, crowd, i, j + 1);
          assert p1.list[..j] == p1.list[..j + 1][..j];
        }
      } else if i !in crowd[p.list[j]].at {
        PrefixStays(p1, crowd, i, j);
      } else {
        PrefixStays(Count(p, crowd[p.list[j]].team), crowd, i, j + 1);
        assert p.list[..j] == p.list[..j + 1][..j];
      }
    }
  }

  /** At most everybody from a position on is counted from there on. */
  lemma {:induction false} CountsAhead(p: Pass, crowd: Crowd, i: nat, j: nat)
    requires j <= |p.list|
    ensures var p' := LeaveFrom(p, crowd, i, j); p'.alliance + p'.horde <= p.alliance + p.horde + |p'.list| - j
    decreases |p.list| - j
  {
    if j >= |p.list| {
    } else {
      PrefixStays(p, crowd, i, j);
      if p.list[j] !in crowd {
        if j + 1 < |p.list| { CountsAhead(MoveOut(p, j), crowd, i, j + 1); }
      } else if i !in crowd[p.list[j]].at {
        CountsAhead(MoveOut(p, j), crowd, i, j);
      } else {
        CountsAhead(Count(p, crowd[p.list[j]].team), crowd, i, j + 1);
      }
    }
  }

  predicate FoundButLast(list: seq<Guid>, crowd: Crowd, j: nat) {
    forall k :: j <= k < |list| - 1 ==> list[k] in crowd
  }

  lemma {:induction false} SettlesFrom(p: Pass, crowd: Crowd, i: nat, j: nat)
    requires ValidCrowd(crowd) && j <= |p.list| && Settled(p.list[..j], p.alliance, p.horde, crowd, i)
    ensures var p' := LeaveFrom(p, crowd, i, j);
            Settled(p'.list, p'.alliance, p'.horde, crowd, i) <==> FoundButLast(p.list, crowd, j)
    decreases |p.list| - j
  {
    if j < |p.list| {
      var h := p.list[j];
      var p1 := MoveOut(p, j);
      assert p1.list[..j] == p.list[..j];
      if h !in crowd {
        if j + 1 < |p.list| {
          PassedOver(p, crowd, i, j);
        } else {
          assert p1.list == p.list[..j];
        }
      } else if i !in crowd[h].at {
        SettlesFrom(p1, crowd, i, j);
        FoundAfterMove(p, crowd, j);
      } else {
        PresentNext(p.list, j, crowd, ALLIANCE);
        PresentNext(p.list, j, crowd, HORDE);
        SettlesFrom(Count(p, crowd[h].team), crowd, i, j + 1);
      }
    } else {
      assert p.list[..j] == p.list;
    }
  }

  lemma FoundAfterMove(p: Pass, crowd: Crowd, j: nat)
    requires j < |p.list| && p.list[j] in crowd
    ensures FoundButLast(MoveOut(p, j).list, crowd, j) <==> FoundButLast(p.list, crowd, j)
  {
    var list := MoveOut(p, j).list;
    assert forall k :: j < k < |p.list| ==> list[k - 1] == p.list[k];
    if FoundButLast(list, crowd, j) {
      forall k | j <= k < |p.list| - 1 ensures p.list[k] in crowd {
        if k > j { assert list[k - 1] in crowd; }
      }
    }
  }

  /** The player after one that is not found stays listed, and uncounted. */
  lemma PassedOver(p: Pass, crowd: Crowd, i: nat, j: nat)
    requires ValidCrowd(crowd) && j + 1 < |p.list| && p.list[j] !in crowd
    requires Settled(p.list[..j], p.alliance, p.horde, crowd, i)
    ensures var p' := LeaveFrom(p, crowd, i, j); !Settled(p'.list, p'.alliance, p'.horde, crowd, i)
  {
    var p1 := MoveOut(p, j);
    var p' := LeaveFrom(p1, crowd, i, j + 1);
    PrefixStays(p1, crowd, i, j + 1);
    CountsAhead(p1, crowd, i, j + 1);
    PresentAll(p.list[..j], crowd, i);
    if Settled(p'.list, p'.alliance, p'.horde, crowd, i) {
      PresentAll(p'.list, crowd, i);
    }
  }

  /** The leaving pass settles a base exactly when every listed player but the last is found. */
  lemma SettlesIff(list: seq<Guid>, out: seq<Guid>, crowd: Crowd, i: nat)
    requires ValidCrowd(crowd)
    ensures var p' := LeaveFrom(Pass(list, out, 0, 0), crowd, i, 0);
            Settled(p'.list, p'.alliance, p'.horde, crowd, i) <==> FoundButLast(list, crowd, 0)
  {
    SettlesFrom(Pass(list, out, 0, 0), crowd, i, 0);
  }

  ghost predicate CountsPresent(s: Battle, crowd: Crowd, from: nat, to: nat)
    requires Shaped(s) && to <= NODES
  {
    forall i :: from <= i < to ==>
      && s.counts[2 * i] <= Present(s.near[i], crowd, ALLIANCE)
      && s.counts[2 * i + 1] <= Present(s.near[i], crowd, HORDE)
  }

  lemma {:induction false} LeavePointsPresent(s: Battle, crowd: Crowd, i: nat)
    requires Shaped(s) && i <= NODES && ValidCrowd(crowd) && CountsPresent(s, crowd, 0, i)
    ensures CountsPresent(LeavePoints(s, crowd, i), crowd, 0, NODES)
    decreases NODES - i
  {
    if i == NODES {
    } else {
      CountedPresent(Pass(s.near[i], s.near[OUT_OF_POINTS], 0, 0), crowd, i, 0);
      LeavePointsPresent(LeavePoint(s, crowd, i), crowd, i + 1);
    }
  }

  // ----- the clients -----

  /** What a late joiner is shown. */
  function Snapshot(s: Battle, i: Icon): int
    requires Shaped(s) && Drawn(i)
  {
    match i
    case Uncontrol(n) => if s.state[n] != UNDER_CONTROL then 1 else 0
    case Control(n, t) => if s.owner[n] == t && s.state[n] == UNDER_CONTROL then 1 else 0
    case Bases(t) => s.points[Index(t)]
    case Resources(t) => s.scores[Index(t)]
    case Netherstorm => if s.flagState == FLAG_ON_BASE then 1 else 0
  }

  /** What clients are told over time: the same, but never a score above the limit. */
  function Told(s: Battle, i: Icon): int
    requires Shaped(s) && Drawn(i)
  {
    if i.Resources? && Snapshot(s, i) > MAX_TEAM_SCORE then MAX_TEAM_SCORE else Snapshot(s, i)
  }

  /** The client shows every icon as it was told, and holds no number outside the table. */
  ghost predicate Agrees(s: Battle)
    requires Shaped(s)
  {
    Clean(TABLE, s.client) && forall i :: Drawn(i) ==> Show(TABLE, s.client, i) == Told(s, i)
  }

  /** A client that was filled just now. */
  ghost predicate Filled(s: Battle, fill: map<nat, int>)
    requires Shaped(s)
  {
    Clean(TABLE, fill) && forall i :: Drawn(i) ==> Show(TABLE, fill, i) == Snapshot(s, i)
  }

  // ----- the invariant -----

  /** Every base shows its owner, and the flag stands in the centre exactly while it is there. */
  predicate ActiveOk(s: Battle)
    requires Shaped(s)
  {
    && (forall i :: 0 <= i < NODES ==> s.active[i] == if s.owner[i] == NO_OWNER then NEUTRAL_EVENT else Index(s.owner[i]))
    && (s.active[FLAG_EVENT] == FLAG_CENTER <==> s.flagState == FLAG_ON_BASE)
  }

  /** In a running battle the flag has a carrier exactly when its state says so, and nobody has won. */
  predicate FlagOk(s: Battle)
    requires Shaped(s)
  {
    && (s.running <==> s.ends == [])
    && (s.running ==> (s.keeper != 0 <==> s.flagState == FLAG_ON_PLAYER))
    && (s.running ==> s.scores[0] < MAX_TEAM_SCORE && s.scores[1] < MAX_TEAM_SCORE)
  }

  /** In a running battle every base belongs to the team its bar says. */
  predicate BarsOk(s: Battle)
    requires Shaped(s)
  {
    forall i :: 0 <= i < NODES ==> 0 <= s.bar[i] <= BAR_FULL && (s.running ==> s.owner[i] == Classify(s.bar[i]))
  }

  ghost predicate RecordsOk(s: Battle) {
    Consistent(s) && ActiveOk(s) && FlagOk(s) && Agrees(s)
  }

  ghost predicate Ok(s: Battle) {
    RecordsOk(s) && BarsOk(s) && ListedOnce(s.near)
  }

  // ----- ownership -----

  ghost predicate SameElse(s: Battle, s': Battle, i: nat)
    requires Shaped(s) && Shaped(s')
  {
    && s'.near == s.near && s'.bar == s.bar && s'.counts == s.counts && s'.running == s.running
    && forall j :: 0 <= j < NODES && j != i ==> s'.owner[j] == s.owner[j]
  }

  /** Agreement is about owners, counts, scores, the flag and the client alone. */
  lemma SameAgrees(s: Battle, s': Battle)
    requires Shaped(s) && Shaped(s') && Agrees(s)
    requires s'.owner == s.owner && s'.state == s.state && s'.points == s.points && s'.scores == s.scores
    requires s'.flagState == s.flagState && s'.client == s.client
    ensures Agrees(s')
  {
    forall j | Drawn(j) ensures Show(TABLE, s'.client, j) == Told(s', j) {
      assert Show(TABLE, s.client, j) == Told(s, j);
    }
  }

  /** One base changed hands, and with it one count: three updates tell it all. */
  lemma OwnerDelta(s: Battle, s1: Battle, i: nat, team: nat)
    requires Shaped(s) && Shaped(s1) && Agrees(s) && i < NODES && Team(team)
    requires s1.client == s.client && s1.scores == s.scores && s1.flagState == s.flagState
    requires forall j :: 0 <= j < NODES && j != i ==> s1.owner[j] == s.owner[j] && s1.state[j] == s.state[j]
    requires s1.points[1 - Index(team)] == s.points[1 - Index(team)]
    requires || (s1.owner[i] == team && s1.state[i] == UNDER_CONTROL && s.state[i] != UNDER_CONTROL)
             || (s.owner[i] == team && s.state[i] == UNDER_CONTROL && s1.state[i] != UNDER_CONTROL)
    ensures Agrees(Tell(s1, i, team))
  {
    var s' := Tell(s1, i, team);
    forall j | Drawn(j) ensures Show(TABLE, s'.client, j) == Told(s', j) {
      assert Show(TABLE, s.client, j) == Told(s, j);
    }
  }

  lemma DisownOk(s: Battle, i: nat)
    requires Consistent(s) && ActiveOk(s) && FlagOk(s) && i < NODES && s.owner[i] != NO_OWNER
    ensures s.points[Index(s.owner[i])] > 0
    ensures var s' := Disown(s, i); ActiveOk(s') && FlagOk(s') && SameElse(s, s', i) && s'.owner[i] == NO_OWNER
  {
    DisownConsistent(s, i);
  }

  lemma OwnOk(s: Battle, i: nat, team: nat)
    requires Consistent(s) && ActiveOk(s) && FlagOk(s) && i < NODES && s.owner[i] == NO_OWNER && Team(team)
    ensures var s' := Own(s, i, team); ActiveOk(s') && FlagOk(s') && SameElse(s, s', i) && s'.owner[i] == team
  {
  }

  lemma LostPointOk(s: Battle, i: nat)
    requires RecordsOk(s) && i < NODES && s.owner[i] != NO_OWNER
    ensures var s' := LostPoint(s, i); RecordsOk(s') && SameElse(s, s', i) && (s.running ==> s'.owner[i] == NO_OWNER)
  {
    DisownOk(s, i);
    OwnerDelta(s, Disown(s, i), i, s.owner[i]);
  }

  lemma CapturedPointOk(s: Battle, i: nat, team: nat)
    requires RecordsOk(s) && i < NODES && s.owner[i] == NO_OWNER && Team(team)
    ensures var s' := CapturedPoint(s, i, team); RecordsOk(s') && SameElse(s, s', i) && (s.running ==> s'.owner[i] == team)
  {
    OwnOk(s, i, team);
    OwnerDelta(s, Own(s, i, team), i, team);
  }

  /** The owner of a base after one player was noticed there. */
  function Next(owner: nat, wanted: nat, team: nat): nat {
    if wanted == owner then owner
    else if owner == NO_OWNER then if team == wanted then wanted else NO_OWNER
    else if team != owner then NO_OWNER
    else owner
  }

  /** One player's presence: a base of the other team is lost, a free base of the own team is
      captured. No base passes from one team to the other in one step. */
  lemma GreetOk(s: Battle, i: nat, wanted: nat, team: nat)
    requires RecordsOk(s) && i < NODES && Team(team)
    ensures
      var s' := Greet(s, i, wanted, team);
      && RecordsOk(s') && SameElse(s, s', i)
      && (s.running ==> s'.owner[i] == Next(s.owner[i], wanted, team))
      && (s'.owner[i] == s.owner[i] || s'.owner[i] == NO_OWNER || s.owner[i] == NO_OWNER)
  {
    if wanted != s.owner[i] {
      if s.owner[i] == NO_OWNER {
        if team == wanted { CapturedPointOk(s, i, team); }
      } else if team != s.owner[i] {
        LostPointOk(s, i);
      }
    }
  }

  /** Enough players of the right team to bring a base to the team its bar says. */
  predicate Enough(owner: nat, wanted: nat, list: seq<Guid>, crowd: Crowd) {
    owner == wanted
    || (wanted == NO_OWNER && Present(list, crowd, if owner == ALLIANCE then HORDE else ALLIANCE) >= 1)
    || (owner == NO_OWNER && Team(wanted) && Present(list, crowd, wanted) >= 1)
    || (Team(owner) && Team(wanted) && Present(list, crowd, wanted) >= 2)
  }

  /** Noticing one player brings the base closer to the wanted owner. */
  lemma EnoughNext(owner: nat, wanted: nat, list: seq<Guid>, crowd: Crowd)
    requires list != [] && ValidCrowd(crowd) && Enough(owner, wanted, list, crowd) && (owner == NO_OWNER || Team(owner))
    ensures Enough(if list[0] in crowd then Next(owner, wanted, crowd[list[0]].team) else owner, wanted, list[1..], crowd)
  {
  }

  lemma NoticedOk(s: Battle, crowd: Crowd, i: nat, wanted: nat, list: seq<Guid>)
    requires RecordsOk(s) && i < NODES && list != [] && ValidCrowd(crowd)
    ensures
      var s' := Noticed(s, crowd, i, wanted, list[0]);
      && RecordsOk(s') && SameElse(s, s', i)
      && (s.running && Enough(s.owner[i], wanted, list, crowd) ==> Enough(s'.owner[i], wanted, list[1..], crowd))
  {
    if list[0] in crowd {
      GreetOk(s, i, wanted, crowd[list[0]].team);
    }
    if Enough(s.owner[i], wanted, list, crowd) {
      EnoughNext(s.owner[i], wanted, list, crowd);
    }
  }

  /** All players of a list together bring the base to the wanted owner, if they are enough. */
  lemma {:induction false} GreetFromOk(s: Battle, crowd: Crowd, i: nat, wanted: nat, k: nat)
    requires RecordsOk(s) && i < NODES && k <= |s.near[i]| && ValidCrowd(crowd)
    ensures
      var s' := GreetFrom(s, crowd, i, wanted, k);
      && RecordsOk(s') && SameElse(s, s', i)
      && (s.running && Enough(s.owner[i], wanted, s.near[i][k..], crowd) ==> s'.owner[i] == wanted)
    decreases |s.near[i]| - k
  {
    if k >= |s.near[i]| {
    } else {
      NoticedOk(s, crowd, i, wanted, s.near[i][k..]);
      var s1 := Noticed(s, crowd, i, wanted, s.near[i][k]);
      assert s.near[i][k..][1..] == s.near[i][k + 1..];
      GreetFromOk(s1, crowd, i, wanted, k + 1);
    }
  }

  /** A bar moves up only by the presence of Alliance players, by at most five a check, and
      down only by Horde players, by at most their number: there are always enough of them to
      carry the change of ownership out. */
  lemma PushEnough(bar: int, alliance: nat, horde: nat, list: seq<Guid>, crowd: Crowd)
    requires 0 <= bar <= BAR_FULL
    requires alliance <= Present(list, crowd, ALLIANCE) && horde <= Present(list, crowd, HORDE)
    ensures
      var bar' := Clamp(bar + Push(alliance, horde));
      0 <= bar' <= BAR_FULL && Enough(Classify(bar), Classify(bar'), list, crowd)
  {
  }

  lemma BarMoves(s: Battle, i: nat, bar: int)
    requires RecordsOk(s) && i < NODES
    ensures RecordsOk(s.(bar := s.bar[i := bar]))
  {
    SameAgrees(s, s.(bar := s.bar[i := bar]));
  }

  lemma PresentOn(s: Battle, s': Battle, crowd: Crowd, i: nat)
    requires Shaped(s) && Shaped(s') && i < NODES && s'.near == s.near && s'.counts == s.counts
    requires CountsPresent(s, crowd, i, NODES)
    ensures CountsPresent(s', crowd, i + 1, NODES)
  {
  }

  lemma UpdatePointOk(s: Battle, crowd: Crowd, i: nat)
    requires RecordsOk(s) && BarsOk(s) && i < NODES && ValidCrowd(crowd) && CountsPresent(s, crowd, i, NODES)
    ensures
      var s' := UpdatePoint(s, crowd, i);
      && RecordsOk(s') && BarsOk(s') && CountsPresent(s', crowd, i + 1, NODES) && s'.near == s.near
  {
    if s.near[i] != [] {
      MoveBar(s, crowd, i, s.counts[2 * i], s.counts[2 * i + 1], Clamp(s.bar[i] + Push(s.counts[2 * i], s.counts[2 * i + 1])));
    }
    PresentOn(s, UpdatePoint(s, crowd, i), crowd, i);
  }

  lemma MoveBar(s: Battle, crowd: Crowd, i: nat, alliance: nat, horde: nat, bar: int)
    requires RecordsOk(s) && BarsOk(s) && i < NODES && ValidCrowd(crowd)
    requires alliance <= Present(s.near[i], crowd, ALLIANCE) && horde <= Present(s.near[i], crowd, HORDE)
    requires bar == Clamp(s.bar[i] + Push(alliance, horde))
    ensures
      var s' := GreetFrom(s.(bar := s.bar[i := bar]), crowd, i, Classify(bar), 0);
      && RecordsOk(s') && BarsOk(s') && s'.near == s.near && s'.counts == s.counts
  {
    PushEnough(s.bar[i], alliance, horde, s.near[i], crowd);
    BarMoves(s, i, bar);
    GreetFromOk(s.(bar := s.bar[i := bar]), crowd, i, Classify(bar), 0);
    assert s.near[i][0..] == s.near[i];
  }

  lemma {:induction false} UpdatePointsOk(s: Battle, crowd: Crowd, i: nat)
    requires RecordsOk(s) && BarsOk(s) && i <= NODES && ValidCrowd(crowd) && CountsPresent(s, crowd, i, NODES)
    ensures var s' := UpdatePoints(s, crowd, i); RecordsOk(s') && BarsOk(s') && s'.near == s.near
    decreases NODES - i
  {
    if i == NODES {
    } else {
      UpdatePointOk(s, crowd, i);
      UpdatePointsOk(UpdatePoint(s, crowd, i), crowd, i + 1);
    }
  }

  /** The lists and counts are nobody's concern but the check's. */
  lemma RostersFree(s: Battle, s': Battle)
    requires RecordsOk(s) && BarsOk(s) && Shaped(s') && s' == s.(near := s'.near, counts := s'.counts)
    ensures RecordsOk(s') && BarsOk(s')
  {
    SameAgrees(s, s');
  }

  lemma {:induction false} LeavePointsFrame(s: Battle, crowd: Crowd, i: nat)
    requires Shaped(s) && i <= NODES
    ensures var s' := LeavePoints(s, crowd, i); s' == s.(near := s'.near, counts := s'.counts)
    decreases NODES - i
  {
    if i == NODES {
    } else {
      LeavePointsFrame(LeavePoint(s, crowd, i), crowd, i + 1);
    }
  }

  lemma CheckTowersOk(s: Battle, crowd: Crowd)
    requires Ok(s) && ValidCrowd(crowd)
    ensures Ok(CheckTowers(s, crowd))
  {
    var s1 := s.(near := Joined(s.near, crowd, 0));
    var s2 := LeavePoints(s1, crowd, 0);
    LeavePointsFrame(s1, crowd, 0);
    RostersFree(s, s2);
    LeavePointsPresent(s1, crowd, 0);
    UpdatePointsOk(s2, crowd, 0);
    RosterKept(s, crowd);
  }

  /** Both passes together keep everybody listed as often as before. */
  lemma RosterKept(s: Battle, crowd: Crowd)
    requires Shaped(s) && ListedOnce(s.near)
    ensures ListedOnce(LeavePoints(s.(near := Joined(s.near, crowd, 0)), crowd, 0).near)
  {
    var s1 := s.(near := Joined(s.near, crowd, 0));
    forall g ensures On(LeavePoints(s1, crowd, 0).near, g) == On(s.near, g) {
      JoinedKeeps(s.near, crowd, 0, g);
      LeavePointsKeep(s1, crowd, 0, g);
    }
  }

  // ----- points and the flag -----

  lemma AddPointsOk(s: Battle, team: nat, points: nat)
    requires Ok(s) && Team(team)
    ensures Ok(AddPoints(s, team, points))
  {
    AddPointsTold(s, team, points);
  }

  lemma AddPointsTold(s: Battle, team: nat, points: nat)
    requires Consistent(s) && Agrees(s) && Team(team)
    ensures Agrees(AddPoints(s, team, points))
  {
    var s' := AddPoints(s, team, points);
    forall j | Drawn(j) ensures Show(TABLE, s'.client, j) == Told(s', j) {
      assert Show(TABLE, s.client, j) == Told(s, j);
    }
  }

  lemma AddTickOk(s: Battle, team: nat)
    requires Ok(s) && Team(team)
    ensures Ok(AddTick(s, team))
  {
    var points := s.points[Index(team)];
    if points > 0 { AddPointsOk(s, team, TICK_POINTS[points - 1]); }
  }

  /** Timers count for nothing else. */
  lemma TimersFree(s: Battle, s': Battle)
    requires Ok(s) && s' == s.(flagTimer := s'.flagTimer, pointTimer := s'.pointTimer, checkTimer := s'.checkTimer)
    ensures Ok(s')
  {
    SameAgrees(s, s');
  }

  lemma UpdateTicksOk(s: Battle, diff: nat)
    requires Ok(s)
    ensures Ok(UpdateTicks(s, diff))
  {
    var timer := s.pointTimer - diff;
    if timer <= 0 {
      TimersFree(s, s.(pointTimer := TICK_TIME));
      AddTickOk(s.(pointTimer := TICK_TIME), ALLIANCE);
      AddTickOk(AddTick(s.(pointTimer := TICK_TIME), ALLIANCE), HORDE);
    } else {
      TimersFree(s, s.(pointTimer := timer));
    }
  }

  /** Any move of the flag whose icon and event go with it. */
  lemma FlagMoves(s: Battle, s': Battle)
    requires Ok(s) && Shaped(s')
    requires s' == s.(flagState := s'.flagState, keeper := s'.keeper, flagTimer := s'.flagTimer, active := s'.active, client := s'.client)
    requires forall e :: 0 <= e < NODES ==> s'.active[e] == s.active[e]
    requires s'.active[FLAG_EVENT] == FLAG_CENTER <==> s'.flagState == FLAG_ON_BASE
    requires s.running ==> (s'.keeper != 0 <==> s'.flagState == FLAG_ON_PLAYER)
    requires Show(TABLE, s'.client, Netherstorm) == if s'.flagState == FLAG_ON_BASE then 1 else 0
    requires Clean(TABLE, s'.client) && forall i :: Drawn(i) && i != Netherstorm ==> Show(TABLE, s'.client, i) == Show(TABLE, s.client, i)
    ensures Ok(s')
  {
    forall j | Drawn(j) ensures Show(TABLE, s'.client, j) == Told(s', j) {
      assert Show(TABLE, s.client, j) == Told(s, j);
    }
  }

  lemma RespawnFlagOk(s: Battle)
    requires Ok(s) && (s.running ==> s.keeper == 0)
    ensures Ok(RespawnFlag(s))
  {
    FlagMoves(s, RespawnFlag(s));
  }

  lemma ClickedOnFlagOk(s: Battle, g: Guid)
    requires Ok(s) && g != 0
    ensures Ok(ClickedOnFlag(s, g))
  {
    if s.running && s.keeper == 0 {
      assert Show(TABLE, s.client, Netherstorm) == Told(s, Netherstorm);
      FlagMoves(s, ClickedOnFlag(s, g));
    }
  }

  lemma DroppedFlagOk(s: Battle, g: Guid)
    requires Ok(s)
    ensures Ok(DroppedFlag(s, g))
  {
    assert Show(TABLE, s.client, Netherstorm) == Told(s, Netherstorm);
    if s.keeper != 0 && s.keeper == g {
      FlagMoves(s, DroppedFlag(s, g));
    }
  }

  /** A flag brought to a base of one's own always pays, from a table that has the entry. */
  lemma CapturePays(s: Battle, team: nat, i: nat)
    requires Consistent(s) && i < NODES && Team(team) && s.owner[i] == team
    ensures 0 < s.points[Index(team)] <= |FLAG_POINTS| == |TICK_POINTS|
  {
  }

  lemma FlagPlaced(s: Battle, s1: Battle, i: nat)
    requires Ok(s) && i < NODES && s.flagState != FLAG_ON_BASE
    requires s1 == SpawnEvent(s.(keeper := 0, flagState := FLAG_WAIT_RESPAWN, flagTimer := FLAG_RESPAWN_TIME), FLAG_EVENT, i, true)
    ensures Ok(s1)
  {
    assert Show(TABLE, s.client, Netherstorm) == Told(s, Netherstorm);
    FlagMoves(s, s1);
  }

  lemma CapturedFlagOk(s: Battle, team: nat, i: nat)
    requires Ok(s) && Team(team) && i < NODES && s.owner[i] == team && s.flagState != FLAG_ON_BASE
    ensures Ok(CapturedFlag(s, team, i))
  {
    CapturePays(s, team, i);
    var s1 := SpawnEvent(s.(keeper := 0, flagState := FLAG_WAIT_RESPAWN, flagTimer := FLAG_RESPAWN_TIME), FLAG_EVENT, i, true);
    FlagPlaced(s, s1, i);
    AddPointsOk(s1, team, FLAG_POINTS[s.points[Index(team)] - 1]);
  }

  lemma AreaTriggerOk(s: Battle, g: Guid, team: nat, i: nat)
    requires Ok(s) && Team(team) && i < NODES
    ensures Ok(AreaTrigger(s, g, team, i))
  {
    if s.running && s.state[i] == UNDER_CONTROL && s.owner[i] == team && s.flagState != FLAG_ON_BASE && s.keeper == g {
      CapturedFlagOk(s, team, i);
    }
  }

  lemma UpdateFlagOk(s: Battle, diff: nat)
    requires Ok(s)
    ensures Ok(UpdateFlag(s, diff))
  {
    if s.flagState == FLAG_WAIT_RESPAWN || s.flagState == FLAG_ON_GROUND {
      var timer := s.flagTimer - diff;
      if timer < 0 {
        TimersFree(s, s.(flagTimer := 0));
        RespawnFlagOk(s.(flagTimer := 0));
      } else {
        TimersFree(s, s.(flagTimer := timer));
      }
    }
  }

  lemma CheckIfDueOk(s: Battle, crowd: Crowd)
    requires Ok(s) && ValidCrowd(crowd)
    ensures Ok(CheckIfDue(s, crowd))
  {
    if s.checkTimer <= 0 {
      CheckTowersOk(s, crowd);
      TimersFree(CheckTowers(s, crowd), CheckTowers(s, crowd).(checkTimer := TICK_TIME));
    }
  }

  lemma UpdateOk(s: Battle, diff: nat, crowd: Crowd)
    requires Ok(s) && ValidCrowd(crowd)
    ensures Ok(Update(s, diff, crowd))
  {
    if s.running {
      UpdateTicksOk(s, diff);
      var s1 := UpdateTicks(s, diff);
      UpdateFlagOk(s1, diff);
      var s2 := UpdateFlag(s1, diff);
      TimersFree(s2, CountDown(s2, diff));
      CheckIfDueOk(CountDown(s2, diff), crowd);
    }
  }

  lemma AddPlayerOk(s: Battle, g: Guid)
    requires Ok(s) && On(s.near, g) == 0
    ensures Ok(AddPlayer(s, g))
  {
    AddPlayerIff(s, g);
    RostersFree(s, AddPlayer(s, g));
  }

  lemma EraseAllOk(s: Battle, g: Guid)
    requires Ok(s)
    ensures Ok(s.(near := EraseAll(s.near, g)))
  {
    var s1 := s.(near := EraseAll(s.near, g));
    RostersFree(s, s1);
    forall h ensures On(s1.near, h) <= On(s.near, h) {
      RemoveGone(s, g, true, h);
      assert RemovePlayer(s, g, true).near == s1.near;
    }
  }

  lemma RemovePlayerOk(s: Battle, g: Guid, online: bool)
    requires Ok(s)
    ensures Ok(RemovePlayer(s, g, online))
  {
    var s1 := s.(near := EraseAll(s.near, g));
    EraseAllOk(s, g);
    if s.keeper != 0 && s.keeper == g {
      if online {
        DroppedFlagOk(s1, g);
      } else {
        assert Show(TABLE, s1.client, Netherstorm) == Told(s1, Netherstorm);
        FlagMoves(s1, RespawnFlag(s1.(keeper := 0)));
      }
    }
  }

  // ----- whole runs -----

  datatype Event =
    | Ticked(diff: nat, crowd: Crowd)
    | Clicked(guid: Guid)
    | Killed(guid: Guid)
    | Arrived(guid: Guid, team: nat, node: nat)
    | Entered(guid: Guid)
    | Left(guid: Guid, online: bool)

  /** Guids are not 0, teams are teams, and only those not listed enter. */
  ghost predicate Possible(s: Battle, e: Event)
    requires Consistent(s)
  {
    match e
    case Ticked(_, crowd) => ValidCrowd(crowd)
    case Clicked(g) => g != 0
    case Killed(_) => true
    case Arrived(g, team, i) => g != 0 && Team(team) && i < NODES
    case Entered(g) => On(s.near, g) == 0
    case Left(_, _) => true
  }

  ghost function Apply(s: Battle, e: Event): (r: Battle)
    requires Consistent(s)
    ensures Consistent(r)
  {
    if !Possible(s, e) then s
    else
      match e
      case Ticked(diff, crowd) => Update(s, diff, crowd)
      case Clicked(g) => ClickedOnFlag(s, g)
      case Killed(g) => if s.running then DroppedFlag(s, g) else s
      case Arrived(g, team, i) => AreaTrigger(s, g, team, i)
      case Entered(g) => AddPlayer(s, g)
      case Left(g, online) => RemovePlayer(s, g, online)
  }

  ghost function Run(s: Battle, es: seq<Event>): (r: Battle)
    requires Consistent(s)
    ensures Consistent(r)
    decreases |es|
  {
    if es == [] then s else Run(Apply(s, es[0]), es[1..])
  }

  lemma ApplyOk(s: Battle, e: Event)
    requires Ok(s)
    ensures Ok(Apply(s, e))
  {
    if Possible(s, e) {
      match e {
        case Ticked(diff, crowd) => UpdateOk(s, diff, crowd);
        case Clicked(g) => ClickedOnFlagOk(s, g);
        case Killed(g) => DroppedFlagOk(s, g);
        case Arrived(g, team, i) => AreaTriggerOk(s, g, team, i);
        case Entered(g) => AddPlayerOk(s, g);
        case Left(g, online) => RemovePlayerOk(s, g, online);
      }
    }
  }

  /** In every state of every run bars, owners, counts, events and icons tell the same story,
      nobody is listed twice, and the flag has a carrier exactly when its state says so. */
  lemma {:induction false} RunOk(s: Battle, es: seq<Event>)
    requires Ok(s)
    ensures Ok(Run(s, es))
    decreases |es|
  {
    if es == [] {
    } else {
      ApplyOk(s, es[0]);
      RunOk(Apply(s, es[0]), es[1..]);
    }
  }

  /** After every run, while the battle lasts, a client that was told piece by piece holds under
      every number what a client filled at that moment holds. */
  lemma RunScreen(s: Battle, es: seq<Event>, fill: map<nat, int>, id: nat)
    requires Ok(s) && Filled(Run(s, es), fill) && Run(s, es).running
    ensures Held(Run(s, es).client, id) == Held(fill, id)
  {
    RunOk(s, es);
    var s' := Run(s, es);
    forall i | TABLE.drawn(i) ensures Show(TABLE, s'.client, i) == Show(TABLE, fill, i) {
      assert Show(TABLE, s'.client, i) == Told(s', i) && Show(TABLE, fill, i) == Snapshot(s', i);
    }
    SameScreen(TABLE, s'.client, fill, id);
  }

  /** The objects of a base in the world are those of its owner, or the neutral ones. */
  lemma BannersTrue(s: Battle, l: Ev.Layer, g: Ev.Guid, i: nat, kind: nat)
    requires Ok(s) && l.active == s.active && Ev.Exclusive(l) && i < NODES && Ev.Registered(l, g, i, kind)
    ensures g in l.spawned <==> kind == if s.owner[i] == NO_OWNER then NEUTRAL_EVENT else Index(s.owner[i])
  {
    assert Ev.IsActive(l, i, kind) <==> l.active[i] == kind;
  }

  /** The flag in the centre is in the world exactly while it is there to be taken. */
  lemma FlagTrue(s: Battle, l: Ev.Layer, g: Ev.Guid)
    requires Ok(s) && l.active == s.active && Ev.Exclusive(l) && Ev.Registered(l, g, FLAG_EVENT, FLAG_CENTER)
    ensures g in l.spawned <==> s.flagState == FLAG_ON_BASE
  {
    assert Ev.IsActive(l, FLAG_EVENT, FLAG_CENTER) <==> l.active[FLAG_EVENT] == FLAG_CENTER;
  }

  function Start(honorTics: nat, client: map<nat, int>): Battle {
    Battle([0, 0, 0, 0], [0, 0, 0, 0], [BAR_MIDDLE, BAR_MIDDLE, BAR_MIDDLE, BAR_MIDDLE], [[], [], [], [], []],
           [0, 0, 0, 0, 0, 0, 0, 0], [0, 0], [0, 0], [0, 0], honorTics, FLAG_ON_BASE, 0, 0, 0, 0,
           map[0 := NEUTRAL_EVENT, 1 := NEUTRAL_EVENT, 2 := NEUTRAL_EVENT, 3 := NEUTRAL_EVENT, FLAG_EVENT := FLAG_CENTER],
           [], true, client)
  }

  lemma StartOk(honorTics: nat, client: map<nat, int>)
    ensures Consistent(Start(honorTics, client)) && (Agrees(Start(honorTics, client)) ==> Ok(Start(honorTics, client)))
  {
  }

  /** A late joiner is told what everybody else was told, save a score beyond the limit. */
  lemma SnapshotIff(s: Battle, i: Icon)
    requires Ok(s) && Drawn(i)
    ensures Show(TABLE, s.client, i) == Snapshot(s, i) <==> !(i.Resources? && s.scores[Index(i.team)] > MAX_TEAM_SCORE)
    ensures s.running ==> Show(TABLE, s.client, i) == Snapshot(s, i)
  {
    assert Show(TABLE, s.client, i) == Told(s, i);
  }
}
