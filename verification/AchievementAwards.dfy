/** Awards are earned: whatever an update completes was accepted by the completion check in a
    state the scan passed through, and counters move as the update says and not otherwise. */
module AchievementAwards {
  import opened Options
  import opened AchievementStore
  import opened AchievementEngine
  import opened AchievementLedger
  import opened AchievementClosure
  import R = AchievementRealm

  // ----- the states an update passes through -----

  /** The elementary changes: one criterion gets a new record, one achievement is accepted, one
      reward is handled. */
  datatype Move = Count(c: Criteria, record: Progress) | Accept(a: Achievement) | Reward(id: nat)

  datatype Hop = Hop(before: State, move: Move, after: State)

  /** An accepted achievement passed its check in the state before, was open, and is announced,
      recorded with the date, and told to the realm unless it is a realm-first kill. */
  ghost predicate Accepted(x: Context, s: State, a: Achievement, s': State) {
    && Known(x.dbc, a) && !a.counter && a.id !in s.completed && IsCompletedAchievement(x.dbc, x.player, s, a)
    && s'.progress == s.progress && s'.completed == s.completed[a.id := Completed(x.env.now, true)]
    && s'.realm == (if a.realmFirstKill then s.realm else s.realm + {a.id})
    && s'.announced == s.announced + [a.id] && s'.rewarded == s.rewarded
  }

  /** Only the criteria of the given ids may get new records. */
  ghost predicate Fair(x: Context, ids: set<nat>, h: Hop) {
    match h.move
    case Count(c, r) => c.id in ids && Stored(x.dbc, c) && h.after == h.before.(progress := h.before.progress[c.id := r])
    case Accept(a) => Accepted(x, h.before, a, h.after)
    case Reward(id) => id in h.before.completed && h.after == h.before.(rewarded := h.before.rewarded + [id])
  }

  /** The hops lead from one state to another. */
  ghost predicate Leads(x: Context, ids: set<nat>, s: State, hops: seq<Hop>, s': State)
    decreases |hops|
  {
    if hops == [] then s' == s
    else hops[0].before == s && Fair(x, ids, hops[0]) && Leads(x, ids, hops[0].after, hops[1..], s')
  }

  lemma {:induction false} LeadsOn(x: Context, ids: set<nat>, s: State, hops: seq<Hop>, m: State, more: seq<Hop>, s': State)
    requires Leads(x, ids, s, hops, m) && Leads(x, ids, m, more, s')
    ensures Leads(x, ids, s, hops + more, s')
    decreases |hops|
  {
    if hops == [] {
      assert hops + more == more;
    } else {
      LeadsOn(x, ids, hops[0].after, hops[1..], m, more, s');
      assert (hops + more)[1..] == hops[1..] + more;
    }
  }

  lemma {:induction false} LeadsWider(x: Context, ids: set<nat>, wider: set<nat>, s: State, hops: seq<Hop>, s': State)
    requires Leads(x, ids, s, hops, s') && ids <= wider
    ensures Leads(x, wider, s, hops, s')
    decreases |hops|
  {
    if hops == [] {
    } else {
      LeadsWider(x, ids, wider, hops[0].after, hops[1..], s');
    }
  }

  ghost function Ids(cs: seq<Criteria>): set<nat> {
    set c | c in cs :: c.id
  }

  ghost function Linked(d: Dbc): set<nat> {
    Ids(OfKind(d.criteria, KIND_COMPLETE_ACHIEVEMENT))
  }

  // ----- every update is such a sequence of hops -----

  lemma CountHop(x: Context, ids: set<nat>, st: State, c: Criteria, value: nat, mode: Mode) returns (hops: seq<Hop>)
    requires Stored(x.dbc, c) && c.id in ids
    ensures Leads(x, ids, st, hops, SetProgress(st, c, value, mode, x.env.now))
  {
    var st' := SetProgress(st, c, value, mode, x.env.now);
    if st' == st {
      hops := [];
    } else {
      hops := [Hop(st, Count(c, st'.progress[c.id]), st')];
    }
  }

  lemma {:induction false} ScanHops(x: Context, st: State, cs: seq<Criteria>) returns (hops: seq<Hop>)
    requires ValidDbc(x.dbc) && forall c :: c in cs ==> Stored(x.dbc, c)
    ensures Leads(x, Ids(cs) + Linked(x.dbc), st, hops, Scan(x, st, cs))
    decreases |Open(x.dbc, st)|, 5, |cs|
  {
    if cs == [] {
      hops := [];
    } else {
      var st1 := Visit(x, st, cs[0]);
      assert cs[0] in cs;
      var first := VisitHops(x, st, cs[0]);
      OpenShrinks(x.dbc, st, st1);
      var rest := ScanHops(x, st1, cs[1..]);
      var ids := Ids(cs) + Linked(x.dbc);
      LeadsWider(x, {cs[0].id} + Linked(x.dbc), ids, st, first, st1);
      LeadsWider(x, Ids(cs[1..]) + Linked(x.dbc), ids, st1, rest, Scan(x, st, cs));
      LeadsOn(x, ids, st, first, st1, rest, Scan(x, st, cs));
      hops := first + rest;
    }
  }

  lemma VisitHops(x: Context, st: State, c: Criteria) returns (hops: seq<Hop>)
    requires ValidDbc(x.dbc) && Stored(x.dbc, c)
    ensures Leads(x, {c.id} + Linked(x.dbc), st, hops, Visit(x, st, c))
    decreases |Open(x.dbc, st)|, 4, 0
  {
    var ids := {c.id} + Linked(x.dbc);
    hops := [];
    if !Skipped(x, st, c) {
      var a := LookupEntry(x.dbc, c.referred).value;
      match ActionFor(x.act, st, c) {
        case Skip =>
        case ResetAndSkip => hops := CountHop(x, ids, st, c, 0, Set);
        case Keep =>
          hops := SettleHops(x, st, c, a);
          LeadsWider(x, Linked(x.dbc), ids, st, hops, Visit(x, st, c));
        case Advance(value, mode) =>
          var st1 := SetProgress(st, c, value, mode, x.env.now);
          var count := CountHop(x, ids, st, c, value, mode);
          OpenShrinks(x.dbc, st, st1);
          var more := SettleHops(x, st1, c, a);
          LeadsWider(x, Linked(x.dbc), ids, st1, more, Visit(x, st, c));
          LeadsOn(x, ids, st, count, st1, more, Visit(x, st, c));
          hops := count + more;
      }
    }
  }

  lemma SettleHops(x: Context, st: State, c: Criteria, a: Achievement) returns (hops: seq<Hop>)
    requires ValidDbc(x.dbc) && Known(x.dbc, a)
    ensures Leads(x, Linked(x.dbc), st, hops, Settle(x, st, c, a))
    decreases |Open(x.dbc, st)|, 3, 0
  {
    var ids := Linked(x.dbc);
    var checked := IsCompletedCriteria(x.player, st, c, a) && !a.counter && a.id !in st.completed;
    var st1 := if checked then Check(x, st, a) else st;
    var own := [];
    if checked { own := CheckHops(x, st, a); }
    OpenShrinks(x.dbc, st, st1);
    var st2 := if a.summ then Check(x, st1, a) else st1;
    var again := [];
    if a.summ { again := CheckHops(x, st1, a); }
    OpenShrinks(x.dbc, st1, st2);
    LeadsOn(x, ids, st, own, st1, again, st2);
    ReferencingKnown(x.dbc, a.id);
    var others := CheckAllHops(x, st2, Referencing(x.dbc.achievements, a.id));
    LeadsOn(x, ids, st, own + again, st2, others, Settle(x, st, c, a));
    hops := own + again + others;
  }

  lemma {:induction false} CheckAllHops(x: Context, st: State, candidates: seq<Achievement>) returns (hops: seq<Hop>)
    requires ValidDbc(x.dbc) && (forall a :: a in candidates ==> Known(x.dbc, a))
    ensures Leads(x, Linked(x.dbc), st, hops, CheckAll(x, st, candidates))
    decreases |Open(x.dbc, st)|, 2, |candidates|
  {
    if candidates == [] {
      hops := [];
    } else {
      var st1 := Check(x, st, candidates[0]);
      OpenShrinks(x.dbc, st, st1);
      var first := CheckHops(x, st, candidates[0]);
      var rest := CheckAllHops(x, st1, candidates[1..]);
      LeadsOn(x, Linked(x.dbc), st, first, st1, rest, CheckAll(x, st, candidates));
      hops := first + rest;
    }
  }

  lemma CheckHops(x: Context, st: State, a: Achievement) returns (hops: seq<Hop>)
    requires ValidDbc(x.dbc) && Known(x.dbc, a)
    ensures Leads(x, Linked(x.dbc), st, hops, Check(x, st, a))
    decreases |Open(x.dbc, st)|, 1, 0
  {
    hops := [];
    if IsCompletedAchievement(x.dbc, x.player, st, a) && a.id !in st.completed {
      hops := AwardHops(x, st, a);
    }
  }

  lemma AwardHops(x: Context, st: State, a: Achievement) returns (hops: seq<Hop>)
    requires ValidDbc(x.dbc) && Known(x.dbc, a) && IsCompletedAchievement(x.dbc, x.player, st, a)
             && a.id !in st.completed
    ensures Leads(x, Linked(x.dbc), st, hops, Award(x, st, a))
    decreases |Open(x.dbc, st)|, 0, 0
  {
    var ids := Linked(x.dbc);
    var st1 := Record(st, a, x.env.now);
    OpenShrinks(x.dbc, st, st1);
    assert a.id in Open(x.dbc, st);
    var linked := OfKind(x.dbc.criteria, KIND_COMPLETE_ACHIEVEMENT);
    KindStored(x.dbc, KIND_COMPLETE_ACHIEVEMENT);
    var st2 := Scan(x, st1, linked);
    var mid := ScanHops(x, st1, linked);
    assert ids + ids == ids;
    var accept, reward := Hop(st, Accept(a), st1), Hop(st2, Reward(a.id), Award(x, st, a));
    assert Leads(x, ids, st, [accept], st1) by {
      assert [accept][1..] == [];
    }
    assert Leads(x, ids, st2, [reward], Award(x, st, a)) by {
      assert [reward][1..] == [];
    }
    LeadsOn(x, ids, st1, mid, st2, [reward], Award(x, st, a));
    LeadsOn(x, ids, st, [accept], st1, mid + [reward], Award(x, st, a));
    hops := [accept] + (mid + [reward]);
  }

  // ----- awards are earned -----

  /** On the way from one state to another the achievement passed its check. */
  ghost predicate EarnedBy(x: Context, ids: set<nat>, s: State, hops: seq<Hop>, s': State, i: nat, id: nat) {
    && Leads(x, ids, s, hops, s') && i < |hops| && hops[i].move.Accept? && hops[i].move.a.id == id
    && Accepted(x, hops[i].before, hops[i].move.a, hops[i].after)
  }

  ghost predicate Earned(x: Context, ids: set<nat>, s: State, s': State, id: nat) {
    exists hops, i :: EarnedBy(x, ids, s, hops, s', i, id)
  }

  /** What a hop leaves as it was. */
  lemma {:induction false} Passage(x: Context, ids: set<nat>, s: State, hops: seq<Hop>, s': State)
    requires Leads(x, ids, s, hops, s')
    ensures s.completed.Keys <= s'.completed.Keys && s.realm <= s'.realm
    ensures forall id :: id in s.completed ==> s'.completed[id] == s.completed[id]
    ensures forall id :: id !in ids ==>
              (id in s'.progress <==> id in s.progress) && (id in s.progress ==> s'.progress[id] == s.progress[id])
    decreases |hops|
  {
    if hops == [] {
    } else {
      Passage(x, ids, hops[0].after, hops[1..], s');
    }
  }

  /** Whatever is newly completed was accepted on the way, and bears the date. */
  lemma {:induction false} AcceptedOnTheWay(x: Context, ids: set<nat>, s: State, hops: seq<Hop>, s': State, id: nat) returns (i: nat)
    requires Leads(x, ids, s, hops, s') && id in s'.completed && id !in s.completed
    ensures EarnedBy(x, ids, s, hops, s', i, id) && s'.completed[id] == Completed(x.env.now, true)
    ensures Leads(x, ids, s, hops[..i], hops[i].before)
    decreases |hops|
  {
    assert hops != [];
    if hops[0].move.Accept? && hops[0].move.a.id == id {
      i := 0;
      Passage(x, ids, hops[0].after, hops[1..], s');
    } else {
      var j := AcceptedOnTheWay(x, ids, hops[0].after, hops[1..], s', id);
      i := j + 1;
      assert hops[..i][1..] == hops[1..][..j];
    }
  }

  /** Soundness of awards: every achievement that an update newly completes was accepted by its
      check in a state the update passed through. */
  lemma UpdateEarned(x: Context, st: State, kind: nat)
    requires ValidDbc(x.dbc)
    ensures
      var st' := Update(x, st, kind);
      forall id :: New(st, st', id) ==>
        Earned(x, Ids(OfKind(x.dbc.criteria, kind)) + Linked(x.dbc), st, st', id)
        && st'.completed[id] == Completed(x.env.now, true)
  {
    var cs := OfKind(x.dbc.criteria, kind);
    KindStored(x.dbc, kind);
    var hops := ScanHops(x, st, cs);
    forall id | New(st, Update(x, st, kind), id)
      ensures Earned(x, Ids(cs) + Linked(x.dbc), st, Update(x, st, kind), id)
      ensures Update(x, st, kind).completed[id] == Completed(x.env.now, true)
    {
      var i := AcceptedOnTheWay(x, Ids(cs) + Linked(x.dbc), st, hops, Update(x, st, kind), id);
    }
  }

  // ----- what it takes, in counters -----

  /** A criterion has the count it asks for. */
  predicate Met(st: State, c: Criteria) {
    c.id in st.progress && c.goal.AtLeast? && st.progress[c.id].counter >= c.goal.threshold
  }

  /** The levels of other classes and races never count. */
  predicate Barred(p: Player, c: Criteria, a: Achievement) {
    c.kind == KIND_REACH_LEVEL && a.id in p.barred
  }

  /** How many of the criteria have their count. */
  function MetCount(p: Player, st: State, a: Achievement, cs: seq<Criteria>): nat {
    if cs == [] then 0
    else MetCount(p, st, a, cs[1..]) + if Met(st, cs[0]) && !Barred(p, cs[0], a) then 1 else 0
  }

  /** Nobody in the realm has taken a realm-first achievement yet. */
  predicate Free(st: State, a: Achievement) {
    (a.realmFirstReach || a.realmFirstKill) ==> a.id !in st.realm
  }

  lemma {:induction false} MetDone(p: Player, st: State, a: Achievement, cs: seq<Criteria>)
    requires !a.counter && Free(st, a)
    ensures DoneCount(p, st, a, cs) == MetCount(p, st, a, cs)
    ensures forall c :: c in cs ==> (IsCompletedCriteria(p, st, c, a) <==> Met(st, c) && !Barred(p, c, a))
  {
    if cs == [] {
    } else {
      MetDone(p, st, a, cs[1..]);
    }
  }

  /** The check of an achievement that does not sum accepts exactly when it is no statistic, is
      still free, has criteria, and either all of them or the required number have their count. */
  lemma AcceptsIff(d: Dbc, p: Player, st: State, a: Achievement)
    requires !a.summ
    ensures
      var cs := OfAchievement(d.criteria, TestedId(a));
      IsCompletedAchievement(d, p, st, a) <==>
        && !a.counter && Free(st, a) && cs != []
        && if a.count == 0 then forall c :: c in cs ==> Met(st, c) && !Barred(p, c, a)
           else MetCount(p, st, a, cs) >= a.count
  {
    var cs := OfAchievement(d.criteria, TestedId(a));
    if !a.counter && cs != [] {
      CountReachedMeaning(p, st, a, cs, 0, true);
      if Free(st, a) {
        MetDone(p, st, a, cs);
      } else {
        RealmBlocks(d, p, st, a);
      }
    }
  }

  /** What a caller sees: without sum and required number, an achievement is not newly completed by
      an update while one of the criteria it tests lacks its count before and is of another kind. */
  lemma Unearned(x: Context, st: State, kind: nat, a: Achievement, c: Criteria)
    requires ValidDbc(x.dbc) && Known(x.dbc, a) && !a.summ && a.count == 0 && a.id !in st.completed
    requires c in OfAchievement(x.dbc.criteria, TestedId(a)) && c.kind !in {kind, KIND_COMPLETE_ACHIEVEMENT}
             && !Met(st, c)
    ensures a.id !in Update(x, st, kind).completed
  {
    var st', cs := Update(x, st, kind), OfKind(x.dbc.criteria, kind);
    if a.id in st'.completed {
      KindStored(x.dbc, kind);
      KindStored(x.dbc, KIND_COMPLETE_ACHIEVEMENT);
      TestedStored(x.dbc, TestedId(a));
      var ids := Ids(cs) + Linked(x.dbc);
      var hops := ScanHops(x, st, cs);
      var i := AcceptedOnTheWay(x, ids, st, hops, st', a.id);
      Passage(x, ids, st, hops[..i], hops[i].before);
      assert c.id !in ids by {
        assert forall o :: Stored(x.dbc, o) && o.id == c.id ==> o == c;
      }
      AcceptsIff(x.dbc, x.player, hops[i].before, a);
    }
  }

  /** And the other way round: once all criteria have their counts the achievement is completed. */
  lemma Completes(x: Context, st: State, kind: nat, a: Achievement)
    requires ValidDbc(x.dbc) && Closed(x.dbc, x.player, st) && SafeUpdate(x, st, kind)
    requires Known(x.dbc, a) && !a.summ && a.count == 0 && !a.counter
             && OfAchievement(x.dbc.criteria, TestedId(a)) != []
    ensures
      var st' := Update(x, st, kind);
      Free(st', a) && (forall c :: c in OfAchievement(x.dbc.criteria, TestedId(a)) ==> Met(st', c) && !Barred(x.player, c, a))
      ==> a.id in st'.completed
  {
    UpdateClosed(x, st, kind);
    AcceptsIff(x.dbc, x.player, Update(x, st, kind), a);
  }

  // ----- what an update counts -----

  function Counted(progress: map<nat, Progress>, c: Criteria): nat {
    if c.id in progress then progress[c.id].counter else 0
  }

  /** Where a counter has to go: it is set, or raised up to the most that 32 bits hold, or kept at
      the highest value so far. */
  function Target(mode: Mode, counter: nat, value: nat): nat {
    if mode == Set then value
    else if mode == Highest then (if value > counter then value else counter)
    else if counter + value >= UINT32_LIMIT then UINT32_LIMIT - 1 else counter + value
  }

  /** The time window of a record is over. */
  predicate Over(progress: map<nat, Progress>, c: Criteria, now: nat) {
    c.timeLimit != 0 && c.id in progress && progress[c.id].date + c.timeLimit < now
  }

  /** A counter that need not move is not touched. One that moves is marked for saving; under a time
      limit its window moves on, and when the old one was over it starts again at 1. */
  predicate Moves(before: map<nat, Progress>, after: map<nat, Progress>, c: Criteria, value: nat, mode: Mode, now: nat) {
    if Target(mode, Counted(before, c), value) == Counted(before, c) then
      (c.id in after <==> c.id in before) && (c.id in before ==> after[c.id] == before[c.id])
    else
      && c.id in after && after[c.id].changed
      && after[c.id].counter == (if Over(before, c, now) then 1 else Target(mode, Counted(before, c), value))
      && after[c.id].date == if c.timeLimit == 0 && c.id in before then before[c.id].date else now
  }

  lemma SetProgressMoves(st: State, c: Criteria, value: nat, mode: Mode, now: nat)
    requires value < UINT32_LIMIT && Counted(st.progress, c) < UINT32_LIMIT
    ensures Moves(st.progress, SetProgress(st, c, value, mode, now).progress, c, value, mode, now)
  {
  }

  /** The record of a criterion is the same in both. */
  predicate Same(before: map<nat, Progress>, after: map<nat, Progress>, c: Criteria) {
    (c.id in after <==> c.id in before) && (c.id in before ==> after[c.id] == before[c.id])
  }

  /** Nothing counts for the criterion: it is barred in a group, or its achievement is none of the
      player's side. */
  predicate Excluded(x: Context, c: Criteria) {
    var entry := LookupEntry(x.dbc, c.referred);
    || (c.soloOnly && x.env.inGroup) || entry.None?
    || (entry.value.faction == HordeOnly && x.player.alliance) || (entry.value.faction == AllianceOnly && !x.player.alliance)
  }

  /** The criterion's achievement goes to the first in the realm. */
  predicate RealmFirst(x: Context, c: Criteria) {
    var entry := LookupEntry(x.dbc, c.referred);
    entry.Some? && (entry.value.realmFirstReach || entry.value.realmFirstKill)
  }

  /** An update looks at the criterion: it is not excluded, and it lacks its count for its achievement. */
  predicate Due(x: Context, st: State, c: Criteria) {
    && !Excluded(x, c)
    && var a := LookupEntry(x.dbc, c.referred).value;
       a.counter || !Free(st, a) || !Met(st, c) || Barred(x.player, c, a)
  }

  lemma DueIff(x: Context, st: State, c: Criteria)
    ensures Due(x, st, c) <==> !Skipped(x, st, c)
  {
  }

  /** What the update's own rule says about one criterion. */
  ghost predicate Follows(x: Context, before: map<nat, Progress>, after: map<nat, Progress>, c: Criteria) {
    match x.act(c)
    case Skip => Same(before, after, c)
    case Keep => Same(before, after, c)
    case ResetAndSkip => Moves(before, after, c, 0, Set, x.env.now)
    case Advance(value, mode) => Moves(before, after, c, value, mode, x.env.now)
  }

  /** The rule's values, and the counter, are of 32 bits. */
  predicate Fits32(x: Context, st: State, c: Criteria) {
    Counted(st.progress, c) < UINT32_LIMIT && (x.act(c).Advance? ==> x.act(c).value < UINT32_LIMIT)
  }

  lemma SettleKeeps(x: Context, st: State, c: Criteria, a: Achievement, o: Criteria)
    requires ValidDbc(x.dbc) && Known(x.dbc, a) && Stored(x.dbc, o) && o.kind != KIND_COMPLETE_ACHIEVEMENT
    ensures Same(st.progress, Settle(x, st, c, a).progress, o)
  {
    var hops := SettleHops(x, st, c, a);
    Passage(x, Linked(x.dbc), st, hops, Settle(x, st, c, a));
    KindStored(x.dbc, KIND_COMPLETE_ACHIEVEMENT);
    assert forall l :: Stored(x.dbc, l) && l.id == o.id ==> l == o;
  }

  lemma VisitCounts(x: Context, st: State, c: Criteria)
    requires ValidDbc(x.dbc) && Stored(x.dbc, c) && c.kind != KIND_COMPLETE_ACHIEVEMENT && Due(x, st, c)
             && Fits32(x, st, c)
    ensures Follows(x, st.progress, Visit(x, st, c).progress, c)
  {
    DueIff(x, st, c);
    var a := LookupEntry(x.dbc, c.referred).value;
    match x.act(c) {
      case Skip =>
      case ResetAndSkip => SetProgressMoves(st, c, 0, Set, x.env.now);
      case Keep => SettleKeeps(x, st, c, a, c);
      case Advance(value, mode) =>
        SetProgressMoves(st, c, value, mode, x.env.now);
        var st1 := SetProgress(st, c, value, mode, x.env.now);
        OpenShrinks(x.dbc, st, st1);
        SettleKeeps(x, st1, c, a, c);
    }
  }

  /** A turn for one criterion does not move the counter of another, nor make it less due. */
  lemma VisitApart(x: Context, st: State, c: Criteria, o: Criteria)
    requires ValidDbc(x.dbc) && Stored(x.dbc, c) && Stored(x.dbc, o) && o != c && o.kind != KIND_COMPLETE_ACHIEVEMENT
    ensures Same(st.progress, Visit(x, st, c).progress, o)
    ensures Due(x, st, o) ==> Due(x, Visit(x, st, c), o)
  {
    var hops := VisitHops(x, st, c);
    Passage(x, {c.id} + Linked(x.dbc), st, hops, Visit(x, st, c));
    KindStored(x.dbc, KIND_COMPLETE_ACHIEVEMENT);
    assert forall l :: Stored(x.dbc, l) && l.id == o.id ==> l == o;
  }

  lemma {:induction false} ScanApart(x: Context, st: State, cs: seq<Criteria>, o: Criteria)
    requires ValidDbc(x.dbc) && (forall c :: c in cs ==> Stored(x.dbc, c)) && o !in cs
    requires Stored(x.dbc, o) && o.kind != KIND_COMPLETE_ACHIEVEMENT
    ensures Same(st.progress, Scan(x, st, cs).progress, o)
    decreases |cs|
  {
    if cs == [] {
    } else {
      assert cs[0] in cs;
      OpenShrinks(x.dbc, st, Visit(x, st, cs[0]));
      VisitApart(x, st, cs[0], o);
      ScanApart(x, Visit(x, st, cs[0]), cs[1..], o);
    }
  }

  lemma {:induction false} ScanCounts(x: Context, st: State, cs: seq<Criteria>, c: Criteria)
    requires ValidDbc(x.dbc) && Distinct(cs) && (forall o :: o in cs ==> Stored(x.dbc, o)) && c in cs
    requires c.kind != KIND_COMPLETE_ACHIEVEMENT && Due(x, st, c) && Fits32(x, st, c)
    ensures Follows(x, st.progress, Scan(x, st, cs).progress, c)
    decreases |cs|
  {
    var st1 := Visit(x, st, cs[0]);
    assert cs[0] in cs;
    OpenShrinks(x.dbc, st, st1);
    if cs[0] == c {
      VisitCounts(x, st, c);
      assert c !in cs[1..];
      ScanApart(x, st1, cs[1..], c);
    } else {
      VisitApart(x, st, cs[0], c);
      ScanCounts(x, st1, cs[1..], c);
    }
  }

  /** Every criterion of the updated kind that is due has its counter moved as the rule says, once,
      whatever is completed in between. */
  lemma UpdateCounts(x: Context, st: State, kind: nat, c: Criteria)
    requires ValidDbc(x.dbc) && Stored(x.dbc, c) && c.kind == kind != KIND_COMPLETE_ACHIEVEMENT
    requires Due(x, st, c) && Fits32(x, st, c)
    ensures Follows(x, st.progress, Update(x, st, kind).progress, c)
  {
    KindStored(x.dbc, kind);
    OfKindDistinct(x.dbc, kind, |x.dbc.criteria|);
    assert x.dbc.criteria[..|x.dbc.criteria|] == x.dbc.criteria;
    ScanCounts(x, st, OfKind(x.dbc.criteria, kind), c);
  }

  /** And no other counter moves but those of linked criteria. */
  lemma UpdateApart(x: Context, st: State, kind: nat, c: Criteria)
    requires ValidDbc(x.dbc) && Stored(x.dbc, c) && c.kind !in {kind, KIND_COMPLETE_ACHIEVEMENT}
    ensures Same(st.progress, Update(x, st, kind).progress, c)
  {
    KindStored(x.dbc, kind);
    ScanApart(x, st, OfKind(x.dbc.criteria, kind), c);
  }

  /** What the update leaves alone: criteria that are excluded, and those already met, unless the
      realm may learn in mid-scan that the achievement is taken. */
  lemma UpdateSkips(x: Context, st: State, kind: nat, c: Criteria)
    requires ValidDbc(x.dbc) && Stored(x.dbc, c) && c.kind == kind != KIND_COMPLETE_ACHIEVEMENT
    requires !Due(x, st, c) && (RealmFirst(x, c) ==> Excluded(x, c))
    ensures Same(st.progress, Update(x, st, kind).progress, c)
  {
    KindStored(x.dbc, kind);
    OfKindDistinct(x.dbc, kind, |x.dbc.criteria|);
    assert x.dbc.criteria[..|x.dbc.criteria|] == x.dbc.criteria;
    ScanSkips(x, st, OfKind(x.dbc.criteria, kind), c);
  }

  lemma {:induction false} ScanSkips(x: Context, st: State, cs: seq<Criteria>, c: Criteria)
    requires ValidDbc(x.dbc) && Distinct(cs) && (forall o :: o in cs ==> Stored(x.dbc, o)) && Stored(x.dbc, c)
    requires c.kind != KIND_COMPLETE_ACHIEVEMENT && !Due(x, st, c) && (RealmFirst(x, c) ==> Excluded(x, c))
    ensures Same(st.progress, Scan(x, st, cs).progress, c)
    decreases |cs|
  {
    if cs == [] {
    } else {
      assert cs[0] in cs;
      OpenShrinks(x.dbc, st, Visit(x, st, cs[0]));
      if cs[0] == c {
        DueIff(x, st, c);
        assert Visit(x, st, c) == st;
      } else {
        VisitApart(x, st, cs[0], c);
      }
      ScanSkips(x, Visit(x, st, cs[0]), cs[1..], c);
    }
  }

  // ----- what a reset counts -----

  /** A reset may take the criterion back: it is of a kind that can be reset, the fields match, and
      it lacks its count for its achievement. */
  predicate ResetDue(d: Dbc, p: Player, hit: Criteria -> bool, st: State, c: Criteria) {
    var entry := LookupEntry(d, c.referred);
    && c.kind in {KIND_DAMAGE_DONE, KIND_HEALING_DONE, KIND_WIN_RATED_ARENA} && hit(c) && entry.Some?
    && (entry.value.counter || !Free(st, entry.value) || !Met(st, c) || Barred(p, c, entry.value))
  }

  lemma {:induction false} ResetCounts(d: Dbc, p: Player, now: nat, hit: Criteria -> bool, st: State, cs: seq<Criteria>, c: Criteria)
    requires ValidDbc(d) && Distinct(cs) && (forall o :: o in cs ==> Stored(d, o)) && Stored(d, c)
    requires Counted(st.progress, c) < UINT32_LIMIT
    ensures
      var st' := ResetScan(d, p, now, hit, st, cs);
      && st'.completed == st.completed && st'.realm == st.realm
      && if c in cs && ResetDue(d, p, hit, st, c) then Moves(st.progress, st'.progress, c, 0, Set, now)
         else Same(st.progress, st'.progress, c)
    decreases |cs|
  {
    if cs == [] {
    } else {
      var st1 := ResetOne(d, p, now, hit, st, cs[0]);
      assert cs[0] in cs;
      if cs[0] == c {
        SetProgressMoves(st, c, 0, Set, now);
        assert c !in cs[1..];
        ResetApart(d, p, now, hit, st1, cs[1..], c);
      } else {
        assert cs[0].id != c.id;
        ResetCounts(d, p, now, hit, st1, cs[1..], c);
      }
    }
  }

  lemma {:induction false} ResetApart(d: Dbc, p: Player, now: nat, hit: Criteria -> bool, st: State, cs: seq<Criteria>, c: Criteria)
    requires ValidDbc(d) && (forall o :: o in cs ==> Stored(d, o)) && Stored(d, c) && c !in cs
    ensures
      var st' := ResetScan(d, p, now, hit, st, cs);
      st'.completed == st.completed && st'.realm == st.realm && Same(st.progress, st'.progress, c)
    decreases |cs|
  {
    if cs == [] {
    } else {
      assert cs[0] in cs && cs[0].id != c.id;
      ResetApart(d, p, now, hit, ResetOne(d, p, now, hit, st, cs[0]), cs[1..], c);
    }
  }

  // ----- whole runs -----

  /** Some update of the run accepted the achievement for this character. */
  ghost predicate EarnedInRun(d: Dbc, r: R.Realm, es: seq<R.Event>, i: nat, id: nat)
    requires ValidDbc(d)
    decreases |es|
  {
    es != [] && i < |r.accounts| && (EarnedInStep(d, r, es[0], i, id) || EarnedInRun(d, R.Apply(d, r, es[0]), es[1..], i, id))
  }

  ghost predicate EarnedInStep(d: Dbc, r: R.Realm, e: R.Event, i: nat, id: nat)
    requires ValidDbc(d) && i < |r.accounts|
  {
    && e.Updated? && e.who == i && i < |R.Apply(d, r, e).accounts|
    && Earned(R.UpdateContext(d, r, i, e.act, e.inGroup), Ids(OfKind(d.criteria, e.kind)) + Linked(d),
              R.View(r, i), R.View(R.Apply(d, r, e), i), id)
  }

  lemma StepEarned(d: Dbc, r: R.Realm, e: R.Event, i: nat, id: nat)
    requires ValidDbc(d) && R.RealmOk(d, r, false) && i < |r.accounts|
    ensures i < |R.Apply(d, r, e).accounts|
    ensures id in R.Apply(d, r, e).accounts[i].completed && id !in r.accounts[i].completed ==> EarnedInStep(d, r, e, i, id)
  {
    match e {
      case Elapsed(_) =>
      case Updated(k, kind, act, inGroup) =>
        if k == i {
          UpdateEarned(R.UpdateContext(d, r, i, act, inGroup), R.View(r, i), kind);
          assert R.View(R.Apply(d, r, e), i) == Update(R.UpdateContext(d, r, i, act, inGroup), R.View(r, i), kind);
        }
      case Reset(k, kind, hit) =>
        if k < |r.accounts| {
          KindStored(d, kind);
          ResetRecords(d, r.accounts[k].player, r.clock, hit, R.View(r, k), OfKind(d.criteria, kind));
        }
      case Saving(_) =>
      case Relogged(k) =>
        if k < |r.accounts| {
          assert R.AccountOk(d, r, k, false);
          R.LoadedOk(d, r.accounts[k].player, r.accounts[k].db, R.View(r, k), r.clock, false);
        }
    }
  }

  lemma {:induction false} ResetRecords(d: Dbc, p: Player, now: nat, hit: Criteria -> bool, st: State, cs: seq<Criteria>)
    ensures ResetScan(d, p, now, hit, st, cs).completed == st.completed
    decreases |cs|
  {
    if cs == [] {
    } else {
      ResetRecords(d, p, now, hit, ResetOne(d, p, now, hit, st, cs[0]), cs[1..]);
    }
  }

  /** Over any interleaving of many characters' updates, resets, saves and re-logins nobody holds an
      achievement that it did not hold before and that no update of its own had accepted. */
  lemma {:induction false} RunEarned(d: Dbc, r: R.Realm, es: seq<R.Event>, i: nat, id: nat)
    requires ValidDbc(d) && R.RealmOk(d, r, false) && i < |r.accounts|
    ensures i < |R.Run(d, r, es).accounts|
    ensures id in R.Run(d, r, es).accounts[i].completed && id !in r.accounts[i].completed ==> EarnedInRun(d, r, es, i, id)
    decreases |es|
  {
    if es == [] {
    } else {
      StepEarned(d, r, es[0], i, id);
      R.ApplyOk(d, r, es[0], false);
      RunEarned(d, R.Apply(d, r, es[0]), es[1..], i, id);
    }
  }
}
