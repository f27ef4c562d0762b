/** Completion is closed: an update leaves no achievement behind that the completion check
    would accept, and no linked criterion behind whose achievement is completed. */
module AchievementClosure {
  import opened Options
  import opened AchievementStore
  import opened AchievementEngine
  import opened AchievementLedger

  /** Every acceptable achievement outside a set is recorded as completed. */
  ghost predicate ClosedExcept(d: Dbc, p: Player, st: State, pending: set<nat>) {
    forall a :: Known(d, a) && a.id !in pending && IsCompletedAchievement(d, p, st, a) ==> a.id in st.completed
  }

  ghost predicate Closed(d: Dbc, p: Player, st: State) {
    ClosedExcept(d, p, st, {})
  }

  /** The achievements whose check reads the criteria of achievement `id`. */
  ghost function Dependents(d: Dbc, id: nat): set<nat> {
    {id} + Borrowers(Referencing(d.achievements, id))
  }

  ghost function Borrowers(list: seq<Achievement>): set<nat> {
    set a | a in list :: a.id
  }

  // ----- the checks are monotone in what is done -----

  lemma {:induction false} CountMonotone(
      p: Player, st: State, st': State, a: Achievement, cs: seq<Criteria>, n: nat, n': nat, all: bool, all': bool)
    requires forall c :: c in cs && IsCompletedCriteria(p, st', c, a) ==> IsCompletedCriteria(p, st, c, a)
    requires n' <= n && (all' ==> all)
    requires CountReached(p, st', a, cs, n', all')
    ensures CountReached(p, st, a, cs, n, all)
  {
    if cs == [] {
    } else {
      var done, done' := IsCompletedCriteria(p, st, cs[0], a), IsCompletedCriteria(p, st', cs[0], a);
      assert done' ==> done by { assert cs[0] in cs; }
      var m, m' := if done then n + 1 else n, if done' then n' + 1 else n';
      if !(0 < a.count <= m') {
        CountMonotone(p, st, st', a, cs[1..], m, m', all && done, all' && done');
      }
    }
  }

  lemma {:induction false} SummFrame(progress: map<nat, Progress>, progress': map<nat, Progress>, cs: seq<Criteria>, sum: nat)
    requires forall c :: c in cs ==> (c.id in progress <==> c.id in progress')
    requires forall c :: c in cs && c.id in progress ==> progress[c.id].counter == progress'[c.id].counter
    ensures SummReached(progress, cs, sum) == SummReached(progress', cs, sum)
  {
    if cs == [] {
    } else {
      assert cs[0] in cs;
      if cs[0].id !in progress {
        SummFrame(progress, progress', cs[1..], sum);
      } else {
        SummFrame(progress, progress', cs[1..], (sum + progress[cs[0].id].counter) % UINT32_LIMIT);
      }
    }
  }

  ghost predicate SameCounters(st: State, st': State, cs: seq<Criteria>) {
    forall c :: c in cs ==>
      (c.id in st.progress <==> c.id in st'.progress)
      && (c.id in st.progress ==> st.progress[c.id].counter == st'.progress[c.id].counter)
  }

  /** A check that accepts now did so before, when its criteria are no further along and,
      for a summing one, count the same. */
  lemma AcceptMonotone(d: Dbc, p: Player, st: State, st': State, a: Achievement)
    requires forall c :: c in OfAchievement(d.criteria, TestedId(a)) && IsCompletedCriteria(p, st', c, a)
               ==> IsCompletedCriteria(p, st, c, a)
    requires a.summ ==> SameCounters(st, st', OfAchievement(d.criteria, TestedId(a)))
    requires IsCompletedAchievement(d, p, st', a)
    ensures IsCompletedAchievement(d, p, st, a)
  {
    var cs := OfAchievement(d.criteria, TestedId(a));
    if a.summ {
      SummFrame(st.progress, st'.progress, cs, 0);
    } else {
      CountMonotone(p, st, st', a, cs, 0, 0, true, true);
    }
  }

  /** Same counters, larger completed and realm sets: closure survives. */
  lemma ClosedGrow(d: Dbc, p: Player, st: State, st': State, pending: set<nat>)
    requires ClosedExcept(d, p, st, pending)
    requires st.progress == st'.progress && st.completed.Keys <= st'.completed.Keys && st.realm <= st'.realm
    ensures ClosedExcept(d, p, st', pending)
  {
    forall a | Known(d, a) && a.id !in pending && IsCompletedAchievement(d, p, st', a)
      ensures a.id in st'.completed
    {
      AcceptMonotone(d, p, st, st', a);
    }
  }

  // ----- one counter moves -----

  /** Moving the counter of one criterion can only make its dependents acceptable. */
  lemma ClosedSetProgress(d: Dbc, p: Player, st: State, c: Criteria, value: nat, mode: Mode, now: nat, pending: set<nat>)
    requires ValidDbc(d) && Stored(d, c) && ClosedExcept(d, p, st, pending)
    ensures ClosedExcept(d, p, SetProgress(st, c, value, mode, now), pending + Dependents(d, c.referred))
  {
    var st' := SetProgress(st, c, value, mode, now);
    forall a | Known(d, a) && a.id !in pending + Dependents(d, c.referred) && IsCompletedAchievement(d, p, st', a)
      ensures a.id in st'.completed
    {
      UntouchedCriteria(d, c, a);
      AcceptMonotone(d, p, st, st', a);
    }
  }

  lemma UntouchedCriteria(d: Dbc, c: Criteria, a: Achievement)
    requires ValidDbc(d) && Stored(d, c) && Known(d, a) && a.id !in Dependents(d, c.referred)
    ensures forall x :: x in OfAchievement(d.criteria, TestedId(a)) ==> x.id != c.id
  {
    ReferencingKnown(d, c.referred);
    assert a.refAchievement == c.referred && c.referred != 0 ==> a in Referencing(d.achievements, c.referred);
    TestedStored(d, TestedId(a));
  }

  /** When the criterion is unfinished before and after, its own non-summing achievement
      is no more acceptable than before. */
  lemma ClosedOwn(d: Dbc, p: Player, st: State, c: Criteria, a: Achievement, value: nat, mode: Mode, now: nat, pending: set<nat>)
    requires ValidDbc(d) && Stored(d, c) && Known(d, a) && a.id == c.referred && !a.summ
    requires ClosedExcept(d, p, st, pending)
    requires !IsCompletedCriteria(p, SetProgress(st, c, value, mode, now), c, a)
    ensures ClosedExcept(d, p, SetProgress(st, c, value, mode, now), pending + Borrowers(Referencing(d.achievements, a.id)))
  {
    var st' := SetProgress(st, c, value, mode, now);
    ClosedSetProgress(d, p, st, c, value, mode, now, pending);
    forall b | Known(d, b) && b.id !in pending + Borrowers(Referencing(d.achievements, a.id))
               && IsCompletedAchievement(d, p, st', b)
      ensures b.id in st'.completed
    {
      if b.id == a.id {
        TestedStored(d, TestedId(a));
        AcceptMonotone(d, p, st, st', a);
      }
    }
  }

  // ----- the recursion -----

  lemma {:induction false} ScanClosed(x: Context, st: State, cs: seq<Criteria>, pending: set<nat>)
    requires ValidDbc(x.dbc) && (forall c :: c in cs ==> Stored(x.dbc, c) && SafeReset(x, c))
    requires ClosedExcept(x.dbc, x.player, st, pending)
    ensures ClosedExcept(x.dbc, x.player, Scan(x, st, cs), pending)
    decreases |Open(x.dbc, st)|, 5, |cs|
  {
    if cs == [] {
    } else {
      VisitClosed(x, st, cs[0], pending);
      OpenShrinks(x.dbc, st, Visit(x, st, cs[0]));
      ScanClosed(x, Visit(x, st, cs[0]), cs[1..], pending);
    }
  }

  /** A reset inside an update is followed by no completion check, so its criterion must
      not be one that a summing achievement adds up with wrap-around. */
  ghost predicate SafeReset(x: Context, c: Criteria) {
    c.kind != KIND_COMPLETE_ACHIEVEMENT && x.act(c) == ResetAndSkip ==> NotSummed(x.dbc, c)
  }

  ghost predicate NotSummed(d: Dbc, c: Criteria) {
    forall a :: Known(d, a) && TestedId(a) == c.referred ==> !a.summ
  }

  lemma VisitClosed(x: Context, st: State, c: Criteria, pending: set<nat>)
    requires ValidDbc(x.dbc) && Stored(x.dbc, c) && SafeReset(x, c)
    requires ClosedExcept(x.dbc, x.player, st, pending)
    ensures ClosedExcept(x.dbc, x.player, Visit(x, st, c), pending)
    decreases |Open(x.dbc, st)|, 4, 0
  {
    if !Skipped(x, st, c) {
      var a := LookupEntry(x.dbc, c.referred).value;
      match ActionFor(x.act, st, c) {
        case Skip =>
        case ResetAndSkip =>
          ClosedReset(x.dbc, x.player, st, c, x.env.now, pending);
        case Keep =>
          SettleClosed(x, st, c, a, pending);
        case Advance(value, mode) =>
          var st1 := SetProgress(st, c, value, mode, x.env.now);
          OpenShrinks(x.dbc, st, st1);
          if a.summ || IsCompletedCriteria(x.player, st1, c, a) {
            ClosedSetProgress(x.dbc, x.player, st, c, value, mode, x.env.now, pending);
          } else {
            ClosedOwn(x.dbc, x.player, st, c, a, value, mode, x.env.now, pending);
          }
          SettleClosed(x, st1, c, a, pending);
      }
    }
  }

  /** A reset never takes a counter up, so nothing becomes acceptable by it. */
  lemma ClosedReset(d: Dbc, p: Player, st: State, c: Criteria, now: nat, pending: set<nat>)
    requires ValidDbc(d) && Stored(d, c) && NotSummed(d, c) && ClosedExcept(d, p, st, pending)
    ensures ClosedExcept(d, p, SetProgress(st, c, 0, Set, now), pending)
  {
    var st' := SetProgress(st, c, 0, Set, now);
    forall a | Known(d, a) && a.id !in pending && IsCompletedAchievement(d, p, st', a)
      ensures a.id in st'.completed
    {
      TestedStored(d, TestedId(a));
      AcceptMonotone(d, p, st, st', a);
    }
  }

  lemma SettleClosed(x: Context, st: State, c: Criteria, a: Achievement, pending: set<nat>)
    requires ValidDbc(x.dbc) && Known(x.dbc, a)
    requires ClosedExcept(x.dbc, x.player, st, pending + Borrowers(Referencing(x.dbc.achievements, a.id)) +
                          if a.summ || IsCompletedCriteria(x.player, st, c, a) then {a.id} else {})
    ensures ClosedExcept(x.dbc, x.player, Settle(x, st, c, a), pending)
    decreases |Open(x.dbc, st)|, 3, 0
  {
    var list := Referencing(x.dbc.achievements, a.id);
    var rest := pending + Borrowers(list);
    var due := if a.summ then {a.id} else {};
    var st1 := if IsCompletedCriteria(x.player, st, c, a) && !a.counter && a.id !in st.completed
               then Check(x, st, a) else st;
    assert ClosedExcept(x.dbc, x.player, st1, rest + due) by {
      if IsCompletedCriteria(x.player, st, c, a) && !a.counter && a.id !in st.completed {
        CheckClosed(x, st, a, rest + due);
      }
    }
    OpenShrinks(x.dbc, st, st1);
    var st2 := if a.summ then Check(x, st1, a) else st1;
    if a.summ { CheckClosed(x, st1, a, rest); }
    OpenShrinks(x.dbc, st1, st2);
    ReferencingKnown(x.dbc, a.id);
    CheckAllClosed(x, st2, list, pending);
  }

  lemma {:induction false} CheckAllClosed(x: Context, st: State, candidates: seq<Achievement>, pending: set<nat>)
    requires ValidDbc(x.dbc) && (forall a :: a in candidates ==> Known(x.dbc, a))
    requires ClosedExcept(x.dbc, x.player, st, pending + Borrowers(candidates))
    ensures ClosedExcept(x.dbc, x.player, CheckAll(x, st, candidates), pending)
    decreases |Open(x.dbc, st)|, 2, |candidates|
  {
    if candidates == [] {
      assert pending + Borrowers(candidates) == pending;
    } else {
      var st1 := Check(x, st, candidates[0]);
      OpenShrinks(x.dbc, st, st1);
      var rest := pending + Borrowers(candidates[1..]);
      assert pending + Borrowers(candidates) == rest + {candidates[0].id};
      CheckClosed(x, st, candidates[0], rest);
      CheckAllClosed(x, st1, candidates[1..], pending);
    }
  }

  /** A check settles one pending achievement. */
  lemma CheckClosed(x: Context, st: State, a: Achievement, pending: set<nat>)
    requires ValidDbc(x.dbc) && Known(x.dbc, a)
    requires ClosedExcept(x.dbc, x.player, st, pending + {a.id})
    ensures ClosedExcept(x.dbc, x.player, Check(x, st, a), pending)
    decreases |Open(x.dbc, st)|, 1, 0
  {
    if IsCompletedAchievement(x.dbc, x.player, st, a) && a.id !in st.completed {
      AwardClosed(x, st, a, pending);
    }
  }

  lemma AwardClosed(x: Context, st: State, a: Achievement, pending: set<nat>)
    requires ValidDbc(x.dbc) && Known(x.dbc, a) && !a.counter && a.id !in st.completed
    requires ClosedExcept(x.dbc, x.player, st, pending + {a.id})
    ensures ClosedExcept(x.dbc, x.player, Award(x, st, a), pending)
    decreases |Open(x.dbc, st)|, 0, 0
  {
    var st1 := Record(st, a, x.env.now);
    var linked := OfKind(x.dbc.criteria, KIND_COMPLETE_ACHIEVEMENT);
    ClosedGrow(x.dbc, x.player, st, st1, pending + {a.id});
    assert ClosedExcept(x.dbc, x.player, st1, pending);
    OpenShrinks(x.dbc, st, st1);
    assert a.id in Open(x.dbc, st);
    KindStored(x.dbc, KIND_COMPLETE_ACHIEVEMENT);
    ScanClosed(x, st1, linked, pending);
    ClosedGrow(x.dbc, x.player, Scan(x, st1, linked), Award(x, st, a), pending);
  }

  /** Linked criteria never get further than 1, or than they were. */
  ghost predicate LinksLow(d: Dbc, st: State, st': State) {
    forall c :: Stored(d, c) && c.kind == KIND_COMPLETE_ACHIEVEMENT ==> Counter(st'.progress, c) <= Max(1, Counter(st.progress, c))
  }

  function Max(a: nat, b: nat): nat {
    if a < b then b else a
  }

  function Counter(progress: map<nat, Progress>, c: Criteria): nat {
    if c.id in progress then progress[c.id].counter else 0
  }

  lemma {:induction false} ScanLow(x: Context, st: State, cs: seq<Criteria>)
    requires ValidDbc(x.dbc) && (forall c :: c in cs ==> Stored(x.dbc, c) && c.kind == KIND_COMPLETE_ACHIEVEMENT)
    ensures LinksLow(x.dbc, st, Scan(x, st, cs))
    decreases |Open(x.dbc, st)|, 5, |cs|
  {
    if cs == [] {
    } else {
      var st1 := Visit(x, st, cs[0]);
      OpenShrinks(x.dbc, st, st1);
      LinkLow(x, st, cs[0]);
      ScanLow(x, st1, cs[1..]);
    }
  }

  lemma LinkLow(x: Context, st: State, c: Criteria)
    requires ValidDbc(x.dbc) && Stored(x.dbc, c) && c.kind == KIND_COMPLETE_ACHIEVEMENT
    ensures LinksLow(x.dbc, st, Visit(x, st, c))
    decreases |Open(x.dbc, st)|, 4, 0
  {
    if !Skipped(x, st, c) {
      var a := LookupEntry(x.dbc, c.referred).value;
      if c.linked in st.completed {
        var st1 := SetProgress(st, c, 1, Set, x.env.now);
        SetLow(x.dbc, st, c, x.env.now);
        OpenShrinks(x.dbc, st, st1);
        SettleLow(x, st1, c, a);
      } else {
        SettleLow(x, st, c, a);
      }
    }
  }

  lemma SetLow(d: Dbc, st: State, c: Criteria, now: nat)
    requires ValidDbc(d) && Stored(d, c)
    ensures LinksLow(d, st, SetProgress(st, c, 1, Set, now))
  {
  }

  lemma SettleLow(x: Context, st: State, c: Criteria, a: Achievement)
    requires ValidDbc(x.dbc) && Known(x.dbc, a)
    ensures LinksLow(x.dbc, st, Settle(x, st, c, a))
    decreases |Open(x.dbc, st)|, 3, 0
  {
    var st1 := if IsCompletedCriteria(x.player, st, c, a) && !a.counter && a.id !in st.completed
               then Check(x, st, a) else st;
    if st1 != st { AwardLow(x, st, a); }
    OpenShrinks(x.dbc, st, st1);
    var st2 := if a.summ then Check(x, st1, a) else st1;
    if st2 != st1 { AwardLow(x, st1, a); }
    OpenShrinks(x.dbc, st1, st2);
    ReferencingKnown(x.dbc, a.id);
    CheckAllLow(x, st2, Referencing(x.dbc.achievements, a.id));
  }

  lemma {:induction false} CheckAllLow(x: Context, st: State, candidates: seq<Achievement>)
    requires ValidDbc(x.dbc) && (forall a :: a in candidates ==> Known(x.dbc, a))
    ensures LinksLow(x.dbc, st, CheckAll(x, st, candidates))
    decreases |Open(x.dbc, st)|, 2, |candidates|
  {
    if candidates == [] {
    } else {
      var st1 := Check(x, st, candidates[0]);
      OpenShrinks(x.dbc, st, st1);
      if st1 != st { AwardLow(x, st, candidates[0]); }
      CheckAllLow(x, st1, candidates[1..]);
    }
  }

  lemma AwardLow(x: Context, st: State, a: Achievement)
    requires ValidDbc(x.dbc) && Known(x.dbc, a)
    ensures LinksLow(x.dbc, st, Award(x, st, a))
    decreases |Open(x.dbc, st)|, 0, 0
  {
    if !a.counter && a.id !in st.completed {
      var st1 := Record(st, a, x.env.now);
      OpenShrinks(x.dbc, st, st1);
      assert a.id in Open(x.dbc, st);
      KindStored(x.dbc, KIND_COMPLETE_ACHIEVEMENT);
      ScanLow(x, st1, OfKind(x.dbc.criteria, KIND_COMPLETE_ACHIEVEMENT));
    }
  }

  // ----- resets inside an update -----

  /** How far one action can take a counter: a new record takes the value as it is. */
  function Furthest(mode: Mode, now: nat, value: nat): nat {
    Max(value, Combine(mode, now, value))
  }

  /** How far a criterion can get while a scan over cs is under way: a linked one to 1, and one of
      cs to where its own action takes it. */
  function Ceiling(x: Context, st: State, cs: seq<Criteria>, c: Criteria): nat {
    var now := Counter(st.progress, c);
    if c.kind == KIND_COMPLETE_ACHIEVEMENT then Max(1, now)
    else if c in cs && x.act(c).Advance? then Max(now, Furthest(x.act(c).mode, now, x.act(c).value))
    else now
  }

  function Ceilings(x: Context, st: State, cs: seq<Criteria>, list: seq<Criteria>): nat {
    if list == [] then 0 else Ceiling(x, st, cs, list[0]) + Ceilings(x, st, cs, list[1..])
  }

  /** Even so no summing achievement's total leaves 32 bits. */
  ghost predicate Room(x: Context, st: State, cs: seq<Criteria>) {
    forall a :: Known(x.dbc, a) && a.summ ==> Ceilings(x, st, cs, OfAchievement(x.dbc.criteria, TestedId(a))) < UINT32_LIMIT
  }

  lemma {:induction false} CeilingsFall(x: Context, st: State, cs: seq<Criteria>, st': State, cs': seq<Criteria>, list: seq<Criteria>)
    requires forall c :: c in list ==> Ceiling(x, st', cs', c) <= Ceiling(x, st, cs, c)
    ensures Ceilings(x, st', cs', list) <= Ceilings(x, st, cs, list)
  {
    if list == [] {
    } else {
      assert list[0] in list;
      CeilingsFall(x, st, cs, st', cs', list[1..]);
    }
  }

  lemma {:induction false} TotalUnder(x: Context, st: State, cs: seq<Criteria>, list: seq<Criteria>)
    ensures Total(st.progress, list) <= Ceilings(x, st, cs, list)
  {
    if list == [] {
    } else {
      TotalUnder(x, st, cs, list[1..]);
    }
  }

  lemma RoomNoWrap(x: Context, st: State, cs: seq<Criteria>)
    requires Room(x, st, cs)
    ensures NoWrap(x.dbc, st)
  {
    forall a | Known(x.dbc, a) && a.summ ensures Total(st.progress, OfAchievement(x.dbc.criteria, TestedId(a))) < UINT32_LIMIT {
      TotalUnder(x, st, cs, OfAchievement(x.dbc.criteria, TestedId(a)));
    }
  }

  /** The action of a criterion takes it no further than its ceiling. */
  lemma SetUnder(st: State, c: Criteria, value: nat, mode: Mode, now: nat)
    ensures
      var before := Counter(st.progress, c);
      Counter(SetProgress(st, c, value, mode, now).progress, c) <= Max(before, Furthest(mode, before, value))
  {
  }

  /** One turn of the scan: its own criterion moves as told, linked ones to 1, and no other. */
  lemma VisitUnder(x: Context, st: State, cs: seq<Criteria>, o: Criteria)
    requires ValidDbc(x.dbc) && cs != [] && Stored(x.dbc, cs[0]) && cs[0].kind != KIND_COMPLETE_ACHIEVEMENT
    requires Stored(x.dbc, o) && cs[0] !in cs[1..]
    ensures Ceiling(x, Visit(x, st, cs[0]), cs[1..], o) <= Ceiling(x, st, cs, o)
  {
    var c := cs[0];
    if !Skipped(x, st, c) {
      var a := LookupEntry(x.dbc, c.referred).value;
      match ActionFor(x.act, st, c) {
        case Skip =>
        case ResetAndSkip => OwnUnder(x, st, cs, 0, Set, o);
        case Keep => RestUnder(x, st, c, a, o);
        case Advance(value, mode) =>
          OwnUnder(x, st, cs, value, mode, o);
          RestUnder(x, SetProgress(st, c, value, mode, x.env.now), c, a, o);
      }
    }
  }

  lemma OwnUnder(x: Context, st: State, cs: seq<Criteria>, value: nat, mode: Mode, o: Criteria)
    requires ValidDbc(x.dbc) && cs != [] && Stored(x.dbc, cs[0]) && cs[0].kind != KIND_COMPLETE_ACHIEVEMENT
    requires Stored(x.dbc, o) && cs[0] !in cs[1..]
    requires x.act(cs[0]) == Advance(value, mode) || (value == 0 && mode == Set)
    ensures Ceiling(x, SetProgress(st, cs[0], value, mode, x.env.now), cs[1..], o) <= Ceiling(x, st, cs, o)
  {
    SetUnder(st, cs[0], value, mode, x.env.now);
    if o.id == cs[0].id {
      assert o == cs[0];
    } else {
      assert o in cs[1..] <==> o in cs;
    }
  }

  lemma RestUnder(x: Context, st: State, c: Criteria, a: Achievement, o: Criteria)
    requires ValidDbc(x.dbc) && Known(x.dbc, a) && Stored(x.dbc, o)
    ensures
      var st' := Settle(x, st, c, a);
      if o.kind == KIND_COMPLETE_ACHIEVEMENT then Counter(st'.progress, o) <= Max(1, Counter(st.progress, o))
      else Counter(st'.progress, o) == Counter(st.progress, o)
  {
    SettleLow(x, st, c, a);
    SettleEvolves(x, st, c, a, {KIND_COMPLETE_ACHIEVEMENT});
  }

  lemma RoomStays(x: Context, st: State, cs: seq<Criteria>)
    requires ValidDbc(x.dbc) && cs != [] && Stored(x.dbc, cs[0]) && cs[0].kind != KIND_COMPLETE_ACHIEVEMENT && cs[0] !in cs[1..]
    requires Room(x, st, cs)
    ensures Room(x, Visit(x, st, cs[0]), cs[1..])
  {
    var st' := Visit(x, st, cs[0]);
    forall a | Known(x.dbc, a) && a.summ
      ensures Ceilings(x, st', cs[1..], OfAchievement(x.dbc.criteria, TestedId(a))) < UINT32_LIMIT
    {
      var list := OfAchievement(x.dbc.criteria, TestedId(a));
      TestedStored(x.dbc, TestedId(a));
      forall o | o in list ensures Ceiling(x, st', cs[1..], o) <= Ceiling(x, st, cs, o) {
        VisitUnder(x, st, cs, o);
      }
      CeilingsFall(x, st, cs, st', cs[1..], list);
    }
  }

  ghost predicate Distinct(cs: seq<Criteria>) {
    forall i, j :: 0 <= i < j < |cs| ==> cs[i] != cs[j]
  }

  /** A scan that may reset criteria that are summed, as long as there is room. */
  lemma {:induction false} ScanRoomClosed(x: Context, st: State, cs: seq<Criteria>)
    requires ValidDbc(x.dbc) && Distinct(cs)
    requires forall c :: c in cs ==> Stored(x.dbc, c) && c.kind != KIND_COMPLETE_ACHIEVEMENT
    requires Closed(x.dbc, x.player, st) && Room(x, st, cs)
    ensures Closed(x.dbc, x.player, Scan(x, st, cs))
    decreases |cs|
  {
    if cs == [] {
    } else {
      VisitRoomClosed(x, st, cs);
      OpenShrinks(x.dbc, st, Visit(x, st, cs[0]));
      RoomStays(x, st, cs);
      ScanRoomClosed(x, Visit(x, st, cs[0]), cs[1..]);
    }
  }

  lemma VisitRoomClosed(x: Context, st: State, cs: seq<Criteria>)
    requires ValidDbc(x.dbc) && cs != [] && Stored(x.dbc, cs[0]) && cs[0].kind != KIND_COMPLETE_ACHIEVEMENT
    requires Closed(x.dbc, x.player, st) && Room(x, st, cs)
    ensures Closed(x.dbc, x.player, Visit(x, st, cs[0]))
  {
    if x.act(cs[0]) == ResetAndSkip {
      RoomNoWrap(x, st, cs);
      ResetBehind(st, cs[0], x.env.now);
      FallClosed(x.dbc, x.player, st, SetProgress(st, cs[0], 0, Set, x.env.now));
    } else {
      VisitClosed(x, st, cs[0], {});
    }
  }

  lemma {:induction false} OfKindDistinct(d: Dbc, kind: nat, n: nat)
    requires ValidDbc(d) && n <= |d.criteria|
    ensures Distinct(OfKind(d.criteria[..n], kind))
    ensures forall c :: c in OfKind(d.criteria[..n], kind) ==> c.id < n
  {
    if n == 0 {
    } else {
      assert d.criteria[..n][..n - 1] == d.criteria[..n - 1];
      OfKindDistinct(d, kind, n - 1);
      forall c | c in OfKind(d.criteria[..n], kind) ensures c.id < n {
      }
    }
  }

  /** Which updates keep the set closed: those that reset nothing that is summed, and those that
      leave the totals room. */
  ghost predicate SafeUpdate(x: Context, st: State, kind: nat) {
    || (forall c :: Stored(x.dbc, c) && c.kind == kind ==> SafeReset(x, c))
    || Room(x, st, OfKind(x.dbc.criteria, kind))
  }

  /** The theorem for one update: from a closed state to a closed state, whatever the
      recursion completes on the way, for own, summing and borrowing achievements alike. */
  lemma UpdateClosed(x: Context, st: State, kind: nat)
    requires ValidDbc(x.dbc) && Closed(x.dbc, x.player, st) && SafeUpdate(x, st, kind)
    ensures Closed(x.dbc, x.player, Update(x, st, kind))
  {
    KindStored(x.dbc, kind);
    if kind == KIND_COMPLETE_ACHIEVEMENT || forall c :: Stored(x.dbc, c) && c.kind == kind ==> SafeReset(x, c) {
      ScanClosed(x, st, OfKind(x.dbc.criteria, kind), {});
    } else {
      OfKindDistinct(x.dbc, kind, |x.dbc.criteria|);
      assert x.dbc.criteria[..|x.dbc.criteria|] == x.dbc.criteria;
      ScanRoomClosed(x, st, OfKind(x.dbc.criteria, kind));
    }
  }

  /** The reset operation where nothing it resets is summed. */
  lemma {:induction false} SteadyResetClosed(d: Dbc, p: Player, now: nat, hit: Criteria -> bool, st: State, cs: seq<Criteria>)
    requires ValidDbc(d) && Closed(d, p, st)
    requires forall c :: c in cs ==> Stored(d, c) && (Resettable(c.kind) ==> NotSummed(d, c))
    ensures Closed(d, p, ResetScan(d, p, now, hit, st, cs))
    decreases |cs|
  {
    if cs == [] {
    } else {
      assert cs[0] in cs;
      var st1 := ResetOne(d, p, now, hit, st, cs[0]);
      if st1 != st { ClosedReset(d, p, st, cs[0], now, {}); }
      SteadyResetClosed(d, p, now, hit, st1, cs[1..]);
    }
  }

  const WRAP_SUMM := Achievement(0, AnyFaction, false, true, false, false, 0, 0)
  const WRAP_LARGE := Criteria(0, 0, KIND_DAMAGE_DONE, AtLeast(UINT32_LIMIT - 1), UINT32_LIMIT - 1, 0, 0, false)
  const WRAP_SMALL := Criteria(1, 0, KIND_DAMAGE_DONE, AtLeast(5), 5, 0, 0, false)

  /** The condition on resets is needed. Two damage counters of a summing achievement add
      up to 0 in 32 bits; resetting the smaller one undoes the wrap, the sum passes the
      count, and the reset operation completes nothing. */
  lemma ResetBreaksSumm(p: Player, now: nat)
    ensures
      var d := Dbc([Some(WRAP_SUMM)], [Some(WRAP_LARGE), Some(WRAP_SMALL)]);
      var st := State(map[0 := Progress(UINT32_LIMIT - 4, now, true), 1 := Progress(4, now, true)], map[], {}, [], []);
      ValidDbc(d) && Closed(d, p, st)
      && !Closed(d, p, ResetScan(d, p, now, c => c == WRAP_SMALL, st, OfKind(d.criteria, KIND_DAMAGE_DONE)))
  {
    var d := Dbc([Some(WRAP_SUMM)], [Some(WRAP_LARGE), Some(WRAP_SMALL)]);
    var st := State(map[0 := Progress(UINT32_LIMIT - 4, now, true), 1 := Progress(4, now, true)], map[], {}, [], []);
    var cs := [WRAP_LARGE, WRAP_SMALL];
    TwoCriteria(WRAP_LARGE, WRAP_SMALL);
    assert cs[1..] == [WRAP_SMALL] && cs[1..][1..] == [];
    assert !SummReached(st.progress, [WRAP_SMALL], UINT32_LIMIT - 4);
    assert !IsCompletedAchievement(d, p, st, WRAP_SUMM);
    var hit := c => c == WRAP_SMALL;
    var st' := ResetOne(d, p, now, hit, st, WRAP_SMALL);
    assert ResetOne(d, p, now, hit, st, WRAP_LARGE) == st;
    assert ResetScan(d, p, now, hit, st, cs) == ResetScan(d, p, now, hit, st, [WRAP_SMALL]);
    assert ResetScan(d, p, now, hit, st, [WRAP_SMALL]) == ResetScan(d, p, now, hit, st', []);
    assert SummReached(st'.progress, [WRAP_SMALL], UINT32_LIMIT - 4);
    assert Known(d, WRAP_SUMM) && IsCompletedAchievement(d, p, st', WRAP_SUMM);
  }

  /** No summing achievement's total leaves 32 bits. */
  ghost predicate NoWrap(d: Dbc, st: State) {
    forall a :: Known(d, a) && a.summ ==> Total(st.progress, OfAchievement(d.criteria, TestedId(a))) < UINT32_LIMIT
  }

  /** No record of st' is further along than that of st. */
  ghost predicate Behind(progress: map<nat, Progress>, progress': map<nat, Progress>) {
    forall id :: id in progress' ==> id in progress && progress'[id].counter <= progress[id].counter
  }

  lemma {:induction false} TotalFalls(progress: map<nat, Progress>, progress': map<nat, Progress>, cs: seq<Criteria>)
    requires Behind(progress, progress')
    ensures Total(progress', cs) <= Total(progress, cs)
  {
    if cs == [] {
    } else {
      TotalFalls(progress, progress', cs[1..]);
    }
  }

  /** Nothing but the wrap does it: as long as all totals stay in 32 bits, counters that only fall
      keep the set closed, and the totals in 32 bits. */
  lemma FallClosed(d: Dbc, p: Player, st: State, st': State)
    requires ValidDbc(d) && Closed(d, p, st) && NoWrap(d, st)
    requires Behind(st.progress, st'.progress) && st'.completed.Keys == st.completed.Keys && st'.realm == st.realm
    ensures Closed(d, p, st') && NoWrap(d, st')
  {
    forall a | Known(d, a) && IsCompletedAchievement(d, p, st', a) ensures a.id in st'.completed {
      var cs := OfAchievement(d.criteria, TestedId(a));
      if a.summ {
        SummFalls(st.progress, st'.progress, cs, 0, 0);
      } else {
        AcceptMonotone(d, p, st, st', a);
      }
    }
    forall a | Known(d, a) && a.summ ensures Total(st'.progress, OfAchievement(d.criteria, TestedId(a))) < UINT32_LIMIT {
      TotalFalls(st.progress, st'.progress, OfAchievement(d.criteria, TestedId(a)));
    }
  }

  lemma ResetBehind(st: State, c: Criteria, now: nat)
    ensures Behind(st.progress, SetProgress(st, c, 0, Set, now).progress)
  {
  }

  lemma {:induction false} ResetScanBehind(d: Dbc, p: Player, now: nat, hit: Criteria -> bool, st: State, cs: seq<Criteria>)
    ensures
      var st' := ResetScan(d, p, now, hit, st, cs);
      Behind(st.progress, st'.progress) && st'.completed == st.completed && st'.realm == st.realm
    decreases |cs|
  {
    if cs == [] {
    } else {
      ResetBehind(st, cs[0], now);
      ResetScanBehind(d, p, now, hit, ResetOne(d, p, now, hit, st, cs[0]), cs[1..]);
    }
  }

  /** The whole reset operation, whatever criteria it hits. */
  lemma ResetNoWrap(d: Dbc, p: Player, now: nat, hit: Criteria -> bool, st: State, cs: seq<Criteria>)
    requires ValidDbc(d) && Closed(d, p, st) && NoWrap(d, st)
    ensures Closed(d, p, ResetScan(d, p, now, hit, st, cs)) && NoWrap(d, ResetScan(d, p, now, hit, st, cs))
  {
    ResetScanBehind(d, p, now, hit, st, cs);
    FallClosed(d, p, st, ResetScan(d, p, now, hit, st, cs));
  }

  /** The theorem for the reset operation: it can break closure only by undoing a wrap. */
  lemma ResetScanClosed(d: Dbc, p: Player, now: nat, hit: Criteria -> bool, st: State, cs: seq<Criteria>)
    requires ValidDbc(d) && Closed(d, p, st) && forall c :: c in cs ==> Stored(d, c)
    requires NoWrap(d, st) || forall c :: c in cs && Resettable(c.kind) ==> NotSummed(d, c)
    ensures Closed(d, p, ResetScan(d, p, now, hit, st, cs))
  {
    if NoWrap(d, st) {
      ResetNoWrap(d, p, now, hit, st, cs);
    } else {
      SteadyResetClosed(d, p, now, hit, st, cs);
    }
  }

  /** A sum of smaller counters reaches no count that the larger ones do not reach. */
  lemma {:induction false} SummFalls(progress: map<nat, Progress>, progress': map<nat, Progress>, cs: seq<Criteria>, sum: nat, sum': nat)
    requires forall c :: c in cs && c.id in progress' ==> c.id in progress && progress'[c.id].counter <= progress[c.id].counter
    requires sum' <= sum && sum + Total(progress, cs) < UINT32_LIMIT && SummReached(progress', cs, sum')
    ensures SummReached(progress, cs, sum)
  {
    if cs == [] {
    } else {
      var c := cs[0];
      assert c in cs;
      var more := if c.id in progress then progress[c.id].counter else 0;
      var more' := if c.id in progress' then progress'[c.id].counter else 0;
      if !(c.id in progress' && sum' + more' >= c.rawCount) {
        SummFalls(progress, progress', cs[1..], sum + more, sum' + more');
      }
    }
  }

  lemma TwoCriteria(c: Criteria, c': Criteria)
    requires c.referred == c'.referred && c.kind == c'.kind
    ensures OfAchievement([Some(c), Some(c')], c.referred) == [c, c'] == OfKind([Some(c), Some(c')], c.kind)
  {
    var cs := [Some(c), Some(c')];
    assert cs[..1] == [Some(c)] && [Some(c)][..0] == [];
    assert OfAchievement([Some(c)], c.referred) == [] + [c] && OfKind([Some(c)], c.kind) == [] + [c];
    assert cs[..|cs| - 1] == [Some(c)] && cs[|cs| - 1] == Some(c');
  }

  /** A fresh character is closed. */
  lemma FreshClosed(d: Dbc, p: Player, realm: set<nat>, announced: seq<nat>, rewarded: seq<nat>)
    ensures Closed(d, p, State(map[], map[], realm, announced, rewarded))
  {
    var st := State(map[], map[], realm, announced, rewarded);
    forall a | Known(d, a) ensures !IsCompletedAchievement(d, p, st, a) {
      var cs := OfAchievement(d.criteria, TestedId(a));
      NothingSummed(cs, 0);
      if cs != [] && !a.summ { NothingCounted(p, st, a, cs); }
    }
  }

  lemma {:induction false} NothingSummed(cs: seq<Criteria>, sum: nat)
    ensures !SummReached(map[], cs, sum)
  {
    if cs == [] {
    } else {
      NothingSummed(cs[1..], sum);
    }
  }

  lemma {:induction false} NothingCounted(p: Player, st: State, a: Achievement, cs: seq<Criteria>)
    requires st.progress == map[] && cs != []
    ensures !CountReached(p, st, a, cs, 0, true)
  {
    CountReachedMeaning(p, st, a, cs, 0, true);
    NoneDone(p, st, a, cs);
    assert cs[0] in cs;
  }

  lemma {:induction false} NoneDone(p: Player, st: State, a: Achievement, cs: seq<Criteria>)
    requires st.progress == map[]
    ensures DoneCount(p, st, a, cs) == 0
  {
    if cs == [] {
    } else {
      NoneDone(p, st, a, cs[1..]);
    }
  }

  // ----- linked criteria -----

  /** A linked criterion is met when its achievement is completed and the scan may count it. */
  ghost predicate LinkMet(x: Context, st: State, c: Criteria) {
    var entry := LookupEntry(x.dbc, c.referred);
    !(c.soloOnly && x.env.inGroup) && entry.Some? && Eligible(x.player, entry.value) && c.linked in st.completed
    ==> c.id in st.progress && st.progress[c.id].counter >= 1
  }

  ghost predicate LinksMet(x: Context, st: State) {
    forall c :: Stored(x.dbc, c) && c.kind == KIND_COMPLETE_ACHIEVEMENT ==> LinkMet(x, st, c)
  }

  /** The scan meets every linked criterion it passes and loses none. */
  lemma {:induction false} ScanLinks(x: Context, st: State, cs: seq<Criteria>, link: Criteria)
    requires ValidDbc(x.dbc) && Stored(x.dbc, link) && link.kind == KIND_COMPLETE_ACHIEVEMENT
    requires forall c :: c in cs ==> Stored(x.dbc, c)
    requires link in cs || LinkMet(x, st, link)
    ensures LinkMet(x, Scan(x, st, cs), link)
    decreases |Open(x.dbc, st)|, 5, |cs|
  {
    if cs == [] {
    } else {
      var st1 := Visit(x, st, cs[0]);
      OpenShrinks(x.dbc, st, st1);
      if cs[0] == link || LinkMet(x, st, link) { VisitLinks(x, st, cs[0], link); }
      ScanLinks(x, st1, cs[1..], link);
    }
  }

  lemma VisitLinks(x: Context, st: State, c: Criteria, link: Criteria)
    requires ValidDbc(x.dbc) && Stored(x.dbc, c) && Stored(x.dbc, link) && link.kind == KIND_COMPLETE_ACHIEVEMENT
    requires c == link || LinkMet(x, st, link)
    ensures LinkMet(x, Visit(x, st, c), link)
    decreases |Open(x.dbc, st)|, 4, 0
  {
    if !Skipped(x, st, c) {
      var a := LookupEntry(x.dbc, c.referred).value;
      match ActionFor(x.act, st, c) {
        case Skip =>
        case ResetAndSkip =>
        case Keep => SettleLinks(x, st, c, a, link);
        case Advance(value, mode) =>
          var st1 := SetProgress(st, c, value, mode, x.env.now);
          OpenShrinks(x.dbc, st, st1);
          SettleLinks(x, st1, c, a, link);
      }
    }
  }

  lemma SettleLinks(x: Context, st: State, c: Criteria, a: Achievement, link: Criteria)
    requires ValidDbc(x.dbc) && Known(x.dbc, a) && Stored(x.dbc, link) && link.kind == KIND_COMPLETE_ACHIEVEMENT
    requires LinkMet(x, st, link)
    ensures LinkMet(x, Settle(x, st, c, a), link)
    decreases |Open(x.dbc, st)|, 3, 0
  {
    var st1 := if IsCompletedCriteria(x.player, st, c, a) && !a.counter && a.id !in st.completed
               then Check(x, st, a) else st;
    if st1 != st { AwardLinks(x, st, a, link); }
    OpenShrinks(x.dbc, st, st1);
    var st2 := if a.summ then Check(x, st1, a) else st1;
    if st2 != st1 { AwardLinks(x, st1, a, link); }
    OpenShrinks(x.dbc, st1, st2);
    ReferencingKnown(x.dbc, a.id);
    CheckAllLinks(x, st2, Referencing(x.dbc.achievements, a.id), link);
  }

  lemma {:induction false} CheckAllLinks(x: Context, st: State, candidates: seq<Achievement>, link: Criteria)
    requires ValidDbc(x.dbc) && (forall a :: a in candidates ==> Known(x.dbc, a))
    requires Stored(x.dbc, link) && link.kind == KIND_COMPLETE_ACHIEVEMENT && LinkMet(x, st, link)
    ensures LinkMet(x, CheckAll(x, st, candidates), link)
    decreases |Open(x.dbc, st)|, 2, |candidates|
  {
    if candidates == [] {
    } else {
      var st1 := Check(x, st, candidates[0]);
      OpenShrinks(x.dbc, st, st1);
      if st1 != st { AwardLinks(x, st, candidates[0], link); }
      CheckAllLinks(x, st1, candidates[1..], link);
    }
  }

  /** An award re-scans all linked criteria, so afterwards all of them are met. */
  lemma AwardLinks(x: Context, st: State, a: Achievement, link: Criteria)
    requires ValidDbc(x.dbc) && Known(x.dbc, a) && Stored(x.dbc, link) && link.kind == KIND_COMPLETE_ACHIEVEMENT
    requires LinkMet(x, st, link)
    ensures LinkMet(x, Award(x, st, a), link)
    decreases |Open(x.dbc, st)|, 0, 0
  {
    if !a.counter && a.id !in st.completed {
      var st1 := Record(st, a, x.env.now);
      OpenShrinks(x.dbc, st, st1);
      assert a.id in Open(x.dbc, st);
      KindStored(x.dbc, KIND_COMPLETE_ACHIEVEMENT);
      ScanLinks(x, st1, OfKind(x.dbc.criteria, KIND_COMPLETE_ACHIEVEMENT), link);
    }
  }

  /** A linked update meets every linked criterion from any state, and any other update
      keeps them met: completing an achievement in mid-scan is never lost on its links. */
  lemma UpdateLinks(x: Context, st: State, kind: nat)
    requires ValidDbc(x.dbc)
    requires kind == KIND_COMPLETE_ACHIEVEMENT || LinksMet(x, st)
    ensures LinksMet(x, Update(x, st, kind))
  {
    KindStored(x.dbc, kind);
    forall c | Stored(x.dbc, c) && c.kind == KIND_COMPLETE_ACHIEVEMENT
      ensures LinkMet(x, Update(x, st, kind), c)
    {
      ScanLinks(x, st, OfKind(x.dbc.criteria, kind), c);
    }
  }
}
