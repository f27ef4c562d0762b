/** What every update keeps about the records themselves: awards are announced and rewarded
    once, written records never change silently, and realm-first awards respect the realm. */
module AchievementLedger {
  import opened Options
  import opened AchievementStore
  import opened AchievementEngine

  ghost predicate New(before: State, after: State, id: nat) {
    id in after.completed && id !in before.completed
  }

  /** The completed records only grow, by awards of real, non-counter achievements that are
      marked for saving; older records stay as they were. */
  ghost predicate AwardsGrow(d: Dbc, before: State, after: State) {
    && before.completed.Keys <= after.completed.Keys
    && (forall id :: id in before.completed ==> after.completed[id] == before.completed[id])
    && (forall id :: New(before, after, id) ==>
          after.completed[id].changed && LookupEntry(d, id).Some? && !LookupEntry(d, id).value.counter)
  }

  /** Each new award was announced once and rewarded once, and nothing else was. */
  ghost predicate LogsGrow(before: State, after: State) {
    && before.announced <= after.announced && before.rewarded <= after.rewarded
    && (forall id :: multiset(after.announced)[id] == multiset(before.announced)[id] + if New(before, after, id) then 1 else 0)
    && (forall id :: multiset(after.rewarded)[id] == multiset(before.rewarded)[id] + if New(before, after, id) then 1 else 0)
  }

  /** The realm learns of exactly the new awards, save the realm-first kills; and a
      realm-first award that does not sum was not known to the realm before. */
  ghost predicate RealmGrows(d: Dbc, before: State, after: State) {
    && before.realm <= after.realm
    && (forall id :: id in after.realm && id !in before.realm ==> New(before, after, id))
    && (forall id :: New(before, after, id) && LookupEntry(d, id).Some? ==>
          var a := LookupEntry(d, id).value;
          (!a.realmFirstKill ==> id in after.realm)
          && ((a.realmFirstReach || a.realmFirstKill) && !a.summ ==> id !in before.realm))
  }

  /** Progress records are never dropped, and every one that differs is marked changed;
      criteria outside the scanned kinds are not touched. */
  ghost predicate ProgressMoves(d: Dbc, before: State, after: State, kinds: set<nat>) {
    && before.progress.Keys <= after.progress.Keys
    && (forall id :: id in after.progress ==>
          after.progress[id].changed || (id in before.progress && after.progress[id] == before.progress[id]))
    && (forall c :: Stored(d, c) && c.kind !in kinds ==>
          (c.id in after.progress <==> c.id in before.progress)
          && (c.id in before.progress ==> after.progress[c.id] == before.progress[c.id]))
    && (forall id :: id in after.progress ==> id in before.progress || (id < |d.criteria| && d.criteria[id].Some?))
  }

  ghost predicate Evolves(d: Dbc, before: State, after: State, kinds: set<nat>) {
    && AwardsGrow(d, before, after) && LogsGrow(before, after)
    && RealmGrows(d, before, after) && ProgressMoves(d, before, after, kinds)
  }

  lemma EvolvesTrans(d: Dbc, a: State, b: State, c: State, kinds: set<nat>)
    requires Evolves(d, a, b, kinds) && Evolves(d, b, c, kinds)
    ensures Evolves(d, a, c, kinds)
  {
    forall id
      ensures New(a, c, id) <==> New(a, b, id) || New(b, c, id)
      ensures !(New(a, b, id) && New(b, c, id))
    {
    }
  }

  lemma SetProgressMoves(d: Dbc, st: State, c: Criteria, value: nat, mode: Mode, now: nat, kinds: set<nat>)
    requires ValidDbc(d) && Stored(d, c) && c.kind in kinds
    ensures ProgressMoves(d, st, SetProgress(st, c, value, mode, now), kinds)
  {
    var st' := SetProgress(st, c, value, mode, now);
    forall o | Stored(d, o) && o.kind !in kinds
      ensures o.id in st'.progress <==> o.id in st.progress
      ensures o.id in st.progress ==> st'.progress[o.id] == st.progress[o.id]
    {
      assert o.id != c.id;
    }
  }

  lemma SetProgressEvolves(d: Dbc, st: State, c: Criteria, value: nat, mode: Mode, now: nat, kinds: set<nat>)
    requires ValidDbc(d) && Stored(d, c) && c.kind in kinds
    ensures Evolves(d, st, SetProgress(st, c, value, mode, now), kinds)
  {
    var st' := SetProgress(st, c, value, mode, now);
    SetProgressMoves(d, st, c, value, mode, now, kinds);
    assert st'.completed == st.completed && st'.realm == st.realm && st'.announced == st.announced && st'.rewarded == st.rewarded;
  }

  lemma {:induction false} ScanEvolves(x: Context, st: State, cs: seq<Criteria>, kinds: set<nat>)
    requires ValidDbc(x.dbc) && KIND_COMPLETE_ACHIEVEMENT in kinds
    requires forall c :: c in cs ==> Stored(x.dbc, c) && c.kind in kinds
    ensures Evolves(x.dbc, st, Scan(x, st, cs), kinds)
    decreases |Open(x.dbc, st)|, 5, |cs|
  {
    if cs == [] {
    } else {
      var st1 := Visit(x, st, cs[0]);
      assert cs[0] in cs;
      VisitEvolves(x, st, cs[0], kinds);
      OpenShrinks(x.dbc, st, st1);
      ScanEvolves(x, st1, cs[1..], kinds);
      EvolvesTrans(x.dbc, st, st1, Scan(x, st, cs), kinds);
    }
  }

  lemma VisitEvolves(x: Context, st: State, c: Criteria, kinds: set<nat>)
    requires ValidDbc(x.dbc) && KIND_COMPLETE_ACHIEVEMENT in kinds && Stored(x.dbc, c) && c.kind in kinds
    ensures Evolves(x.dbc, st, Visit(x, st, c), kinds)
    decreases |Open(x.dbc, st)|, 4, 0
  {
    if !Skipped(x, st, c) {
      var a := LookupEntry(x.dbc, c.referred).value;
      match ActionFor(x.act, st, c) {
        case Skip =>
        case ResetAndSkip => SetProgressEvolves(x.dbc, st, c, 0, Set, x.env.now, kinds);
        case Keep => SettleEvolves(x, st, c, a, kinds);
        case Advance(value, mode) =>
          var st1 := SetProgress(st, c, value, mode, x.env.now);
          SetProgressEvolves(x.dbc, st, c, value, mode, x.env.now, kinds);
          OpenShrinks(x.dbc, st, st1);
          SettleEvolves(x, st1, c, a, kinds);
          EvolvesTrans(x.dbc, st, st1, Visit(x, st, c), kinds);
      }
    }
  }

  lemma SettleEvolves(x: Context, st: State, c: Criteria, a: Achievement, kinds: set<nat>)
    requires ValidDbc(x.dbc) && Known(x.dbc, a) && KIND_COMPLETE_ACHIEVEMENT in kinds
    ensures Evolves(x.dbc, st, Settle(x, st, c, a), kinds)
    decreases |Open(x.dbc, st)|, 3, 0
  {
    var st1 := if IsCompletedCriteria(x.player, st, c, a) && !a.counter && a.id !in st.completed
               then Check(x, st, a) else st;
    if st1 != st { CheckEvolves(x, st, a, kinds); }
    OpenShrinks(x.dbc, st, st1);
    var st2 := if a.summ then Check(x, st1, a) else st1;
    if st2 != st1 { CheckEvolves(x, st1, a, kinds); }
    OpenShrinks(x.dbc, st1, st2);
    EvolvesTrans(x.dbc, st, st1, st2, kinds);
    ReferencingKnown(x.dbc, a.id);
    CheckAllEvolves(x, st2, Referencing(x.dbc.achievements, a.id), kinds);
    EvolvesTrans(x.dbc, st, st2, Settle(x, st, c, a), kinds);
  }

  lemma {:induction false} CheckAllEvolves(x: Context, st: State, candidates: seq<Achievement>, kinds: set<nat>)
    requires ValidDbc(x.dbc) && (forall a :: a in candidates ==> Known(x.dbc, a)) && KIND_COMPLETE_ACHIEVEMENT in kinds
    ensures Evolves(x.dbc, st, CheckAll(x, st, candidates), kinds)
    decreases |Open(x.dbc, st)|, 2, |candidates|
  {
    if candidates == [] {
    } else {
      var st1 := Check(x, st, candidates[0]);
      OpenShrinks(x.dbc, st, st1);
      CheckEvolves(x, st, candidates[0], kinds);
      CheckAllEvolves(x, st1, candidates[1..], kinds);
      EvolvesTrans(x.dbc, st, st1, CheckAll(x, st, candidates), kinds);
    }
  }

  lemma CheckEvolves(x: Context, st: State, a: Achievement, kinds: set<nat>)
    requires ValidDbc(x.dbc) && Known(x.dbc, a) && KIND_COMPLETE_ACHIEVEMENT in kinds
    ensures Evolves(x.dbc, st, Check(x, st, a), kinds)
    decreases |Open(x.dbc, st)|, 1, 0
  {
    if IsCompletedAchievement(x.dbc, x.player, st, a) && a.id !in st.completed {
      if (a.realmFirstReach || a.realmFirstKill) && !a.summ && a.id in st.realm { RealmBlocks(x.dbc, x.player, st, a); }
      AwardEvolves(x, st, a, kinds);
    }
  }

  /** Once the realm knows a realm-first achievement, its check accepts nobody else. */
  lemma RealmBlocks(d: Dbc, p: Player, st: State, a: Achievement)
    requires (a.realmFirstReach || a.realmFirstKill) && !a.summ && a.id in st.realm
    ensures !IsCompletedAchievement(d, p, st, a)
  {
    var cs := OfAchievement(d.criteria, TestedId(a));
    if cs != [] && !a.counter {
      CountReachedMeaning(p, st, a, cs, 0, true);
      BlockedCount(p, st, a, cs);
      assert cs[0] in cs;
    }
  }

  lemma {:induction false} BlockedCount(p: Player, st: State, a: Achievement, cs: seq<Criteria>)
    requires (a.realmFirstReach || a.realmFirstKill) && a.id in st.realm
    ensures DoneCount(p, st, a, cs) == 0
  {
    if cs == [] {
    } else {
      BlockedCount(p, st, a, cs[1..]);
    }
  }

  lemma AwardEvolves(x: Context, st: State, a: Achievement, kinds: set<nat>)
    requires ValidDbc(x.dbc) && Known(x.dbc, a) && KIND_COMPLETE_ACHIEVEMENT in kinds
    requires !a.counter && a.id !in st.completed
    requires (a.realmFirstReach || a.realmFirstKill) && !a.summ ==> a.id !in st.realm
    ensures Evolves(x.dbc, st, Award(x, st, a), kinds)
    decreases |Open(x.dbc, st)|, 0, 0
  {
    var st1 := Record(st, a, x.env.now);
    OpenShrinks(x.dbc, st, st1);
    assert a.id in Open(x.dbc, st);
    KindStored(x.dbc, KIND_COMPLETE_ACHIEVEMENT);
    var linked := OfKind(x.dbc.criteria, KIND_COMPLETE_ACHIEVEMENT);
    var st2 := Scan(x, st1, linked);
    ScanEvolves(x, st1, linked, kinds);
    AwardLogs(st, st2, a, x.env.now);
    AwardRecords(x.dbc, st, st2, a, x.env.now, kinds);
  }

  lemma AwardLogs(st: State, st2: State, a: Achievement, now: nat)
    requires a.id !in st.completed && LogsGrow(Record(st, a, now), st2) && a.id in st2.completed
    requires st.completed.Keys <= st2.completed.Keys
    ensures LogsGrow(st, st2.(rewarded := st2.rewarded + [a.id]))
  {
    var st1 := Record(st, a, now);
    var st3 := st2.(rewarded := st2.rewarded + [a.id]);
    assert multiset(st1.announced) == multiset(st.announced) + multiset{a.id};
    assert multiset(st3.rewarded) == multiset(st2.rewarded) + multiset{a.id};
    forall id ensures New(st, st3, id) <==> id == a.id || New(st1, st2, id) {
    }
    assert st.announced <= st1.announced;
  }

  lemma AwardRecords(d: Dbc, st: State, st2: State, a: Achievement, now: nat, kinds: set<nat>)
    requires Known(d, a) && !a.counter && a.id !in st.completed
    requires (a.realmFirstReach || a.realmFirstKill) && !a.summ ==> a.id !in st.realm
    requires AwardsGrow(d, Record(st, a, now), st2) && RealmGrows(d, Record(st, a, now), st2)
    requires ProgressMoves(d, Record(st, a, now), st2, kinds)
    ensures
      var st3 := st2.(rewarded := st2.rewarded + [a.id]);
      AwardsGrow(d, st, st3) && RealmGrows(d, st, st3) && ProgressMoves(d, st, st3, kinds)
  {
    var st1 := Record(st, a, now);
    assert st1.completed[a.id].changed;
    var st3 := st2.(rewarded := st2.rewarded + [a.id]);
    forall id ensures New(st, st3, id) <==> id == a.id || New(st1, st2, id) {
    }
  }

  /** The whole-update form: termination is the functions' own measure, the number of
      achievements still open, which every award lowers. */
  lemma UpdateEvolves(x: Context, st: State, kind: nat)
    requires ValidDbc(x.dbc)
    ensures Evolves(x.dbc, st, Update(x, st, kind), {kind, KIND_COMPLETE_ACHIEVEMENT})
  {
    KindStored(x.dbc, kind);
    ScanEvolves(x, st, OfKind(x.dbc.criteria, kind), {kind, KIND_COMPLETE_ACHIEVEMENT});
  }

  lemma {:induction false} ResetScanEvolves(
      d: Dbc, p: Player, now: nat, hit: Criteria -> bool, st: State, cs: seq<Criteria>, kinds: set<nat>)
    requires ValidDbc(d) && forall c :: c in cs ==> Stored(d, c) && c.kind in kinds
    ensures Evolves(d, st, ResetScan(d, p, now, hit, st, cs), kinds)
    decreases |cs|
  {
    if cs == [] {
    } else {
      var st1 := ResetOne(d, p, now, hit, st, cs[0]);
      assert cs[0] in cs;
      if st1 != st { SetProgressEvolves(d, st, cs[0], 0, Set, now, kinds); }
      ResetScanEvolves(d, p, now, hit, st1, cs[1..], kinds);
      EvolvesTrans(d, st, st1, ResetScan(d, p, now, hit, st, cs), kinds);
    }
  }
}
