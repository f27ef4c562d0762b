/** Whole runs of a realm: many characters whose updates, resets, saves and re-logins
    interleave over one realm-wide set of completed achievements. */
module AchievementRealm {
  import opened Options
  import opened AchievementStore
  import opened AchievementEngine
  import opened AchievementClosure
  import opened AchievementLedger
  import opened AchievementSave

  datatype Account = Account(
    player: Player, progress: map<nat, Progress>, completed: map<nat, Completed>,
    announced: seq<nat>, rewarded: seq<nat>, db: Db)

  datatype Realm = Realm(done: set<nat>, clock: nat, accounts: seq<Account>)

  datatype Event =
    | Updated(who: nat, kind: nat, act: Oracle, inGroup: bool)
    | Reset(who: nat, kind: nat, hit: Criteria -> bool)
    | Saving(who: nat)
    | Relogged(who: nat)
    | Elapsed(seconds: nat)

  function View(r: Realm, i: nat): State
    requires i < |r.accounts|
  {
    var c := r.accounts[i];
    State(c.progress, c.completed, r.done, c.announced, c.rewarded)
  }

  function Put(r: Realm, i: nat, st: State, db: Db): Realm
    requires i < |r.accounts|
  {
    r.(done := st.realm,
       accounts := r.accounts[i := Account(r.accounts[i].player, st.progress, st.completed, st.announced, st.rewarded, db)])
  }

  function Apply(d: Dbc, r: Realm, e: Event): Realm
    requires ValidDbc(d)
  {
    match e
    case Elapsed(seconds) => r.(clock := r.clock + seconds)
    case Updated(i, kind, act, inGroup) =>
      if i < |r.accounts| then
        Put(r, i, Update(UpdateContext(d, r, i, act, inGroup), View(r, i), kind), r.accounts[i].db)
      else r
    case Reset(i, kind, hit) =>
      if i < |r.accounts| then
        Put(r, i, ResetScan(d, r.accounts[i].player, r.clock, hit, View(r, i), OfKind(d.criteria, kind)), r.accounts[i].db)
      else r
    case Saving(i) =>
      if i < |r.accounts| then Put(r, i, Saved(View(r, i)), SaveDb(r.accounts[i].db, View(r, i))) else r
    case Relogged(i) =>
      if i < |r.accounts| then
        var db := SaveDb(r.accounts[i].db, View(r, i));
        Put(r, i, Loaded(d, db, r.clock, View(r, i)), db)
      else r
  }

  function Run(d: Dbc, r: Realm, es: seq<Event>): Realm
    requires ValidDbc(d)
    decreases |es|
  {
    if es == [] then r else Run(d, Apply(d, r, es[0]), es[1..])
  }

  /** Only the rated-arena kind ever resets a criterion from inside an update. */
  ghost predicate Legal(e: Event) {
    e.Updated? ==> forall c :: e.act(c) == ResetAndSkip ==> c.kind == KIND_WIN_RATED_ARENA
  }

  /** No summing achievement counts a criterion that can lose progress. */
  ghost predicate SteadySums(d: Dbc) {
    ValidDbc(d) && forall c :: Stored(d, c) && (c.timeLimit != 0 || Resettable(c.kind)) ==> NotSummed(d, c)
  }

  /** A load drops records whose time is over: none of them is summed, or the totals are in 32 bits. */
  ghost predicate SafeLoad(d: Dbc, st: State) {
    (forall c :: Stored(d, c) && c.timeLimit != 0 ==> NotSummed(d, c)) || NoWrap(d, st)
  }

  ghost predicate SafeResets(d: Dbc, st: State, kind: nat) {
    (forall c :: Stored(d, c) && c.kind == kind && Resettable(kind) ==> NotSummed(d, c)) || NoWrap(d, st)
  }

  function UpdateContext(d: Dbc, r: Realm, i: nat, act: Oracle, inGroup: bool): Context
    requires i < |r.accounts|
  {
    Context(d, r.accounts[i].player, Env(inGroup, r.clock), act)
  }

  /** A step that takes progress away does so where nothing sums it, or where all totals are within
      32 bits. */
  ghost predicate Safe(d: Dbc, r: Realm, e: Event) {
    match e
    case Updated(i, kind, act, inGroup) =>
      i < |r.accounts| ==> SafeUpdate(UpdateContext(d, r, i, act, inGroup), View(r, i), kind)
    case Reset(i, kind, hit) => i < |r.accounts| ==> SafeResets(d, View(r, i), kind)
    case Relogged(i) => i < |r.accounts| ==> SafeLoad(d, View(r, i))
    case Saving(_) => true
    case Elapsed(_) => true
  }

  ghost predicate AllSafe(d: Dbc, r: Realm, es: seq<Event>)
    requires ValidDbc(d)
    decreases |es|
  {
    es == [] || (Safe(d, r, es[0]) && AllSafe(d, Apply(d, r, es[0]), es[1..]))
  }

  /** There is room for all totals whenever progress may be taken away. */
  ghost predicate Roomy(d: Dbc, r: Realm, e: Event) {
    match e
    case Updated(i, kind, act, inGroup) =>
      i < |r.accounts| ==> Room(UpdateContext(d, r, i, act, inGroup), View(r, i), OfKind(d.criteria, kind))
    case Reset(i, _, _) => i < |r.accounts| ==> NoWrap(d, View(r, i))
    case Relogged(i) => i < |r.accounts| ==> NoWrap(d, View(r, i))
    case Saving(_) => true
    case Elapsed(_) => true
  }

  ghost predicate AllRoomy(d: Dbc, r: Realm, es: seq<Event>)
    requires ValidDbc(d)
    decreases |es|
  {
    es == [] || (Roomy(d, r, es[0]) && AllRoomy(d, Apply(d, r, es[0]), es[1..]))
  }

  /** Over any table whatever, a run is safe as long as its totals stay within 32 bits. */
  lemma {:induction false} RoomySafe(d: Dbc, r: Realm, es: seq<Event>)
    requires ValidDbc(d) && AllRoomy(d, r, es)
    ensures AllSafe(d, r, es)
    decreases |es|
  {
    if es == [] {
    } else {
      RoomySafe(d, Apply(d, r, es[0]), es[1..]);
    }
  }

  /** Over tables whose sums never lose a counter every run is safe. */
  lemma {:induction false} SteadySumsSafe(d: Dbc, r: Realm, es: seq<Event>)
    requires SteadySums(d) && forall e :: e in es ==> Legal(e)
    ensures AllSafe(d, r, es)
    decreases |es|
  {
    if es == [] {
    } else {
      assert es[0] in es;
      SteadySumsSafe(d, Apply(d, r, es[0]), es[1..]);
    }
  }

  /** Every completed achievement was announced once and rewarded once, and none of them counts statistics. */
  ghost predicate Once(d: Dbc, st: State) {
    && (forall id :: multiset(st.announced)[id] == if id in st.completed then 1 else 0)
    && (forall id :: multiset(st.rewarded)[id] == if id in st.completed then 1 else 0)
    && (forall id :: id in st.completed ==> LookupEntry(d, id).Some? && !LookupEntry(d, id).value.counter)
  }

  ghost predicate RealmKnows(d: Dbc, st: State) {
    forall id :: id in st.completed && LookupEntry(d, id).Some? && !LookupEntry(d, id).value.realmFirstKill ==> id in st.realm
  }

  /** Steady runs are those whose steps are all safe: only in them is the completed set claimed to
      be closed. */
  ghost predicate AccountOk(d: Dbc, r: Realm, i: nat, steady: bool)
    requires i < |r.accounts|
  {
    var st := View(r, i);
    && StoredOk(d, r.accounts[i].db, st, r.clock) && Once(d, st) && RealmKnows(d, st)
    && (steady ==> Closed(d, r.accounts[i].player, st))
  }

  ghost predicate StoredOk(d: Dbc, db: Db, st: State, clock: nat) {
    CacheOk(db, st) && Covered(d, db, st, clock)
  }

  ghost predicate RealmFirst(a: Achievement) {
    a.realmFirstReach && !a.realmFirstKill && !a.summ
  }

  /** A realm-first achievement has one holder. */
  ghost predicate FirstUnique(d: Dbc, r: Realm) {
    forall i, j, id :: 0 <= i < |r.accounts| && 0 <= j < |r.accounts| && i != j
      && id in r.accounts[i].completed && id in r.accounts[j].completed && LookupEntry(d, id).Some?
      ==> !RealmFirst(LookupEntry(d, id).value)
  }

  ghost predicate RealmOk(d: Dbc, r: Realm, steady: bool) {
    FirstUnique(d, r) && forall i :: 0 <= i < |r.accounts| ==> AccountOk(d, r, i, steady)
  }

  // ----- the steps -----

  lemma EvolvesStored(d: Dbc, db: Db, before: State, after: State, clock: nat, kinds: set<nat>)
    requires StoredOk(d, db, before, clock) && Evolves(d, before, after, kinds)
    ensures StoredOk(d, db, after, clock)
  {
    EvolvesCache(d, db, before, after, kinds);
  }

  lemma EvolvesOnce(d: Dbc, before: State, after: State, kinds: set<nat>)
    requires Once(d, before) && RealmKnows(d, before) && Evolves(d, before, after, kinds)
    ensures Once(d, after) && RealmKnows(d, after)
  {
  }

  /** What one character's step must deliver for the whole realm to stay in order. */
  lemma PutOk(d: Dbc, r: Realm, i: nat, st: State, kinds: set<nat>, steady: bool)
    requires RealmOk(d, r, steady) && i < |r.accounts|
    requires Evolves(d, View(r, i), st, kinds) && (steady ==> Closed(d, r.accounts[i].player, st))
    ensures RealmOk(d, Put(r, i, st, r.accounts[i].db), steady)
  {
    var r' := Put(r, i, st, r.accounts[i].db);
    assert AccountOk(d, r, i, steady) && View(r', i) == st;
    EvolvesStored(d, r.accounts[i].db, View(r, i), st, r.clock, kinds);
    EvolvesOnce(d, View(r, i), st, kinds);
    forall j | 0 <= j < |r'.accounts| && j != i ensures AccountOk(d, r', j, steady) {
      assert AccountOk(d, r, j, steady) && r'.accounts[j] == r.accounts[j];
      RealmGrowOk(d, r, j, r', steady);
    }
    PutFirst(d, r, i, st, kinds, steady);
    assert AccountOk(d, r', i, steady);
  }

  /** A new award here has no other holder. */
  lemma PutFirst(d: Dbc, r: Realm, i: nat, st: State, kinds: set<nat>, steady: bool)
    requires RealmOk(d, r, steady) && i < |r.accounts| && Evolves(d, View(r, i), st, kinds)
    ensures FirstUnique(d, Put(r, i, st, r.accounts[i].db))
  {
    var r' := Put(r, i, st, r.accounts[i].db);
    assert r'.accounts[i].completed == st.completed;
    assert forall j :: 0 <= j < |r'.accounts| && j != i ==> r'.accounts[j] == r.accounts[j];
    forall j, id | 0 <= j < |r'.accounts| && j != i && id in r'.accounts[j].completed && id in st.completed
                   && LookupEntry(d, id).Some?
      ensures !RealmFirst(LookupEntry(d, id).value)
    {
      assert AccountOk(d, r, j, steady);
      FirstBlocked(d, View(r, i), st, View(r, j), id, kinds);
    }
  }

  lemma RealmGrowOk(d: Dbc, r: Realm, j: nat, r': Realm, steady: bool)
    requires j < |r.accounts| == |r'.accounts| && AccountOk(d, r, j, steady)
    requires r'.accounts[j] == r.accounts[j] && r.done <= r'.done && r.clock == r'.clock
    ensures AccountOk(d, r', j, steady)
  {
    var before, after := View(r, j), View(r', j);
    if steady { ClosedGrow(d, r.accounts[j].player, before, after, {}); }
  }

  /** A holder elsewhere rules out a new realm-first award here. */
  lemma FirstBlocked(d: Dbc, before: State, after: State, other: State, id: nat, kinds: set<nat>)
    requires Evolves(d, before, after, kinds) && RealmKnows(d, other) && other.realm == before.realm
    requires id in after.completed && id in other.completed && LookupEntry(d, id).Some?
    ensures RealmFirst(LookupEntry(d, id).value) ==> id in before.completed
  {
  }

  /** Loading back what was saved never makes an achievement acceptable. */
  lemma LoadedClosed(d: Dbc, p: Player, db: Db, st: State, now: nat)
    requires ValidDbc(d) && SafeLoad(d, st) && CacheOk(db, st) && Covered(d, db, st, now) && Closed(d, p, st)
    ensures Closed(d, p, Loaded(d, SaveDb(db, st), now, st))
  {
    RoundTripCompleted(d, db, st, now);
    RoundTripProgress(d, db, st, now);
    if NoWrap(d, st) {
      FallClosed(d, p, st, Loaded(d, SaveDb(db, st), now, st));
    } else {
      SteadyLoadClosed(d, p, db, st, now);
    }
  }

  lemma SteadyLoadClosed(d: Dbc, p: Player, db: Db, st: State, now: nat)
    requires ValidDbc(d) && (forall c :: Stored(d, c) && c.timeLimit != 0 ==> NotSummed(d, c))
    requires CacheOk(db, st) && Covered(d, db, st, now) && Closed(d, p, st)
    ensures Closed(d, p, Loaded(d, SaveDb(db, st), now, st))
  {
    var st' := Loaded(d, SaveDb(db, st), now, st);
    RoundTripCompleted(d, db, st, now);
    RoundTripProgress(d, db, st, now);
    forall a | Known(d, a) && IsCompletedAchievement(d, p, st', a)
      ensures a.id in st'.completed
    {
      var cs := OfAchievement(d.criteria, TestedId(a));
      TestedStored(d, TestedId(a));
      if a.summ {
        forall c | c in cs && c.id in st.progress && c.id !in st'.progress
          ensures st.progress[c.id].counter == 0
        {
          assert NotSummed(d, c) || c.timeLimit == 0;
        }
        SummDropZero(st.progress, st'.progress, cs, 0);
      } else {
        AcceptMonotone(d, p, st, st', a);
      }
      assert IsCompletedAchievement(d, p, st, a);
    }
  }

  lemma {:induction false} SummDropZero(progress: map<nat, Progress>, progress': map<nat, Progress>, cs: seq<Criteria>, sum: nat)
    requires sum < UINT32_LIMIT
    requires forall c :: c in cs && c.id in progress' ==> c.id in progress && progress[c.id].counter == progress'[c.id].counter
    requires forall c :: c in cs && c.id in progress && c.id !in progress' ==> progress[c.id].counter == 0
    requires SummReached(progress', cs, sum)
    ensures SummReached(progress, cs, sum)
  {
    if cs == [] {
    } else {
      var c := cs[0];
      assert c in cs;
      var sum' := if c.id in progress' then (sum + progress'[c.id].counter) % UINT32_LIMIT else sum;
      if !(c.id in progress' && sum' >= c.rawCount) {
        SummDropZero(progress, progress', cs[1..], sum');
      }
    }
  }

  lemma LoadedOk(d: Dbc, p: Player, db: Db, st: State, now: nat, steady: bool)
    requires StoredOk(d, db, st, now) && Once(d, st) && RealmKnows(d, st)
    requires steady ==> ValidDbc(d) && SafeLoad(d, st) && Closed(d, p, st)
    ensures
      var db', st' := SaveDb(db, st), Loaded(d, SaveDb(db, st), now, st);
      && StoredOk(d, db', st', now) && Once(d, st') && RealmKnows(d, st') && (steady ==> Closed(d, p, st'))
      && st'.completed.Keys == st.completed.Keys
  {
    RoundTripCompleted(d, db, st, now);
    RoundTripCache(d, db, st, now);
    if steady { LoadedClosed(d, p, db, st, now); }
  }

  lemma RelogOk(d: Dbc, r: Realm, i: nat, steady: bool)
    requires ValidDbc(d) && RealmOk(d, r, steady) && i < |r.accounts| && (steady ==> SafeLoad(d, View(r, i)))
    ensures RealmOk(d, Apply(d, r, Relogged(i)), steady)
  {
    var r' := Apply(d, r, Relogged(i));
    assert AccountOk(d, r, i, steady);
    LoadedOk(d, r.accounts[i].player, r.accounts[i].db, View(r, i), r.clock, steady);
    assert View(r', i) == Loaded(d, SaveDb(r.accounts[i].db, View(r, i)), r.clock, View(r, i));
    assert AccountOk(d, r', i, steady);
    OthersOk(d, r, r', i, steady);
  }

  lemma SaveOk(d: Dbc, r: Realm, i: nat, steady: bool)
    requires ValidDbc(d) && RealmOk(d, r, steady) && i < |r.accounts|
    ensures RealmOk(d, Apply(d, r, Saving(i)), steady)
  {
    var r' := Apply(d, r, Saving(i));
    assert AccountOk(d, r, i, steady) && View(r', i) == Saved(View(r, i));
    SavedStored(d, r.accounts[i].db, View(r, i), r.clock);
    if steady { SavedClosed(d, r.accounts[i].player, View(r, i)); }
    OthersOk(d, r, r', i, steady);
  }

  lemma SavedStored(d: Dbc, db: Db, st: State, clock: nat)
    requires StoredOk(d, db, st, clock)
    ensures StoredOk(d, SaveDb(db, st), Saved(st), clock)
  {
    SaveExact(db, st);
    SaveCleans(db, st);
    forall id | id in SaveDb(db, st).progress && id !in st.progress
      ensures Stale(d, SaveDb(db, st).progress[id], id, clock)
    {
      assert SaveDb(db, st).progress[id] == db.progress[id];
    }
  }

  lemma SavedClosed(d: Dbc, p: Player, st: State)
    requires Closed(d, p, st)
    ensures Closed(d, p, Saved(st))
  {
    forall a | Known(d, a) && IsCompletedAchievement(d, p, Saved(st), a) ensures a.id in Saved(st).completed {
      AcceptMonotone(d, p, st, Saved(st), a);
    }
  }

  /** Nothing changes for the others when only one character's own records do. */
  lemma OthersOk(d: Dbc, r: Realm, r': Realm, i: nat, steady: bool)
    requires RealmOk(d, r, steady) && i < |r.accounts| == |r'.accounts| && r'.done == r.done && r'.clock == r.clock
    requires r'.accounts[i].completed.Keys == r.accounts[i].completed.Keys
    requires forall j :: 0 <= j < |r.accounts| && j != i ==> r'.accounts[j] == r.accounts[j]
    requires AccountOk(d, r', i, steady)
    ensures RealmOk(d, r', steady)
  {
    forall j | 0 <= j < |r'.accounts| ensures AccountOk(d, r', j, steady) {
      if j != i {
        assert AccountOk(d, r, j, steady) && View(r', j) == View(r, j);
      }
    }
  }

  lemma ResetsClosed(d: Dbc, p: Player, now: nat, hit: Criteria -> bool, st: State, kind: nat)
    requires ValidDbc(d) && Closed(d, p, st) && SafeResets(d, st, kind)
    ensures Closed(d, p, ResetScan(d, p, now, hit, st, OfKind(d.criteria, kind)))
  {
    KindStored(d, kind);
    ResetScanClosed(d, p, now, hit, st, OfKind(d.criteria, kind));
  }

  lemma ApplyOk(d: Dbc, r: Realm, e: Event, steady: bool)
    requires ValidDbc(d) && RealmOk(d, r, steady) && (steady ==> Safe(d, r, e))
    ensures RealmOk(d, Apply(d, r, e), steady)
  {
    match e {
      case Elapsed(seconds) =>
        var r' := Apply(d, r, e);
        forall i | 0 <= i < |r.accounts| ensures AccountOk(d, r', i, steady) {
          assert AccountOk(d, r, i, steady) && View(r', i) == View(r, i);
        }
      case Updated(i, kind, act, inGroup) =>
        if i < |r.accounts| {
          var x := UpdateContext(d, r, i, act, inGroup);
          assert AccountOk(d, r, i, steady);
          UpdateEvolves(x, View(r, i), kind);
          if steady { UpdateClosed(x, View(r, i), kind); }
          PutOk(d, r, i, Update(x, View(r, i), kind), {kind, KIND_COMPLETE_ACHIEVEMENT}, steady);
        }
      case Reset(i, kind, hit) =>
        if i < |r.accounts| {
          var cs := OfKind(d.criteria, kind);
          KindStored(d, kind);
          assert AccountOk(d, r, i, steady);
          ResetScanEvolves(d, r.accounts[i].player, r.clock, hit, View(r, i), cs, {kind});
          if steady { ResetsClosed(d, r.accounts[i].player, r.clock, hit, View(r, i), kind); }
          PutOk(d, r, i, ResetScan(d, r.accounts[i].player, r.clock, hit, View(r, i), cs), {kind}, steady);
        }
      case Saving(i) => if i < |r.accounts| { SaveOk(d, r, i, steady); }
      case Relogged(i) => if i < |r.accounts| { RelogOk(d, r, i, steady); }
    }
  }

  /** The theorem over all runs: from an orderly realm every interleaving leads to orderly
      realms. In each of them every award was announced and rewarded exactly once over all
      sessions, the dirty flags are truthful, and a realm-first achievement has at most one
      holder; and in steady runs every character's completed set is closed. */
  lemma {:induction false} RunOk(d: Dbc, r: Realm, es: seq<Event>, steady: bool)
    requires ValidDbc(d) && RealmOk(d, r, steady)
    requires steady ==> AllSafe(d, r, es)
    ensures RealmOk(d, Run(d, r, es), steady)
    decreases |es|
  {
    if es == [] {
    } else {
      ApplyOk(d, r, es[0], steady);
      RunOk(d, Apply(d, r, es[0]), es[1..], steady);
    }
  }

  /** A realm of fresh characters is orderly. */
  lemma FreshOk(d: Dbc, players: seq<Player>, clock: nat)
    ensures RealmOk(d, Realm({}, clock,
              seq(|players|, i requires 0 <= i < |players| => Account(players[i], map[], map[], [], [], Db(map[], map[])))), true)
  {
    forall p ensures Closed(d, p, State(map[], map[], {}, [], [])) {
      FreshClosed(d, p, {}, [], []);
    }
  }

  const FIRST_KILL := Achievement(0, AnyFaction, false, false, true, true, 0, 0)
  const FIRST_LEVEL := Criteria(0, 0, KIND_REACH_LEVEL, AtLeast(80), 80, 0, 0, false)

  /** The exemption of realm-first kills is real: with that flag two characters obtain the
      same achievement, one update each. */
  lemma FirstKillShared(p: Player)
    requires 0 !in p.barred
    ensures
      var d := Dbc([Some(FIRST_KILL)], [Some(FIRST_LEVEL)]);
      var blank := Account(p, map[], map[], [], [], Db(map[], map[]));
      var up := (c: Criteria) => Advance(80, Set);
      ValidDbc(d) && var r := Run(d, Realm({}, 0, [blank, blank]),
                                  [Updated(0, KIND_REACH_LEVEL, up, false), Updated(1, KIND_REACH_LEVEL, up, false)]);
      |r.accounts| == 2 && 0 in r.accounts[0].completed && 0 in r.accounts[1].completed
  {
    var d := Dbc([Some(FIRST_KILL)], [Some(FIRST_LEVEL)]);
    var blank := Account(p, map[], map[], [], [], Db(map[], map[]));
    var up := (c: Criteria) => Advance(80, Set);
    var r0 := Realm({}, 0, [blank, blank]);
    var e0, e1 := Updated(0, KIND_REACH_LEVEL, up, false), Updated(1, KIND_REACH_LEVEL, up, false);
    FirstKillOne(p, up);
    var r1 := Apply(d, r0, e0);
    assert View(r1, 1) == View(r0, 1);
    var r2 := Apply(d, r1, e1);
    assert [e0, e1][1..] == [e1] && [e1][1..] == [];
    assert Run(d, r0, [e0, e1]) == Run(d, r1, [e1]) == Run(d, r2, []) == r2;
  }

  lemma FirstKillOne(p: Player, up: Oracle)
    requires 0 !in p.barred && up(FIRST_LEVEL) == Advance(80, Set)
    ensures
      var d := Dbc([Some(FIRST_KILL)], [Some(FIRST_LEVEL)]);
      var st := Update(Context(d, p, Env(false, 0), up), State(map[], map[], {}, [], []), KIND_REACH_LEVEL);
      0 in st.completed && st.realm == {}
  {
    var d := Dbc([Some(FIRST_KILL)], [Some(FIRST_LEVEL)]);
    var x := Context(d, p, Env(false, 0), up);
    var st := State(map[], map[], {}, [], []);
    OneCriterion();
    var st1 := SetProgress(st, FIRST_LEVEL, 80, Set, 0);
    assert IsCompletedAchievement(d, p, st1, FIRST_KILL);
    assert !IsCompletedCriteria(p, st, FIRST_LEVEL, FIRST_KILL);
    assert [FIRST_LEVEL][1..] == [];
    assert Award(x, st1, FIRST_KILL) == Record(st1, FIRST_KILL, 0).(rewarded := [] + [0]);
    var st2 := Award(x, st1, FIRST_KILL);
    assert Settle(x, st1, FIRST_LEVEL, FIRST_KILL) == CheckAll(x, st2, []) == st2;
    assert Visit(x, st, FIRST_LEVEL) == st2;
    assert Update(x, st, KIND_REACH_LEVEL) == Scan(x, st2, []) == st2;
  }

  lemma OneCriterion()
    ensures
      var d := Dbc([Some(FIRST_KILL)], [Some(FIRST_LEVEL)]);
      OfKind(d.criteria, KIND_REACH_LEVEL) == [FIRST_LEVEL] == OfAchievement(d.criteria, 0)
      && OfKind(d.criteria, KIND_COMPLETE_ACHIEVEMENT) == [] && Referencing(d.achievements, 0) == []
  {
    var cs := [Some(FIRST_LEVEL)];
    assert cs[..0] == [];
    assert OfKind(cs, KIND_REACH_LEVEL) == [] + [FIRST_LEVEL];
    assert OfAchievement(cs, 0) == [] + [FIRST_LEVEL];
    assert [Some(FIRST_KILL)][..0] == [];
  }
}
