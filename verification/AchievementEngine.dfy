/** What one achievement update means (src/game/AchievementMgr.cpp), as functions on values.

    The update scan, the completion check and the award are mutually recursive: awarding an
    achievement re-enters the scan, over all linked criteria, in the middle of the outer
    scan's loop. */
module AchievementEngine {
  import opened Options
  import opened AchievementStore

  datatype Progress = Progress(counter: nat, date: nat, changed: bool)
  datatype Completed = Completed(date: nat, changed: bool)

  /** One player's records with the realm-wide set, and two logs: the announcements sent
      and the rewards handled. */
  datatype State = State(
    progress: map<nat, Progress>, completed: map<nat, Completed>, realm: set<nat>,
    announced: seq<nat>, rewarded: seq<nat>)

  /** Fixed traits of a player. The barred achievements are the level ones of other classes and races. */
  datatype Player = Player(alliance: bool, barred: set<nat>)

  /** The surroundings of one update. */
  datatype Env = Env(inGroup: bool, now: nat)

  datatype Mode = Set | Accumulate | Highest

  /** What the kind-specific part of the scan decides for one criterion: to leave it, to
      go on without a change, to advance its counter, or to reset it and leave it. */
  datatype Action = Skip | Keep | Advance(value: nat, mode: Mode) | ResetAndSkip

  type Oracle = Criteria -> Action

  /** Everything one update depends on besides the state. */
  datatype Context = Context(dbc: Dbc, player: Player, env: Env, act: Oracle)

  function TestedId(a: Achievement): nat {
    if a.refAchievement != 0 then a.refAchievement else a.id
  }

  predicate IsCompletedCriteria(p: Player, st: State, c: Criteria, a: Achievement) {
    if a.counter then false
    else if (a.realmFirstReach || a.realmFirstKill) && a.id in st.realm then false
    else if c.id !in st.progress then false
    else
      match c.goal
      case Never => false
      case AtLeast(n) => !(c.kind == KIND_REACH_LEVEL && a.id in p.barred) && st.progress[c.id].counter >= n
  }

  /** The summing loop: 32-bit addition, checked against each criterion's own count. */
  predicate SummReached(progress: map<nat, Progress>, cs: seq<Criteria>, sum: nat) {
    if cs == [] then false
    else if cs[0].id !in progress then SummReached(progress, cs[1..], sum)
    else
      var sum' := (sum + progress[cs[0].id].counter) % UINT32_LIMIT;
      sum' >= cs[0].rawCount || SummReached(progress, cs[1..], sum')
  }

  /** The counting loop, with its early exit on a required number of completed criteria. */
  predicate CountReached(p: Player, st: State, a: Achievement, cs: seq<Criteria>, count: nat, all: bool) {
    if cs == [] then all && a.count == 0
    else
      var done := IsCompletedCriteria(p, st, cs[0], a);
      var count' := if done then count + 1 else count;
      (0 < a.count <= count') || CountReached(p, st, a, cs[1..], count', all && done)
  }

  predicate IsCompletedAchievement(d: Dbc, p: Player, st: State, a: Achievement) {
    var cs := OfAchievement(d.criteria, TestedId(a));
    if a.counter || cs == [] then false
    else if a.summ then SummReached(st.progress, cs, 0)
    else CountReached(p, st, a, cs, 0, true)
  }

  function Combine(mode: Mode, counter: nat, value: nat): nat {
    match mode
    case Set => value
    case Accumulate => if UINT32_LIMIT - 1 - counter > value then counter + value else UINT32_LIMIT - 1
    case Highest => if counter < value then value else counter
  }

  /** A time-limited record restarts at 1 once its window is over, and its window moves on. */
  function Stamp(r: Progress, c: Criteria, now: nat): Progress {
    if c.timeLimit == 0 then r
    else r.(counter := if r.date + c.timeLimit < now then 1 else r.counter, date := now)
  }

  function SetProgress(st: State, c: Criteria, value: nat, mode: Mode, now: nat): State {
    if c.id !in st.progress then
      if value == 0 then st
      else st.(progress := st.progress[c.id := Stamp(Progress(value, now, true), c, now)])
    else
      var r := st.progress[c.id];
      var counter := Combine(mode, r.counter, value);
      if counter == r.counter then st
      else st.(progress := st.progress[c.id := Stamp(r.(counter := counter, changed := true), c, now)])
  }

  /** The achievements that could still be awarded; the termination measure. */
  function Open(d: Dbc, st: State): set<nat> {
    set i | 0 <= i < |d.achievements| && d.achievements[i].Some? && !d.achievements[i].value.counter
            && i !in st.completed
  }

  lemma OpenShrinks(d: Dbc, st: State, st': State)
    requires st.completed.Keys <= st'.completed.Keys
    ensures |Open(d, st')| <= |Open(d, st)|
    ensures forall i :: i in Open(d, st) && i in st'.completed ==> |Open(d, st')| < |Open(d, st)|
  {
    assert Open(d, st') <= Open(d, st);
    SubsetCard(Open(d, st'), Open(d, st));
    forall i | i in Open(d, st) && i in st'.completed ensures |Open(d, st')| < |Open(d, st)| {
      assert Open(d, st') <= Open(d, st) - {i};
      SubsetCard(Open(d, st'), Open(d, st) - {i});
    }
  }

  lemma SubsetCard<T>(a: set<T>, b: set<T>)
    requires a <= b
    ensures |a| <= |b|
  {
    assert b == a + (b - a);
  }

  predicate Eligible(p: Player, a: Achievement) {
    match a.faction
    case AnyFaction => true
    case HordeOnly => !p.alliance
    case AllianceOnly => p.alliance
  }

  function ActionFor(act: Oracle, st: State, c: Criteria): Action {
    if c.kind == KIND_COMPLETE_ACHIEVEMENT then
      if c.linked in st.completed then Advance(1, Set) else Keep
    else act(c)
  }

  /** The update scan over the criteria of one kind. */
  function Scan(x: Context, st: State, cs: seq<Criteria>): (r: State)
    requires ValidDbc(x.dbc)
    ensures st.completed.Keys <= r.completed.Keys
    decreases |Open(x.dbc, st)|, 5, |cs|
  {
    if cs == [] then st
    else
      var st1 := Visit(x, st, cs[0]);
      OpenShrinks(x.dbc, st, st1);
      Scan(x, st1, cs[1..])
  }

  /** One turn of the scan's loop. */
  function Visit(x: Context, st: State, c: Criteria): (r: State)
    requires ValidDbc(x.dbc)
    ensures st.completed.Keys <= r.completed.Keys
    decreases |Open(x.dbc, st)|, 4, 0
  {
    if Skipped(x, st, c) then st
    else
      var a := LookupEntry(x.dbc, c.referred).value;
      match ActionFor(x.act, st, c)
      case Skip => st
      case ResetAndSkip => SetProgress(st, c, 0, Set, x.env.now)
      case Keep => Settle(x, st, c, a)
      case Advance(value, mode) =>
        var st1 := SetProgress(st, c, value, mode, x.env.now);
        OpenShrinks(x.dbc, st, st1);
        Settle(x, st1, c, a)
  }

  predicate Skipped(x: Context, st: State, c: Criteria) {
    var entry := LookupEntry(x.dbc, c.referred);
    (c.soloOnly && x.env.inGroup) || entry == None || !Eligible(x.player, entry.value)
    || IsCompletedCriteria(x.player, st, c, entry.value)
  }

  /** The completion checks after a criterion was looked at: its achievement, once more
      when that one sums, and every achievement that borrows its criteria. */
  function Settle(x: Context, st: State, c: Criteria, a: Achievement): (r: State)
    requires ValidDbc(x.dbc) && Known(x.dbc, a)
    ensures st.completed.Keys <= r.completed.Keys
    decreases |Open(x.dbc, st)|, 3, 0
  {
    var st1 := if IsCompletedCriteria(x.player, st, c, a) && !a.counter && a.id !in st.completed
               then Check(x, st, a) else st;
    OpenShrinks(x.dbc, st, st1);
    var st2 := if a.summ then Check(x, st1, a) else st1;
    OpenShrinks(x.dbc, st1, st2);
    ReferencingKnown(x.dbc, a.id);
    CheckAll(x, st2, Referencing(x.dbc.achievements, a.id))
  }

  function CheckAll(x: Context, st: State, candidates: seq<Achievement>): (r: State)
    requires ValidDbc(x.dbc) && (forall a :: a in candidates ==> Known(x.dbc, a))
    ensures st.completed.Keys <= r.completed.Keys
    decreases |Open(x.dbc, st)|, 2, |candidates|
  {
    if candidates == [] then st
    else
      var st1 := Check(x, st, candidates[0]);
      OpenShrinks(x.dbc, st, st1);
      CheckAll(x, st1, candidates[1..])
  }

  function Check(x: Context, st: State, a: Achievement): (r: State)
    requires ValidDbc(x.dbc) && Known(x.dbc, a)
    ensures st.completed.Keys <= r.completed.Keys
    decreases |Open(x.dbc, st)|, 1, 0
  {
    if IsCompletedAchievement(x.dbc, x.player, st, a) then Award(x, st, a) else st
  }

  /** The records an award writes before it re-enters the scan. */
  function Record(st: State, a: Achievement, now: nat): State {
    st.(announced := st.announced + [a.id],
        completed := st.completed[a.id := Completed(now, true)],
        realm := if a.realmFirstKill then st.realm else st.realm + {a.id})
  }

  function Award(x: Context, st: State, a: Achievement): (r: State)
    requires ValidDbc(x.dbc) && Known(x.dbc, a)
    ensures st.completed.Keys <= r.completed.Keys
    decreases |Open(x.dbc, st)|, 0, 0
  {
    if a.counter || a.id in st.completed then st
    else
      var st1 := Record(st, a, x.env.now);
      OpenShrinks(x.dbc, st, st1);
      assert a.id in Open(x.dbc, st);
      var st2 := Scan(x, st1, OfKind(x.dbc.criteria, KIND_COMPLETE_ACHIEVEMENT));
      st2.(rewarded := st2.rewarded + [a.id])
  }

  /** A whole update of one kind, as the game calls it. */
  function Update(x: Context, st: State, kind: nat): State
    requires ValidDbc(x.dbc)
  {
    Scan(x, st, OfKind(x.dbc.criteria, kind))
  }

  /** ResetAchievementCriteria: an unfinished criterion whose fields match goes back to 0. */
  function ResetScan(d: Dbc, p: Player, now: nat, hit: Criteria -> bool, st: State, cs: seq<Criteria>): State
    decreases |cs|
  {
    if cs == [] then st
    else ResetScan(d, p, now, hit, ResetOne(d, p, now, hit, st, cs[0]), cs[1..])
  }

  predicate Resettable(kind: nat) {
    kind == KIND_DAMAGE_DONE || kind == KIND_HEALING_DONE || kind == KIND_WIN_RATED_ARENA
  }

  function ResetOne(d: Dbc, p: Player, now: nat, hit: Criteria -> bool, st: State, c: Criteria): State {
    var entry := LookupEntry(d, c.referred);
    if entry == None || IsCompletedCriteria(p, st, c, entry.value) || !Resettable(c.kind) || !hit(c) then st
    else SetProgress(st, c, 0, Set, now)
  }

  // ----- what the checks mean -----

  /** How many of the criteria are completed for an achievement. */
  function DoneCount(p: Player, st: State, a: Achievement, cs: seq<Criteria>): nat {
    if cs == [] then 0
    else DoneCount(p, st, a, cs[1..]) + if IsCompletedCriteria(p, st, cs[0], a) then 1 else 0
  }

  /** The counting loop accepts exactly when the required number of criteria is completed,
      or all of them when no number is required. */
  lemma {:induction false} CountReachedMeaning(
      p: Player, st: State, a: Achievement, cs: seq<Criteria>, count: nat, all: bool)
    requires a.count == 0 || count < a.count
    ensures CountReached(p, st, a, cs, count, all) <==>
            if a.count == 0 then all && (forall c :: c in cs ==> IsCompletedCriteria(p, st, c, a))
            else a.count <= count + DoneCount(p, st, a, cs)
  {
    if cs == [] {
    } else {
      var done := IsCompletedCriteria(p, st, cs[0], a);
      var count' := if done then count + 1 else count;
      if a.count == 0 || count' < a.count {
        CountReachedMeaning(p, st, a, cs[1..], count', all && done);
      }
    }
  }

  /** Accumulation saturates instead of wrapping, and no mode ever leaves 32 bits. */
  lemma CombineBounds(mode: Mode, counter: nat, value: nat)
    requires counter < UINT32_LIMIT && value < UINT32_LIMIT
    ensures Combine(mode, counter, value) < UINT32_LIMIT
    ensures mode == Accumulate ==>
            Combine(mode, counter, value) == if counter + value < UINT32_LIMIT then counter + value else UINT32_LIMIT - 1
  {
  }

  /** With counters in 32 bits, a summed achievement is accepted when the total of some
      prefix of its criteria reaches the count named by the prefix's last one; the
      32-bit sum agrees with the true one as long as it does not wrap. */
  function Total(progress: map<nat, Progress>, cs: seq<Criteria>): nat {
    if cs == [] then 0
    else Total(progress, cs[1..]) + if cs[0].id in progress then progress[cs[0].id].counter else 0
  }

  /** The total up to a recorded criterion reaches the count that this one names. */
  predicate ReachedAt(progress: map<nat, Progress>, cs: seq<Criteria>, sum: nat, k: nat) {
    k < |cs| && cs[k].id in progress && sum + Total(progress, cs[..k + 1]) >= cs[k].rawCount
  }

  lemma ReachedLater(progress: map<nat, Progress>, cs: seq<Criteria>, sum: nat, k: nat)
    requires cs != []
    ensures
      var v := if cs[0].id in progress then progress[cs[0].id].counter else 0;
      ReachedAt(progress, cs, sum, k + 1) <==> ReachedAt(progress, cs[1..], sum + v, k)
  {
    if k < |cs| - 1 {
      assert cs[..k + 2][1..] == cs[1..][..k + 1];
    }
  }

  /** As long as the 32-bit sum does not wrap, the loop accepts exactly when some such total does. */
  lemma {:induction false} SummReachedMeaning(progress: map<nat, Progress>, cs: seq<Criteria>, sum: nat)
    requires sum + Total(progress, cs) < UINT32_LIMIT
    ensures SummReached(progress, cs, sum) <==> exists k: nat :: ReachedAt(progress, cs, sum, k)
  {
    if cs == [] {
    } else {
      var rest, v := cs[1..], if cs[0].id in progress then progress[cs[0].id].counter else 0;
      var sum' := sum + v;
      SummReachedMeaning(progress, rest, sum');
      assert Total(progress, cs[..1]) == v by {
        assert cs[..1][1..] == [];
      }
      assert ReachedAt(progress, cs, sum, 0) <==> cs[0].id in progress && sum' >= cs[0].rawCount;
      if k: nat :| ReachedAt(progress, rest, sum', k) {
        ReachedLater(progress, cs, sum, k);
      }
      if k: nat :| ReachedAt(progress, cs, sum, k) && k > 0 {
        ReachedLater(progress, cs, sum, k - 1);
      }
    }
  }
}
