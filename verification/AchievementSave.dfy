/** The write-back cache between a player's achievement records and the character database. */
module AchievementSave {
  import opened Options
  import opened AchievementStore
  import opened AchievementEngine
  import opened AchievementLedger

  datatype Row = Row(counter: nat, date: nat)

  /** One character's rows in character_achievement and character_achievement_progress. */
  datatype Db = Db(achievements: map<nat, nat>, progress: map<nat, Row>)

  function SaveAchievements(rows: map<nat, nat>, completed: map<nat, Completed>): map<nat, nat> {
    rows + map id | id in completed && completed[id].changed :: completed[id].date
  }

  /** The row of one record: a changed one is deleted, and written again unless its counter is 0. */
  function RowOf(rows: map<nat, Row>, progress: map<nat, Progress>, id: nat): Option<Row> {
    if id in progress && progress[id].changed then
      if progress[id].counter == 0 then None else Some(Row(progress[id].counter, progress[id].date))
    else if id in rows then Some(rows[id])
    else None
  }

  function SaveProgress(rows: map<nat, Row>, progress: map<nat, Progress>): map<nat, Row> {
    map id | id in rows.Keys + progress.Keys && RowOf(rows, progress, id).Some? :: RowOf(rows, progress, id).value
  }

  function CleanAchievements(completed: map<nat, Completed>): map<nat, Completed> {
    map id | id in completed :: completed[id].(changed := false)
  }

  function CleanProgress(progress: map<nat, Progress>): map<nat, Progress> {
    map id | id in progress :: progress[id].(changed := false)
  }

  function SaveDb(db: Db, st: State): Db {
    Db(SaveAchievements(db.achievements, st.completed), SaveProgress(db.progress, st.progress))
  }

  function Saved(st: State): State {
    st.(completed := CleanAchievements(st.completed), progress := CleanProgress(st.progress))
  }

  function LoadAchievements(d: Dbc, rows: map<nat, nat>): map<nat, Completed> {
    map id | id in rows && LookupEntry(d, id).Some? :: Completed(rows[id], false)
  }

  function LoadProgress(d: Dbc, rows: map<nat, Row>, now: nat): map<nat, Progress> {
    map id | id in rows && id < |d.criteria| && d.criteria[id].Some? && !Expired(d.criteria[id].value, rows[id], now) ::
      Progress(rows[id].counter, rows[id].date, false)
  }

  predicate Expired(c: Criteria, r: Row, now: nat) {
    c.timeLimit != 0 && r.date + c.timeLimit < now
  }

  /** The records while a save is under way: those still left are as they were. */
  function HalfCleanAchievements(all: map<nat, Completed>, left: set<nat>): map<nat, Completed> {
    map id | id in all :: if id in left then all[id] else all[id].(changed := false)
  }

  function HalfCleanProgress(all: map<nat, Progress>, left: set<nat>): map<nat, Progress> {
    map id | id in all :: if id in left then all[id] else all[id].(changed := false)
  }

  /** How one more record changes what is saved. */
  lemma SaveAchievementsStep(rows: map<nat, nat>, all: map<nat, Completed>, left: set<nat>, id: nat)
    requires id in left && left <= all.Keys
    ensures SaveAchievements(rows, all - (left - {id})) ==
            if all[id].changed then SaveAchievements(rows, all - left)[id := all[id].date]
            else SaveAchievements(rows, all - left)
    ensures HalfCleanAchievements(all, left - {id}) ==
            if all[id].changed then HalfCleanAchievements(all, left)[id := all[id].(changed := false)]
            else HalfCleanAchievements(all, left)
  {
  }

  lemma SaveAchievementsEnds(rows: map<nat, nat>, all: map<nat, Completed>)
    ensures SaveAchievements(rows, all - all.Keys) == rows && HalfCleanAchievements(all, all.Keys) == all
    ensures all - {} == all && HalfCleanAchievements(all, {}) == CleanAchievements(all)
  {
    assert all - all.Keys == map[];
  }

  lemma SaveProgressStep(rows: map<nat, Row>, all: map<nat, Progress>, left: set<nat>, id: nat)
    requires id in left && left <= all.Keys
    ensures SaveProgress(rows, all - (left - {id})) ==
            WriteRow(SaveProgress(rows, all - left), id, all[id])
    ensures HalfCleanProgress(all, left - {id}) ==
            if all[id].changed then HalfCleanProgress(all, left)[id := all[id].(changed := false)]
            else HalfCleanProgress(all, left)
  {
    var rows0, rows1 := SaveProgress(rows, all - left), SaveProgress(rows, all - (left - {id}));
    var rows2 := WriteRow(rows0, id, all[id]);
    assert forall k :: k != id ==> RowOf(rows, all - left, k) == RowOf(rows, all - (left - {id}), k);
    assert forall k :: k in rows1 <==> k in rows2;
  }

  /** A save starts from the rows as they are and ends when nothing is left. */
  lemma SaveProgressEnds(rows: map<nat, Row>, all: map<nat, Progress>)
    ensures SaveProgress(rows, all - all.Keys) == rows && HalfCleanProgress(all, all.Keys) == all
    ensures all - {} == all && HalfCleanProgress(all, {}) == CleanProgress(all)
  {
    var none := all - all.Keys;
    assert none == map[];
    assert forall k :: k in rows.Keys + none.Keys ==> RowOf(rows, none, k) == Some(rows[k]);
    assert forall k :: k in SaveProgress(rows, none) <==> k in rows;
  }

  function WriteRow(rows: map<nat, Row>, id: nat, r: Progress): map<nat, Row> {
    if !r.changed then rows
    else if r.counter == 0 then rows - {id}
    else (rows - {id})[id := Row(r.counter, r.date)]
  }

  /** What a new login loads, the logs of the session's past kept beside it. */
  function Loaded(d: Dbc, db: Db, now: nat, st: State): State {
    st.(completed := LoadAchievements(d, db.achievements), progress := LoadProgress(d, db.progress, now))
  }

  /** The dirty flags tell the truth: an unchanged record equals its row, and an unchanged
      zero counter has none. */
  ghost predicate CacheOk(db: Db, st: State) {
    && (forall id :: id in st.completed && !st.completed[id].changed ==>
          id in db.achievements && db.achievements[id] == st.completed[id].date)
    && (forall id :: id in st.progress && !st.progress[id].changed ==>
          if st.progress[id].counter == 0 then id !in db.progress
          else id in db.progress && db.progress[id] == Row(st.progress[id].counter, st.progress[id].date))
  }

  /** The database knows no more than memory, save rows whose time window was already over
      when they were loaded; and memory knows only entries of the tables. */
  ghost predicate Covered(d: Dbc, db: Db, st: State, now: nat) {
    && db.achievements.Keys <= st.completed.Keys
    && (forall id :: id in st.completed ==> LookupEntry(d, id).Some?)
    && (forall id :: id in db.progress ==> id in st.progress || Stale(d, db.progress[id], id, now))
    && (forall id :: id in st.progress ==> InTable(d, id))
  }

  ghost predicate InTable(d: Dbc, id: nat) {
    id < |d.criteria| && d.criteria[id].Some?
  }

  ghost predicate Stale(d: Dbc, r: Row, id: nat, now: nat) {
    InTable(d, id) && Expired(d.criteria[id].value, r, now)
  }

  /** No update can make a record differ from its row unnoticed. */
  lemma EvolvesCache(d: Dbc, db: Db, before: State, after: State, kinds: set<nat>)
    requires CacheOk(db, before) && Evolves(d, before, after, kinds)
    ensures CacheOk(db, after)
  {
  }

  /** After a save the rows of all records in memory are exactly the records, less the zero
      counters, and rows of other ids stay. */
  lemma SaveExact(db: Db, st: State)
    requires CacheOk(db, st)
    ensures AchievementRows(db.achievements, SaveDb(db, st).achievements, st.completed)
    ensures ProgressRows(db.progress, SaveDb(db, st).progress, st.progress)
  {
  }

  ghost predicate AchievementRows(rows: map<nat, nat>, rows': map<nat, nat>, completed: map<nat, Completed>) {
    forall id ::
      if id in completed then id in rows' && rows'[id] == completed[id].date
      else (id in rows' <==> id in rows) && (id in rows ==> rows'[id] == rows[id])
  }

  ghost predicate ProgressRows(rows: map<nat, Row>, rows': map<nat, Row>, progress: map<nat, Progress>) {
    forall id ::
      if id in progress then
        if progress[id].counter == 0 then id !in rows'
        else id in rows' && rows'[id] == Row(progress[id].counter, progress[id].date)
      else (id in rows' <==> id in rows) && (id in rows ==> rows'[id] == rows[id])
  }

  /** Saving keeps the flags truthful. */
  lemma SaveCleans(db: Db, st: State)
    requires CacheOk(db, st)
    ensures CacheOk(SaveDb(db, st), Saved(st))
  {
    SaveExact(db, st);
  }

  /** Saving leaves nothing to save: a second save writes no row. */
  lemma SaveIdempotent(db: Db, st: State)
    ensures SaveDb(db, Saved(st)) == db
  {
    var st' := Saved(st);
    assert (map id | id in st'.completed && st'.completed[id].changed :: st'.completed[id].date) == map[];
    assert (map id | id in st'.progress && st'.progress[id].changed && st'.progress[id].counter != 0 ::
              Row(st'.progress[id].counter, st'.progress[id].date)) == map[];
    assert SaveProgress(db.progress, st'.progress) == db.progress;
  }

  ghost predicate Surviving(d: Dbc, r: Progress, id: nat, now: nat) {
    r.counter != 0 && InTable(d, id) && !Expired(d.criteria[id].value, Row(r.counter, r.date), now)
  }

  /** Save and load is the identity on the completed set. */
  lemma RoundTripCompleted(d: Dbc, db: Db, st: State, now: nat)
    requires CacheOk(db, st) && Covered(d, db, st, now)
    ensures Loaded(d, SaveDb(db, st), now, st).completed == CleanAchievements(st.completed)
  {
    SaveExact(db, st);
    var rows := SaveDb(db, st).achievements;
    assert rows.Keys == st.completed.Keys;
  }

  /** Save and load is the identity on progress, up to zero counters and time-limited
      records whose window is over. */
  lemma RoundTripProgress(d: Dbc, db: Db, st: State, now: nat)
    requires CacheOk(db, st) && Covered(d, db, st, now)
    ensures
      var progress' := Loaded(d, SaveDb(db, st), now, st).progress;
      && (forall id :: id in progress' <==> id in st.progress && Surviving(d, st.progress[id], id, now))
      && (forall id :: id in progress' ==> progress'[id] == st.progress[id].(changed := false))
  {
    SaveExact(db, st);
    var rows := SaveDb(db, st).progress;
    forall id | id in rows && id !in st.progress ensures Stale(d, rows[id], id, now) {
      assert rows[id] == db.progress[id];
    }
  }

  /** The cache is in order again after the round trip. */
  lemma RoundTripCache(d: Dbc, db: Db, st: State, now: nat)
    requires CacheOk(db, st) && Covered(d, db, st, now)
    ensures
      var db', st' := SaveDb(db, st), Loaded(d, SaveDb(db, st), now, st);
      CacheOk(db', st') && Covered(d, db', st', now)
  {
    SaveExact(db, st);
    var db', st' := SaveDb(db, st), Loaded(d, SaveDb(db, st), now, st);
    RoundTripCompleted(d, db, st, now);
    RoundTripProgress(d, db, st, now);
    forall id | id in db'.progress ensures id in st'.progress || Stale(d, db'.progress[id], id, now) {
      if id !in st.progress { assert db'.progress[id] == db.progress[id]; }
    }
  }
}
