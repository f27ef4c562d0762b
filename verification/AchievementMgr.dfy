/** The achievement manager of one player, updating its records in place. */
module AchievementManager {
  import opened Options
  import opened AchievementStore
  import E = AchievementEngine
  import S = AchievementSave

  class AchievementMgr {
    const global: AchievementGlobalMgr
    const player: E.Player
    var criteriaProgress: map<nat, E.Progress>
    var completedAchievements: map<nat, E.Completed>
    var announced: seq<nat>
    var rewarded: seq<nat>

    constructor (global: AchievementGlobalMgr, player: E.Player)
      ensures this.global == global && this.player == player
      ensures Value() == E.State(map[], map[], global.allCompletedAchievements, [], [])
    {
      this.global, this.player := global, player;
      criteriaProgress, completedAchievements, announced, rewarded := map[], map[], [], [];
    }

    function Value(): E.State
      reads this, global
    {
      E.State(criteriaProgress, completedAchievements, global.allCompletedAchievements, announced, rewarded)
    }

    function Ctx(env: E.Env, act: E.Oracle): E.Context {
      E.Context(global.dbc, player, env, act)
    }

    method SetCriteriaProgress(c: Criteria, value: nat, mode: E.Mode, now: nat)
      modifies this
      ensures Value() == E.SetProgress(old(Value()), c, value, mode, now)
      ensures completedAchievements == old(completedAchievements)
    {
      var progress: E.Progress;
      if c.id !in criteriaProgress {
        if value == 0 {
          return;
        }
        progress := E.Progress(value, now, false);
      } else {
        progress := criteriaProgress[c.id];
        var newValue := 0;
        match mode {
          case Set =>
            newValue := value;
          case Accumulate =>
            newValue := if UINT32_LIMIT - 1 - progress.counter > value then progress.counter + value else UINT32_LIMIT - 1;
          case Highest =>
            newValue := if progress.counter < value then value else progress.counter;
        }
        if progress.counter == newValue {
          return;
        }
        progress := progress.(counter := newValue);
      }
      progress := progress.(changed := true);
      if c.timeLimit != 0 {
        if progress.date + c.timeLimit < now {
          progress := progress.(counter := 1);
        }
        progress := progress.(date := now);
      }
      criteriaProgress := criteriaProgress[c.id := progress];
    }

    /** The two counting loops of the completion check. */
    method IsCompletedAchievement(a: Achievement) returns (completed: bool)
      requires global.Indexed()
      ensures completed == E.IsCompletedAchievement(global.dbc, player, Value(), a)
    {
      if a.counter {
        return false;
      }
      var cs := global.GetCriteriaByAchievement(E.TestedId(a));
      if cs == [] {
        return false;
      }
      var count: nat := 0;
      if a.summ {
        for i := 0 to |cs|
          invariant E.SummReached(criteriaProgress, cs, 0) == E.SummReached(criteriaProgress, cs[i..], count)
        {
          if cs[i].id in criteriaProgress {
            count := (count + criteriaProgress[cs[i].id].counter) % UINT32_LIMIT;
            if count >= cs[i].rawCount {
              return true;
            }
          }
        }
        return false;
      }
      var completedAll := true;
      for i := 0 to |cs|
        invariant E.CountReached(player, Value(), a, cs, 0, true)
               == E.CountReached(player, Value(), a, cs[i..], count, completedAll)
      {
        if E.IsCompletedCriteria(player, Value(), cs[i], a) {
          count := count + 1;
        } else {
          completedAll := false;
        }
        if a.count > 0 && a.count <= count {
          return true;
        }
      }
      return completedAll && a.count == 0;
    }

    method UpdateAchievementCriteria(kind: nat, env: E.Env, act: E.Oracle)
      requires global.Indexed()
      modifies this, global`allCompletedAchievements
      ensures global.Indexed() && Value() == E.Update(Ctx(env, act), old(Value()), kind)
      decreases |E.Open(global.dbc, Value())|, 5
    {
      var x := Ctx(env, act);
      var cs := global.GetCriteriaByType(kind);
      for i := 0 to |cs|
        invariant global.Indexed() && old(completedAchievements).Keys <= completedAchievements.Keys
        invariant E.Scan(x, Value(), cs[i..]) == E.Scan(x, old(Value()), cs)
      {
        E.OpenShrinks(global.dbc, old(Value()), Value());
        UpdateOne(cs[i], env, act);
        assert cs[i..][1..] == cs[i + 1..];
      }
    }

    /** One turn of the scan. */
    method UpdateOne(c: Criteria, env: E.Env, act: E.Oracle)
      requires global.Indexed()
      modifies this, global`allCompletedAchievements
      ensures global.Indexed() && Value() == E.Visit(Ctx(env, act), old(Value()), c)
      decreases |E.Open(global.dbc, Value())|, 4
    {
      if c.soloOnly && env.inGroup {
        return;
      }
      var entry := LookupEntry(global.dbc, c.referred);
      if entry == None {
        return;
      }
      var a := entry.value;
      if !E.Eligible(player, a) {
        return;
      }
      if E.IsCompletedCriteria(player, Value(), c, a) {
        return;
      }
      match E.ActionFor(act, Value(), c) {
        case Skip =>
          return;
        case ResetAndSkip =>
          SetCriteriaProgress(c, 0, E.Set, env.now);
          return;
        case Keep =>
        case Advance(value, mode) =>
          SetCriteriaProgress(c, value, mode, env.now);
      }
      E.OpenShrinks(global.dbc, old(Value()), Value());
      CheckCompletion(c, a, env, act);
    }

    method CheckCompletion(c: Criteria, a: Achievement, env: E.Env, act: E.Oracle)
      requires global.Indexed() && Known(global.dbc, a)
      modifies this, global`allCompletedAchievements
      ensures global.Indexed() && Value() == E.Settle(Ctx(env, act), old(Value()), c, a)
      decreases |E.Open(global.dbc, Value())|, 3
    {
      var x := Ctx(env, act);
      if E.IsCompletedCriteria(player, Value(), c, a) {
        CompletedCriteriaFor(a, env, act);
      }
      E.OpenShrinks(global.dbc, old(Value()), Value());
      if a.summ {
        CompleteIfReached(a, env, act);
      }
      E.OpenShrinks(global.dbc, old(Value()), Value());
      var list := global.GetAchievementByReferencedId(a.id);
      ReferencingKnown(global.dbc, a.id);
      label borrowers:
      for i := 0 to |list|
        invariant global.Indexed() && old@borrowers(completedAchievements).Keys <= completedAchievements.Keys
        invariant E.CheckAll(x, Value(), list[i..]) == E.CheckAll(x, old@borrowers(Value()), list)
      {
        E.OpenShrinks(global.dbc, old@borrowers(Value()), Value());
        assert list[i] in list;
        CompleteIfReached(list[i], env, act);
        assert list[i..][1..] == list[i + 1..];
      }
    }

    method CompletedCriteriaFor(a: Achievement, env: E.Env, act: E.Oracle)
      requires global.Indexed() && Known(global.dbc, a)
      modifies this, global`allCompletedAchievements
      ensures global.Indexed()
      ensures Value() == if a.counter || a.id in old(completedAchievements) then old(Value())
                         else E.Check(Ctx(env, act), old(Value()), a)
      decreases |E.Open(global.dbc, Value())|, 2
    {
      if a.counter || a.id in completedAchievements {
        return;
      }
      CompleteIfReached(a, env, act);
    }

    method CompleteIfReached(a: Achievement, env: E.Env, act: E.Oracle)
      requires global.Indexed() && Known(global.dbc, a)
      modifies this, global`allCompletedAchievements
      ensures global.Indexed() && Value() == E.Check(Ctx(env, act), old(Value()), a)
      decreases |E.Open(global.dbc, Value())|, 1
    {
      var completed := IsCompletedAchievement(a);
      if completed {
        CompletedAchievement(a, env, act);
      }
    }

    method CompletedAchievement(a: Achievement, env: E.Env, act: E.Oracle)
      requires global.Indexed() && Known(global.dbc, a)
      modifies this, global`allCompletedAchievements
      ensures global.Indexed() && Value() == E.Award(Ctx(env, act), old(Value()), a)
      decreases |E.Open(global.dbc, Value())|, 0
    {
      if a.counter || a.id in completedAchievements {
        return;
      }
      announced := announced + [a.id];
      completedAchievements := completedAchievements[a.id := E.Completed(env.now, true)];
      if !a.realmFirstKill {
        global.SetRealmCompleted(a);
      }
      E.OpenShrinks(global.dbc, old(Value()), Value());
      assert a.id in E.Open(global.dbc, old(Value()));
      UpdateAchievementCriteria(KIND_COMPLETE_ACHIEVEMENT, env, act);
      rewarded := rewarded + [a.id];
    }

    method ResetAchievementCriteria(kind: nat, hit: Criteria -> bool, now: nat)
      requires global.Indexed()
      modifies this
      ensures Value() == E.ResetScan(global.dbc, player, now, hit, old(Value()), OfKind(global.dbc.criteria, kind))
    {
      var cs := global.GetCriteriaByType(kind);
      for i := 0 to |cs|
        invariant E.ResetScan(global.dbc, player, now, hit, Value(), cs[i..])
               == E.ResetScan(global.dbc, player, now, hit, old(Value()), cs)
      {
        var entry := LookupEntry(global.dbc, cs[i].referred);
        if entry.Some? && !E.IsCompletedCriteria(player, Value(), cs[i], entry.value)
           && E.Resettable(cs[i].kind) && hit(cs[i])
        {
          SetCriteriaProgress(cs[i], 0, E.Set, now);
        }
        assert cs[i..][1..] == cs[i + 1..];
      }
    }

    /** Writes every changed record, in any order, and clears its flag. */
    method SaveToDB(db: S.Db) returns (db': S.Db)
      modifies this
      ensures db' == S.SaveDb(db, old(Value())) && Value() == S.Saved(old(Value()))
    {
      var achievements := SaveAchievements(db.achievements);
      var progress := SaveProgress(db.progress);
      db' := S.Db(achievements, progress);
    }

    method SaveAchievements(rows: map<nat, nat>) returns (rows': map<nat, nat>)
      modifies this`completedAchievements
      ensures rows' == S.SaveAchievements(rows, old(completedAchievements))
      ensures completedAchievements == S.CleanAchievements(old(completedAchievements))
    {
      ghost var all := completedAchievements;
      S.SaveAchievementsEnds(rows, all);
      rows' := rows;
      var left := completedAchievements.Keys;
      while left != {}
        invariant left <= all.Keys
        invariant rows' == S.SaveAchievements(rows, all - left)
        invariant completedAchievements == S.HalfCleanAchievements(all, left)
        decreases |left|
      {
        var id :| id in left;
        S.SaveAchievementsStep(rows, all, left, id);
        left := left - {id};
        var r := completedAchievements[id];
        if r.changed {
          rows' := rows'[id := r.date];
          completedAchievements := completedAchievements[id := r.(changed := false)];
        }
      }
    }

    method SaveProgress(rows: map<nat, S.Row>) returns (rows': map<nat, S.Row>)
      modifies this`criteriaProgress
      ensures rows' == S.SaveProgress(rows, old(criteriaProgress))
      ensures criteriaProgress == S.CleanProgress(old(criteriaProgress))
    {
      ghost var all := criteriaProgress;
      S.SaveProgressEnds(rows, all);
      rows' := rows;
      var left := criteriaProgress.Keys;
      while left != {}
        invariant left <= all.Keys
        invariant rows' == S.SaveProgress(rows, all - left)
        invariant criteriaProgress == S.HalfCleanProgress(all, left)
        decreases |left|
      {
        var id :| id in left;
        S.SaveProgressStep(rows, all, left, id);
        left := left - {id};
        var r := criteriaProgress[id];
        if r.changed {
          rows' := rows' - {id};
          if r.counter != 0 {
            rows' := rows'[id := S.Row(r.counter, r.date)];
          }
          criteriaProgress := criteriaProgress[id := r.(changed := false)];
        }
      }
    }

    /** Fills the records of a manager without any from the rows, in any order. */
    method LoadFromDB(db: S.Db, now: nat)
      requires criteriaProgress == map[] && completedAchievements == map[]
      modifies this`criteriaProgress, this`completedAchievements
      ensures Value() == S.Loaded(global.dbc, db, now, old(Value()))
    {
      LoadAchievements(db.achievements);
      LoadProgress(db.progress, now);
    }

    method LoadAchievements(rows: map<nat, nat>)
      requires completedAchievements == map[]
      modifies this`completedAchievements
      ensures completedAchievements == S.LoadAchievements(global.dbc, rows)
    {
      var left := rows.Keys;
      while left != {}
        invariant left <= rows.Keys
        invariant completedAchievements ==
          map id | id in rows && id !in left && LookupEntry(global.dbc, id).Some? :: E.Completed(rows[id], false)
        decreases |left|
      {
        var id :| id in left;
        left := left - {id};
        if LookupEntry(global.dbc, id).Some? {
          completedAchievements := completedAchievements[id := E.Completed(rows[id], false)];
        }
      }
    }

    method LoadProgress(rows: map<nat, S.Row>, now: nat)
      requires criteriaProgress == map[]
      modifies this`criteriaProgress
      ensures criteriaProgress == S.LoadProgress(global.dbc, rows, now)
    {
      var criteria := global.dbc.criteria;
      var left := rows.Keys;
      while left != {}
        invariant left <= rows.Keys
        invariant criteriaProgress ==
          map id | id in rows && id !in left && id < |criteria| && criteria[id].Some?
                   && !S.Expired(criteria[id].value, rows[id], now) ::
            E.Progress(rows[id].counter, rows[id].date, false)
        decreases |left|
      {
        var id :| id in left;
        left := left - {id};
        if id < |criteria| && criteria[id].Some? && !S.Expired(criteria[id].value, rows[id], now) {
          criteriaProgress := criteriaProgress[id := E.Progress(rows[id].counter, rows[id].date, false)];
        }
      }
    }
  }
}
