/** A value that may be missing: a null pointer or an absent row of the source. */
module Options {
  datatype Option<+T> = None | Some(value: T)
}

/** The static achievement data (src/game/DBCStructure.h) and the lookup indices that
    AchievementGlobalMgr derives from it at start-up. */
module AchievementStore {
  import opened Options

  const KIND_REACH_LEVEL: nat := 5
  const KIND_COMPLETE_ACHIEVEMENT: nat := 8
  const KIND_DAMAGE_DONE: nat := 13
  const KIND_WIN_RATED_ARENA: nat := 37
  const KIND_HEALING_DONE: nat := 55
  const KIND_TOTAL: nat := 124

  const UINT32_LIMIT: nat := 0x1_0000_0000

  datatype Faction = AnyFaction | HordeOnly | AllianceOnly

  datatype Achievement = Achievement(
    id: nat, faction: Faction, counter: bool, summ: bool, realmFirstReach: bool, realmFirstKill: bool,
    count: nat, refAchievement: nat)

  /** When a criterion counts as completed: never for the statistic-only kinds, else when
      its counter reaches the threshold field of its kind. */
  datatype Goal = Never | AtLeast(threshold: nat)

  datatype Criteria = Criteria(
    id: nat, referred: nat, kind: nat, goal: Goal, rawCount: nat, timeLimit: nat, linked: nat, soloOnly: bool)

  /** The two tables, indexed by entry id; a hole is a missing row. */
  datatype Dbc = Dbc(achievements: seq<Option<Achievement>>, criteria: seq<Option<Criteria>>)

  ghost predicate ValidDbc(d: Dbc) {
    && (forall i :: 0 <= i < |d.achievements| && d.achievements[i].Some? ==> d.achievements[i].value.id == i)
    && (forall i :: 0 <= i < |d.criteria| && d.criteria[i].Some? ==> ValidCriteria(d.criteria[i].value, i))
  }

  ghost predicate ValidCriteria(c: Criteria, i: nat) {
    c.id == i && c.kind < KIND_TOTAL && (c.kind == KIND_COMPLETE_ACHIEVEMENT ==> c.goal == AtLeast(1))
  }

  function LookupEntry(d: Dbc, id: nat): Option<Achievement> {
    if id < |d.achievements| then d.achievements[id] else None
  }

  ghost predicate Stored(d: Dbc, c: Criteria) {
    c.id < |d.criteria| && d.criteria[c.id] == Some(c)
  }

  ghost predicate Known(d: Dbc, a: Achievement) {
    LookupEntry(d, a.id) == Some(a)
  }

  /** The criteria of one kind, in table order. */
  function OfKind(cs: seq<Option<Criteria>>, kind: nat): seq<Criteria> {
    if cs == [] then []
    else
      var rest := OfKind(cs[..|cs| - 1], kind);
      match cs[|cs| - 1]
      case None => rest
      case Some(c) => if c.kind == kind then rest + [c] else rest
  }

  /** The criteria that refer to one achievement, in table order. */
  function OfAchievement(cs: seq<Option<Criteria>>, id: nat): seq<Criteria> {
    if cs == [] then []
    else
      var rest := OfAchievement(cs[..|cs| - 1], id);
      match cs[|cs| - 1]
      case None => rest
      case Some(c) => if c.referred == id then rest + [c] else rest
  }

  /** The achievements that borrow the criteria of another one, in table order. */
  function Referencing(achievements: seq<Option<Achievement>>, id: nat): seq<Achievement> {
    if achievements == [] then []
    else
      var rest := Referencing(achievements[..|achievements| - 1], id);
      match achievements[|achievements| - 1]
      case None => rest
      case Some(a) => if a.refAchievement == id && id != 0 then rest + [a] else rest
  }

  lemma {:induction false} OfKindMembers(cs: seq<Option<Criteria>>, kind: nat, c: Criteria)
    ensures c in OfKind(cs, kind) <==> Some(c) in cs && c.kind == kind
  {
    if cs == [] {
    } else {
      OfKindMembers(cs[..|cs| - 1], kind, c);
      assert cs == cs[..|cs| - 1] + [cs[|cs| - 1]];
    }
  }

  lemma {:induction false} OfAchievementMembers(cs: seq<Option<Criteria>>, id: nat, c: Criteria)
    ensures c in OfAchievement(cs, id) <==> Some(c) in cs && c.referred == id
  {
    if cs == [] {
    } else {
      OfAchievementMembers(cs[..|cs| - 1], id, c);
      assert cs == cs[..|cs| - 1] + [cs[|cs| - 1]];
    }
  }

  lemma {:induction false} ReferencingMembers(achievements: seq<Option<Achievement>>, id: nat, a: Achievement)
    ensures a in Referencing(achievements, id) <==> Some(a) in achievements && a.refAchievement == id && id != 0
  {
    if achievements == [] {
    } else {
      ReferencingMembers(achievements[..|achievements| - 1], id, a);
      assert achievements == achievements[..|achievements| - 1] + [achievements[|achievements| - 1]];
    }
  }

  lemma KindStored(d: Dbc, kind: nat)
    requires ValidDbc(d)
    ensures forall c :: c in OfKind(d.criteria, kind) <==> Stored(d, c) && c.kind == kind
  {
    forall c ensures c in OfKind(d.criteria, kind) <==> Stored(d, c) && c.kind == kind {
      OfKindMembers(d.criteria, kind, c);
    }
  }

  lemma TestedStored(d: Dbc, id: nat)
    requires ValidDbc(d)
    ensures forall c :: c in OfAchievement(d.criteria, id) <==> Stored(d, c) && c.referred == id
  {
    forall c ensures c in OfAchievement(d.criteria, id) <==> Stored(d, c) && c.referred == id {
      OfAchievementMembers(d.criteria, id, c);
    }
  }

  lemma ReferencingKnown(d: Dbc, id: nat)
    requires ValidDbc(d)
    ensures forall a :: a in Referencing(d.achievements, id) <==> Known(d, a) && a.refAchievement == id && id != 0
  {
    forall a ensures a in Referencing(d.achievements, id) <==> Known(d, a) && a.refAchievement == id && id != 0 {
      ReferencingMembers(d.achievements, id, a);
    }
  }

  /** The server-wide achievement data: the indices, and which achievements the realm has seen. */
  class AchievementGlobalMgr {
    const dbc: Dbc
    var criteriasByType: map<nat, seq<Criteria>>
    var criteriaListByAchievement: map<nat, seq<Criteria>>
    var listByReferencedId: map<nat, seq<Achievement>>
    var allCompletedAchievements: set<nat>

    /** Each index lookup gives exactly the entries that a search of the tables would. */
    ghost predicate Indexed()
      reads this
    {
      && ValidDbc(dbc)
      && (forall kind :: GetCriteriaByType(kind) == OfKind(dbc.criteria, kind))
      && (forall id :: GetCriteriaByAchievement(id) == OfAchievement(dbc.criteria, id))
      && (forall id :: GetAchievementByReferencedId(id) == Referencing(dbc.achievements, id))
    }

    function GetCriteriaByType(kind: nat): seq<Criteria>
      reads this
    {
      if kind in criteriasByType then criteriasByType[kind] else []
    }

    function GetCriteriaByAchievement(id: nat): seq<Criteria>
      reads this
    {
      if id in criteriaListByAchievement then criteriaListByAchievement[id] else []
    }

    function GetAchievementByReferencedId(id: nat): seq<Achievement>
      reads this
    {
      if id in listByReferencedId then listByReferencedId[id] else []
    }

    /** Builds the indices row by row, as the loaders do. */
    constructor (d: Dbc)
      requires ValidDbc(d)
      ensures Indexed() && dbc == d && allCompletedAchievements == {}
    {
      dbc := d;
      criteriasByType, criteriaListByAchievement, listByReferencedId := map[], map[], map[];
      allCompletedAchievements := {};
      new;
      LoadAchievementCriteriaList(d);
      LoadAchievementReferenceList(d);
    }

    method LoadAchievementCriteriaList(d: Dbc)
      requires criteriasByType == map[] && criteriaListByAchievement == map[]
      modifies this`criteriasByType, this`criteriaListByAchievement
      ensures forall kind :: GetCriteriaByType(kind) == OfKind(d.criteria, kind)
      ensures forall id :: GetCriteriaByAchievement(id) == OfAchievement(d.criteria, id)
    {
      for i := 0 to |d.criteria|
        invariant forall kind :: GetCriteriaByType(kind) == OfKind(d.criteria[..i], kind)
        invariant forall id :: GetCriteriaByAchievement(id) == OfAchievement(d.criteria[..i], id)
      {
        assert d.criteria[..i + 1][..i] == d.criteria[..i];
        if d.criteria[i].Some? {
          var c := d.criteria[i].value;
          criteriasByType := criteriasByType[c.kind := GetCriteriaByType(c.kind) + [c]];
          criteriaListByAchievement :=
            criteriaListByAchievement[c.referred := GetCriteriaByAchievement(c.referred) + [c]];
        }
      }
      assert d.criteria[..|d.criteria|] == d.criteria;
    }

    method LoadAchievementReferenceList(d: Dbc)
      requires listByReferencedId == map[]
      modifies this`listByReferencedId
      ensures forall id :: GetAchievementByReferencedId(id) == Referencing(d.achievements, id)
    {
      for i := 0 to |d.achievements|
        invariant forall id :: GetAchievementByReferencedId(id) == Referencing(d.achievements[..i], id)
      {
        assert d.achievements[..i + 1][..i] == d.achievements[..i];
        if d.achievements[i].Some? && d.achievements[i].value.refAchievement != 0 {
          var a := d.achievements[i].value;
          listByReferencedId :=
            listByReferencedId[a.refAchievement := GetAchievementByReferencedId(a.refAchievement) + [a]];
        }
      }
      assert d.achievements[..|d.achievements|] == d.achievements;
    }

    method SetRealmCompleted(a: Achievement)
      modifies this`allCompletedAchievements
      ensures allCompletedAchievements == old(allCompletedAchievements) + {a.id}
    {
      allCompletedAchievements := allCompletedAchievements + {a.id};
    }
  }
}
