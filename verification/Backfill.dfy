// The model-group backfill (src/persistence/migrations.ts:406-461): plans that listed their models
// one by one move to one group, and only if that changes nobody's entitlement.

module Backfill {
  import opened Base

  type Id = string

  /** `membership`: models_json parsed, `None` when it is not an array of strings; ids are trimmed. */
  datatype Plan = Plan(membership: Option<seq<Id>>, active: bool, group: Option<Id>)

  datatype Policy = Policy(modelId: Id, enabled: bool)

  /** `models` maps each public id to its group. */
  datatype Catalog = Catalog(models: map<Id, Option<Id>>, plans: seq<Plan>, policies: seq<Policy>, groups: set<Id>)

  datatype Failure =
    | MembershipInvalid | MembershipModelMissing | MembershipAmbiguous | PolicyModelMissing | PolicyAmbiguous

  const LEGACY: Id := "legacy-default"
  const LEGACY_MODEL: Id := "lwrr-text"

  function IdSet(ids: seq<Id>): set<Id> { set id | id in ids }

  /** The models a plan listed. */
  function Listed(p: Plan): set<Id> { if p.membership.Some? then IdSet(p.membership.value) else {} }

  /** The models a group gives access to. */
  function Members(c: Catalog, group: Id): set<Id> {
    set id | id in c.models && c.models[id] == Some(group)
  }

  function PlanFailure(c: Catalog, p: Plan): Option<Failure> {
    if p.membership.None? || "" in p.membership.value then Some(MembershipInvalid)
    else if !(Listed(p) <= c.models.Keys) then Some(MembershipModelMissing)
    else if p.active && Listed(p) == {} then Some(MembershipAmbiguous)
    else None
  }

  /** A membership that is not the whole catalogue, judged by its size. */
  predicate Partial(c: Catalog, p: Plan) {
    |Listed(p)| == 0 || |Listed(p)| != |c.models| || !(Listed(p) <= c.models.Keys)
  }

  function PolicyFailure(c: Catalog, p: Policy): Option<Failure> {
    if p.modelId !in c.models then Some(PolicyModelMissing)
    else if p.enabled && |c.models| > 1 then Some(PolicyAmbiguous)
    else None
  }

  /** What the writes make of a validated catalogue. */
  function Rewritten(c: Catalog): Catalog {
    var models := map id | id in c.models :: if c.models[id].None? then Some(LEGACY) else c.models[id];
    Catalog(
      if |c.models| == 0 then models[LEGACY_MODEL := Some(LEGACY)] else models,
      seq(|c.plans|, i requires 0 <= i < |c.plans| =>
        if c.plans[i].group.None? then c.plans[i].(group := Some(LEGACY)) else c.plans[i]),
      c.policies,
      c.groups + {LEGACY})
  }

  ghost predicate Validated(c: Catalog) {
    && (forall i :: 0 <= i < |c.plans| ==> PlanFailure(c, c.plans[i]).None?)
    && (|c.models| > 1 ==> forall i :: 0 <= i < |c.plans| ==> !Partial(c, c.plans[i]))
    && (forall i :: 0 <= i < |c.policies| ==> PolicyFailure(c, c.policies[i]).None?)
  }

  /** The ids a plan listed are all of the catalogue's. */
  ghost predicate ListsAll(c: Catalog, ids: seq<Id>) {
    (forall id :: id in ids ==> id in c.models) && (forall id :: id in c.models ==> id in ids)
  }

  /** A readable plan of known models, some of them when active and all of them when there are several. */
  ghost predicate Migratable(c: Catalog, p: Plan) {
    match p.membership
    case None => false
    case Some(ids) =>
      && (forall id :: id in ids ==> id != "" && id in c.models)
      && (p.active ==> |ids| > 0)
      && (|c.models| > 1 ==> ListsAll(c, ids))
  }

  lemma SizeTells(c: Catalog, ids: seq<Id>)
    requires forall id :: id in ids ==> id in c.models
    ensures |IdSet(ids)| == |c.models| <==> ListsAll(c, ids)
  {
    assert |c.models| == |c.models.Keys|;
    if ListsAll(c, ids) {
      assert IdSet(ids) == c.models.Keys;
    } else if |IdSet(ids)| == |c.models| {
      SameSizeSubset(IdSet(ids), c.models.Keys);
    }
  }

  lemma SomeListed(ids: seq<Id>)
    ensures IdSet(ids) == {} <==> ids == []
  {
    if ids != [] {
      assert ids[0] in IdSet(ids);
    }
  }

  lemma PlanPasses(c: Catalog, p: Plan)
    ensures PlanFailure(c, p).None? && (|c.models| > 1 ==> !Partial(c, p)) <==> Migratable(c, p)
  {
    if p.membership.Some? {
      var ids := p.membership.value;
      SomeListed(ids);
      if forall id :: id in ids ==> id in c.models {
        SizeTells(c, ids);
        assert Listed(p) <= c.models.Keys;
      } else {
        var id :| id in ids && id !in c.models;
        assert id in Listed(p);
      }
    }
  }

  /**
   * The migration runs exactly when every plan is migratable, no policy names an unknown model, and none
   * is enabled in a catalogue of several.
   */
  lemma ValidatedExactly(c: Catalog)
    ensures Validated(c) <==>
              && (forall i :: 0 <= i < |c.plans| ==> Migratable(c, c.plans[i]))
              && (forall i :: 0 <= i < |c.policies| ==> c.policies[i].modelId in c.models)
              && (|c.models| > 1 ==> forall i :: 0 <= i < |c.policies| ==> !c.policies[i].enabled)
  {
    forall i | 0 <= i < |c.plans|
      ensures PlanFailure(c, c.plans[i]).None? && (|c.models| > 1 ==> !Partial(c, c.plans[i]))
              <==> Migratable(c, c.plans[i])
    {
      PlanPasses(c, c.plans[i]);
    }
    if Validated(c) {
      forall i | 0 <= i < |c.policies|
        ensures c.policies[i].modelId in c.models && (|c.models| > 1 ==> !c.policies[i].enabled)
      {
        assert PolicyFailure(c, c.policies[i]).None?;
      }
    }
  }

  /** What each refusal says of the tables. */
  ghost predicate Explains(c: Catalog, failure: Failure) {
    match failure
    case MembershipInvalid =>
      exists i :: 0 <= i < |c.plans| && (c.plans[i].membership.None? || "" in c.plans[i].membership.value)
    case MembershipModelMissing =>
      exists i :: 0 <= i < |c.plans| && c.plans[i].membership.Some?
                  && exists id :: id in c.plans[i].membership.value && id !in c.models
    case MembershipAmbiguous =>
      exists i :: 0 <= i < |c.plans| && c.plans[i].membership.Some?
                  && (|| (c.plans[i].active && c.plans[i].membership.value == [])
                      || (|c.models| > 1 && !ListsAll(c, c.plans[i].membership.value)))
    case PolicyModelMissing => exists i :: 0 <= i < |c.policies| && c.policies[i].modelId !in c.models
    case PolicyAmbiguous => |c.models| > 1 && exists i :: 0 <= i < |c.policies| && c.policies[i].enabled
  }

  lemma PlanExplains(c: Catalog, i: nat)
    requires i < |c.plans| && PlanFailure(c, c.plans[i]).Some?
    ensures Explains(c, PlanFailure(c, c.plans[i]).value)
  {
    var p := c.plans[i];
    if PlanFailure(c, p) == Some(MembershipModelMissing) {
      var id :| id in Listed(p) && id !in c.models;
      assert id in p.membership.value;
    } else if PlanFailure(c, p) == Some(MembershipAmbiguous) {
      SomeListed(p.membership.value);
    }
  }

  lemma PartialExplains(c: Catalog, i: nat)
    requires i < |c.plans| && PlanFailure(c, c.plans[i]).None? && |c.models| > 1 && Partial(c, c.plans[i])
    ensures Explains(c, MembershipAmbiguous)
  {
    PlanPasses(c, c.plans[i]);
    assert forall id :: id in c.plans[i].membership.value ==> id in Listed(c.plans[i]);
  }

  /** What is written: ungrouped models and plans move to the legacy group; an empty catalogue gets its one model. */
  lemma BackfillWrites(c: Catalog)
    ensures var r := Rewritten(c);
            && r.policies == c.policies && r.groups == c.groups + {"legacy-default"} && |r.plans| == |c.plans|
            && (forall i :: 0 <= i < |c.plans| ==>
                  r.plans[i] == c.plans[i].(group := if c.plans[i].group == None then Some("legacy-default")
                                                     else c.plans[i].group))
            && r.models.Keys == c.models.Keys + (if |c.models| == 0 then {"lwrr-text"} else {})
            && (forall id :: id in r.models ==>
                  r.models[id] == if id in c.models && c.models[id].Some? then c.models[id] else Some("legacy-default"))
  {
  }

  class Database {
    var tables: Catalog

    constructor (tables: Catalog)
      ensures this.tables == tables
    {
      this.tables := tables;
    }

    /** Every row is checked before any is written. */
    method CheckPlans() returns (failure: Option<Failure>)
      ensures failure.None? <==>
                && (forall i :: 0 <= i < |tables.plans| ==> PlanFailure(tables, tables.plans[i]).None?)
                && (|tables.models| > 1 ==> forall i :: 0 <= i < |tables.plans| ==> !Partial(tables, tables.plans[i]))
      ensures failure.Some? ==> Explains(tables, failure.value)
    {
      for i := 0 to |tables.plans|
        invariant forall k :: 0 <= k < i ==> PlanFailure(tables, tables.plans[k]).None?
      {
        failure := PlanFailure(tables, tables.plans[i]);
        if failure.Some? {
          PlanExplains(tables, i);
          return;
        }
      }
      if |tables.models| > 1 {
        for i := 0 to |tables.plans|
          invariant forall k :: 0 <= k < i ==> !Partial(tables, tables.plans[k])
        {
          if Partial(tables, tables.plans[i]) {
            PartialExplains(tables, i);
            return Some(MembershipAmbiguous);
          }
        }
      }
      return None;
    }

    method CheckPolicies() returns (failure: Option<Failure>)
      ensures failure.None?
              <==> forall i :: 0 <= i < |tables.policies| ==> PolicyFailure(tables, tables.policies[i]).None?
      ensures failure.Some? ==> Explains(tables, failure.value)
    {
      for i := 0 to |tables.policies|
        invariant forall k :: 0 <= k < i ==> PolicyFailure(tables, tables.policies[k]).None?
      {
        failure := PolicyFailure(tables, tables.policies[i]);
        if failure.Some? {
          return;
        }
      }
      return None;
    }

    /** A failed validation throws with every table as it was. */
    method RunBackfill() returns (failure: Option<Failure>)
      modifies this
      ensures failure.None? <==> Validated(old(tables))
      ensures failure.Some? ==> Explains(old(tables), failure.value)
      ensures tables == if failure.None? then Rewritten(old(tables)) else old(tables)
    {
      failure := CheckPlans();
      if failure.Some? {
        return;
      }
      failure := CheckPolicies();
      if failure.Some? {
        return;
      }
      var models, plans := tables.models, tables.plans;
      tables := tables.(groups := tables.groups + {LEGACY});
      tables := tables.(models := map id | id in models :: if models[id].None? then Some(LEGACY) else models[id]);
      tables := tables.(plans := seq(|plans|, i requires 0 <= i < |plans| =>
        if plans[i].group.None? then plans[i].(group := Some(LEGACY)) else plans[i]));
      if |models| == 0 {
        tables := tables.(models := tables.models[LEGACY_MODEL := Some(LEGACY)]);
      }
      assert tables.plans == Rewritten(old(tables)).plans;
    }
  }

  lemma SameSizeSubset(a: set<Id>, b: set<Id>)
    requires a <= b && |a| == |b|
    ensures a == b
  {
    assert b == a + (b - a);
  }

  /** Of a validated catalogue every active plan listed exactly the whole catalogue. */
  lemma ActivePlansListAll(c: Catalog, i: nat)
    requires Validated(c) && i < |c.plans| && c.plans[i].active
    ensures Listed(c.plans[i]) == c.models.Keys && c.models != map[]
  {
    var p := c.plans[i];
    var id :| id in Listed(p);
    assert |c.models| == |c.models.Keys|;
    if |c.models| > 1 {
      assert !Partial(c, p);
      SameSizeSubset(Listed(p), c.models.Keys);
    } else {
      assert id in c.models.Keys;
      SizeOne(Listed(p), c.models.Keys, id);
    }
  }

  lemma SizeOne(a: set<Id>, b: set<Id>, x: Id)
    requires x in a && a <= b && |b| <= 1
    ensures a == b
  {
    assert b == {x} + (b - {x});
  }

  /**
   * The backfill preserves entitlement: a plan that was active and in no group ends in a group whose
   * models are exactly those it listed, precisely when no model was already in some other group.
   */
  lemma EntitlementPreservedExactly(c: Catalog, i: nat)
    requires Validated(c) && i < |c.plans| && c.plans[i].active && c.plans[i].group.None?
    ensures var d := Rewritten(c);
            && d.plans[i] == c.plans[i].(group := Some(LEGACY)) && LEGACY in d.groups
            && (Members(d, LEGACY) == Listed(c.plans[i])
                <==> forall id :: id in c.models ==> c.models[id].None? || c.models[id] == Some(LEGACY))
  {
    ActivePlansListAll(c, i);
    var d := Rewritten(c);
    assert |c.models| > 0;
    assert d.models.Keys == c.models.Keys;
    if exists id :: id in c.models && c.models[id].Some? && c.models[id] != Some(LEGACY) {
      var id :| id in c.models && c.models[id].Some? && c.models[id] != Some(LEGACY);
      assert id !in Members(d, LEGACY);
    } else {
      assert Members(d, LEGACY) == c.models.Keys;
    }
  }

  /** As the migration runs it, right after the group columns are added empty, entitlement is preserved. */
  lemma MigrationPreservesEntitlement(c: Catalog, i: nat)
    requires Validated(c) && i < |c.plans| && c.plans[i].active
    requires (forall id :: id in c.models ==> c.models[id].None?)
             && forall k :: 0 <= k < |c.plans| ==> c.plans[k].group.None?
    ensures var d := Rewritten(c);
            d.plans[i].group == Some(LEGACY) && Members(d, LEGACY) == Listed(c.plans[i])
  {
    EntitlementPreservedExactly(c, i);
  }
}
