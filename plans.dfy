/** The plan catalogue (`planService`): the idempotent seeding of the free plan and the
    lookup of a plan by name. */
module Plans {
  import opened Util
  import opened Db

  /** The id the free plan is seeded under. */
  const FreePlanId := 1

  /** The free plan as seeded: 'Grátis', price 0, ten uses a month, no checkout URL. */
  const FreePlan := Plan("Grátis", 0.0, 10, None)

  /** `ensureFreePlan(tx)`: reads plan 1 and inserts the free plan when it is missing;
      a failing lookup or insert is rethrown. */
  method EnsureFreePlan(db: Database) returns (r: Outcome)
    modifies db`plans
    ensures Plans in db.readFails ==> r == Fail(StorageError) && db.plans == old(db.plans)
    ensures Plans !in db.readFails && FreePlanId in old(db.plans) ==> r == Pass && db.plans == old(db.plans)
    ensures Plans !in db.readFails && FreePlanId !in old(db.plans) && Plans in db.writeFails ==>
      r == Fail(StorageError) && db.plans == old(db.plans)
    ensures Plans !in db.readFails && FreePlanId !in old(db.plans) && Plans !in db.writeFails ==>
      r == Pass && db.plans == old(db.plans)[FreePlanId := FreePlan]
    ensures r == Pass ==> db.plans == Ensured(old(db.plans))
  {
    if Plans in db.readFails {
      return Fail(StorageError);
    }
    if FreePlanId in db.plans {
      return Pass;
    }
    if Plans in db.writeFails {
      return Fail(StorageError);
    }
    db.plans := db.plans[FreePlanId := FreePlan];
    return Pass;
  }

  /** The effect of a successful `ensureFreePlan` on the catalogue. */
  function Ensured(plans: map<int, Plan>): map<int, Plan>
  {
    if FreePlanId in plans then plans else plans[FreePlanId := FreePlan]
  }

  /** After seeding, plan 1 exists; an existing plan 1 and every other plan are left as
      they were; seeding again inserts nothing. */
  lemma EnsuredProperties(plans: map<int, Plan>)
    ensures FreePlanId in Ensured(plans)
    ensures FreePlanId in plans ==> Ensured(plans)[FreePlanId] == plans[FreePlanId]
    ensures FreePlanId !in plans ==> Ensured(plans)[FreePlanId] == FreePlan
    ensures forall k :: k in plans ==> k in Ensured(plans) && Ensured(plans)[k] == plans[k]
    ensures Ensured(plans).Keys <= plans.Keys + {FreePlanId}
    ensures Ensured(Ensured(plans)) == Ensured(plans)
  {
  }

  /** `findPlanByName(db, name)`: a row with that name, or nothing. The query has no
      ORDER BY, so when several plans share a name the model leaves open which one. */
  method FindPlanByName(db: Database, name: string) returns (r: Result<Option<(int, Plan)>>)
    ensures Plans in db.readFails ==> r == Err(StorageError)
    ensures Plans !in db.readFails ==> r.Ok?
    ensures r.Ok? && r.value.Some? ==>
      && r.value.value.0 in db.plans && db.plans[r.value.value.0] == r.value.value.1 && r.value.value.1.name == name
    ensures r.Ok? && r.value.None? ==> forall k :: k in db.plans ==> db.plans[k].name != name
  {
    if Plans in db.readFails {
      return Err(StorageError);
    }
    if k :| k in db.plans && db.plans[k].name == name {
      return Ok(Some((k, db.plans[k])));
    }
    return Ok(None);
  }
}
