/** Plan bundles granted without a payment provider: one per wallet, plan and period, and the sweep that grants them. */
module Bundles {
  import opened Models
  import opened Lots
  import opened Operations

  /** One row of the entitlement list; a period key nobody can date has no deadline. */
  datatype Entitlement = Entitlement(user: nat, plan: string, period: string, credits: int, expires: Option<int>)

  /** The retry key the bundle's credit is written under. */
  function BundleKey(plan: string, period: string): (r: string)
    ensures r != ""
  {
    "plan-bundle:" + plan + ":" + period
  }

  /** There are credits to grant and a deadline still ahead. */
  predicate Grantable(e: Entitlement, now: int) { e.credits > 0 && e.expires.Some? && e.expires.value > now }

  /** The state with the period claimed for wallet w. */
  function WithClaim(db: Db, w: nat, e: Entitlement): Db {
    db.(claims := db.claims + {PlanBundle(w, e.plan, e.period)})
  }

  /** The bundle's credit, whose lot dies with the period. */
  function BundleCredit(db: Db, now: int, e: Entitlement, key: string): (r: Step<nat>)
    requires Grantable(e, now)
    ensures r.out.Ok?
  {
    CreditOp(db, now, e.user, e.credits, Subscription, At(e.expires.value), key, {}, true)
  }

  /** `grant_plan_bundle`: claim the period for the wallet, then credit. */
  function BundleOp(db: Db, now: int, e: Entitlement): (r: Step<Option<nat>>)
    ensures r.out.Ok?
  {
    if !Grantable(e, now) then Step(db, Ok(None)) else
      var locked := LockWallet(db, e.user);
      if PlanBundle(locked.w, e.plan, e.period) in locked.db.claims then Step(locked.db, Ok(None)) else
        var r := BundleCredit(WithClaim(locked.db, locked.w, e), now, e, BundleKey(e.plan, e.period));
        Step(r.db, Ok(Some(r.out.value)))
  }

  datatype Granting = Granting(db: Db, granted: nat)

  /** `grant_plan_bundles`: the first k entitlements, counting the grants. */
  function GrantBundles(db: Db, now: int, es: seq<Entitlement>, k: nat): Granting
    requires k <= |es|
    decreases k
  {
    if k == 0 then Granting(db, 0) else
      var before := GrantBundles(db, now, es, k - 1);
      var r := BundleOp(before.db, now, es[k - 1]);
      Granting(r.db, before.granted + if r.out.value.Some? then 1 else 0)
  }
}
