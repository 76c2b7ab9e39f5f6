/** One bundle per wallet, plan and period: the sweep is idempotent, and a merge does not make room for a second one. */
module BundleLaws {
  import opened Models
  import opened Lots
  import opened Operations
  import opened Merges
  import opened Bundles
  import opened Soundness
  import opened Balances
  import opened Runs
  import opened MergeRuns
  import opened Evolution
  import opened Rows
  import opened Charging
  import opened MergedRetries

  /** Nothing is left to grant for an entitlement: never grantable again, or its period claimed for the user's wallet. */
  ghost predicate Spent(db: Db, now: int, e: Entitlement) {
    !Grantable(e, now)
    || (WalletOf(db.wallets, e.user).Some?
        && PlanBundle(WalletOf(db.wallets, e.user).value, e.plan, e.period) in db.claims)
  }

  lemma SpentGrantsNothing(db: Db, now: int, e: Entitlement)
    requires Spent(db, now, e)
    ensures BundleOp(db, now, e) == Step(db, Ok(None))
  {
  }

  lemma BundleKeepsWallet(db: Db, clock: int, now: int, f: Entitlement, user: nat, w: nat)
    requires Inv(db, clock) && clock <= now && WalletOf(db.wallets, user) == Some(w)
    ensures WalletOf(BundleOp(db, now, f).db.wallets, user) == Some(w)
  {
    BundleInv(db, clock, now, f);
    BundleUsers(db, now, f);
    KeepsWallet(BundleOp(db, now, f).db.wallets, user, w);
  }

  /** A bundle never reopens a period that is spent. */
  lemma StaysSpent(db: Db, clock: int, now: int, later: int, e: Entitlement, f: Entitlement)
    requires Inv(db, clock) && clock <= now && Spent(db, later, e)
    ensures Spent(BundleOp(db, now, f).db, later, e)
  {
    if Grantable(e, later) {
      var w := WalletOf(db.wallets, e.user).value;
      BundleEvolves(db, now, f);
      BundleKeepsWallet(db, clock, now, f, e.user, w);
      assert PlanBundle(w, e.plan, e.period) in BundleOp(db, now, f).db.claims;
    }
  }

  lemma GrantSpends(db: Db, clock: int, now: int, later: int, e: Entitlement)
    requires Inv(db, clock) && clock <= now <= later
    ensures Spent(BundleOp(db, now, e).db, later, e)
  {
    if Grantable(e, now) {
      var locked := LockWallet(db, e.user);
      LockInv(db, e.user, clock);
      KeepsWallet(locked.db.wallets, e.user, locked.w);
      if PlanBundle(locked.w, e.plan, e.period) !in locked.db.claims {
        CreditSpends(db, clock, now, e, BundleKey(e.plan, e.period));
      }
    }
  }

  lemma CreditSpends(db: Db, clock: int, now: int, e: Entitlement, key: string)
    requires Inv(db, clock) && clock <= now && Grantable(e, now)
    ensures var locked := LockWallet(db, e.user); var r := BundleCredit(WithClaim(locked.db, locked.w, e), now, e, key).db;
      WalletOf(r.wallets, e.user) == Some(locked.w) && PlanBundle(locked.w, e.plan, e.period) in r.claims
  {
    var locked := LockWallet(db, e.user);
    LockInv(db, e.user, clock);
    var claimed := WithClaim(locked.db, locked.w, e);
    ClaimInv(locked.db, claimed.claims, clock);
    CreditInv(claimed, clock, now, e.user, e.credits, Subscription, At(e.expires.value), key, {}, true);
    CreditUsers(claimed, now, e.user, e.credits, Subscription, At(e.expires.value), key, {}, true);
    CreditEvolves(claimed, now, e.user, e.credits, Subscription, At(e.expires.value), key, {}, true);
    KeepsWallet(BundleCredit(claimed, now, e, key).db.wallets, e.user, locked.w);
  }

  lemma {:induction false} SweepSpends(db: Db, clock: int, now: int, later: int, es: seq<Entitlement>, k: nat)
    requires Inv(db, clock) && clock <= now <= later && k <= |es|
    ensures var r := GrantBundles(db, now, es, k).db;
      Inv(r, now) && forall i | 0 <= i < k :: Spent(r, later, es[i])
    decreases k
  {
    CachedLater(db, clock, now);
    if k > 0 {
      SweepSpends(db, clock, now, later, es, k - 1);
      var before := GrantBundles(db, now, es, k - 1).db;
      BundleInv(before, now, now, es[k - 1]);
      GrantSpends(before, now, now, later, es[k - 1]);
      forall i | 0 <= i < k - 1 ensures Spent(BundleOp(before, now, es[k - 1]).db, later, es[i]) {
        StaysSpent(before, now, now, later, es[i], es[k - 1]);
      }
    }
  }

  lemma {:induction false} NothingLeft(db: Db, now: int, es: seq<Entitlement>, k: nat)
    requires k <= |es| && forall i | 0 <= i < |es| :: Spent(db, now, es[i])
    ensures GrantBundles(db, now, es, k) == Granting(db, 0)
    decreases k
  {
    if k > 0 {
      NothingLeft(db, now, es, k - 1);
      SpentGrantsNothing(db, now, es[k - 1]);
    }
  }

  /** A second sweep over the same entitlements grants nothing and changes nothing. */
  lemma SweepAgain(db: Db, clock: int, now: int, later: int, es: seq<Entitlement>)
    requires Inv(db, clock) && clock <= now <= later
    ensures var once := GrantBundles(db, now, es, |es|).db;
      GrantBundles(once, later, es, |es|) == Granting(once, 0)
  {
    SweepSpends(db, clock, now, later, es, |es|);
    NothingLeft(GrantBundles(db, now, es, |es|).db, later, es, |es|);
  }

  /** An unclaimed bundle is always counted as granted; it adds credits exactly when no row holds its key yet. */
  lemma CountedIsCreditedIff(db: Db, now: int, e: Entitlement, w: nat)
    requires Grantable(e, now) && WalletOf(db.wallets, e.user) == Some(w)
    requires PlanBundle(w, e.plan, e.period) !in db.claims
    ensures var r := BundleOp(db, now, e);
      && r.out.value.Some?
      && (|r.db.lots| > |db.lots| <==> KeyRow(db.txns, w, Caller(BundleKey(e.plan, e.period))).None?)
      && (|r.db.lots| == |db.lots| ==> r.db == WithClaim(db, w, e))
  {
    CreditAdds(WithClaim(db, w, e), now, e, BundleKey(e.plan, e.period), w);
  }

  lemma CreditAdds(db: Db, now: int, e: Entitlement, key: string, w: nat)
    requires Grantable(e, now) && WalletOf(db.wallets, e.user) == Some(w) && key != ""
    ensures var r := BundleCredit(db, now, e, key).db;
      if KeyRow(db.txns, w, Caller(key)).None? then |r.lots| == |db.lots| + 1 else r == db
  {
    if KeyRow(db.txns, w, Caller(key)).None? {
      var swept := Sweep(db, w, now);
      SettleLots(GrantLot(swept, w, now, e.credits, Subscription, At(e.expires.value), Caller(key), {}), w, now, 0);
    }
  }

  lemma {:induction false} SettleLots(db: Db, w: nat, now: int, k: nat)
    requires w < |db.wallets| && k <= |db.debts|
    ensures |SettleFrom(db, w, now, k).lots| == |db.lots|
    decreases |db.debts| - k
  {
    if k < |db.debts| {
      if !OpenDebt(db.debts[k], w) {
        SettleLots(db, w, now, k + 1);
      } else if Credits(db.lots, w, After(now)) > 0 {
        SettleLots(SettleOne(db, w, now, k), w, now, k + 1);
      }
    }
  }

  /**
   * When a merged account brings its bundle of the period along, the survivor's own bundle is still claimed and counted,
   * and adds nothing: the ledger key it would be written under has arrived with the other account's row.
   */
  lemma MergedBundleAddsNothing(db: Db, clock: int, now: int, fromUser: nat, sources: set<Source>, e: Entitlement,
                                later: int, t: nat)
    requires Inv(db, clock) && clock <= now && Grantable(e, later)
    requires MergeOp(db, now, fromUser, e.user, sources).out == Ok(true)
    requires t < |db.txns| && db.txns[t].wallet == WalletOf(db.wallets, fromUser).value
    requires db.txns[t].key == Caller(BundleKey(e.plan, e.period))
    requires WalletOf(db.wallets, e.user).Some?
    ensures var merged := MergeOp(db, now, fromUser, e.user, sources).db; var w := WalletOf(db.wallets, e.user).value;
      PlanBundle(w, e.plan, e.period) !in merged.claims ==>
        && BundleOp(merged, later, e).out.value.Some?
        && BundleOp(merged, later, e).db == WithClaim(merged, w, e)
  {
    var merged, w := MergeOp(db, now, fromUser, e.user, sources).db, WalletOf(db.wallets, e.user).value;
    MergeArrives(db, now, fromUser, e.user, sources);
    assert merged.txns[t].key == db.txns[t].key && merged.txns[t].wallet == w;
    SurvivorKept(db, clock, now, fromUser, e.user, sources, w);
    if PlanBundle(w, e.plan, e.period) !in merged.claims {
      AnswersWithRow(merged, later, e, w, t);
    }
  }

  lemma AnswersWithRow(db: Db, now: int, e: Entitlement, w: nat, t: nat)
    requires Grantable(e, now) && LockWallet(db, e.user) == Locked(db, w) && w < |db.wallets|
    requires PlanBundle(w, e.plan, e.period) !in db.claims
    requires t < |db.txns| && db.txns[t].wallet == w && db.txns[t].key == Caller(BundleKey(e.plan, e.period))
    ensures BundleOp(db, now, e).out.value.Some? && BundleOp(db, now, e).db == WithClaim(db, w, e)
  {
    if WalletOf(db.wallets, e.user) == Some(w) {
      CountedIsCreditedIff(db, now, e, w);
      CreditAdds(WithClaim(db, w, e), now, e, BundleKey(e.plan, e.period), w);
    }
  }
}
