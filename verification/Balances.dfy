/** `Wallet.balance` as a cache of the live lots: what each operation leaves in it, and in every other wallet. */
module Balances {
  import opened Sums
  import opened Models
  import opened Lots
  import opened Operations
  import opened Clawbacks
  import opened ClawbackBooks
  import opened Books
  import opened Soundness
  import opened MoreSoundness

  /** The cache lies between what is live and what is left. */
  ghost predicate CachedAt(db: Db, v: nat, clock: int)
    requires v < |db.wallets|
  {
    Credits(db.lots, v, After(clock)) <= db.wallets[v].balance <= Credits(db.lots, v, Everything)
  }

  ghost predicate Cached(db: Db, clock: int) {
    forall v {:trigger CachedAt(db, v, clock)} | 0 <= v < |db.wallets| :: CachedAt(db, v, clock)
  }

  /** The cache is exact. */
  ghost predicate Fresh(db: Db, w: nat, now: int) {
    w < |db.wallets| && db.wallets[w].balance == Credits(db.lots, w, After(now))
  }

  /** An operation on w leaves every other wallet's cache and credits alone. */
  ghost predicate OnlyWallet(db: Db, db': Db, w: nat) {
    && |db'.wallets| == |db.wallets|
    && (forall v {:trigger db'.wallets[v]} | 0 <= v < |db.wallets| && v != w :: db'.wallets[v] == db.wallets[v])
    && (forall v: nat, c {:trigger Credits(db'.lots, v, c)} | v != w ::
          Credits(db'.lots, v, c) == Credits(db.lots, v, c))
  }

  /** Untouched caches stay within their bounds as time passes. */
  lemma CachedLater(db: Db, clock: int, now: int)
    requires Cached(db, clock) && clock <= now
    ensures Cached(db, now)
  {
    forall v | 0 <= v < |db.wallets| ensures CachedAt(db, v, now) {
      assert CachedAt(db, v, clock);
      CreditsLater(db.lots, v, clock, now);
    }
  }

  /** An operation that leaves its own wallet exact keeps every cache within its bounds. */
  lemma FreshKeepsCached(db: Db, db': Db, w: nat, clock: int, now: int)
    requires Cached(db, clock) && clock <= now && OnlyWallet(db, db', w) && Fresh(db', w, now)
    ensures Cached(db', now)
  {
    CachedLater(db, clock, now);
    forall v | 0 <= v < |db'.wallets| ensures CachedAt(db', v, now) {
      if v == w {
        CreditsLater(db'.lots, w, now, now);
      } else {
        assert CachedAt(db, v, now);
      }
    }
  }

  lemma SweepOnly(db: Db, w: nat, now: int)
    requires w < |db.wallets|
    ensures OnlyWallet(db, Sweep(db, w, now), w)
  {
    forall v: nat, c | v != w ensures Credits(Sweep(db, w, now).lots, v, c) == Credits(db.lots, v, c) {
      SweepCredits(db, w, now, v, c);
    }
  }

  /** After a sweep the cache is exact, even when nothing was due and nothing was written. */
  lemma SweepFresh(db: Db, w: nat, clock: int, now: int)
    requires w < |db.wallets| && Cached(db, clock) && clock <= now
    ensures Fresh(Sweep(db, w, now), w, now)
    ensures Credits(Sweep(db, w, now).lots, w, Everything) == Credits(Sweep(db, w, now).lots, w, After(now))
  {
    SweepCredits(db, w, now, w, Everything);
    NothingDue(Sweep(db, w, now).lots, w, now);
    if Soonest(db.lots, Due(w, now)).None? {
      assert CachedAt(db, w, clock);
      CreditsLater(db.lots, w, clock, now);
    }
  }

  lemma GrantLotOnly(db: Db, w: nat, now: int, n: nat, source: Source, expires: Expiry, key: Key, refs: set<string>)
    requires w < |db.wallets|
    ensures OnlyWallet(db, GrantLot(db, w, now, n, source, expires, key, refs), w)
    ensures Fresh(GrantLot(db, w, now, n, source, expires, key, refs), w, now)
  {
    forall v: nat, c | v != w
      ensures Credits(GrantLot(db, w, now, n, source, expires, key, refs).lots, v, c) == Credits(db.lots, v, c)
    {
      AppendCredits(db.lots, Lot(w, source, n, n, expires, Some(|db.txns|)), v, c);
    }
  }

  lemma ConsumeOnly(db: Db, w: nat, now: int, n: nat)
    requires w < |db.wallets|
    ensures OnlyWallet(db, Sync(db.(lots := Consume(db.lots, w, now, n).lots), w, now), w)
  {
    forall v: nat, c | v != w ensures Credits(Consume(db.lots, w, now, n).lots, v, c) == Credits(db.lots, v, c) {
      ConsumeMoves(db.lots, w, now, n, v, c);
    }
  }

  lemma ChargeLotsOnly(db: Db, w: nat, now: int, requested: nat, chargeable: nat, key: Key)
    requires w < |db.wallets| && chargeable <= requested
    ensures OnlyWallet(db, ChargeLots(db, w, now, requested, chargeable, key), w)
    ensures Fresh(ChargeLots(db, w, now, requested, chargeable, key), w, now)
  {
    ConsumeOnly(db, w, now, chargeable);
  }

  lemma ReserveOnly(db: Db, w: nat, now: int, n: nat, key: string, deadline: Expiry, waived: Option<nat>,
                    prior: Option<nat>)
    requires w < |db.wallets| && (prior.Some? ==> prior.value < |db.holds|)
    ensures OnlyWallet(db, Reserve(db, w, now, n, key, deadline, waived, prior), w)
    ensures Fresh(Reserve(db, w, now, n, key, deadline, waived, prior), w, now)
  {
    ConsumeOnly(db, w, now, n);
  }

  lemma {:induction false} SettleFromOnly(db: Db, w: nat, now: int, k: nat)
    requires w < |db.wallets| && k <= |db.debts| && Fresh(db, w, now)
    ensures OnlyWallet(db, SettleFrom(db, w, now, k), w) && Fresh(SettleFrom(db, w, now, k), w, now)
    decreases |db.debts| - k
  {
    if k < |db.debts| {
      if !OpenDebt(db.debts[k], w) {
        SettleFromOnly(db, w, now, k + 1);
      } else if Credits(db.lots, w, After(now)) > 0 {
        ConsumeOnly(db, w, now, Min(db.debts[k].outstanding, Credits(db.lots, w, After(now))));
        SettleFromOnly(SettleOne(db, w, now, k), w, now, k + 1);
      }
    }
  }

  lemma ExtendOnly(db: Db, h: nat, now: int, extra: nat)
    requires h < |db.holds|
    ensures OnlyWallet(db, Extend(db, h, now, extra), db.holds[h].wallet)
  {
    var w := db.holds[h].wallet;
    forall v: nat, c | v != w ensures Credits(Extend(db, h, now, extra).lots, v, c) == Credits(db.lots, v, c) {
      ConsumeMoves(db.lots, w, now, extra, v, c);
    }
  }

  lemma GiveBackOnly(db: Db, h: nat, n: nat)
    requires h < |db.holds|
    ensures OnlyWallet(db, GiveBack(db, h, n), db.holds[h].wallet)
  {
    var held := db.holds[h];
    if Located(held.allocs, db.lots) {
      forall v: nat, c | v != held.wallet ensures Credits(GiveBack(db, h, n).lots, v, c) == Credits(db.lots, v, c) {
        RefundMoves(db.lots, held.wallet, held.allocs, |held.allocs|, n, v, c);
      }
    }
  }

  lemma BillOnly(db: Db, h: nat, now: int, n: nat, waived: Option<nat>)
    requires h < |db.holds| && db.holds[h].wallet < |db.wallets|
    ensures OnlyWallet(db, Bill(db, h, now, n, waived), db.holds[h].wallet)
    ensures Fresh(Bill(db, h, now, n, waived), db.holds[h].wallet, now)
  {
  }

  lemma ClawBackOnly(db: Db, now: int, g: nat, requested: nat, reason: ClawReason, objectId: string)
    requires g < |db.txns| && db.txns[g].wallet < |db.wallets| && Home(db.lots, g, db.txns[g].wallet)
    ensures OnlyWallet(db, ClawBack(db, now, g, requested, reason, objectId), db.txns[g].wallet)
    ensures Fresh(ClawBack(db, now, g, requested, reason, objectId), db.txns[g].wallet, now)
  {
    var w := db.txns[g].wallet;
    SweepOnly(db, w, now);
    var swept := Sweep(db, w, now);
    var r := ClawBack(db, now, g, requested, reason, objectId);
    forall v: nat, c | v != w ensures Credits(r.lots, v, c) == Credits(db.lots, v, c) {
      TakeGrantedMoves(swept.lots, g, 0, requested, w, v, c);
      assert Credits(swept.lots, v, c) == Credits(db.lots, v, c);
    }
  }

  lemma RestoreOnly(db: Db, now: int, t: nat, w: nat, g: nat, n: nat)
    requires w < |db.wallets|
    ensures OnlyWallet(db, Restore(db, now, t, w, g, n), w) && Fresh(Restore(db, now, t, w, g, n), w, now)
  {
    var added := db.(lots := db.lots + [RestoredLot(db, w, g, n)]);
    SweepOnly(added, w, now);
    var r := Restore(db, now, t, w, g, n);
    forall v: nat, c | v != w ensures Credits(r.lots, v, c) == Credits(db.lots, v, c) {
      AppendCredits(db.lots, RestoredLot(db, w, g, n), v, c);
      assert Credits(Sweep(added, w, now).lots, v, c) == Credits(added.lots, v, c);
    }
  }

  /** A wallet with no row of its own yet has nothing to cache. */
  lemma LockCached(db: Db, user: nat, clock: int)
    requires Sound(db) && Cached(db, clock)
    ensures Cached(LockWallet(db, user).db, clock)
  {
    var locked := LockWallet(db, user);
    forall v | 0 <= v < |locked.db.wallets| ensures CachedAt(locked.db, v, clock) {
      if v < |db.wallets| {
        assert CachedAt(db, v, clock);
      } else {
        SumZero(db.lots, CreditsOf(v, After(clock)));
        SumZero(db.lots, CreditsOf(v, Everything));
      }
    }
  }
}
