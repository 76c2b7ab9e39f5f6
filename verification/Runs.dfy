/** Every reachable state: the invariants through every operation, and through every run of operations. */
module Runs {
  import opened Sums
  import opened Models
  import opened Lots
  import opened Operations
  import opened Clawbacks
  import opened Merges
  import opened Books
  import opened ClawbackBooks
  import opened MergeBooks
  import opened Soundness
  import opened MoreSoundness
  import opened HoldLaws
  import opened Balances

  ghost predicate Inv(db: Db, clock: int) {
    Sound(db) && HoldBooks(db.holds, db.txns) && Balanced(db) && Cached(db, clock)
  }

  /** Steps that keep both gaps of every wallet keep the ledger laws. */
  lemma StaysBalanced(db: Db, db': Db)
    requires Balanced(db) && forall v: nat :: SameGaps(db, db', v)
    ensures Balanced(db')
  {
    forall v: nat ensures LedgerGap(db', v) == 0 && PositionGap(db', v) == 0 {
      assert SameGaps(db, db', v);
    }
  }

  lemma LockInv(db: Db, user: nat, clock: int)
    requires Inv(db, clock)
    ensures Inv(LockWallet(db, user).db, clock)
    ensures Opens(LockWallet(db, user).db.wallets, LockWallet(db, user).w)
  {
    LockSound(db, user);
    LockCached(db, user, clock);
    forall v: nat ensures SameGaps(db, LockWallet(db, user).db, v) { }
    StaysBalanced(db, LockWallet(db, user).db);
  }

  /** After a sweep the wallet holds live credits only, and its cache says how many. */
  ghost predicate Swept(db: Db, w: nat, now: int) {
    Fresh(db, w, now) && Credits(db.lots, w, Everything) == Credits(db.lots, w, After(now))
  }

  lemma SweepInv(db: Db, w: nat, clock: int, now: int)
    requires Inv(db, clock) && clock <= now && w < |db.wallets|
    ensures Inv(Sweep(db, w, now), now) && Swept(Sweep(db, w, now), w, now)
    ensures Opens(db.wallets, w) ==> Opens(Sweep(db, w, now).wallets, w)
  {
    var r := Sweep(db, w, now);
    SweepSound(db, w, now);
    SweepKeepsOpen(db, w, now, w);
    ChargeFree(db.txns, r.txns);
    SweepOnly(db, w, now);
    SweepFresh(db, w, clock, now);
    FreshKeepsCached(db, r, w, clock, now);
    forall v: nat ensures SameGaps(db, r, v) { SweepGaps(db, w, now, v); }
    StaysBalanced(db, r);
  }

  lemma SettleInv(db: Db, w: nat, now: int)
    requires Inv(db, now) && Opens(db.wallets, w) && Fresh(db, w, now)
    ensures Inv(SettleDebts(db, w, now), now) && Fresh(SettleDebts(db, w, now), w, now)
  {
    var r := SettleDebts(db, w, now);
    SettleFromSound(db, w, now, 0);
    ChargeFree(db.txns, r.txns);
    SettleFromOnly(db, w, now, 0);
    FreshKeepsCached(db, r, w, now, now);
    forall v: nat ensures SameGaps(db, r, v) { SettleFromGaps(db, w, now, 0, v); }
    StaysBalanced(db, r);
    SettleFromHolds(db, w, now, 0);
  }

  lemma {:induction false} SettleFromHolds(db: Db, w: nat, now: int, k: nat)
    requires w < |db.wallets| && k <= |db.debts|
    ensures SettleFrom(db, w, now, k).holds == db.holds
    decreases |db.debts| - k
  {
    if k < |db.debts| {
      if !OpenDebt(db.debts[k], w) {
        SettleFromHolds(db, w, now, k + 1);
      } else if Credits(db.lots, w, After(now)) > 0 {
        SettleFromHolds(SettleOne(db, w, now, k), w, now, k + 1);
      }
    }
  }

  lemma GrantLotInv(db: Db, w: nat, now: int, n: nat, source: Source, expires: Expiry, key: Key, refs: set<string>)
    requires Inv(db, now) && Opens(db.wallets, w)
    ensures var r := GrantLot(db, w, now, n, source, expires, key, refs);
      Inv(r, now) && Fresh(r, w, now) && Opens(r.wallets, w)
  {
    var r := GrantLot(db, w, now, n, source, expires, key, refs);
    GrantLotSound(db, w, now, n, source, expires, key, refs);
    ChargeFree(db.txns, r.txns);
    GrantLotOnly(db, w, now, n, source, expires, key, refs);
    FreshKeepsCached(db, r, w, now, now);
    forall v: nat ensures SameGaps(db, r, v) { GrantLotGaps(db, w, now, n, source, expires, key, refs, v); }
    StaysBalanced(db, r);
  }

  lemma CreditInv(db: Db, clock: int, now: int, user: nat, n: int, source: Source, expires: Expiry, key: string,
                  refs: set<string>, settle: bool)
    requires Inv(db, clock) && clock <= now
    ensures Inv(CreditOp(db, now, user, n, source, expires, key, refs, settle).db, now)
  {
    CachedLater(db, clock, now);
    if n > 0 && Beyond(expires, After(now)) {
      var locked := LockWallet(db, user);
      LockInv(db, user, now);
      var prior := if key == "" then None else KeyRow(locked.db.txns, locked.w, Caller(key));
      if prior.None? {
        SweepInv(locked.db, locked.w, now, now);
        var swept := Sweep(locked.db, locked.w, now);
        GrantLotInv(swept, locked.w, now, n, source, expires, KeyOf(key), refs);
        if settle {
          SettleInv(GrantLot(swept, locked.w, now, n, source, expires, KeyOf(key), refs), locked.w, now);
        }
      }
    }
  }

  lemma ChargeLotsInv(db: Db, w: nat, now: int, requested: nat, chargeable: nat, key: Key)
    requires Inv(db, now) && Opens(db.wallets, w) && chargeable <= requested
    requires chargeable <= Credits(db.lots, w, After(now))
    ensures Inv(ChargeLots(db, w, now, requested, chargeable, key), now)
  {
    var r := ChargeLots(db, w, now, requested, chargeable, key);
    ChargeLotsSound(db, w, now, requested, chargeable, key);
    ChargeFree(db.txns, r.txns);
    ChargeLotsOnly(db, w, now, requested, chargeable, key);
    FreshKeepsCached(db, r, w, now, now);
    forall v: nat ensures SameGaps(db, r, v) { ChargeLotsGaps(db, w, now, requested, chargeable, key, v); }
    StaysBalanced(db, r);
  }

  lemma WaiveChargeInv(db: Db, w: nat, now: int, n: nat, key: Key)
    requires Inv(db, now) && Opens(db.wallets, w)
    ensures Inv(WaiveCharge(db, w, now, n, key), now)
  {
    var r := WaiveCharge(db, w, now, n, key);
    RowSound(db, r.txns[|db.txns|]);
    ChargeFree(db.txns, r.txns);
    forall v: nat ensures SameGaps(db, r, v) { WaiveChargeGaps(db, w, now, n, key, v); }
    StaysBalanced(db, r);
    forall v | 0 <= v < |r.wallets| ensures CachedAt(r, v, now) { assert CachedAt(db, v, now); }
  }

  lemma DebitInv(db: Db, clock: int, now: int, user: nat, n: int, key: string, partial: bool, meterOnly: bool)
    requires Inv(db, clock) && clock <= now
    ensures Inv(DebitOp(db, now, user, n, key, partial, meterOnly).db, now)
  {
    CachedLater(db, clock, now);
    if n > 0 {
      var locked := LockWallet(db, user);
      LockInv(db, user, now);
      var prior := if key == "" then None else KeyRow(locked.db.txns, locked.w, Caller(key));
      if prior.None? {
        SweepInv(locked.db, locked.w, now, now);
        var swept := Sweep(locked.db, locked.w, now);
        var live := Credits(swept.lots, locked.w, After(now));
        if meterOnly {
          WaiveChargeInv(swept, locked.w, now, n, KeyOf(key));
        } else if partial || live >= n {
          ChargeLotsInv(swept, locked.w, now, n, Min(n, live), KeyOf(key));
        }
      }
    }
  }

  lemma ReserveInv(db: Db, w: nat, now: int, n: nat, key: string, deadline: Expiry, waived: Option<nat>,
                   prior: Option<nat>)
    requires Inv(db, now) && Opens(db.wallets, w) && n <= Credits(db.lots, w, After(now))
    requires prior == FindHold(db.holds, w, key) && (waived.Some? ==> n == 0)
    requires prior.Some? ==> !db.holds[prior.value].status.Captured? && !db.holds[prior.value].status.Held?
    ensures Inv(Reserve(db, w, now, n, key, deadline, waived, prior), now)
  {
    var r := Reserve(db, w, now, n, key, deadline, waived, prior);
    ReserveSound(db, w, now, n, key, deadline, waived, prior);
    ReserveHolds(db, w, now, n, key, deadline, waived, prior);
    ReserveOnly(db, w, now, n, key, deadline, waived, prior);
    FreshKeepsCached(db, r, w, now, now);
    forall v: nat ensures SameGaps(db, r, v) { ReserveGaps(db, w, now, n, key, deadline, waived, prior, v); }
    StaysBalanced(db, r);
  }

  lemma HoldInv(db: Db, clock: int, now: int, user: nat, n: int, key: string, expires: Option<int>, ttl: nat,
                meterOnly: bool)
    requires Inv(db, clock) && clock <= now
    ensures Inv(HoldOp(db, now, user, n, key, expires, ttl, meterOnly).db, now)
  {
    CachedLater(db, clock, now);
    if n > 0 && key != "" {
      var locked := LockWallet(db, user);
      LockInv(db, user, now);
      var prior := FindHold(locked.db.holds, locked.w, key);
      if prior.None? || !(locked.db.holds[prior.value].status.Captured? || locked.db.holds[prior.value].status.Held?) {
        SweepInv(locked.db, locked.w, now, now);
        var swept := Sweep(locked.db, locked.w, now);
        var deadline := HoldDeadline(now, expires, ttl);
        if meterOnly {
          ReserveInv(swept, locked.w, now, 0, key, deadline, Some(n), prior);
        } else if n <= Credits(swept.lots, locked.w, After(now)) {
          ReserveInv(swept, locked.w, now, n, key, deadline, None, prior);
        }
      }
    }
  }

  /** The state while open hold h of wallet w is being adjusted: its allocations and w's cache are in flux. */
  ghost predicate Adjusting(db: Db, h: nat, w: nat, now: int) {
    && Sound(db) && Balanced(db)
    && h < |db.holds| && db.holds[h].status.Held? && db.holds[h].wallet == w && w < |db.wallets|
    && OthersCached(db, w, now) && OthersOk(db, h)
    && Sum(db.txns, CountFor(h)) == 0 && Sum(db.txns, ChargeFor(h)) == 0
  }

  ghost predicate OthersCached(db: Db, w: nat, now: int) {
    forall v {:trigger CachedAt(db, v, now)} | 0 <= v < |db.wallets| && v != w :: CachedAt(db, v, now)
  }

  ghost predicate OthersOk(db: Db, h: nat) {
    forall g {:trigger db.holds[g]} | 0 <= g < |db.holds| && g != h :: HoldOk(db.holds[g], db.txns, g)
  }

  lemma StartAdjusting(db: Db, h: nat, now: int)
    requires Inv(db, now) && h < |db.holds| && db.holds[h].status.Held?
    ensures Adjusting(db, h, db.holds[h].wallet, now) && Total(db.holds[h].allocs) == db.holds[h].credits
  {
    assert HoldOk(db.holds[h], db.txns, h);
  }

  lemma SyncAdjusting(db: Db, h: nat, w: nat, now: int)
    requires Adjusting(db, h, w, now)
    ensures Adjusting(Sync(db, w, now), h, w, now) && Cached(Sync(db, w, now), now)
  {
    var r := Sync(db, w, now);
    SyncSound(db, w, now);
    forall v | 0 <= v < |r.wallets| ensures CachedAt(r, v, now) {
      if v == w { CreditsLater(db.lots, w, now, now); } else { assert CachedAt(db, v, now); }
    }
    forall v: nat ensures SameGaps(db, r, v) { }
    StaysBalanced(db, r);
  }

  lemma SweepAdjusting(db: Db, h: nat, w: nat, now: int)
    requires Adjusting(db, h, w, now)
    ensures Adjusting(Sweep(db, w, now), h, w, now)
    ensures Credits(Sweep(db, w, now).lots, w, Everything) == Credits(Sweep(db, w, now).lots, w, After(now))
  {
    var r := Sweep(db, w, now);
    SweepSound(db, w, now);
    ChargeFree(db.txns, r.txns);
    SweepOnly(db, w, now);
    SweepCredits(db, w, now, w, Everything);
    NothingDue(r.lots, w, now);
    OthersStayCached(db, r, w, now);
    forall v: nat ensures SameGaps(db, r, v) { SweepGaps(db, w, now, v); }
    StaysBalanced(db, r);
  }

  lemma OthersStayCached(db: Db, db': Db, w: nat, now: int)
    requires OthersCached(db, w, now) && OnlyWallet(db, db', w)
    ensures OthersCached(db', w, now)
  {
    forall v | 0 <= v < |db'.wallets| && v != w ensures CachedAt(db', v, now) {
      assert CachedAt(db, v, now);
    }
  }

  lemma ExtendAdjusting(db: Db, h: nat, w: nat, now: int, extra: nat)
    requires Adjusting(db, h, w, now) && extra <= Credits(db.lots, w, After(now))
    ensures Adjusting(Extend(db, h, now, extra), h, w, now)
    ensures Total(Extend(db, h, now, extra).holds[h].allocs) == Total(db.holds[h].allocs) + extra
  {
    var r := Extend(db, h, now, extra);
    ExtendSound(db, h, now, extra);
    ExtendOnly(db, h, now, extra);
    OthersStayCached(db, r, w, now);
    ConsumeServes(db.lots, w, now, extra);
    SumConcat(db.holds[h].allocs, Consume(db.lots, w, now, extra).taken, ShareBeyond([], Everything));
    forall v: nat ensures SameGaps(db, r, v) { ExtendGaps(db, h, now, extra, v); }
    StaysBalanced(db, r);
  }

  lemma GiveBackAdjusting(db: Db, h: nat, w: nat, now: int, n: nat)
    requires Adjusting(db, h, w, now) && n <= Total(db.holds[h].allocs)
    ensures Adjusting(GiveBack(db, h, n), h, w, now)
    ensures Total(GiveBack(db, h, n).holds[h].allocs) == Total(db.holds[h].allocs) - n
  {
    var r := GiveBack(db, h, n);
    assert InTable(db.holds[h].allocs, db.lots, w);
    GiveBackSound(db, h, n);
    GiveBackOnly(db, h, n);
    OthersStayCached(db, r, w, now);
    RefundServes(db.lots, w, db.holds[h].allocs, n);
    forall v: nat ensures SameGaps(db, r, v) { GiveBackGaps(db, h, n, v); }
    StaysBalanced(db, r);
  }

  /** Bill syncs first, so it does not matter whether the cache was exact before. */
  lemma BillSyncs(db: Db, h: nat, w: nat, now: int, n: nat, waived: Option<nat>)
    requires h < |db.holds| && db.holds[h].wallet == w < |db.wallets|
    ensures Bill(Sync(db, w, now), h, now, n, waived) == Bill(db, h, now, n, waived)
  {
  }

  lemma BillInv(db: Db, h: nat, w: nat, now: int, n: nat, waived: Option<nat>)
    requires Adjusting(db, h, w, now) && Total(db.holds[h].allocs) == n
    ensures Inv(Bill(db, h, now, n, waived), now) && Fresh(Bill(db, h, now, n, waived), w, now)
  {
    BillSyncs(db, h, w, now, n, waived);
    SyncAdjusting(db, h, w, now);
    var synced := Sync(db, w, now);
    var r := Bill(synced, h, now, n, waived);
    BillSound(synced, h, now, n, waived);
    BillHolds(synced, h, now, n, waived);
    BillOnly(synced, h, now, n, waived);
    FreshKeepsCached(synced, r, w, now, now);
    forall v: nat ensures SameGaps(synced, r, v) { BillGaps(synced, h, now, n, waived, v); }
    StaysBalanced(synced, r);
  }

  /** The adjustment of a hold to n credits, with everything else in order. */
  ghost predicate Adjusted(db: Db, h: nat, w: nat, now: int, n: nat)
    requires h < |db.holds| && db.holds[h].wallet < |db.wallets|
  {
    Adjusting(Adjust(db, h, now, n), h, w, now) && Total(Adjust(db, h, now, n).holds[h].allocs) == n
  }

  lemma AdjustUp(db: Db, h: nat, w: nat, now: int, n: nat)
    requires Adjusting(db, h, w, now) && Total(db.holds[h].allocs) == db.holds[h].credits < n
    requires n - db.holds[h].credits <= Credits(db.lots, w, After(now))
    ensures Adjusted(db, h, w, now, n)
  {
    var extra := n - db.holds[h].credits;
    ExtendAdjusting(db, h, w, now, extra);
    assert Adjust(db, h, now, n) == Extend(db, h, now, extra);
  }

  lemma AdjustDown(db: Db, h: nat, w: nat, now: int, n: nat)
    requires Adjusting(db, h, w, now) && n < Total(db.holds[h].allocs) == db.holds[h].credits
    ensures Adjusted(db, h, w, now, n)
  {
    var rest := db.holds[h].credits - n;
    ShrinkAdjusting(db, h, w, now, rest);
    assert Adjust(db, h, now, n) == Sweep(GiveBack(db, h, rest), w, now);
  }

  lemma AdjustAdjusting(db: Db, h: nat, w: nat, now: int, n: nat)
    requires Adjusting(db, h, w, now) && Total(db.holds[h].allocs) == db.holds[h].credits
    requires n > db.holds[h].credits ==> n - db.holds[h].credits <= Credits(db.lots, w, After(now))
    ensures Adjusted(db, h, w, now, n)
  {
    if n > db.holds[h].credits {
      AdjustUp(db, h, w, now, n);
    } else if n < db.holds[h].credits {
      AdjustDown(db, h, w, now, n);
    }
  }

  lemma ShrinkAdjusting(db: Db, h: nat, w: nat, now: int, n: nat)
    requires Adjusting(db, h, w, now) && n <= Total(db.holds[h].allocs)
    ensures var r := Sweep(GiveBack(db, h, n), w, now);
      Adjusting(r, h, w, now) && Total(r.holds[h].allocs) == Total(db.holds[h].allocs) - n
  {
    GiveBackAdjusting(db, h, w, now, n);
    SweepAdjusting(GiveBack(db, h, n), h, w, now);
  }

  lemma CaptureInv(db: Db, clock: int, now: int, h: nat, actual: Option<int>)
    requires Inv(db, clock) && clock <= now
    ensures Inv(CaptureOp(db, now, h, actual).db, now)
  {
    CachedLater(db, clock, now);
    var r := CaptureOp(db, now, h, actual);
    if r.db != db {
      var held := db.holds[h];
      var n: int := if actual.Some? then actual.value else held.credits;
      StartAdjusting(db, h, now);
      if held.waived.Some? {
        assert HoldOk(held, db.txns, h);
        BillInv(db, h, held.wallet, now, 0, Some(n));
      } else {
        var swept := Sweep(db, held.wallet, now);
        SweepAdjusting(db, h, held.wallet, now);
        AdjustAdjusting(swept, h, held.wallet, now, n);
        BillInv(Adjust(swept, h, now, n), h, held.wallet, now, n, None);
      }
    }
  }

  lemma ReleaseInv(db: Db, clock: int, now: int, h: nat, expired: bool)
    requires Inv(db, clock) && clock <= now
    ensures Inv(ReleaseOp(db, now, h, expired).db, now)
  {
    CachedLater(db, clock, now);
    if h < |db.holds| && db.holds[h].status.Held? {
      var w := db.holds[h].wallet;
      var status := if expired then Expired else Released;
      StartAdjusting(db, h, now);
      SweepAdjusting(db, h, w, now);
      var swept := Sweep(db, w, now);
      var all := Total(swept.holds[h].allocs);
      GiveBackAdjusting(swept, h, w, now, all);
      SweepAdjusting(GiveBack(swept, h, all), h, w, now);
      var back := Sweep(GiveBack(swept, h, all), w, now);
      SyncAdjusting(back, h, w, now);
      CloseInv(Sync(back, w, now), h, w, now, status);
    }
  }

  lemma CloseInv(db: Db, h: nat, w: nat, now: int, status: Status)
    requires Adjusting(db, h, w, now) && Cached(db, now) && Total(db.holds[h].allocs) == 0
    requires status.Released? || status.Expired?
    ensures Inv(Close(db, h, status), now)
  {
    var r := Close(db, h, status);
    CloseSound(db, h, status);
    forall g | 0 <= g < |r.holds| ensures HoldOk(r.holds[g], r.txns, g) {
      if g != h { assert r.holds[g] == db.holds[g]; }
    }
    forall v | 0 <= v < |r.wallets| ensures CachedAt(r, v, now) { assert CachedAt(db, v, now); }
    forall v: nat ensures SameGaps(db, r, v) { CloseGaps(db, h, status, v); }
    StaysBalanced(db, r);
  }

  // ----- Clawbacks and reversals -----

  lemma ClawBackInv(db: Db, clock: int, now: int, g: nat, requested: nat, reason: ClawReason, objectId: string)
    requires Inv(db, clock) && clock <= now && g < |db.txns|
    ensures Inv(ClawBack(db, now, g, requested, reason, objectId), now)
    ensures Fresh(ClawBack(db, now, g, requested, reason, objectId), db.txns[g].wallet, now)
  {
    var r := ClawBack(db, now, g, requested, reason, objectId);
    var w := db.txns[g].wallet;
    GrantIsHome(db, g);
    ClawBackSound(db, now, g, requested, reason, objectId);
    ChargeFree(db.txns, r.txns);
    ClawBackOnly(db, now, g, requested, reason, objectId);
    FreshKeepsCached(db, r, w, clock, now);
    forall v: nat ensures SameGaps(db, r, v) { ClawBackGaps(db, now, g, requested, reason, objectId, v); }
    StaysBalanced(db, r);
  }

  /** A clawback of what is left to request is none at all, or one clawback. */
  lemma RemainingIs(db: Db, now: int, g: nat, refunded: Option<int>, total: Option<int>, reason: ClawReason,
                    objectId: string) returns (more: nat)
    requires g < |db.txns|
    ensures var r := ClawBackRemaining(db, now, g, refunded, total, reason, objectId);
      r == db || (db.txns[g].wallet < |db.wallets| && r == ClawBack(db, now, g, more, reason, objectId))
  {
    var granted := Max(0, db.txns[g].delta);
    more := Max(0, Min(ClawTarget(granted, refunded, total), granted) - AlreadyClawedBack(db.txns, g));
  }

  lemma ClawBackRemainingInv(db: Db, now: int, g: nat, refunded: Option<int>, total: Option<int>,
                             reason: ClawReason, objectId: string)
    requires Inv(db, now) && g < |db.txns|
    ensures Inv(ClawBackRemaining(db, now, g, refunded, total, reason, objectId), now)
  {
    var more := RemainingIs(db, now, g, refunded, total, reason, objectId);
    ClawBackInv(db, now, now, g, more, reason, objectId);
  }

  lemma {:induction false} ClawBackFromInv(db: Db, now: int, k: nat, limit: nat, refs: set<string>,
                                           refunded: Option<int>, total: Option<int>, reason: ClawReason,
                                           objectId: string)
    requires Inv(db, now) && k <= limit <= |db.txns|
    ensures Inv(ClawBackFrom(db, now, k, limit, refs, refunded, total, reason, objectId), now)
    decreases limit - k
  {
    if k < limit {
      if !Names(db.txns[k], refs) {
        ClawBackFromInv(db, now, k + 1, limit, refs, refunded, total, reason, objectId);
      } else {
        ClawBackRemainingInv(db, now, k, refunded, total, reason, objectId);
        ClawBackFromInv(ClawBackRemaining(db, now, k, refunded, total, reason, objectId),
                        now, k + 1, limit, refs, refunded, total, reason, objectId);
      }
    }
  }

  lemma ClaimInv(db: Db, claims: set<Claim>, clock: int)
    requires Inv(db, clock)
    ensures Inv(db.(claims := claims), clock)
  {
    var r := db.(claims := claims);
    forall v | 0 <= v < |r.wallets| ensures CachedAt(r, v, clock) { assert CachedAt(db, v, clock); }
    forall v: nat ensures SameGaps(db, r, v) { }
    StaysBalanced(db, r);
  }

  lemma HandleClawbackInv(db: Db, clock: int, now: int, event: string, refs: set<string>, refunded: Option<int>,
                          total: Option<int>, reason: ClawReason, objectId: string)
    requires Inv(db, clock) && clock <= now
    ensures Inv(HandleClawback(db, now, event, refs, refunded, total, reason, objectId), now)
  {
    CachedLater(db, clock, now);
    var claimed := db.(claims := db.claims + {ClawbackEvent(event)});
    ClaimInv(db, claimed.claims, now);
    ClawBackFromInv(claimed, now, 0, |db.txns|, refs, refunded, total, reason, objectId);
  }

  lemma ReverseInv(db: Db, now: int, t: nat)
    requires Inv(db, now) && t < |db.txns|
    ensures Inv(ReverseClawback(db, now, t), now)
  {
    var r := ReverseClawback(db, now, t);
    var row := db.txns[t];
    if row.note.ClawedBack? && !row.note.claw.reversed {
      assert NoteRefs(row, db.txns, db.holds, db.debts);
      ReverseSound(db, now, t);
      forall v: nat ensures SameGaps(db, r, v) { ReverseGaps(db, now, t, v); }
      StaysBalanced(db, r);
      ReverseCached(db, now, t);
      ReverseHolds(db, now, t);
    }
  }

  lemma ReverseCached(db: Db, now: int, t: nat)
    requires Inv(db, now) && t < |db.txns| && db.txns[t].note.ClawedBack? && !db.txns[t].note.claw.reversed
    ensures Cached(ReverseClawback(db, now, t), now)
  {
    var row := db.txns[t];
    var cancelled := CancelClaw(db, now, t);
    var given := GivenBack(db, row.note.claw);
    forall v | 0 <= v < |cancelled.wallets| ensures CachedAt(cancelled, v, now) { assert CachedAt(db, v, now); }
    if given > 0 {
      var restored := Restore(cancelled, now, t, row.wallet, row.note.claw.grant, given);
      RestoreOnly(cancelled, now, t, row.wallet, row.note.claw.grant, given);
      FreshKeepsCached(cancelled, restored, row.wallet, now, now);
      SettleFromOnly(restored, row.wallet, now, 0);
      FreshKeepsCached(restored, SettleDebts(restored, row.wallet, now), row.wallet, now, now);
    }
  }

  lemma RestoreCharges(db: Db, now: int, t: nat, w: nat, g: nat, n: nat)
    requires w < |db.wallets|
    ensures SameCharges(db.txns, Restore(db, now, t, w, g, n).txns)
    ensures Restore(db, now, t, w, g, n).holds == db.holds
  {
    ChargeFree(db.txns, Restore(db, now, t, w, g, n).txns);
  }

  lemma ReverseHolds(db: Db, now: int, t: nat)
    requires Sound(db) && HoldBooks(db.holds, db.txns) && t < |db.txns|
    ensures HoldBooks(ReverseClawback(db, now, t).holds, ReverseClawback(db, now, t).txns)
  {
    var row := db.txns[t];
    if row.note.ClawedBack? && !row.note.claw.reversed {
      var cancelled := CancelClaw(db, now, t);
      ChargeFree(db.txns, cancelled.txns);
      var given := GivenBack(db, row.note.claw);
      if given > 0 {
        var restored := Restore(cancelled, now, t, row.wallet, row.note.claw.grant, given);
        RestoreCharges(cancelled, now, t, row.wallet, row.note.claw.grant, given);
        ChargeFree(restored.txns, SettleDebts(restored, row.wallet, now).txns);
        SettleFromHolds(restored, row.wallet, now, 0);
      }
    }
  }

  lemma {:induction false} ReverseFromInv(db: Db, now: int, k: nat, limit: nat, objectId: string)
    requires Inv(db, now) && k <= limit <= |db.txns|
    ensures Inv(ReverseFrom(db, now, k, limit, objectId), now)
    decreases limit - k
  {
    if k < limit {
      if !Disputed(db.txns[k], objectId) {
        ReverseFromInv(db, now, k + 1, limit, objectId);
      } else {
        ReverseInv(db, now, k);
        ReverseFromInv(ReverseClawback(db, now, k), now, k + 1, limit, objectId);
      }
    }
  }

  lemma CloseDisputeInv(db: Db, clock: int, now: int, event: string, objectId: string, won: bool)
    requires Inv(db, clock) && clock <= now
    ensures Inv(CloseDispute(db, now, event, objectId, won), now)
  {
    CachedLater(db, clock, now);
    var claimed := db.(claims := db.claims + {ClawbackEvent(event)});
    ClaimInv(db, claimed.claims, now);
    ReverseFromInv(claimed, now, 0, |db.txns|, objectId);
  }
}
