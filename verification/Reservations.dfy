/** What a reservation does to the credits alive at every later instant. */
module Reservations {
  import opened Sums
  import opened Models
  import opened Lots
  import opened Operations
  import opened Merges
  import opened Books
  import opened Soundness
  import opened MoreSoundness
  import opened HoldLaws
  import opened Balances
  import opened Runs

  /** Credits of wallet v beyond a cut, in its lots or reserved out of lots that outlive the cut. */
  function Claimed(db: Db, v: nat, c: Cut): nat {
    Credits(db.lots, v, c) + Reserved(db.holds, db.lots, v, c)
  }

  lemma ReservedStable(holds: seq<Hold>, lots: seq<Lot>, lots': seq<Lot>, wallets: seq<Wallet>, v: nat, c: Cut)
    requires HoldRefs(wallets, holds, lots) && Shrinks(lots, lots')
    ensures Reserved(holds, lots', v, c) == Reserved(holds, lots, v, c)
  {
    forall h | 0 <= h < |holds| ensures Shares(holds[h].allocs, lots', c) == Shares(holds[h].allocs, lots, c) {
      SharesStable(holds[h].allocs, lots, lots', holds[h].wallet, c);
    }
    SumSame(holds, ReservedOf(lots', v, c), holds, ReservedOf(lots, v, c));
  }

  lemma SweepClaimed(db: Db, w: nat, now: int, v: nat, t: int)
    requires Sound(db) && w < |db.wallets| && t >= now
    ensures Claimed(Sweep(db, w, now), v, After(t)) == Claimed(db, v, After(t))
  {
    SweepCredits(db, w, now, v, After(t));
    ReservedStable(db.holds, db.lots, Sweep(db, w, now).lots, db.wallets, v, After(t));
  }

  lemma ReserveClaimed(db: Db, w: nat, now: int, n: nat, key: string, deadline: Expiry, waived: Option<nat>,
                       prior: Option<nat>, v: nat, c: Cut)
    requires Sound(db) && w < |db.wallets|
    requires prior.Some? ==> prior.value < |db.holds| && !db.holds[prior.value].status.Held?
    ensures Claimed(Reserve(db, w, now, n, key, deadline, waived, prior), v, c) == Claimed(db, v, c)
  {
    var drawn := Consume(db.lots, w, now, n);
    var held := Hold(w, n, key, Held, deadline, waived, drawn.taken);
    ConsumeMoves(db.lots, w, now, n, v, c);
    ConsumeShape(db.lots, w, now, n);
    ReservedStable(db.holds, db.lots, drawn.lots, db.wallets, v, c);
    SharesStable(drawn.taken, db.lots, drawn.lots, w, c);
    if prior.Some? {
      SumUpdate(db.holds, prior.value, held, ReservedOf(drawn.lots, v, c));
    } else {
      SumAppend(db.holds, held, ReservedOf(drawn.lots, v, c));
    }
  }

  lemma GiveBackClaimed(db: Db, h: nat, n: nat, v: nat, c: Cut)
    requires Sound(db) && h < |db.holds| && db.holds[h].status.Held?
    ensures Claimed(GiveBack(db, h, n), v, c) == Claimed(db, v, c)
  {
    var held := db.holds[h];
    if Located(held.allocs, db.lots) {
      var back := Refund(db.lots, held.wallet, held.allocs, |held.allocs|, n);
      RefundMoves(db.lots, held.wallet, held.allocs, |held.allocs|, n, v, c);
      RefundShape(db.lots, held.wallet, held.allocs, |held.allocs|, n);
      ReservedStable(db.holds, db.lots, back.lots, db.wallets, v, c);
      SharesStable(held.allocs, db.lots, back.lots, held.wallet, c);
      SumUpdate(db.holds, h, held.(allocs := back.allocs), ReservedOf(back.lots, v, c));
    }
  }

  lemma CloseClaimed(db: Db, h: nat, status: Status, v: nat, c: Cut)
    requires h < |db.holds| && Total(db.holds[h].allocs) == 0 && !status.Held?
    ensures Claimed(Close(db, h, status), v, c) == Claimed(db, v, c)
  {
    SumAtMost(db.holds[h].allocs, ShareBeyond(db.lots, c), db.holds[h].allocs, ShareBeyond([], Everything));
    SumUpdate(db.holds, h, db.holds[h].(status := status), ReservedOf(db.lots, v, c));
  }

  /** A reservation, fresh or re-armed, changes no credit's deadline. */
  lemma HoldKeepsDeadlines(db: Db, clock: int, now: int, user: nat, n: int, key: string, expires: Option<int>,
                           ttl: nat, meterOnly: bool, v: nat, t: int)
    requires Inv(db, clock) && clock <= now <= t
    ensures Claimed(HoldOp(db, now, user, n, key, expires, ttl, meterOnly).db, v, After(t)) == Claimed(db, v, After(t))
  {
    var locked := LockWallet(db, user);
    var r := HoldOp(db, now, user, n, key, expires, ttl, meterOnly).db;
    if r != db && r != locked.db {
      LockSound(db, user);
      SweepSound(locked.db, locked.w, now);
      SweepClaimed(locked.db, locked.w, now, v, t);
      var swept := Sweep(locked.db, locked.w, now);
      ReserveClaimed(swept, locked.w, now, if meterOnly then 0 else n, key, HoldDeadline(now, expires, ttl),
                     if meterOnly then Some(n) else None, FindHold(locked.db.holds, locked.w, key), v, After(t));
    }
  }

  /** Giving a reservation up changes no credit's deadline, however it was interleaved. */
  lemma ReleaseKeepsDeadlines(db: Db, clock: int, now: int, h: nat, expired: bool, v: nat, t: int)
    requires Inv(db, clock) && clock <= now <= t
    ensures Claimed(ReleaseOp(db, now, h, expired).db, v, After(t)) == Claimed(db, v, After(t))
  {
    CachedLater(db, clock, now);
    if h < |db.holds| && db.holds[h].status.Held? {
      var w := db.holds[h].wallet;
      StartAdjusting(db, h, now);
      SweepAdjusting(db, h, w, now);
      SweepClaimed(db, w, now, v, t);
      var swept := Sweep(db, w, now);
      var all := Total(swept.holds[h].allocs);
      GiveBackAdjusting(swept, h, w, now, all);
      GiveBackClaimed(swept, h, all, v, After(t));
      SweepClaimed(GiveBack(swept, h, all), w, now, v, t);
      var back := Sync(Sweep(GiveBack(swept, h, all), w, now), w, now);
      CloseClaimed(back, h, if expired then Expired else Released, v, After(t));
    }
  }

  lemma {:induction false} ExpireHoldsKeepsDeadlines(db: Db, now: int, k: nat, v: nat, t: int)
    requires Inv(db, now) && now <= t
    ensures Claimed(ExpireHoldsFrom(db, now, k), v, After(t)) == Claimed(db, v, After(t))
    decreases |db.holds| - k
  {
    if k < |db.holds| {
      ReleaseKeepsDeadlines(db, now, now, k, true, v, t);
      ReleaseInv(db, now, now, k, true);
      var next := if Abandoned(db.holds[k], now) then ReleaseOp(db, now, k, true).db else db;
      if |next.holds| == |db.holds| {
        ExpireHoldsKeepsDeadlines(next, now, k + 1, v, t);
      }
    }
  }

  // ----- Hold, then settle -----

  /** A key that names no hold of the wallet, or a released or expired one, which a new hold re-arms. */
  predicate Reservable(holds: seq<Hold>, w: nat, key: string) {
    match FindHold(holds, w, key)
    case None => true
    case Some(h) => !holds[h].status.Held? && !holds[h].status.Captured?
  }

  /** A reservation of n turns live(t) into min(live(t), live(now) - n), like a charge. */
  lemma HoldProfile(db: Db, clock: int, now: int, user: nat, n: nat, key: string, expires: Option<int>, ttl: nat,
                    t: int)
    returns (w: nat, h: nat)
    requires Inv(db, clock) && clock <= now <= t && n > 0 && key != ""
    requires WalletOf(db.wallets, user).Some?
    requires Reservable(db.holds, WalletOf(db.wallets, user).value, key)
    requires n <= Credits(db.lots, WalletOf(db.wallets, user).value, After(now))
    ensures w == WalletOf(db.wallets, user).value
    ensures var r := HoldOp(db, now, user, n, key, expires, ttl, false);
      && r.out == Ok(h) && h < |r.db.holds|
      && r.db.holds[h].wallet == w && r.db.holds[h].status.Held? && r.db.holds[h].waived.None?
      && r.db.holds[h].credits == n && ByDeadline(r.db.holds[h].allocs, r.db.lots)
      && Credits(r.db.lots, w, After(t)) == Min(Credits(db.lots, w, After(t)), Credits(db.lots, w, After(now)) - n)
      && Shares(r.db.holds[h].allocs, r.db.lots, After(t)) == Credits(db.lots, w, After(t)) - Credits(r.db.lots, w, After(t))
  {
    w := WalletOf(db.wallets, user).value;
    h := match FindHold(db.holds, w, key) case Some(prior) => prior case None => |db.holds|;
    var swept := Sweep(db, w, now);
    SweepCredits(db, w, now, w, After(now));
    SweepCredits(db, w, now, w, After(t));
    ReserveProfile(swept.lots, w, now, n, t);
  }

  lemma ReserveProfile(lots: seq<Lot>, w: nat, now: int, n: nat, t: int)
    requires now <= t && n <= Credits(lots, w, After(now))
    ensures var drawn := Consume(lots, w, now, n);
      && ByDeadline(drawn.taken, drawn.lots)
      && Credits(drawn.lots, w, After(t)) == Min(Credits(lots, w, After(t)), Credits(lots, w, After(now)) - n)
      && Shares(drawn.taken, drawn.lots, After(t)) == Credits(lots, w, After(t)) - Credits(drawn.lots, w, After(t))
  {
    var drawn := Consume(lots, w, now, n);
    ConsumeProfile(lots, w, now, n, t);
    ConsumeMoves(lots, w, now, n, w, After(t));
    ConsumeShape(lots, w, now, n);
    ConsumeByDeadline(lots, w, now, n);
    SharesStable(drawn.taken, lots, drawn.lots, w, After(t));
    StillByDeadline(drawn.taken, lots, drawn.lots);
  }

  lemma StillByDeadline(allocs: seq<Share>, lots: seq<Lot>, lots': seq<Lot>)
    requires ByDeadline(allocs, lots) && Shrinks(lots, lots')
    ensures ByDeadline(allocs, lots')
  {
    forall j, k | 0 <= j < k < |allocs| ensures NoLater(lots'[allocs[j].lot].expires, lots'[allocs[k].lot].expires) {
      assert NoLater(lots[allocs[j].lot].expires, lots[allocs[k].lot].expires);
    }
  }

  /** Giving n of an ordered reservation back returns the latest deadlines first. */
  lemma GiveBackProfile(db: Db, h: nat, n: nat, c: Cut)
    requires h < |db.holds| && ByDeadline(db.holds[h].allocs, db.lots)
    ensures Credits(GiveBack(db, h, n).lots, db.holds[h].wallet, c)
         == Credits(db.lots, db.holds[h].wallet, c) + Min(n, Shares(db.holds[h].allocs, db.lots, c))
  {
    var held := db.holds[h];
    RefundMoves(db.lots, held.wallet, held.allocs, |held.allocs|, n, held.wallet, c);
    var back := RefundProfile(db.lots, held.wallet, held.allocs, |held.allocs|, n, c);
  }

  /** Capturing less than an ordered reservation gives the rest back to the latest deadlines. */
  lemma CaptureProfile(db: Db, clock: int, now: int, h: nat, actual: nat, t: int)
    requires Inv(db, clock) && clock <= now <= t && h < |db.holds|
    requires db.holds[h].status.Held? && db.holds[h].waived.None? && actual <= db.holds[h].credits
    requires ByDeadline(db.holds[h].allocs, db.lots)
    ensures var r := CaptureOp(db, now, h, Some(actual)); var w := db.holds[h].wallet;
      && r.out.Ok?
      && Credits(r.db.lots, w, After(t))
         == Credits(db.lots, w, After(t))
            + Min(db.holds[h].credits - actual, Shares(db.holds[h].allocs, db.lots, After(t)))
  {
    var swept := Sweep(db, db.holds[h].wallet, now);
    AdjustProfile(db, now, h, actual, t);
    assert CaptureOp(db, now, h, Some(actual)).db == Bill(Adjust(swept, h, now, actual), h, now, actual, None);
  }

  lemma AdjustProfile(db: Db, now: int, h: nat, actual: nat, t: int)
    requires Sound(db) && now <= t && h < |db.holds| && db.holds[h].wallet < |db.wallets|
    requires actual <= db.holds[h].credits && ByDeadline(db.holds[h].allocs, db.lots)
    ensures var w := db.holds[h].wallet;
      Credits(Adjust(Sweep(db, w, now), h, now, actual).lots, w, After(t))
      == Credits(db.lots, w, After(t)) + Min(db.holds[h].credits - actual, Shares(db.holds[h].allocs, db.lots, After(t)))
  {
    var held := db.holds[h];
    var w := held.wallet;
    var swept := Sweep(db, w, now);
    SweepCredits(db, w, now, w, After(t));
    if actual < held.credits {
      StillByDeadline(held.allocs, db.lots, swept.lots);
      SharesStable(held.allocs, db.lots, swept.lots, w, After(t));
      GiveBackProfile(swept, h, held.credits - actual, After(t));
      SweepCredits(GiveBack(swept, h, held.credits - actual), w, now, w, After(t));
    }
  }

  /** Hold n, then capture a of it with nothing in between: every later instant sees a plain debit of a. */
  lemma HoldThenCaptureIsDebit(db: Db, clock: int, now: int, user: nat, n: nat, key: string, expires: Option<int>,
                               ttl: nat, later: int, a: nat, t: int)
    requires Inv(db, clock) && clock <= now <= later <= t && 0 < a <= n && key != ""
    requires WalletOf(db.wallets, user).Some?
    requires Reservable(db.holds, WalletOf(db.wallets, user).value, key)
    requires n <= Credits(db.lots, WalletOf(db.wallets, user).value, After(now))
    ensures var w := WalletOf(db.wallets, user).value;
      var held := HoldOp(db, now, user, n, key, expires, ttl, false);
      var debited := DebitOp(db, now, user, a, "", false, false);
      && held.out.Ok? && debited.out.Ok?
      && CaptureOp(held.db, later, held.out.value, Some(a)).out.Ok?
      && Credits(CaptureOp(held.db, later, held.out.value, Some(a)).db.lots, w, After(t))
         == Credits(debited.db.lots, w, After(t))
  {
    var w, h := HoldProfile(db, clock, now, user, n, key, expires, ttl, t);
    HoldInv(db, clock, now, user, n, key, expires, ttl, false);
    var held := HoldOp(db, now, user, n, key, expires, ttl, false);
    CaptureProfile(held.db, now, later, h, a, t);
    DebitProfile(db, now, user, w, a, t);
    CreditsLater(db.lots, w, now, t);
  }

  /** What a strict keyless debit leaves live. */
  lemma DebitProfile(db: Db, now: int, user: nat, w: nat, a: nat, t: int)
    requires Sound(db) && WalletOf(db.wallets, user) == Some(w) && now <= t && 0 < a <= Credits(db.lots, w, After(now))
    ensures var debited := DebitOp(db, now, user, a, "", false, false);
      debited.out.Ok?
      && Credits(debited.db.lots, w, After(t)) == Min(Credits(db.lots, w, After(t)), Credits(db.lots, w, After(now)) - a)
  {
    SweepCredits(db, w, now, w, After(now));
    SweepCredits(db, w, now, w, After(t));
    ConsumeProfile(Sweep(db, w, now).lots, w, now, a, t);
  }

  /** Releasing an ordered reservation gives every share back its own deadline. */
  lemma ReleaseProfile(db: Db, clock: int, now: int, h: nat, expired: bool, t: int)
    requires Inv(db, clock) && clock <= now <= t && h < |db.holds|
    requires db.holds[h].status.Held? && ByDeadline(db.holds[h].allocs, db.lots)
    ensures var w := db.holds[h].wallet;
      Credits(ReleaseOp(db, now, h, expired).db.lots, w, After(t))
        == Credits(db.lots, w, After(t)) + Shares(db.holds[h].allocs, db.lots, After(t))
  {
    var allocs, w := db.holds[h].allocs, db.holds[h].wallet;
    var swept := Sweep(db, w, now);
    SweepCredits(db, w, now, w, After(t));
    StillByDeadline(allocs, db.lots, swept.lots);
    SharesStable(allocs, db.lots, swept.lots, w, After(t));
    SumAtMost(allocs, ShareBeyond(swept.lots, After(t)), allocs, ShareBeyond([], Everything));
    GiveBackProfile(swept, h, Total(allocs), After(t));
    SweepCredits(GiveBack(swept, h, Total(allocs)), w, now, w, After(t));
  }

  /** Hold n, then release it with nothing in between: as if the hold never happened. */
  lemma HoldThenReleaseIsNothing(db: Db, clock: int, now: int, user: nat, n: nat, key: string, expires: Option<int>,
                                 ttl: nat, later: int, expired: bool, t: int)
    requires Inv(db, clock) && clock <= now <= later <= t && 0 < n && key != ""
    requires WalletOf(db.wallets, user).Some?
    requires Reservable(db.holds, WalletOf(db.wallets, user).value, key)
    requires n <= Credits(db.lots, WalletOf(db.wallets, user).value, After(now))
    ensures var w := WalletOf(db.wallets, user).value;
      var held := HoldOp(db, now, user, n, key, expires, ttl, false);
      && held.out.Ok?
      && Credits(ReleaseOp(held.db, later, held.out.value, expired).db.lots, w, After(t)) == Credits(db.lots, w, After(t))
  {
    var w, h := HoldProfile(db, clock, now, user, n, key, expires, ttl, t);
    HoldInv(db, clock, now, user, n, key, expires, ttl, false);
    ReleaseProfile(HoldOp(db, now, user, n, key, expires, ttl, false).db, now, later, h, expired, t);
  }
}
