/** Every committed money operation leaves its wallet's cached balance equal to the live credits, at its own instant. */
module CacheLaws {
  import opened Sums
  import opened Models
  import opened Lots
  import opened Operations
  import opened Clawbacks
  import opened Books
  import opened Soundness
  import opened MoreSoundness
  import opened Balances
  import opened Runs

  lemma CreditRefreshes(db: Db, clock: int, now: int, user: nat, n: int, source: Source, expires: Expiry, key: string,
                        refs: set<string>, settle: bool)
    requires Inv(db, clock) && clock <= now
    ensures var r := CreditOp(db, now, user, n, source, expires, key, refs, settle).db;
      |r.txns| > |db.txns| ==> Fresh(r, LockWallet(db, user).w, now)
  {
    var r := CreditOp(db, now, user, n, source, expires, key, refs, settle).db;
    if |r.txns| > |db.txns| {
      var locked := LockWallet(db, user);
      var swept := Sweep(locked.db, locked.w, now);
      var granted := GrantLot(swept, locked.w, now, n, source, expires, KeyOf(key), refs);
      GrantLotOnly(swept, locked.w, now, n, source, expires, KeyOf(key), refs);
      SettleFromOnly(granted, locked.w, now, 0);
    }
  }

  lemma DebitRefreshes(db: Db, clock: int, now: int, user: nat, n: int, key: string, partial: bool, meterOnly: bool)
    requires Inv(db, clock) && clock <= now
    ensures var r := DebitOp(db, now, user, n, key, partial, meterOnly).db;
      |r.txns| > |db.txns| ==> Fresh(r, LockWallet(db, user).w, now)
  {
    var r := DebitOp(db, now, user, n, key, partial, meterOnly).db;
    if |r.txns| > |db.txns| {
      var locked := LockWallet(db, user);
      LockCached(db, user, clock);
      SweepFresh(locked.db, locked.w, clock, now);
      var swept := Sweep(locked.db, locked.w, now);
      if !meterOnly {
        ChargeLotsOnly(swept, locked.w, now, n, Min(n, Credits(swept.lots, locked.w, After(now))), KeyOf(key));
      }
    }
  }

  lemma HoldRefreshes(db: Db, clock: int, now: int, user: nat, n: int, key: string, deadline: Option<int>, ttl: nat,
                      meterOnly: bool)
    requires Inv(db, clock) && clock <= now
    ensures var r := HoldOp(db, now, user, n, key, deadline, ttl, meterOnly).db;
      r.holds != db.holds ==> Fresh(r, LockWallet(db, user).w, now)
  {
    var r := HoldOp(db, now, user, n, key, deadline, ttl, meterOnly).db;
    if r.holds != db.holds {
      var locked := LockWallet(db, user);
      var swept := Sweep(locked.db, locked.w, now);
      var prior := FindHold(locked.db.holds, locked.w, key);
      ReserveOnly(swept, locked.w, now, if meterOnly then 0 else n, key, HoldDeadline(now, deadline, ttl),
                  if meterOnly then Some(n as nat) else None, prior);
    }
  }

  /** A capture syncs even when it is waived and sweeps nothing. */
  lemma CaptureRefreshes(db: Db, clock: int, now: int, h: nat, actual: Option<int>)
    requires Inv(db, clock) && clock <= now
    ensures var r := CaptureOp(db, now, h, actual).db; r != db ==> h < |db.holds| && Fresh(r, db.holds[h].wallet, now)
  {
    var r := CaptureOp(db, now, h, actual).db;
    if r != db {
      var n: int := if actual.Some? then actual.value else db.holds[h].credits;
      if db.holds[h].waived.Some? {
        BillOnly(db, h, now, 0, Some(n));
      } else {
        BillOnly(Adjust(Sweep(db, db.holds[h].wallet, now), h, now, n), h, now, n, None);
      }
    }
  }

  /**
   * A waived capture refreshes the balance without sweeping: the balance is the sum of the wallet's remaining credits
   * exactly when none of its lots is due.
   */
  lemma WaivedCaptureSumsIff(db: Db, clock: int, now: int, h: nat, actual: Option<int>)
    requires Inv(db, clock) && clock <= now && h < |db.holds| && db.holds[h].waived.Some?
    requires CaptureOp(db, now, h, actual).db != db
    ensures var r := CaptureOp(db, now, h, actual).db; var w := db.holds[h].wallet;
      && w < |r.wallets|
      && (r.wallets[w].balance == Credits(r.lots, w, Everything) <==> Soonest(db.lots, Due(w, now)).None?)
  {
    CaptureRefreshes(db, clock, now, h, actual);
    var w := db.holds[h].wallet;
    match Soonest(db.lots, Due(w, now))
    case None => NothingDue(db.lots, w, now);
    case Some(i) => DueIsNotLive(db.lots, i, w, now);
  }

  lemma DueIsNotLive(lots: seq<Lot>, i: nat, w: nat, now: int)
    requires i < |lots| && Due(w, now).Has(lots[i])
    ensures Credits(lots, w, After(now)) < Credits(lots, w, Everything)
  {
    DrawCredits(lots, i, lots[i].remaining, w, Everything);
    DrawCredits(lots, i, lots[i].remaining, w, After(now));
    CreditsLater(Draw(lots, i, lots[i].remaining), w, now, now);
  }

  lemma ReleaseRefreshes(db: Db, now: int, h: nat, expired: bool)
    ensures var r := ReleaseOp(db, now, h, expired).db; r != db ==> h < |db.holds| && Fresh(r, db.holds[h].wallet, now)
  {
  }

  lemma ClawBackRefreshes(db: Db, now: int, g: nat, refunded: Option<int>, total: Option<int>, reason: ClawReason,
                          objectId: string)
    requires Sound(db) && g < |db.txns|
    ensures var r := ClawBackRemaining(db, now, g, refunded, total, reason, objectId);
      r != db ==> Fresh(r, db.txns[g].wallet, now)
  {
    var granted := Max(0, db.txns[g].delta);
    var more := Min(ClawTarget(granted, refunded, total), granted) - AlreadyClawedBack(db.txns, g);
    if more > 0 {
      GrantIsHome(db, g);
      ClawBackOnly(db, now, g, more, reason, objectId);
    }
  }

  /** A reversal syncs when it has something to give back; one that only cancels a debt does not touch the balance. */
  lemma ReverseRefreshes(db: Db, now: int, t: nat)
    requires t < |db.txns| && db.txns[t].note.ClawedBack? && !db.txns[t].note.claw.reversed
    requires db.txns[t].wallet < |db.wallets|
    ensures var r := ReverseClawback(db, now, t);
      if GivenBack(db, db.txns[t].note.claw) > 0 then Fresh(r, db.txns[t].wallet, now) else r.wallets == db.wallets
  {
    var row := db.txns[t];
    var given := GivenBack(db, row.note.claw);
    if given > 0 {
      var cancelled := CancelClaw(db, now, t);
      RestoreOnly(cancelled, now, t, row.wallet, row.note.claw.grant, given);
      SettleFromOnly(Restore(cancelled, now, t, row.wallet, row.note.claw.grant, given), row.wallet, now, 0);
    }
  }
}
