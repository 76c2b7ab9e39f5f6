/** What no operation ever changes: lots only shrink, ledger rows stand, captured holds are final, debts only go down. */
module Evolution {
  import opened Sums
  import opened Models
  import opened Lots
  import opened Operations
  import opened Clawbacks
  import opened Merges
  import opened Bundles
  import opened Books
  import opened ClawbackBooks
  import opened Soundness
  import opened MoreSoundness
  import opened HoldLaws
  import opened Balances
  import opened Runs
  import opened MergeRuns

  /** Same origin and deadline, never more credits; the owner may change in a merge. */
  ghost predicate LotsEvolve(lots: seq<Lot>, lots': seq<Lot>) {
    && |lots| <= |lots'|
    && forall i {:trigger lots[i]} {:trigger lots'[i]} | 0 <= i < |lots| ::
         lots'[i].remaining <= lots[i].remaining
         && lots'[i] == lots[i].(remaining := lots'[i].remaining, wallet := lots'[i].wallet)
  }

  /** A row keeps everything but its owner and, for a clawback, whether it was reversed. */
  predicate RowStands(t: Txn, t': Txn) {
    t' == t.(wallet := t'.wallet) || t' == MarkReversed(t).(wallet := t'.wallet)
  }

  ghost predicate LedgerStands(txns: seq<Txn>, txns': seq<Txn>) {
    && |txns| <= |txns'|
    && forall t {:trigger txns[t]} {:trigger txns'[t]} | 0 <= t < |txns| :: RowStands(txns[t], txns'[t])
  }

  /** Captured is absorbing: the hold keeps its allocations; only a merge may re-home and re-key it. */
  ghost predicate CapturedStands(holds: seq<Hold>, holds': seq<Hold>) {
    && |holds| <= |holds'|
    && forall h {:trigger holds[h]} {:trigger holds'[h]} | 0 <= h < |holds| && holds[h].status.Captured? ::
         holds'[h] == holds[h].(wallet := holds'[h].wallet, key := holds'[h].key)
  }

  predicate DebtFalls(d: Debt, d': Debt) {
    && d'.outstanding <= d.outstanding
    && d' == d.(outstanding := d'.outstanding, settledAt := d'.settledAt, wallet := d'.wallet)
  }

  ghost predicate DebtsFall(debts: seq<Debt>, debts': seq<Debt>) {
    && |debts| <= |debts'|
    && forall d {:trigger debts[d]} {:trigger debts'[d]} | 0 <= d < |debts| :: DebtFalls(debts[d], debts'[d])
  }

  /** A new debt belongs to a new row. */
  ghost predicate DebtsAreForNewRows(db: Db, db': Db) {
    forall d {:trigger db'.debts[d]} | |db.debts| <= d < |db'.debts| ::
      |db.txns| <= db'.debts[d].txn < |db'.txns|
  }

  ghost predicate Evolves(db: Db, db': Db) {
    && LotsEvolve(db.lots, db'.lots)
    && LedgerStands(db.txns, db'.txns)
    && CapturedStands(db.holds, db'.holds)
    && DebtsFall(db.debts, db'.debts)
    && DebtsAreForNewRows(db, db')
    && db.claims <= db'.claims
  }

  lemma EvolvesOnward(a: Db, b: Db, c: Db)
    requires Evolves(a, b) && Evolves(b, c)
    ensures Evolves(a, c)
  {
    forall t | 0 <= t < |a.txns| ensures RowStands(a.txns[t], c.txns[t]) {
      assert RowStands(a.txns[t], b.txns[t]) && RowStands(b.txns[t], c.txns[t]);
    }
    forall d | 0 <= d < |a.debts| ensures DebtFalls(a.debts[d], c.debts[d]) {
      assert DebtFalls(a.debts[d], b.debts[d]) && DebtFalls(b.debts[d], c.debts[d]);
    }
  }

  lemma SweepEvolves(db: Db, w: nat, now: int)
    requires w < |db.wallets|
    ensures Evolves(db, Sweep(db, w, now))
  {
    SweepClaims(db, w, now);
  }

  lemma {:induction false} ExpireLotsClaims(db: Db, w: nat, now: int)
    ensures ExpireLots(db, w, now).claims == db.claims
    decreases Credits(db.lots, w, Everything)
  {
    match Soonest(db.lots, Due(w, now))
    case None =>
    case Some(i) =>
      var lots' := Draw(db.lots, i, db.lots[i].remaining);
      DrawCredits(db.lots, i, db.lots[i].remaining, w, Everything);
      ExpireLotsClaims(WriteOff(db, i, Credits(lots', w, Everything), Lapsed), w, now);
  }

  lemma SweepClaims(db: Db, w: nat, now: int)
    requires w < |db.wallets|
    ensures Sweep(db, w, now).claims == db.claims
  {
    ExpireLotsClaims(db, w, now);
  }

  lemma {:induction false} SettleFromEvolves(db: Db, w: nat, now: int, k: nat)
    requires w < |db.wallets| && k <= |db.debts|
    ensures Evolves(db, SettleFrom(db, w, now, k))
    decreases |db.debts| - k
  {
    if k < |db.debts| {
      if !OpenDebt(db.debts[k], w) {
        SettleFromEvolves(db, w, now, k + 1);
      } else if Credits(db.lots, w, After(now)) > 0 {
        ConsumeShape(db.lots, w, now, Min(db.debts[k].outstanding, Credits(db.lots, w, After(now))));
        SettleFromEvolves(SettleOne(db, w, now, k), w, now, k + 1);
        EvolvesOnward(db, SettleOne(db, w, now, k), SettleFrom(db, w, now, k));
      }
    }
  }

  lemma CreditEvolves(db: Db, now: int, user: nat, n: int, source: Source, expires: Expiry, key: string,
                      refs: set<string>, settle: bool)
    ensures Evolves(db, CreditOp(db, now, user, n, source, expires, key, refs, settle).db)
  {
    var r := CreditOp(db, now, user, n, source, expires, key, refs, settle).db;
    var locked := LockWallet(db, user);
    if r != db && r != locked.db {
      SweepEvolves(locked.db, locked.w, now);
      var swept := Sweep(locked.db, locked.w, now);
      var granted := GrantLot(swept, locked.w, now, n, source, expires, KeyOf(key), refs);
      EvolvesOnward(db, swept, granted);
      SettleFromEvolves(granted, locked.w, now, 0);
      EvolvesOnward(db, granted, SettleDebts(granted, locked.w, now));
    }
  }

  lemma DebitEvolves(db: Db, now: int, user: nat, n: int, key: string, partial: bool, meterOnly: bool)
    ensures Evolves(db, DebitOp(db, now, user, n, key, partial, meterOnly).db)
  {
    var r := DebitOp(db, now, user, n, key, partial, meterOnly).db;
    var locked := LockWallet(db, user);
    if r != db && r != locked.db {
      SweepEvolves(locked.db, locked.w, now);
      var swept := Sweep(locked.db, locked.w, now);
      ConsumeShape(swept.lots, locked.w, now, Min(n, Credits(swept.lots, locked.w, After(now))));
      EvolvesOnward(db, swept, r);
    }
  }

  lemma HoldEvolves(db: Db, now: int, user: nat, n: int, key: string, expires: Option<int>, ttl: nat,
                    meterOnly: bool)
    ensures Evolves(db, HoldOp(db, now, user, n, key, expires, ttl, meterOnly).db)
  {
    var r := HoldOp(db, now, user, n, key, expires, ttl, meterOnly).db;
    var locked := LockWallet(db, user);
    if r != db && r != locked.db {
      SweepEvolves(locked.db, locked.w, now);
      var swept := Sweep(locked.db, locked.w, now);
      ConsumeShape(swept.lots, locked.w, now, if meterOnly then 0 else n);
      EvolvesOnward(db, swept, r);
    }
  }

  lemma GiveBackEvolves(db: Db, h: nat, n: nat)
    requires h < |db.holds| && db.holds[h].status.Held?
    ensures Evolves(db, GiveBack(db, h, n))
  {
    var held := db.holds[h];
    if Located(held.allocs, db.lots) {
      RefundShape(db.lots, held.wallet, held.allocs, |held.allocs|, n);
    }
  }

  lemma AdjustEvolves(db: Db, h: nat, now: int, n: nat)
    requires h < |db.holds| && db.holds[h].wallet < |db.wallets| && db.holds[h].status.Held?
    ensures Evolves(db, Adjust(db, h, now, n)) && Adjust(db, h, now, n).holds[h].status.Held?
  {
    var held := db.holds[h];
    if n > held.credits {
      ConsumeShape(db.lots, held.wallet, now, n - held.credits);
    } else if n < held.credits {
      GiveBackEvolves(db, h, held.credits - n);
      SweepEvolves(GiveBack(db, h, held.credits - n), held.wallet, now);
      EvolvesOnward(db, GiveBack(db, h, held.credits - n), Adjust(db, h, now, n));
    }
  }

  /** A capture that writes anything bills the hold, after adjusting it unless it was waived. */
  lemma CaptureBills(db: Db, now: int, h: nat, actual: Option<int>) returns (moved: Db, n: nat, waived: Option<nat>)
    requires CaptureOp(db, now, h, actual).db != db
    ensures h < |db.holds| && db.holds[h].wallet < |db.wallets| && db.holds[h].status.Held?
    ensures if waived.Some? then moved == db && n == 0 else moved == Adjust(Sweep(db, db.holds[h].wallet, now), h, now, n)
    ensures h < |moved.holds| && moved.holds[h].wallet == db.holds[h].wallet < |moved.wallets|
    ensures CaptureOp(db, now, h, actual).db == Bill(moved, h, now, n, waived)
  {
    var asked: int := if actual.Some? then actual.value else db.holds[h].credits;
    if db.holds[h].waived.Some? {
      moved, n, waived := db, 0, Some(asked);
    } else {
      moved, n, waived := Adjust(Sweep(db, db.holds[h].wallet, now), h, now, asked), asked, None;
    }
  }

  lemma BillEvolves(db: Db, h: nat, now: int, n: nat, waived: Option<nat>)
    requires h < |db.holds| && db.holds[h].wallet < |db.wallets| && db.holds[h].status.Held?
    ensures Evolves(db, Bill(db, h, now, n, waived))
  {
  }

  lemma CaptureEvolves(db: Db, now: int, h: nat, actual: Option<int>)
    ensures Evolves(db, CaptureOp(db, now, h, actual).db)
  {
    if CaptureOp(db, now, h, actual).db != db {
      var moved, n, waived := CaptureBills(db, now, h, actual);
      if waived.None? {
        var swept := Sweep(db, db.holds[h].wallet, now);
        SweepEvolves(db, db.holds[h].wallet, now);
        AdjustEvolves(swept, h, now, n);
        EvolvesOnward(db, swept, moved);
      }
      BillEvolves(moved, h, now, n, waived);
      EvolvesOnward(db, moved, Bill(moved, h, now, n, waived));
    }
  }

  lemma ReleaseEvolves(db: Db, now: int, h: nat, expired: bool)
    ensures Evolves(db, ReleaseOp(db, now, h, expired).db)
    ensures |ReleaseOp(db, now, h, expired).db.holds| == |db.holds|
  {
    if h < |db.holds| && db.holds[h].wallet < |db.wallets| && db.holds[h].status.Held? {
      var w := db.holds[h].wallet;
      var swept := Sweep(db, w, now);
      var given := GiveBack(swept, h, Total(swept.holds[h].allocs));
      SweepEvolves(db, w, now);
      GiveBackEvolves(swept, h, Total(swept.holds[h].allocs));
      SweepEvolves(given, w, now);
      EvolvesOnward(db, swept, given);
      EvolvesOnward(db, given, Sweep(given, w, now));
      EvolvesOnward(db, Sweep(given, w, now), ReleaseOp(db, now, h, expired).db);
    }
  }

  lemma ClawBackEvolves(db: Db, now: int, g: nat, requested: nat, reason: ClawReason, objectId: string)
    requires Sound(db) && g < |db.txns|
    ensures Evolves(db, ClawBack(db, now, g, requested, reason, objectId))
  {
    var w := db.txns[g].wallet;
    var swept := Sweep(db, w, now);
    SweepEvolves(db, w, now);
    SweepSound(db, w, now);
    GrantIsHome(swept, g);
    TakeGrantedShape(swept.lots, g, 0, requested, w);
    EvolvesOnward(db, swept, ClawBack(db, now, g, requested, reason, objectId));
  }

  lemma ClawBackRemainingKeeps(db: Db, now: int, g: nat, refunded: Option<int>, total: Option<int>,
                               reason: ClawReason, objectId: string)
    requires Inv(db, now) && g < |db.txns|
    ensures var r := ClawBackRemaining(db, now, g, refunded, total, reason, objectId);
      Inv(r, now) && Evolves(db, r)
  {
    var r := ClawBackRemaining(db, now, g, refunded, total, reason, objectId);
    var more := RemainingIs(db, now, g, refunded, total, reason, objectId);
    if r != db {
      ClawBackInv(db, now, now, g, more, reason, objectId);
      ClawBackEvolves(db, now, g, more, reason, objectId);
    }
  }

  lemma {:induction false} ClawBackFromEvolves(db: Db, now: int, k: nat, limit: nat, refs: set<string>,
                                               refunded: Option<int>, total: Option<int>, reason: ClawReason,
                                               objectId: string)
    requires Inv(db, now) && k <= limit <= |db.txns|
    ensures Evolves(db, ClawBackFrom(db, now, k, limit, refs, refunded, total, reason, objectId))
    decreases limit - k
  {
    if k < limit {
      if !Names(db.txns[k], refs) {
        ClawBackFromEvolves(db, now, k + 1, limit, refs, refunded, total, reason, objectId);
      } else {
        var next := ClawBackRemaining(db, now, k, refunded, total, reason, objectId);
        ClawBackRemainingKeeps(db, now, k, refunded, total, reason, objectId);
        ClawBackFromEvolves(next, now, k + 1, limit, refs, refunded, total, reason, objectId);
        EvolvesOnward(db, next, ClawBackFrom(db, now, k, limit, refs, refunded, total, reason, objectId));
      }
    }
  }

  lemma CancelClawEvolves(db: Db, now: int, t: nat)
    requires t < |db.txns| && db.txns[t].note.ClawedBack?
    ensures Evolves(db, CancelClaw(db, now, t))
  {
  }

  lemma RestoreEvolves(db: Db, now: int, t: nat, w: nat, g: nat, n: nat)
    requires w < |db.wallets|
    ensures Evolves(db, Restore(db, now, t, w, g, n))
  {
    var added := db.(lots := db.lots + [RestoredLot(db, w, g, n)]);
    SweepEvolves(added, w, now);
    EvolvesOnward(db, added, Sweep(added, w, now));
    EvolvesOnward(db, Sweep(added, w, now), Restore(db, now, t, w, g, n));
  }

  lemma ReverseEvolves(db: Db, now: int, t: nat)
    requires t < |db.txns|
    ensures Evolves(db, ReverseClawback(db, now, t))
  {
    var row := db.txns[t];
    if row.note.ClawedBack? && !row.note.claw.reversed && row.wallet < |db.wallets| {
      var cancelled := CancelClaw(db, now, t);
      CancelClawEvolves(db, now, t);
      var given := GivenBack(db, row.note.claw);
      if given > 0 {
        RestoreEvolves(cancelled, now, t, row.wallet, row.note.claw.grant, given);
        var restored := Restore(cancelled, now, t, row.wallet, row.note.claw.grant, given);
        EvolvesOnward(db, cancelled, restored);
        SettleFromEvolves(restored, row.wallet, now, 0);
        EvolvesOnward(db, restored, SettleDebts(restored, row.wallet, now));
      }
    }
  }

  lemma {:induction false} ReverseFromEvolves(db: Db, now: int, k: nat, limit: nat, objectId: string)
    requires k <= limit <= |db.txns|
    ensures Evolves(db, ReverseFrom(db, now, k, limit, objectId))
    decreases limit - k
  {
    if k < limit {
      if !Disputed(db.txns[k], objectId) {
        ReverseFromEvolves(db, now, k + 1, limit, objectId);
      } else {
        ReverseEvolves(db, now, k);
        ReverseFromEvolves(ReverseClawback(db, now, k), now, k + 1, limit, objectId);
        EvolvesOnward(db, ReverseClawback(db, now, k), ReverseFrom(db, now, k, limit, objectId));
      }
    }
  }

  lemma {:induction false} ForfeitEvolves(db: Db, w: nat, now: int, sources: set<Source>, k: nat)
    requires k <= |db.lots|
    ensures Evolves(db, ForfeitFrom(db, w, now, sources, k))
    decreases |db.lots| - k
  {
    if k < |db.lots| {
      if !Forfeits(db.lots, w, sources, db.lots[k]) {
        ForfeitEvolves(db, w, now, sources, k + 1);
      } else {
        var b := Credits(Draw(db.lots, k, db.lots[k].remaining), w, After(now));
        ForfeitEvolves(WriteOff(db, k, b, Forfeited), w, now, sources, k + 1);
        EvolvesOnward(db, WriteOff(db, k, b, Forfeited), ForfeitFrom(db, w, now, sources, k));
      }
    }
  }

  lemma MovedEvolves(db: Db, holds: seq<Hold>, m: nat, s: nat)
    requires Renamed(db.holds, holds, m) && m < |db.wallets|
    ensures Evolves(db, MoveRows(db.(holds := holds), m, s))
  {
  }

  lemma FoldEvolves(db: Db, now: int, m: nat, s: nat, key: Key, sources: set<Source>)
    requires Sound(db) && m < |db.wallets| && s < |db.wallets|
    requires Fold(db, now, m, s, key, sources).Ok?
    ensures Evolves(db, Fold(db, now, m, s, key, sources).value)
  {
    var swept := Sweep(db, m, now);
    SweepEvolves(db, m, now);
    SweepSound(db, m, now);
    var kept := ForfeitFrom(swept, m, now, sources, 0);
    ForfeitEvolves(swept, m, now, sources, 0);
    ForfeitSound(swept, m, now, sources, 0);
    EvolvesOnward(db, swept, kept);
    var holds := RenameClashes(kept.holds, m, KeysOf(kept.holds, s), |kept.holds|).value;
    RenameKeepsUnique(kept.holds, m, KeysOf(kept.holds, s), |kept.holds|);
    var moved := MoveRows(kept.(holds := holds), m, s);
    MovedEvolves(kept, holds, m, s);
    EvolvesOnward(db, kept, moved);
    WelcomeEvolves(moved, m, s, now, Credits(kept.lots, m, After(now)), key);
    EvolvesOnward(db, moved, Fold(db, now, m, s, key, sources).value);
  }

  lemma WelcomeEvolves(db: Db, m: nat, s: nat, now: int, moved: nat, key: Key)
    requires s < |db.wallets|
    ensures Evolves(db, Welcome(db, m, s, now, moved, key))
  {
    SweepEvolves(db, s, now);
    EvolvesOnward(db, Sweep(db, s, now), Welcome(db, m, s, now, moved, key));
  }

  lemma MergeEvolves(db: Db, now: int, fromUser: nat, intoUser: nat, sources: set<Source>)
    requires Sound(db)
    ensures Evolves(db, MergeOp(db, now, fromUser, intoUser, sources).db)
  {
    var r := MergeOp(db, now, fromUser, intoUser, sources).db;
    if r != db {
      var m := WalletOf(db.wallets, fromUser).value;
      var locked := LockWallet(db, intoUser);
      LockSound(db, intoUser);
      var key := MergeOf(fromUser, intoUser);
      FoldEvolves(locked.db, now, m, locked.w, key, sources);
      var folded := Fold(locked.db, now, m, locked.w, key, sources).value;
      SettleFromEvolves(folded, locked.w, now, 0);
      EvolvesOnward(locked.db, folded, r);
    }
  }

  lemma {:induction false} SweepFromEvolves(db: Db, now: int, k: nat)
    requires k <= |db.wallets|
    ensures Evolves(db, SweepFrom(db, now, k))
    decreases |db.wallets| - k
  {
    if k < |db.wallets| {
      SweepEvolves(db, k, now);
      SweepFromEvolves(Sweep(db, k, now), now, k + 1);
      EvolvesOnward(db, Sweep(db, k, now), SweepFrom(db, now, k));
    }
  }

  lemma {:induction false} ExpireHoldsEvolves(db: Db, now: int, k: nat)
    ensures Evolves(db, ExpireHoldsFrom(db, now, k))
    decreases |db.holds| - k
  {
    if k < |db.holds| {
      ReleaseEvolves(db, now, k, true);
      var next := if Abandoned(db.holds[k], now) then ReleaseOp(db, now, k, true).db else db;
      ExpireHoldsEvolves(next, now, k + 1);
      EvolvesOnward(db, next, ExpireHoldsFrom(db, now, k));
    }
  }

  lemma BundleEvolves(db: Db, now: int, e: Entitlement)
    ensures Evolves(db, BundleOp(db, now, e).db)
  {
    var locked := LockWallet(db, e.user);
    var claimed := WithClaim(locked.db, locked.w, e);
    if Grantable(e, now) {
      CreditEvolves(claimed, now, e.user, e.credits, Subscription, At(e.expires.value), BundleKey(e.plan, e.period), {}, true);
      EvolvesOnward(db, claimed, BundleCredit(claimed, now, e, BundleKey(e.plan, e.period)).db);
    }
  }

  lemma HandleClawbackEvolves(db: Db, now: int, event: string, refs: set<string>, refunded: Option<int>,
                              total: Option<int>, reason: ClawReason, objectId: string)
    requires Inv(db, now)
    ensures Evolves(db, HandleClawback(db, now, event, refs, refunded, total, reason, objectId))
  {
    var claimed := db.(claims := db.claims + {ClawbackEvent(event)});
    ClaimInv(db, claimed.claims, now);
    ClawBackFromEvolves(claimed, now, 0, |db.txns|, refs, refunded, total, reason, objectId);
    assert Evolves(db, claimed);
    EvolvesOnward(db, claimed, ClawBackFrom(claimed, now, 0, |db.txns|, refs, refunded, total, reason, objectId));
  }

  lemma CloseDisputeEvolves(db: Db, now: int, event: string, objectId: string, won: bool)
    ensures Evolves(db, CloseDispute(db, now, event, objectId, won))
  {
    var claimed := db.(claims := db.claims + {ClawbackEvent(event)});
    ReverseFromEvolves(claimed, now, 0, |db.txns|, objectId);
    assert Evolves(db, claimed);
    EvolvesOnward(db, claimed, ReverseFrom(claimed, now, 0, |db.txns|, objectId));
  }

  lemma ApplyEvolves(db: Db, clock: int, now: int, c: Command)
    requires Inv(db, clock) && clock <= now
    ensures Evolves(db, Apply(db, now, c))
  {
    match c
    case CreditCommand(user, n, source, expires, key, refs, settle) =>
      CreditEvolves(db, now, user, n, source, expires, key, refs, settle);
    case DebitCommand(user, n, key, partial, meterOnly) => DebitEvolves(db, now, user, n, key, partial, meterOnly);
    case HoldCommand(user, n, key, deadline, ttl, meterOnly) =>
      HoldEvolves(db, now, user, n, key, deadline, ttl, meterOnly);
    case CaptureCommand(h, actual) => CaptureEvolves(db, now, h, actual);
    case ReleaseCommand(h, expired) => ReleaseEvolves(db, now, h, expired);
    case ClawbackCommand(event, refs, refunded, total, reason, objectId) =>
      CachedLater(db, clock, now);
      HandleClawbackEvolves(db, now, event, refs, refunded, total, reason, objectId);
    case CloseDisputeCommand(event, objectId, won) => CloseDisputeEvolves(db, now, event, objectId, won);
    case MergeCommand(fromUser, intoUser, sources) => MergeEvolves(db, now, fromUser, intoUser, sources);
    case BundleCommand(e) => BundleEvolves(db, now, e);
    case ExpireLotsCommand => SweepFromEvolves(db, now, 0);
    case ExpireHoldsCommand => ExpireHoldsEvolves(db, now, 0);
  }

  /** From any point of a run on, what stood at that point still stands. */
  lemma {:induction false} RunEvolves(run: seq<Timed>, n: nat)
    requires InTime(run) && n <= |run|
    ensures Evolves(Run(run[..n]), Run(run))
  {
    if n == |run| {
      assert run[..n] == run;
    } else {
      var front, last := run[..|run| - 1], run[|run| - 1];
      assert front[..n] == run[..n];
      RunEvolves(front, n);
      RunInv(front, last.at);
      ApplyEvolves(Run(front), last.at, last.at, last.command);
      EvolvesOnward(Run(run[..n]), Run(front), Run(run));
    }
  }
}
