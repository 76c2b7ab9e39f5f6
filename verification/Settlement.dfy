/** Collecting debts: exactly the oldest-first greedy. */
module Settlement {
  import opened Sums
  import opened Models
  import opened Lots
  import opened Operations
  import opened Books
  import opened Balances

  /** What wallet w owes on debts older than row j. */
  function OwedBefore(debts: seq<Debt>, w: nat, j: nat): int
    requires j <= |debts|
  {
    SumTo(debts, OwedOf(w), j)
  }

  /** What debt j is paid when `budget` credits meet the older debts first. */
  function PaidShare(d: Debt, w: nat, budget: int): nat {
    if d.wallet == w && d.settledAt.None? then Min(d.outstanding, Max(0, budget)) else 0
  }

  lemma {:induction false} OwedBeforeGrows(debts: seq<Debt>, w: nat, i: nat, j: nat)
    requires i <= j <= |debts|
    ensures 0 <= OwedBefore(debts, w, i) <= OwedBefore(debts, w, j)
    decreases j
  {
    if i < j {
      OwedBeforeGrows(debts, w, i, j - 1);
    } else {
      SumToNonNegative(debts, OwedOf(w), i);
    }
  }

  /** One collection: the debt pays what it can, and the live lots pay for it. */
  lemma SettleOneStep(db: Db, w: nat, now: int, k: nat)
    requires w < |db.wallets| && k < |db.debts| && OpenDebt(db.debts[k], w)
    ensures var a := Min(db.debts[k].outstanding, Credits(db.lots, w, After(now))); var r := SettleOne(db, w, now, k);
      && r.debts == db.debts[k := PayDebt(db.debts[k], a, now)]
      && Credits(r.lots, w, After(now)) == Credits(db.lots, w, After(now)) - a
  {
    ConsumeProfile(db.lots, w, now, Min(db.debts[k].outstanding, Credits(db.lots, w, After(now))), now);
  }

  lemma PaidBefore(debts: seq<Debt>, w: nat, k: nat, a: nat, now: int, j: nat)
    requires k < j <= |debts| && OpenDebt(debts[k], w) && a <= debts[k].outstanding
    ensures OwedBefore(debts[k := PayDebt(debts[k], a, now)], w, j) == OwedBefore(debts, w, j) - a
  {
    SumToUpdate(debts, k, PayDebt(debts[k], a, now), OwedOf(w), j);
  }

  lemma {:induction false} SettleFromKeeps(db: Db, w: nat, now: int, k: nat, j: nat)
    requires w < |db.wallets| && j < k <= |db.debts|
    ensures SettleFrom(db, w, now, k).debts[j] == db.debts[j]
    decreases |db.debts| - k
  {
    if k < |db.debts| {
      if !OpenDebt(db.debts[k], w) {
        SettleFromKeeps(db, w, now, k + 1, j);
      } else if Credits(db.lots, w, After(now)) > 0 {
        SettleFromKeeps(SettleOne(db, w, now, k), w, now, k + 1, j);
      }
    }
  }

  /** From debt k on, debt j is paid out of what the debts between them leave. */
  lemma {:induction false} SettleFromPays(db: Db, w: nat, now: int, k: nat, j: nat)
    requires w < |db.wallets| && k <= j < |db.debts|
    ensures SettleFrom(db, w, now, k).debts[j].outstanding
         == db.debts[j].outstanding
            - PaidShare(db.debts[j], w,
                        Credits(db.lots, w, After(now)) - OwedBefore(db.debts, w, j) + OwedBefore(db.debts, w, k))
    decreases |db.debts| - k
  {
    OwedBeforeGrows(db.debts, w, k, j);
    if !OpenDebt(db.debts[k], w) {
      if j == k {
        SettleFromKeeps(db, w, now, k + 1, k);
      } else {
        SettleFromPays(db, w, now, k + 1, j);
      }
    } else if Credits(db.lots, w, After(now)) > 0 {
      var next := SettleOne(db, w, now, k);
      var a := Min(db.debts[k].outstanding, Credits(db.lots, w, After(now)));
      SettleOneStep(db, w, now, k);
      if j == k {
        SettleFromKeeps(next, w, now, k + 1, k);
      } else {
        SettleFromPays(next, w, now, k + 1, j);
        PaidBefore(db.debts, w, k, a, now, j);
        PaidBefore(db.debts, w, k, a, now, k + 1);
        OwedBeforeGrows(db.debts, w, k + 1, j);
      }
    }
  }

  /** Every debt is paid exactly what the live credits allow after the older ones: a prefix in full, then a part, then nothing. */
  lemma SettlementIsGreedy(db: Db, w: nat, now: int, j: nat)
    requires w < |db.wallets| && j < |db.debts|
    ensures SettleDebts(db, w, now).debts[j].outstanding
         == db.debts[j].outstanding
            - PaidShare(db.debts[j], w, Credits(db.lots, w, After(now)) - OwedBefore(db.debts, w, j))
  {
    SettleFromPays(db, w, now, 0, j);
  }

  lemma {:induction false} SettleFromCollects(db: Db, w: nat, now: int, k: nat)
    requires w < |db.wallets| && k <= |db.debts|
    ensures var r := SettleFrom(db, w, now, k);
      var due := Owed(db.debts, w) - OwedBefore(db.debts, w, k);
      && due >= 0
      && Credits(r.lots, w, After(now)) == Credits(db.lots, w, After(now)) - Min(due, Credits(db.lots, w, After(now)))
      && Owed(r.debts, w) == Owed(db.debts, w) - Min(due, Credits(db.lots, w, After(now)))
    decreases |db.debts| - k
  {
    OwedBeforeGrows(db.debts, w, k, |db.debts|);
    if k < |db.debts| {
      OwedBeforeGrows(db.debts, w, k + 1, |db.debts|);
      if !OpenDebt(db.debts[k], w) {
        SettleFromCollects(db, w, now, k + 1);
      } else if Credits(db.lots, w, After(now)) > 0 {
        var next := SettleOne(db, w, now, k);
        var a := Min(db.debts[k].outstanding, Credits(db.lots, w, After(now)));
        SettleOneStep(db, w, now, k);
        SettleFromCollects(next, w, now, k + 1);
        PaidBefore(db.debts, w, k, a, now, |db.debts|);
        PaidBefore(db.debts, w, k, a, now, k + 1);
      }
    }
  }

  /** Settlement collects the smaller of what is owed and what is live; one of the two is then gone. */
  lemma SettlementCollects(db: Db, w: nat, now: int)
    requires w < |db.wallets|
    ensures var r := SettleDebts(db, w, now);
      var collected := Min(Owed(db.debts, w), Credits(db.lots, w, After(now)));
      && Owed(r.debts, w) == Owed(db.debts, w) - collected
      && Credits(r.lots, w, After(now)) == Credits(db.lots, w, After(now)) - collected
      && (Owed(r.debts, w) == 0 || Credits(r.lots, w, After(now)) == 0)
  {
    SettleFromCollects(db, w, now, 0);
  }

  /** A settling credit leaves either no debt open or no live credit. */
  lemma CreditSettles(db: Db, now: int, user: nat, n: int, source: Source, expires: Expiry, key: string,
                      refs: set<string>)
    requires n > 0 && Beyond(expires, After(now))
    requires key == "" || KeyRow(db.txns, LockWallet(db, user).w, Caller(key)).None?
    ensures var r := CreditOp(db, now, user, n, source, expires, key, refs, true); var w := LockWallet(db, user).w;
      && r.out.Ok?
      && (Owed(r.db.debts, w) == 0 || Credits(r.db.lots, w, After(now)) == 0)
  {
    var locked := LockWallet(db, user);
    var swept := Sweep(locked.db, locked.w, now);
    SettlementCollects(GrantLot(swept, locked.w, now, n, source, expires, KeyOf(key), refs), locked.w, now);
  }
}
