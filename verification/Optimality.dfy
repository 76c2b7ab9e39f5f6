/** Spending the soonest-expiring credits first serves whatever any other choice of lots could have served. */
module Optimality {
  import opened Sums
  import opened Models
  import opened Lots
  import opened Operations
  import opened Books
  import opened Soundness
  import opened Balances
  import opened Runs
  import opened Settlement

  /** One user's grants and strict debits, each at its own time. */
  datatype Event = Granted(at: int, n: nat, expires: Expiry) | Charged(at: int, n: nat)

  /** The service's own run: None as soon as a charge is refused. */
  function Serve(db: Db, user: nat, events: seq<Event>): Option<Db>
    decreases |events|
  {
    if events == [] then Some(db) else
      var e := events[0];
      var step := match e
        case Granted(at, n, expires) => CreditOp(db, at, user, n, Purchase, expires, "", {}, true).db
        case Charged(at, n) => DebitOp(db, at, user, n, "", false, false).db;
      if e.Charged? && DebitOp(db, e.at, user, e.n, "", false, false).out.Err? then None
      else Serve(step, user, events[1..])
  }

  /** Any other way to serve a charge of n at an instant: some live lots of w, n credits in all. */
  ghost predicate SpendsAnyhow(lots: seq<Lot>, lots': seq<Lot>, w: nat, at: int, n: nat) {
    && |lots'| == |lots| && Shrinks(lots, lots')
    && Credits(lots, w, After(at)) - Credits(lots', w, After(at)) == n
  }

  /** Tables another policy went through, one after each event. */
  ghost predicate Rival(tables: seq<seq<Lot>>, w: nat, events: seq<Event>) {
    && |tables| == |events| + 1
    && forall i | 0 <= i < |events| ::
         match events[i]
         case Granted(at, n, expires) => tables[i + 1] == tables[i] + [Lot(w, Purchase, n, n, expires, None)]
         case Charged(at, n) => SpendsAnyhow(tables[i], tables[i + 1], w, at, n)
  }

  ghost predicate Ordered(events: seq<Event>, now: int) {
    && (forall i | 0 <= i < |events| :: now <= events[i].at && events[i].n > 0)
    && (forall i | 0 <= i < |events| && events[i].Granted? :: Beyond(events[i].expires, After(events[i].at)))
    && (forall i, j | 0 <= i < j < |events| :: events[i].at <= events[j].at)
  }

  /** At every instant from now on, ours has at least as many live credits. */
  ghost predicate Dominates(ours: seq<Lot>, theirs: seq<Lot>, w: nat, now: int) {
    forall t {:trigger Credits(ours, w, After(t))} | t >= now ::
      Credits(ours, w, After(t)) >= Credits(theirs, w, After(t))
  }

  lemma ShrinksCredits(lots: seq<Lot>, lots': seq<Lot>, w: nat, c: Cut)
    requires |lots'| == |lots| && Shrinks(lots, lots')
    ensures Credits(lots', w, c) <= Credits(lots, w, c)
  {
    SumAtMost(lots', CreditsOf(w, c), lots, CreditsOf(w, c));
  }

  lemma NothingOwed(db: Db, w: nat, now: int)
    requires w < |db.wallets| && Owed(db.debts, w) == 0
    ensures SettleDebts(db, w, now) == db
  {
    SumNonNegative(db.debts, OwedOf(w));
    NoOpenDebt(db, w, now, 0);
  }

  lemma {:induction false} NoOpenDebt(db: Db, w: nat, now: int, k: nat)
    requires w < |db.wallets| && k <= |db.debts|
    requires forall i | 0 <= i < |db.debts| :: OwedOf(w)(db.debts[i]) <= 0
    ensures SettleFrom(db, w, now, k) == db
    decreases |db.debts| - k
  {
    if k < |db.debts| {
      assert OwedOf(w)(db.debts[k]) <= 0;
      NoOpenDebt(db, w, now, k + 1);
    }
  }

  /** What a settled-up user's grant does to every later instant. */
  lemma GrantStep(db: Db, user: nat, w: nat, at: int, n: nat, expires: Expiry, t: int)
    requires WalletOf(db.wallets, user) == Some(w) && Owed(db.debts, w) == 0
    requires n > 0 && Beyond(expires, After(at)) && t >= at
    ensures var r := CreditOp(db, at, user, n, Purchase, expires, "", {}, true).db;
      && Credits(r.lots, w, After(t)) == Credits(db.lots, w, After(t)) + (if Beyond(expires, After(t)) then n else 0)
      && Owed(r.debts, w) == 0 && WalletOf(r.wallets, user) == Some(w)
  {
    var swept := Sweep(db, w, at);
    var granted := GrantLot(swept, w, at, n, Purchase, expires, NoKey, {});
    NothingOwed(granted, w, at);
    SweepCredits(db, w, at, w, After(t));
    AppendCredits(swept.lots, Lot(w, Purchase, n, n, expires, Some(|swept.txns|)), w, After(t));
    WalletOfSame(db.wallets, granted.wallets, user);
  }

  lemma {:induction false} WalletOfSame(wallets: seq<Wallet>, wallets': seq<Wallet>, user: nat)
    requires |wallets| == |wallets'|
    requires forall i | 0 <= i < |wallets| :: wallets'[i].user == wallets[i].user
    ensures WalletOf(wallets', user) == WalletOf(wallets, user)
  {
    if wallets != [] {
      WalletOfSame(wallets[..|wallets| - 1], wallets'[..|wallets| - 1], user);
    }
  }

  /** What a covered strict debit does to every later instant. */
  lemma ChargeStep(db: Db, user: nat, w: nat, at: int, n: nat, t: int)
    requires WalletOf(db.wallets, user) == Some(w) && Owed(db.debts, w) == 0
    requires 0 < n <= Credits(db.lots, w, After(at)) && t >= at
    ensures var r := DebitOp(db, at, user, n, "", false, false);
      && r.out.Ok?
      && Credits(r.db.lots, w, After(t)) == Min(Credits(db.lots, w, After(t)), Credits(db.lots, w, After(at)) - n)
      && Owed(r.db.debts, w) == 0 && WalletOf(r.db.wallets, user) == Some(w)
  {
    var swept := Sweep(db, w, at);
    SweepCredits(db, w, at, w, After(t));
    SweepCredits(db, w, at, w, After(at));
    ConsumeProfile(swept.lots, w, at, n, t);
    var r := DebitOp(db, at, user, n, "", false, false).db;
    assert r.debts == db.debts;
    WalletOfSame(db.wallets, r.wallets, user);
  }

  /** The induction over the run: domination is kept, so no charge is refused. */
  lemma {:induction false} ServesWhatAnyRivalServes(db: Db, user: nat, w: nat, now: int, events: seq<Event>,
                                                    tables: seq<seq<Lot>>, end: int)
    requires WalletOf(db.wallets, user) == Some(w) && Owed(db.debts, w) == 0
    requires Ordered(events, now) && Rival(tables, w, events) && Dominates(db.lots, tables[0], w, now)
    requires now <= end && forall i | 0 <= i < |events| :: events[i].at <= end
    ensures Serve(db, user, events).Some?
    ensures Dominates(Serve(db, user, events).value.lots, tables[|events|], w, end)
    decreases |events|
  {
    if events != [] {
      var e, rest := events[0], tables[1..];
      assert forall i | 0 <= i < |events| - 1 :: events[1..][i] == events[i + 1];
      assert Rival(rest, w, events[1..]);
      assert Ordered(events[1..], e.at);
      var next;
      if e.Granted? {
        next := CreditOp(db, e.at, user, e.n, Purchase, e.expires, "", {}, true).db;
        GrantStep(db, user, w, e.at, e.n, e.expires, e.at);
        forall t | t >= e.at ensures Credits(next.lots, w, After(t)) >= Credits(rest[0], w, After(t)) {
          GrantStep(db, user, w, e.at, e.n, e.expires, t);
          AppendCredits(tables[0], Lot(w, Purchase, e.n, e.n, e.expires, None), w, After(t));
          assert Credits(db.lots, w, After(t)) >= Credits(tables[0], w, After(t));
        }
      } else {
        next := DebitOp(db, e.at, user, e.n, "", false, false).db;
        assert Credits(db.lots, w, After(e.at)) >= Credits(tables[0], w, After(e.at));
        ChargeStep(db, user, w, e.at, e.n, e.at);
        forall t | t >= e.at ensures Credits(next.lots, w, After(t)) >= Credits(rest[0], w, After(t)) {
          ChargeStep(db, user, w, e.at, e.n, t);
          ShrinksCredits(tables[0], rest[0], w, After(t));
          CreditsLater(rest[0], w, e.at, t);
          assert Credits(db.lots, w, After(t)) >= Credits(tables[0], w, After(t));
        }
      }
      ServesWhatAnyRivalServes(next, user, w, e.at, events[1..], rest, end);
    }
  }

  /**
   * Expiring-first is optimal: from the same lots, if any other choice of lots serves every charge
   * of a run, the service serves them all too, and is never left with fewer live credits.
   */
  lemma ExpiringFirstIsOptimal(db: Db, user: nat, now: int, events: seq<Event>, tables: seq<seq<Lot>>, end: int, t: int)
    requires WalletOf(db.wallets, user).Some? && Owed(db.debts, WalletOf(db.wallets, user).value) == 0
    requires Ordered(events, now) && now <= end <= t && forall i | 0 <= i < |events| :: events[i].at <= end
    requires Rival(tables, WalletOf(db.wallets, user).value, events) && tables[0] == db.lots
    ensures var w := WalletOf(db.wallets, user).value;
      && Serve(db, user, events).Some?
      && Credits(Serve(db, user, events).value.lots, w, After(t)) >= Credits(tables[|events|], w, After(t))
  {
    ServesWhatAnyRivalServes(db, user, WalletOf(db.wallets, user).value, now, events, tables, end);
  }
}
