/** The lot engine as services.py runs it: one object holding the tables, changed in place, row by row. */
module Store {
  import opened Sums
  import opened Models
  import opened Lots
  import opened Operations
  import opened Clawbacks
  import opened Merges
  import opened Bundles
  import opened Books
  import opened Soundness
  import opened Runs

  /** The remaining credits of the listed rows. */
  function RemainingIn(lots: seq<Lot>): nat -> int {
    (i: nat) => if i < |lots| then lots[i].remaining else 0
  }

  const RemainingOf: Lot -> int := (l: Lot) => l.remaining

  /** The listed rows of a walk hold exactly the credits the query selects. */
  lemma {:induction false} WalkTotal(lots: seq<Lot>, q: Query)
    ensures Sum(Walk(lots, q), RemainingIn(lots))
         == if q.due then Credits(lots, q.wallet, Everything) - Credits(lots, q.wallet, After(q.now))
            else Credits(lots, q.wallet, After(q.now))
    decreases Sum(lots, CreditsOf(q.wallet, Everything))
  {
    match Soonest(lots, q)
    case None =>
      if q.due {
        SumSame(lots, CreditsOf(q.wallet, Everything), lots, CreditsOf(q.wallet, After(q.now)));
      } else {
        SumZero(lots, CreditsOf(q.wallet, After(q.now)));
      }
    case Some(i) =>
      var lots' := Draw(lots, i, lots[i].remaining);
      DrawCredits(lots, i, lots[i].remaining, q.wallet, Everything);
      DrawCredits(lots, i, lots[i].remaining, q.wallet, After(q.now));
      LotWithin(lots, i, Everything);
      WalkTotal(lots', q);
      var rest := Walk(lots', q);
      forall k | 0 <= k < |rest| ensures RemainingIn(lots')(rest[k]) == RemainingIn(lots)(rest[k]) {
        assert q.Has(lots'[rest[k]]);
      }
      SumSame(rest, RemainingIn(lots'), rest, RemainingIn(lots));
      SumPrepend(i, rest, RemainingIn(lots));
  }

  /** Taking the first row of a walk empty leaves the rest of the walk. */
  lemma WalkStep(lots: seq<Lot>, q: Query)
    requires Walk(lots, q) != []
    ensures var i := Walk(lots, q)[0];
      i < |lots| && Soonest(lots, q) == Some(i) && Walk(Draw(lots, i, lots[i].remaining), q) == Walk(lots, q)[1..]
  {
  }

  /** One step of the expiry sweep. */
  lemma ExpireStep(db: Db, w: nat, now: int, i: nat)
    requires Soonest(db.lots, Due(w, now)) == Some(i)
    ensures var left := Credits(db.lots, w, Everything) - db.lots[i].remaining;
      && Credits(Draw(db.lots, i, db.lots[i].remaining), w, Everything) == left
      && ExpireLots(db, w, now) == ExpireLots(WriteOff(db, i, left, Lapsed), w, now)
  {
    DrawCredits(db.lots, i, db.lots[i].remaining, w, Everything);
  }

  /** Part of a charge: what is outstanding, and what has been taken of the whole. */
  ghost predicate Drawing(lots: seq<Lot>, w: nat, now: int, n: nat, taken: seq<Share>, all: Drawn) {
    var rest := Consume(lots, w, now, n);
    rest.lots == all.lots && taken + rest.taken == all.taken && n <= Credits(lots, w, After(now))
  }

  lemma Regroup(taken: seq<Share>, s: Share, rest: seq<Share>, all: seq<Share>)
    requires taken + ([s] + rest) == all
    ensures taken + [s] + rest == all
  {
    assert taken + ([s] + rest) == taken + [s] + rest;
  }

  lemma ConsumeNext(lots: seq<Lot>, w: nat, now: int, n: nat, i: nat)
    requires n > 0 && Soonest(lots, Live(w, now)) == Some(i)
    ensures var a := Min(n, lots[i].remaining); var rest := Consume(Draw(lots, i, a), w, now, n - a);
      && Consume(lots, w, now, n) == Drawn(rest.lots, [Share(i, a)] + rest.taken)
      && Credits(Draw(lots, i, a), w, After(now)) == Credits(lots, w, After(now)) - a
  {
    DrawCredits(lots, i, Min(n, lots[i].remaining), w, After(now));
  }

  lemma DrawStep(lots: seq<Lot>, w: nat, now: int, n: nat, i: nat, taken: seq<Share>, all: Drawn)
    requires n > 0 && Soonest(lots, Live(w, now)) == Some(i) && Drawing(lots, w, now, n, taken, all)
    ensures var a := Min(n, lots[i].remaining); Drawing(Draw(lots, i, a), w, now, n - a, taken + [Share(i, a)], all)
  {
    var a := Min(n, lots[i].remaining);
    ConsumeNext(lots, w, now, n, i);
    Regroup(taken, Share(i, a), Consume(Draw(lots, i, a), w, now, n - a).taken, all.taken);
  }

  lemma DrawingEnds(lots: seq<Lot>, w: nat, now: int, taken: seq<Share>, all: Drawn)
    requires Drawing(lots, w, now, 0, taken, all)
    ensures Drawn(lots, taken) == all
  {
    assert taken + [] == taken;
  }

  /** Part of a clawback's walk: what is outstanding from row k on, and what has been taken of the whole. */
  ghost predicate Taking(lots: seq<Lot>, g: nat, k: nat, n: nat, taken: seq<Share>, all: Drawn) {
    && k <= |lots|
    && var rest := TakeGranted(lots, g, k, n);
       rest.lots == all.lots && taken + rest.taken == all.taken
  }

  lemma TakeStep(lots: seq<Lot>, g: nat, k: nat, n: nat, taken: seq<Share>, all: Drawn)
    requires k < |lots| && n > 0 && Taking(lots, g, k, n, taken, all)
    ensures if lots[k].grant == Some(g) && lots[k].remaining > 0 then
              var a := Min(n, lots[k].remaining);
              && Taking(Draw(lots, k, a), g, k + 1, n - a, taken + [Share(k, a)], all)
              && Total(taken + [Share(k, a)]) == Total(taken) + a
            else Taking(lots, g, k + 1, n, taken, all)
  {
    if lots[k].grant == Some(g) && lots[k].remaining > 0 {
      var a := Min(n, lots[k].remaining);
      var rest := TakeGranted(Draw(lots, k, a), g, k + 1, n - a);
      Regroup(taken, Share(k, a), rest.taken, all.taken);
      SharesAppend(taken, Share(k, a), [], Everything);
    }
  }

  lemma TakingEnds(lots: seq<Lot>, g: nat, k: nat, n: nat, taken: seq<Share>, all: Drawn)
    requires Taking(lots, g, k, n, taken, all) && (k == |lots| || n == 0)
    ensures Drawn(lots, taken) == all
  {
    assert taken + [] == taken;
  }

  /** Part of a refund: what is still to give back from the first k allocations. */
  ghost predicate Refunding(lots: seq<Lot>, w: nat, allocs: seq<Share>, k: nat, n: nat, all: Refunded) {
    Located(allocs, lots) && k <= |allocs| && Refund(lots, w, allocs, k, n) == all
  }

  lemma RefundStep(lots: seq<Lot>, w: nat, allocs: seq<Share>, k: nat, n: nat, all: Refunded)
    requires k > 0 && n > 0 && Refunding(lots, w, allocs, k, n, all)
    ensures var a := Min(n, allocs[k - 1].credits); var step := Return(lots, w, allocs, k - 1, a);
      Refunding(step.lots, w, step.allocs, k - 1, n - a, all)
  {
  }

  lemma RefundEnds(lots: seq<Lot>, w: nat, allocs: seq<Share>, k: nat, n: nat, all: Refunded)
    requires Refunding(lots, w, allocs, k, n, all) && (k == 0 || n == 0)
    ensures Refunded(lots, allocs) == all
  {
  }

  /** How many holds from row k on are past their deadline. */
  function AbandonedIn(holds: seq<Hold>, now: int, k: nat): nat
    decreases |holds| - k
  {
    if k >= |holds| then 0 else (if Abandoned(holds[k], now) then 1 else 0) + AbandonedIn(holds, now, k + 1)
  }

  lemma {:induction false} AbandonedElsewhere(holds: seq<Hold>, holds': seq<Hold>, now: int, k: nat)
    requires |holds| == |holds'| && forall i | k <= i < |holds| :: holds'[i] == holds[i]
    ensures AbandonedIn(holds', now, k) == AbandonedIn(holds, now, k)
    decreases |holds| - k
  {
    if k < |holds| { AbandonedElsewhere(holds, holds', now, k + 1); }
  }

  lemma ReleaseTouchesOne(db: Db, now: int, h: nat)
    requires h < |db.holds|
    ensures var r := ReleaseOp(db, now, h, true).db;
      |r.holds| == |db.holds| && forall i | 0 <= i < |db.holds| && i != h :: r.holds[i] == db.holds[i]
  {
  }

  /** Part of the sweep over abandoned holds: what is left to do from row k, and what has been counted. */
  ghost predicate Releasing(db: Db, start: Db, now: int, k: nat, released: nat) {
    && Inv(db, now) && ExpireHoldsFrom(db, now, k) == ExpireHolds(start, now)
    && released + AbandonedIn(db.holds, now, k) == AbandonedIn(start.holds, now, 0)
  }

  lemma AbandonedStep(db: Db, start: Db, now: int, k: nat, released: nat)
    requires Releasing(db, start, now, k, released) && k < |db.holds|
    ensures !Abandoned(db.holds[k], now) ==> Releasing(db, start, now, k + 1, released)
    ensures Abandoned(db.holds[k], now) ==>
              && |ReleaseOp(db, now, k, true).db.holds| == |db.holds|
              && Releasing(ReleaseOp(db, now, k, true).db, start, now, k + 1, released + 1)
    ensures db.holds[k].wallet < |db.wallets| && Located(db.holds[k].allocs, db.lots)
  {
    if Abandoned(db.holds[k], now) {
      ReleaseInv(db, now, now, k, true);
      ReleaseTouchesOne(db, now, k);
      AbandonedElsewhere(db.holds, ReleaseOp(db, now, k, true).db.holds, now, k + 1);
    }
    assert InTable(db.holds[k].allocs, db.lots, db.holds[k].wallet);
  }

  class Ledger {
    var wallets: seq<Wallet>
    var lots: seq<Lot>
    var txns: seq<Txn>
    var holds: seq<Hold>
    var debts: seq<Debt>
    var claims: set<Claim>

    function Tables(): Db
      reads this
    {
      Db(wallets, lots, txns, holds, debts, claims)
    }

    constructor ()
      ensures Tables() == EMPTY_DB
    {
      wallets, lots, txns, holds, debts, claims := [], [], [], [], [], {};
    }

    /** Leave the atomic block with an exception: every table as it was. */
    method Rollback(saved: Db)
      modifies this
      ensures Tables() == saved
    {
      wallets, lots, txns, holds, debts, claims :=
        saved.wallets, saved.lots, saved.txns, saved.holds, saved.debts, saved.claims;
    }

    method LockUserWallet(user: nat) returns (w: nat)
      modifies this
      ensures Tables() == LockWallet(old(Tables()), user).db && w == LockWallet(old(Tables()), user).w
      ensures w < |wallets|
    {
      var found := WalletOf(wallets, user);
      if found.Some? {
        w := found.value;
      } else {
        w := |wallets|;
        wallets := wallets + [Wallet(Some(user), 0, None)];
      }
    }

    method SyncBalance(w: nat, now: int) returns (balance: int)
      requires w < |wallets|
      modifies this
      ensures Tables() == Sync(old(Tables()), w, now) && balance == wallets[w].balance
    {
      balance := Credits(lots, w, After(now));
      if balance != wallets[w].balance {
        wallets := wallets[w := wallets[w].(balance := balance)];
      } else {
        assert wallets[w := wallets[w].(balance := balance)] == wallets;
      }
    }

    /** Empty a lot and write the row that says where its credits went. */
    method ZeroLot(i: nat, running: int, note: Note)
      requires i < |lots|
      modifies this
      ensures Tables() == WriteOff(old(Tables()), i, running, note)
    {
      var amount: int := lots[i].remaining;
      lots := lots[i := lots[i].(remaining := 0)];
      txns := txns + [Txn(lots[i].wallet, Some(i), 0 - amount, running, NoKey, note, [], {})];
    }

    /** One turn of the sweep: the soonest due lot dies. */
    method ExpireLot(w: nat, now: int, i: nat, running: int)
      requires Soonest(lots, Due(w, now)) == Some(i)
      requires running == Credits(lots, w, Everything) - lots[i].remaining
      modifies this
      ensures wallets == old(wallets) && lots == Draw(old(lots), i, old(lots)[i].remaining)
      ensures ExpireLots(Tables(), w, now) == ExpireLots(old(Tables()), w, now)
      ensures Credits(lots, w, Everything) == running
      ensures Sum(lots, RemainingOf) == Sum(old(lots), RemainingOf) - old(lots)[i].remaining
    {
      ExpireStep(Tables(), w, now, i);
      SumUpdate(lots, i, lots[i].(remaining := 0), RemainingOf);
      ZeroLot(i, running, Lapsed);
    }

    /** `_expire_due_lots`: zero every due lot in deadline order, a ledger row each. */
    method ExpireDueLots(w: nat, now: int) returns (expired: int)
      requires w < |wallets|
      modifies this
      ensures Tables() == Sweep(old(Tables()), w, now)
      ensures expired == Sum(old(lots), RemainingOf) - Sum(lots, RemainingOf)
      ensures |wallets| == old(|wallets|)
    {
      var due := Walk(lots, Due(w, now));
      expired := 0;
      if due == [] {
        return;
      }
      WalkTotal(lots, Due(w, now));
      var running := Credits(lots, w, After(now)) + Sum(due, RemainingIn(lots));
      ghost var swept := ExpireLots(Tables(), w, now);
      var k := 0;
      while k < |due|
        invariant 0 <= k <= |due| && due[k..] == Walk(lots, Due(w, now))
        invariant wallets == old(wallets) && ExpireLots(Tables(), w, now) == swept
        invariant running == Credits(lots, w, Everything)
        invariant expired == Sum(old(lots), RemainingOf) - Sum(lots, RemainingOf)
      {
        WalkStep(lots, Due(w, now));
        var amount := lots[due[k]].remaining;
        expired := expired + amount;
        running := running - amount;
        ExpireLot(w, now, due[k], running);
        k := k + 1;
      }
      var balance := SyncBalance(w, now);
    }

    /** `_consume_lots`: refuse when short, else take from the live lots in order. */
    method ConsumeLots(w: nat, credits: nat, now: int) returns (r: Outcome<seq<Share>>)
      modifies this
      ensures credits > Credits(old(lots), w, After(now)) ==>
                Tables() == old(Tables()) && r == Err(InsufficientCredits(Credits(old(lots), w, After(now)), credits))
      ensures credits <= Credits(old(lots), w, After(now)) ==>
                Tables() == old(Tables()).(lots := Consume(old(lots), w, now, credits).lots)
                && r == Ok(Consume(old(lots), w, now, credits).taken)
    {
      var walk := Walk(lots, Live(w, now));
      WalkTotal(lots, Live(w, now));
      var available := Sum(walk, RemainingIn(lots));
      if available < credits {
        return Err(InsufficientCredits(available, credits));
      }
      var taken := DrawLots(w, walk, credits, now);
      r := Ok(taken);
    }

    /** The walk of a covered charge: each lot in turn, until nothing is outstanding. */
    method DrawLots(w: nat, walk: seq<nat>, credits: nat, now: int) returns (taken: seq<Share>)
      requires walk == Walk(lots, Live(w, now)) && credits <= Credits(lots, w, After(now))
      modifies `lots
      ensures Drawn(lots, taken) == Consume(old(lots), w, now, credits)
    {
      taken := [];
      ghost var all := Consume(lots, w, now, credits);
      var outstanding := credits;
      var k := 0;
      while k < |walk| && outstanding > 0
        invariant 0 <= k <= |walk| && 0 <= outstanding
        invariant outstanding > 0 ==> walk[k..] == Walk(lots, Live(w, now))
        invariant Drawing(lots, w, now, outstanding, taken, all)
      {
        WalkStep(lots, Live(w, now));
        var i := walk[k];
        var amount := Min(outstanding, lots[i].remaining);
        DrawStep(lots, w, now, outstanding, i, taken, all);
        lots := Draw(lots, i, amount);
        taken := taken + [Share(i, amount)];
        outstanding := outstanding - amount;
        k := k + 1;
      }
      if outstanding > 0 {
        NothingLive(lots, w, now, now);
      }
      DrawingEnds(lots, w, now, taken, all);
    }

    /** Collect what is live towards one open debt: a real charge, with a row that carries no retry key. */
    method CollectOne(w: nat, now: int, k: nat, available: nat) returns (amount: nat)
      requires w < |wallets| && k < |debts| && OpenDebt(debts[k], w) && available == Credits(lots, w, After(now))
      modifies this
      ensures Tables() == SettleOne(old(Tables()), w, now, k)
      ensures amount == Owed(old(debts), w) - Owed(debts, w)
    {
      amount := Min(debts[k].outstanding, available);
      PayDebtOwed(debts, w, k, amount, now, w);
      var taken := ConsumeLots(w, amount, now);
      var balance := SyncBalance(w, now);
      var debt := debts[k].(outstanding := debts[k].outstanding - amount);
      if debt.outstanding <= 0 {
        debt := debt.(settledAt := Some(now));
      }
      debts := debts[k := debt];
      txns := txns + [Txn(w, SingleLot(taken.value), 0 - amount, balance, NoKey, Settled(k), taken.value, {})];
    }

    /** `_settle_debts`: collect from the open debts, oldest first, while anything live is left. */
    method CollectDebts(w: nat, now: int) returns (collected: nat)
      requires w < |wallets|
      modifies this
      ensures Tables() == SettleDebts(old(Tables()), w, now)
      ensures collected == Owed(old(debts), w) - Owed(debts, w) && |wallets| == old(|wallets|)
    {
      collected := 0;
      var k := 0;
      while k < |debts|
        invariant k <= |debts| && w < |wallets| && |wallets| == old(|wallets|)
        invariant SettleFrom(Tables(), w, now, k) == SettleDebts(old(Tables()), w, now)
        invariant collected == Owed(old(debts), w) - Owed(debts, w)
      {
        if OpenDebt(debts[k], w) {
          var available := Credits(lots, w, After(now));
          if available <= 0 {
            return;
          }
          var amount := CollectOne(w, now, k, available);
          collected := collected + amount;
        }
        k := k + 1;
      }
    }

    /** Give part of one allocation back as a lot with the deadline it had. */
    method ReturnShare(h: nat, j: nat, amount: nat)
      requires h < |holds| && Located(holds[h].allocs, lots) && j < |holds[h].allocs|
      requires amount <= holds[h].allocs[j].credits
      modifies `lots, `holds
      ensures |holds| == old(|holds|)
      ensures Refunded(lots, holds[h].allocs) == Return(old(lots), old(holds)[h].wallet, old(holds)[h].allocs, j, amount)
      ensures holds == old(holds)[h := old(holds)[h].(allocs := holds[h].allocs)]
    {
      var a := holds[h].allocs[j];
      if amount > 0 {
        lots := lots + [ReturnLot(lots, holds[h].wallet, a.lot, amount)];
      }
      holds := holds[h := holds[h].(allocs := holds[h].allocs[j := Share(a.lot, a.credits - amount)])];
    }

    /** `_refund_allocations`: newest allocation first, each refund a new lot with the old deadline. */
    /** The newest share not yet refunded gives back what it can. */
    method RefundShare(h: nat, k: nat, outstanding: nat, ghost all: Refunded) returns (left: nat)
      requires h < |holds| && k > 0 && outstanding > 0
      requires Refunding(lots, holds[h].wallet, holds[h].allocs, k, outstanding, all)
      modifies `lots, `holds
      ensures |holds| == old(|holds|) && holds == old(holds)[h := old(holds)[h].(allocs := holds[h].allocs)]
      ensures left == outstanding - Min(outstanding, old(holds)[h].allocs[k - 1].credits)
      ensures Refunding(lots, old(holds)[h].wallet, holds[h].allocs, k - 1, left, all)
    {
      var amount := Min(outstanding, holds[h].allocs[k - 1].credits);
      RefundStep(lots, holds[h].wallet, holds[h].allocs, k, outstanding, all);
      ReturnShare(h, k - 1, amount);
      left := outstanding - amount;
    }

    method RefundAllocations(h: nat, credits: nat)
      requires h < |holds| && Located(holds[h].allocs, lots)
      modifies `lots, `holds
      ensures Tables() == GiveBack(old(Tables()), h, credits)
    {
      ghost var start, w := Tables(), holds[h].wallet;
      ghost var all := Refund(lots, w, holds[h].allocs, |holds[h].allocs|, credits);
      var k: nat := |holds[h].allocs|;
      var outstanding: nat := credits;
      while k > 0 && outstanding > 0
        invariant |holds| == |start.holds|
        invariant holds == start.holds[h := start.holds[h].(allocs := holds[h].allocs)]
        invariant Refunding(lots, w, holds[h].allocs, k, outstanding, all)
      {
        outstanding := RefundShare(h, k, outstanding, all);
        k := k - 1;
      }
      RefundEnds(lots, w, holds[h].allocs, k, outstanding, all);
    }

    // ----- Credit and debit -----

    method Credit(now: int, user: nat, credits: int, source: Source, expires: Expiry, key: string,
                  refs: set<string>, settle: bool)
      returns (r: Outcome<nat>)
      modifies this
      ensures Step(Tables(), r) == CreditOp(old(Tables()), now, user, credits, source, expires, key, refs, settle)
    {
      if credits <= 0 || !Beyond(expires, After(now)) {
        return Err(ValueError);
      }
      var w := LockUserWallet(user);
      if key != "" {
        var existing := KeyRow(txns, w, Caller(key));
        if existing.Some? {
          return Ok(existing.value);
        }
      }
      var expired := ExpireDueLots(w, now);
      var i, t := |lots|, |txns|;
      lots := lots + [Lot(w, source, credits, credits, expires, None)];
      var unlinked := lots;
      lots := lots[i := lots[i].(grant := Some(t))];
      var balance := SyncBalance(w, now);
      txns := txns + [Txn(w, Some(i), credits, balance, KeyOf(key), Granted, [], refs)];
      assert lots == unlinked[..i] + [Lot(w, source, credits, credits, expires, Some(t))];
      if settle {
        var collected := CollectDebts(w, now);
      }
      r := Ok(t);
    }

    method Debit(now: int, user: nat, credits: int, key: string, partial: bool, meterOnly: bool)
      returns (r: Outcome<Charge>)
      modifies this
      ensures Step(Tables(), r) == DebitOp(old(Tables()), now, user, credits, key, partial, meterOnly)
    {
      if credits <= 0 {
        return Err(ValueError);
      }
      var saved := Tables();
      var w := LockUserWallet(user);
      if key != "" {
        var existing := KeyRow(txns, w, Caller(key));
        if existing.Some? {
          return Ok(if partial then Partial(ReplayDebit(Tables(), existing.value, credits)) else Row(existing.value));
        }
      }
      var expired := ExpireDueLots(w, now);
      var t := |txns|;
      if meterOnly {
        var live := MeterOnlyDebit(w, now, credits, KeyOf(key));
        return Ok(if partial then Partial(Receipt(t, credits, 0, 0, live, None)) else Row(t));
      }
      var chargeable := if partial then Min(credits, Credits(lots, w, After(now))) else credits;
      var receipt := ChargeWallet(w, now, credits, chargeable, KeyOf(key));
      if receipt.Err? {
        Rollback(saved);
        return Err(receipt.error);
      }
      r := Ok(if partial then Partial(receipt.value) else Row(t));
    }

    /** `_meter_only_debit`: the charge row at zero cost. */
    method MeterOnlyDebit(w: nat, now: int, credits: nat, key: Key) returns (live: nat)
      modifies this
      ensures Tables() == WaiveCharge(old(Tables()), w, now, credits, key) && live == Credits(lots, w, After(now))
    {
      live := Credits(lots, w, After(now));
      txns := txns + [Txn(w, None, 0, live, key, Waived(credits), [], {})];
    }

    /** The charge row; what it could not cover is opened as a debt and named on the row. */
    method WriteCharge(w: nat, credits: nat, chargeable: nat, balance: int, key: Key, taken: seq<Share>)
      returns (debt: Option<nat>)
      requires chargeable <= credits
      modifies this
      ensures debt == if chargeable < credits then Some(old(|debts|)) else None
      ensures debts == old(debts) + if debt.Some?
                then [Debt(w, credits - chargeable, credits - chargeable, PartialDebit, old(|txns|), key, None)] else []
      ensures txns == old(txns) + [Txn(w, SingleLot(taken), 0 - chargeable, balance, key,
                                       Debited(credits, credits - chargeable, debt), taken, {})]
      ensures wallets == old(wallets) && lots == old(lots) && holds == old(holds) && claims == old(claims)
    {
      var t, short := |txns|, credits - chargeable;
      var row := Txn(w, SingleLot(taken), 0 - chargeable, balance, key, Debited(credits, short, None), taken, {});
      txns := txns + [row];
      debt := None;
      if short > 0 {
        debt := Some(|debts|);
        debts := debts + [Debt(w, short, short, PartialDebit, t, key, None)];
        txns := txns[t := txns[t].(note := Debited(credits, short, debt))];
      }
    }

    /** Draw the charge from the lots and record it, or refuse it. */
    method ChargeWallet(w: nat, now: int, credits: nat, chargeable: nat, key: Key) returns (r: Outcome<Receipt>)
      requires w < |wallets| && chargeable <= credits
      modifies this
      ensures chargeable > Credits(old(lots), w, After(now)) ==>
                r == Err(InsufficientCredits(Credits(old(lots), w, After(now)), chargeable))
      ensures chargeable <= Credits(old(lots), w, After(now)) ==>
                && Tables() == ChargeLots(old(Tables()), w, now, credits, chargeable, key)
                && r == Ok(Receipt(old(|txns|), credits, chargeable, credits - chargeable, wallets[w].balance,
                                   if chargeable < credits then Some(old(|debts|)) else None))
    {
      var taken := ConsumeLots(w, chargeable, now);
      if taken.Err? {
        return Err(taken.error);
      }
      var t := |txns|;
      var balance := SyncBalance(w, now);
      var debt := WriteCharge(w, credits, chargeable, balance, key, taken.value);
      r := Ok(Receipt(t, credits, chargeable, credits - chargeable, balance, debt));
    }

    // ----- Reservations -----

    method HoldCredits(now: int, user: nat, credits: int, key: string, expires: Option<int>, ttl: nat, meterOnly: bool)
      returns (r: Outcome<nat>)
      modifies this
      ensures Step(Tables(), r) == HoldOp(old(Tables()), now, user, credits, key, expires, ttl, meterOnly)
    {
      if credits <= 0 || key == "" {
        return Err(ValueError);
      }
      var saved := Tables();
      var w := LockUserWallet(user);
      var existing := FindHold(holds, w, key);
      if existing.Some? {
        if holds[existing.value].status.Captured? {
          Rollback(saved);
          return Err(HoldKeyResolved(existing.value));
        }
        if holds[existing.value].status.Held? {
          return Ok(existing.value);
        }
      }
      var deadline := HoldDeadline(now, expires, ttl);
      var expired := ExpireDueLots(w, now);
      var reserved, waived := if meterOnly then 0 else credits, if meterOnly then Some(credits as nat) else None;
      var taken := ConsumeLots(w, reserved, now);
      if taken.Err? {
        Rollback(saved);
        return Err(taken.error);
      }
      var held := Hold(w, reserved, key, Held, deadline, waived, taken.value);
      if existing.Some? {
        holds := holds[existing.value := held];
        r := Ok(existing.value);
      } else {
        r := Ok(|holds|);
        holds := holds + [held];
      }
      var balance := SyncBalance(w, now);
    }

    /** Sync, write the charge row and settle the hold. */
    method WriteCapture(h: nat, now: int, credits: nat, waived: Option<nat>) returns (t: nat)
      requires h < |holds| && holds[h].wallet < |wallets|
      modifies this
      ensures Tables() == Bill(old(Tables()), h, now, credits, waived) && t == old(|txns|)
    {
      var w := holds[h].wallet;
      var balance := SyncBalance(w, now);
      var charged := Billed(holds[h].allocs);
      t := |txns|;
      txns := txns + [Txn(w, SingleLot(charged), 0 - credits, balance, NoKey, Charged(h, waived), charged, {})];
      holds := holds[h := holds[h].(status := Captured)];
    }

    /** Draw the extra a capture needs, or refuse. */
    method ExtendHold(h: nat, now: int, extra: nat) returns (r: Outcome<bool>)
      requires h < |holds| && holds[h].wallet < |wallets|
      modifies this
      ensures extra > Credits(old(lots), old(holds)[h].wallet, After(now)) ==>
                r == Err(InsufficientCredits(Credits(old(lots), old(holds)[h].wallet, After(now)), extra))
      ensures extra <= Credits(old(lots), old(holds)[h].wallet, After(now)) ==>
                r == Ok(true) && Tables() == Extend(old(Tables()), h, now, extra)
    {
      var taken := ConsumeLots(holds[h].wallet, extra, now);
      if taken.Err? {
        return Err(taken.error);
      }
      holds := holds[h := holds[h].(allocs := holds[h].allocs + taken.value)];
      r := Ok(true);
    }

    /** Refund what a capture does not need, and let what is dead die. */
    method ShrinkHold(h: nat, now: int, rest: nat)
      requires h < |holds| && holds[h].wallet < |wallets| && Located(holds[h].allocs, lots)
      modifies this
      ensures Tables() == Sweep(GiveBack(old(Tables()), h, rest), old(holds)[h].wallet, now)
    {
      var w := holds[h].wallet;
      RefundAllocations(h, rest);
      var died := ExpireDueLots(w, now);
    }

    method LowerHold(h: nat, now: int, n: nat)
      requires h < |holds| && holds[h].wallet < |wallets| && Located(holds[h].allocs, lots) && n <= holds[h].credits
      modifies this
      ensures Tables() == Adjust(old(Tables()), h, now, n)
    {
      ghost var before, rest := Tables(), holds[h].credits - n;
      if n < holds[h].credits {
        assert Adjust(before, h, now, n) == Sweep(GiveBack(before, h, rest), before.holds[h].wallet, now);
        ShrinkHold(h, now, holds[h].credits - n);
      }
    }

    /** Bring the allocations to what is billed: draw the extra, or refund the rest and let what is dead die. */
    method AdjustHold(h: nat, now: int, n: nat) returns (r: Outcome<bool>)
      requires h < |holds| && holds[h].wallet < |wallets| && Located(holds[h].allocs, lots)
      modifies this
      ensures var extra := n - old(holds)[h].credits; var live := Credits(old(lots), old(holds)[h].wallet, After(now));
        if extra > live then r == Err(InsufficientCredits(live, extra))
        else r == Ok(true) && Tables() == Adjust(old(Tables()), h, now, n)
    {
      if n > holds[h].credits {
        r := ExtendHold(h, now, n - holds[h].credits);
      } else {
        LowerHold(h, now, n);
        r := Ok(true);
      }
    }

    method Capture(now: int, h: nat, actual: Option<int>) returns (r: Outcome<nat>)
      requires h < |holds| ==> holds[h].wallet < |wallets| && Located(holds[h].allocs, lots)
      modifies this
      ensures Step(Tables(), r) == CaptureOp(old(Tables()), now, h, actual)
    {
      if h >= |holds| {
        return Err(HoldNotFound);
      }
      var w := holds[h].wallet;
      if holds[h].status.Captured? {
        var t := ChargeRow(txns, w, h);
        if t.Some? {
          return Ok(t.value);
        }
        return Err(HoldState(Captured));
      }
      if !holds[h].status.Held? {
        return Err(HoldState(holds[h].status));
      }
      var n: int := if actual.Some? then actual.value else holds[h].credits;
      if n < 0 {
        return Err(ValueError);
      }
      if holds[h].waived.Some? {
        var t := WriteCapture(h, now, 0, Some(n));
        return Ok(t);
      }
      var saved := Tables();
      var expired := ExpireDueLots(w, now);
      var adjusted := AdjustHold(h, now, n);
      if adjusted.Err? {
        Rollback(saved);
        return Err(adjusted.error);
      }
      var t := WriteCapture(h, now, n, None);
      r := Ok(t);
    }

    method Release(now: int, h: nat, expired: bool) returns (r: Outcome<nat>)
      requires h < |holds| ==> holds[h].wallet < |wallets| && Located(holds[h].allocs, lots)
      modifies this
      ensures Step(Tables(), r) == ReleaseOp(old(Tables()), now, h, expired)
    {
      if h >= |holds| {
        return Err(HoldNotFound);
      }
      if !holds[h].status.Held? {
        return Ok(h);
      }
      var w := holds[h].wallet;
      var swept := ExpireDueLots(w, now);
      RefundAllocations(h, Total(holds[h].allocs));
      var died := ExpireDueLots(w, now);
      var balance := SyncBalance(w, now);
      holds := holds[h := holds[h].(status := if expired then Expired else Released)];
      r := Ok(h);
    }

    // ----- Clawbacks and won disputes -----

    /** `claim_provider_object`: true for the one caller that may act on the event. */
    method ClaimProviderObject(event: string) returns (mine: bool)
      modifies this
      ensures mine <==> event != "" && ClawbackEvent(event) !in old(claims)
      ensures Tables() == if mine then old(Tables()).(claims := old(claims) + {ClawbackEvent(event)}) else old(Tables())
    {
      mine := event != "" && ClawbackEvent(event) !in claims;
      if mine {
        claims := claims + {ClawbackEvent(event)};
      }
    }

    /** Reclaim up to n credits from the lots of one grant, oldest first. */
    method TakeFromGrant(g: nat, n: nat) returns (taken: seq<Share>, outstanding: nat)
      modifies `lots
      ensures Drawn(lots, taken) == TakeGranted(old(lots), g, 0, n) && outstanding == n - Total(taken)
    {
      taken, outstanding := [], n;
      ghost var all := TakeGranted(lots, g, 0, n);
      var k := 0;
      while k < |lots| && outstanding > 0
        invariant 0 <= k <= |lots|
        invariant Taking(lots, g, k, outstanding, taken, all)
        invariant outstanding == n - Total(taken)
      {
        TakeStep(lots, g, k, outstanding, taken, all);
        if lots[k].grant == Some(g) && lots[k].remaining > 0 {
          var amount := Min(outstanding, lots[k].remaining);
          lots := Draw(lots, k, amount);
          taken := taken + [Share(k, amount)];
          outstanding := outstanding - amount;
        }
        k := k + 1;
      }
      TakingEnds(lots, g, k, outstanding, taken, all);
    }

    /** The clawback row; what was spent is opened as a debt and named on the row. */
    method WriteClawback(w: nat, claw: Claw, balance: int, taken: seq<Share>)
      requires claw.debt.None?
      modifies this
      ensures var named := claw.(debt := if claw.outstanding > 0 then Some(old(|debts|)) else None);
        Tables() == AddTxn(
          old(Tables()).(debts := old(debts) + if claw.outstanding > 0
                           then [Debt(w, claw.outstanding, claw.outstanding, Clawback, old(|txns|), NoKey, None)] else []),
          Txn(w, SingleLot(taken), 0 - claw.reclaimed, balance, NoKey, ClawedBack(named), taken, {}))
    {
      var t := |txns|;
      txns := txns + [Txn(w, SingleLot(taken), 0 - claw.reclaimed, balance, NoKey, ClawedBack(claw), taken, {})];
      if claw.outstanding > 0 {
        var debt := |debts|;
        debts := debts + [Debt(w, claw.outstanding, claw.outstanding, Clawback, t, NoKey, None)];
        txns := txns[t := txns[t].(note := ClawedBack(claw.(debt := Some(debt))))];
      }
    }

    /** Split a request: taken from the grant's lots, already lapsed unspent, and the rest still owed. */
    method SplitRequest(g: nat, requested: nat)
      returns (taken: seq<Share>, reclaimed: nat, forgiven: nat, outstanding: nat)
      modifies `lots
      ensures Drawn(lots, taken) == TakeGranted(old(lots), g, 0, requested) && reclaimed == Total(taken)
      ensures forgiven == if HasLots(old(lots), g) then Min(requested - reclaimed, LapsedCredits(old(Tables()), g)) else 0
      ensures outstanding == requested - reclaimed - forgiven
    {
      var ours, lapsed := HasLots(lots, g), LapsedCredits(Tables(), g);
      taken, outstanding := TakeFromGrant(g, requested);
      reclaimed := requested - outstanding;
      forgiven := 0;
      if outstanding > 0 && ours {
        forgiven := Min(outstanding, lapsed);
        outstanding := outstanding - forgiven;
      }
    }

    method ClawBackGrant(now: int, g: nat, requested: nat, reason: ClawReason, objectId: string)
      requires g < |txns| && txns[g].wallet < |wallets|
      modifies this
      ensures Tables() == ClawBack(old(Tables()), now, g, requested, reason, objectId)
    {
      var w := txns[g].wallet;
      var expired := ExpireDueLots(w, now);
      ghost var swept := Tables();
      var taken, reclaimed, forgiven, outstanding := SplitRequest(g, requested);
      var balance := SyncBalance(w, now);
      assert Tables() == Sync(swept.(lots := TakeGranted(swept.lots, g, 0, requested).lots), w, now);
      WriteClawback(w, Claw(g, reason, objectId, requested, reclaimed, forgiven, outstanding, None, false), balance, taken);
    }

    method ClawBackRest(now: int, g: nat, refunded: Option<int>, total: Option<int>, reason: ClawReason, objectId: string)
      requires g < |txns|
      modifies this
      ensures Tables() == ClawBackRemaining(old(Tables()), now, g, refunded, total, reason, objectId)
    {
      var granted := Max(0, txns[g].delta);
      ReachTarget(now, g, Min(ClawTarget(granted, refunded, total), granted), reason, objectId);
    }

    /** Claw back what earlier events have not requested yet. */
    method ReachTarget(now: int, g: nat, target: nat, reason: ClawReason, objectId: string)
      requires g < |txns|
      modifies this
      ensures Tables() == ClawBackUpTo(old(Tables()), now, g, target, reason, objectId)
    {
      var credits := target - AlreadyClawedBack(txns, g);
      if credits <= 0 || txns[g].wallet >= |wallets| {
        return;
      }
      ClawBackGrant(now, g, credits, reason, objectId);
    }

    /** `_handle_clawback`: claim the event, then every grant its object names. */
    method TakeMoneyBack(now: int, event: string, refs: set<string>, refunded: Option<int>, total: Option<int>,
                         reason: ClawReason, objectId: string)
      modifies this
      ensures Tables() == HandleClawback(old(Tables()), now, event, refs, refunded, total, reason, objectId)
    {
      if forall k | 0 <= k < |txns| :: !Names(txns[k], refs) {
        return;
      }
      var mine := ClaimProviderObject(event);
      if !mine {
        return;
      }
      var limit := |txns|;
      var k := 0;
      while k < limit
        invariant 0 <= k <= limit <= |txns|
        invariant ClawBackFrom(Tables(), now, k, limit, refs, refunded, total, reason, objectId)
               == HandleClawback(old(Tables()), now, event, refs, refunded, total, reason, objectId)
      {
        if Names(txns[k], refs) {
          ClawBackRest(now, k, refunded, total, reason, objectId);
        }
        k := k + 1;
      }
    }

    /** Write off what a clawback's debt still asks for, and mark its row reversed. */
    method CancelClawback(now: int, t: nat) returns (collected: nat)
      requires t < |txns| && txns[t].note.ClawedBack?
      modifies this
      ensures Tables() == CancelClaw(old(Tables()), now, t)
      ensures collected == Collected(old(debts), old(txns)[t].note.claw.debt)
    {
      var claw := txns[t].note.claw;
      collected := 0;
      if claw.debt.Some? && claw.debt.value < |debts| {
        var d := debts[claw.debt.value];
        collected := Max(d.initial - d.outstanding, 0);
        if d.outstanding > 0 {
          debts := debts[claw.debt.value := d.(outstanding := 0, settledAt := Some(now))];
        }
      }
      txns := txns[t := txns[t].(note := ClawedBack(claw.(reversed := true)))];
    }

    /** The lot a won dispute gives back, and its row. */
    method RestoreLot(now: int, t: nat, w: nat, g: nat, given: nat)
      requires w < |wallets|
      modifies this
      ensures Tables() == Restore(old(Tables()), now, t, w, g, given)
    {
      var i := |lots|;
      var template := FirstLotOf(lots, g);
      if template.Some? {
        lots := lots + [lots[template.value].(wallet := w, initial := given, remaining := given, grant := Some(g))];
      } else {
        lots := lots + [Lot(w, Adjustment, given, given, Never, Some(g))];
      }
      var expired := ExpireDueLots(w, now);
      var balance := SyncBalance(w, now);
      txns := txns + [Txn(w, Some(i), given, balance, NoKey, Restored(t), [], {})];
    }

    /** Cancel the debt, mark the row, and give back what was reclaimed and collected. */
    method UndoClawback(now: int, t: nat) returns (given: nat)
      requires t < |txns| && txns[t].note.ClawedBack? && txns[t].wallet < |wallets|
      modifies this
      ensures given == GivenBack(old(Tables()), old(txns)[t].note.claw)
      ensures var cancelled := CancelClaw(old(Tables()), now, t); var w := old(txns)[t].wallet;
        Tables() == if given == 0 then cancelled
                    else SettleDebts(Restore(cancelled, now, t, w, old(txns)[t].note.claw.grant, given), w, now)
    {
      var w, claw := txns[t].wallet, txns[t].note.claw;
      var collected := CancelClawback(now, t);
      given := claw.reclaimed + collected;
      if given > 0 {
        RestoreLot(now, t, w, claw.grant, given);
        var settled := CollectDebts(w, now);
      }
    }

    /** `_reverse_clawback`: once per clawback row. */
    method ReverseClawbackRow(now: int, t: nat) returns (given: nat)
      requires t < |txns|
      modifies this
      ensures Tables() == ReverseClawback(old(Tables()), now, t)
    {
      if !txns[t].note.ClawedBack? || txns[t].note.claw.reversed || txns[t].wallet >= |wallets| {
        return 0;
      }
      given := UndoClawback(now, t);
    }

    /** `handle_dispute_closed`: only a won dispute, once per event, over every row the dispute wrote. */
    method CloseDisputed(now: int, event: string, objectId: string, won: bool)
      modifies this
      ensures Tables() == CloseDispute(old(Tables()), now, event, objectId, won)
    {
      if !won || objectId == "" || forall k | 0 <= k < |txns| :: !Disputed(txns[k], objectId) {
        return;
      }
      var mine := ClaimProviderObject(event);
      if !mine {
        return;
      }
      var limit := |txns|;
      var k := 0;
      while k < limit
        invariant 0 <= k <= limit <= |txns|
        invariant ReverseFrom(Tables(), now, k, limit, objectId)
               == CloseDispute(old(Tables()), now, event, objectId, won)
      {
        if Disputed(txns[k], objectId) {
          var given := ReverseClawbackRow(now, k);
        }
        k := k + 1;
      }
    }

    // ----- Merging accounts -----

    /** `_forfeit_lots_on_merge`: the account-bound lots die where they are. */
    method ForfeitLots(w: nat, now: int, sources: set<Source>) returns (total: nat)
      requires w < |wallets| && Soonest(lots, Due(w, now)).None?
      modifies this
      ensures Tables() == ForfeitFrom(old(Tables()), w, now, sources, 0).(wallets := wallets)
      ensures |wallets| == old(|wallets|)
      ensures wallets == old(wallets)[w := old(wallets)[w].(balance := wallets[w].balance)]
      ensures total == Credits(old(lots), w, After(now)) - Credits(lots, w, After(now))
    {
      total := 0;
      var running := Credits(lots, w, After(now));
      ghost var kept := ForfeitFrom(Tables(), w, now, sources, 0);
      var k := 0;
      while k < |lots|
        invariant 0 <= k <= |lots| && wallets == old(wallets)
        invariant ForfeitFrom(Tables(), w, now, sources, k) == kept
        invariant forall i | 0 <= i < |lots| :: !Due(w, now).Has(lots[i])
        invariant running == Credits(lots, w, After(now))
        invariant total == Credits(old(lots), w, After(now)) - running
      {
        if Forfeits(lots, w, sources, lots[k]) {
          var amount := lots[k].remaining;
          DrawCredits(lots, k, amount, w, After(now));
          running := running - amount;
          total := total + amount;
          ZeroLot(k, running, Forfeited);
        }
        k := k + 1;
      }
      if total > 0 {
        var balance := SyncBalance(w, now);
      } else {
        assert wallets == wallets[w := wallets[w]];
      }
    }

    /** A clashing hold of the merged wallet arrives under a new key; false when that key is taken too. */
    method RenameClashingHolds(m: nat, taken: set<string>) returns (ok: bool)
      modifies this
      ensures ok <==> RenameClashes(old(holds), m, taken, old(|holds|)).Some?
      ensures Tables() == old(Tables()).(holds := holds)
      ensures ok ==> holds == RenameClashes(old(holds), m, taken, old(|holds|)).value
    {
      var k := |holds|;
      while k > 0
        invariant 0 <= k <= |holds| && Tables() == old(Tables()).(holds := holds)
        invariant RenameClashes(holds, m, taken, k) == RenameClashes(old(holds), m, taken, old(|holds|))
      {
        if holds[k - 1].wallet == m && holds[k - 1].key in taken {
          var key := RenamedKey(holds[k - 1].key, m);
          if UsesKey(holds, m, key) {
            return false;
          }
          holds := holds[k - 1 := holds[k - 1].(key := key)];
        }
        k := k - 1;
      }
      ok := true;
    }

    /** The bulk updates that change the rows' owner, and the closing of the merged wallet. */
    method MoveWallet(m: nat, s: nat)
      requires m < |wallets|
      modifies this
      ensures Tables() == MoveRows(old(Tables()), m, s)
    {
      lots := MoveLots(lots, m, s);
      txns := MoveTxns(txns, m, s);
      holds := MoveHolds(holds, m, s);
      debts := MoveDebts(debts, m, s);
      wallets := wallets[m := Wallet(None, 0, Some(s))];
    }

    /** The survivor's side: sweep, derive the balance, one explicit row. */
    method WelcomeCredits(m: nat, s: nat, now: int, moved: nat, key: Key)
      requires s < |wallets|
      modifies this
      ensures Tables() == Welcome(old(Tables()), m, s, now, moved, key)
    {
      var expired := ExpireDueLots(s, now);
      var balance := SyncBalance(s, now);
      txns := txns + [Txn(s, None, moved, balance, key, MergedIn(m), [], {})];
    }

    method FoldWallets(now: int, m: nat, s: nat, key: Key, sources: set<Source>) returns (ok: bool)
      requires m < |wallets| && s < |wallets|
      modifies this
      ensures ok <==> Fold(old(Tables()), now, m, s, key, sources).Ok?
      ensures ok ==> Tables() == Fold(old(Tables()), now, m, s, key, sources).value
    {
      SweepCredits(Tables(), m, now, m, Everything);
      var expired := ExpireDueLots(m, now);
      ghost var kept := ForfeitFrom(Tables(), m, now, sources, 0);
      var forfeited := ForfeitLots(m, now, sources);
      var moved := Credits(lots, m, After(now));
      var taken := KeysOf(holds, s);
      ok := RenameClashingHolds(m, taken);
      if !ok || KeysOf(holds, m) * taken != {} {
        return false;
      }
      ghost var renamed := holds;
      MoveWallet(m, s);
      assert Tables() == MoveRows(kept.(holds := renamed), m, s);
      WelcomeCredits(m, s, now, moved, key);
    }

    method MergeWallets(now: int, fromUser: nat, intoUser: nat, sources: set<Source>) returns (r: Outcome<bool>)
      modifies this
      ensures Step(Tables(), r) == MergeOp(old(Tables()), now, fromUser, intoUser, sources)
    {
      var key := MergeOf(fromUser, intoUser);
      if fromUser == intoUser || exists i | 0 <= i < |txns| :: txns[i].key == key {
        return Ok(false);
      }
      var merged := WalletOf(wallets, fromUser);
      if merged.None? {
        return Ok(false);
      }
      var saved := Tables();
      var survivor := LockUserWallet(intoUser);
      var ok := FoldWallets(now, merged.value, survivor, key, sources);
      if !ok {
        Rollback(saved);
        return Err(IntegrityError);
      }
      var collected := CollectDebts(survivor, now);
      r := Ok(true);
    }

    // ----- The sweeps of tasks.py -----

    /** `expire_credit_lots`: every wallet with something due, and the credits that died. */
    method ExpireAllLots(now: int) returns (expired: int)
      modifies this
      ensures Tables() == ExpireCreditLots(old(Tables()), now)
      ensures expired == Sum(old(lots), RemainingOf) - Sum(lots, RemainingOf)
    {
      expired := 0;
      ghost var swept := ExpireCreditLots(Tables(), now);
      var k := 0;
      while k < |wallets|
        invariant 0 <= k <= |wallets|
        invariant SweepFrom(Tables(), now, k) == swept
        invariant expired == Sum(old(lots), RemainingOf) - Sum(lots, RemainingOf)
      {
        if Soonest(lots, Due(k, now)).Some? {
          var gone := ExpireDueLots(k, now);
          expired := expired + gone;
        }
        k := k + 1;
      }
    }

    /** `expire_holds`: release every hold past its deadline, and count them. */
    method ReleaseAbandoned(now: int) returns (released: nat)
      requires Inv(Tables(), now)
      modifies this
      ensures Tables() == ExpireHolds(old(Tables()), now)
      ensures released == AbandonedIn(old(holds), now, 0)
    {
      released := 0;
      ghost var start := Tables();
      var k := 0;
      while k < |holds|
        invariant 0 <= k <= |holds|
        invariant Releasing(Tables(), start, now, k, released)
      {
        AbandonedStep(Tables(), start, now, k, released);
        if Abandoned(holds[k], now) {
          var r := Release(now, k, true);
          released := released + 1;
        }
        k := k + 1;
      }
    }

    /** `grant_plan_bundle`: the period's claim for the wallet, then the credit, whose lot dies with the period. */
    method GrantPlanBundle(now: int, e: Entitlement) returns (txn: Option<nat>)
      modifies this
      ensures Step(Tables(), Ok(txn)) == BundleOp(old(Tables()), now, e)
    {
      if e.credits <= 0 || e.expires.None? || e.expires.value <= now {
        return None;
      }
      var w := LockUserWallet(e.user);
      var claim := PlanBundle(w, e.plan, e.period);
      if claim in claims {
        return None;
      }
      claims := claims + {claim};
      var r := Credit(now, e.user, e.credits, Subscription, At(e.expires.value), BundleKey(e.plan, e.period), {}, true);
      txn := Some(r.value);
    }

    /** `grant_plan_bundles`: every entitlement, counting the grants. */
    method GrantPlanBundles(now: int, es: seq<Entitlement>) returns (granted: nat)
      modifies this
      ensures Granting(Tables(), granted) == GrantBundles(old(Tables()), now, es, |es|)
    {
      granted := 0;
      for k := 0 to |es|
        invariant Granting(Tables(), granted) == GrantBundles(old(Tables()), now, es, k)
      {
        var txn := GrantPlanBundle(now, es[k]);
        if txn.Some? {
          granted := granted + 1;
        }
      }
    }

    /** `reconcile_wallet_balances`: report, never repair. */
    method ReconcileWallets(now: int) returns (report: seq<nat>)
      ensures forall v: nat :: v in report <==> v in Drifted(Tables(), now)
    {
      report := [];
      var k := 0;
      while k < |wallets|
        invariant 0 <= k <= |wallets|
        invariant forall v: nat :: v in report <==> v < k && v in Drifted(Tables(), now)
      {
        var live := Credits(lots, k, After(now));
        if live != wallets[k].balance {
          report := report + [k];
        }
        k := k + 1;
      }
    }
  }
}
