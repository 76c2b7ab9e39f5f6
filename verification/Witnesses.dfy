/** Concrete runs and deliveries on which the code does less than its text says. */
module Witnesses {
  import opened Sums
  import opened Models
  import opened Lots
  import opened Operations
  import opened Clawbacks
  import opened Merges
  import opened Bundles
  import opened Books
  import opened Soundness
  import opened Balances
  import opened Runs
  import opened MergeRuns
  import opened Evolution
  import opened Rows
  import opened CacheLaws
  import opened RunLaws
  import opened MergeLaws
  import opened Charging
  import opened RefundRuns
  import opened MergedRetries
  import opened BundleLaws
  import opened Forgiveness

  // ----- Steps of the runs below -----

  /** Two commands, one after the other, and a third. */
  lemma RunOfTwo(a: Timed, b: Timed, first: Db, second: Db)
    requires first == Apply(EMPTY_DB, a.at, a.command) && second == Apply(first, b.at, b.command)
    ensures Run([a, b]) == second
  {
    assert [a, b][..1] == [a] && [a][..0] == [] && Run([]) == EMPTY_DB;
    assert Run([a]) == first;
  }

  lemma RunOfThree(a: Timed, b: Timed, c: Timed, first: Db, second: Db, last: Db)
    requires first == Apply(EMPTY_DB, a.at, a.command) && second == Apply(first, b.at, b.command)
    requires last == Apply(second, c.at, c.command)
    ensures Run([a, b, c]) == last
  {
    assert [a, b, c][..2] == [a, b];
    RunOfTwo(a, b, first, second);
  }

  /** A wallet without lots sweeps nothing. */
  lemma NoLots(db: Db, w: nat, now: int)
    requires db.lots == [] && w < |db.wallets|
    ensures Sweep(db, w, now) == db && Credits(db.lots, w, After(now)) == 0
  {
  }

  /** A metered-only hold of a user seen for the first time. */
  lemma FirstMeterHold(db: Db, now: int, user: nat, key: string) returns (r: Db)
    requires db.lots == [] && key != "" && WalletOf(db.wallets, user).None?
    requires forall h | 0 <= h < |db.holds| :: db.holds[h].wallet < |db.wallets|
    ensures r == HoldOp(db, now, user, 1, key, None, 0, true).db && r.lots == [] && r.txns == db.txns
    ensures r.holds == db.holds + [Hold(|db.wallets|, 0, key, Held, Never, Some(1), [])]
    ensures UsersKept(db.wallets, r.wallets) && |r.wallets| == |db.wallets| + 1 && r.wallets[|db.wallets|].user == Some(user)
  {
    r := HoldOp(db, now, user, 1, key, None, 0, true).db;
    var locked := LockWallet(db, user);
    assert FindHold(locked.db.holds, locked.w, key).None?;
    NoLots(locked.db, locked.w, now);
  }

  /** The same with a wallet and a key it has not used. */
  lemma NextMeterHold(db: Db, now: int, user: nat, key: string, w: nat) returns (r: Db)
    requires db.lots == [] && key != "" && WalletOf(db.wallets, user) == Some(w) && FindHold(db.holds, w, key).None?
    ensures r == HoldOp(db, now, user, 1, key, None, 0, true).db && r.lots == [] && r.txns == db.txns
    ensures r.holds == db.holds + [Hold(w, 0, key, Held, Never, Some(1), [])]
    ensures UsersKept(db.wallets, r.wallets) && |r.wallets| == |db.wallets|
  {
    r := HoldOp(db, now, user, 1, key, None, 0, true).db;
    NoLots(db, w, now);
  }

  /** A metered-only debit of a user seen for the first time adds its row and the wallet. */
  lemma FirstMeterDebit(db: Db, now: int, user: nat, n: nat, key: string) returns (r: Db)
    requires db.lots == [] && n > 0 && WalletOf(db.wallets, user).None?
    requires forall t | 0 <= t < |db.txns| :: db.txns[t].wallet < |db.wallets|
    ensures r == DebitOp(db, now, user, n, key, true, true).db
    ensures r == db.(wallets := db.wallets + [Wallet(Some(user), 0, None)],
                     txns := db.txns + [Txn(|db.wallets|, None, 0, 0, KeyOf(key), Waived(n), [], {})])
  {
    r := DebitOp(db, now, user, n, key, true, true).db;
    var locked := LockWallet(db, user);
    assert KeyRow(locked.db.txns, locked.w, Caller(key)).None?;
    NoLots(locked.db, locked.w, now);
  }

  /** With no reservation anywhere a merge is not refused. */
  lemma MergeApplies(db: Db, clock: int, now: int, fromUser: nat, intoUser: nat, m: nat, s: nat)
    requires Inv(db, clock) && db.holds == [] && m != s && fromUser != intoUser
    requires WalletOf(db.wallets, fromUser) == Some(m) && WalletOf(db.wallets, intoUser) == Some(s)
    requires forall i | 0 <= i < |db.txns| :: db.txns[i].key != MergeOf(fromUser, intoUser)
    ensures MergeOp(db, now, fromUser, intoUser, {}).out == Ok(true)
  {
    MergeRefusedIff(db, now, m, s, MergeOf(fromUser, intoUser), {});
  }

  // ----- A merge is refused -----

  function MeteredHold(user: nat, key: string): Command { HoldCommand(user, 1, key, None, 0, true) }

  /** Both accounts hold under one key, and the survivor under the renamed one too. */
  function Clash(key: string): seq<Timed> {
    [Timed(0, MeteredHold(0, key)), Timed(1, MeteredHold(1, key)), Timed(2, MeteredHold(1, RenamedKey(key, 0)))]
  }

  lemma Clashing(key: string, renamed: string) returns (first: Db, second: Db, db: Db)
    requires key != "" && renamed != "" && key != renamed
    ensures first == HoldOp(EMPTY_DB, 0, 0, 1, key, None, 0, true).db
    ensures second == HoldOp(first, 1, 1, 1, key, None, 0, true).db
    ensures db == HoldOp(second, 2, 1, 1, renamed, None, 0, true).db && db.txns == []
    ensures WalletOf(db.wallets, 0) == Some(0) && WalletOf(db.wallets, 1) == Some(1) && |db.wallets| == 2
    ensures |db.holds| == 3 && db.holds[0].wallet == 0 && db.holds[1].wallet == db.holds[2].wallet == 1
    ensures db.holds[0].key == db.holds[1].key == key && db.holds[2].key == renamed
  {
    first := FirstMeterHold(EMPTY_DB, 0, 0, key);
    second := FirstMeterHold(first, 1, 1, key);
    assert WalletOf(second.wallets, 1) == Some(1) && FindHold(second.holds, 1, renamed).None?;
    db := NextMeterHold(second, 2, 1, renamed, 1);
  }

  lemma ClashRun(key: string, first: Db, second: Db, db: Db)
    requires first == HoldOp(EMPTY_DB, 0, 0, 1, key, None, 0, true).db
    requires second == HoldOp(first, 1, 1, 1, key, None, 0, true).db
    requires db == HoldOp(second, 2, 1, 1, RenamedKey(key, 0), None, 0, true).db
    ensures Run(Clash(key)) == db
  {
    var run := Clash(key);
    RunOfThree(run[0], run[1], run[2], first, second, db);
  }

  lemma ClashInv(key: string, db: Db)
    requires db == Run(Clash(key))
    ensures Inv(db, 3)
  {
    RunInv(Clash(key), 3);
  }

  /** The merge of the two fails and changes nothing. */
  lemma AMergeIsRefused(key: string) returns (db: Db)
    requires key != ""
    ensures db == Run(Clash(key)) && MergeOp(db, 3, 0, 1, {}) == Step(db, Err(IntegrityError))
  {
    var renamed := RenamedKey(key, 0);
    assert |renamed| > |key|;
    var first, second, third := Clashing(key, renamed);
    db := third;
    ClashRun(key, first, second, db);
    ClashInv(key, db);
    Refused(db, 3, key);
  }

  lemma Refused(db: Db, clock: int, key: string)
    requires Inv(db, clock) && db.txns == []
    requires WalletOf(db.wallets, 0) == Some(0) && WalletOf(db.wallets, 1) == Some(1) && |db.wallets| == 2
    requires |db.holds| == 3 && db.holds[0].wallet == 0 && db.holds[1].wallet == db.holds[2].wallet == 1
    requires db.holds[0].key == db.holds[1].key == key && db.holds[2].key == RenamedKey(key, 0)
    ensures MergeOp(db, clock, 0, 1, {}) == Step(db, Err(IntegrityError))
  {
    assert db.holds[1].key in KeysOf(db.holds, 1);
    assert Blocked(db.holds, 0, 1);
    MergeRefusedIff(db, clock, 0, 1, MergeOf(0, 1), {});
  }

  // ----- A retry is answered with another account's row -----

  /** User 0 charges under the same key, and is merged into user 1. */
  function BothUsed(key: string): seq<Timed> {
    [Timed(1, DebitCommand(0, 7, key, true, true)), Timed(2, MergeCommand(0, 1, {}))]
  }

  /** User 1 charges 5 under a key, and user 0 charges 7 under it later. */
  lemma BothCharge(key: string) returns (charged: Db, both: Db)
    requires key != ""
    ensures charged == DebitOp(EMPTY_DB, 0, 1, 5, key, true, true).db && both == DebitOp(charged, 1, 0, 7, key, true, true).db
    ensures both.holds == [] && WalletOf(both.wallets, 1) == Some(0) && WalletOf(both.wallets, 0) == Some(1)
    ensures |both.txns| == 2 && both.txns[1].wallet == 1 && both.txns[1].key == both.txns[0].key == Caller(key)
  {
    charged := FirstMeterDebit(EMPTY_DB, 0, 1, 5, key);
    both := SecondCharge(charged, key);
  }

  lemma SecondCharge(charged: Db, key: string) returns (both: Db)
    requires charged.lots == [] && charged.holds == [] && |charged.wallets| == 1 && charged.wallets[0].user == Some(1)
    requires |charged.txns| == 1 && charged.txns[0].wallet == 0 && charged.txns[0].key == Caller(key) && key != ""
    ensures both == DebitOp(charged, 1, 0, 7, key, true, true).db
    ensures both.holds == [] && WalletOf(both.wallets, 1) == Some(0) && WalletOf(both.wallets, 0) == Some(1)
    ensures |both.txns| == 2 && both.txns[1].wallet == 1 && both.txns[1].key == both.txns[0].key == Caller(key)
  {
    both := FirstMeterDebit(charged, 1, 0, 7, key);
  }

  lemma BothChargeInv(charged: Db, both: Db, key: string)
    requires charged == DebitOp(EMPTY_DB, 0, 1, 5, key, true, true).db && both == DebitOp(charged, 1, 0, 7, key, true, true).db
    ensures Inv(charged, 0) && Inv(both, 1)
  {
    RunInv([], 0);
    DebitInv(EMPTY_DB, 0, 0, 1, 5, key, true, true);
    DebitInv(charged, 0, 1, 0, 7, key, true, true);
  }

  /** The merge brings the later row under the key. */
  lemma OvertakenByMerge(charged: Db, both: Db, key: string)
    requires both == DebitOp(charged, 1, 0, 7, key, true, true).db && Inv(both, 1) && both.holds == []
    requires WalletOf(both.wallets, 1) == Some(0) && WalletOf(both.wallets, 0) == Some(1)
    requires |both.txns| == 2 && both.txns[1].wallet == 1 && both.txns[1].key == both.txns[0].key == Caller(key)
    ensures Overtaken(charged, BothUsed(key), 1, key, 0)
  {
    var more := BothUsed(key);
    assert more[..1] == [more[0]] && more[..1][..0] == [];
    assert Continue(charged, more[..1]) == both;
    MergeApplies(both, 1, 2, 0, 1, 1, 0);
    assert Eclipsed(both.txns, 1, key, 0);
    assert Overtakes(both, 2, more[1].command, 1, key, 0);
  }

  /** After the merge user 1's retry is told user 0's story. */
  lemma ARetryTellsAnotherStory(key: string) returns (first: Step<Charge>)
    requires key != ""
    ensures first == DebitOp(EMPTY_DB, 0, 1, 5, key, true, true)
    ensures DebitOp(Continue(first.db, BothUsed(key)), 3, 1, 5, key, true, true).out != first.out
  {
    FirstReceipt(key);
    var charged, both := BothCharge(key);
    BothChargeInv(charged, both, key);
    OvertakenByMerge(charged, both, key);
    first := RetryAfterBoth(key);
  }

  lemma RetryAfterBoth(key: string) returns (first: Step<Charge>)
    requires key != ""
    ensures first == DebitOp(EMPTY_DB, 0, 1, 5, key, true, true) && first.out.Ok? && first.out.value.Partial?
    ensures DebitOp(Continue(first.db, BothUsed(key)), 3, 1, 5, key, true, true).out == first.out
      <==> !Overtaken(first.db, BothUsed(key), 1, key, first.out.value.receipt.txn)
  {
    first := RetryAcrossMergesIff([], 0, 1, 5, key, true, BothUsed(key), 2, 3, true);
  }

  lemma FirstReceipt(key: string)
    requires key != ""
    ensures DebitOp(EMPTY_DB, 0, 1, 5, key, true, true).out == Ok(Partial(Receipt(0, 5, 0, 0, 0, None)))
  {
    NoLots(LockWallet(EMPTY_DB, 1).db, 0, 0);
  }

  // ----- The same credits are forgiven twice -----

  const LAPSING := [Timed(0, CreditCommand(0, 100, Purchase, At(10), "", {"in"}, false)),
                    Timed(1, DebitCommand(0, 40, "", false, false))]

  const BOUGHT := Db([Wallet(Some(0), 100, None)], [Lot(0, Purchase, 100, 100, At(10), Some(0))],
                     [Txn(0, Some(0), 100, 100, NoKey, Granted, [], {"in"})], [], [], {})

  const SPENT := Db([Wallet(Some(0), 60, None)], [Lot(0, Purchase, 100, 60, At(10), Some(0))],
                    [Txn(0, Some(0), 100, 100, NoKey, Granted, [], {"in"}),
                     Txn(0, Some(0), -40, 60, NoKey, Debited(40, 0, None), [Share(0, 40)], {})], [], [], {})

  lemma Bought()
    ensures CreditOp(EMPTY_DB, 0, 0, 100, Purchase, At(10), "", {"in"}, false).db == BOUGHT
  {
    NoLots(LockWallet(EMPTY_DB, 0).db, 0, 0);
    assert BOUGHT.lots == [] + [BOUGHT.lots[0]];
    SumAppend([], BOUGHT.lots[0], CreditsOf(0, After(0)));
    assert Credits(BOUGHT.lots, 0, After(0)) == 100;
  }

  lemma SpentForty()
    ensures DebitOp(BOUGHT, 1, 0, 40, "", false, false).db == SPENT
  {
    assert Soonest(BOUGHT.lots, Due(0, 1)).None? && Soonest(BOUGHT.lots, Live(0, 1)) == Some(0);
    assert Credits(BOUGHT.lots, 0, After(1)) == 100 && Credits(SPENT.lots, 0, After(1)) == 60;
    assert WalletOf(BOUGHT.wallets, 0) == Some(0);
    assert Consume(BOUGHT.lots, 0, 1, 40) == Drawn(SPENT.lots, [Share(0, 40)]) by {
      assert Draw(BOUGHT.lots, 0, 40) == SPENT.lots && Consume(SPENT.lots, 0, 1, 0) == Drawn(SPENT.lots, []);
    }
  }

  /** What the sweep at 10 finds of the grant: nothing left, 60 lapsed. */
  lemma SixtyLapsed()
    ensures StockOf(Sweep(SPENT, 0, 10), 0) == Stock(0, 60)
  {
    var lots := Draw(SPENT.lots, 0, 60);
    var row := Txn(0, Some(0), -60, 0, NoKey, Lapsed, [], {});
    assert Soonest(SPENT.lots, Due(0, 10)) == Some(0);
    assert Credits(lots, 0, Everything) == 0 && Soonest(lots, Due(0, 10)).None?;
    var off := WriteOff(SPENT, 0, 0, Lapsed);
    assert off.lots == lots && off.txns == SPENT.txns + [row];
    assert ExpireLots(SPENT, 0, 10) == off;
    assert Sweep(SPENT, 0, 10).txns == off.txns && Sweep(SPENT, 0, 10).lots == lots;
    SumAppend(SPENT.txns, row, LapsedOf(lots, 0));
    SumZero(SPENT.txns, LapsedOf(lots, 0));
    assert LeftFrom(lots, 0, 0) == lots[0].remaining + LeftFrom(lots, 0, 1);
  }

  /** 100 bought, 40 spent, 60 lapsed: refunded in two halves the wallet owes less than refunded at once. */
  lemma LapsedCreditsAreForgivenTwice()
    ensures |Run(LAPSING).txns| > 0 && Run(LAPSING).txns[0].wallet == 0 < |Run(LAPSING).wallets|
    ensures var db := Run(LAPSING);
      var first := ClawBack(db, 10, 0, 50, ByRefund, "re");
      && first.txns[0].wallet < |first.wallets|
      && Owed(ClawBack(first, 10, 0, 50, ByRefund, "re").debts, 0) < Owed(ClawBack(db, 10, 0, 100, ByRefund, "re").debts, 0)
  {
    Bought();
    SpentForty();
    RunOfTwo(LAPSING[0], LAPSING[1], BOUGHT, SPENT);
    SixtyLapsed();
    var once, first, twice := SplitOwesTheSameIff(SPENT, 10, 0, 50, 50, ByRefund, "re");
  }

  // ----- A bundle counted without credits -----

  /** Ten credits of a plan's period, for one of two accounts. */
  function Monthly(user: nat, plan: string, period: string): Entitlement { Entitlement(user, plan, period, 10, Some(100)) }

  function Bundled(plan: string, period: string): seq<Timed> {
    [Timed(0, DebitCommand(1, 1, "", true, true)), Timed(1, BundleCommand(Monthly(0, plan, period))),
     Timed(2, MergeCommand(0, 1, {}))]
  }

  /** The credit of user 0's bundle, with user 1's wallet already there. */
  lemma BundleLands(claimed: Db, now: int, e: Entitlement, key: string) returns (r: Db)
    requires claimed.lots == [] && claimed.holds == [] && claimed.debts == [] && Grantable(e, now) && key != ""
    requires WalletOf(claimed.wallets, e.user) == Some(1) && KeyRow(claimed.txns, 1, Caller(key)).None?
    ensures r == BundleCredit(claimed, now, e, key).db && r.claims == claimed.claims && r.holds == []
    ensures UsersKept(claimed.wallets, r.wallets) && |r.wallets| == |claimed.wallets|
    ensures |r.txns| == |claimed.txns| + 1 && r.txns[..|claimed.txns|] == claimed.txns
    ensures r.txns[|claimed.txns|].wallet == 1 && r.txns[|claimed.txns|].key == Caller(key)
  {
    r := BundleCredit(claimed, now, e, key).db;
    NoLots(claimed, 1, now);
    CreditClaims(claimed, now, e.user, e.credits, Subscription, At(e.expires.value), key, {}, true);
  }

  lemma BundledThere(plan: string, period: string, key: string) returns (other: Db, db: Db)
    requires key == BundleKey(plan, period)
    ensures other == DebitOp(EMPTY_DB, 0, 1, 1, "", true, true).db && db == BundleOp(other, 1, Monthly(0, plan, period)).db
    ensures db.holds == [] && WalletOf(db.wallets, 0) == Some(1) && WalletOf(db.wallets, 1) == Some(0)
    ensures |db.txns| == 2 && db.txns[0].key.NoKey? && db.txns[1].wallet == 1 && db.txns[1].key == Caller(key)
    ensures db.claims == {PlanBundle(1, plan, period)}
  {
    other := FirstMeterDebit(EMPTY_DB, 0, 1, 1, "");
    db := SecondBundle(other, plan, period, key);
  }

  lemma SecondBundle(other: Db, plan: string, period: string, key: string) returns (db: Db)
    requires key == BundleKey(plan, period)
    requires other.lots == [] && other.holds == [] && other.debts == [] && other.claims == {}
    requires |other.wallets| == 1 && other.wallets[0].user == Some(1) && |other.txns| == 1 && other.txns[0].key.NoKey?
    ensures db == BundleOp(other, 1, Monthly(0, plan, period)).db
    ensures db.holds == [] && WalletOf(db.wallets, 0) == Some(1) && WalletOf(db.wallets, 1) == Some(0)
    ensures |db.txns| == 2 && db.txns[0].key.NoKey? && db.txns[1].wallet == 1 && db.txns[1].key == Caller(key)
    ensures db.claims == {PlanBundle(1, plan, period)}
  {
    var e, locked := Monthly(0, plan, period), LockWallet(other, 0);
    var claimed := WithClaim(locked.db, 1, e);
    assert locked.w == 1 && WalletOf(claimed.wallets, 0) == Some(1);
    db := BundleLands(claimed, 1, e, key);
    BundleIs(other, 1, e, key, claimed);
    assert db.txns[0] == db.txns[..1][0];
  }

  lemma BundleIs(db: Db, now: int, e: Entitlement, key: string, claimed: Db)
    requires Grantable(e, now) && key == BundleKey(e.plan, e.period) && db.claims == {}
    requires claimed == WithClaim(LockWallet(db, e.user).db, LockWallet(db, e.user).w, e)
    ensures BundleOp(db, now, e).db == BundleCredit(claimed, now, e, key).db
  {
  }

  lemma BundleStep(db: Db, now: int, e: Entitlement)
    ensures Apply(db, now, BundleCommand(e)) == BundleOp(db, now, e).db
  {
  }

  lemma MergeStep(db: Db, now: int, fromUser: nat, intoUser: nat)
    ensures Apply(db, now, MergeCommand(fromUser, intoUser, {})) == MergeOp(db, now, fromUser, intoUser, {}).db
  {
  }

  lemma BundledRun(plan: string, period: string, other: Db, db: Db)
    requires other == DebitOp(EMPTY_DB, 0, 1, 1, "", true, true).db && db == BundleOp(other, 1, Monthly(0, plan, period)).db
    ensures Run(Bundled(plan, period)) == MergeOp(db, 2, 0, 1, {}).db
  {
    var e := Monthly(0, plan, period);
    BundleStep(other, 1, e);
    MergeStep(db, 2, 0, 1);
    RunOfThree(Timed(0, DebitCommand(1, 1, "", true, true)), Timed(1, BundleCommand(e)), Timed(2, MergeCommand(0, 1, {})),
               other, db, MergeOp(db, 2, 0, 1, {}).db);
  }

  lemma BundledInv(other: Db, db: Db, e: Entitlement)
    requires other == DebitOp(EMPTY_DB, 0, 1, 1, "", true, true).db && db == BundleOp(other, 1, e).db
    ensures Inv(db, 1)
  {
    RunInv([], 0);
    DebitInv(EMPTY_DB, 0, 0, 1, 1, "", true, true);
    BundleInv(other, 0, 1, e);
  }

  /** After the merge the survivor's own bundle of the period is counted, and adds its claim and nothing else. */
  lemma ABundleAddsNothing(plan: string, period: string) returns (merged: Db)
    ensures merged == Run(Bundled(plan, period))
    ensures var again := BundleOp(merged, 3, Monthly(1, plan, period));
      again.out.value.Some? && again.db == WithClaim(merged, 0, Monthly(1, plan, period))
  {
    var key := BundleKey(plan, period);
    var other, db := BundledThere(plan, period, key);
    BundledRun(plan, period, other, db);
    BundledInv(other, db, Monthly(0, plan, period));
    merged := MergeOp(db, 2, 0, 1, {}).db;
    BundleAfterMerge(db, plan, period, key);
  }

  lemma BundleAfterMerge(db: Db, plan: string, period: string, key: string)
    requires Inv(db, 1) && key == BundleKey(plan, period) && db.holds == []
    requires WalletOf(db.wallets, 0) == Some(1) && WalletOf(db.wallets, 1) == Some(0)
    requires |db.txns| == 2 && db.txns[0].key.NoKey? && db.txns[1].wallet == 1 && db.txns[1].key == Caller(key)
    requires db.claims == {PlanBundle(1, plan, period)}
    ensures var merged, e := MergeOp(db, 2, 0, 1, {}).db, Monthly(1, plan, period);
      BundleOp(merged, 3, e).out.value.Some? && BundleOp(merged, 3, e).db == WithClaim(merged, 0, e)
  {
    MergeApplies(db, 1, 2, 0, 1, 1, 0);
    MergeClaims(db, 2, 0, 1, {});
    MergedBundleAddsNothing(db, 1, 2, 0, {}, Monthly(1, plan, period), 3, 1);
  }

  // ----- A balance that is not the sum of the remaining credits -----

  const UNSWEPT := [Timed(0, CreditCommand(0, 100, Purchase, At(10), "", {"in"}, false)),
                    Timed(1, MeteredHold(0, "k")), Timed(20, CaptureCommand(0, None))]

  lemma HoldStep(db: Db, now: int, user: nat, key: string)
    ensures Apply(db, now, MeteredHold(user, key)) == HoldOp(db, now, user, 1, key, None, 0, true).db
  {
  }

  lemma CaptureStep(db: Db, now: int, h: nat)
    ensures Apply(db, now, CaptureCommand(h, None)) == CaptureOp(db, now, h, None).db
  {
  }

  lemma UnsweptRun(db: Db)
    requires db == HoldOp(BOUGHT, 1, 0, 1, "k", None, 0, true).db
    ensures Run(UNSWEPT) == CaptureOp(db, 20, 0, None).db
  {
    Bought();
    HoldStep(BOUGHT, 1, 0, "k");
    CaptureStep(db, 20, 0);
    RunOfThree(Timed(0, CreditCommand(0, 100, Purchase, At(10), "", {"in"}, false)), Timed(1, MeteredHold(0, "k")),
               Timed(20, CaptureCommand(0, None)), BOUGHT, db, CaptureOp(db, 20, 0, None).db);
  }

  lemma UnsweptInv(db: Db)
    requires db == HoldOp(BOUGHT, 1, 0, 1, "k", None, 0, true).db
    ensures Inv(db, 1)
  {
    Bought();
    RunInv([], 0);
    CreditInv(EMPTY_DB, 0, 0, 0, 100, Purchase, At(10), "", {"in"}, false);
    HoldInv(BOUGHT, 0, 1, 0, 1, "k", None, 0, true);
  }

  /** 100 credits lapse before a waived capture: the balance is 0 while the lot still says 100. */
  lemma ABalanceIsNotTheSum() returns (r: Db)
    ensures r == Run(UNSWEPT) && |r.wallets| > 0 && r.wallets[0].balance != Credits(r.lots, 0, Everything)
  {
    var db := WaivedHold();
    UnsweptRun(db);
    UnsweptInv(db);
    CapturedUnswept(db);
    r := CaptureOp(db, 20, 0, None).db;
  }

  lemma CapturedUnswept(db: Db)
    requires Inv(db, 1) && db.lots == BOUGHT.lots && db.holds == [Hold(0, 0, "k", Held, Never, Some(1), [])]
    ensures var r := CaptureOp(db, 20, 0, None).db;
      |r.wallets| > 0 && r.wallets[0].balance != Credits(r.lots, 0, Everything)
  {
    assert Due(0, 20).Has(db.lots[0]);
    assert CaptureOp(db, 20, 0, None).db.holds[0].status.Captured?;
    WaivedCaptureSumsIff(db, 1, 20, 0, None);
  }

  lemma WaivedHold() returns (db: Db)
    ensures db == HoldOp(BOUGHT, 1, 0, 1, "k", None, 0, true).db
    ensures db.lots == BOUGHT.lots && db.holds == [Hold(0, 0, "k", Held, Never, Some(1), [])] && |db.wallets| == 1
  {
    assert Soonest(BOUGHT.lots, Due(0, 1)).None? && FindHold(BOUGHT.holds, 0, "k").None?;
    assert WalletOf(BOUGHT.wallets, 0) == Some(0);
    db := HoldOp(BOUGHT, 1, 0, 1, "k", None, 0, true).db;
  }

  // ----- A gap in the survivor's ledger -----

  const GIFT := [Timed(0, CreditCommand(0, 100, Purchase, At(10), "", {"in"}, false)),
                 Timed(1, DebitCommand(1, 1, "", true, true)), Timed(2, MergeCommand(0, 1, {}))]

  /** The two wallets before the merge: 100 credits in one, none in the other. */
  lemma GiftBefore() returns (db: Db)
    ensures db == DebitOp(BOUGHT, 1, 1, 1, "", true, true).db && db.lots == BOUGHT.lots && db.holds == [] && db.debts == []
    ensures |db.wallets| == 2 && WalletOf(db.wallets, 0) == Some(0) && WalletOf(db.wallets, 1) == Some(1)
    ensures |db.txns| == 2 && db.txns[0] == BOUGHT.txns[0] && db.txns[1].note.Waived? && db.txns[1].key.NoKey?
  {
    db := DebitOp(BOUGHT, 1, 1, 1, "", true, true).db;
    assert WalletOf(BOUGHT.wallets, 1).None?;
    assert Soonest(BOUGHT.lots, Due(1, 1)).None?;
  }

  lemma {:induction false} NothingToForfeit(db: Db, w: nat, now: int, k: nat)
    requires k <= |db.lots|
    ensures ForfeitFrom(db, w, now, {}, k) == db
    decreases |db.lots| - k
  {
    if k < |db.lots| { NothingToForfeit(db, w, now, k + 1); }
  }

  /** The merge's own row repeats the credits that came along. */
  lemma GiftMerged(db: Db)
    requires db.lots == BOUGHT.lots && db.holds == [] && db.debts == [] && |db.wallets| == 2
    requires WalletOf(db.wallets, 0) == Some(0) && WalletOf(db.wallets, 1) == Some(1)
    requires |db.txns| == 2 && !db.txns[0].note.MergedIn? && !db.txns[1].note.MergedIn?
    requires db.txns[0].key.NoKey? && db.txns[1].key.NoKey?
    ensures Sum(MergeOp(db, 2, 0, 1, {}).db.txns, MergeDeltaOf(1)) == 100
  {
    assert Soonest(db.lots, Due(0, 2)).None?;
    NothingToForfeit(db, 0, 2, 0);
    assert BOUGHT.lots == [] + [BOUGHT.lots[0]];
    SumAppend([], BOUGHT.lots[0], CreditsOf(0, After(2)));
    var moved := MoveRows(db.(holds := []), 0, 1);
    assert Soonest(moved.lots, Due(1, 2)).None?;
    var folded := Welcome(moved, 0, 1, 2, 100, MergeOf(0, 1));
    assert Fold(db, 2, 0, 1, MergeOf(0, 1), {}) == Ok(folded);
    var row := folded.txns[2];
    assert folded.txns == moved.txns + [row] && row.note == MergedIn(0) && row.delta == 100 && row.wallet == 1;
    SumAppend(moved.txns, row, MergeDeltaOf(1));
    SumZero(moved.txns, MergeDeltaOf(1));
    assert MergeOp(db, 2, 0, 1, {}).db == SettleDebts(folded, 1, 2);
  }

  lemma GiftRun(db: Db)
    requires db == DebitOp(BOUGHT, 1, 1, 1, "", true, true).db
    ensures Run(GIFT) == MergeOp(db, 2, 0, 1, {}).db
  {
    Bought();
    MergeStep(db, 2, 0, 1);
    RunOfThree(Timed(0, CreditCommand(0, 100, Purchase, At(10), "", {"in"}, false)),
               Timed(1, DebitCommand(1, 1, "", true, true)), Timed(2, MergeCommand(0, 1, {})),
               BOUGHT, db, MergeOp(db, 2, 0, 1, {}).db);
  }

  lemma GapOf(r: Db)
    requires r == Run(GIFT)
    ensures Sum(r.txns, AnyDeltaOf(1))
         == Credits(r.lots, 1, Everything) + OnHold(r.holds, 1) + Sum(r.txns, MergeDeltaOf(1))
  {
    MergeRowsAreTheOnlyGap(GIFT, 2, 1);
  }

  /** After the merge of 100 credits the survivor's rows sum to 100 more than its credits. */
  lemma ALedgerHasAGap() returns (r: Db)
    ensures r == Run(GIFT)
    ensures Sum(r.txns, AnyDeltaOf(1)) == Credits(r.lots, 1, Everything) + OnHold(r.holds, 1) + 100
  {
    var db := GiftBefore();
    GiftRun(db);
    GiftMerged(db);
    r := MergeOp(db, 2, 0, 1, {}).db;
    GapOf(r);
  }
}
