/** The pre-flight, the refusals and the retries of the charging calls. */
module Charging {
  import opened Sums
  import opened Models
  import opened Lots
  import opened Operations
  import opened Clawbacks
  import opened Merges
  import opened Bundles
  import opened Books
  import opened Soundness
  import opened MoreSoundness
  import opened Balances
  import opened Runs
  import opened MergeRuns
  import opened Evolution
  import opened Rows
  import opened RunLaws

  // ----- Pre-flight -----

  lemma NoWalletNoCredits(db: Db, user: nat, now: int)
    requires Sound(db) && WalletOf(db.wallets, user).None?
    ensures Credits(db.lots, LockWallet(db, user).w, After(now)) == 0
  {
    assert forall i | 0 <= i < |db.lots| :: Opens(db.wallets, db.lots[i].wallet);
    SumZero(db.lots, CreditsOf(|db.wallets|, After(now)));
  }

  /** What a charge measures itself against is what the pre-flight reports. */
  lemma PreflightBalance(db: Db, now: int, user: nat, n: nat, meterOnly: bool)
    requires Sound(db)
    ensures var locked := LockWallet(db, user);
      Credits(Sweep(locked.db, locked.w, now).lots, locked.w, After(now)) == CanAfford(db, now, user, n, meterOnly).balance
  {
    var locked := LockWallet(db, user);
    SweepCredits(locked.db, locked.w, now, locked.w, After(now));
    if WalletOf(db.wallets, user).None? { NoWalletNoCredits(db, user, now); }
  }

  /** The pre-flight says yes exactly when a strict debit under an unused key goes through. */
  lemma PreflightAgreesWithDebit(db: Db, now: int, user: nat, n: nat, key: string, meterOnly: bool)
    requires Sound(db) && n > 0
    requires key == "" || KeyRow(db.txns, LockWallet(db, user).w, Caller(key)).None?
    ensures CanAfford(db, now, user, n, meterOnly).affordable <==> DebitOp(db, now, user, n, key, false, meterOnly).out.Ok?
  {
    PreflightBalance(db, now, user, n, meterOnly);
  }

  /** ... and exactly when a hold under a fresh key does. */
  lemma PreflightAgreesWithHold(db: Db, now: int, user: nat, n: nat, key: string, deadline: Option<int>, ttl: nat,
                                meterOnly: bool)
    requires Sound(db) && n > 0 && key != "" && FindHold(db.holds, LockWallet(db, user).w, key).None?
    ensures CanAfford(db, now, user, n, meterOnly).affordable
      <==> HoldOp(db, now, user, n, key, deadline, ttl, meterOnly).out.Ok?
  {
    PreflightBalance(db, now, user, n, meterOnly);
  }

  /** The pre-flight's shortfall is the shortfall a partial debit reports and puts on the slate. */
  lemma PreflightShortfall(db: Db, now: int, user: nat, n: nat, key: string, meterOnly: bool)
    requires Sound(db) && n > 0
    requires key == "" || KeyRow(db.txns, LockWallet(db, user).w, Caller(key)).None?
    ensures var r := DebitOp(db, now, user, n, key, true, meterOnly);
      && r.out.Ok? && r.out.value.Partial?
      && r.out.value.receipt.shortfall == CanAfford(db, now, user, n, meterOnly).shortfall
      && Owed(r.db.debts, LockWallet(db, user).w)
         == Owed(db.debts, LockWallet(db, user).w) + CanAfford(db, now, user, n, meterOnly).shortfall
  {
    PreflightBalance(db, now, user, n, meterOnly);
    var w := LockWallet(db, user).w;
    var r := DebitOp(db, now, user, n, key, true, meterOnly);
    if |r.db.debts| > |db.debts| {
      assert r.db.debts == db.debts + [r.db.debts[|db.debts|]];
      SumAppend(db.debts, r.db.debts[|db.debts|], OwedOf(w));
    } else {
      assert r.db.debts == db.debts;
    }
  }

  // ----- Captured holds -----

  /** In a reachable state a captured hold is always answered with its charge row, never with a missing one. */
  lemma CaptureReplays(run: seq<Timed>, now: int, h: nat, actual: Option<int>)
    requires UpTo(run, now) && h < |Run(run).holds| && Run(run).holds[h].status.Captured?
    ensures var r := CaptureOp(Run(run), now, h, actual);
      && r.out.Ok? && r.db == Run(run)
      && Run(run).txns[r.out.value].note.Charged? && Run(run).txns[r.out.value].note.hold == h
  {
    HoldMachine(run, now, h);
    RunInv(run, now);
    assert Opens(Run(run).wallets, Run(run).holds[h].wallet);
  }

  // ----- Retries -----

  lemma CreditUsers(db: Db, now: int, user: nat, n: int, source: Source, expires: Expiry, key: string,
                    refs: set<string>, settle: bool)
    ensures UsersKept(db.wallets, CreditOp(db, now, user, n, source, expires, key, refs, settle).db.wallets)
  {
  }

  lemma DebitUsers(db: Db, now: int, user: nat, n: int, key: string, partial: bool, meterOnly: bool)
    ensures UsersKept(db.wallets, DebitOp(db, now, user, n, key, partial, meterOnly).db.wallets)
  {
  }

  lemma HoldUsers(db: Db, now: int, user: nat, n: int, key: string, deadline: Option<int>, ttl: nat, meterOnly: bool)
    ensures UsersKept(db.wallets, HoldOp(db, now, user, n, key, deadline, ttl, meterOnly).db.wallets)
  {
  }

  lemma CaptureUsers(db: Db, now: int, h: nat, actual: Option<int>)
    ensures UsersKept(db.wallets, CaptureOp(db, now, h, actual).db.wallets)
  {
    if CaptureOp(db, now, h, actual).db != db {
      var moved, n, waived := CaptureBills(db, now, h, actual);
      AdjustUsers(db, db.holds[h].wallet, h, now, n);
      assert UsersKept(db.wallets, moved.wallets);
    }
  }

  lemma AdjustUsers(db: Db, w: nat, h: nat, now: int, n: nat)
    requires h < |db.holds| && db.holds[h].wallet == w < |db.wallets|
    ensures UsersKept(db.wallets, Adjust(Sweep(db, w, now), h, now, n).wallets)
  {
    var swept := Sweep(db, w, now);
    assert UsersKept(db.wallets, swept.wallets);
    assert UsersKept(swept.wallets, Adjust(swept, h, now, n).wallets);
  }

  lemma ReleaseUsers(db: Db, now: int, h: nat, expired: bool)
    ensures UsersKept(db.wallets, ReleaseOp(db, now, h, expired).db.wallets)
  {
    if h < |db.holds| && db.holds[h].wallet < |db.wallets| {
      var w := db.holds[h].wallet;
      var swept := Sweep(db, w, now);
      var given := GiveBack(swept, h, Total(swept.holds[h].allocs));
      assert UsersKept(db.wallets, swept.wallets);
      var back := Sweep(given, w, now);
      assert UsersKept(swept.wallets, back.wallets);
      assert UsersKept(back.wallets, Sync(back, w, now).wallets);
    }
  }

  lemma BundleUsers(db: Db, now: int, e: Entitlement)
    ensures UsersKept(db.wallets, BundleOp(db, now, e).db.wallets)
  {
    if Grantable(e, now) {
      var locked := LockWallet(db, e.user);
      CreditUsers(WithClaim(locked.db, locked.w, e), now, e.user, e.credits, Subscription, At(e.expires.value), BundleKey(e.plan, e.period), {}, true);
    }
  }

  /** Only a merge takes a wallet from its user. */
  lemma ApplyUsers(db: Db, now: int, c: Command)
    requires !c.MergeCommand?
    ensures UsersKept(db.wallets, Apply(db, now, c).wallets)
  {
    match c
    case CreditCommand(u, n, source, expires, k, refs, settle) =>
      CreditUsers(db, now, u, n, source, expires, k, refs, settle);
    case DebitCommand(u, n, k, partial, meterOnly) => DebitUsers(db, now, u, n, k, partial, meterOnly);
    case HoldCommand(u, n, k, deadline, ttl, meterOnly) => HoldUsers(db, now, u, n, k, deadline, ttl, meterOnly);
    case CaptureCommand(h, actual) => CaptureUsers(db, now, h, actual);
    case ReleaseCommand(h, expired) => ReleaseUsers(db, now, h, expired);
    case ClawbackCommand(_, _, _, _, _, _) =>
    case CloseDisputeCommand(_, _, _) =>
    case BundleCommand(e) => BundleUsers(db, now, e);
    case ExpireLotsCommand =>
    case ExpireHoldsCommand =>
  }

  lemma KeepsWallet(wallets: seq<Wallet>, user: nat, w: nat)
    requires Users(wallets) && w < |wallets| && wallets[w].user == Some(user)
    ensures WalletOf(wallets, user) == Some(w)
  {
  }

  lemma ApplyKeepsWallet(db: Db, clock: int, now: int, c: Command, user: nat, w: nat)
    requires Inv(db, clock) && clock <= now && Bystander(c, user) && WalletOf(db.wallets, user) == Some(w)
    ensures WalletOf(Apply(db, now, c).wallets, user) == Some(w)
  {
    ApplyInv(db, clock, now, c);
    if c.MergeCommand? {
      MergeKeepsUser(db, now, c.fromUser, c.intoUser, c.sources, user, w);
    } else {
      ApplyUsers(db, now, c);
    }
    KeepsWallet(Apply(db, now, c).wallets, user, w);
  }

  lemma MergeKeepsUser(db: Db, now: int, fromUser: nat, intoUser: nat, sources: set<Source>, user: nat, w: nat)
    requires fromUser != user && w < |db.wallets| && db.wallets[w].user == Some(user)
    ensures var r := MergeOp(db, now, fromUser, intoUser, sources).db;
      w < |r.wallets| && r.wallets[w].user == Some(user)
  {
    var r := MergeOp(db, now, fromUser, intoUser, sources).db;
    if r.wallets != db.wallets {
      var m := WalletOf(db.wallets, fromUser).value;
      var locked := LockWallet(db, intoUser);
      var folded := Fold(locked.db, now, m, locked.w, MergeOf(fromUser, intoUser), sources).value;
      var swept := Sweep(locked.db, m, now);
      assert swept.wallets[w].user == Some(user) && m != w;
      assert folded.wallets[w].user == Some(user);
    }
  }

  lemma {:induction false} SameDebtOf(debts: seq<Debt>, debts': seq<Debt>, t: nat)
    requires |debts| <= |debts'|
    requires forall d | 0 <= d < |debts| :: debts'[d].txn == debts[d].txn
    requires forall d | |debts| <= d < |debts'| :: debts'[d].txn != t
    ensures DebtOfTxn(debts', t) == DebtOfTxn(debts, t)
    decreases |debts'|
  {
    if |debts'| > |debts| {
      SameDebtOf(debts, debts'[..|debts'| - 1], t);
    } else if debts != [] {
      SameDebtOf(debts[..|debts| - 1], debts'[..|debts'| - 1], t);
    }
  }

  /** What a retry of row t's call would be told. */
  ghost predicate Tells(db: Db, user: nat, w: nat, key: string, t: nat, told: Receipt, n: nat) {
    && WalletOf(db.wallets, user) == Some(w) && OnlyRow(db.txns, w, key, t)
    && (db.txns[t].note.Debited? || db.txns[t].note.Waived?)
    && ReplayDebit(db, t, n) == told
  }

  lemma ApplyTellsTheSame(db: Db, clock: int, now: int, c: Command, user: nat, w: nat, key: string, t: nat,
                          told: Receipt, n: nat)
    requires Inv(db, clock) && clock <= now && Bystander(c, user) && key != ""
    requires Tells(db, user, w, key, t, told, n)
    ensures Tells(Apply(db, now, c), user, w, key, t, told, n)
  {
    var r := Apply(db, now, c);
    ApplyKeepsWallet(db, clock, now, c, user, w);
    ApplyKeepsKey(db, now, c, user, w, key, t);
    ApplyEvolves(db, clock, now, c);
    assert RowStands(db.txns[t], r.txns[t]);
    forall d | 0 <= d < |db.debts| ensures r.debts[d].txn == db.debts[d].txn {
      assert DebtFalls(db.debts[d], r.debts[d]);
    }
    SameDebtOf(db.debts, r.debts, t);
  }

  /** What further commands leave. */
  function Continue(db: Db, more: seq<Timed>): Db {
    if more == [] then db else
      Apply(Continue(db, more[..|more| - 1]), more[|more| - 1].at, more[|more| - 1].command)
  }

  /** Commands in time order, none before the clock and none after now. */
  ghost predicate Within(more: seq<Timed>, clock: int, now: int) {
    InTime(more) && clock <= now && forall i | 0 <= i < |more| :: clock <= more[i].at <= now
  }

  lemma {:induction false} ContinueTellsTheSame(db: Db, clock: int, more: seq<Timed>, user: nat, w: nat, key: string,
                                                t: nat, told: Receipt, n: nat)
    requires Inv(db, clock) && key != "" && Tells(db, user, w, key, t, told, n) && InTime(more)
    requires forall i | 0 <= i < |more| :: clock <= more[i].at && Bystander(more[i].command, user)
    ensures Tells(Continue(db, more), user, w, key, t, told, n)
  {
    if more != [] {
      var front, last := more[..|more| - 1], more[|more| - 1];
      ContinueTellsTheSame(db, clock, front, user, w, key, t, told, n);
      var before := Continue(db, front);
      ContinueInv(db, clock, front, last.at);
      ApplyTellsTheSame(before, last.at, last.at, last.command, user, w, key, t, told, n);
      ApplyInv(before, last.at, last.at, last.command);
    }
  }

  lemma {:induction false} ContinueInv(db: Db, clock: int, more: seq<Timed>, now: int)
    requires Inv(db, clock) && Within(more, clock, now)
    ensures Inv(Continue(db, more), now)
  {
    if more == [] {
      CachedLater(db, clock, now);
    } else {
      var last := more[|more| - 1];
      ContinueInv(db, clock, more[..|more| - 1], last.at);
      ApplyInv(Continue(db, more[..|more| - 1]), last.at, last.at, last.command);
      CachedLater(Continue(db, more), last.at, now);
    }
  }

  lemma KeyedOnce(txns: seq<Txn>, swept: seq<Txn>, row: Txn, w: nat, key: string)
    requires Routine(txns, swept) && KeyRow(txns, w, Caller(key)).None?
    requires row.wallet == w && row.key == Caller(key)
    ensures OnlyRow(swept + [row], w, key, |swept|)
  {
    var all := swept + [row];
    assert forall i | 0 <= i < |txns| :: all[i] == txns[i];
    assert forall i | |txns| <= i < |swept| :: all[i].key.NoKey?;
  }

  /** The debt found for a new row is the one appended with it, if any. */
  lemma NewDebtFound(debts: seq<Debt>, debts': seq<Debt>, t: nat)
    requires forall d | 0 <= d < |debts| :: debts[d].txn != t
    requires debts' == debts || (|debts'| == |debts| + 1 && debts'[..|debts|] == debts && debts'[|debts|].txn == t)
    ensures DebtOfTxn(debts', t) == if |debts'| > |debts| then Some(|debts|) else None
  {
    assert DebtOfTxn(debts, t).None?;
  }

  ghost predicate DebtsHaveRows(db: Db) {
    forall d {:trigger db.debts[d]} | 0 <= d < |db.debts| :: db.debts[d].txn < |db.txns|
  }

  lemma ReachedDebtsHaveRows(run: seq<Timed>, now: int)
    requires UpTo(run, now)
    ensures DebtsHaveRows(Run(run))
  {
    RunEvolves(run, 0);
    assert run[..0] == [];
    forall d | 0 <= d < |Run(run).debts| ensures Run(run).debts[d].txn < |Run(run).txns| {
      assert |EMPTY_DB.debts| <= d;
    }
  }

  /** A charge's own receipt is what replaying its row gives. */
  lemma ReceiptIsReplay(db: Db, w: nat, now: int, n: nat, chargeable: nat, key: Key)
    requires w < |db.wallets| && chargeable <= n && DebtsHaveRows(db)
    ensures var r := ChargeLots(db, w, now, n, chargeable, key); var t := |db.txns|;
      ReplayDebit(r, t, n) == Receipt(t, n, chargeable, n - chargeable, r.wallets[w].balance,
                                      if chargeable < n then Some(|db.debts|) else None)
  {
    var r := ChargeLots(db, w, now, n, chargeable, key);
    NewDebtFound(db.debts, r.debts, |db.txns|);
  }

  /** The first call leaves a row that tells its own story. */
  lemma FirstCallTells(run: seq<Timed>, now: int, user: nat, n: nat, key: string, meterOnly: bool)
    returns (r: Step<Charge>, w: nat)
    requires UpTo(run, now) && n > 0 && key != ""
    requires KeyRow(Run(run).txns, LockWallet(Run(run), user).w, Caller(key)).None?
    ensures r == DebitOp(Run(run), now, user, n, key, true, meterOnly) && w == LockWallet(Run(run), user).w
    ensures r.out.Ok? && r.out.value.Partial? && Inv(r.db, now)
    ensures Tells(r.db, user, w, key, r.out.value.receipt.txn, r.out.value.receipt, n)
  {
    RunInv(run, now);
    ReachedDebtsHaveRows(run, now);
    r := DebitOp(Run(run), now, user, n, key, true, meterOnly);
    w := LockWallet(Run(run), user).w;
    FirstCall(Run(run), now, user, n, key, meterOnly);
  }

  lemma FirstCall(db: Db, now: int, user: nat, n: nat, key: string, meterOnly: bool)
    requires Inv(db, now) && DebtsHaveRows(db) && n > 0 && key != ""
    requires KeyRow(db.txns, LockWallet(db, user).w, Caller(key)).None?
    ensures var r := DebitOp(db, now, user, n, key, true, meterOnly); var w := LockWallet(db, user).w;
      && r.out.Ok? && r.out.value.Partial? && Inv(r.db, now)
      && Tells(r.db, user, w, key, r.out.value.receipt.txn, r.out.value.receipt, n)
  {
    DebitInv(db, now, now, user, n, key, true, meterOnly);
    DebitUsers(db, now, user, n, key, true, meterOnly);
    var r := DebitOp(db, now, user, n, key, true, meterOnly);
    var locked := LockWallet(db, user);
    var w := locked.w;
    var swept := Sweep(locked.db, w, now);
    KeyedOnce(db.txns, swept.txns, r.db.txns[|swept.txns|], w, key);
    KeepsWallet(r.db.wallets, user, w);
    if !meterOnly {
      ReceiptIsReplay(swept, w, now, n, Min(n, Credits(swept.lots, w, After(now))), Caller(key));
    }
  }

  /**
   * A retried partial debit tells the same story: after any later commands that do not merge the user away, the same
   * key and arguments change nothing and answer with the first call's receipt, waived charges included.
   */
  lemma RetryTellsTheSame(run: seq<Timed>, now: int, user: nat, n: nat, key: string, meterOnly: bool,
                          more: seq<Timed>, later: int, meterOnlyLater: bool)
    returns (first: Step<Charge>)
    requires UpTo(run, now) && n > 0 && key != "" && InTime(more)
    requires KeyRow(Run(run).txns, LockWallet(Run(run), user).w, Caller(key)).None?
    requires forall i | 0 <= i < |more| :: now <= more[i].at && Bystander(more[i].command, user)
    ensures first == DebitOp(Run(run), now, user, n, key, true, meterOnly) && first.out.Ok?
    ensures DebitOp(Continue(first.db, more), later, user, n, key, true, meterOnlyLater)
         == Step(Continue(first.db, more), first.out)
  {
    var w;
    first, w := FirstCallTells(run, now, user, n, key, meterOnly);
    ContinueTellsTheSame(first.db, now, more, user, w, key, first.out.value.receipt.txn, first.out.value.receipt, n);
    ToldAgain(Continue(first.db, more), later, user, w, key, first.out.value.receipt, n, meterOnlyLater);
  }

  lemma ToldAgain(db: Db, now: int, user: nat, w: nat, key: string, told: Receipt, n: nat, meterOnly: bool)
    requires Tells(db, user, w, key, told.txn, told, n) && n > 0 && key != ""
    ensures DebitOp(db, now, user, n, key, true, meterOnly) == Step(db, Ok(Partial(told)))
  {
    LockedKeyRow(db, user, w, key, told.txn);
  }
}
