/** Which ledger rows an operation may add, and what follows for retry keys and for clawbacks over whole runs. */
module Rows {
  import opened Models
  import opened Lots
  import opened Operations
  import opened Clawbacks
  import opened Merges
  import opened Bundles
  import opened Books
  import opened ClawbackBooks
  import opened Soundness
  import opened MoreSoundness
  import opened Balances
  import opened Runs
  import opened MergeRuns
  import opened Evolution
  import opened Optimality
  import opened ClawbackLaws

  /** What a command may do to clawback rows: nothing, write new ones, or mark old ones reversed. */
  datatype Writing = Plain | Claws | Reverses

  /**
   * Old rows stand as they are, reversals aside. New rows carry no key, except rows of wallet w with the key of this
   * very call; none of them is a settlement row, and clawbacks are written only when `kind` says so.
   */
  ghost predicate NewRows(txns: seq<Txn>, txns': seq<Txn>, w: nat, key: Key, kind: Writing) {
    && |txns| <= |txns'|
    && (forall t {:trigger txns'[t]} | 0 <= t < |txns| ::
          txns'[t] == txns[t] || (kind.Reverses? && txns'[t] == MarkReversed(txns[t])))
    && (forall t {:trigger txns'[t]} | |txns| <= t < |txns'| ::
          (txns'[t].key.NoKey? || (txns'[t].wallet == w && txns'[t].key == key))
          && (txns'[t].note.Settled? ==> txns'[t].key.NoKey?)
          && (kind.Claws? || !txns'[t].note.ClawedBack?))
  }

  lemma NewRowsOnward(a: seq<Txn>, b: seq<Txn>, c: seq<Txn>, w: nat, key: Key, kind: Writing)
    requires NewRows(a, b, w, key, kind) && NewRows(b, c, w, key, kind)
    ensures NewRows(a, c, w, key, kind)
  {
    forall t | 0 <= t < |a| ensures c[t] == a[t] || (kind.Reverses? && c[t] == MarkReversed(a[t])) {
      assert b[t] == a[t] || b[t] == MarkReversed(a[t]);
      assert c[t] == b[t] || c[t] == MarkReversed(b[t]);
    }
    forall t | |a| <= t < |c|
      ensures c[t].key.NoKey? || (c[t].wallet == w && c[t].key == key)
      ensures (c[t].note.Settled? ==> c[t].key.NoKey?) && (kind.Claws? || !c[t].note.ClawedBack?)
    {
      if t < |b| {
        assert b[t].key.NoKey? || (b[t].wallet == w && b[t].key == key && !b[t].note.Settled?);
        assert c[t] == b[t] || c[t] == MarkReversed(b[t]);
      }
    }
  }

  lemma RoutineRows(txns: seq<Txn>, txns': seq<Txn>, w: nat, key: Key)
    requires Routine(txns, txns')
    ensures NewRows(txns, txns', w, key, Plain)
  {
  }

  /** The row a call writes between its sweep and its settlement. */
  lemma OwnRow(a: seq<Txn>, b: seq<Txn>, row: Txn, c: seq<Txn>, w: nat, key: Key)
    requires Routine(a, b) && Routine(b + [row], c)
    requires row.key.NoKey? || (row.wallet == w && row.key == key)
    requires !row.note.ClawedBack? && !row.note.Settled?
    ensures NewRows(a, c, w, key, Plain)
  {
    RoutineRows(a, b, w, key);
    RoutineRows(b + [row], c, w, key);
    NewRowsOnward(b, b + [row], c, w, key, Plain);
    NewRowsOnward(a, b, c, w, key, Plain);
  }

  lemma CreditRows(db: Db, now: int, user: nat, n: int, source: Source, expires: Expiry, key: string,
                   refs: set<string>, settle: bool)
    ensures NewRows(db.txns, CreditOp(db, now, user, n, source, expires, key, refs, settle).db.txns,
                    LockWallet(db, user).w, KeyOf(key), Plain)
  {
    var r := CreditOp(db, now, user, n, source, expires, key, refs, settle).db;
    if r.txns != db.txns {
      var locked := LockWallet(db, user);
      var swept := Sweep(locked.db, locked.w, now);
      var granted := GrantLot(swept, locked.w, now, n, source, expires, KeyOf(key), refs);
      OwnRow(db.txns, swept.txns, granted.txns[|swept.txns|], r.txns, locked.w, KeyOf(key));
    }
  }

  lemma DebitRows(db: Db, now: int, user: nat, n: int, key: string, partial: bool, meterOnly: bool)
    ensures NewRows(db.txns, DebitOp(db, now, user, n, key, partial, meterOnly).db.txns,
                    LockWallet(db, user).w, KeyOf(key), Plain)
  {
    var r := DebitOp(db, now, user, n, key, partial, meterOnly).db;
    if r.txns != db.txns {
      var locked := LockWallet(db, user);
      var swept := Sweep(locked.db, locked.w, now);
      OwnRow(db.txns, swept.txns, r.txns[|swept.txns|], r.txns, locked.w, KeyOf(key));
    }
  }

  lemma HoldRows(db: Db, now: int, user: nat, n: int, key: string, expires: Option<int>, ttl: nat, meterOnly: bool)
    ensures NewRows(db.txns, HoldOp(db, now, user, n, key, expires, ttl, meterOnly).db.txns, 0, NoKey, Plain)
  {
  }

  lemma CaptureRows(db: Db, now: int, h: nat, actual: Option<int>)
    ensures NewRows(db.txns, CaptureOp(db, now, h, actual).db.txns, 0, NoKey, Plain)
  {
    if CaptureOp(db, now, h, actual).db != db {
      var moved, n, waived := CaptureBills(db, now, h, actual);
      var billed := Bill(moved, h, now, n, waived).txns;
      assert Routine(db.txns, moved.txns);
      OwnRow(db.txns, moved.txns, billed[|moved.txns|], billed, 0, NoKey);
    }
  }

  lemma ReleaseRows(db: Db, now: int, h: nat, expired: bool)
    ensures NewRows(db.txns, ReleaseOp(db, now, h, expired).db.txns, 0, NoKey, Plain)
  {
  }

  lemma {:induction false} SweepFromRows(db: Db, now: int, k: nat)
    requires k <= |db.wallets|
    ensures NewRows(db.txns, SweepFrom(db, now, k).txns, 0, NoKey, Plain)
    decreases |db.wallets| - k
  {
    if k < |db.wallets| {
      SweepFromRows(Sweep(db, k, now), now, k + 1);
      RoutineRows(db.txns, Sweep(db, k, now).txns, 0, NoKey);
      NewRowsOnward(db.txns, Sweep(db, k, now).txns, SweepFrom(db, now, k).txns, 0, NoKey, Plain);
    }
  }

  lemma {:induction false} ExpireHoldsRows(db: Db, now: int, k: nat)
    ensures NewRows(db.txns, ExpireHoldsFrom(db, now, k).txns, 0, NoKey, Plain)
    decreases |db.holds| - k
  {
    if k < |db.holds| {
      ReleaseRows(db, now, k, true);
      ReleaseEvolves(db, now, k, true);
      var next := if Abandoned(db.holds[k], now) then ReleaseOp(db, now, k, true).db else db;
      ExpireHoldsRows(next, now, k + 1);
      NewRowsOnward(db.txns, next.txns, ExpireHoldsFrom(db, now, k).txns, 0, NoKey, Plain);
    }
  }

  lemma {:induction false} ClawBackFromRows(db: Db, now: int, k: nat, limit: nat, refs: set<string>,
                                            refunded: Option<int>, total: Option<int>, reason: ClawReason,
                                            objectId: string)
    requires k <= limit <= |db.txns|
    ensures NewRows(db.txns, ClawBackFrom(db, now, k, limit, refs, refunded, total, reason, objectId).txns, 0, NoKey, Claws)
    decreases limit - k
  {
    if k < limit {
      if !Names(db.txns[k], refs) {
        ClawBackFromRows(db, now, k + 1, limit, refs, refunded, total, reason, objectId);
      } else {
        var next := ClawBackRemaining(db, now, k, refunded, total, reason, objectId);
        var more := RemainingIs(db, now, k, refunded, total, reason, objectId);
        assert NewRows(db.txns, next.txns, 0, NoKey, Claws);
        ClawBackFromRows(next, now, k + 1, limit, refs, refunded, total, reason, objectId);
        NewRowsOnward(db.txns, next.txns, ClawBackFrom(db, now, k, limit, refs, refunded, total, reason, objectId).txns,
                      0, NoKey, Claws);
      }
    }
  }

  lemma RestoreRows(db: Db, cancelled: Db, now: int, t: nat, w: nat, g: nat, n: nat)
    requires t < |db.txns| && w < |cancelled.wallets| && cancelled.txns == db.txns[t := MarkReversed(db.txns[t])]
    ensures NewRows(db.txns, Restore(cancelled, now, t, w, g, n).txns, 0, NoKey, Reverses)
  {
    var added := cancelled.(lots := cancelled.lots + [RestoredLot(cancelled, w, g, n)]);
    var swept := Sweep(added, w, now);
    assert Routine(cancelled.txns, swept.txns);
    assert NewRows(db.txns, swept.txns, 0, NoKey, Reverses);
  }

  lemma ReverseRows(db: Db, now: int, t: nat)
    requires t < |db.txns|
    ensures NewRows(db.txns, ReverseClawback(db, now, t).txns, 0, NoKey, Reverses)
  {
    var row := db.txns[t];
    if row.note.ClawedBack? && !row.note.claw.reversed && row.wallet < |db.wallets| {
      var cancelled := CancelClaw(db, now, t);
      var given := GivenBack(db, row.note.claw);
      if given > 0 {
        var restored := Restore(cancelled, now, t, row.wallet, row.note.claw.grant, given);
        RestoreRows(db, cancelled, now, t, row.wallet, row.note.claw.grant, given);
        NewRowsOnward(db.txns, restored.txns, SettleDebts(restored, row.wallet, now).txns, 0, NoKey, Reverses);
      }
    }
  }

  lemma {:induction false} ReverseFromRows(db: Db, now: int, k: nat, limit: nat, objectId: string)
    requires k <= limit <= |db.txns|
    ensures NewRows(db.txns, ReverseFrom(db, now, k, limit, objectId).txns, 0, NoKey, Reverses)
    decreases limit - k
  {
    if k < limit {
      if !Disputed(db.txns[k], objectId) {
        ReverseFromRows(db, now, k + 1, limit, objectId);
      } else {
        ReverseRows(db, now, k);
        ReverseFromRows(ReverseClawback(db, now, k), now, k + 1, limit, objectId);
        NewRowsOnward(db.txns, ReverseClawback(db, now, k).txns, ReverseFrom(db, now, k, limit, objectId).txns,
                      0, NoKey, Reverses);
      }
    }
  }

  // ----- Retry keys -----

  /** Row t is the only row of wallet w under the caller's key. */
  ghost predicate OnlyRow(txns: seq<Txn>, w: nat, key: string, t: nat) {
    && t < |txns| && txns[t].wallet == w && txns[t].key == Caller(key)
    && forall i {:trigger txns[i]} | 0 <= i < |txns| && txns[i].wallet == w && txns[i].key == Caller(key) :: i == t
  }

  lemma NewRowsKeepKey(txns: seq<Txn>, txns': seq<Txn>, w: nat, key: string, t: nat, w': nat, key': Key, kind: Writing)
    requires OnlyRow(txns, w, key, t) && NewRows(txns, txns', w', key', kind)
    requires w' == w && key' == Caller(key) ==> |txns'| == |txns|
    ensures OnlyRow(txns', w, key, t)
  {
  }

  /** Which wallet a user's calls reach changes only when a merge names the user. */
  predicate Bystander(c: Command, user: nat) {
    c.MergeCommand? ==> c.fromUser != user && c.intoUser != user
  }

  lemma {:induction false} ForfeitRows(db: Db, m: nat, now: int, sources: set<Source>, k: nat)
    requires k <= |db.lots|
    ensures NewRows(db.txns, ForfeitFrom(db, m, now, sources, k).txns, 0, NoKey, Plain)
    decreases |db.lots| - k
  {
    if k < |db.lots| {
      if !Forfeits(db.lots, m, sources, db.lots[k]) {
        ForfeitRows(db, m, now, sources, k + 1);
      } else {
        var b := Credits(Draw(db.lots, k, db.lots[k].remaining), m, After(now));
        ForfeitRows(WriteOff(db, k, b, Forfeited), m, now, sources, k + 1);
        NewRowsOnward(db.txns, WriteOff(db, k, b, Forfeited).txns, ForfeitFrom(db, m, now, sources, k).txns,
                      0, NoKey, Plain);
      }
    }
  }

  /** A merge of two other wallets adds no row to w under a caller's key. */
  lemma FoldKeepsKey(db: Db, now: int, m: nat, s: nat, fromUser: nat, intoUser: nat, sources: set<Source>,
                     w: nat, key: string, t: nat)
    requires m < |db.wallets| && s < |db.wallets| && w != m && w != s && OnlyRow(db.txns, w, key, t)
    requires Fold(db, now, m, s, MergeOf(fromUser, intoUser), sources).Ok?
    ensures OnlyRow(Fold(db, now, m, s, MergeOf(fromUser, intoUser), sources).value.txns, w, key, t)
  {
    var swept := Sweep(db, m, now);
    var kept := ForfeitFrom(swept, m, now, sources, 0);
    ForfeitRows(swept, m, now, sources, 0);
    NewRowsKeepKey(db.txns, swept.txns, w, key, t, 0, NoKey, Plain);
    NewRowsKeepKey(swept.txns, kept.txns, w, key, t, 0, NoKey, Plain);
    var moved := MoveTxns(kept.txns, m, s);
    forall i | 0 <= i < |moved| && moved[i].wallet == w && moved[i].key == Caller(key) ensures i == t {
      assert kept.txns[i].wallet == w;
    }
    assert OnlyRow(moved, w, key, t);
  }

  lemma MergeKeepsKey(db: Db, now: int, fromUser: nat, intoUser: nat, sources: set<Source>, user: nat, w: nat,
                      key: string, t: nat)
    requires Sound(db) && fromUser != user && intoUser != user
    requires WalletOf(db.wallets, user) == Some(w) && OnlyRow(db.txns, w, key, t)
    ensures OnlyRow(MergeOp(db, now, fromUser, intoUser, sources).db.txns, w, key, t)
  {
    var r := MergeOp(db, now, fromUser, intoUser, sources).db;
    if r != db {
      var m := WalletOf(db.wallets, fromUser).value;
      var locked := LockWallet(db, intoUser);
      FoldKeepsKey(locked.db, now, m, locked.w, fromUser, intoUser, sources, w, key, t);
      var folded := Fold(locked.db, now, m, locked.w, MergeOf(fromUser, intoUser), sources).value;
      NewRowsKeepKey(folded.txns, r.txns, w, key, t, 0, NoKey, Plain);
    }
  }

  /** The wallet and key a command writes its own row under. */
  function OwnWallet(db: Db, c: Command): nat {
    if c.CreditCommand? || c.DebitCommand? then LockWallet(db, c.user).w
    else if c.BundleCommand? then LockWallet(db, c.entitlement.user).w else 0
  }

  function OwnKey(c: Command): Key {
    if c.CreditCommand? || c.DebitCommand? then KeyOf(c.key)
    else if c.BundleCommand? then Caller(BundleKey(c.entitlement.plan, c.entitlement.period)) else NoKey
  }

  function WritingOf(c: Command): Writing {
    if c.ClawbackCommand? then Claws else if c.CloseDisputeCommand? then Reverses else Plain
  }

  lemma BundleRows(db: Db, now: int, e: Entitlement)
    ensures NewRows(db.txns, BundleOp(db, now, e).db.txns, LockWallet(db, e.user).w, Caller(BundleKey(e.plan, e.period)),
                    Plain)
  {
    if Grantable(e, now) {
      BundleCreditRows(db, now, e, BundleKey(e.plan, e.period));
    }
  }

  lemma BundleCreditRows(db: Db, now: int, e: Entitlement, key: string)
    requires Grantable(e, now) && key != ""
    ensures var locked := LockWallet(db, e.user);
      NewRows(db.txns, BundleCredit(WithClaim(locked.db, locked.w, e), now, e, key).db.txns, locked.w, Caller(key), Plain)
  {
    var locked := LockWallet(db, e.user);
    var claimed := WithClaim(locked.db, locked.w, e);
    LockedAgain(db, e.user, claimed.claims);
    CreditRows(claimed, now, e.user, e.credits, Subscription, At(e.expires.value), key, {}, true);
  }

  /** Locking a wallet that exists finds it. */
  lemma LockedAgain(db: Db, user: nat, claims: set<Claim>)
    ensures var locked := LockWallet(db, user);
      LockWallet(locked.db.(claims := claims), user) == Locked(locked.db.(claims := claims), locked.w)
  {
    if WalletOf(db.wallets, user).None? {
      assert LockWallet(db, user).db.wallets[..|db.wallets|] == db.wallets;
    }
  }

  /** The rows any command but a merge may add. */
  lemma ApplyRows(db: Db, now: int, c: Command)
    requires !c.MergeCommand?
    ensures NewRows(db.txns, Apply(db, now, c).txns, OwnWallet(db, c), OwnKey(c), WritingOf(c))
  {
    match c
    case CreditCommand(u, n, source, expires, k, refs, settle) =>
      CreditRows(db, now, u, n, source, expires, k, refs, settle);
    case DebitCommand(u, n, k, partial, meterOnly) => DebitRows(db, now, u, n, k, partial, meterOnly);
    case HoldCommand(u, n, k, deadline, ttl, meterOnly) => HoldRows(db, now, u, n, k, deadline, ttl, meterOnly);
    case CaptureCommand(h, actual) => CaptureRows(db, now, h, actual);
    case ReleaseCommand(h, expired) => ReleaseRows(db, now, h, expired);
    case ClawbackCommand(event, refs, refunded, total, reason, objectId) =>
      var claimed := db.(claims := db.claims + {ClawbackEvent(event)});
      ClawBackFromRows(claimed, now, 0, |db.txns|, refs, refunded, total, reason, objectId);
    case CloseDisputeCommand(event, objectId, won) =>
      var claimed := db.(claims := db.claims + {ClawbackEvent(event)});
      ReverseFromRows(claimed, now, 0, |db.txns|, objectId);
    case BundleCommand(e) => BundleRows(db, now, e);
    case ExpireLotsCommand => SweepFromRows(db, now, 0);
    case ExpireHoldsCommand => ExpireHoldsRows(db, now, 0);
  }

  /** Commands that do not merge the user away keep the key's one row the key's one row. */
  lemma ApplyKeepsKey(db: Db, now: int, c: Command, user: nat, w: nat, key: string, t: nat)
    requires Sound(db) && Bystander(c, user) && key != ""
    requires WalletOf(db.wallets, user) == Some(w) && OnlyRow(db.txns, w, key, t)
    ensures OnlyRow(Apply(db, now, c).txns, w, key, t)
  {
    if c.MergeCommand? {
      MergeKeepsKey(db, now, c.fromUser, c.intoUser, c.sources, user, w, key, t);
    } else {
      ApplyRows(db, now, c);
      LockedKeyRow(db, user, w, key, t);
      if c.CreditCommand? {
        CreditReplays(db, now, c.user, c.credits, c.source, c.expires, c.key, c.refs, c.settle, w, key);
      } else if c.DebitCommand? {
        DebitReplays(db, now, c.user, c.credits, c.key, c.partial, c.meterOnly, w, key);
      } else if c.BundleCommand? {
        BundleReplays(db, now, c.entitlement, w, key);
      }
      NewRowsKeepKey(db.txns, Apply(db, now, c).txns, w, key, t, OwnWallet(db, c), OwnKey(c), WritingOf(c));
    }
  }

  /** The key's newest row stays the newest when a command adds none under it. */
  lemma {:induction false} NewRowsKeepNewest(txns: seq<Txn>, txns': seq<Txn>, w: nat, key: string, w': nat, key': Key, kind: Writing)
    requires KeyRow(txns, w, Caller(key)).Some? && NewRows(txns, txns', w', key', kind)
    requires w' == w && key' == Caller(key) ==> |txns'| == |txns|
    ensures KeyRow(txns', w, Caller(key)) == KeyRow(txns, w, Caller(key))
  {
    var k := KeyRow(txns, w, Caller(key)).value;
    assert txns'[k].wallet == w && txns'[k].key == Caller(key);
    forall i | k < i < |txns'| ensures !(txns'[i].wallet == w && txns'[i].key == Caller(key)) {
      if i < |txns| { assert txns'[i].wallet == txns[i].wallet && txns'[i].key == txns[i].key; }
    }
  }

  /** Commands other than merges keep the newest row under a caller's key of a user's wallet. */
  lemma ApplyKeepsNewest(db: Db, now: int, c: Command, user: nat, w: nat, key: string)
    requires !c.MergeCommand? && key != "" && KeyRow(db.txns, w, Caller(key)).Some?
    ensures KeyRow(Apply(db, now, c).txns, w, Caller(key)) == KeyRow(db.txns, w, Caller(key))
  {
    ApplyRows(db, now, c);
    if c.CreditCommand? {
      CreditReplays(db, now, c.user, c.credits, c.source, c.expires, c.key, c.refs, c.settle, w, key);
    } else if c.DebitCommand? {
      DebitReplays(db, now, c.user, c.credits, c.key, c.partial, c.meterOnly, w, key);
    } else if c.BundleCommand? {
      BundleReplays(db, now, c.entitlement, w, key);
    }
    NewRowsKeepNewest(db.txns, Apply(db, now, c).txns, w, key, OwnWallet(db, c), OwnKey(c), WritingOf(c));
  }

  lemma LockedKeyRow(db: Db, user: nat, w: nat, key: string, t: nat)
    requires OnlyRow(db.txns, w, key, t)
    ensures KeyRow(db.txns, w, Caller(key)) == Some(t)
    ensures LockWallet(db, user).w == w ==> KeyRow(LockWallet(db, user).db.txns, w, Caller(key)) == Some(t)
  {
  }

  lemma CreditReplays(db: Db, now: int, u: nat, n: int, source: Source, expires: Expiry, k: string,
                      refs: set<string>, settle: bool, w: nat, key: string)
    requires KeyRow(db.txns, w, Caller(key)).Some? && key != ""
    ensures LockWallet(db, u).w == w && k == key ==>
              CreditOp(db, now, u, n, source, expires, k, refs, settle).db.txns == db.txns
  {
  }

  lemma DebitReplays(db: Db, now: int, u: nat, n: int, k: string, partial: bool, meterOnly: bool, w: nat,
                     key: string)
    requires KeyRow(db.txns, w, Caller(key)).Some? && key != ""
    ensures LockWallet(db, u).w == w && k == key ==> DebitOp(db, now, u, n, k, partial, meterOnly).db.txns == db.txns
  {
  }

  lemma BundleReplays(db: Db, now: int, e: Entitlement, w: nat, key: string)
    requires KeyRow(db.txns, w, Caller(key)).Some? && key != ""
    ensures LockWallet(db, e.user).w == w && BundleKey(e.plan, e.period) == key ==> BundleOp(db, now, e).db.txns == db.txns
  {
    if Grantable(e, now) && LockWallet(db, e.user).w == w && BundleKey(e.plan, e.period) == key {
      BundleCreditReplays(db, now, e, w, key);
    }
  }

  lemma BundleCreditReplays(db: Db, now: int, e: Entitlement, w: nat, key: string)
    requires KeyRow(db.txns, w, Caller(key)).Some? && key != "" && Grantable(e, now) && LockWallet(db, e.user).w == w
    ensures BundleCredit(WithClaim(LockWallet(db, e.user).db, w, e), now, e, key).db.txns == db.txns
  {
    var claimed := WithClaim(LockWallet(db, e.user).db, w, e);
    LockedAgain(db, e.user, claimed.claims);
    CreditReplays(claimed, now, e.user, e.credits, Subscription, At(e.expires.value), key, {}, true, w, key);
  }
}
