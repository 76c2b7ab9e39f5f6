/** A merge keeps the invariants, and so does every run of every operation. */
module MergeRuns {
  import opened Sums
  import opened Models
  import opened Lots
  import opened Operations
  import opened Clawbacks
  import opened Merges
  import opened Bundles
  import opened Books
  import opened MergeBooks
  import opened Soundness
  import opened MoreSoundness
  import opened HoldLaws
  import opened Balances
  import opened Runs

  // ----- Merging -----

  /** The state while rows are on their way to wallet s: only its cache is in flux. */
  ghost predicate Arriving(db: Db, s: nat, now: int) {
    Sound(db) && HoldBooks(db.holds, db.txns) && Balanced(db) && OthersCached(db, s, now)
  }

  lemma {:induction false} ForfeitCredits(db: Db, w: nat, now: int, sources: set<Source>, k: nat, v: nat, c: Cut)
    requires k <= |db.lots| && v != w
    ensures Credits(ForfeitFrom(db, w, now, sources, k).lots, v, c) == Credits(db.lots, v, c)
    decreases |db.lots| - k
  {
    if k < |db.lots| {
      if !Forfeits(db.lots, w, sources, db.lots[k]) {
        ForfeitCredits(db, w, now, sources, k + 1, v, c);
      } else {
        var b := Credits(Draw(db.lots, k, db.lots[k].remaining), w, After(now));
        DrawCredits(db.lots, k, db.lots[k].remaining, v, c);
        ForfeitCredits(WriteOff(db, k, b, Forfeited), w, now, sources, k + 1, v, c);
      }
    }
  }

  lemma ForfeitArriving(db: Db, m: nat, now: int, sources: set<Source>)
    requires Arriving(db, m, now)
    ensures Arriving(ForfeitFrom(db, m, now, sources, 0), m, now)
  {
    var r := ForfeitFrom(db, m, now, sources, 0);
    ForfeitSound(db, m, now, sources, 0);
    ForfeitCharges(db, m, now, sources, 0);
    forall v | 0 <= v < |r.wallets| && v != m ensures CachedAt(r, v, now) {
      assert CachedAt(db, v, now);
      ForfeitCredits(db, m, now, sources, 0, v, After(now));
      ForfeitCredits(db, m, now, sources, 0, v, Everything);
    }
    forall v: nat ensures SameGaps(db, r, v) { ForfeitGaps(db, m, now, sources, 0, v); }
    StaysBalanced(db, r);
  }

  lemma RenamedArriving(db: Db, holds: seq<Hold>, m: nat, now: int)
    requires Arriving(db, m, now) && Renamed(db.holds, holds, m) && UniqueKeys(holds)
    ensures Arriving(db.(holds := holds), m, now)
  {
    var r := db.(holds := holds);
    RenamedSound(db, holds, m);
    forall h | 0 <= h < |holds| ensures HoldOk(holds[h], db.txns, h) { assert HoldOk(db.holds[h], db.txns, h); }
    forall v | 0 <= v < |r.wallets| && v != m ensures CachedAt(r, v, now) { assert CachedAt(db, v, now); }
    forall v: nat ensures SameGaps(db, r, v) {
      SumSame(holds, ReservedOf([], v, Everything), db.holds, ReservedOf([], v, Everything));
    }
    StaysBalanced(db, r);
  }

  lemma MoveRowsCached(db: Db, m: nat, s: nat, now: int)
    requires OthersCached(db, m, now) && m != s && m < |db.wallets|
    ensures OthersCached(MoveRows(db, m, s), s, now)
  {
    var r := MoveRows(db, m, s);
    forall v | 0 <= v < |r.wallets| && v != s ensures CachedAt(r, v, now) {
      MoveCredits(db.lots, m, s, v, After(now));
      MoveCredits(db.lots, m, s, v, Everything);
      if v != m { assert CachedAt(db, v, now); }
    }
  }

  lemma MoveRowsBalanced(db: Db, m: nat, s: nat)
    requires Balanced(db) && m != s && m < |db.wallets|
    ensures Balanced(MoveRows(db, m, s))
  {
    forall v: nat ensures LedgerGap(MoveRows(db, m, s), v) == 0 && PositionGap(MoveRows(db, m, s), v) == 0 {
      MoveGaps(db, m, s, v);
    }
  }

  lemma MoveRowsArriving(db: Db, m: nat, s: nat, now: int)
    requires Arriving(db, m, now) && m != s && m < |db.wallets| && Opens(db.wallets, s)
    requires KeysOf(db.holds, m) * KeysOf(db.holds, s) == {}
    ensures Arriving(MoveRows(db, m, s), s, now)
  {
    var r := MoveRows(db, m, s);
    MoveRowsSound(db, m, s);
    assert Renamed(db.holds, db.holds, m);
    MoveHoldBooks(db, db.holds, m, s);
    MoveRowsCached(db, m, s, now);
    MoveRowsBalanced(db, m, s);
  }

  lemma WelcomeInv(db: Db, m: nat, s: nat, now: int, moved: nat, key: Key)
    requires Arriving(db, s, now) && Opens(db.wallets, s)
    ensures Inv(Welcome(db, m, s, now, moved, key), now) && Fresh(Welcome(db, m, s, now, moved, key), s, now)
  {
    var r := Welcome(db, m, s, now, moved, key);
    WelcomeSound(db, m, s, now, moved, key);
    ChargeFree(db.txns, r.txns);
    SweepOnly(db, s, now);
    CreditsLater(r.lots, s, now, now);
    OthersStayCached(db, Sweep(db, s, now), s, now);
    forall v | 0 <= v < |r.wallets| ensures CachedAt(r, v, now) {
      if v != s { assert CachedAt(Sweep(db, s, now), v, now); }
    }
    forall v: nat ensures SameGaps(db, r, v) { WelcomeGaps(db, m, s, now, moved, key, v); }
    StaysBalanced(db, r);
  }

  lemma FoldInv(db: Db, now: int, m: nat, s: nat, key: Key, sources: set<Source>)
    requires Inv(db, now) && m != s && Opens(db.wallets, m) && Opens(db.wallets, s)
    requires Fold(db, now, m, s, key, sources).Ok?
    ensures Inv(Fold(db, now, m, s, key, sources).value, now)
    ensures Fresh(Fold(db, now, m, s, key, sources).value, s, now)
    ensures Opens(Fold(db, now, m, s, key, sources).value.wallets, s)
  {
    FoldSound(db, now, m, s, key, sources);
    var swept := Sweep(db, m, now);
    SweepInv(db, m, now, now);
    SweepKeepsOpen(db, m, now, s);
    var kept := ForfeitFrom(swept, m, now, sources, 0);
    ForfeitArriving(swept, m, now, sources);
    var taken := KeysOf(kept.holds, s);
    var holds := RenameClashes(kept.holds, m, taken, |kept.holds|).value;
    RenameKeepsUnique(kept.holds, m, taken, |kept.holds|);
    RenamedArriving(kept, holds, m, now);
    RenamedKeepsOthers(kept.holds, holds, m, s);
    MoveRowsArriving(kept.(holds := holds), m, s, now);
    WelcomeInv(MoveRows(kept.(holds := holds), m, s), m, s, now, Credits(kept.lots, m, After(now)), key);
  }

  lemma MergeInv(db: Db, clock: int, now: int, fromUser: nat, intoUser: nat, sources: set<Source>)
    requires Inv(db, clock) && clock <= now
    ensures Inv(MergeOp(db, now, fromUser, intoUser, sources).db, now)
  {
    CachedLater(db, clock, now);
    var r := MergeOp(db, now, fromUser, intoUser, sources);
    if r.db != db {
      var m := WalletOf(db.wallets, fromUser).value;
      var locked := LockWallet(db, intoUser);
      LockInv(db, intoUser, now);
      assert Users(db.wallets);
      FoldInv(locked.db, now, m, locked.w, MergeOf(fromUser, intoUser), sources);
      SettleInv(Fold(locked.db, now, m, locked.w, MergeOf(fromUser, intoUser), sources).value, locked.w, now);
    }
  }

  // ----- Sweeps -----

  lemma {:induction false} SweepFromInv(db: Db, clock: int, now: int, k: nat)
    requires Inv(db, clock) && clock <= now && k <= |db.wallets|
    ensures Inv(SweepFrom(db, now, k), now)
    decreases |db.wallets| - k
  {
    if k == |db.wallets| {
      CachedLater(db, clock, now);
    } else {
      SweepInv(db, k, clock, now);
      SweepFromInv(Sweep(db, k, now), now, now, k + 1);
    }
  }

  lemma {:induction false} ExpireHoldsInv(db: Db, now: int, k: nat)
    requires Inv(db, now)
    ensures Inv(ExpireHoldsFrom(db, now, k), now)
    decreases |db.holds| - k
  {
    if k < |db.holds| {
      ReleaseInv(db, now, now, k, true);
      var next := if Abandoned(db.holds[k], now) then ReleaseOp(db, now, k, true).db else db;
      if |next.holds| == |db.holds| {
        ExpireHoldsInv(next, now, k + 1);
      }
    }
  }

  // ----- Runs -----

  datatype Command =
    | CreditCommand(user: nat, credits: int, source: Source, expires: Expiry, key: string, refs: set<string>,
                    settle: bool)
    | DebitCommand(user: nat, credits: int, key: string, partial: bool, meterOnly: bool)
    | HoldCommand(user: nat, credits: int, key: string, deadline: Option<int>, ttl: nat, meterOnly: bool)
    | CaptureCommand(hold: nat, actual: Option<int>)
    | ReleaseCommand(hold: nat, expired: bool)
    | ClawbackCommand(event: string, refs: set<string>, refunded: Option<int>, total: Option<int>,
                      reason: ClawReason, objectId: string)
    | CloseDisputeCommand(event: string, objectId: string, won: bool)
    | MergeCommand(fromUser: nat, intoUser: nat, sources: set<Source>)
    | BundleCommand(entitlement: Entitlement)
    | ExpireLotsCommand
    | ExpireHoldsCommand

  datatype Timed = Timed(at: int, command: Command)

  function Apply(db: Db, now: int, c: Command): Db {
    match c
    case CreditCommand(user, n, source, expires, key, refs, settle) =>
      CreditOp(db, now, user, n, source, expires, key, refs, settle).db
    case DebitCommand(user, n, key, partial, meterOnly) => DebitOp(db, now, user, n, key, partial, meterOnly).db
    case HoldCommand(user, n, key, deadline, ttl, meterOnly) =>
      HoldOp(db, now, user, n, key, deadline, ttl, meterOnly).db
    case CaptureCommand(h, actual) => CaptureOp(db, now, h, actual).db
    case ReleaseCommand(h, expired) => ReleaseOp(db, now, h, expired).db
    case ClawbackCommand(event, refs, refunded, total, reason, objectId) =>
      HandleClawback(db, now, event, refs, refunded, total, reason, objectId)
    case CloseDisputeCommand(event, objectId, won) => CloseDispute(db, now, event, objectId, won)
    case MergeCommand(fromUser, intoUser, sources) => MergeOp(db, now, fromUser, intoUser, sources).db
    case BundleCommand(e) => BundleOp(db, now, e).db
    case ExpireLotsCommand => ExpireCreditLots(db, now)
    case ExpireHoldsCommand => ExpireHolds(db, now)
  }

  lemma BundleInv(db: Db, clock: int, now: int, e: Entitlement)
    requires Inv(db, clock) && clock <= now
    ensures Inv(BundleOp(db, now, e).db, now)
  {
    CachedLater(db, clock, now);
    if Grantable(e, now) {
      var locked := LockWallet(db, e.user);
      LockInv(db, e.user, now);
      var claimed := WithClaim(locked.db, locked.w, e);
      ClaimInv(locked.db, claimed.claims, now);
      CreditInv(claimed, now, now, e.user, e.credits, Subscription, At(e.expires.value), BundleKey(e.plan, e.period), {},
                true);
    }
  }

  lemma ApplyInv(db: Db, clock: int, now: int, c: Command)
    requires Inv(db, clock) && clock <= now
    ensures Inv(Apply(db, now, c), now)
  {
    match c
    case CreditCommand(user, n, source, expires, key, refs, settle) =>
      CreditInv(db, clock, now, user, n, source, expires, key, refs, settle);
    case DebitCommand(user, n, key, partial, meterOnly) =>
      DebitInv(db, clock, now, user, n, key, partial, meterOnly);
    case HoldCommand(user, n, key, deadline, ttl, meterOnly) =>
      HoldInv(db, clock, now, user, n, key, deadline, ttl, meterOnly);
    case CaptureCommand(h, actual) => CaptureInv(db, clock, now, h, actual);
    case ReleaseCommand(h, expired) => ReleaseInv(db, clock, now, h, expired);
    case ClawbackCommand(event, refs, refunded, total, reason, objectId) =>
      HandleClawbackInv(db, clock, now, event, refs, refunded, total, reason, objectId);
    case CloseDisputeCommand(event, objectId, won) => CloseDisputeInv(db, clock, now, event, objectId, won);
    case MergeCommand(fromUser, intoUser, sources) => MergeInv(db, clock, now, fromUser, intoUser, sources);
    case BundleCommand(e) => BundleInv(db, clock, now, e);
    case ExpireLotsCommand => SweepFromInv(db, clock, now, 0);
    case ExpireHoldsCommand => CachedLater(db, clock, now); ExpireHoldsInv(db, now, 0);
  }

  /** A run from an empty database, one atomic command after another, never back in time. */
  ghost predicate InTime(run: seq<Timed>) {
    forall i, j | 0 <= i < j < |run| :: run[i].at <= run[j].at
  }

  function Run(run: seq<Timed>): Db {
    if run == [] then EMPTY_DB else
      var last := run[|run| - 1];
      Apply(Run(run[..|run| - 1]), last.at, last.command)
  }

  lemma {:induction false} RunInv(run: seq<Timed>, now: int)
    requires InTime(run) && forall i | 0 <= i < |run| :: run[i].at <= now
    ensures Inv(Run(run), now)
  {
    if run == [] {
      forall v: nat ensures LedgerGap(EMPTY_DB, v) == 0 && PositionGap(EMPTY_DB, v) == 0 { }
    } else {
      var last := run[|run| - 1];
      RunInv(run[..|run| - 1], last.at);
      ApplyInv(Run(run[..|run| - 1]), last.at, last.at, last.command);
      CachedLater(Run(run), last.at, now);
    }
  }
}
