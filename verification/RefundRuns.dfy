/** Refund events among everything else a wallet sees: what was requested of a grant is the largest target, over runs. */
module RefundRuns {
  import opened Sums
  import opened Models
  import opened Lots
  import opened Operations
  import opened Clawbacks
  import opened Merges
  import opened Bundles
  import opened Balances
  import opened Runs
  import opened MergeRuns
  import opened Evolution
  import opened ClawbackLaws
  import opened Rows
  import opened RunLaws
  import opened Charging

  // ----- Only money-back events claim events -----

  /** The same money-back events are claimed. */
  ghost predicate SameEvents(claims: set<Claim>, claims': set<Claim>) {
    forall c: Claim {:trigger c in claims'} | c.ClawbackEvent? && c in claims' :: c in claims
  }

  lemma {:induction false} SettleFromClaims(db: Db, w: nat, now: int, k: nat)
    requires w < |db.wallets| && k <= |db.debts|
    ensures SettleFrom(db, w, now, k).claims == db.claims
    decreases |db.debts| - k
  {
    if k < |db.debts| {
      if !OpenDebt(db.debts[k], w) {
        SettleFromClaims(db, w, now, k + 1);
      } else if Credits(db.lots, w, After(now)) > 0 {
        SettleFromClaims(SettleOne(db, w, now, k), w, now, k + 1);
      }
    }
  }

  lemma CreditClaims(db: Db, now: int, user: nat, n: int, source: Source, expires: Expiry, key: string,
                     refs: set<string>, settle: bool)
    ensures CreditOp(db, now, user, n, source, expires, key, refs, settle).db.claims == db.claims
  {
    var locked := LockWallet(db, user);
    var swept := Sweep(locked.db, locked.w, now);
    SweepClaims(locked.db, locked.w, now);
    if n > 0 {
      SettleFromClaims(GrantLot(swept, locked.w, now, n, source, expires, KeyOf(key), refs), locked.w, now, 0);
    }
  }

  lemma DebitClaims(db: Db, now: int, user: nat, n: int, key: string, partial: bool, meterOnly: bool)
    ensures DebitOp(db, now, user, n, key, partial, meterOnly).db.claims == db.claims
  {
    var locked := LockWallet(db, user);
    SweepClaims(locked.db, locked.w, now);
  }

  lemma HoldClaims(db: Db, now: int, user: nat, n: int, key: string, deadline: Option<int>, ttl: nat, meterOnly: bool)
    ensures HoldOp(db, now, user, n, key, deadline, ttl, meterOnly).db.claims == db.claims
  {
    var locked := LockWallet(db, user);
    SweepClaims(locked.db, locked.w, now);
  }

  lemma CaptureClaims(db: Db, now: int, h: nat, actual: Option<int>)
    ensures CaptureOp(db, now, h, actual).db.claims == db.claims
  {
    if CaptureOp(db, now, h, actual).db != db {
      var moved, n, waived := CaptureBills(db, now, h, actual);
      if waived.None? {
        var swept := Sweep(db, db.holds[h].wallet, now);
        SweepClaims(db, db.holds[h].wallet, now);
        AdjustClaims(swept, h, now, n);
      }
      assert Bill(moved, h, now, n, waived).claims == moved.claims;
    }
  }

  lemma AdjustClaims(db: Db, h: nat, now: int, n: nat)
    requires h < |db.holds| && db.holds[h].wallet < |db.wallets|
    ensures Adjust(db, h, now, n).claims == db.claims
  {
    if n < db.holds[h].credits {
      SweepClaims(GiveBack(db, h, db.holds[h].credits - n), db.holds[h].wallet, now);
    }
  }

  lemma ReleaseClaims(db: Db, now: int, h: nat, expired: bool)
    ensures ReleaseOp(db, now, h, expired).db.claims == db.claims
  {
    if h < |db.holds| && db.holds[h].wallet < |db.wallets| {
      var w := db.holds[h].wallet;
      var swept := Sweep(db, w, now);
      SweepClaims(db, w, now);
      SweepClaims(GiveBack(swept, h, Total(swept.holds[h].allocs)), w, now);
    }
  }

  lemma {:induction false} ForfeitClaims(db: Db, w: nat, now: int, sources: set<Source>, k: nat)
    requires k <= |db.lots|
    ensures ForfeitFrom(db, w, now, sources, k).claims == db.claims
    decreases |db.lots| - k
  {
    if k < |db.lots| {
      if !Forfeits(db.lots, w, sources, db.lots[k]) {
        ForfeitClaims(db, w, now, sources, k + 1);
      } else {
        var b := Credits(Draw(db.lots, k, db.lots[k].remaining), w, After(now));
        ForfeitClaims(WriteOff(db, k, b, Forfeited), w, now, sources, k + 1);
      }
    }
  }

  lemma FoldClaims(db: Db, now: int, m: nat, s: nat, key: Key, sources: set<Source>)
    requires m < |db.wallets| && s < |db.wallets| && Fold(db, now, m, s, key, sources).Ok?
    ensures Fold(db, now, m, s, key, sources).value.claims == db.claims
  {
    var swept := Sweep(db, m, now);
    var kept := ForfeitFrom(swept, m, now, sources, 0);
    SweepClaims(db, m, now);
    ForfeitClaims(swept, m, now, sources, 0);
    var holds := RenameClashes(kept.holds, m, KeysOf(kept.holds, s), |kept.holds|).value;
    SweepClaims(MoveRows(kept.(holds := holds), m, s), s, now);
  }

  lemma MergeClaims(db: Db, now: int, fromUser: nat, intoUser: nat, sources: set<Source>)
    ensures MergeOp(db, now, fromUser, intoUser, sources).db.claims == db.claims
  {
    if MergeOp(db, now, fromUser, intoUser, sources).out == Ok(true) {
      var m := WalletOf(db.wallets, fromUser).value;
      var locked := LockWallet(db, intoUser);
      FoldClaims(locked.db, now, m, locked.w, MergeOf(fromUser, intoUser), sources);
      SettleFromClaims(Fold(locked.db, now, m, locked.w, MergeOf(fromUser, intoUser), sources).value, locked.w, now, 0);
    }
  }

  lemma {:induction false} SweepFromClaims(db: Db, now: int, k: nat)
    requires k <= |db.wallets|
    ensures SweepFrom(db, now, k).claims == db.claims
    decreases |db.wallets| - k
  {
    if k < |db.wallets| {
      SweepClaims(db, k, now);
      SweepFromClaims(Sweep(db, k, now), now, k + 1);
    }
  }

  lemma {:induction false} ExpireHoldsClaims(db: Db, now: int, k: nat)
    ensures ExpireHoldsFrom(db, now, k).claims == db.claims
    decreases |db.holds| - k
  {
    if k < |db.holds| {
      ReleaseClaims(db, now, k, true);
      var next := if Abandoned(db.holds[k], now) then ReleaseOp(db, now, k, true).db else db;
      if |next.holds| == |db.holds| { ExpireHoldsClaims(next, now, k + 1); }
    }
  }

  lemma BundleCreditClaims(db: Db, now: int, e: Entitlement, key: string)
    requires Grantable(e, now)
    ensures BundleCredit(db, now, e, key).db.claims == db.claims
  {
    CreditClaims(db, now, e.user, e.credits, Subscription, At(e.expires.value), key, {}, true);
  }

  lemma BundleClaims(db: Db, now: int, e: Entitlement)
    ensures SameEvents(db.claims, BundleOp(db, now, e).db.claims)
  {
    if Grantable(e, now) {
      var locked := LockWallet(db, e.user);
      var claimed, key := WithClaim(locked.db, locked.w, e), BundleKey(e.plan, e.period);
      BundleCreditClaims(claimed, now, e, key);
      assert BundleOp(db, now, e).db in {locked.db, BundleCredit(claimed, now, e, key).db};
    }
  }

  lemma OtherClaims(db: Db, now: int, c: Command)
    requires !c.ClawbackCommand? && !c.CloseDisputeCommand?
    ensures SameEvents(db.claims, Apply(db, now, c).claims)
  {
    match c
    case CreditCommand(u, n, source, expires, k, refs, settle) =>
      CreditClaims(db, now, u, n, source, expires, k, refs, settle);
    case DebitCommand(u, n, k, partial, meterOnly) => DebitClaims(db, now, u, n, k, partial, meterOnly);
    case HoldCommand(u, n, k, deadline, ttl, meterOnly) => HoldClaims(db, now, u, n, k, deadline, ttl, meterOnly);
    case CaptureCommand(h, actual) => CaptureClaims(db, now, h, actual);
    case ReleaseCommand(h, expired) => ReleaseClaims(db, now, h, expired);
    case MergeCommand(a, b, sources) => MergeClaims(db, now, a, b, sources);
    case BundleCommand(e) => BundleClaims(db, now, e);
    case ExpireLotsCommand => SweepFromClaims(db, now, 0);
    case ExpireHoldsCommand => ExpireHoldsClaims(db, now, 0);
  }

  // ----- Over runs -----

  /** The money-back events of a run, in order. */
  function MoneyBacks(more: seq<Timed>): seq<MoneyBack> {
    if more == [] then [] else
      var front := MoneyBacks(more[..|more| - 1]);
      match more[|more| - 1].command
      case ClawbackCommand(event, refs, refunded, total, reason, objectId) =>
        front + [MoneyBack(event, refs, refunded, total, reason, objectId)]
      case _ => front
  }

  ghost predicate NoClosings(more: seq<Timed>) { forall i | 0 <= i < |more| :: !more[i].command.CloseDisputeCommand? }

  /** Targets depend on what a row granted and names, which never change. */
  lemma {:induction false} SameTargets(row: Txn, row': Txn, events: seq<MoneyBack>)
    requires RowStands(row, row')
    ensures MaxTarget(row', events) == MaxTarget(row, events)
  {
    if events != [] { SameTargets(row, row', events[..|events| - 1]); }
  }

  lemma OtherRequests(db: Db, now: int, c: Command, f: nat)
    requires !c.ClawbackCommand? && !c.CloseDisputeCommand?
    ensures AlreadyClawedBack(Apply(db, now, c).txns, f) == AlreadyClawedBack(db.txns, f)
  {
    if c.MergeCommand? {
      MergeRequests(db, now, c.fromUser, c.intoUser, c.sources, f);
    } else {
      ApplyRows(db, now, c);
      PlainRequests(db.txns, Apply(db, now, c).txns, OwnWallet(db, c), OwnKey(c), f);
    }
  }

  /** One more money-back event of a run. */
  lemma {:induction false} OneMoreEvent(db: Db, before: Db, clock: int, now: int, events: seq<MoneyBack>, f: nat)
    requires Inv(before, clock) && clock <= now && f < |db.txns| && f < |before.txns| && events != []
    requires RowStands(db.txns[f], before.txns[f]) && db.claims <= before.claims
    requires OnePayload(events) && Unclaimed(db, events)
    requires ClaimedBy(before.claims, db.claims, events[..|events| - 1])
    requires AlreadyClawedBack(before.txns, f)
          == Max(AlreadyClawedBack(db.txns, f), MaxTarget(db.txns[f], events[..|events| - 1]))
    ensures var r := Deliver(before, now, events[|events| - 1]);
      && ClaimedBy(r.claims, db.claims, events)
      && AlreadyClawedBack(r.txns, f) == Max(AlreadyClawedBack(db.txns, f), MaxTarget(db.txns[f], events))
  {
    var e := events[|events| - 1];
    DeliverOne(before, clock, now, e, f);
    ClaimedOneMore(before.claims, Deliver(before, now, e).claims, db.claims, events);
    SameTargets(db.txns[f], before.txns[f], [e]);
    assert MaxTarget(db.txns[f], [e]) == Max(0, if Names(db.txns[f], e.refs) then EventTarget(db.txns[f], e.refunded, e.total) else 0);
    if ClawbackEvent(e.event) in before.claims && Names(db.txns[f], e.refs) {
      assert Unclaimed(db, events) && events[|events| - 1].event != "";
      RepeatSeen(db.txns[f], events, before.claims, db.claims);
    }
  }

  /**
   * Over any run without dispute closings, with grants, charges, reservations, sweeps, merges and bundles in between and
   * any redeliveries, what was requested of a grant is the largest target seen.
   */
  lemma {:induction false} RunRefundsReachTheMaximum(db: Db, clock: int, more: seq<Timed>, now: int, f: nat)
    requires Inv(db, clock) && f < |db.txns| && Within(more, clock, now) && NoClosings(more)
    requires OnePayload(MoneyBacks(more)) && Unclaimed(db, MoneyBacks(more))
    ensures var r := Continue(db, more);
      && Evolves(db, r) && ClaimedBy(r.claims, db.claims, MoneyBacks(more))
      && AlreadyClawedBack(r.txns, f) == Max(AlreadyClawedBack(db.txns, f), MaxTarget(db.txns[f], MoneyBacks(more)))
  {
    if more != [] {
      var front, last := more[..|more| - 1], more[|more| - 1];
      var events, earlier := MoneyBacks(more), MoneyBacks(front);
      assert events == earlier || events[..|events| - 1] == earlier;
      assert OnePayload(earlier) && Unclaimed(db, earlier);
      RunRefundsReachTheMaximum(db, clock, front, last.at, f);
      var before := Continue(db, front);
      ContinueInv(db, clock, front, last.at);
      ApplyEvolves(before, last.at, last.at, last.command);
      EvolvesOnward(db, before, Continue(db, more));
      assert RowStands(db.txns[f], before.txns[f]);
      if last.command.ClawbackCommand? {
        OneMoreEvent(db, before, last.at, last.at, events, f);
      } else {
        OtherRequests(before, last.at, last.command, f);
        OtherClaims(before, last.at, last.command);
      }
    }
  }

  /** Two runs with the same money-back events, whatever else happens in them, request the same, within the grant. */
  lemma RunsAgreeOnRefunds(db: Db, clock: int, a: seq<Timed>, b: seq<Timed>, now: int, f: nat)
    requires Inv(db, clock) && f < |db.txns| && AlreadyClawedBack(db.txns, f) == 0
    requires Within(a, clock, now) && NoClosings(a) && OnePayload(MoneyBacks(a)) && Unclaimed(db, MoneyBacks(a))
    requires Within(b, clock, now) && NoClosings(b) && OnePayload(MoneyBacks(b)) && Unclaimed(db, MoneyBacks(b))
    requires forall e :: e in MoneyBacks(a) <==> e in MoneyBacks(b)
    ensures AlreadyClawedBack(Continue(db, a).txns, f) == AlreadyClawedBack(Continue(db, b).txns, f)
         <= Max(0, db.txns[f].delta)
  {
    RunRefundsReachTheMaximum(db, clock, a, now, f);
    RunRefundsReachTheMaximum(db, clock, b, now, f);
    MaxTargetWithin(db.txns[f], MoneyBacks(a), MoneyBacks(b));
    MaxTargetWithin(db.txns[f], MoneyBacks(b), MoneyBacks(a));
  }
}
