/** Refund arithmetic, order-independence of refund events, and the round trip of a won dispute. */
module ClawbackLaws {
  import opened Sums
  import opened Models
  import opened Lots
  import opened Operations
  import opened Clawbacks
  import opened Books
  import opened ClawbackBooks
  import opened Soundness
  import opened MoreSoundness
  import opened Balances
  import opened Runs
  import opened Settlement
  import opened Optimality
  import opened MergeRuns
  import opened Evolution

  // ----- Proportional arithmetic -----

  /** Rounding is within half a unit of the ratio, and a tie goes to the even neighbour. */
  lemma RoundIsNearest(num: nat, den: nat)
    requires den > 0
    ensures 0 - den <= 2 * (RoundRatio(num, den) * den - num) <= den
    ensures 2 * (RoundRatio(num, den) * den - num) in {den, 0 - den} ==> RoundRatio(num, den) % 2 == 0
  {
    var q, r := num / den, num % den;
    assert num == q * den + r;
    if RoundRatio(num, den) == q + 1 {
      assert (q + 1) * den == q * den + den;
    }
  }

  lemma Cancels(x: int, y: int, den: nat)
    requires x * den < y * den
    ensures x < y
  {
    assert (y - x) * den == y * den - x * den;
  }

  lemma QuotientGrows(a: nat, b: nat, den: nat)
    requires den > 0 && a <= b
    ensures a / den <= b / den && (a / den == b / den ==> a % den <= b % den)
  {
    var qa, qb := a / den, b / den;
    assert a == qa * den + a % den && b == qb * den + b % den;
    assert (qb + 1) * den == qb * den + den;
    Cancels(qa, qb + 1, den);
  }

  lemma WholeRatio(q: nat, den: nat)
    requires den > 0
    ensures RoundRatio(q * den, den) == q
  {
    var k, r := (q * den) / den, (q * den) % den;
    assert q * den == k * den + r;
    assert (k + 1) * den == k * den + den && (q + 1) * den == q * den + den;
    Cancels(q, k + 1, den);
    Cancels(k, q + 1, den);
  }

  lemma RoundGrows(a: nat, b: nat, den: nat)
    requires den > 0 && a <= b
    ensures RoundRatio(a, den) <= RoundRatio(b, den)
  {
    QuotientGrows(a, b, den);
  }

  lemma ProductGrows(granted: nat, less: nat, more: nat)
    requires less <= more
    ensures granted * less <= granted * more
  {
  }

  lemma RoundWithin(granted: nat, refunded: nat, total: nat)
    requires 0 < total && refunded <= total
    ensures RoundRatio(granted * refunded, total) <= granted
  {
    ProductGrows(granted, refunded, total);
    RoundGrows(granted * refunded, granted * total, total);
    WholeRatio(granted, total);
  }

  /** A partial refund takes between one credit and the whole grant, within half a credit of the exact share. */
  lemma TargetIsProportional(granted: nat, refunded: nat, total: nat)
    requires granted >= 1 && 0 < refunded < total
    ensures var x := ClawTarget(granted, Some(refunded), Some(total));
      && 1 <= x <= granted
      && (0 - total <= 2 * (x * total - granted * refunded) <= total || x == 1)
  {
    RoundIsNearest(granted * refunded, total);
    RoundWithin(granted, refunded, total);
  }

  lemma ClampGrows(granted: nat, a: nat, b: nat)
    requires granted >= 1 && a <= b
    ensures 1 <= Max(1, Min(granted, a)) <= Max(1, Min(granted, b)) <= granted
  {
  }

  /** Refunding more never takes less, and refunding all takes the grant. */
  lemma TargetGrows(granted: nat, less: nat, more: nat, total: nat)
    requires granted >= 1 && 0 < less <= more <= total
    ensures ClawTarget(granted, Some(less), Some(total)) <= ClawTarget(granted, Some(more), Some(total))
    ensures ClawTarget(granted, Some(total), Some(total)) == granted
  {
    var x, y := RoundRatio(granted * less, total), RoundRatio(granted * more, total);
    ProductGrows(granted, less, more);
    RoundGrows(granted * less, granted * more, total);
    ClampGrows(granted, x, y);
  }

  // ----- Order independence -----

  /** Rows that are not open clawbacks of g leave what was requested of g alone. */
  lemma SameRequests(txns: seq<Txn>, txns': seq<Txn>, g: nat)
    requires |txns| <= |txns'|
    requires forall t | 0 <= t < |txns| :: RequestedOf(g)(txns'[t]) == RequestedOf(g)(txns[t])
    requires forall t | |txns| <= t < |txns'| :: RequestedOf(g)(txns'[t]) == 0
    ensures AlreadyClawedBack(txns', g) == AlreadyClawedBack(txns, g)
  {
    SumGrow(txns, txns', RequestedOf(g), |txns'|);
  }

  /** A clawback adds exactly what it requests, to its own grant. */
  lemma ClawBackRequests(db: Db, now: int, g: nat, requested: nat, reason: ClawReason, objectId: string, f: nat)
    requires g < |db.txns| && db.txns[g].wallet < |db.wallets|
    ensures AlreadyClawedBack(ClawBack(db, now, g, requested, reason, objectId).txns, f)
         == AlreadyClawedBack(db.txns, f) + (if f == g then requested else 0)
  {
    var swept := Sweep(db, db.txns[g].wallet, now);
    SameRequests(db.txns, swept.txns, f);
    var r := ClawBack(db, now, g, requested, reason, objectId);
    SumAppend(swept.txns, r.txns[|swept.txns|], RequestedOf(f));
  }

  /** The target of an event for one grant row. */
  function EventTarget(row: Txn, refunded: Option<int>, total: Option<int>): nat {
    var granted := Max(0, row.delta);
    Min(ClawTarget(granted, refunded, total), granted)
  }

  /** One event raises what was requested of a grant to its target, never past it and never twice. */
  lemma RemainingReachesTarget(db: Db, now: int, g: nat, refunded: Option<int>, total: Option<int>,
                               reason: ClawReason, objectId: string, f: nat)
    requires g < |db.txns| && db.txns[g].wallet < |db.wallets|
    ensures AlreadyClawedBack(ClawBackRemaining(db, now, g, refunded, total, reason, objectId).txns, f)
         == if f == g then Max(AlreadyClawedBack(db.txns, g), EventTarget(db.txns[g], refunded, total))
            else AlreadyClawedBack(db.txns, f)
  {
    var more := EventTarget(db.txns[g], refunded, total) - AlreadyClawedBack(db.txns, g);
    if more > 0 {
      ClawBackRequests(db, now, g, more, reason, objectId, f);
    }
  }

  lemma RemainingAppends(db: Db, now: int, g: nat, refunded: Option<int>, total: Option<int>, reason: ClawReason,
                         objectId: string)
    requires g < |db.txns|
    ensures var r := ClawBackRemaining(db, now, g, refunded, total, reason, objectId);
      Extends(db.txns, r.txns) && |r.wallets| == |db.wallets|
  {
  }

  /** What is requested of grant f after an event whose target for it is `goal`. */
  function Raised(requested: nat, named: bool, goal: nat): nat { if named then Max(requested, goal) else requested }

  lemma OneRemaining(db: Db, now: int, g: nat, refunded: Option<int>, total: Option<int>, reason: ClawReason,
                     objectId: string, f: nat, goal: nat)
    returns (next: Db)
    requires Inv(db, now) && g < |db.txns| && (f == g ==> goal == EventTarget(db.txns[g], refunded, total))
    ensures next == ClawBackRemaining(db, now, g, refunded, total, reason, objectId)
    ensures Inv(next, now) && Extends(db.txns, next.txns)
    ensures AlreadyClawedBack(next.txns, f) == Raised(AlreadyClawedBack(db.txns, f), f == g, goal)
  {
    next := ClawBackRemaining(db, now, g, refunded, total, reason, objectId);
    ClawBackRemainingKeeps(db, now, g, refunded, total, reason, objectId);
    RemainingReachesTarget(db, now, g, refunded, total, reason, objectId, f);
    RemainingAppends(db, now, g, refunded, total, reason, objectId);
  }

  lemma {:induction false} ClawBackFromExtends(db: Db, now: int, k: nat, limit: nat, refs: set<string>,
                                               refunded: Option<int>, total: Option<int>, reason: ClawReason,
                                               objectId: string)
    requires k <= limit <= |db.txns|
    ensures Extends(db.txns, ClawBackFrom(db, now, k, limit, refs, refunded, total, reason, objectId).txns)
    decreases limit - k
  {
    if k < limit {
      if !Names(db.txns[k], refs) {
        ClawBackFromExtends(db, now, k + 1, limit, refs, refunded, total, reason, objectId);
      } else {
        RemainingAppends(db, now, k, refunded, total, reason, objectId);
        var next := ClawBackRemaining(db, now, k, refunded, total, reason, objectId);
        ClawBackFromExtends(next, now, k + 1, limit, refs, refunded, total, reason, objectId);
      }
    }
  }

  lemma {:induction false} ClawBackFromTargets(db: Db, now: int, k: nat, limit: nat, refs: set<string>,
                                               refunded: Option<int>, total: Option<int>, reason: ClawReason,
                                               objectId: string, f: nat, named: bool, goal: nat)
    requires Inv(db, now) && k <= limit <= |db.txns| && f < limit
    requires named == Names(db.txns[f], refs) && goal == EventTarget(db.txns[f], refunded, total)
    ensures AlreadyClawedBack(ClawBackFrom(db, now, k, limit, refs, refunded, total, reason, objectId).txns, f)
         == Raised(AlreadyClawedBack(db.txns, f), k <= f && named, goal)
    decreases limit - k
  {
    if k < limit {
      if !Names(db.txns[k], refs) {
        ClawBackFromTargets(db, now, k + 1, limit, refs, refunded, total, reason, objectId, f, named, goal);
      } else {
        var next := OneRemaining(db, now, k, refunded, total, reason, objectId, f, goal);
        assert next.txns[f] == db.txns[f];
        ClawBackFromTargets(next, now, k + 1, limit, refs, refunded, total, reason, objectId, f, named, goal);
      }
    }
  }

  /** A refund, dispute or credit-note event as delivered. */
  datatype MoneyBack = MoneyBack(event: string, refs: set<string>, refunded: Option<int>, total: Option<int>,
                                 reason: ClawReason, objectId: string)

  function Deliver(db: Db, now: int, e: MoneyBack): Db {
    HandleClawback(db, now, e.event, e.refs, e.refunded, e.total, e.reason, e.objectId)
  }

  /** Deliveries one after another, each at its own time. */
  function DeliverAll(db: Db, times: seq<int>, events: seq<MoneyBack>): Db
    requires |times| == |events|
  {
    if events == [] then db else
      var n := |events| - 1;
      Deliver(DeliverAll(db, times[..n], events[..n]), times[n], events[n])
  }

  /** Time does not go back, from the clock on. */
  ghost predicate Forward(times: seq<int>, clock: int) {
    && (forall i | 0 <= i < |times| :: clock <= times[i])
    && (forall i, j | 0 <= i < j < |times| :: times[i] <= times[j])
  }

  function LastOf(times: seq<int>, clock: int): int { if times == [] then clock else times[|times| - 1] }

  /** The largest target among events naming grant row g. */
  function MaxTarget(row: Txn, events: seq<MoneyBack>): nat {
    if events == [] then 0 else
      var e := events[|events| - 1];
      Max(MaxTarget(row, events[..|events| - 1]),
          if Names(row, e.refs) then EventTarget(row, e.refunded, e.total) else 0)
  }

  /** Redeliveries carry the same payload. */
  ghost predicate OnePayload(events: seq<MoneyBack>) {
    forall i, j | 0 <= i < |events| && 0 <= j < |events| && events[i].event == events[j].event :: events[i] == events[j]
  }

  ghost predicate Unclaimed(db: Db, events: seq<MoneyBack>) {
    forall i | 0 <= i < |events| :: events[i].event != "" && ClawbackEvent(events[i].event) !in db.claims
  }

  lemma {:induction false} TargetSeen(row: Txn, events: seq<MoneyBack>, i: nat)
    requires i < |events| && Names(row, events[i].refs)
    ensures EventTarget(row, events[i].refunded, events[i].total) <= MaxTarget(row, events)
  {
    if i < |events| - 1 {
      TargetSeen(row, events[..|events| - 1], i);
    }
  }

  lemma {:induction false} ClawBackFromClaims(db: Db, now: int, k: nat, limit: nat, e: MoneyBack)
    requires Inv(db, now) && k <= limit <= |db.txns|
    ensures ClawBackFrom(db, now, k, limit, e.refs, e.refunded, e.total, e.reason, e.objectId).claims == db.claims
    decreases limit - k
  {
    if k < limit {
      if !Names(db.txns[k], e.refs) {
        ClawBackFromClaims(db, now, k + 1, limit, e);
      } else {
        ClawBackRemainingKeeps(db, now, k, e.refunded, e.total, e.reason, e.objectId);
        SweepClaims(db, db.txns[k].wallet, now);
        ClawBackFromClaims(ClawBackRemaining(db, now, k, e.refunded, e.total, e.reason, e.objectId), now, k + 1, limit, e);
      }
    }
  }

  /** One delivery: the invariants, its claim, and the rise of grant f to the event's target. */
  lemma DeliverOne(db: Db, clock: int, now: int, e: MoneyBack, f: nat)
    requires Inv(db, clock) && clock <= now && f < |db.txns|
    ensures var r := Deliver(db, now, e);
      && Inv(r, now) && Extends(db.txns, r.txns)
      && r.claims <= db.claims + {ClawbackEvent(e.event)}
      && AlreadyClawedBack(r.txns, f)
         == if Names(db.txns[f], e.refs) && e.event != "" && ClawbackEvent(e.event) !in db.claims
            then Max(AlreadyClawedBack(db.txns, f), EventTarget(db.txns[f], e.refunded, e.total))
            else AlreadyClawedBack(db.txns, f)
  {
    HandleClawbackInv(db, clock, now, e.event, e.refs, e.refunded, e.total, e.reason, e.objectId);
    CachedLater(db, clock, now);
    var claimed := db.(claims := db.claims + {ClawbackEvent(e.event)});
    ClaimInv(db, claimed.claims, now);
    ClawBackFromClaims(claimed, now, 0, |db.txns|, e);
    ClawBackFromExtends(claimed, now, 0, |db.txns|, e.refs, e.refunded, e.total, e.reason, e.objectId);
    ClawBackFromTargets(claimed, now, 0, |db.txns|, e.refs, e.refunded, e.total, e.reason, e.objectId, f,
                        Names(db.txns[f], e.refs), EventTarget(db.txns[f], e.refunded, e.total));
  }

  /** Every event claimed beyond the earlier ones is one of these. */
  ghost predicate ClaimedBy(claims: set<Claim>, before: set<Claim>, events: seq<MoneyBack>) {
    forall c {:trigger c in claims} | c in claims && c !in before && c.ClawbackEvent? ::
      exists i | 0 <= i < |events| :: c == ClawbackEvent(events[i].event)
  }

  lemma ClaimedOneMore(claims: set<Claim>, claims': set<Claim>, before: set<Claim>, events: seq<MoneyBack>)
    requires events != [] && ClaimedBy(claims, before, events[..|events| - 1])
    requires claims' <= claims + {ClawbackEvent(events[|events| - 1].event)}
    ensures ClaimedBy(claims', before, events)
  {
    var front := events[..|events| - 1];
    forall c | c in claims' && c !in before && c.ClawbackEvent?
      ensures exists i | 0 <= i < |events| :: c == ClawbackEvent(events[i].event)
    {
      if c in claims {
        var i :| 0 <= i < |front| && c == ClawbackEvent(front[i].event);
        assert events[i] == front[i];
      }
    }
  }

  /** A redelivered event's target is among the ones already seen. */
  lemma RepeatSeen(row: Txn, events: seq<MoneyBack>, claims: set<Claim>, before: set<Claim>)
    requires events != [] && OnePayload(events) && Names(row, events[|events| - 1].refs)
    requires ClawbackEvent(events[|events| - 1].event) in claims - before
    requires ClaimedBy(claims, before, events[..|events| - 1])
    ensures EventTarget(row, events[|events| - 1].refunded, events[|events| - 1].total)
         <= MaxTarget(row, events[..|events| - 1])
  {
    var c := ClawbackEvent(events[|events| - 1].event);
    var front := events[..|events| - 1];
    var i :| 0 <= i < |front| && c == ClawbackEvent(front[i].event);
    assert events[i] == events[|events| - 1];
    TargetSeen(row, events[..|events| - 1], i);
  }

  /**
   * After any sequence of money-back events with redeliveries, what was requested of a grant
   * is the largest target seen, whatever the order.
   */
  lemma {:induction false} RefundsReachTheMaximum(db: Db, clock: int, times: seq<int>, events: seq<MoneyBack>, f: nat)
    requires |times| == |events| && Forward(times, clock)
    requires Inv(db, clock) && f < |db.txns| && OnePayload(events) && Unclaimed(db, events)
    ensures var r := DeliverAll(db, times, events);
      && Inv(r, LastOf(times, clock)) && Extends(db.txns, r.txns)
      && ClaimedBy(r.claims, db.claims, events)
      && AlreadyClawedBack(r.txns, f) == Max(AlreadyClawedBack(db.txns, f), MaxTarget(db.txns[f], events))
  {
    if events != [] {
      var front, e := events[..|events| - 1], events[|events| - 1];
      var earlier, now := times[..|events| - 1], times[|events| - 1];
      assert OnePayload(front) && Unclaimed(db, front) && Forward(earlier, clock);
      RefundsReachTheMaximum(db, clock, earlier, front, f);
      var before := DeliverAll(db, earlier, front);
      DeliverOne(before, LastOf(earlier, clock), now, e, f);
      ClaimedOneMore(before.claims, Deliver(before, now, e).claims, db.claims, events);
      if ClawbackEvent(e.event) in before.claims && Names(db.txns[f], e.refs) {
        RepeatSeen(db.txns[f], events, before.claims, db.claims);
      }
    }
  }

  lemma {:induction false} MaxTargetWithin(row: Txn, a: seq<MoneyBack>, b: seq<MoneyBack>)
    requires forall e | e in a :: e in b
    ensures MaxTarget(row, a) <= MaxTarget(row, b)
    ensures MaxTarget(row, a) <= Max(0, row.delta)
    decreases |a|
  {
    if a != [] {
      var e := a[|a| - 1];
      MaxTargetWithin(row, a[..|a| - 1], b);
      assert e in b;
      var i :| 0 <= i < |b| && b[i] == e;
      if Names(row, e.refs) { TargetSeen(row, b, i); }
    }
  }

  /**
   * Two deliveries of the same events, in any orders, with any repeats and at any times, request the same of every
   * grant, within the grant.
   */
  lemma RefundsAreOrderIndependent(db: Db, clock: int, at: seq<int>, a: seq<MoneyBack>, bt: seq<int>,
                                   b: seq<MoneyBack>, f: nat)
    requires |at| == |a| && |bt| == |b| && Forward(at, clock) && Forward(bt, clock)
    requires Inv(db, clock) && f < |db.txns| && AlreadyClawedBack(db.txns, f) == 0
    requires OnePayload(a) && OnePayload(b) && Unclaimed(db, a) && Unclaimed(db, b)
    requires forall e :: e in a <==> e in b
    ensures AlreadyClawedBack(DeliverAll(db, at, a).txns, f) == AlreadyClawedBack(DeliverAll(db, bt, b).txns, f)
    ensures AlreadyClawedBack(DeliverAll(db, at, a).txns, f) <= Max(0, db.txns[f].delta)
  {
    RefundsReachTheMaximum(db, clock, at, a, f);
    RefundsReachTheMaximum(db, clock, bt, b, f);
    MaxTargetWithin(db.txns[f], a, b);
    MaxTargetWithin(db.txns[f], b, a);
  }

  // ----- The round trip of a won dispute -----

  /** Everything a grant's lots give up dies at the deadline its first lot names. */
  lemma TakenShareDeadline(lots: seq<Lot>, g: nat, k: nat, n: nat, e: Expiry, c: Cut)
    requires k <= |lots| && forall i | 0 <= i < |lots| && lots[i].grant == Some(g) :: lots[i].expires == e
    ensures Shares(TakeGranted(lots, g, k, n).taken, lots, c)
         == if Beyond(e, c) then Total(TakeGranted(lots, g, k, n).taken) else 0
    decreases |lots| - k
  {
    if k < |lots| && n > 0 {
      if lots[k].grant != Some(g) || lots[k].remaining == 0 {
        TakenShareDeadline(lots, g, k + 1, n, e, c);
      } else {
        var a := Min(n, lots[k].remaining);
        var lots' := Draw(lots, k, a);
        TakenShareDeadline(lots', g, k + 1, n - a, e, c);
        var rest := TakeGranted(lots', g, k + 1, n - a).taken;
        SumSame(rest, ShareBeyond(lots', c), rest, ShareBeyond(lots, c));
        SharesPrepend(Share(k, a), rest, lots, c);
        SharesPrepend(Share(k, a), rest, [], Everything);
      }
    }
  }

  /** The deadline a grant's credits come back with. */
  function GrantDeadline(lots: seq<Lot>, g: nat): Expiry {
    match FirstLotOf(lots, g) case Some(i) => lots[i].expires case None => Never
  }

  lemma OneDeadline(lots: seq<Lot>, g: nat)
    requires SameDeadline(lots)
    ensures forall i | 0 <= i < |lots| && lots[i].grant == Some(g) :: lots[i].expires == GrantDeadline(lots, g)
  {
  }

  /** The clawback row at the end of the ledger, and a debt of its own for what it could not take. */
  ghost predicate OpenClaw(db: Db, t: nat, w: nat, g: nat) {
    && t < |db.txns| && db.txns[t].wallet == w && db.txns[t].note.ClawedBack?
    && var claw := db.txns[t].note.claw;
       && claw.grant == g && !claw.reversed
       && (claw.debt.None? ==> claw.outstanding == 0)
       && (claw.debt.Some? ==>
             && claw.debt.value < |db.debts| && db.debts[claw.debt.value].settledAt.None?
             && db.debts[claw.debt.value].outstanding == claw.outstanding)
  }

  lemma ClawBackOwes(db: Db, now: int, g: nat, requested: nat, reason: ClawReason, objectId: string)
    requires g < |db.txns| && db.txns[g].wallet < |db.wallets|
    ensures var r := ClawBack(db, now, g, requested, reason, objectId); var w := db.txns[g].wallet;
      && OpenClaw(r, |r.txns| - 1, w, g)
      && Owed(r.debts, w) == Owed(db.debts, w) + r.txns[|r.txns| - 1].note.claw.outstanding
  {
    var w := db.txns[g].wallet;
    var swept := Sweep(db, w, now);
    var r := ClawBack(db, now, g, requested, reason, objectId);
    if |r.debts| > |swept.debts| {
      assert r.debts == swept.debts + [r.debts[|swept.debts|]];
      SumAppend(swept.debts, r.debts[|swept.debts|], OwedOf(w));
    } else {
      assert r.debts == swept.debts;
    }
  }

  /** A clawback takes the reclaimed credits off every instant before the grant's deadline. */
  lemma ClawBackProfile(db: Db, now: int, g: nat, requested: nat, reason: ClawReason, objectId: string, t: int)
    requires Sound(db) && g < |db.txns| && t >= now
    ensures var r := ClawBack(db, now, g, requested, reason, objectId); var w := db.txns[g].wallet;
      && OpenClaw(r, |r.txns| - 1, w, g)
      && Credits(r.lots, w, After(t)) == Credits(db.lots, w, After(t))
           - (if Beyond(GrantDeadline(r.lots, g), After(t)) then r.txns[|r.txns| - 1].note.claw.reclaimed else 0)
  {
    ClawBackOwes(db, now, g, requested, reason, objectId);
    var w := db.txns[g].wallet;
    var swept := Sweep(db, w, now);
    SweepSound(db, w, now);
    SweepCredits(db, w, now, w, After(t));
    GrantIsHome(swept, g);
    TakeGrantedMoves(swept.lots, g, 0, requested, w, w, After(t));
    TakeGrantedShape(swept.lots, g, 0, requested, w);
    OneDeadline(swept.lots, g);
    TakenShareDeadline(swept.lots, g, 0, requested, GrantDeadline(swept.lots, g), After(t));
    SameFirstLot(swept.lots, TakeGranted(swept.lots, g, 0, requested).lots, g);
  }

  lemma {:induction false} SameFirstLot(lots: seq<Lot>, lots': seq<Lot>, g: nat)
    requires Shrinks(lots, lots') && |lots| == |lots'|
    ensures FirstLotOf(lots', g) == FirstLotOf(lots, g)
  {
    if lots != [] {
      SameFirstLot(lots[..|lots| - 1], lots'[..|lots| - 1], g);
    }
  }

  /**
   * A won dispute, at any later time: every instant before the grant's deadline gets back what was reclaimed and
   * what the debt collected since; the rest of the debt is dropped. What other open debts then take is settlement.
   */
  lemma ReverseProfile(db: Db, now: int, t: nat, at: int)
    requires Sound(db) && t < |db.txns| && db.txns[t].note.ClawedBack? && !db.txns[t].note.claw.reversed && at >= now
    ensures var claw := db.txns[t].note.claw; var w := db.txns[t].wallet; var r := ReverseClawback(db, now, t);
      var left := if claw.debt.Some? then db.debts[claw.debt.value].outstanding else 0;
      && GivenBack(db, claw) + left == claw.requested - claw.forgiven
      && left <= Owed(db.debts, w)
      && (Owed(db.debts, w) == left ==>
            && Owed(r.debts, w) == 0
            && Credits(r.lots, w, After(at)) == Credits(db.lots, w, After(at))
                 + (if Beyond(GrantDeadline(db.lots, claw.grant), After(at)) then GivenBack(db, claw) else 0))
  {
    var claw, w := db.txns[t].note.claw, db.txns[t].wallet;
    assert NoteRefs(db.txns[t], db.txns, db.holds, db.debts);
    var cancelled := CancelClaw(db, now, t);
    CancelDebtOwed(db.debts, claw.debt, now, w);
    var given := GivenBack(db, claw);
    if Owed(cancelled.debts, w) == 0 && given > 0 {
      var added := cancelled.(lots := db.lots + [RestoredLot(db, w, claw.grant, given)]);
      AppendCredits(db.lots, RestoredLot(db, w, claw.grant, given), w, After(at));
      SweepCredits(added, w, now, w, After(at));
      NothingOwed(Restore(cancelled, now, t, w, claw.grant, given), w, now);
    }
  }

  lemma ReverseUndoes(db: Db, t: nat, w: nat, g: nat, later: int, at: int) returns (restored: Db)
    requires Sound(db) && OpenClaw(db, t, w, g) && Owed(db.debts, w) == db.txns[t].note.claw.outstanding && later <= at
    ensures restored == ReverseClawback(db, later, t) && Owed(restored.debts, w) == 0
    ensures Credits(restored.lots, w, After(at)) == Credits(db.lots, w, After(at))
      + (if Beyond(GrantDeadline(db.lots, g), After(at)) then db.txns[t].note.claw.reclaimed else 0)
  {
    restored := ReverseClawback(db, later, t);
    assert NoteRefs(db.txns[t], db.txns, db.holds, db.debts);
    ReverseProfile(db, later, t, at);
  }

  lemma Clawed(db: Db, now: int, g: nat, requested: nat, objectId: string, at: int) returns (clawed: Db, t: nat)
    requires Sound(db) && g < |db.txns| && now <= at
    ensures clawed == ClawBack(db, now, g, requested, ByDispute, objectId) && |clawed.txns| == t + 1
    ensures Sound(clawed) && OpenClaw(clawed, t, db.txns[g].wallet, g)
    ensures Owed(clawed.debts, db.txns[g].wallet) == Owed(db.debts, db.txns[g].wallet) + clawed.txns[t].note.claw.outstanding
    ensures Credits(clawed.lots, db.txns[g].wallet, After(at)) == Credits(db.lots, db.txns[g].wallet, After(at))
      - (if Beyond(GrantDeadline(clawed.lots, g), After(at)) then clawed.txns[t].note.claw.reclaimed else 0)
  {
    clawed := ClawBack(db, now, g, requested, ByDispute, objectId);
    t := |clawed.txns| - 1;
    ClawBackProfile(db, now, g, requested, ByDispute, objectId, at);
    ClawBackOwes(db, now, g, requested, ByDispute, objectId);
    ClawBackSound(db, now, g, requested, ByDispute, objectId);
  }

  /**
   * Clawback, then a won dispute with nothing in between: live credits at every later instant, and debt, are as before.
   * Row t is the clawback's.
   */
  lemma WonDisputeRoundTrip(db: Db, now: int, g: nat, requested: nat, objectId: string, later: int, at: int)
    returns (clawed: Db, t: nat, restored: Db)
    requires Sound(db) && g < |db.txns| && Owed(db.debts, db.txns[g].wallet) == 0 && now <= later <= at
    ensures clawed == ClawBack(db, now, g, requested, ByDispute, objectId) && |clawed.txns| == t + 1
    ensures restored == ReverseClawback(clawed, later, t)
    ensures Credits(restored.lots, db.txns[g].wallet, After(at)) == Credits(db.lots, db.txns[g].wallet, After(at))
    ensures Owed(restored.debts, db.txns[g].wallet) == 0
  {
    clawed, t := Clawed(db, now, g, requested, objectId, at);
    restored := ReverseUndoes(clawed, t, db.txns[g].wallet, g, later, at);
  }
}
