/** Refunds, disputes and credit notes: taking a grant back, and giving it back when a dispute is won. */
module Clawbacks {
  import opened Sums
  import opened Models
  import opened Lots
  import opened Operations

  // ----- How much of a grant an event takes back -----

  /** Round a ratio to the nearest integer, halves to even. */
  function RoundRatio(num: nat, den: nat): nat
    requires den > 0
  {
    var q, r := num / den, num % den;
    if 2 * r < den || (2 * r == den && q % 2 == 0) then q else q + 1
  }

  /** `_clawback_credits`: a partial refund takes a proportional part, anything else the whole grant. */
  function ClawTarget(granted: nat, refunded: Option<int>, total: Option<int>): nat {
    if refunded.Some? && total.Some? && 0 < refunded.value < total.value then
      Max(1, Min(granted, RoundRatio(granted * refunded.value, total.value)))
    else granted
  }

  function RequestedOf(g: nat): Txn -> int {
    (t: Txn) => if t.note.ClawedBack? && t.note.claw.grant == g && !t.note.claw.reversed
                then t.note.claw.requested else 0
  }

  /** `_already_clawed_back`: requested by earlier clawbacks of the grant, net of reversals. */
  function AlreadyClawedBack(txns: seq<Txn>, g: nat): (r: nat) {
    SumNonNegative(txns, RequestedOf(g));
    Sum(txns, RequestedOf(g))
  }

  // ----- Taking back -----

  /** Take n credits from the grant's own lots, oldest first, from row k on. */
  function TakeGranted(lots: seq<Lot>, g: nat, k: nat, n: nat): (r: Drawn)
    requires k <= |lots|
    ensures |r.lots| == |lots| && Total(r.taken) <= n
    decreases |lots| - k
  {
    if k == |lots| || n == 0 then Drawn(lots, [])
    else if lots[k].grant != Some(g) || lots[k].remaining == 0 then TakeGranted(lots, g, k + 1, n)
    else
      var a := Min(n, lots[k].remaining);
      var rest := TakeGranted(Draw(lots, k, a), g, k + 1, n - a);
      SharesPrepend(Share(k, a), rest.taken, [], Everything);
      Drawn(rest.lots, [Share(k, a)] + rest.taken)
  }

  function LapsedOf(lots: seq<Lot>, g: nat): Txn -> int {
    (t: Txn) => if (t.note.Lapsed? || t.note.Forfeited?) && t.lot.Some? && t.lot.value < |lots|
                   && lots[t.lot.value].grant == Some(g) then Max(0, -t.delta) else 0
  }

  /** Credits of the grant that already died unspent. */
  function LapsedCredits(db: Db, g: nat): (r: nat) {
    SumNonNegative(db.txns, LapsedOf(db.lots, g));
    Sum(db.txns, LapsedOf(db.lots, g))
  }

  predicate HasLots(lots: seq<Lot>, g: nat) { exists i | 0 <= i < |lots| :: lots[i].grant == Some(g) }

  /** `claw_back_grant`: reclaim what is left, forgive what lapsed, and put the rest on the slate. */
  function ClawBack(db: Db, now: int, g: nat, requested: nat, reason: ClawReason, objectId: string): (r: Db)
    requires g < |db.txns| && db.txns[g].wallet < |db.wallets|
    ensures |r.wallets| == |db.wallets| && |r.txns| > |db.txns|
  {
    var w := db.txns[g].wallet;
    var swept := Sweep(db, w, now);
    var drawn := TakeGranted(swept.lots, g, 0, requested);
    var reclaimed := Total(drawn.taken);
    var forgiven := if HasLots(swept.lots, g) then Min(requested - reclaimed, LapsedCredits(swept, g)) else 0;
    var owed := requested - reclaimed - forgiven;
    var synced := Sync(swept.(lots := drawn.lots), w, now);
    var debt := if owed > 0 then Some(|swept.debts|) else None;
    AddTxn(synced.(debts := swept.debts
                            + if owed > 0 then [Debt(w, owed, owed, Clawback, |swept.txns|, NoKey, None)] else []),
           Txn(w, SingleLot(drawn.taken), 0 - reclaimed, synced.wallets[w].balance, NoKey,
               ClawedBack(Claw(g, reason, objectId, requested, reclaimed, forgiven, owed, debt, false)),
               drawn.taken, {}))
  }

  /** What is left to request to reach the target. */
  function ClawBackUpTo(db: Db, now: int, g: nat, target: nat, reason: ClawReason, objectId: string): (r: Db)
    requires g < |db.txns|
    ensures |r.txns| >= |db.txns|
  {
    var more := target - AlreadyClawedBack(db.txns, g);
    if more <= 0 || db.txns[g].wallet >= |db.wallets| then db else ClawBack(db, now, g, more, reason, objectId)
  }

  /** `_claw_back_remaining`: the target of this event, less what earlier events already requested. */
  function ClawBackRemaining(db: Db, now: int, g: nat, refunded: Option<int>, total: Option<int>,
                             reason: ClawReason, objectId: string): (r: Db)
    requires g < |db.txns|
    ensures |r.txns| >= |db.txns|
  {
    var granted := Max(0, db.txns[g].delta);
    ClawBackUpTo(db, now, g, Min(ClawTarget(granted, refunded, total), granted), reason, objectId)
  }

  /** The grants a money-back object names. */
  predicate Names(t: Txn, refs: set<string>) { t.delta > 0 && t.refs * refs != {} }

  function ClawBackFrom(db: Db, now: int, k: nat, limit: nat, refs: set<string>, refunded: Option<int>,
                        total: Option<int>, reason: ClawReason, objectId: string): (r: Db)
    requires k <= limit <= |db.txns|
    ensures UsersKept(db.wallets, r.wallets)
    decreases limit - k
  {
    if k == limit then db
    else if !Names(db.txns[k], refs) then
      ClawBackFrom(db, now, k + 1, limit, refs, refunded, total, reason, objectId)
    else
      ClawBackFrom(ClawBackRemaining(db, now, k, refunded, total, reason, objectId),
                   now, k + 1, limit, refs, refunded, total, reason, objectId)
  }

  /** `_handle_clawback`: once per event, over every grant the object names. */
  function HandleClawback(db: Db, now: int, event: string, refs: set<string>, refunded: Option<int>,
                          total: Option<int>, reason: ClawReason, objectId: string): Db
  {
    if forall k | 0 <= k < |db.txns| :: !Names(db.txns[k], refs) then db
    else if event == "" || ClawbackEvent(event) in db.claims then db
    else ClawBackFrom(db.(claims := db.claims + {ClawbackEvent(event)}), now, 0, |db.txns|, refs, refunded,
                      total, reason, objectId)
  }

  // ----- Giving back -----

  function FirstLotOf(lots: seq<Lot>, g: nat): (r: Option<nat>)
    ensures r.Some? ==> r.value < |lots| && lots[r.value].grant == Some(g)
    ensures r.None? ==> !HasLots(lots, g)
  {
    if lots == [] then None else
      var k := |lots| - 1;
      var r := FirstLotOf(lots[..k], g);
      if r.Some? then r else if lots[k].grant == Some(g) then Some(k) else None
  }

  /** What the clawback's debt has collected so far. */
  function Collected(debts: seq<Debt>, debt: Option<nat>): nat {
    if debt.Some? && debt.value < |debts| then Max(debts[debt.value].initial - debts[debt.value].outstanding, 0) else 0
  }

  function CancelDebt(debts: seq<Debt>, debt: Option<nat>, now: int): (r: seq<Debt>)
    ensures |r| == |debts|
  {
    if debt.Some? && debt.value < |debts| && debts[debt.value].outstanding > 0 then
      debts[debt.value := debts[debt.value].(outstanding := 0, settledAt := Some(now))]
    else debts
  }

  function MarkReversed(t: Txn): Txn {
    if t.note.ClawedBack? then t.(note := ClawedBack(t.note.claw.(reversed := true))) else t
  }

  /** The restored lot, like the grant's first one. */
  function RestoredLot(db: Db, w: nat, g: nat, n: nat): Lot {
    match FirstLotOf(db.lots, g)
    case Some(i) => Lot(w, db.lots[i].source, n, n, db.lots[i].expires, Some(g))
    case None => Lot(w, Adjustment, n, n, Never, Some(g))
  }

  /** The restored lot and its row; the sweep kills at once what comes back already dead. */
  function Restore(db: Db, now: int, t: nat, w: nat, g: nat, n: nat): (r: Db)
    requires w < |db.wallets|
    ensures |r.wallets| == |db.wallets| && |r.txns| >= |db.txns|
  {
    var synced := Sync(Sweep(db.(lots := db.lots + [RestoredLot(db, w, g, n)]), w, now), w, now);
    AddTxn(synced, Txn(w, Some(|db.lots|), n, synced.wallets[w].balance, NoKey, Restored(t), [], {}))
  }

  /** Close the clawback's debt and mark its row reversed. */
  function CancelClaw(db: Db, now: int, t: nat): (r: Db)
    requires t < |db.txns| && db.txns[t].note.ClawedBack?
    ensures |r.txns| == |db.txns|
  {
    db.(debts := CancelDebt(db.debts, db.txns[t].note.claw.debt, now),
        txns := db.txns[t := MarkReversed(db.txns[t])])
  }

  /** What a reversal gives back: what was reclaimed, and what the debt collected since. */
  function GivenBack(db: Db, c: Claw): nat { c.reclaimed + Collected(db.debts, c.debt) }

  /** `_reverse_clawback`. */
  function ReverseClawback(db: Db, now: int, t: nat): (r: Db)
    requires t < |db.txns|
    ensures |r.txns| >= |db.txns|
  {
    var row := db.txns[t];
    if !row.note.ClawedBack? || row.note.claw.reversed || row.wallet >= |db.wallets| then db else
      var claw := row.note.claw;
      var given := GivenBack(db, claw);
      var cancelled := CancelClaw(db, now, t);
      if given == 0 then cancelled
      else SettleDebts(Restore(cancelled, now, t, row.wallet, claw.grant, given), row.wallet, now)
  }

  /** The clawback rows one dispute wrote. */
  predicate Disputed(t: Txn, objectId: string) {
    t.note.ClawedBack? && t.note.claw.reason.ByDispute? && t.note.claw.objectId == objectId
  }

  function ReverseFrom(db: Db, now: int, k: nat, limit: nat, objectId: string): (r: Db)
    requires k <= limit <= |db.txns|
    ensures UsersKept(db.wallets, r.wallets)
    decreases limit - k
  {
    if k == limit then db
    else if !Disputed(db.txns[k], objectId) then ReverseFrom(db, now, k + 1, limit, objectId)
    else ReverseFrom(ReverseClawback(db, now, k), now, k + 1, limit, objectId)
  }

  /** `handle_dispute_closed`: only a won dispute gives credits back, once per event. */
  function CloseDispute(db: Db, now: int, event: string, objectId: string, won: bool): Db {
    if !won || objectId == "" || forall k | 0 <= k < |db.txns| :: !Disputed(db.txns[k], objectId) then db
    else if event == "" || ClawbackEvent(event) in db.claims then db
    else ReverseFrom(db.(claims := db.claims + {ClawbackEvent(event)}), now, 0, |db.txns|, objectId)
  }
}
