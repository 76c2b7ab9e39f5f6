/** The two ledger laws as gaps no operation opens: the ledger explains the credits, its notes the net position. */
module Books {
  import opened Sums
  import opened Models
  import opened Lots
  import opened Operations

  /** What a row says happened to the wallet's net position: credits held and reserved, less credits owed. */
  function NoteEffect(t: Txn): int {
    match t.note
    case Debited(requested, _, _) => 0 - requested
    case ClawedBack(c) => if c.reversed then 0 else c.forgiven - c.requested
    case Granted => t.delta
    case Lapsed => t.delta
    case Forfeited => t.delta
    case Charged(_, _) => t.delta
    case Waived(_) => 0
    case Settled(_) => 0
    case Restored(_) => 0
    case MergedIn(_) => 0
  }

  function DeltaOf(v: nat): Txn -> int {
    (t: Txn) => if t.wallet == v && !t.note.MergedIn? then t.delta else 0
  }

  function EffectOf(v: nat): Txn -> int {
    (t: Txn) => if t.wallet == v then NoteEffect(t) else 0
  }

  /** Credits kept out of the lots by v's open holds. */
  function OnHold(holds: seq<Hold>, v: nat): nat { Reserved(holds, [], v, Everything) }

  /** Zero when the non-merge ledger rows of v sum to its lots plus its open reservations. */
  function LedgerGap(db: Db, v: nat): int {
    Sum(db.txns, DeltaOf(v)) - Credits(db.lots, v, Everything) - OnHold(db.holds, v)
  }

  /** Zero when the notes of v's rows add up to lots plus reservations less debt. */
  function PositionGap(db: Db, v: nat): int {
    Sum(db.txns, EffectOf(v)) - Credits(db.lots, v, Everything) - OnHold(db.holds, v) + Owed(db.debts, v)
  }

  ghost predicate Balanced(db: Db) {
    forall v: nat {:trigger LedgerGap(db, v)} {:trigger PositionGap(db, v)} ::
      LedgerGap(db, v) == 0 && PositionGap(db, v) == 0
  }

  ghost predicate SameGaps(db: Db, db': Db, v: nat) {
    LedgerGap(db', v) == LedgerGap(db, v) && PositionGap(db', v) == PositionGap(db, v)
  }

  function RowDelta(row: Txn, v: nat): int {
    if row.wallet == v && !row.note.MergedIn? then row.delta else 0
  }

  function RowEffect(row: Txn, v: nat): int { if row.wallet == v then NoteEffect(row) else 0 }

  lemma AppendRow(txns: seq<Txn>, row: Txn, v: nat)
    ensures Sum(txns + [row], DeltaOf(v)) == Sum(txns, DeltaOf(v)) + RowDelta(row, v)
    ensures Sum(txns + [row], EffectOf(v)) == Sum(txns, EffectOf(v)) + RowEffect(row, v)
  {
    SumAppend(txns, row, DeltaOf(v));
    SumAppend(txns, row, EffectOf(v));
  }

  lemma UpdateHold(holds: seq<Hold>, h: nat, x: Hold, v: nat)
    requires h < |holds|
    ensures OnHold(holds[h := x], v) == OnHold(holds, v) - ReservedOf([], v, Everything)(holds[h])
                                                     + ReservedOf([], v, Everything)(x)
  {
    SumUpdate(holds, h, x, ReservedOf([], v, Everything));
  }

  // ----- Expiry and forfeits -----

  lemma WriteOffGaps(db: Db, i: nat, b: int, note: Note, v: nat)
    requires i < |db.lots| && (note.Lapsed? || note.Forfeited?)
    ensures SameGaps(db, WriteOff(db, i, b, note), v)
  {
    DrawCredits(db.lots, i, db.lots[i].remaining, v, Everything);
    AppendRow(db.txns, Txn(db.lots[i].wallet, Some(i), 0 - db.lots[i].remaining, b, NoKey, note, [], {}), v);
  }

  lemma {:induction false} ExpireLotsGaps(db: Db, w: nat, now: int, v: nat)
    ensures SameGaps(db, ExpireLots(db, w, now), v)
    decreases Credits(db.lots, w, Everything)
  {
    match Soonest(db.lots, Due(w, now))
    case None =>
    case Some(i) =>
      var lots' := Draw(db.lots, i, db.lots[i].remaining);
      var b := Credits(lots', w, Everything);
      DrawCredits(db.lots, i, db.lots[i].remaining, w, Everything);
      WriteOffGaps(db, i, b, Lapsed, v);
      ExpireLotsGaps(WriteOff(db, i, b, Lapsed), w, now, v);
  }

  lemma SweepGaps(db: Db, w: nat, now: int, v: nat)
    requires w < |db.wallets|
    ensures SameGaps(db, Sweep(db, w, now), v)
  {
    ExpireLotsGaps(db, w, now, v);
  }

  /** A sweep takes exactly the credits that are dead now, from its own wallet. */
  lemma {:induction false} ExpireLotsCredits(db: Db, w: nat, now: int, v: nat, c: Cut)
    ensures v != w || (c.After? && c.t >= now) ==>
              Credits(ExpireLots(db, w, now).lots, v, c) == Credits(db.lots, v, c)
    ensures Soonest(ExpireLots(db, w, now).lots, Due(w, now)).None?
    decreases Credits(db.lots, w, Everything)
  {
    match Soonest(db.lots, Due(w, now))
    case None =>
    case Some(i) =>
      var lots' := Draw(db.lots, i, db.lots[i].remaining);
      DrawCredits(db.lots, i, db.lots[i].remaining, w, Everything);
      DrawCredits(db.lots, i, db.lots[i].remaining, v, c);
      ExpireLotsCredits(WriteOff(db, i, Credits(lots', w, Everything), Lapsed), w, now, v, c);
  }

  lemma SweepCredits(db: Db, w: nat, now: int, v: nat, c: Cut)
    requires w < |db.wallets|
    ensures v != w || (c.After? && c.t >= now) ==> Credits(Sweep(db, w, now).lots, v, c) == Credits(db.lots, v, c)
    ensures Soonest(Sweep(db, w, now).lots, Due(w, now)).None?
  {
    ExpireLotsCredits(db, w, now, v, c);
  }

  /** With nothing due, every remaining credit is live. */
  lemma NothingDue(lots: seq<Lot>, w: nat, now: int)
    requires Soonest(lots, Due(w, now)).None?
    ensures Credits(lots, w, Everything) == Credits(lots, w, After(now))
  {
    SumSame(lots, CreditsOf(w, Everything), lots, CreditsOf(w, After(now)));
  }

  // ----- Credit, debit, settlement -----

  lemma GrantLotGaps(db: Db, w: nat, now: int, n: nat, source: Source, expires: Expiry, key: Key,
                     refs: set<string>, v: nat)
    requires w < |db.wallets|
    ensures SameGaps(db, GrantLot(db, w, now, n, source, expires, key, refs), v)
  {
    var r := GrantLot(db, w, now, n, source, expires, key, refs);
    AppendCredits(db.lots, Lot(w, source, n, n, expires, Some(|db.txns|)), v, Everything);
    AppendRow(db.txns, r.txns[|db.txns|], v);
  }

  lemma ChargeLotsGaps(db: Db, w: nat, now: int, requested: nat, chargeable: nat, key: Key, v: nat)
    requires w < |db.wallets| && chargeable <= requested && chargeable <= Credits(db.lots, w, After(now))
    ensures SameGaps(db, ChargeLots(db, w, now, requested, chargeable, key), v)
  {
    var r := ChargeLots(db, w, now, requested, chargeable, key);
    var taken := Consume(db.lots, w, now, chargeable).taken;
    ConsumeMoves(db.lots, w, now, chargeable, v, Everything);
    ConsumeServes(db.lots, w, now, chargeable);
    TotalIs(taken, db.lots);
    AppendRow(db.txns, r.txns[|db.txns|], v);
    if requested > chargeable {
      SumAppend(db.debts, r.debts[|db.debts|], OwedOf(v));
      assert r.debts == db.debts + [r.debts[|db.debts|]];
    } else {
      assert r.debts == db.debts;
    }
  }

  lemma WaiveChargeGaps(db: Db, w: nat, now: int, n: nat, key: Key, v: nat)
    ensures SameGaps(db, WaiveCharge(db, w, now, n, key), v)
  {
    AppendRow(db.txns, WaiveCharge(db, w, now, n, key).txns[|db.txns|], v);
  }

  lemma PayDebtOwed(debts: seq<Debt>, w: nat, k: nat, a: nat, now: int, v: nat)
    requires k < |debts| && OpenDebt(debts[k], w) && a <= debts[k].outstanding
    ensures Owed(debts[k := PayDebt(debts[k], a, now)], v) == Owed(debts, v) - (if v == w then a else 0)
  {
    SumUpdate(debts, k, PayDebt(debts[k], a, now), OwedOf(v));
  }

  lemma SettleOneGaps(db: Db, w: nat, now: int, k: nat, v: nat)
    requires w < |db.wallets| && k < |db.debts| && OpenDebt(db.debts[k], w)
    ensures SameGaps(db, SettleOne(db, w, now, k), v)
  {
    var a := Min(db.debts[k].outstanding, Credits(db.lots, w, After(now)));
    ConsumeMoves(db.lots, w, now, a, v, Everything);
    ConsumeServes(db.lots, w, now, a);
    TotalIs(Consume(db.lots, w, now, a).taken, db.lots);
    PayDebtOwed(db.debts, w, k, a, now, v);
    AppendRow(db.txns, SettleOne(db, w, now, k).txns[|db.txns|], v);
  }

  lemma {:induction false} SettleFromGaps(db: Db, w: nat, now: int, k: nat, v: nat)
    requires w < |db.wallets| && k <= |db.debts|
    ensures SameGaps(db, SettleFrom(db, w, now, k), v)
    decreases |db.debts| - k
  {
    if k < |db.debts| {
      if !OpenDebt(db.debts[k], w) {
        SettleFromGaps(db, w, now, k + 1, v);
      } else if Credits(db.lots, w, After(now)) > 0 {
        SettleOneGaps(db, w, now, k, v);
        SettleFromGaps(SettleOne(db, w, now, k), w, now, k + 1, v);
      }
    }
  }

  // ----- Reservations -----

  lemma ReserveGaps(db: Db, w: nat, now: int, n: nat, key: string, deadline: Expiry, waived: Option<nat>,
                    prior: Option<nat>, v: nat)
    requires w < |db.wallets| && (prior.Some? ==> prior.value < |db.holds| && !db.holds[prior.value].status.Held?)
    ensures SameGaps(db, Reserve(db, w, now, n, key, deadline, waived, prior), v)
  {
    var taken := Consume(db.lots, w, now, n).taken;
    var held := Hold(w, n, key, Held, deadline, waived, taken);
    ConsumeMoves(db.lots, w, now, n, v, Everything);
    TotalIs(taken, db.lots);
    if prior.Some? {
      UpdateHold(db.holds, prior.value, held, v);
    } else {
      SumAppend(db.holds, held, ReservedOf([], v, Everything));
    }
  }

  lemma ExtendGaps(db: Db, h: nat, now: int, extra: nat, v: nat)
    requires h < |db.holds| && db.holds[h].status.Held?
    ensures SameGaps(db, Extend(db, h, now, extra), v)
  {
    var held := db.holds[h];
    var taken := Consume(db.lots, held.wallet, now, extra).taken;
    ConsumeMoves(db.lots, held.wallet, now, extra, v, Everything);
    TotalIs(taken, db.lots);
    SumConcat(held.allocs, taken, ShareBeyond([], Everything));
    UpdateHold(db.holds, h, held.(allocs := held.allocs + taken), v);
  }

  lemma GiveBackGaps(db: Db, h: nat, n: nat, v: nat)
    requires h < |db.holds| && db.holds[h].status.Held?
    ensures SameGaps(db, GiveBack(db, h, n), v)
  {
    var held := db.holds[h];
    if Located(held.allocs, db.lots) {
      var back := Refund(db.lots, held.wallet, held.allocs, |held.allocs|, n);
      RefundMoves(db.lots, held.wallet, held.allocs, |held.allocs|, n, v, Everything);
      TotalIs(held.allocs, db.lots);
      TotalIs(back.allocs, back.lots);
      UpdateHold(db.holds, h, held.(allocs := back.allocs), v);
    }
  }

  lemma BillGaps(db: Db, h: nat, now: int, n: nat, waived: Option<nat>, v: nat)
    requires h < |db.holds| && db.holds[h].wallet < |db.wallets|
    requires db.holds[h].status.Held? && Total(db.holds[h].allocs) == n
    ensures SameGaps(db, Bill(db, h, now, n, waived), v)
  {
    UpdateHold(db.holds, h, db.holds[h].(status := Captured), v);
    AppendRow(db.txns, Bill(db, h, now, n, waived).txns[|db.txns|], v);
  }

  lemma CloseGaps(db: Db, h: nat, status: Status, v: nat)
    requires h < |db.holds| && Total(db.holds[h].allocs) == 0 && !status.Held?
    ensures SameGaps(db, Close(db, h, status), v)
  {
    UpdateHold(db.holds, h, db.holds[h].(status := status), v);
  }
}
