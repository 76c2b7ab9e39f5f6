/** Clawbacks and won disputes against the two ledger laws. */
module ClawbackBooks {
  import opened Sums
  import opened Models
  import opened Lots
  import opened Operations
  import opened Clawbacks
  import opened Books

  /** Every lot a grant created is in one wallet. */
  ghost predicate Home(lots: seq<Lot>, g: nat, w: nat) {
    forall i | 0 <= i < |lots| && lots[i].grant == Some(g) :: lots[i].wallet == w
  }

  lemma {:induction false} TakeGrantedShape(lots: seq<Lot>, g: nat, k: nat, n: nat, w: nat)
    requires k <= |lots| && Home(lots, g, w)
    ensures Shrinks(lots, TakeGranted(lots, g, k, n).lots)
    ensures InTable(TakeGranted(lots, g, k, n).taken, lots, w)
    decreases |lots| - k
  {
    if k < |lots| && n > 0 {
      if lots[k].grant != Some(g) || lots[k].remaining == 0 {
        TakeGrantedShape(lots, g, k + 1, n, w);
      } else {
        var a := Min(n, lots[k].remaining);
        TakeGrantedShape(Draw(lots, k, a), g, k + 1, n - a, w);
      }
    }
  }

  /** What leaves the lots beyond any cut is what was taken from the grant's lots beyond it. */
  lemma {:induction false} TakeGrantedMoves(lots: seq<Lot>, g: nat, k: nat, n: nat, w: nat, v: nat, c: Cut)
    requires k <= |lots| && Home(lots, g, w)
    ensures Credits(TakeGranted(lots, g, k, n).lots, v, c)
         == Credits(lots, v, c) - (if v == w then Shares(TakeGranted(lots, g, k, n).taken, lots, c) else 0)
    decreases |lots| - k
  {
    if k < |lots| && n > 0 {
      if lots[k].grant != Some(g) || lots[k].remaining == 0 {
        TakeGrantedMoves(lots, g, k + 1, n, w, v, c);
      } else {
        var a := Min(n, lots[k].remaining);
        var lots' := Draw(lots, k, a);
        TakeGrantedMoves(lots', g, k + 1, n - a, w, v, c);
        TakeGrantedShape(lots', g, k + 1, n - a, w);
        DrawCredits(lots, k, a, v, c);
        var rest := TakeGranted(lots', g, k + 1, n - a).taken;
        SharesStable(rest, lots, lots', w, c);
        SharesPrepend(Share(k, a), rest, lots, c);
      }
    }
  }

  lemma ClawBackGaps(db: Db, now: int, g: nat, requested: nat, reason: ClawReason, objectId: string, v: nat)
    requires g < |db.txns| && db.txns[g].wallet < |db.wallets| && Home(db.lots, g, db.txns[g].wallet)
    ensures SameGaps(db, ClawBack(db, now, g, requested, reason, objectId), v)
  {
    var w := db.txns[g].wallet;
    var swept := Sweep(db, w, now);
    SweepGaps(db, w, now, v);
    var drawn := TakeGranted(swept.lots, g, 0, requested);
    TakeGrantedMoves(swept.lots, g, 0, requested, w, v, Everything);
    TotalIs(drawn.taken, swept.lots);
    var r := ClawBack(db, now, g, requested, reason, objectId);
    AppendRow(swept.txns, r.txns[|swept.txns|], v);
    if |r.debts| > |swept.debts| {
      SumAppend(swept.debts, r.debts[|swept.debts|], OwedOf(v));
      assert r.debts == swept.debts + [r.debts[|swept.debts|]];
    } else {
      assert r.debts == swept.debts;
    }
  }

  /** The buckets of a clawback row account for what was requested, and its debt for what is owed. */
  ghost predicate ClawRefs(w: nat, c: Claw, txns: seq<Txn>, debts: seq<Debt>) {
    && c.grant < |txns| && txns[c.grant].wallet == w
    && c.requested == c.reclaimed + c.forgiven + c.outstanding
    && (c.debt.None? ==> c.outstanding == 0)
    && (c.debt.Some? ==> c.debt.value < |debts| && debts[c.debt.value].wallet == w
                         && debts[c.debt.value].initial == c.outstanding)
  }

  ghost predicate DebtOk(d: Debt) {
    d.outstanding <= d.initial && (d.settledAt.Some? <==> d.outstanding == 0)
  }

  lemma CancelDebtOwed(debts: seq<Debt>, debt: Option<nat>, now: int, v: nat)
    requires debt.Some? ==> debt.value < |debts| && DebtOk(debts[debt.value])
    ensures Owed(CancelDebt(debts, debt, now), v) == Owed(debts, v)
              - (if debt.Some? && debts[debt.value].wallet == v then debts[debt.value].outstanding else 0)
  {
    if debt.Some? && debts[debt.value].outstanding > 0 {
      var d := debts[debt.value];
      SumUpdate(debts, debt.value, d.(outstanding := 0, settledAt := Some(now)), OwedOf(v));
    }
  }

  lemma RestoreGaps(db: Db, now: int, t: nat, w: nat, g: nat, n: nat, v: nat)
    requires w < |db.wallets|
    ensures LedgerGap(Restore(db, now, t, w, g, n), v) == LedgerGap(db, v)
    ensures PositionGap(Restore(db, now, t, w, g, n), v) == PositionGap(db, v) - (if v == w then n else 0)
  {
    var added := db.(lots := db.lots + [RestoredLot(db, w, g, n)]);
    AppendCredits(db.lots, RestoredLot(db, w, g, n), v, Everything);
    SweepGaps(added, w, now, v);
    var r := Restore(db, now, t, w, g, n);
    AppendRow(Sweep(added, w, now).txns, r.txns[|r.txns| - 1], v);
  }

  /** Cancelling moves the net position by exactly what the reversal gives back. */
  lemma CancelClawGaps(db: Db, now: int, t: nat, v: nat)
    requires t < |db.txns| && db.txns[t].note.ClawedBack? && !db.txns[t].note.claw.reversed
    requires ClawRefs(db.txns[t].wallet, db.txns[t].note.claw, db.txns, db.debts)
    requires forall d | 0 <= d < |db.debts| :: DebtOk(db.debts[d])
    ensures LedgerGap(CancelClaw(db, now, t), v) == LedgerGap(db, v)
    ensures PositionGap(CancelClaw(db, now, t), v)
         == PositionGap(db, v) + (if v == db.txns[t].wallet then GivenBack(db, db.txns[t].note.claw) else 0)
  {
    var row := db.txns[t];
    CancelDebtOwed(db.debts, row.note.claw.debt, now, v);
    SumUpdate(db.txns, t, MarkReversed(row), DeltaOf(v));
    SumUpdate(db.txns, t, MarkReversed(row), EffectOf(v));
  }

  lemma ReverseGaps(db: Db, now: int, t: nat, v: nat)
    requires t < |db.txns|
    requires db.txns[t].note.ClawedBack? ==> ClawRefs(db.txns[t].wallet, db.txns[t].note.claw, db.txns, db.debts)
    requires forall d | 0 <= d < |db.debts| :: DebtOk(db.debts[d])
    ensures SameGaps(db, ReverseClawback(db, now, t), v)
  {
    var row := db.txns[t];
    if row.note.ClawedBack? && !row.note.claw.reversed && row.wallet < |db.wallets| {
      var given := GivenBack(db, row.note.claw);
      var cancelled := CancelClaw(db, now, t);
      CancelClawGaps(db, now, t, v);
      if given > 0 {
        var restored := Restore(cancelled, now, t, row.wallet, row.note.claw.grant, given);
        RestoreGaps(cancelled, now, t, row.wallet, row.note.claw.grant, given, v);
        SettleFromGaps(restored, row.wallet, now, 0, v);
      }
    }
  }
}
