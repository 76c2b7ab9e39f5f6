/** Referential facts of the tables, kept row by row: the foreign keys and what hangs on them. */
module Soundness {
  import opened Sums
  import opened Models
  import opened Lots
  import opened Operations
  import opened Clawbacks
  import opened ClawbackBooks

  /** Wallets that rows may name: not closed by a merge into another wallet. */
  predicate Opens(wallets: seq<Wallet>, w: nat) {
    w < |wallets| && (wallets[w].mergedInto.None? || wallets[w].mergedInto.value == w)
  }

  /** One wallet per user, and none for a user of a closed wallet. */
  ghost predicate Users(wallets: seq<Wallet>) {
    && (forall i | 0 <= i < |wallets| && wallets[i].user.Some? :: wallets[i].mergedInto.None?)
    && (forall i, j | 0 <= i < |wallets| && 0 <= j < |wallets| && wallets[i].user.Some?
                      && wallets[i].user == wallets[j].user :: i == j)
  }

  /** A lot's grant is a row of the same wallet. */
  ghost predicate LotRefs(wallets: seq<Wallet>, lots: seq<Lot>, txns: seq<Txn>) {
    forall i {:trigger lots[i]} | 0 <= i < |lots| ::
      && Opens(wallets, lots[i].wallet) && lots[i].remaining <= lots[i].initial
      && (lots[i].grant.Some? ==> lots[i].grant.value < |txns| && txns[lots[i].grant.value].wallet == lots[i].wallet)
  }

  /** Lots of one grant die together. */
  ghost predicate SameDeadline(lots: seq<Lot>) {
    forall i, j | 0 <= i < |lots| && 0 <= j < |lots| && lots[i].grant.Some? && lots[i].grant == lots[j].grant ::
      lots[i].expires == lots[j].expires
  }

  /** Every allocation's lot is in the hold's wallet. */
  ghost predicate HoldRefs(wallets: seq<Wallet>, holds: seq<Hold>, lots: seq<Lot>) {
    forall h {:trigger holds[h]} | 0 <= h < |holds| ::
      Opens(wallets, holds[h].wallet) && InTable(holds[h].allocs, lots, holds[h].wallet)
  }

  /** The reservation key is unique per wallet. */
  ghost predicate UniqueKeys(holds: seq<Hold>) {
    forall i, j | 0 <= i < j < |holds| && holds[i].wallet == holds[j].wallet :: holds[i].key != holds[j].key
  }

  ghost predicate NoteRefs(t: Txn, txns: seq<Txn>, holds: seq<Hold>, debts: seq<Debt>) {
    && (t.note.Charged? ==> t.note.hold < |holds| && holds[t.note.hold].wallet == t.wallet
                            && holds[t.note.hold].status.Captured?)
    && (t.note.ClawedBack? ==> ClawRefs(t.wallet, t.note.claw, txns, debts))
  }

  ghost predicate TxnRefs(wallets: seq<Wallet>, txns: seq<Txn>, holds: seq<Hold>, debts: seq<Debt>) {
    forall t {:trigger txns[t]} | 0 <= t < |txns| ::
      Opens(wallets, txns[t].wallet) && NoteRefs(txns[t], txns, holds, debts)
  }

  ghost predicate DebtRefs(wallets: seq<Wallet>, debts: seq<Debt>) {
    forall d {:trigger debts[d]} | 0 <= d < |debts| :: Opens(wallets, debts[d].wallet) && DebtOk(debts[d])
  }

  ghost predicate Sound(db: Db) {
    && Users(db.wallets)
    && LotRefs(db.wallets, db.lots, db.txns)
    && SameDeadline(db.lots)
    && HoldRefs(db.wallets, db.holds, db.lots)
    && UniqueKeys(db.holds)
    && TxnRefs(db.wallets, db.txns, db.holds, db.debts)
    && DebtRefs(db.wallets, db.debts)
  }

  // ----- One table at a time -----

  lemma SyncSound(db: Db, w: nat, now: int)
    requires Sound(db) && w < |db.wallets|
    ensures Sound(Sync(db, w, now))
  {
    var wallets := Sync(db, w, now).wallets;
    assert forall v | Opens(db.wallets, v) :: Opens(wallets, v);
    assert LotRefs(wallets, db.lots, db.txns);
    assert HoldRefs(wallets, db.holds, db.lots);
    assert TxnRefs(wallets, db.txns, db.holds, db.debts);
    assert DebtRefs(wallets, db.debts);
  }

  lemma RowSound(db: Db, row: Txn)
    requires Sound(db) && Opens(db.wallets, row.wallet) && NoteRefs(row, db.txns, db.holds, db.debts)
    ensures Sound(AddTxn(db, row))
  {
    var txns := AddTxn(db, row).txns;
    assert LotRefs(db.wallets, db.lots, txns);
    forall t | 0 <= t < |txns|
      ensures Opens(db.wallets, txns[t].wallet) && NoteRefs(txns[t], txns, db.holds, db.debts)
    {
      assert t < |db.txns| ==> txns[t] == db.txns[t];
    }
  }

  lemma DrawSound(db: Db, lots: seq<Lot>)
    requires Sound(db) && Shrinks(db.lots, lots) && |lots| == |db.lots|
    ensures Sound(db.(lots := lots))
  {
    forall h | 0 <= h < |db.holds| ensures InTable(db.holds[h].allocs, lots, db.holds[h].wallet) {
    }
  }

  lemma LotSound(db: Db, l: Lot)
    requires Sound(db) && Opens(db.wallets, l.wallet) && l.remaining <= l.initial
    requires l.grant.Some? ==> l.grant.value < |db.txns| && db.txns[l.grant.value].wallet == l.wallet
    requires l.grant.Some? ==> forall i | 0 <= i < |db.lots| && db.lots[i].grant == l.grant ::
                                 db.lots[i].expires == l.expires
    ensures Sound(db.(lots := db.lots + [l]))
  {
    var lots := db.lots + [l];
    assert LotRefs(db.wallets, lots, db.txns);
    assert SameDeadline(lots);
    forall h | 0 <= h < |db.holds| ensures InTable(db.holds[h].allocs, lots, db.holds[h].wallet) {
    }
  }

  lemma HoldSound(db: Db, h: nat, x: Hold)
    requires Sound(db) && h < |db.holds|
    requires x.wallet == db.holds[h].wallet && x.key == db.holds[h].key && InTable(x.allocs, db.lots, x.wallet)
    requires db.holds[h].status.Captured? ==> x.status.Captured?
    ensures Sound(db.(holds := db.holds[h := x]))
  {
    var holds := db.holds[h := x];
    forall t | 0 <= t < |db.txns| ensures NoteRefs(db.txns[t], db.txns, holds, db.debts) {
    }
  }

  lemma NewHoldSound(db: Db, x: Hold)
    requires Sound(db) && Opens(db.wallets, x.wallet) && InTable(x.allocs, db.lots, x.wallet)
    requires forall i | 0 <= i < |db.holds| :: !(db.holds[i].wallet == x.wallet && db.holds[i].key == x.key)
    ensures Sound(db.(holds := db.holds + [x]))
  {
    var holds := db.holds + [x];
    forall t | 0 <= t < |db.txns| ensures NoteRefs(db.txns[t], db.txns, holds, db.debts) {
    }
  }

  lemma DebtSound(db: Db, k: nat, d: Debt)
    requires Sound(db) && k < |db.debts|
    requires d.wallet == db.debts[k].wallet && d.initial == db.debts[k].initial && DebtOk(d)
    ensures Sound(db.(debts := db.debts[k := d]))
  {
    var debts := db.debts[k := d];
    forall t | 0 <= t < |db.txns| ensures NoteRefs(db.txns[t], db.txns, db.holds, debts) {
    }
  }

  lemma NewDebtSound(db: Db, d: Debt)
    requires Sound(db) && Opens(db.wallets, d.wallet) && DebtOk(d)
    ensures Sound(db.(debts := db.debts + [d]))
  {
    var debts := db.debts + [d];
    forall t | 0 <= t < |db.txns| ensures NoteRefs(db.txns[t], db.txns, db.holds, debts) {
    }
  }

  lemma MarkSound(db: Db, t: nat)
    requires Sound(db) && t < |db.txns|
    ensures Sound(db.(txns := db.txns[t := MarkReversed(db.txns[t])]))
  {
    var txns := db.txns[t := MarkReversed(db.txns[t])];
    forall u | 0 <= u < |txns| ensures NoteRefs(txns[u], txns, db.holds, db.debts) {
      assert NoteRefs(db.txns[u], db.txns, db.holds, db.debts);
    }
  }

  // ----- Operation by operation -----

  lemma {:induction false} ExpireLotsSound(db: Db, w: nat, now: int)
    requires Sound(db)
    ensures Sound(ExpireLots(db, w, now))
    decreases Credits(db.lots, w, Everything)
  {
    match Soonest(db.lots, Due(w, now))
    case None =>
    case Some(i) =>
      var lots' := Draw(db.lots, i, db.lots[i].remaining);
      DrawCredits(db.lots, i, db.lots[i].remaining, w, Everything);
      WriteOffSound(db, i, Credits(lots', w, Everything), Lapsed);
      ExpireLotsSound(WriteOff(db, i, Credits(lots', w, Everything), Lapsed), w, now);
  }

  lemma WriteOffSound(db: Db, i: nat, b: int, note: Note)
    requires Sound(db) && i < |db.lots| && (note.Lapsed? || note.Forfeited?)
    ensures Sound(WriteOff(db, i, b, note))
  {
    var l := db.lots[i];
    var drawn := db.(lots := Draw(db.lots, i, l.remaining));
    DrawSound(db, drawn.lots);
    RowSound(drawn, Txn(l.wallet, Some(i), 0 - l.remaining, b, NoKey, note, [], {}));
  }

  lemma SweepSound(db: Db, w: nat, now: int)
    requires Sound(db) && w < |db.wallets|
    ensures Sound(Sweep(db, w, now))
  {
    ExpireLotsSound(db, w, now);
    SyncSound(ExpireLots(db, w, now), w, now);
  }

  lemma GrantLotSound(db: Db, w: nat, now: int, n: nat, source: Source, expires: Expiry, key: Key, refs: set<string>)
    requires Sound(db) && Opens(db.wallets, w)
    ensures Sound(GrantLot(db, w, now, n, source, expires, key, refs))
  {
    var r := GrantLot(db, w, now, n, source, expires, key, refs);
    var rowed := AddTxn(db, r.txns[|db.txns|]);
    RowSound(db, r.txns[|db.txns|]);
    var lot := Lot(w, source, n, n, expires, Some(|db.txns|));
    LotSound(rowed, lot);
    SyncSound(rowed.(lots := db.lots + [lot]), w, now);
    assert r == Sync(rowed.(lots := db.lots + [lot]), w, now);
  }

  lemma ConsumeSound(db: Db, w: nat, now: int, n: nat)
    requires Sound(db)
    ensures Sound(db.(lots := Consume(db.lots, w, now, n).lots))
  {
    ConsumeShape(db.lots, w, now, n);
    DrawSound(db, Consume(db.lots, w, now, n).lots);
  }

  lemma ChargeLotsSound(db: Db, w: nat, now: int, requested: nat, chargeable: nat, key: Key)
    requires Sound(db) && Opens(db.wallets, w) && chargeable <= requested
    ensures Sound(ChargeLots(db, w, now, requested, chargeable, key))
  {
    var r := ChargeLots(db, w, now, requested, chargeable, key);
    var drawn := db.(lots := Consume(db.lots, w, now, chargeable).lots);
    ConsumeSound(db, w, now, chargeable);
    SyncSound(drawn, w, now);
    var synced := Sync(drawn, w, now);
    if requested > chargeable {
      NewDebtSound(synced, r.debts[|db.debts|]);
      assert r.debts == synced.debts + [r.debts[|db.debts|]];
    } else {
      assert r.debts == synced.debts;
    }
    RowSound(synced.(debts := r.debts), r.txns[|db.txns|]);
  }

  lemma SettleOneSound(db: Db, w: nat, now: int, k: nat)
    requires Sound(db) && Opens(db.wallets, w) && k < |db.debts| && OpenDebt(db.debts[k], w)
    ensures Sound(SettleOne(db, w, now, k))
  {
    var a := Min(db.debts[k].outstanding, Credits(db.lots, w, After(now)));
    var drawn := db.(lots := Consume(db.lots, w, now, a).lots);
    ConsumeSound(db, w, now, a);
    SyncSound(drawn, w, now);
    var synced := Sync(drawn, w, now);
    DebtSound(synced, k, PayDebt(db.debts[k], a, now));
    RowSound(synced.(debts := db.debts[k := PayDebt(db.debts[k], a, now)]), SettleOne(db, w, now, k).txns[|db.txns|]);
  }

  lemma {:induction false} SettleFromSound(db: Db, w: nat, now: int, k: nat)
    requires Sound(db) && Opens(db.wallets, w) && k <= |db.debts|
    ensures Sound(SettleFrom(db, w, now, k))
    decreases |db.debts| - k
  {
    if k < |db.debts| {
      if !OpenDebt(db.debts[k], w) {
        SettleFromSound(db, w, now, k + 1);
      } else if Credits(db.lots, w, After(now)) > 0 {
        SettleOneSound(db, w, now, k);
        SettleFromSound(SettleOne(db, w, now, k), w, now, k + 1);
      }
    }
  }

  lemma ReserveSound(db: Db, w: nat, now: int, n: nat, key: string, deadline: Expiry, waived: Option<nat>,
                     prior: Option<nat>)
    requires Sound(db) && Opens(db.wallets, w) && prior == FindHold(db.holds, w, key)
    requires prior.Some? ==> !db.holds[prior.value].status.Captured?
    ensures Sound(Reserve(db, w, now, n, key, deadline, waived, prior))
  {
    ConsumeSound(db, w, now, n);
    ConsumeShape(db.lots, w, now, n);
    var drawn := Consume(db.lots, w, now, n);
    var held := Hold(w, n, key, Held, deadline, waived, drawn.taken);
    if prior.Some? {
      HoldSound(db.(lots := drawn.lots), prior.value, held);
      SyncSound(db.(lots := drawn.lots, holds := db.holds[prior.value := held]), w, now);
    } else {
      NewHoldSound(db.(lots := drawn.lots), held);
      SyncSound(db.(lots := drawn.lots, holds := db.holds + [held]), w, now);
    }
  }

  lemma ExtendSound(db: Db, h: nat, now: int, extra: nat)
    requires Sound(db) && h < |db.holds|
    ensures Sound(Extend(db, h, now, extra))
  {
    var held := db.holds[h];
    var drawn := Consume(db.lots, held.wallet, now, extra);
    ConsumeSound(db, held.wallet, now, extra);
    ConsumeShape(db.lots, held.wallet, now, extra);
    assert InTable(held.allocs + drawn.taken, drawn.lots, held.wallet);
    HoldSound(db.(lots := drawn.lots), h, held.(allocs := held.allocs + drawn.taken));
  }

  /** Each refunded lot belongs to the same grant, and dies with it. */
  lemma {:induction false} RefundSound(db: Db, w: nat, allocs: seq<Share>, k: nat, n: nat)
    requires Sound(db) && Opens(db.wallets, w) && InTable(allocs, db.lots, w) && k <= |allocs|
    ensures Sound(db.(lots := Refund(db.lots, w, allocs, k, n).lots))
    ensures InTable(Refund(db.lots, w, allocs, k, n).allocs, Refund(db.lots, w, allocs, k, n).lots, w)
    decreases k
  {
    if k > 0 && n > 0 {
      var a := Min(n, allocs[k - 1].credits);
      var step := Return(db.lots, w, allocs, k - 1, a);
      if a > 0 {
        assert db.lots[allocs[k - 1].lot].wallet == w;
        LotSound(db, ReturnLot(db.lots, w, allocs[k - 1].lot, a));
      }
      assert InTable(step.allocs, step.lots, w);
      RefundSound(db.(lots := step.lots), w, step.allocs, k - 1, n - a);
    }
  }

  lemma GiveBackSound(db: Db, h: nat, n: nat)
    requires Sound(db) && h < |db.holds|
    ensures Sound(GiveBack(db, h, n))
  {
    var held := db.holds[h];
    if Located(held.allocs, db.lots) {
      var back := Refund(db.lots, held.wallet, held.allocs, |held.allocs|, n);
      RefundSound(db, held.wallet, held.allocs, |held.allocs|, n);
      HoldSound(db.(lots := back.lots), h, held.(allocs := back.allocs));
    }
  }

  lemma BillSound(db: Db, h: nat, now: int, n: nat, waived: Option<nat>)
    requires Sound(db) && h < |db.holds| && db.holds[h].wallet < |db.wallets|
    ensures Sound(Bill(db, h, now, n, waived))
  {
    var held := db.holds[h].(status := Captured);
    var synced := Sync(db, held.wallet, now);
    SyncSound(db, held.wallet, now);
    HoldSound(synced, h, held);
    RowSound(synced.(holds := db.holds[h := held]), Bill(db, h, now, n, waived).txns[|db.txns|]);
  }

  lemma CloseSound(db: Db, h: nat, status: Status)
    requires Sound(db) && h < |db.holds| && !db.holds[h].status.Captured?
    ensures Sound(Close(db, h, status))
  {
    HoldSound(db, h, db.holds[h].(status := status));
  }
}
