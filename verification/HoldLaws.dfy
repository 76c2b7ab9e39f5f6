/** The hold state machine against its allocations and its charge rows. */
module HoldLaws {
  import opened Sums
  import opened Models
  import opened Lots
  import opened Operations
  import opened Clawbacks
  import opened Merges
  import opened Soundness
  import opened MoreSoundness

  function CountFor(h: nat): Txn -> int { (t: Txn) => if t.note.Charged? && t.note.hold == h then 1 else 0 }

  function ChargeFor(h: nat): Txn -> int { (t: Txn) => if t.note.Charged? && t.note.hold == h then t.delta else 0 }

  /**
   * HELD allocations sum to the reservation; RELEASED and EXPIRED ones to nothing;
   * exactly a captured hold has a charge row, one, for what its allocations say was billed.
   */
  ghost predicate HoldOk(x: Hold, txns: seq<Txn>, h: nat) {
    && (x.status.Held? ==> Total(x.allocs) == x.credits && (x.waived.Some? ==> x.credits == 0))
    && (x.status.Released? || x.status.Expired? ==> Total(x.allocs) == 0)
    && Sum(txns, CountFor(h)) == (if x.status.Captured? then 1 else 0)
    && Sum(txns, ChargeFor(h)) == (if x.status.Captured? then 0 - Total(x.allocs) else 0)
  }

  ghost predicate HoldBooks(holds: seq<Hold>, txns: seq<Txn>) {
    forall h {:trigger holds[h]} | 0 <= h < |holds| :: HoldOk(holds[h], txns, h)
  }

  /** No hold's charges differ between two ledgers. */
  ghost predicate SameCharges(txns: seq<Txn>, txns': seq<Txn>) {
    forall h: nat {:trigger CountFor(h)} {:trigger ChargeFor(h)} ::
      Sum(txns', CountFor(h)) == Sum(txns, CountFor(h)) && Sum(txns', ChargeFor(h)) == Sum(txns, ChargeFor(h))
  }

  predicate SameCharge(t: Txn, t': Txn) {
    if t.note.Charged? then t'.note == t.note && t'.delta == t.delta else !t'.note.Charged?
  }

  /** Rows that are not hold charges leave every hold's charges alone. */
  lemma ChargeFree(txns: seq<Txn>, txns': seq<Txn>)
    requires |txns| <= |txns'|
    requires forall t | 0 <= t < |txns| :: SameCharge(txns[t], txns'[t])
    requires forall t | |txns| <= t < |txns'| :: !txns'[t].note.Charged?
    ensures SameCharges(txns, txns')
  {
    forall h: nat
      ensures Sum(txns', CountFor(h)) == Sum(txns, CountFor(h)) && Sum(txns', ChargeFor(h)) == Sum(txns, ChargeFor(h))
    {
      SumGrow(txns, txns', CountFor(h), |txns'|);
      SumGrow(txns, txns', ChargeFor(h), |txns'|);
    }
  }

  lemma NoCharges(db: Db, h: nat)
    requires Sound(db) && h >= |db.holds|
    ensures Sum(db.txns, CountFor(h)) == 0 && Sum(db.txns, ChargeFor(h)) == 0
  {
    assert forall t | 0 <= t < |db.txns| :: NoteRefs(db.txns[t], db.txns, db.holds, db.debts);
    SumZero(db.txns, CountFor(h));
    SumZero(db.txns, ChargeFor(h));
  }

  lemma ReserveHolds(db: Db, w: nat, now: int, n: nat, key: string, deadline: Expiry, waived: Option<nat>,
                     prior: Option<nat>)
    requires Sound(db) && HoldBooks(db.holds, db.txns) && w < |db.wallets| && n <= Credits(db.lots, w, After(now))
    requires prior.Some? ==> prior.value < |db.holds| && !db.holds[prior.value].status.Captured?
    requires waived.Some? ==> n == 0
    ensures HoldBooks(Reserve(db, w, now, n, key, deadline, waived, prior).holds, db.txns)
  {
    ConsumeServes(db.lots, w, now, n);
    NoCharges(db, |db.holds|);
    var r := Reserve(db, w, now, n, key, deadline, waived, prior);
    var at := if prior.Some? then prior.value else |db.holds|;
    assert HoldOk(r.holds[at], db.txns, at);
    forall h | 0 <= h < |r.holds| && h != at ensures HoldOk(r.holds[h], db.txns, h) {
      assert r.holds[h] == db.holds[h];
    }
  }

  /** Writing the charge row of an open hold whose allocations say n. */
  lemma BillHolds(db: Db, h: nat, now: int, n: nat, waived: Option<nat>)
    requires h < |db.holds| && db.holds[h].wallet < |db.wallets|
    requires Total(db.holds[h].allocs) == n
    requires forall g {:trigger db.holds[g]} | 0 <= g < |db.holds| && g != h :: HoldOk(db.holds[g], db.txns, g)
    requires Sum(db.txns, CountFor(h)) == 0 && Sum(db.txns, ChargeFor(h)) == 0
    ensures HoldBooks(Bill(db, h, now, n, waived).holds, Bill(db, h, now, n, waived).txns)
  {
    var r := Bill(db, h, now, n, waived);
    var row := r.txns[|db.txns|];
    forall g | 0 <= g < |r.holds| ensures HoldOk(r.holds[g], r.txns, g) {
      SumAppend(db.txns, row, CountFor(g));
      SumAppend(db.txns, row, ChargeFor(g));
    }
  }

  /** A captured hold's one charge row is where capture looks for it. */
  lemma ChargeRowExists(db: Db, h: nat)
    requires Sound(db) && HoldBooks(db.holds, db.txns) && h < |db.holds| && db.holds[h].status.Captured?
    ensures ChargeRow(db.txns, db.holds[h].wallet, h).Some?
  {
    if ChargeRow(db.txns, db.holds[h].wallet, h).None? {
      assert forall t | 0 <= t < |db.txns| :: NoteRefs(db.txns[t], db.txns, db.holds, db.debts);
      SumZero(db.txns, CountFor(h));
    }
  }

  lemma {:induction false} ForfeitCharges(db: Db, w: nat, now: int, sources: set<Source>, k: nat)
    requires k <= |db.lots|
    ensures SameCharges(db.txns, ForfeitFrom(db, w, now, sources, k).txns)
    decreases |db.lots| - k
  {
    if k < |db.lots| {
      if !Forfeits(db.lots, w, sources, db.lots[k]) {
        ForfeitCharges(db, w, now, sources, k + 1);
      } else {
        var b := Credits(Draw(db.lots, k, db.lots[k].remaining), w, After(now));
        ChargeFree(db.txns, WriteOff(db, k, b, Forfeited).txns);
        ForfeitCharges(WriteOff(db, k, b, Forfeited), w, now, sources, k + 1);
      }
    }
  }

  /** Renaming and moving rows leaves every hold's books as they were. */
  lemma MoveHoldBooks(db: Db, holds: seq<Hold>, m: nat, s: nat)
    requires HoldBooks(db.holds, db.txns) && Renamed(db.holds, holds, m)
    ensures HoldBooks(MoveHolds(holds, m, s), MoveTxns(db.txns, m, s))
  {
    ChargeFree(db.txns, MoveTxns(db.txns, m, s));
    forall h | 0 <= h < |holds| ensures HoldOk(MoveHolds(holds, m, s)[h], MoveTxns(db.txns, m, s), h) {
      assert HoldOk(db.holds[h], db.txns, h);
      assert Sum(MoveTxns(db.txns, m, s), CountFor(h)) == Sum(db.txns, CountFor(h));
    }
  }
}
