/** A merge against the two ledger laws: the survivor's gaps are the sum of both wallets' gaps. */
module MergeBooks {
  import opened Sums
  import opened Models
  import opened Lots
  import opened Operations
  import opened Merges
  import opened Books

  lemma {:induction false} ForfeitGaps(db: Db, w: nat, now: int, sources: set<Source>, k: nat, v: nat)
    requires k <= |db.lots|
    ensures SameGaps(db, ForfeitFrom(db, w, now, sources, k), v)
    decreases |db.lots| - k
  {
    if k < |db.lots| {
      if !Forfeits(db.lots, w, sources, db.lots[k]) {
        ForfeitGaps(db, w, now, sources, k + 1, v);
      } else {
        var b := Credits(Draw(db.lots, k, db.lots[k].remaining), w, After(now));
        WriteOffGaps(db, k, b, Forfeited, v);
        ForfeitGaps(WriteOff(db, k, b, Forfeited), w, now, sources, k + 1, v);
      }
    }
  }

  /** Sums of moved rows: the survivor gets both wallets' totals, the closed wallet none. */
  lemma MoveSum<T>(s: seq<T>, s': seq<T>, f: nat -> T -> int, m: nat, into: nat, v: nat)
    requires m != into && |s| == |s'|
    requires forall i | 0 <= i < |s| :: f(m)(s'[i]) == 0 && f(into)(s'[i]) == f(into)(s[i]) + f(m)(s[i])
                                     && (v != m && v != into ==> f(v)(s'[i]) == f(v)(s[i]))
    ensures Sum(s', f(v)) == if v == m then 0 else if v == into then Sum(s, f(into)) + Sum(s, f(m)) else Sum(s, f(v))
  {
    if v == m {
      SumZero(s', f(m));
    } else if v == into {
      SumSplit(s', f(into), s, f(into), f(m));
    } else {
      SumSame(s', f(v), s, f(v));
    }
  }

  function AfterMove(x: int, y: int, m: nat, s: nat, v: nat, z: int): int {
    if v == m then 0 else if v == s then x + y else z
  }

  /** The credits beyond any cut: all of them change owner, none changes its deadline. */
  lemma MoveCredits(lots: seq<Lot>, m: nat, s: nat, v: nat, c: Cut)
    requires m != s
    ensures Credits(MoveLots(lots, m, s), v, c)
         == AfterMove(Credits(lots, s, c), Credits(lots, m, c), m, s, v, Credits(lots, v, c))
  {
    MoveSum(lots, MoveLots(lots, m, s), (u: nat) => CreditsOf(u, c), m, s, v);
  }

  lemma MoveOwed(debts: seq<Debt>, m: nat, s: nat, v: nat)
    requires m != s
    ensures Owed(MoveDebts(debts, m, s), v) == AfterMove(Owed(debts, s), Owed(debts, m), m, s, v, Owed(debts, v))
  {
    MoveSum(debts, MoveDebts(debts, m, s), (u: nat) => OwedOf(u), m, s, v);
  }

  lemma MoveHeld(holds: seq<Hold>, m: nat, s: nat, v: nat)
    requires m != s
    ensures OnHold(MoveHolds(holds, m, s), v) == AfterMove(OnHold(holds, s), OnHold(holds, m), m, s, v, OnHold(holds, v))
  {
    MoveSum(holds, MoveHolds(holds, m, s), (u: nat) => ReservedOf([], u, Everything), m, s, v);
  }

  lemma MoveDeltas(txns: seq<Txn>, m: nat, s: nat, v: nat)
    requires m != s
    ensures Sum(MoveTxns(txns, m, s), DeltaOf(v))
         == AfterMove(Sum(txns, DeltaOf(s)), Sum(txns, DeltaOf(m)), m, s, v, Sum(txns, DeltaOf(v)))
  {
    MoveSum(txns, MoveTxns(txns, m, s), (u: nat) => DeltaOf(u), m, s, v);
  }

  lemma MoveEffects(txns: seq<Txn>, m: nat, s: nat, v: nat)
    requires m != s
    ensures Sum(MoveTxns(txns, m, s), EffectOf(v))
         == AfterMove(Sum(txns, EffectOf(s)), Sum(txns, EffectOf(m)), m, s, v, Sum(txns, EffectOf(v)))
  {
    MoveSum(txns, MoveTxns(txns, m, s), (u: nat) => EffectOf(u), m, s, v);
  }

  lemma MoveGaps(db: Db, m: nat, s: nat, v: nat)
    requires m != s && m < |db.wallets|
    ensures LedgerGap(MoveRows(db, m, s), v)
         == AfterMove(LedgerGap(db, s), LedgerGap(db, m), m, s, v, LedgerGap(db, v))
    ensures PositionGap(MoveRows(db, m, s), v)
         == AfterMove(PositionGap(db, s), PositionGap(db, m), m, s, v, PositionGap(db, v))
  {
    MoveCredits(db.lots, m, s, v, Everything);
    MoveOwed(db.debts, m, s, v);
    MoveHeld(db.holds, m, s, v);
    MoveDeltas(db.txns, m, s, v);
    MoveEffects(db.txns, m, s, v);
  }

  lemma WelcomeGaps(db: Db, m: nat, s: nat, now: int, moved: nat, key: Key, v: nat)
    requires s < |db.wallets|
    ensures SameGaps(db, Welcome(db, m, s, now, moved, key), v)
  {
    var r := Welcome(db, m, s, now, moved, key);
    SweepGaps(db, s, now, v);
    AppendRow(Sweep(db, s, now).txns, r.txns[|r.txns| - 1], v);
  }
}
