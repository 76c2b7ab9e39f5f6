/** Lapsed credits are forgiven per clawback call, so a refund made in two parts can forgive the same credits twice. */
module Forgiveness {
  import opened Sums
  import opened Models
  import opened Lots
  import opened Operations
  import opened Clawbacks
  import opened Books
  import opened ClawbackLaws

  /** The credits still in the grant's lots, from row k on. */
  function LeftFrom(lots: seq<Lot>, g: nat, k: nat): nat
    decreases |lots| - k
  {
    if k >= |lots| then 0 else (if lots[k].grant == Some(g) then lots[k].remaining else 0) + LeftFrom(lots, g, k + 1)
  }

  lemma {:induction false} LeftElsewhere(lots: seq<Lot>, lots': seq<Lot>, g: nat, k: nat)
    requires |lots| == |lots'| && forall i | k <= i < |lots| :: lots'[i] == lots[i]
    ensures LeftFrom(lots', g, k) == LeftFrom(lots, g, k)
    decreases |lots| - k
  {
    if k < |lots| { LeftElsewhere(lots, lots', g, k + 1); }
  }

  /** A clawback takes all it asks for, as far as the grant's lots go, and leaves the rest in them. */
  lemma {:induction false} TakesWhatIsLeft(lots: seq<Lot>, g: nat, k: nat, n: nat)
    requires k <= |lots|
    ensures var r := TakeGranted(lots, g, k, n); var taken := Min(n, LeftFrom(lots, g, k));
      && Total(r.taken) == taken && LeftFrom(r.lots, g, k) == LeftFrom(lots, g, k) - taken
      && (forall i | 0 <= i < k :: r.lots[i] == lots[i])
    decreases |lots| - k
  {
    if k < |lots| && n > 0 {
      if lots[k].grant != Some(g) || lots[k].remaining == 0 {
        TakesWhatIsLeft(lots, g, k + 1, n);
      } else {
        var a := Min(n, lots[k].remaining);
        var lots' := Draw(lots, k, a);
        LeftElsewhere(lots, lots', g, k + 1);
        TakesWhatIsLeft(lots', g, k + 1, n - a);
        SharesPrepend(Share(k, a), TakeGranted(lots', g, k + 1, n - a).taken, [], Everything);
      }
    }
  }

  /** What a clawback finds: the credits left in the grant's lots, and the ones that lapsed unspent. */
  datatype Stock = Stock(left: nat, lapsed: nat)

  function StockOf(db: Db, g: nat): Stock { Stock(LeftFrom(db.lots, g, 0), LapsedCredits(db, g)) }

  /** A grant row in a wallet with nothing due. */
  ghost predicate Quiet(db: Db, g: nat, now: int) {
    g < |db.txns| && db.txns[g].wallet < |db.wallets| && Soonest(db.lots, Due(db.txns[g].wallet, now)).None?
  }

  lemma {:induction false} NoLotsNothingLeft(lots: seq<Lot>, g: nat, k: nat)
    requires !HasLots(lots, g)
    ensures LeftFrom(lots, g, k) == 0
    decreases |lots| - k
  {
    if k < |lots| { NoLotsNothingLeft(lots, g, k + 1); }
  }

  lemma NoLotsNothingLapsed(db: Db, g: nat)
    requires !HasLots(db.lots, g)
    ensures LapsedCredits(db, g) == 0
  {
    SumZero(db.txns, LapsedOf(db.lots, g));
  }

  lemma NothingDueAfter(lots: seq<Lot>, lots': seq<Lot>, w: nat, now: int)
    requires Soonest(lots, Due(w, now)).None? && Shrinks(lots, lots') && |lots'| == |lots|
    ensures Soonest(lots', Due(w, now)).None?
  {
    assert forall i | 0 <= i < |lots| :: Due(w, now).Has(lots'[i]) ==> Due(w, now).Has(lots[i]);
  }

  /** What a clawback leaves in the lots. */
  lemma TakenStock(db: Db, now: int, g: nat, n: nat)
    requires Quiet(db, g, now)
    ensures var drawn := TakeGranted(db.lots, g, 0, n); var left := LeftFrom(db.lots, g, 0);
      && Total(drawn.taken) == Min(n, left) && LeftFrom(drawn.lots, g, 0) == left - Min(n, left)
      && Shrinks(db.lots, drawn.lots) && Soonest(drawn.lots, Due(db.txns[g].wallet, now)).None?
      && (!HasLots(db.lots, g) ==> left == 0 && LapsedCredits(db, g) == 0)
  {
    TakesWhatIsLeft(db.lots, g, 0, n);
    TakeShrinks(db.lots, g, 0, n);
    NothingDueAfter(db.lots, TakeGranted(db.lots, g, 0, n).lots, db.txns[g].wallet, now);
    if !HasLots(db.lots, g) {
      NoLotsNothingLeft(db.lots, g, 0);
      NoLotsNothingLapsed(db, g);
    }
  }

  /** Drawing on lots and one row that is no expiry leave what lapsed as it was. */
  lemma SameLapsed(db: Db, r: Db, g: nat)
    requires Shrinks(db.lots, r.lots) && |r.lots| == |db.lots|
    requires |r.txns| == |db.txns| + 1 && r.txns[..|db.txns|] == db.txns && r.txns[|db.txns|].note.ClawedBack?
    ensures LapsedCredits(r, g) == LapsedCredits(db, g)
  {
    assert r.txns == db.txns + [r.txns[|db.txns|]];
    SumAppend(db.txns, r.txns[|db.txns|], LapsedOf(r.lots, g));
    SumSame(db.txns, LapsedOf(r.lots, g), db.txns, LapsedOf(db.lots, g));
  }

  /** One clawback: it takes what is left, forgives up to what lapsed, and owes the rest; what lapsed stays forgivable. */
  lemma ClawBackStock(db: Db, now: int, g: nat, n: nat, reason: ClawReason, objectId: string) returns (r: Db)
    requires Quiet(db, g, now)
    ensures r == ClawBack(db, now, g, n, reason, objectId) && Quiet(r, g, now)
    ensures r.txns[g].wallet == db.txns[g].wallet
    ensures var stock := StockOf(db, g);
      && StockOf(r, g) == Stock(stock.left - Min(n, stock.left), stock.lapsed)
      && Owed(r.debts, db.txns[g].wallet)
         == Owed(db.debts, db.txns[g].wallet) + Max(0, n - stock.left - stock.lapsed)
  {
    TakenStock(db, now, g, n);
    r := ClawBack(db, now, g, n, reason, objectId);
    assert r.lots == TakeGranted(db.lots, g, 0, n).lots;
    SameLapsed(db, r, g);
    ClawBackOwes(db, now, g, n, reason, objectId);
  }

  lemma {:induction false} TakeShrinks(lots: seq<Lot>, g: nat, k: nat, n: nat)
    requires k <= |lots|
    ensures Shrinks(lots, TakeGranted(lots, g, k, n).lots)
    decreases |lots| - k
  {
    if k < |lots| && n > 0 {
      if lots[k].grant != Some(g) || lots[k].remaining == 0 {
        TakeShrinks(lots, g, k + 1, n);
      } else {
        var a := Min(n, lots[k].remaining);
        TakeShrinks(Draw(lots, k, a), g, k + 1, n - a);
      }
    }
  }

  /** A clawback starts with the sweep, so it is the clawback of the swept state. */
  lemma SweptFirst(db: Db, now: int, g: nat, n: nat, reason: ClawReason, objectId: string) returns (swept: Db)
    requires g < |db.txns| && db.txns[g].wallet < |db.wallets|
    ensures swept == Sweep(db, db.txns[g].wallet, now) && Quiet(swept, g, now)
    ensures swept.txns[g] == db.txns[g] && swept.debts == db.debts
    ensures ClawBack(swept, now, g, n, reason, objectId) == ClawBack(db, now, g, n, reason, objectId)
  {
    swept := Sweep(db, db.txns[g].wallet, now);
    SweepCredits(db, db.txns[g].wallet, now, 0, Everything);
  }

  /** One clawback of any grant, measured by what its own sweep finds. */
  lemma ClawBackOwesTheRest(db: Db, now: int, g: nat, n: nat, reason: ClawReason, objectId: string) returns (r: Db)
    requires g < |db.txns| && db.txns[g].wallet < |db.wallets|
    ensures r == ClawBack(db, now, g, n, reason, objectId) && Quiet(r, g, now)
    ensures r.txns[g].wallet == db.txns[g].wallet
    ensures var stock := StockOf(Sweep(db, db.txns[g].wallet, now), g);
      && StockOf(r, g) == Stock(stock.left - Min(n, stock.left), stock.lapsed)
      && Owed(r.debts, db.txns[g].wallet)
         == Owed(db.debts, db.txns[g].wallet) + Max(0, n - stock.left - stock.lapsed)
  {
    var swept := SweptFirst(db, now, g, n, reason, objectId);
    r := ClawBackStock(swept, now, g, n, reason, objectId);
  }

  lemma InTwo(db: Db, now: int, g: nat, a: nat, b: nat, reason: ClawReason, objectId: string)
    returns (first: Db, twice: Db)
    requires g < |db.txns| && db.txns[g].wallet < |db.wallets|
    ensures first == ClawBack(db, now, g, a, reason, objectId)
    ensures first.txns[g].wallet < |first.wallets| && twice == ClawBack(first, now, g, b, reason, objectId)
    ensures var stock := StockOf(Sweep(db, db.txns[g].wallet, now), g);
      Owed(twice.debts, db.txns[g].wallet)
      == Owed(db.debts, db.txns[g].wallet) + Max(0, a - stock.left - stock.lapsed)
         + Max(0, b - (stock.left - Min(a, stock.left)) - stock.lapsed)
  {
    first := ClawBackOwesTheRest(db, now, g, a, reason, objectId);
    twice := ClawBackStock(first, now, g, b, reason, objectId);
  }

  lemma SplitShortfall(a: int, b: int, left: nat, lapsed: nat)
    requires a > 0 && b > 0
    ensures var split := Max(0, a - left - lapsed) + Max(0, b - (left - Min(a, left)) - lapsed);
      var whole := Max(0, a + b - left - lapsed);
      split <= whole && (split == whole <==> lapsed == 0 || a <= left || a + b <= left + lapsed)
  {
  }

  /** Nothing lapsed, or the first part fits in what is left, or both fit in what is left and lapsed. */
  predicate SplitIsFair(stock: Stock, a: nat, b: nat) {
    stock.lapsed == 0 || a <= stock.left || a + b <= stock.left + stock.lapsed
  }

  /**
   * Two partial clawbacks of a grant owe what one clawback of the sum would owe exactly when nothing of the grant
   * lapsed, or the first fits in what is left of it, or both fit in what is left and lapsed: otherwise lapsed credits
   * are forgiven twice.
   */
  lemma SplitOwesTheSameIff(db: Db, now: int, g: nat, a: nat, b: nat, reason: ClawReason, objectId: string)
    returns (once: Db, first: Db, twice: Db)
    requires g < |db.txns| && db.txns[g].wallet < |db.wallets| && a > 0 && b > 0
    ensures once == ClawBack(db, now, g, a + b, reason, objectId)
    ensures first == ClawBack(db, now, g, a, reason, objectId)
    ensures first.txns[g].wallet < |first.wallets| && twice == ClawBack(first, now, g, b, reason, objectId)
    ensures Owed(twice.debts, db.txns[g].wallet) <= Owed(once.debts, db.txns[g].wallet)
    ensures Owed(twice.debts, db.txns[g].wallet) == Owed(once.debts, db.txns[g].wallet)
      <==> SplitIsFair(StockOf(Sweep(db, db.txns[g].wallet, now), g), a, b)
  {
    var stock := StockOf(Sweep(db, db.txns[g].wallet, now), g);
    once := ClawBackOwesTheRest(db, now, g, a + b, reason, objectId);
    first, twice := InTwo(db, now, g, a, b, reason, objectId);
    SplitShortfall(a, b, stock.left, stock.lapsed);
  }
}
