/** The lot walk: which credits are spent, swept or given back, and what that leaves alive. */
module Lots {
  import opened Sums
  import opened Models

  /** The unspent lots of one wallet that are live at `now`, or past their deadline. */
  datatype Query = Query(wallet: nat, now: int, due: bool) {
    predicate Has(l: Lot) {
      l.wallet == wallet && l.remaining > 0 && due == !Beyond(l.expires, After(now))
    }
  }

  function Live(w: nat, now: int): Query { Query(w, now, false) }

  function Due(w: nat, now: int): Query { Query(w, now, true) }

  /** i comes before j in the consumption order: sooner deadline, then older row. */
  predicate Precedes(lots: seq<Lot>, i: nat, j: nat)
    requires i < |lots| && j < |lots|
  {
    NoLater(lots[i].expires, lots[j].expires) && (NoLater(lots[j].expires, lots[i].expires) ==> i <= j)
  }

  /** The first lot of the query in consumption order. */
  function Soonest(lots: seq<Lot>, q: Query): (r: Option<nat>)
    ensures r.None? ==> forall i | 0 <= i < |lots| :: !q.Has(lots[i])
    ensures r.Some? ==> r.value < |lots| && q.Has(lots[r.value])
    ensures r.Some? ==> forall i | 0 <= i < |lots| && q.Has(lots[i]) :: Precedes(lots, r.value, i)
  {
    if lots == [] then None else
      var k := |lots| - 1;
      var r := Soonest(lots[..k], q);
      if !q.Has(lots[k]) || (r.Some? && NoLater(lots[r.value].expires, lots[k].expires)) then
        assert r.Some? ==> forall i | 0 <= i < k && q.Has(lots[i]) :: Precedes(lots[..k], r.value, i);
        r
      else
        Some(k)
  }

  function Draw(lots: seq<Lot>, i: nat, a: nat): (r: seq<Lot>)
    requires i < |lots| && a <= lots[i].remaining
    ensures Shrinks(lots, r) && |r| == |lots|
  {
    lots[i := lots[i].(remaining := lots[i].remaining - a)]
  }

  lemma DrawCredits(lots: seq<Lot>, i: nat, a: nat, v: nat, c: Cut)
    requires i < |lots| && a <= lots[i].remaining
    ensures Credits(Draw(lots, i, a), v, c)
         == Credits(lots, v, c) - (if lots[i].wallet == v && Beyond(lots[i].expires, c) then a else 0)
  {
    SumUpdate(lots, i, lots[i].(remaining := lots[i].remaining - a), CreditsOf(v, c));
  }

  lemma LotWithin(lots: seq<Lot>, i: nat, c: Cut)
    requires i < |lots| && Beyond(lots[i].expires, c)
    ensures lots[i].remaining <= Credits(lots, lots[i].wallet, c)
  {
    SumNonNegative(lots, CreditsOf(lots[i].wallet, c));
    assert CreditsOf(lots[i].wallet, c)(lots[i]) == lots[i].remaining;
  }

  /** The rows a query returns, in consumption order. */
  function Walk(lots: seq<Lot>, q: Query): (r: seq<nat>)
    ensures forall k | 0 <= k < |r| :: r[k] < |lots| && q.Has(lots[r[k]])
    decreases Sum(lots, CreditsOf(q.wallet, Everything))
  {
    match Soonest(lots, q)
    case None => []
    case Some(i) =>
      var lots' := Draw(lots, i, lots[i].remaining);
      DrawCredits(lots, i, lots[i].remaining, q.wallet, Everything);
      LotWithin(lots, i, Everything);
      var rest := Walk(lots', q);
      assert forall k | 0 <= k < |rest| :: q.Has(lots'[rest[k]]) && rest[k] != i;
      [i] + rest
  }

  /** The walk lists every row of the query, each once, in consumption order. */
  lemma {:induction false} WalkIsTheOrder(lots: seq<Lot>, q: Query)
    ensures forall i | 0 <= i < |lots| :: i in Walk(lots, q) <==> q.Has(lots[i])
    ensures forall j, k | 0 <= j < k < |Walk(lots, q)| ::
              Walk(lots, q)[j] != Walk(lots, q)[k] && Precedes(lots, Walk(lots, q)[j], Walk(lots, q)[k])
    decreases Sum(lots, CreditsOf(q.wallet, Everything))
  {
    match Soonest(lots, q)
    case None =>
    case Some(i) =>
      var lots' := Draw(lots, i, lots[i].remaining);
      DrawCredits(lots, i, lots[i].remaining, q.wallet, Everything);
      LotWithin(lots, i, Everything);
      WalkIsTheOrder(lots', q);
      var rest := Walk(lots', q);
      assert Walk(lots, q) == [i] + rest;
      forall j | 0 <= j < |lots| ensures j in Walk(lots, q) <==> q.Has(lots[j]) {
        if j != i { assert lots'[j] == lots[j]; }
      }
      assert forall k | 0 <= k < |rest| :: q.Has(lots'[rest[k]]) && rest[k] != i;
      forall j, k | 0 <= j < k < |Walk(lots, q)|
        ensures Walk(lots, q)[j] != Walk(lots, q)[k] && Precedes(lots, Walk(lots, q)[j], Walk(lots, q)[k])
      {
        if j > 0 { assert Precedes(lots', rest[j - 1], rest[k - 1]); }
      }
  }

  // ----- Spending -----

  datatype Drawn = Drawn(lots: seq<Lot>, taken: seq<Share>)

  /** `_consume_lots`: n credits out of the live lots, the soonest to expire first. */
  function Consume(lots: seq<Lot>, w: nat, now: int, n: nat): (r: Drawn)
    ensures |r.lots| == |lots|
    decreases n
  {
    if n == 0 then Drawn(lots, []) else
      match Soonest(lots, Live(w, now))
      case None => Drawn(lots, [])
      case Some(i) =>
        var a := Min(n, lots[i].remaining);
        var rest := Consume(Draw(lots, i, a), w, now, n - a);
        Drawn(rest.lots, [Share(i, a)] + rest.taken)
  }

  lemma {:induction false} ConsumeShrinks(lots: seq<Lot>, w: nat, now: int, n: nat)
    ensures Shrinks(lots, Consume(lots, w, now, n).lots)
    decreases n
  {
    if n > 0 {
      match Soonest(lots, Live(w, now))
      case None =>
      case Some(i) =>
        var a := Min(n, lots[i].remaining);
        ConsumeShrinks(Draw(lots, i, a), w, now, n - a);
    }
  }

  /** Spending only shrinks lots, and only lots of its own wallet that are alive now. */
  lemma {:induction false} ConsumeShape(lots: seq<Lot>, w: nat, now: int, n: nat)
    ensures Shrinks(lots, Consume(lots, w, now, n).lots)
    ensures InTable(Consume(lots, w, now, n).taken, lots, w)
    ensures forall s | s in Consume(lots, w, now, n).taken ::
              s.credits > 0 && s.lot < |lots| && Beyond(lots[s.lot].expires, After(now))
    decreases n
  {
    ConsumeShrinks(lots, w, now, n);
    if n > 0 {
      match Soonest(lots, Live(w, now))
      case None =>
      case Some(i) =>
        var a := Min(n, lots[i].remaining);
        ConsumeShape(Draw(lots, i, a), w, now, n - a);
    }
  }

  /** What leaves the lots beyond any cut is what the record says was drawn from lots beyond it. */
  lemma {:induction false} ConsumeMoves(lots: seq<Lot>, w: nat, now: int, n: nat, v: nat, c: Cut)
    ensures Credits(Consume(lots, w, now, n).lots, v, c)
         == Credits(lots, v, c) - (if v == w then Shares(Consume(lots, w, now, n).taken, lots, c) else 0)
    decreases n
  {
    if n > 0 {
      match Soonest(lots, Live(w, now))
      case None =>
      case Some(i) =>
        var a := Min(n, lots[i].remaining);
        var lots' := Draw(lots, i, a);
        var rest := Consume(lots', w, now, n - a);
        assert Consume(lots, w, now, n).lots == rest.lots;
        TakenStep(lots, w, now, n, i, c);
        assert Credits(lots', v, c) == Credits(lots, v, c) - (if v == w then Part(Share(i, a), lots, c) else 0) by {
          DrawCredits(lots, i, a, v, c);
        }
        ConsumeMoves(lots', w, now, n - a, v, c);
    }
  }

  /** The record of a charge weighs its first share and the rest. */
  lemma TakenStep(lots: seq<Lot>, w: nat, now: int, n: nat, i: nat, c: Cut)
    requires n > 0 && Soonest(lots, Live(w, now)) == Some(i)
    ensures var a := Min(n, lots[i].remaining); var lots' := Draw(lots, i, a);
      Shares(Consume(lots, w, now, n).taken, lots, c)
      == Part(Share(i, a), lots, c) + Shares(Consume(lots', w, now, n - a).taken, lots', c)
  {
    var a := Min(n, lots[i].remaining);
    var lots' := Draw(lots, i, a);
    ConsumeShape(lots', w, now, n - a);
    var rest := Consume(lots', w, now, n - a).taken;
    assert Consume(lots, w, now, n).taken == [Share(i, a)] + rest;
    SharesStable(rest, lots, lots', w, c);
    SharesPrepend(Share(i, a), rest, lots, c);
  }

  /** With nothing live to spend there is nothing beyond any cut from now on. */
  lemma NothingLive(lots: seq<Lot>, w: nat, now: int, t: int)
    requires t >= now && Soonest(lots, Live(w, now)).None?
    ensures Credits(lots, w, After(t)) == 0
  {
    SumZero(lots, CreditsOf(w, After(t)));
  }

  /** Covered charges are served in full. */
  lemma {:induction false} ConsumeServes(lots: seq<Lot>, w: nat, now: int, n: nat)
    requires n <= Credits(lots, w, After(now))
    ensures Total(Consume(lots, w, now, n).taken) == n
    decreases n
  {
    if n > 0 {
      match Soonest(lots, Live(w, now))
      case None => NothingLive(lots, w, now, now);
      case Some(i) =>
        var a := Min(n, lots[i].remaining);
        DrawCredits(lots, i, a, w, After(now));
        ConsumeServes(Draw(lots, i, a), w, now, n - a);
        SharesPrepend(Share(i, a), Consume(Draw(lots, i, a), w, now, n - a).taken, [], Everything);
    }
  }

  /** When the soonest live lot outlives t, every live lot does. */
  lemma SoonestBounds(lots: seq<Lot>, w: nat, now: int, t: int, i: nat)
    requires t >= now && Soonest(lots, Live(w, now)) == Some(i)
    ensures Beyond(lots[i].expires, After(t)) ==> Credits(lots, w, After(t)) == Credits(lots, w, After(now))
    ensures !Beyond(lots[i].expires, After(t)) ==>
              Credits(lots, w, After(t)) + lots[i].remaining <= Credits(lots, w, After(now))
  {
    if Beyond(lots[i].expires, After(t)) {
      SumSame(lots, CreditsOf(w, After(t)), lots, CreditsOf(w, After(now)));
    } else {
      var a := lots[i].remaining;
      DrawCredits(lots, i, a, w, After(t));
      DrawCredits(lots, i, a, w, After(now));
      CreditsLater(Draw(lots, i, a), w, now, t);
    }
  }

  /** The key step: a charge of n turns live(t) into min(live(t), live(now) - n), for every t from now on. */
  lemma {:induction false} ConsumeProfile(lots: seq<Lot>, w: nat, now: int, n: nat, t: int)
    requires t >= now && n <= Credits(lots, w, After(now))
    ensures Credits(Consume(lots, w, now, n).lots, w, After(t))
         == Min(Credits(lots, w, After(t)), Credits(lots, w, After(now)) - n)
    decreases n
  {
    CreditsLater(lots, w, now, t);
    if n > 0 {
      match Soonest(lots, Live(w, now))
      case None => NothingLive(lots, w, now, now);
      case Some(i) =>
        var a := Min(n, lots[i].remaining);
        SoonestBounds(lots, w, now, t, i);
        DrawCredits(lots, i, a, w, After(t));
        DrawCredits(lots, i, a, w, After(now));
        ConsumeProfile(Draw(lots, i, a), w, now, n - a, t);
    }
  }

  // ----- Giving back -----

  /** Every lot a charge draws from had credits. */
  lemma {:induction false} ConsumeDrawsLive(lots: seq<Lot>, w: nat, now: int, n: nat)
    ensures forall s | s in Consume(lots, w, now, n).taken :: s.lot < |lots| && Live(w, now).Has(lots[s.lot])
    decreases n
  {
    if n > 0 {
      match Soonest(lots, Live(w, now))
      case None =>
      case Some(i) =>
        ConsumeDrawsLive(Draw(lots, i, Min(n, lots[i].remaining)), w, now, n - Min(n, lots[i].remaining));
    }
  }

  predicate Located(allocs: seq<Share>, lots: seq<Lot>) {
    forall k | 0 <= k < |allocs| :: allocs[k].lot < |lots|
  }

  ghost predicate ByDeadline(allocs: seq<Share>, lots: seq<Lot>) {
    && Located(allocs, lots)
    && forall j, k | 0 <= j < k < |allocs| :: NoLater(lots[allocs[j].lot].expires, lots[allocs[k].lot].expires)
  }

  lemma AfterSoonest(lots: seq<Lot>, w: nat, now: int, i: nat, a: nat, j: nat)
    requires Soonest(lots, Live(w, now)) == Some(i) && a <= lots[i].remaining
    requires j < |lots| && Live(w, now).Has(Draw(lots, i, a)[j])
    ensures NoLater(lots[i].expires, lots[j].expires)
  {
    assert Live(w, now).Has(lots[j]);
  }

  /** A charge draws from its lots in deadline order. */
  lemma {:induction false} ConsumeByDeadline(lots: seq<Lot>, w: nat, now: int, n: nat)
    ensures ByDeadline(Consume(lots, w, now, n).taken, lots)
    decreases n
  {
    if n > 0 {
      match Soonest(lots, Live(w, now))
      case None =>
      case Some(i) =>
        var a := Min(n, lots[i].remaining);
        ConsumeByDeadline(Draw(lots, i, a), w, now, n - a);
        ConsumeDrawsLive(Draw(lots, i, a), w, now, n - a);
        var rest := Consume(Draw(lots, i, a), w, now, n - a).taken;
        forall s | s in rest ensures NoLater(lots[i].expires, lots[s.lot].expires) {
          AfterSoonest(lots, w, now, i, a, s.lot);
        }
        FrontByDeadline(Share(i, a), rest, Draw(lots, i, a), lots);
    }
  }

  lemma FrontByDeadline(s: Share, rest: seq<Share>, lots': seq<Lot>, lots: seq<Lot>)
    requires Shrinks(lots, lots') && |lots| == |lots'| && ByDeadline(rest, lots') && s.lot < |lots|
    requires forall r | r in rest :: NoLater(lots[s.lot].expires, lots[r.lot].expires)
    ensures ByDeadline([s] + rest, lots)
  {
    var all := [s] + rest;
    forall j, k | 0 <= j < k < |all| ensures NoLater(lots[all[j].lot].expires, lots[all[k].lot].expires) {
      assert all[k] == rest[k - 1] && rest[k - 1] in rest;
      assert j > 0 ==> NoLater(lots'[rest[j - 1].lot].expires, lots'[rest[k - 1].lot].expires);
    }
  }

  datatype Refunded = Refunded(lots: seq<Lot>, allocs: seq<Share>)

  function ReturnLot(lots: seq<Lot>, w: nat, origin: nat, n: nat): Lot
    requires origin < |lots|
  {
    Lot(w, HoldRelease, n, n, lots[origin].expires, lots[origin].grant)
  }

  /** One step of the refund: a credits of allocation j come back as a lot with the deadline they had. */
  function Return(lots: seq<Lot>, w: nat, allocs: seq<Share>, j: nat, a: nat): (r: Refunded)
    requires Located(allocs, lots) && j < |allocs| && a <= allocs[j].credits
    ensures Extends(lots, r.lots) && Located(r.allocs, r.lots) && |r.allocs| == |allocs|
  {
    Refunded(if a == 0 then lots else lots + [ReturnLot(lots, w, allocs[j].lot, a)],
             allocs[j := Share(allocs[j].lot, allocs[j].credits - a)])
  }

  /** `_refund_allocations`: n credits back, walking the first k allocations newest first. */
  function Refund(lots: seq<Lot>, w: nat, allocs: seq<Share>, k: nat, n: nat): (r: Refunded)
    requires Located(allocs, lots) && k <= |allocs|
    ensures |r.allocs| == |allocs|
    decreases k
  {
    if k == 0 || n == 0 then Refunded(lots, allocs) else
      var a := Min(n, allocs[k - 1].credits);
      var step := Return(lots, w, allocs, k - 1, a);
      Refund(step.lots, w, step.allocs, k - 1, n - a)
  }

  lemma AppendCredits(lots: seq<Lot>, l: Lot, v: nat, c: Cut)
    ensures Credits(lots + [l], v, c)
         == Credits(lots, v, c) + (if l.wallet == v && Beyond(l.expires, c) then l.remaining else 0)
  {
    SumAppend(lots, l, CreditsOf(v, c));
  }

  lemma ReturnMoves(lots: seq<Lot>, w: nat, allocs: seq<Share>, j: nat, a: nat, v: nat, c: Cut)
    requires Located(allocs, lots) && j < |allocs| && a <= allocs[j].credits
    ensures var r := Return(lots, w, allocs, j, a); var part := Part(Share(allocs[j].lot, a), lots, c);
      && Shares(r.allocs, r.lots, c) == Shares(allocs, lots, c) - part
      && Credits(r.lots, v, c) == Credits(lots, v, c) + (if v == w then part else 0)
  {
    var r := Return(lots, w, allocs, j, a);
    AppendCredits(lots, ReturnLot(lots, w, allocs[j].lot, a), v, c);
    SumUpdate(allocs, j, r.allocs[j], ShareBeyond(lots, c));
    SharesGrow(r.allocs, lots, r.lots, c);
  }

  /** Refunds only append lots, and leave every allocation on its lot. */
  lemma {:induction false} RefundShape(lots: seq<Lot>, w: nat, allocs: seq<Share>, k: nat, n: nat)
    requires Located(allocs, lots) && k <= |allocs|
    ensures var r := Refund(lots, w, allocs, k, n); Extends(lots, r.lots) && Located(r.allocs, r.lots)
    ensures forall j | 0 <= j < |allocs| :: Refund(lots, w, allocs, k, n).allocs[j].lot == allocs[j].lot
    decreases k
  {
    if k > 0 && n > 0 {
      var a := Min(n, allocs[k - 1].credits);
      var step := Return(lots, w, allocs, k - 1, a);
      RefundShape(step.lots, w, step.allocs, k - 1, n - a);
    }
  }

  /** Refunds move credits from the allocations back to lots with the same deadline, for every cut. */
  lemma {:induction false} RefundMoves(lots: seq<Lot>, w: nat, allocs: seq<Share>, k: nat, n: nat, v: nat, c: Cut)
    requires Located(allocs, lots) && k <= |allocs|
    ensures var r := Refund(lots, w, allocs, k, n);
      Credits(r.lots, v, c) - Credits(lots, v, c)
        == if v == w then Shares(allocs, lots, c) - Shares(r.allocs, r.lots, c) else 0
    decreases k
  {
    if k > 0 && n > 0 {
      var a := Min(n, allocs[k - 1].credits);
      var step := Return(lots, w, allocs, k - 1, a);
      ReturnMoves(lots, w, allocs, k - 1, a, v, c);
      RefundMoves(step.lots, w, step.allocs, k - 1, n - a, v, c);
    }
  }

  /** What the first k allocations hold beyond a cut. */
  function FirstShares(allocs: seq<Share>, lots: seq<Lot>, c: Cut, k: nat): int
    requires k <= |allocs|
  {
    SumTo(allocs, ShareBeyond(lots, c), k)
  }

  lemma FirstSharesSame(allocs: seq<Share>, lots: seq<Lot>, allocs': seq<Share>, lots': seq<Lot>, c: Cut, k: nat)
    requires Located(allocs, lots) && Extends(lots, lots') && k <= |allocs| == |allocs'|
    requires forall j | 0 <= j < k :: allocs'[j] == allocs[j]
    ensures FirstShares(allocs', lots', c, k) == FirstShares(allocs, lots, c, k)
  {
    SumToSame(allocs', ShareBeyond(lots', c), allocs, ShareBeyond(lots, c), k);
  }

  /** Of allocations in deadline order, none before one that falls within the cut outlives it. */
  lemma FirstSharesWithin(allocs: seq<Share>, lots: seq<Lot>, c: Cut, k: nat)
    requires ByDeadline(allocs, lots) && k <= |allocs|
    ensures FirstShares(allocs, lots, c, k) >= 0
    ensures k < |allocs| && !Beyond(lots[allocs[k].lot].expires, c) ==> FirstShares(allocs, lots, c, k) == 0
  {
    SumToNonNegative(allocs, ShareBeyond(lots, c), k);
    if k < |allocs| && !Beyond(lots[allocs[k].lot].expires, c) {
      SumToZero(allocs, ShareBeyond(lots, c), k);
    }
  }

  /** One step of a refund, beyond a cut. */
  lemma ReturnProfile(lots: seq<Lot>, w: nat, allocs: seq<Share>, j: nat, a: nat, c: Cut)
    requires ByDeadline(allocs, lots) && j < |allocs| && a <= allocs[j].credits
    ensures var step := Return(lots, w, allocs, j, a); var alive := Beyond(lots[allocs[j].lot].expires, c);
      && ByDeadline(step.allocs, step.lots)
      && Shares(step.allocs, step.lots, c) == Shares(allocs, lots, c) - (if alive then a else 0)
      && FirstShares(step.allocs, step.lots, c, j) == FirstShares(allocs, lots, c, j) >= 0
      && FirstShares(allocs, lots, c, j + 1)
         == FirstShares(allocs, lots, c, j) + (if alive then allocs[j].credits else 0)
      && (!alive ==> FirstShares(allocs, lots, c, j) == 0)
  {
    var step := Return(lots, w, allocs, j, a);
    ReturnMoves(lots, w, allocs, j, a, w, c);
    FirstSharesSame(allocs, lots, step.allocs, step.lots, c, j);
    FirstSharesWithin(allocs, lots, c, j);
  }

  /** Taking n first from a share and then from the ones before it takes n from all of them, as far as they are alive. */
  lemma LatestFirst(n: nat, share: nat, before: int, alive: bool)
    requires before >= 0 && (!alive ==> before == 0)
    ensures var a := Min(n, share);
      (if alive then a else 0) + Min(n - a, before) == Min(n, before + (if alive then share else 0))
  {
  }

  /** Refunding a reservation made in deadline order gives back the latest deadlines first. */
  lemma {:induction false} RefundProfile(lots: seq<Lot>, w: nat, allocs: seq<Share>, k: nat, n: nat, c: Cut)
    returns (r: Refunded)
    requires Located(allocs, lots) && k <= |allocs| && ByDeadline(allocs, lots)
    ensures r == Refund(lots, w, allocs, k, n)
    ensures Shares(r.allocs, r.lots, c) == Shares(allocs, lots, c) - Min(n, FirstShares(allocs, lots, c, k))
    decreases k
  {
    if k == 0 || n == 0 {
      r := Refunded(lots, allocs);
      FirstSharesWithin(allocs, lots, c, k);
    } else {
      var a := Min(n, allocs[k - 1].credits);
      var step := Return(lots, w, allocs, k - 1, a);
      ReturnProfile(lots, w, allocs, k - 1, a, c);
      r := RefundProfile(step.lots, w, step.allocs, k - 1, n - a, c);
      LatestFirst(n, allocs[k - 1].credits, FirstShares(allocs, lots, c, k - 1), Beyond(lots[allocs[k - 1].lot].expires, c));
    }
  }

  /** A refund within the reservation takes exactly n off it. */
  lemma RefundServes(lots: seq<Lot>, w: nat, allocs: seq<Share>, n: nat)
    requires Located(allocs, lots) && n <= Total(allocs)
    ensures Total(Refund(lots, w, allocs, |allocs|, n).allocs) == Total(allocs) - n
  {
    RefundTakes(lots, w, allocs, |allocs|, n);
  }

  lemma {:induction false} RefundTakes(lots: seq<Lot>, w: nat, allocs: seq<Share>, k: nat, n: nat)
    requires Located(allocs, lots) && k <= |allocs| && n <= FirstShares(allocs, [], Everything, k)
    ensures Total(Refund(lots, w, allocs, k, n).allocs) == Total(allocs) - n
    decreases k
  {
    if k > 0 && n > 0 {
      var a := Min(n, allocs[k - 1].credits);
      var step := Return(lots, w, allocs, k - 1, a);
      SumUpdate(allocs, k - 1, step.allocs[k - 1], ShareBeyond([], Everything));
      SumToSame(step.allocs, ShareBeyond([], Everything), allocs, ShareBeyond([], Everything), k - 1);
      SumToNonNegative(allocs, ShareBeyond([], Everything), k - 1);
      RefundTakes(step.lots, w, step.allocs, k - 1, n - a);
    }
  }
}
