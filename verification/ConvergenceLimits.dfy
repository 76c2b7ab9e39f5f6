/** Where the order of delivery still shows: parked deletions, parked ties, unknown words and parked periods. */
module ConvergenceLimits {
  import opened Models
  import opened Subscriptions
  import opened Convergence

  /** The unique constraints hold through every delivery: an event adopts no taken id, a checkout is refused whole. */
  lemma ConstraintsKept(book: Book, d: Delivery)
    requires UniqueIds(book.rows)
    ensures UniqueIds(Deliver(book, d).rows)
  {
    match d
    case Notified(n, gone, now) => NoticeConstraints(book, n, gone, now);
    case Paid(s) => CheckoutConstraints(book, s);
  }

  lemma NoticeConstraints(book: Book, n: Notice, gone: bool, now: int)
    requires UniqueIds(book.rows)
    ensures UniqueIds(HandleNotice(book, n, gone, now).book.rows)
  {
    ResolveUnique(book.rows, n);
    var found := Resolve(book.rows, n);
    if found.i.Some? {
      SameIdsUnique(found.rows, found.i.value, Written(found.rows[found.i.value], n, gone, now));
    }
  }

  lemma SameIdsUnique(rows: seq<Sub>, i: nat, row: Sub)
    requires UniqueIds(rows) && i < |rows|
    requires row.user == rows[i].user && row.subId == rows[i].subId && row.customer == rows[i].customer
    ensures UniqueIds(rows[i := row])
  {
  }

  lemma CheckoutConstraints(book: Book, s: Session)
    requires UniqueIds(book.rows)
    ensures UniqueIds(HandleCheckout(book, s).book.rows)
  {
    var rows := Sold(book, s);
    if UniqueIds(rows) && s.id != "" && s.id !in book.sessions {
      var i := match Find(book.rows, ByUser(s.user)) case Some(k) => k case None => |book.rows|;
      var sold := Book(rows, book.pending, book.sessions + {s.id});
      SameIdsUnique(rows, i, ApplyPending(sold, i).rows[i]);
    }
  }

  /** The clock of every row only moves forward, whatever is delivered. */
  lemma ClockNeverFalls(book: Book, d: Delivery, i: nat)
    requires i < |book.rows|
    ensures var r := Deliver(book, d); i < |r.rows| && Onward(book.rows[i], r.rows[i])
  {
    match d
    case Notified(n, gone, now) => NoticeClock(book, n, gone, now, i);
    case Paid(s) => PaidClock(book, s, i);
  }

  ghost predicate Onward(row: Sub, row': Sub) {
    row'.user == row.user && (row.clock.Some? ==> row'.clock.Some? && row'.clock.value >= row.clock.value)
  }

  lemma NoticeClock(book: Book, n: Notice, gone: bool, now: int, i: nat)
    requires i < |book.rows|
    ensures Onward(book.rows[i], HandleNotice(book, n, gone, now).book.rows[i])
  {
    assert Onward(book.rows[i], Resolve(book.rows, n).rows[i]);
  }

  lemma PaidClock(book: Book, s: Session, i: nat)
    requires i < |book.rows|
    ensures var r := HandleCheckout(book, s).book; i < |r.rows| && Onward(book.rows[i], r.rows[i])
  {
    SoldClock(book, s, i);
  }

  lemma SoldClock(book: Book, s: Session, i: nat)
    requires i < |book.rows|
    ensures i < |Sold(book, s)| && Onward(book.rows[i], Sold(book, s)[i])
  {
  }

  lemma InTurn(book: Book, a: Delivery, b: Delivery)
    ensures DeliverAll(book, [a, b]) == Deliver(Deliver(book, a), b)
  {
    assert [a, b][..1] == [a] && [a][..0] == [];
    assert DeliverAll(book, [a]) == Deliver(book, a);
  }

  /** A subject nobody has heard of: no row, nothing parked, and this checkout not yet claimed. */
  ghost predicate Unheard(book: Book, s: Session, who: Subject) {
    && UniqueIds(book.rows) && RowOf(book, who).None? && who.subId != "" && who.subId !in book.pending
    && (forall i | 0 <= i < |book.rows| :: !IsOurs(book.rows[i], who))
    && s.id != "" && s.id !in book.sessions && s.at.Some?
    && s.subId == who.subId && s.user == who.user && s.customer == who.customer
  }

  /** A stamped event of the subject. */
  ghost predicate Concerns(n: Notice, who: Subject) { Concerning(n, who) && n.at.Some? }

  function StatusOf(book: Book, who: Subject): Option<Lifecycle> {
    match RowOf(book, who) case Some(i) => Some(book.rows[i].status) case None => None
  }

  /** What the first checkout of an unheard subject leaves. */
  lemma FirstCheckout(book: Book, s: Session, who: Subject)
    requires Unheard(book, s, who)
    ensures var r := HandleCheckout(book, s).book;
      && RowOf(r, who) == Some(|book.rows|) && r.rows[|book.rows|].subId == who.subId
      && r.rows[|book.rows|].status == Active && r.rows[|book.rows|].clock == s.at
      && r.pending == book.pending && r.rows[..|book.rows|] == book.rows && |r.rows| == |book.rows| + 1
  {
    var rows := Sold(book, s);
    assert rows == book.rows + [CheckedOut(NewSub(s.user), s)];
    assert UniqueIds(rows);
    assert ByUser(who.user).Leads(rows[|book.rows|]);
    var r := HandleCheckout(book, s).book;
    assert r.rows == rows;
  }

  /** An event after the checkout lands on the row by its subscription id. */
  lemma LandsOnRow(book: Book, i: nat, n: Notice, gone: bool, now: int, who: Subject)
    requires UniqueIds(book.rows) && RowOf(book, who) == Some(i) && book.rows[i].subId == who.subId
    requires Concerns(n, who) && who.subId != ""
    ensures var r := HandleNotice(book, n, gone, now).book;
      r == book.(rows := book.rows[i := Written(book.rows[i], n, gone, now)]) && RowOf(r, who) == Some(i)
  {
    var linked := Find(book.rows, BySub(n.subId));
    assert BySub(n.subId).Leads(book.rows[i]) && linked == Some(i);
    var r := HandleNotice(book, n, gone, now).book;
    assert ByUser(who.user).Leads(r.rows[i]);
  }

  /** An event before the checkout is parked, and the checkout takes it over. */
  lemma ParkedThenSold(book: Book, n: Notice, s: Session, who: Subject)
    requires Unheard(book.(pending := book.pending - {who.subId}), s, who) && Concerns(n, who)
    requires n.at.value > s.at.value
    requires who.subId in book.pending ==> book.pending[who.subId].at == n.at
    ensures Resolve(book.rows, n).i.None? && Stash(book, n).pending.Keys == book.pending.Keys + {who.subId}
    ensures var r := HandleCheckout(Stash(book, n), s).book;
      StatusOf(r, who) == Some(StatusOr(n.status, Active))
  {
    var parked := Stash(book, n);
    assert parked.pending[who.subId].status == n.status && parked.pending[who.subId].at == n.at;
    var rows := Sold(parked, s);
    assert rows == book.rows + [CheckedOut(NewSub(s.user), s)];
    assert UniqueIds(rows);
    var r := HandleCheckout(parked, s).book;
    assert r == ApplyPending(Book(rows, parked.pending, parked.sessions + {s.id}), |book.rows|);
    assert ByUser(who.user).Leads(r.rows[|book.rows|]);
  }

  /**
   * A deletion newer than the checkout leaves the same status in both orders exactly when its payload says canceled:
   * on a row a deletion is a deletion, but the stash keeps only the word the payload carried.
   */
  lemma ParkedDeletionIff(book: Book, n: Notice, s: Session, now: int, who: Subject)
    requires Unheard(book, s, who) && Concerns(n, who) && n.at.value > s.at.value
    ensures StatusOf(DeliverAll(book, [Paid(s), Notified(n, true, now)]), who) == Some(Cancelled)
    ensures StatusOf(DeliverAll(book, [Notified(n, true, now), Paid(s)]), who) == Some(Cancelled)
      <==> n.status == "canceled"
  {
    SoldThenDeleted(book, n, s, now, who);
    DeletedThenSold(book, n, s, now, who);
    CancelledWord(n.status);
  }

  lemma CancelledWord(raw: string)
    ensures StatusOr(raw, Active) == Cancelled <==> raw == "canceled"
  {
  }

  lemma SoldThenDeleted(book: Book, n: Notice, s: Session, now: int, who: Subject)
    requires Unheard(book, s, who) && Concerns(n, who) && n.at.value > s.at.value
    ensures StatusOf(DeliverAll(book, [Paid(s), Notified(n, true, now)]), who) == Some(Cancelled)
  {
    InTurn(book, Paid(s), Notified(n, true, now));
    FirstCheckout(book, s, who);
    var sold := HandleCheckout(book, s).book;
    assert UniqueIds(sold.rows);
    LandsOnRow(sold, |book.rows|, n, true, now, who);
  }

  lemma DeletedThenSold(book: Book, n: Notice, s: Session, now: int, who: Subject)
    requires Unheard(book, s, who) && Concerns(n, who) && n.at.value > s.at.value
    ensures StatusOf(DeliverAll(book, [Notified(n, true, now), Paid(s)]), who) == Some(StatusOr(n.status, Active))
  {
    InTurn(book, Notified(n, true, now), Paid(s));
    assert book.pending - {who.subId} == book.pending;
    ParkedThenSold(book, n, s, who);
  }

  const NO_ROWS := Book([], map[], {})
  const OURS := Subject(7, "sub", "")

  lemma OursIsUnheard()
    ensures Unheard(NO_ROWS, SOLD, OURS)
  {
  }

  /** A deletion whose payload still says active, parked before the checkout: one order cancels, the other does not. */
  lemma AParkedDeletionIsLost()
    ensures var gone := Notified(Notice(Some(5), "sub", "", Some(7), "active", None, None, None, None), true, 6);
      && StatusOf(DeliverAll(NO_ROWS, [Paid(SOLD), gone]), OURS) == Some(Cancelled)
      && StatusOf(DeliverAll(NO_ROWS, [gone, Paid(SOLD)]), OURS) != Some(Cancelled)
  {
    OursIsUnheard();
    ParkedDeletionIff(NO_ROWS, Notice(Some(5), "sub", "", Some(7), "active", None, None, None, None), SOLD, 6, OURS);
  }

  /**
   * Two events of one provider second, parked before the checkout, leave the same status in both orders exactly when
   * they carry the same status: the last one delivered wins, whatever its rank.
   */
  lemma ParkedTieIff(book: Book, a: Notice, b: Notice, s: Session, now: int, who: Subject)
    requires Unheard(book, s, who) && Concerns(a, who) && Concerns(b, who)
    requires a.at == b.at && a.at.value > s.at.value
    ensures var ab := DeliverAll(book, [Notified(a, false, now), Notified(b, false, now), Paid(s)]);
      var ba := DeliverAll(book, [Notified(b, false, now), Notified(a, false, now), Paid(s)]);
      && StatusOf(ab, who) == Some(StatusOr(b.status, Active))
      && (StatusOf(ab, who) == StatusOf(ba, who) <==> StatusOr(a.status, Active) == StatusOr(b.status, Active))
  {
    TwoParked(book, a, b, s, now, who);
    TwoParked(book, b, a, s, now, who);
  }

  /** Active and past_due of one second, parked: the order of delivery decides. */
  lemma AParkedTieGoesByDelivery()
    ensures var a := Notified(Notice(Some(5), "sub", "", Some(7), "active", None, None, None, None), false, 6);
      var b := Notified(Notice(Some(5), "sub", "", Some(7), "past_due", None, None, None, None), false, 6);
      StatusOf(DeliverAll(NO_ROWS, [a, b, Paid(SOLD)]), OURS) != StatusOf(DeliverAll(NO_ROWS, [b, a, Paid(SOLD)]), OURS)
  {
    OursIsUnheard();
    ParkedTieIff(NO_ROWS, Notice(Some(5), "sub", "", Some(7), "active", None, None, None, None),
                 Notice(Some(5), "sub", "", Some(7), "past_due", None, None, None, None), SOLD, 6, OURS);
  }

  lemma TwoParked(book: Book, a: Notice, b: Notice, s: Session, now: int, who: Subject)
    requires Unheard(book, s, who) && Concerns(a, who) && Concerns(b, who)
    requires a.at == b.at && a.at.value > s.at.value
    ensures StatusOf(DeliverAll(book, [Notified(a, false, now), Notified(b, false, now), Paid(s)]), who)
         == Some(StatusOr(b.status, Active))
  {
    ThreeInTurn(book, Notified(a, false, now), Notified(b, false, now), Paid(s));
    assert book.pending - {who.subId} == book.pending;
    ParkedThenSold(book, a, s, who);
    var once := Stash(book, a);
    assert once.pending - {who.subId} == book.pending;
    ParkedThenSold(once, b, s, who);
  }

  /** On a linked row the same two events leave the more advanced status in either order. */
  lemma RowTieGoesByRank(row: Sub, a: Notice, b: Notice)
    requires a.at.Some? && a.at == b.at && (row.clock.Some? ==> row.clock.value < a.at.value)
    requires MapStatus(a.status).Some? && MapStatus(b.status).Some?
    requires Rank(MapStatus(a.status).value) <= Rank(MapStatus(b.status).value)
    ensures var first := Updated(row, a);
      !Stale(first, b.at, b.status) && Updated(first, b).status == MapStatus(b.status).value
    ensures var first := Updated(row, b);
      Stale(first, a.at, a.status) || Updated(first, a).status == first.status == MapStatus(b.status).value
  {
  }

  /** After an update of a row, or not when it is stale. */
  function Offer(row: Sub, n: Notice): Sub { if Stale(row, n.at, n.status) then row else Updated(row, n) }

  /** An unknown word newer than a known one: both orders agree exactly when the row held the known status already. */
  lemma UnknownWordIff(row: Sub, known: Notice, unknown: Notice)
    requires known.at.Some? && unknown.at.Some? && known.at.value < unknown.at.value
    requires row.clock.Some? ==> row.clock.value < known.at.value
    requires MapStatus(known.status).Some? && MapStatus(unknown.status).None?
    ensures Offer(Offer(row, known), unknown).clock == Offer(Offer(row, unknown), known).clock
    ensures Offer(Offer(row, known), unknown).status == Offer(Offer(row, unknown), known).status
      <==> row.status == MapStatus(known.status).value
  {
  }

  /** An active row, past_due at 5 and a word nobody knows at 6: delivered the other way round it stays active. */
  lemma AnUnknownWordKeepsTheOldStatus()
    ensures var row := FREE_PLAN.rows[0];
      var known := Notice(Some(5), "sub", "", Some(7), "past_due", None, None, None, None);
      var unknown := Notice(Some(6), "sub", "", Some(7), "frozen", None, None, None, None);
      Offer(Offer(row, known), unknown).status == PastDue && Offer(Offer(row, unknown), known).status == Active
  {
    UnknownWordIff(FREE_PLAN.rows[0], Notice(Some(5), "sub", "", Some(7), "past_due", None, None, None, None),
                   Notice(Some(6), "sub", "", Some(7), "frozen", None, None, None, None));
  }

  /**
   * Parked periods are applied even when the parked status is stale: two orders of the same two events and checkout
   * leave one row with two different period ends, status and clock agreeing.
   */
  lemma PeriodsDoNotConverge()
    ensures var ds := [Notified(EARLY, false, 0), Notified(LATE, false, 0), Paid(SOLD)];
      var ds' := [Paid(SOLD), Notified(EARLY, false, 0), Notified(LATE, false, 0)];
      var who := Subject(7, "sub", "");
      && NewsOf(DeliverAll(FREE_PLAN, ds), who) == NewsOf(DeliverAll(FREE_PLAN, ds'), who) == Some(News(Active, Some(9)))
      && DeliverAll(FREE_PLAN, ds).rows[0].end == Some(200)
      && DeliverAll(FREE_PLAN, ds').rows[0].end == Some(300)
  {
    ThreeInTurn(FREE_PLAN, Notified(EARLY, false, 0), Notified(LATE, false, 0), Paid(SOLD));
    ThreeInTurn(FREE_PLAN, Paid(SOLD), Notified(EARLY, false, 0), Notified(LATE, false, 0));
    ParkedFirst();
    CheckoutFirst();
  }

  const FREE_PLAN := Book([Sub(Some(7), "free", Active, "", "", None, None, None, false, None)], map[], {})
  const EARLY := Notice(Some(5), "sub", "", None, "active", Some(100), Some(200), None, None)
  const LATE := Notice(Some(9), "sub", "", Some(7), "active", Some(200), Some(300), None, None)
  const SOLD := Session(Some(1), "cs", 7, "pro", "", "sub")

  lemma ParkedFirst()
    ensures var r := Deliver(Deliver(Deliver(FREE_PLAN, Notified(EARLY, false, 0)), Notified(LATE, false, 0)), Paid(SOLD));
      NewsOf(r, Subject(7, "sub", "")) == Some(News(Active, Some(9))) && r.rows[0].end == Some(200)
  {
    assert Find(FREE_PLAN.rows, BySub("sub")).None? && Find(FREE_PLAN.rows, ByUser(7)) == Some(0);
    var parked := Deliver(FREE_PLAN, Notified(EARLY, false, 0));
    assert parked.rows == FREE_PLAN.rows && parked.pending["sub"].end == Some(200);
    var adopted := Deliver(parked, Notified(LATE, false, 0));
    assert adopted.rows[0].clock == Some(9) && adopted.pending == parked.pending;
  }

  lemma CheckoutFirst()
    ensures var r := Deliver(Deliver(Deliver(FREE_PLAN, Paid(SOLD)), Notified(EARLY, false, 0)), Notified(LATE, false, 0));
      NewsOf(r, Subject(7, "sub", "")) == Some(News(Active, Some(9))) && r.rows[0].end == Some(300)
  {
    var linked := Deliver(FREE_PLAN, Paid(SOLD));
    assert linked.rows[0].subId == "sub" && linked.rows[0].clock == Some(1);
    var early := Deliver(linked, Notified(EARLY, false, 0));
    assert early.rows[0].clock == Some(5) && early.rows[0].subId == "sub";
  }

  lemma ThreeInTurn(book: Book, a: Delivery, b: Delivery, c: Delivery)
    ensures DeliverAll(book, [a, b, c]) == Deliver(Deliver(Deliver(book, a), b), c)
  {
    assert [a, b, c][..2] == [a, b];
    InTurn(book, a, b);
  }
}
