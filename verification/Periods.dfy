/** Which billing period a row shows: a parked period is applied even when it is older than what the row has seen. */
module Periods {
  import opened Sums
  import opened Models
  import opened Subscriptions
  import opened Convergence
  import opened ConvergenceLimits

  datatype Period = Period(start: int, end: int)

  /** The billing period the provider announced at each instant an event was stamped. */
  type Calendar = map<int, Period>

  ghost predicate Dated(at: Option<int>, start: Option<int>, end: Option<int>, cal: Calendar) {
    at.Some? && at.value in cal && start == Some(cal[at.value].start) && end == Some(cal[at.value].end)
  }

  /** A stamped event of the subject whose status and period are the provider's at that instant, or the checkout. */
  ghost predicate Announces(d: Delivery, s: Session, who: Subject, truth: History, cal: Calendar) {
    match d
    case Notified(n, gone, _) =>
      && Concerning(n, who) && Reports(n.at, n.status, truth) && Dated(n.at, n.start, n.end, cal)
      && (gone ==> n.status == "canceled")
    case Paid(paid) => paid == s
  }

  ghost predicate Announced(ds: seq<Delivery>, s: Session, who: Subject, truth: History, cal: Calendar) {
    forall d | d in ds :: Announces(d, s, who, truth, cal)
  }

  ghost predicate SoldTo(s: Session, who: Subject) {
    && s.id != "" && who.subId != "" && s.subId == who.subId && s.user == who.user && s.customer == who.customer
    && s.at.Some?
  }

  ghost predicate RowSays(row: Sub, truth: History, cal: Calendar) {
    row.clock.Some? ==>
      row.clock.value in truth && row.status == truth[row.clock.value] && Dated(row.clock, row.start, row.end, cal)
  }

  /** Before the checkout: row and stash each say what the provider said at their own instant. */
  ghost predicate Waiting(book: Book, who: Subject, truth: History, cal: Calendar) {
    && UniqueIds(book.rows) && OursOnly(book.rows, who)
    && (RowOf(book, who).Some? ==> RowSays(book.rows[RowOf(book, who).value], truth, cal))
    && (who.subId in book.pending ==>
          var p := book.pending[who.subId];
          Reports(p.at, p.status, truth) && Dated(p.at, p.start, p.end, cal))
  }

  /** An event the row does not know more of: newer than the checkout, or as new and no less advanced than active. */
  predicate NotOlder(t: int, c: int, truth: History) {
    t > c || (t == c && t in truth && Rank(truth[t]) >= Rank(Active))
  }

  /** The period the subject's row shows. */
  function ShownOf(book: Book, who: Subject): (Option<int>, Option<int>) {
    match RowOf(book, who) case Some(i) => (book.rows[i].start, book.rows[i].end) case None => (None, None)
  }

  // ----- Before the checkout -----

  lemma ParkStep(book: Book, n: Notice, who: Subject, truth: History, cal: Calendar)
    requires Waiting(book, who, truth, cal) && n.subId == who.subId
    requires Reports(n.at, n.status, truth) && Dated(n.at, n.start, n.end, cal)
    ensures var r := Stash(book, n);
      Waiting(r, who, truth, cal) && r.rows == book.rows && ParkedAt(r, who) == Later(ParkedAt(book, who), n.at)
  {
  }

  lemma LandStep(book: Book, n: Notice, gone: bool, now: int, who: Subject, truth: History, cal: Calendar, i: nat)
    requires Waiting(book, who, truth, cal) && RowOf(book, who) == Some(i) && (gone ==> n.status == "canceled")
    requires Reports(n.at, n.status, truth) && Dated(n.at, n.start, n.end, cal)
    ensures var r := book.(rows := book.rows[i := Written(book.rows[i], n, gone, now)]);
      Waiting(r, who, truth, cal) && RowClock(r, who) == Later(RowClock(book, who), n.at) != None
  {
    var row := Written(book.rows[i], n, gone, now);
    SameIdsUnique(book.rows, i, row);
    TheUsersRow(book.rows[i := row], i, who.user);
    assert RowSays(row, truth, cal);
  }

  /** Adopting ids moves no period. */
  lemma AdoptWaits(book: Book, n: Notice, who: Subject, truth: History, cal: Calendar)
    requires Waiting(book, who, truth, cal) && Concerning(n, who)
    ensures var r := Resolve(book.rows, n); var book' := book.(rows := r.rows);
      && Waiting(book', who, truth, cal) && RowClock(book', who) == RowClock(book, who)
      && ShownOf(book', who) == ShownOf(book, who)
      && (r.i.None? ==> book' == book) && (r.i.Some? ==> RowOf(book', who) == r.i && RowOf(book, who) == r.i)
  {
    var r := Resolve(book.rows, n);
    ResolveUnique(book.rows, n);
    ResolveShape(book.rows, n);
    ResolvesOurs(book.rows, n, who);
    if r.i.Some? {
      TheUsersRow(book.rows, r.i.value, who.user);
      TheUsersRow(r.rows, r.i.value, who.user);
    }
  }

  /** What notices before the checkout leave: row and stash between them have seen `seen`, and no row lost its period. */
  ghost predicate Waited(book: Book, r: Book, who: Subject, truth: History, cal: Calendar, seen: Option<int>) {
    && Waiting(r, who, truth, cal) && r.sessions == book.sessions && Seen(r, who) == seen
    && (RowClock(r, who).None? ==> RowClock(book, who).None? && ShownOf(r, who) == ShownOf(book, who))
    && (RowOf(book, who).None? ==> r.rows == book.rows)
  }

  lemma WaitFound(book: Book, n: Notice, gone: bool, now: int, who: Subject, truth: History, cal: Calendar, i: nat)
    requires Waiting(book, who, truth, cal) && RowOf(book, who) == Some(i) && (gone ==> n.status == "canceled")
    requires Reports(n.at, n.status, truth) && Dated(n.at, n.start, n.end, cal)
    ensures var r := book.(rows := book.rows[i := Written(book.rows[i], n, gone, now)]);
      Waited(book, r, who, truth, cal, Later(Seen(book, who), n.at))
  {
    LandStep(book, n, gone, now, who, truth, cal, i);
  }

  lemma WaitStep(book: Book, n: Notice, gone: bool, now: int, who: Subject, truth: History, cal: Calendar)
    requires Waiting(book, who, truth, cal) && Concerning(n, who) && (gone ==> n.status == "canceled")
    requires Reports(n.at, n.status, truth) && Dated(n.at, n.start, n.end, cal)
    ensures Waited(book, HandleNotice(book, n, gone, now).book, who, truth, cal, Later(Seen(book, who), n.at))
  {
    AdoptWaits(book, n, who, truth, cal);
    var found := Resolve(book.rows, n);
    if found.i.None? {
      ParkStep(book, n, who, truth, cal);
    } else {
      WaitFound(book.(rows := found.rows), n, gone, now, who, truth, cal, found.i.value);
    }
  }

  /** Notices before the checkout, in any order: row and stash between them have seen the newest. */
  lemma {:induction false} Wait(book: Book, ds: seq<Delivery>, s: Session, who: Subject, truth: History, cal: Calendar)
    requires Waiting(book, who, truth, cal) && Paid(s) !in ds
    requires Announced(ds, s, who, truth, cal)
    ensures Waited(book, DeliverAll(book, ds), who, truth, cal, Newest(ds, Seen(book, who)))
  {
    if ds != [] {
      var front, d := ds[..|ds| - 1], ds[|ds| - 1];
      Wait(book, front, s, who, truth, cal);
      assert d in ds;
      assert Announces(d, s, who, truth, cal);
      match d
      case Notified(n, gone, now) => WaitStep(DeliverAll(book, front), n, gone, now, who, truth, cal);
      case Paid(paid) => assert false;
    }
  }

  // ----- From the checkout on -----

  /** The subject's row, linked, at clock k and showing this period; a row at the checkout's own instant may be active. */
  ghost predicate Following(book: Book, who: Subject, truth: History, cal: Calendar, c: int, k: int,
                            start: Option<int>, end: Option<int>)
  {
    && UniqueIds(book.rows) && Linked(book, who)
    && var row := book.rows[RowOf(book, who).value];
       && row.clock == Some(k) && k >= c && row.start == start && row.end == end
       && (row.status == Active || (k in truth && row.status == truth[k]))
       && (k > c ==> k in truth && row.status == truth[k])
       && (k == c && row.status != Active ==> NotOlder(c, c, truth) || Dated(Some(c), start, end, cal))
  }

  /** The period after an event at t, on a row at clock k showing another. */
  function PeriodAfter(t: int, k: int, c: int, truth: History, cal: Calendar, held: (Option<int>, Option<int>))
    : (Option<int>, Option<int>)
    requires t in cal
  {
    if t >= k && NotOlder(t, c, truth) then (Some(cal[t].start), Some(cal[t].end)) else held
  }

  lemma FollowStep(book: Book, n: Notice, gone: bool, now: int, s: Session, who: Subject, truth: History, cal: Calendar,
                   c: int, k: int, start: Option<int>, end: Option<int>)
    requires Following(book, who, truth, cal, c, k, start, end) && who.subId != ""
    requires Announces(Notified(n, gone, now), s, who, truth, cal)
    ensures var r := HandleNotice(book, n, gone, now).book;
      var held := PeriodAfter(n.at.value, k, c, truth, cal, (start, end));
      Following(r, who, truth, cal, c, Max(k, n.at.value), held.0, held.1) && r.sessions == book.sessions
  {
    var i := RowOf(book, who).value;
    LandsOnRow(book, i, n, gone, now, who);
    SameIdsUnique(book.rows, i, Written(book.rows[i], n, gone, now));
  }

  /** Notices after the checkout: the newest of them is shown when it is not older than row and checkout. */
  lemma {:induction false} Follow(book: Book, ds: seq<Delivery>, s: Session, who: Subject, truth: History, cal: Calendar,
                                  k: int, start: Option<int>, end: Option<int>)
    requires SoldTo(s, who) && s.id in book.sessions
    requires Following(book, who, truth, cal, s.at.value, k, start, end)
    requires Announced(ds, s, who, truth, cal)
    ensures var r := DeliverAll(book, ds); var q := NewestNotice(ds);
      && (q.Some? ==> q.value in cal) && s.id in r.sessions
      && var held := if q.Some? then PeriodAfter(q.value, k, s.at.value, truth, cal, (start, end)) else (start, end);
         Following(r, who, truth, cal, s.at.value, if q.Some? then Max(k, q.value) else k, held.0, held.1)
  {
    if ds != [] {
      var front, d := ds[..|ds| - 1], ds[|ds| - 1];
      Follow(book, front, s, who, truth, cal, k, start, end);
      assert d in ds && Announces(d, s, who, truth, cal);
      if d.Notified? {
        var q := NewestNotice(front);
        var held := if q.Some? then PeriodAfter(q.value, k, s.at.value, truth, cal, (start, end)) else (start, end);
        FollowStep(DeliverAll(book, front), d.n, d.gone, d.received, s, who, truth, cal, s.at.value,
                   if q.Some? then Max(k, q.value) else k, held.0, held.1);
      }
    }
  }

  /** The newest provider time among the notices of a delivery sequence. */
  function NewestNotice(ds: seq<Delivery>): Option<int> {
    if ds == [] then None else
      var before := NewestNotice(ds[..|ds| - 1]);
      match ds[|ds| - 1] case Notified(n, _, _) => Later(before, n.at) case Paid(_) => before
  }

  // ----- The checkout between them -----

  /** The period the row shows right after the checkout: the parked one if there is one, however old. */
  function ShownBySale(book: Book, who: Subject): (Option<int>, Option<int>) {
    var held := ShownOf(book, who);
    if who.subId in book.pending then
      (Known(book.pending[who.subId].start, held.0), Known(book.pending[who.subId].end, held.1))
    else held
  }

  function SaleClock(book: Book, s: Session, who: Subject): Option<int> { Later(Seen(book, who), s.at) }

  /** The table with the checkout's row in place keeps the constraints. */
  lemma SaleRow(book: Book, s: Session, who: Subject) returns (i: nat)
    requires UniqueIds(book.rows) && OursOnly(book.rows, who) && SoldTo(s, who)
    ensures UniqueIds(Sold(book, s)) && i < |Sold(book, s)| && Sold(book, s)[i] == CheckedOut(Buyer(book, s), s)
    ensures Find(Sold(book, s), ByUser(who.user)) == Some(i)
    ensures i == (match RowOf(book, who) case Some(k) => k case None => |book.rows|)
  {
    i := match RowOf(book, who) case Some(k) => k case None => |book.rows|;
    var rows := Sold(book, s);
    forall j | 0 <= j < |rows| && j != i ensures rows[j] == book.rows[j] && !IsOurs(rows[j], who) {
    }
    assert UniqueIds(rows);
    TheUsersRow(rows, i, who.user);
  }

  /** The subject's row after the checkout and what was parked. */
  function SaleResult(book: Book, s: Session, who: Subject): Sub {
    var row := CheckedOut(Buyer(book, s), s);
    if who.subId in book.pending then Unpark(row, book.pending[who.subId]) else row
  }

  lemma SaleResultSays(book: Book, s: Session, who: Subject, truth: History, cal: Calendar)
    requires Waiting(book, who, truth, cal) && SoldTo(s, who)
    ensures var row := SaleResult(book, s, who); var shown := ShownBySale(book, who); var c := s.at.value;
      var k := SaleClock(book, s, who).value;
      && row.user == Some(who.user) && row.subId == who.subId && row.customer == who.customer
      && (row.start, row.end) == shown && row.clock == Some(k) && k >= c
      && (row.status == Active || (k in truth && row.status == truth[k]))
      && (k > c ==> k in truth && row.status == truth[k])
      && (k == c && row.status != Active ==> NotOlder(c, c, truth) || Dated(Some(c), shown.0, shown.1, cal))
  {
  }

  lemma SaleStep(book: Book, s: Session, who: Subject, truth: History, cal: Calendar)
    requires Waiting(book, who, truth, cal) && SoldTo(s, who) && s.id !in book.sessions
    ensures var r := HandleCheckout(book, s).book; var shown := ShownBySale(book, who);
      Following(r, who, truth, cal, s.at.value, SaleClock(book, s, who).value, shown.0, shown.1)
      && r.sessions == book.sessions + {s.id}
  {
    var i := SaleRow(book, s, who);
    SaleResultSays(book, s, who, truth, cal);
    var sold := Book(Sold(book, s), book.pending, book.sessions + {s.id});
    var row := SaleResult(book, s, who);
    var r := Book(sold.rows[i := row], book.pending - {who.subId}, sold.sessions);
    if who.subId !in book.pending { assert r.pending == book.pending && r.rows == sold.rows; }
    assert ApplyPending(sold, i) == r;
    CheckoutIsSale(book, s, i);
    SameIdsUnique(sold.rows, i, row);
    TheUsersRow(r.rows, i, who.user);
  }

  lemma {:induction false} DeliverOn(book: Book, front: seq<Delivery>, rest: seq<Delivery>)
    ensures DeliverAll(book, front + rest) == DeliverAll(DeliverAll(book, front), rest)
  {
    if rest == [] {
      assert front + rest == front;
    } else {
      var last := rest[|rest| - 1];
      assert (front + rest)[..|front + rest| - 1] == front + rest[..|rest| - 1];
      DeliverOn(book, front, rest[..|rest| - 1]);
    }
  }

  /** The state the first checkout finds. */
  function AtSale(book: Book, front: seq<Delivery>): Book { DeliverAll(book, front) }

  /**
   * The period shown after any deliveries around the first checkout: that of the newest later notice when it is not
   * older than row and checkout, else the parked one however old, else the row's own.
   */
  lemma PeriodShown(book: Book, front: seq<Delivery>, rest: seq<Delivery>, s: Session, who: Subject, truth: History,
                    cal: Calendar)
    requires Waiting(book, who, truth, cal) && SoldTo(s, who) && s.id !in book.sessions && Paid(s) !in front
    requires Announced(front, s, who, truth, cal) && Announced(rest, s, who, truth, cal)
    ensures var sale := AtSale(book, front); var q := NewestNotice(rest);
      && Waiting(sale, who, truth, cal)
      && (q.Some? ==> q.value in cal)
      && ShownOf(DeliverAll(book, front + [Paid(s)] + rest), who)
         == (if q.Some? then PeriodAfter(q.value, SaleClock(sale, s, who).value, s.at.value, truth, cal, ShownBySale(sale, who))
             else ShownBySale(sale, who))
  {
    var sale := AtSale(book, front);
    Wait(book, front, s, who, truth, cal);
    SaleStep(sale, s, who, truth, cal);
    var shown := ShownBySale(sale, who);
    DeliverOn(book, front, [Paid(s)]);
    assert [Paid(s)][..0] == [] && DeliverAll(sale, [Paid(s)]) == HandleCheckout(sale, s).book;
    DeliverOn(book, front + [Paid(s)], rest);
    Follow(HandleCheckout(sale, s).book, rest, s, who, truth, cal, SaleClock(sale, s, who).value, shown.0, shown.1);
  }

  // ----- When the newest notice's period is the one shown -----

  predicate Shows(book: Book, who: Subject, p: Period) { ShownOf(book, who) == (Some(p.start), Some(p.end)) }

  ghost predicate DistinctPeriods(cal: Calendar) {
    forall t, u | t in cal && u in cal && cal[t] == cal[u] :: t == u
  }

  /** A row no stamped event was applied to shows no period. */
  ghost predicate Blank(book: Book, who: Subject) { RowClock(book, who).None? ==> ShownOf(book, who) == (None, None) }

  /**
   * The row shows the newest notice's period exactly when that notice came after the checkout and is not older than it,
   * or is the parked one, or landed on the row with nothing parked.
   */
  lemma ShowsNewestIff(book: Book, front: seq<Delivery>, rest: seq<Delivery>, s: Session, who: Subject, truth: History,
                       cal: Calendar, m: int)
    requires Waiting(book, who, truth, cal) && SoldTo(s, who) && s.id !in book.sessions && Paid(s) !in front
    requires Announced(front, s, who, truth, cal) && Announced(rest, s, who, truth, cal)
    requires DistinctPeriods(cal) && Blank(book, who)
    requires Later(Seen(AtSale(book, front), who), NewestNotice(rest)) == Some(m)
    ensures m in cal && Waiting(AtSale(book, front), who, truth, cal)
    ensures var sale := AtSale(book, front);
      Shows(DeliverAll(book, front + [Paid(s)] + rest), who, cal[m])
      <==> (NewestNotice(rest) == Some(m) && NotOlder(m, s.at.value, truth)) || ParkedAt(sale, who) == Some(m)
           || (who.subId !in sale.pending && RowClock(sale, who) == Some(m))
  {
    Wait(book, front, s, who, truth, cal);
    PeriodShown(book, front, rest, s, who, truth, cal);
  }

  /** An older event is parked than the row has seen: the guard `stale_status` of `_apply_pending_period`. */
  predicate OlderParked(book: Book, who: Subject) {
    ParkedAt(book, who).Some? && RowClock(book, who).Some?
    && ParkedAt(book, who).value < RowClock(book, who).value
  }

  /**
   * When the newest notice is not older than the checkout, its period is shown exactly when it came again after the
   * checkout, or the checkout did not find an older event parked than the row had seen.
   */
  lemma NewestPeriodIff(book: Book, front: seq<Delivery>, rest: seq<Delivery>, s: Session, who: Subject, truth: History,
                        cal: Calendar, m: int)
    requires Waiting(book, who, truth, cal) && SoldTo(s, who) && s.id !in book.sessions && Paid(s) !in front
    requires Announced(front, s, who, truth, cal) && Announced(rest, s, who, truth, cal)
    requires DistinctPeriods(cal) && Blank(book, who)
    requires Later(Seen(AtSale(book, front), who), NewestNotice(rest)) == Some(m) && NotOlder(m, s.at.value, truth)
    ensures m in cal
    ensures Shows(DeliverAll(book, front + [Paid(s)] + rest), who, cal[m])
      <==> NewestNotice(rest) == Some(m) || !OlderParked(AtSale(book, front), who)
  {
    ShowsNewestIff(book, front, rest, s, who, truth, cal, m);
  }

  // ----- Every order of one set of notices -----

  function NoticeTimes(ds: seq<Delivery>): set<Option<int>> { set d | d in ds && d.Notified? :: d.n.at }

  /** The newest of these times. */
  ghost predicate Top(times: set<Option<int>>, m: int) {
    Some(m) in times && forall x | x in times && x.Some? :: x.value <= m
  }

  /** Some order of the checkout and of notices with these times, with any repeats. */
  ghost predicate Order(ds: seq<Delivery>, times: set<Option<int>>, s: Session, who: Subject, truth: History,
                        cal: Calendar)
  {
    && Paid(s) in ds && NoticeTimes(ds) == times
    && Announced(ds, s, who, truth, cal)
  }

  /** What is the newest of a set of times, if any. */
  ghost predicate IsTop(times: set<Option<int>>, x: Option<int>) {
    (x.None? <==> times == {}) && (x.Some? ==> Top(times, x.value))
  }

  lemma {:induction false} NewestNoticeIs(ds: seq<Delivery>)
    requires None !in NoticeTimes(ds)
    ensures IsTop(NoticeTimes(ds), NewestNotice(ds))
  {
    if ds != [] {
      var front, d := ds[..|ds| - 1], ds[|ds| - 1];
      assert NoticeTimes(ds) == NoticeTimes(front) + if d.Notified? then {d.n.at} else {};
      NewestNoticeIs(front);
    }
  }

  lemma {:induction false} NewestIsNotice(ds: seq<Delivery>, s: Session)
    requires Paid(s) !in ds && forall d | d in ds && d.Paid? :: d == Paid(s)
    ensures Newest(ds, None) == NewestNotice(ds)
  {
    if ds != [] {
      var front, d := ds[..|ds| - 1], ds[|ds| - 1];
      assert d in ds && forall e | e in front :: e in ds;
      NewestIsNotice(front, s);
    }
  }

  /** The deliveries up to the first checkout, and the rest. */
  lemma {:induction false} FirstSale(ds: seq<Delivery>, d: Delivery) returns (front: seq<Delivery>, rest: seq<Delivery>)
    requires d in ds
    ensures ds == front + [d] + rest && d !in front
  {
    if ds[0] == d {
      front, rest := [], ds[1..];
    } else {
      var f;
      f, rest := FirstSale(ds[1..], d);
      front := [ds[0]] + f;
      assert ds == [ds[0]] + ds[1..];
    }
  }

  lemma TopOfBoth(a: set<Option<int>>, b: set<Option<int>>, x: Option<int>, y: Option<int>, m: int)
    requires IsTop(a, x) && IsTop(b, y) && Top(a + b, m)
    ensures Later(x, y) == Some(m)
  {
    if x.Some? { assert x in a + b; }
    if y.Some? { assert y in a + b; }
  }

  lemma TimesOfParts(front: seq<Delivery>, s: Session, rest: seq<Delivery>)
    ensures NoticeTimes(front + [Paid(s)] + rest) == NoticeTimes(front) + NoticeTimes(rest)
  {
    var ds := front + [Paid(s)] + rest;
    assert forall d :: d in ds <==> d in front || d == Paid(s) || d in rest;
  }

  lemma AnnouncedStamps(ds: seq<Delivery>, s: Session, who: Subject, truth: History, cal: Calendar)
    requires Announced(ds, s, who, truth, cal)
    ensures None !in NoticeTimes(ds) && forall d | d in ds && d.Paid? :: d == Paid(s)
  {
    forall d | d in ds ensures d.Notified? ==> d.n.at.Some? ensures d.Paid? ==> d == Paid(s) {
      assert Announces(d, s, who, truth, cal);
    }
  }

  /** An order, cut at its first checkout: the newest of its notices is the newest of the two parts. */
  lemma OrderSplit(ds: seq<Delivery>, times: set<Option<int>>, s: Session, who: Subject, truth: History, cal: Calendar,
                   m: int)
    returns (front: seq<Delivery>, rest: seq<Delivery>)
    requires Order(ds, times, s, who, truth, cal)
    requires Top(times, m)
    ensures ds == front + [Paid(s)] + rest && Paid(s) !in front
    ensures Announced(front, s, who, truth, cal) && Announced(rest, s, who, truth, cal)
    ensures Later(Newest(front, None), NewestNotice(rest)) == Some(m)
  {
    front, rest := FirstSale(ds, Paid(s));
    assert (forall d | d in front :: d in ds) && forall d | d in rest :: d in ds;
    TimesOfParts(front, s, rest);
    AnnouncedStamps(front, s, who, truth, cal);
    AnnouncedStamps(rest, s, who, truth, cal);
    NewestNoticeIs(front);
    NewestNoticeIs(rest);
    TopOfBoth(NoticeTimes(front), NoticeTimes(rest), NewestNotice(front), NewestNotice(rest), m);
    NewestIsNotice(front, s);
  }

  /** A subject nobody has heard of waits with the newest of its notices parked. */
  lemma UnknownWaits(book: Book, front: seq<Delivery>, s: Session, who: Subject, truth: History, cal: Calendar)
    requires Unheard(book, s, who) && Paid(s) !in front
    requires Announced(front, s, who, truth, cal)
    ensures var sale := AtSale(book, front);
      && Waiting(sale, who, truth, cal) && RowOf(sale, who).None?
      && ParkedAt(sale, who) == Newest(front, None)
  {
    Wait(book, front, s, who, truth, cal);
  }

  lemma OrderShows(book: Book, ds: seq<Delivery>, times: set<Option<int>>, s: Session, who: Subject, truth: History,
                   cal: Calendar, m: int)
    requires Unheard(book, s, who) && Order(ds, times, s, who, truth, cal)
    requires Top(times, m) && NotOlder(m, s.at.value, truth) && m in cal
    ensures Shows(DeliverAll(book, ds), who, cal[m])
  {
    var front, rest := OrderSplit(ds, times, s, who, truth, cal, m);
    UnknownWaits(book, front, s, who, truth, cal);
    PeriodShown(book, front, rest, s, who, truth, cal);
  }

  /** Checkout first, then notices none of which is newer: none is applied. */
  lemma SaleFirst(book: Book, ns: seq<Delivery>, s: Session, who: Subject, truth: History, cal: Calendar, m: int)
    requires Unheard(book, s, who) && NewestNotice(ns) == Some(m) && !NotOlder(m, s.at.value, truth)
    requires Announced(ns, s, who, truth, cal)
    ensures ShownOf(DeliverAll(book, [Paid(s)] + ns), who) == (None, None)
  {
    assert [] + ns == ns && [] + [Paid(s)] + ns == [Paid(s)] + ns;
    PeriodShown(book, [], ns, s, who, truth, cal);
  }

  /** Checkout first, once each: an order that shows none of the notices' periods. */
  lemma SaleFirstIsAnOrder(ns: seq<Delivery>, s: Session, who: Subject, truth: History, cal: Calendar)
    requires Announced(ns, s, who, truth, cal)
    ensures Order([Paid(s)] + ns, NoticeTimes(ns), s, who, truth, cal)
  {
    var ds := [Paid(s)] + ns;
    assert ds[0] == Paid(s) && [] + [Paid(s)] + ns == ds && NoticeTimes([]) + NoticeTimes(ns) == NoticeTimes(ns);
    TimesOfParts([], s, ns);
  }

  /**
   * For a subject nobody has heard of, every order of its notices and checkout, with any repeats, shows the newest
   * notice's period exactly when that notice is not older than the checkout.
   */
  lemma EveryOrderShowsIff(book: Book, ns: seq<Delivery>, s: Session, who: Subject, truth: History, cal: Calendar, m: int)
    requires Unheard(book, s, who) && NewestNotice(ns) == Some(m)
    requires Announced(ns, s, who, truth, cal) && forall d | d in ns :: d.Notified?
    ensures m in cal
    ensures (forall ds | Order(ds, NoticeTimes(ns), s, who, truth, cal) :: Shows(DeliverAll(book, ds), who, cal[m]))
      <==> NotOlder(m, s.at.value, truth)
  {
    AnnouncedStamps(ns, s, who, truth, cal);
    NewestNoticeIs(ns);
    if NotOlder(m, s.at.value, truth) {
      forall ds | Order(ds, NoticeTimes(ns), s, who, truth, cal) ensures Shows(DeliverAll(book, ds), who, cal[m]) {
        OrderShows(book, ds, NoticeTimes(ns), s, who, truth, cal, m);
      }
    } else {
      SaleFirst(book, ns, s, who, truth, cal, m);
      SaleFirstIsAnOrder(ns, s, who, truth, cal);
      assert !Shows(DeliverAll(book, [Paid(s)] + ns), who, cal[m]);
    }
  }
}
