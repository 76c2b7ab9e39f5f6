/** A subscription's row ends where the provider's own history ends, in whatever order its events arrive. */
module Convergence {
  import opened Sums
  import opened Models
  import opened Subscriptions

  /** One delivery of a subscription event, at our own instant of receipt, or of a checkout. */
  datatype Delivery = Notified(n: Notice, gone: bool, received: int) | Paid(s: Session)

  function Deliver(book: Book, d: Delivery): Book {
    match d
    case Notified(n, gone, received) => HandleNotice(book, n, gone, received).book
    case Paid(s) => HandleCheckout(book, s).book
  }

  function DeliverAll(book: Book, ds: seq<Delivery>): Book {
    if ds == [] then book else Deliver(DeliverAll(book, ds[..|ds| - 1]), ds[|ds| - 1])
  }

  function At(d: Delivery): Option<int> { match d case Notified(n, _, _) => n.at case Paid(s) => s.at }

  function Later(a: Option<int>, b: Option<int>): Option<int> {
    if a.None? then b else if b.None? then a else Some(Max(a.value, b.value))
  }

  /** The newest provider time among the deliveries and a starting one. */
  function Newest(ds: seq<Delivery>, from: Option<int>): Option<int> {
    if ds == [] then from else Later(Newest(ds[..|ds| - 1], from), At(ds[|ds| - 1]))
  }

  /** One user, their subscription and their customer id. */
  datatype Subject = Subject(user: nat, subId: string, customer: string)

  /** What the provider's subscription was at each instant an event was stamped. */
  type History = map<int, Lifecycle>

  ghost predicate Reports(at: Option<int>, said: string, truth: History) {
    at.Some? && at.value in truth && MapStatus(said) == Some(truth[at.value])
  }

  /** A stamped event of the subject whose status, in the provider's words, is true to the history. */
  ghost predicate About(d: Delivery, s: Session, who: Subject, truth: History) {
    match d
    case Notified(n, gone, _) =>
      && Concerning(n, who) && Reports(n.at, n.status, truth) && (gone ==> n.status == "canceled")
    case Paid(paid) => paid == s
  }

  /** The checkout that sells the subject their subscription. */
  ghost predicate Sells(s: Session, who: Subject, truth: History) {
    && s.id != "" && who.subId != "" && s.subId == who.subId && s.user == who.user && s.customer == who.customer
    && Reports(s.at, "active", truth)
  }

  ghost predicate RowTrue(row: Sub, truth: History) {
    row.clock.Some? ==> row.clock.value in truth && row.status == truth[row.clock.value]
  }

  ghost predicate IsOurs(row: Sub, who: Subject) {
    row.subId == who.subId || (who.customer != "" && row.customer == who.customer)
  }

  /** The subject's ids are on no other user's row, and what row and stash say is true to the history. */
  ghost predicate Ready(book: Book, who: Subject, truth: History) {
    && UniqueIds(book.rows) && OursOnly(book.rows, who)
    && (forall i {:trigger book.rows[i]} | 0 <= i < |book.rows| && book.rows[i].user == Some(who.user) ::
          RowTrue(book.rows[i], truth))
    && (who.subId in book.pending ==> Reports(book.pending[who.subId].at, book.pending[who.subId].status, truth))
  }

  function RowOf(book: Book, who: Subject): Option<nat> { Find(book.rows, ByUser(who.user)) }

  function RowClock(book: Book, who: Subject): Option<int> {
    match RowOf(book, who) case Some(i) => book.rows[i].clock case None => None
  }

  function ParkedAt(book: Book, who: Subject): Option<int> {
    if who.subId in book.pending then book.pending[who.subId].at else None
  }

  /** The newest provider time the row and the stash between them have seen. */
  function Seen(book: Book, who: Subject): Option<int> { Later(RowClock(book, who), ParkedAt(book, who)) }

  /** The row carries the subscription and nothing is parked for it. */
  ghost predicate Linked(book: Book, who: Subject) {
    && RowOf(book, who).Some? && book.rows[RowOf(book, who).value].subId == who.subId
    && book.rows[RowOf(book, who).value].clock.Some? && who.subId !in book.pending
  }

  /** Adopting an id never gives it to a second row. */
  lemma ResolveUnique(rows: seq<Sub>, n: Notice)
    requires UniqueIds(rows)
    ensures UniqueIds(Resolve(rows, n).rows)
  {
  }

  /** The subject's ids are on no other user's row. */
  ghost predicate OursOnly(rows: seq<Sub>, who: Subject) {
    who.subId != ""
    && forall i {:trigger rows[i]} | 0 <= i < |rows| && IsOurs(rows[i], who) :: rows[i].user == Some(who.user)
  }

  ghost predicate Concerning(n: Notice, who: Subject) {
    && n.subId == who.subId && (n.customer == "" || n.customer == who.customer)
    && (n.user.Some? ==> n.user.value == who.user)
  }

  lemma TheUsersRow(rows: seq<Sub>, i: nat, user: nat)
    requires UniqueIds(rows) && i < |rows| && rows[i].user == Some(user)
    ensures Find(rows, ByUser(user)) == Some(i)
  {
    assert ByUser(user).Leads(rows[i]);
  }

  /** Finding a row changes nothing but the ids of the row found. */
  lemma ResolveShape(rows: seq<Sub>, n: Notice)
    ensures var r := Resolve(rows, n);
      if r.i.None? then r.rows == rows
      else r.rows == rows[r.i.value := rows[r.i.value].(subId := r.rows[r.i.value].subId,
                                                        customer := r.rows[r.i.value].customer)]
  {
  }

  /** A row found for one of the subject's events is the subject's own. */
  lemma ResolvesOurs(rows: seq<Sub>, n: Notice, who: Subject)
    requires Concerning(n, who) && OursOnly(rows, who)
    ensures var r := Resolve(rows, n); r.i.Some? ==> rows[r.i.value].user == Some(who.user)
  {
  }

  /** The row that carries the subscription is the row found. */
  lemma ResolvesLinked(rows: seq<Sub>, n: Notice, who: Subject, i: nat)
    requires Concerning(n, who) && UniqueIds(rows) && i < |rows| && rows[i].subId == who.subId != ""
    ensures Resolve(rows, n) == Found(rows, Some(i))
  {
    assert BySub(n.subId).Leads(rows[i]);
  }

  /** An event that finds no row goes to the stash, which keeps the newest. */
  lemma StashStep(book: Book, n: Notice, who: Subject, truth: History)
    requires Ready(book, who, truth) && n.subId == who.subId && Reports(n.at, n.status, truth)
    requires RowOf(book, who).None? || book.rows[RowOf(book, who).value].subId != who.subId
    ensures var r := Stash(book, n);
      Ready(r, who, truth) && Seen(r, who) == Later(Seen(book, who), n.at) && r.sessions == book.sessions
  {
  }

  /** An event that finds the row moves it to the newer of the two, and never off the history. */
  lemma RowStep(book: Book, n: Notice, gone: bool, now: int, who: Subject, truth: History, i: nat)
    requires Ready(book, who, truth) && n.subId == who.subId && Reports(n.at, n.status, truth)
    requires RowOf(book, who) == Some(i) && (gone ==> n.status == "canceled")
    ensures var row := book.rows[i]; var row' := Written(row, n, gone, now);
      RowTrue(row', truth) && row'.clock == Later(row.clock, n.at)
      && row'.user == row.user && row'.subId == row.subId && row'.customer == row.customer
  {
  }

  /** Replacing the subject's row by one with the same ids keeps everything but the row's own news. */
  lemma ReplaceRow(book: Book, i: nat, row: Sub, who: Subject, truth: History)
    requires Ready(book, who, truth) && RowOf(book, who) == Some(i) && RowTrue(row, truth)
    requires row.user == book.rows[i].user && row.subId == book.rows[i].subId && row.customer == book.rows[i].customer
    ensures var r := book.(rows := book.rows[i := row]);
      Ready(r, who, truth) && RowOf(r, who) == Some(i) && RowClock(r, who) == row.clock
  {
    var rows := book.rows[i := row];
    assert UniqueIds(rows);
    assert ByUser(who.user).Leads(rows[i]);
  }

  /** Adopting ids changes no row's news. */
  lemma AdoptStep(book: Book, n: Notice, who: Subject, truth: History)
    requires Ready(book, who, truth) && Concerning(n, who)
    ensures var r := Resolve(book.rows, n); var book' := book.(rows := r.rows);
      && Ready(book', who, truth) && RowClock(book', who) == RowClock(book, who)
      && (r.i.Some? ==> RowOf(book', who) == r.i)
      && (r.i.None? ==> book' == book
                        && (RowOf(book, who).None? || book.rows[RowOf(book, who).value].subId != who.subId))
  {
    var r := Resolve(book.rows, n);
    ResolveUnique(book.rows, n);
    ResolveShape(book.rows, n);
    ResolvesOurs(book.rows, n, who);
    if r.i.Some? {
      TheUsersRow(book.rows, r.i.value, who.user);
      TheUsersRow(r.rows, r.i.value, who.user);
    } else if RowOf(book, who).Some? && book.rows[RowOf(book, who).value].subId == who.subId {
      ResolvesLinked(book.rows, n, who, RowOf(book, who).value);
    }
  }

  lemma NoticeStep(book: Book, n: Notice, gone: bool, now: int, s: Session, who: Subject, truth: History)
    requires Ready(book, who, truth) && About(Notified(n, gone, now), s, who, truth)
    ensures var r := HandleNotice(book, n, gone, now).book;
      && Ready(r, who, truth) && Seen(r, who) == Later(Seen(book, who), n.at) && r.sessions == book.sessions
      && (Linked(book, who) ==> Linked(r, who))
  {
    AdoptStep(book, n, who, truth);
    var found := Resolve(book.rows, n);
    if Linked(book, who) { ResolvesLinked(book.rows, n, who, RowOf(book, who).value); }
    if found.i.None? {
      StashStep(book, n, who, truth);
    } else {
      FoundStep(book.(rows := found.rows), n, gone, now, who, truth, found.i.value);
    }
  }

  /** The row an event was found to belong to, after the event. */
  function Written(row: Sub, n: Notice, gone: bool, now: int): Sub {
    if Stale(row, n.at, if gone then "canceled" else n.status) then row
    else if gone then Deleted(row, n, now) else Updated(row, n)
  }

  lemma FoundStep(book: Book, n: Notice, gone: bool, now: int, who: Subject, truth: History, i: nat)
    requires Ready(book, who, truth) && Concerning(n, who) && Reports(n.at, n.status, truth)
    requires RowOf(book, who) == Some(i) && (gone ==> n.status == "canceled")
    ensures var r := book.(rows := book.rows[i := Written(book.rows[i], n, gone, now)]);
      Ready(r, who, truth) && Seen(r, who) == Later(Seen(book, who), n.at) && RowOf(r, who) == Some(i)
  {
    RowStep(book, n, gone, now, who, truth, i);
    ReplaceRow(book, i, Written(book.rows[i], n, gone, now), who, truth);
  }

  /** The row the checkout writes over. */
  function Buyer(book: Book, s: Session): Sub {
    match Find(book.rows, ByUser(s.user)) case Some(i) => book.rows[i] case None => NewSub(s.user)
  }

  /** The table with the checkout's row in place. */
  function Sold(book: Book, s: Session): seq<Sub> {
    var row := CheckedOut(Buyer(book, s), s);
    match Find(book.rows, ByUser(s.user)) case Some(i) => book.rows[i := row] case None => book.rows + [row]
  }

  lemma SoldRow(book: Book, s: Session, who: Subject, truth: History)
    requires Ready(book, who, truth) && Sells(s, who, truth)
    ensures var row := CheckedOut(Buyer(book, s), s);
      RowTrue(row, truth) && row.clock == Later(RowClock(book, who), s.at) && row.clock.Some?
      && row.user == Some(who.user) && row.subId == who.subId && row.customer == who.customer
  {
  }

  lemma SoldReady(book: Book, s: Session, who: Subject, truth: History)
    requires Ready(book, who, truth) && Sells(s, who, truth)
    ensures UniqueIds(Sold(book, s))
    ensures Ready(Book(Sold(book, s), book.pending, book.sessions + {s.id}), who, truth)
  {
    SoldRow(book, s, who, truth);
    var rows := Sold(book, s);
    var at := match RowOf(book, who) case Some(i) => i case None => |book.rows|;
    forall i | 0 <= i < |rows| && i != at ensures rows[i] == book.rows[i] && !IsOurs(rows[i], who) {
    }
  }

  lemma SoldFound(book: Book, s: Session, who: Subject, truth: History) returns (i: nat)
    requires Ready(book, who, truth) && Sells(s, who, truth)
    ensures i < |Sold(book, s)| && Find(Sold(book, s), ByUser(who.user)) == Some(i)
    ensures i == (match RowOf(book, who) case Some(k) => k case None => |book.rows|)
    ensures Sold(book, s)[i] == CheckedOut(Buyer(book, s), s)
  {
    SoldRow(book, s, who, truth);
    i := match RowOf(book, who) case Some(k) => k case None => |book.rows|;
    var rows := Sold(book, s);
    assert ByUser(who.user).Leads(rows[i]);
    forall j | 0 <= j < |rows| && j != i ensures !ByUser(who.user).Leads(rows[j]) {
    }
  }

  /** The checkout links the row, keeps the newer news of the two, and takes over what was parked. */
  lemma CheckoutStep(book: Book, s: Session, who: Subject, truth: History)
    requires Ready(book, who, truth) && Sells(s, who, truth) && s.id !in book.sessions
    ensures var r := HandleCheckout(book, s).book;
      && Ready(r, who, truth) && Seen(r, who) == Later(Seen(book, who), s.at) && Linked(r, who)
      && r.sessions == book.sessions + {s.id}
  {
    var sold, i := SoldStep(book, s, who, truth);
    CheckoutIsSale(book, s, i);
    UnparkStep(sold, i, who, truth);
  }

  /** The checkout's row in place, before what was parked. */
  lemma SoldStep(book: Book, s: Session, who: Subject, truth: History) returns (sold: Book, i: nat)
    requires Ready(book, who, truth) && Sells(s, who, truth)
    ensures sold == Book(Sold(book, s), book.pending, book.sessions + {s.id})
    ensures Ready(sold, who, truth) && RowOf(sold, who) == Some(i) && Seen(sold, who) == Later(Seen(book, who), s.at)
    ensures sold.rows[i].subId == who.subId && sold.rows[i].clock.Some?
    ensures i == (match Find(book.rows, ByUser(s.user)) case Some(k) => k case None => |book.rows|)
  {
    SoldRow(book, s, who, truth);
    SoldReady(book, s, who, truth);
    i := SoldFound(book, s, who, truth);
    sold := Book(Sold(book, s), book.pending, book.sessions + {s.id});
  }

  lemma CheckoutIsSale(book: Book, s: Session, i: nat)
    requires s.id != "" && s.id !in book.sessions && UniqueIds(Sold(book, s))
    requires i == (match Find(book.rows, ByUser(s.user)) case Some(k) => k case None => |book.rows|)
    ensures i < |Sold(book, s)|
    ensures HandleCheckout(book, s).book == ApplyPending(Book(Sold(book, s), book.pending, book.sessions + {s.id}), i)
  {
  }

  lemma UnparkStep(book: Book, i: nat, who: Subject, truth: History)
    requires Ready(book, who, truth) && RowOf(book, who) == Some(i)
    requires book.rows[i].subId == who.subId && book.rows[i].clock.Some?
    ensures var r := ApplyPending(book, i);
      && Ready(r, who, truth) && Seen(r, who) == Seen(book, who) && Linked(r, who) && r.sessions == book.sessions
  {
    if who.subId in book.pending {
      var row := Unpark(book.rows[i], book.pending[who.subId]);
      ReplaceRow(book, i, row, who, truth);
    }
  }

  lemma {:induction false} NewestAtLeast(ds: seq<Delivery>, from: Option<int>, d: Delivery)
    requires d in ds && At(d).Some?
    ensures Newest(ds, from).Some? && Newest(ds, from).value >= At(d).value
  {
    if d != ds[|ds| - 1] { NewestAtLeast(ds[..|ds| - 1], from, d); }
  }

  /** What a row says: its status and the provider time it is from. */
  datatype News = News(status: Lifecycle, clock: Option<int>)

  function NewsOf(book: Book, who: Subject): Option<News> {
    match RowOf(book, who) case Some(i) => Some(News(book.rows[i].status, book.rows[i].clock)) case None => None
  }

  /** The run of deliveries, step by step: what has been seen is the newest delivered, and the checkout counts once. */
  lemma {:induction false} Deliveries(book: Book, ds: seq<Delivery>, s: Session, who: Subject, truth: History)
    requires Ready(book, who, truth) && Sells(s, who, truth) && s.id !in book.sessions
    requires forall d | d in ds :: About(d, s, who, truth)
    ensures var r := DeliverAll(book, ds);
      && Ready(r, who, truth) && Seen(r, who) == Newest(ds, Seen(book, who))
      && (Paid(s) in ds ==> Linked(r, who)) && (s.id in r.sessions <==> Paid(s) in ds)
  {
    if ds != [] {
      var front, d := ds[..|ds| - 1], ds[|ds| - 1];
      Deliveries(book, front, s, who, truth);
      var before := DeliverAll(book, front);
      match d
      case Notified(n, gone, now) =>
        NoticeStep(before, n, gone, now, s, who, truth);
      case Paid(paid) =>
        assert About(d, s, who, truth);
        if s.id in before.sessions {
          NewestAtLeast(front, Seen(book, who), Paid(s));
        } else {
          CheckoutStep(before, s, who, truth);
        }
    }
  }

  /**
   * Status convergence: once the checkout is among the deliveries, in any order and with any repeats, the row is linked
   * to the subscription and holds the newest provider time delivered and the provider's status at that time.
   */
  lemma RowConverges(book: Book, ds: seq<Delivery>, s: Session, who: Subject, truth: History)
    requires Ready(book, who, truth) && Sells(s, who, truth) && s.id !in book.sessions
    requires (forall d | d in ds :: About(d, s, who, truth)) && Paid(s) in ds
    ensures var r := DeliverAll(book, ds); var last := Newest(ds, Seen(book, who));
      && last.Some? && last.value in truth && NewsOf(r, who) == Some(News(truth[last.value], last)) && Linked(r, who)
  {
    Deliveries(book, ds, s, who, truth);
  }

  /** A notice alone, with no checkout in sight. */
  ghost predicate Told(d: Delivery, who: Subject, truth: History) {
    d.Notified? && Concerning(d.n, who) && Reports(d.n.at, d.n.status, truth) && (d.gone ==> d.n.status == "canceled")
  }

  /**
   * The steady state: a linked row that receives only lifecycle events, in any order with any repeats, stays linked and
   * holds the newest provider time it has seen and the provider's status at that time.
   */
  lemma {:induction false} LinkedConverges(book: Book, ds: seq<Delivery>, s: Session, who: Subject, truth: History)
    requires Ready(book, who, truth) && Linked(book, who)
    requires forall d | d in ds :: Told(d, who, truth)
    ensures var r := DeliverAll(book, ds); var last := Newest(ds, RowClock(book, who));
      && Ready(r, who, truth) && Linked(r, who)
      && last.Some? && last.value in truth && NewsOf(r, who) == Some(News(truth[last.value], last))
  {
    if ds != [] {
      var front, d := ds[..|ds| - 1], ds[|ds| - 1];
      LinkedConverges(book, front, s, who, truth);
      assert d in ds && Told(d, who, truth);
      NoticeStep(DeliverAll(book, front), d.n, d.gone, d.received, s, who, truth);
    }
  }

  /** The provider times a sequence of deliveries carries. */
  function Times(ds: seq<Delivery>): set<Option<int>> { set d | d in ds :: At(d) }

  lemma {:induction false} NewestWithin(a: seq<Delivery>, b: seq<Delivery>, from: Option<int>)
    requires Times(a) <= Times(b) && None !in Times(a)
    ensures Newest(a, from).None? ==> from.None?
    ensures Newest(a, from).Some? ==> Newest(b, from).Some? && Newest(a, from).value <= Newest(b, from).value
    decreases |a|
  {
    if a == [] {
      NewestKeeps(b, from);
    } else {
      var front, d := a[..|a| - 1], a[|a| - 1];
      assert d in a && forall e | e in front :: e in a;
      NewestWithin(front, b, from);
      assert At(d) in Times(b);
      var e :| e in b && At(e) == At(d);
      NewestAtLeast(b, from, e);
    }
  }

  lemma {:induction false} NewestKeeps(ds: seq<Delivery>, from: Option<int>)
    ensures from.Some? ==> Newest(ds, from).Some? && from.value <= Newest(ds, from).value
  {
    if ds != [] { NewestKeeps(ds[..|ds| - 1], from); }
  }

  lemma SameNewest(a: seq<Delivery>, b: seq<Delivery>, from: Option<int>)
    requires Times(a) == Times(b) && None !in Times(a)
    ensures Newest(a, from) == Newest(b, from)
  {
    NewestWithin(a, b, from);
    NewestWithin(b, a, from);
  }

  lemma AllStamped(ds: seq<Delivery>, s: Session, who: Subject, truth: History)
    requires Sells(s, who, truth) && forall d | d in ds :: About(d, s, who, truth)
    ensures None !in Times(ds)
  {
  }

  /** Two orders of the same events, with different repeats and receipt times, leave the same status and clock. */
  lemma OrdersAgree(book: Book, a: seq<Delivery>, b: seq<Delivery>, s: Session, who: Subject, truth: History)
    requires Ready(book, who, truth) && Sells(s, who, truth) && s.id !in book.sessions
    requires (forall d | d in a :: About(d, s, who, truth)) && (forall d | d in b :: About(d, s, who, truth))
    requires Paid(s) in a && Paid(s) in b && Times(a) == Times(b)
    ensures NewsOf(DeliverAll(book, a), who) == NewsOf(DeliverAll(book, b), who) != None
  {
    RowConverges(book, a, s, who, truth);
    RowConverges(book, b, s, who, truth);
    AllStamped(a, s, who, truth);
    SameNewest(a, b, Seen(book, who));
  }
}
