/** The subscription mirror: provider events applied in provider time, whatever order they are delivered in. */
module Subscriptions {
  import opened Sums
  import opened Models

  datatype Lifecycle = Incomplete | IncompleteExpired | Trialing | Active | PastDue | Unpaid | Paused | Cancelled

  /** A row of the subscription table; an empty provider id is a missing one. */
  datatype Sub = Sub(user: Option<nat>, plan: string, status: Lifecycle, subId: string, customer: string,
                     clock: Option<int>, start: Option<int>, end: Option<int>, ending: bool, cancelledAt: Option<int>)

  /** A row of the stash: what an event said before its subscription had a row. */
  datatype Pending = Pending(customer: string, status: string, at: Option<int>, start: Option<int>, end: Option<int>)

  /** A subscription event: the provider's clock and the fields of the subscription object it carries. */
  datatype Notice = Notice(at: Option<int>, subId: string, customer: string, user: Option<nat>, status: string,
                           start: Option<int>, end: Option<int>, ending: Option<bool>, cancelledAt: Option<int>)

  /** A completed checkout of a plan. */
  datatype Session = Session(at: Option<int>, id: string, user: nat, plan: string, customer: string, subId: string)

  datatype Book = Book(rows: seq<Sub>, pending: map<string, Pending>, sessions: set<string>)

  // ----- Statuses and provider time -----

  /** `_STRIPE_STATUS_MAP`. */
  function MapStatus(raw: string): Option<Lifecycle> {
    if raw == "active" then Some(Active)
    else if raw == "trialing" then Some(Trialing)
    else if raw == "past_due" then Some(PastDue)
    else if raw == "canceled" then Some(Cancelled)
    else if raw == "incomplete" then Some(Incomplete)
    else if raw == "incomplete_expired" then Some(IncompleteExpired)
    else if raw == "unpaid" then Some(Unpaid)
    else if raw == "paused" then Some(Paused)
    else None
  }

  /** `LIFECYCLE_RANK`. */
  function Rank(s: Lifecycle): nat {
    match s
    case Incomplete => 0
    case IncompleteExpired => 1
    case Trialing => 2
    case Active => 3
    case PastDue => 4
    case Unpaid => 5
    case Paused => 6
    case Cancelled => 7
  }

  /** `_map_stripe_status`: an unknown word keeps what the row holds. */
  function StatusOr(raw: string, current: Lifecycle): Lifecycle {
    match MapStatus(raw) case Some(s) => s case None => current
  }

  /** `_is_stale_lifecycle_event`: older than what the row has seen, or as old and less advanced. */
  predicate Stale(row: Sub, at: Option<int>, incoming: string) {
    at.Some? && row.clock.Some?
    && (at.value < row.clock.value
        || (at.value == row.clock.value && MapStatus(incoming).Some?
            && Rank(MapStatus(incoming).value) < Rank(row.status)))
  }

  /** `_advance_provider_clock`. */
  function Advance(clock: Option<int>, at: Option<int>): Option<int> {
    if at.None? || (clock.Some? && at.value <= clock.value) then clock else at
  }

  function Known(said: Option<int>, held: Option<int>): Option<int> { if said.Some? then said else held }

  // ----- Which row an event belongs to -----

  datatype Route = BySub(id: string) | ByCustomer(customer: string) | ByUser(user: nat) {
    predicate Leads(row: Sub) {
      match this
      case BySub(id) => id != "" && row.subId == id
      case ByCustomer(c) => c != "" && row.customer == c
      case ByUser(u) => row.user == Some(u)
    }
  }

  function Find(rows: seq<Sub>, via: Route): (r: Option<nat>)
    ensures r.Some? ==> r.value < |rows| && via.Leads(rows[r.value])
    ensures r.None? ==> forall i | 0 <= i < |rows| :: !via.Leads(rows[i])
  {
    if rows == [] then None else
      var r := Find(rows[..|rows| - 1], via);
      if r.Some? then r else if via.Leads(rows[|rows| - 1]) then Some(|rows| - 1) else None
  }

  datatype Found = Found(rows: seq<Sub>, i: Option<nat>)

  function Adopt(held: string, said: string): string { if held == "" then said else held }

  /** `_resolve_local_subscription`: by subscription id, else adopted by customer, else by the user it names. */
  function Resolve(rows: seq<Sub>, n: Notice): (r: Found)
    ensures |r.rows| == |rows| && (r.i.Some? ==> r.i.value < |rows|)
  {
    var linked := Find(rows, BySub(n.subId));
    if linked.Some? then Found(rows, linked) else
      match Find(rows, ByCustomer(n.customer))
      case Some(i) => Found(rows[i := rows[i].(subId := Adopt(rows[i].subId, n.subId))], Some(i))
      case None =>
        match if n.user.Some? then Find(rows, ByUser(n.user.value)) else None
        case Some(i) => Found(rows[i := rows[i].(subId := Adopt(rows[i].subId, n.subId),
                                                 customer := Adopt(rows[i].customer, n.customer))], Some(i))
        case None => Found(rows, None)
  }

  // ----- The stash -----

  /** A newer event of this subscription is parked already. */
  predicate ParkedNewer(book: Book, n: Notice) {
    && n.subId != "" && n.subId in book.pending && n.at.Some? && book.pending[n.subId].at.Some?
    && n.at.value < book.pending[n.subId].at.value
  }

  /** `_stash_subscription_period`: kept unless a newer event is parked already. */
  function Stash(book: Book, n: Notice): Book {
    if n.subId == "" || ParkedNewer(book, n) then book
    else
      var held := if n.subId in book.pending then book.pending[n.subId] else Pending("", "", None, None, None);
      book.(pending := book.pending[n.subId := Pending(n.customer, n.status, Known(n.at, held.at),
                                                       Known(n.start, held.start), Known(n.end, held.end))])
  }

  /** The row after its parked event: periods always, status and clock only when not stale. */
  function Unpark(row: Sub, p: Pending): Sub {
    var dated := row.(start := Known(p.start, row.start), end := Known(p.end, row.end));
    if p.at.Some? && row.clock.Some? && p.at.value < row.clock.value then dated
    else dated.(status := StatusOr(p.status, row.status), clock := Advance(row.clock, p.at))
  }

  /** `_apply_pending_period`. */
  function ApplyPending(book: Book, i: nat): (r: Book)
    requires i < |book.rows|
    ensures |r.rows| == |book.rows|
  {
    var id := book.rows[i].subId;
    if id == "" || id !in book.pending then book
    else book.(rows := book.rows[i := Unpark(book.rows[i], book.pending[id])], pending := book.pending - {id})
  }

  // ----- The handlers -----

  /** The state a handler commits, and whether it dropped its event as stale. */
  datatype Handled = Handled(book: Book, stale: bool)

  /** What an update writes; a payload silent on cancellation leaves both fields alone. */
  function Updated(row: Sub, n: Notice): Sub {
    row.(status := StatusOr(n.status, row.status), clock := Advance(row.clock, n.at),
         start := Known(n.start, row.start), end := Known(n.end, row.end),
         ending := if n.ending.Some? then n.ending.value else row.ending,
         cancelledAt := if n.cancelledAt.Some? then n.cancelledAt
                        else if n.ending == Some(false) then None else row.cancelledAt)
  }

  /** What a deletion writes. */
  function Deleted(row: Sub, n: Notice, now: int): Sub {
    row.(status := Cancelled, clock := Advance(row.clock, n.at),
         start := Known(n.start, row.start), end := Known(n.end, row.end),
         ending := false, cancelledAt := Known(n.cancelledAt, Some(now)))
  }

  /** `handle_subscription_updated` and, when gone is set, `handle_subscription_deleted`. */
  function HandleNotice(book: Book, n: Notice, gone: bool, now: int): Handled {
    var found := Resolve(book.rows, n);
    match found.i
    case None => Handled(Stash(book, n), ParkedNewer(book, n))
    case Some(i) =>
      var row := found.rows[i];
      if Stale(row, n.at, if gone then "canceled" else n.status) then Handled(book.(rows := found.rows), true)
      else Handled(book.(rows := found.rows[i := if gone then Deleted(row, n, now) else Updated(row, n)]), false)
  }

  /** The unique constraints of the table: one row per user and per provider id. */
  predicate UniqueIds(rows: seq<Sub>) {
    forall i, j | 0 <= i < j < |rows| ::
      && (rows[i].user.Some? ==> rows[i].user != rows[j].user)
      && (rows[i].subId != "" ==> rows[i].subId != rows[j].subId)
      && (rows[i].customer != "" ==> rows[i].customer != rows[j].customer)
  }

  /** The row a checkout writes over the one its user had. */
  function CheckedOut(row: Sub, s: Session): Sub {
    var sold := row.(plan := s.plan, customer := s.customer, subId := s.subId);
    if Stale(row, s.at, "active") then sold
    else sold.(status := Active,
               clock := if s.at.None? then row.clock
                        else Some(if row.clock.Some? then Max(s.at.value, row.clock.value) else s.at.value))
  }

  function NewSub(user: nat): Sub { Sub(Some(user), "", Active, "", "", None, None, None, false, None) }

  /** The plan half of `handle_checkout_completed`: claimed once, refused whole when a provider id is taken. */
  function HandleCheckout(book: Book, s: Session): Handled {
    if s.id == "" || s.id in book.sessions then Handled(book, false) else
      var held := Find(book.rows, ByUser(s.user));
      var i := if held.Some? then held.value else |book.rows|;
      var before := if held.Some? then book.rows[i] else NewSub(s.user);
      var rows := if held.Some? then book.rows[i := CheckedOut(before, s)] else book.rows + [CheckedOut(before, s)];
      if !UniqueIds(rows) then Handled(book, false)
      else Handled(ApplyPending(Book(rows, book.pending, book.sessions + {s.id}), i), Stale(before, s.at, "active"))
  }
}
