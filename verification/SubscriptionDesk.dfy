/** The subscription handlers as services.py runs them: rows, stash and stale mark changed in place, field by field. */
module SubscriptionDesk {
  import opened Sums
  import opened Models
  import opened Subscriptions

  class Desk {
    var rows: seq<Sub>
    var pending: map<string, Pending>
    var sessions: set<string>
    /** The mark of `note_stale_event`. */
    var stale: bool

    function Contents(): Book
      reads this
    {
      Book(rows, pending, sessions)
    }

    constructor ()
      ensures Contents() == Book([], map[], {}) && !stale
    {
      rows, pending, sessions, stale := [], map[], {}, false;
    }

    /** The stored row an event belongs to, adopting the ids it was missing. */
    method ResolveRow(n: Notice) returns (i: Option<nat>)
      modifies `rows
      ensures Found(rows, i) == Resolve(old(rows), n)
      ensures |rows| == old(|rows|) && (i.Some? ==> i.value < |rows|)
    {
      if n.subId != "" {
        i := Find(rows, BySub(n.subId));
        if i.Some? {
          return;
        }
      }
      if n.customer != "" {
        i := Find(rows, ByCustomer(n.customer));
        if i.Some? {
          if n.subId != "" && rows[i.value].subId == "" {
            rows := rows[i.value := rows[i.value].(subId := n.subId)];
          }
          return;
        }
      }
      i := None;
      if n.user.Some? {
        i := Find(rows, ByUser(n.user.value));
        if i.Some? {
          if n.subId != "" && rows[i.value].subId == "" {
            rows := rows[i.value := rows[i.value].(subId := n.subId)];
          }
          if n.customer != "" && rows[i.value].customer == "" {
            rows := rows[i.value := rows[i.value].(customer := n.customer)];
          }
        }
      }
    }

    /** `_stash_subscription_period`. */
    method StashPeriod(n: Notice)
      modifies `pending, `stale
      ensures Contents() == Stash(old(Contents()), n)
      ensures stale <==> old(stale) || ParkedNewer(old(Contents()), n)
    {
      if n.subId == "" {
        return;
      }
      var held := Pending("", "", None, None, None);
      if n.subId in pending {
        held := pending[n.subId];
        if n.at.Some? && held.at.Some? && n.at.value < held.at.value {
          stale := true;
          return;
        }
      }
      held := held.(customer := n.customer, status := n.status);
      if n.at.Some? {
        held := held.(at := n.at);
      }
      if n.start.Some? {
        held := held.(start := n.start);
      }
      if n.end.Some? {
        held := held.(end := n.end);
      }
      pending := pending[n.subId := held];
    }

    /** `_apply_stripe_period`: a missing period leaves the row's own. */
    method ApplyPeriod(i: nat, start: Option<int>, end: Option<int>)
      requires i < |rows|
      modifies `rows
      ensures rows == old(rows)[i := old(rows)[i].(start := Known(start, old(rows)[i].start),
                                                   end := Known(end, old(rows)[i].end))]
    {
      if start.Some? {
        rows := rows[i := rows[i].(start := start)];
      }
      if end.Some? {
        rows := rows[i := rows[i].(end := end)];
      }
    }

    /** `_advance_provider_clock`. */
    method AdvanceClock(i: nat, at: Option<int>)
      requires i < |rows|
      modifies `rows
      ensures rows == old(rows)[i := old(rows)[i].(clock := Advance(old(rows)[i].clock, at))]
    {
      if at.None? || (rows[i].clock.Some? && at.value <= rows[i].clock.value) {
        return;
      }
      rows := rows[i := rows[i].(clock := at)];
    }

    /** `_apply_pending_period`. */
    method ApplyPendingPeriod(i: nat) returns (changed: bool)
      requires i < |rows|
      modifies `rows, `pending
      ensures Contents() == ApplyPending(old(Contents()), i)
      ensures changed <==> rows[i] != old(rows)[i]
    {
      var id := rows[i].subId;
      if id == "" || id !in pending {
        return false;
      }
      var before := rows[i];
      var p := pending[id];
      ApplyPeriod(i, p.start, p.end);
      var staleStatus := p.at.Some? && rows[i].clock.Some? && p.at.value < rows[i].clock.value;
      if !staleStatus {
        rows := rows[i := rows[i].(status := StatusOr(p.status, rows[i].status))];
        AdvanceClock(i, p.at);
      }
      pending := pending - {id};
      changed := rows[i] != before;
    }

    /** The fields an update writes. */
    method WriteUpdate(i: nat, n: Notice)
      requires i < |rows|
      modifies `rows
      ensures rows == old(rows)[i := Updated(old(rows)[i], n)]
    {
      rows := rows[i := rows[i].(status := StatusOr(n.status, rows[i].status))];
      ApplyPeriod(i, n.start, n.end);
      if n.ending.Some? {
        rows := rows[i := rows[i].(ending := n.ending.value)];
      }
      if n.cancelledAt.Some? {
        rows := rows[i := rows[i].(cancelledAt := n.cancelledAt)];
      } else if n.ending == Some(false) {
        rows := rows[i := rows[i].(cancelledAt := None)];
      }
      AdvanceClock(i, n.at);
    }

    /** The fields a deletion writes. */
    method WriteDeletion(i: nat, n: Notice, now: int)
      requires i < |rows|
      modifies `rows
      ensures rows == old(rows)[i := Deleted(old(rows)[i], n, now)]
    {
      rows := rows[i := rows[i].(status := Cancelled)];
      rows := rows[i := rows[i].(cancelledAt := Known(n.cancelledAt, Some(now)))];
      rows := rows[i := rows[i].(ending := false)];
      ApplyPeriod(i, n.start, n.end);
      AdvanceClock(i, n.at);
    }

    /** `handle_subscription_updated` and `handle_subscription_deleted`. */
    method Receive(n: Notice, gone: bool, now: int)
      modifies this
      ensures var h := HandleNotice(old(Contents()), n, gone, now);
        Contents() == h.book && (stale <==> old(stale) || h.stale)
    {
      var found := ResolveRow(n);
      if found.None? {
        StashPeriod(n);
        return;
      }
      var i := found.value;
      if Stale(rows[i], n.at, if gone then "canceled" else n.status) {
        stale := true;
        return;
      }
      if gone {
        WriteDeletion(i, n, now);
      } else {
        WriteUpdate(i, n);
      }
    }

    /** The plan half of `handle_checkout_completed`; a taken provider id undoes the claim with everything else. */
    method Complete(s: Session) returns (mine: bool)
      modifies this
      ensures var h := HandleCheckout(old(Contents()), s);
        Contents() == h.book && (stale <==> old(stale) || h.stale)
      ensures mine <==> s.id != "" && sessions == old(sessions) + {s.id} && s.id !in old(sessions)
    {
      if s.id == "" || s.id in sessions {
        return false;
      }
      var saved, mark := Contents(), stale;
      sessions := sessions + {s.id};
      var existing := Find(rows, ByUser(s.user));
      var row := NewSub(s.user);
      if existing.Some? {
        row := rows[existing.value];
      }
      var sold := row.(plan := s.plan, customer := s.customer, subId := s.subId);
      if existing.Some? && Stale(row, s.at, "active") {
        stale := true;
      } else {
        sold := sold.(status := Active);
        if s.at.Some? {
          sold := sold.(clock := Some(if row.clock.Some? then Max(s.at.value, row.clock.value) else s.at.value));
        }
      }
      var i := |rows|;
      if existing.Some? {
        i := existing.value;
        rows := rows[i := sold];
      } else {
        rows := rows + [sold];
      }
      if !UniqueIds(rows) {
        rows, sessions, stale := saved.rows, saved.sessions, mark;
        return false;
      }
      var dated := ApplyPendingPeriod(i);
      mine := true;
    }
  }
}
