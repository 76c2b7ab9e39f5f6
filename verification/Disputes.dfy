/** Dispute events and their closings: a won dispute gives back what it took, once, however many closings arrive. */
module Disputes {
  import opened Models
  import opened Lots
  import opened Operations
  import opened Clawbacks
  import opened Books
  import opened ClawbackBooks
  import opened Soundness
  import opened Balances
  import opened Runs
  import opened MergeRuns
  import opened Evolution
  import opened ClawbackLaws
  import opened Rows
  import opened RunLaws

  // ----- A reversed row stays reversed -----

  predicate Reversed(t: Txn) { t.note.ClawedBack? && t.note.claw.reversed }

  /** From any point of a run on: a row reversed there is never given back again, whatever happened since. */
  lemma ReversedForGood(run: seq<Timed>, n: nat, now: int, t: nat)
    requires InTime(run) && n <= |run|
    requires t < |Run(run[..n]).txns| && Reversed(Run(run[..n]).txns[t])
    ensures t < |Run(run).txns| && ReverseClawback(Run(run), now, t) == Run(run)
  {
    RunEvolves(run, n);
    assert RowStands(Run(run[..n]).txns[t], Run(run).txns[t]);
  }

  /** Every row the dispute wrote is reversed. */
  ghost predicate AllReversed(txns: seq<Txn>, objectId: string) {
    forall t {:trigger txns[t]} | 0 <= t < |txns| && Disputed(txns[t], objectId) :: Reversed(txns[t])
  }

  lemma {:induction false} NothingToReverse(db: Db, now: int, k: nat, limit: nat, objectId: string)
    requires k <= limit <= |db.txns| && AllReversed(db.txns, objectId)
    ensures ReverseFrom(db, now, k, limit, objectId) == db
    decreases limit - k
  {
    if k < limit {
      NothingToReverse(db, now, k + 1, limit, objectId);
    }
  }

  /** Once its rows are reversed, a dispute's closings may only add their claims. */
  lemma ClosedAgain(db: Db, now: int, event: string, objectId: string, won: bool)
    requires AllReversed(db.txns, objectId)
    ensures var r := CloseDispute(db, now, event, objectId, won);
      r == db || r == db.(claims := db.claims + {ClawbackEvent(event)})
  {
    NothingToReverse(db.(claims := db.claims + {ClawbackEvent(event)}), now, 0, |db.txns|, objectId);
  }

  /** The same over runs: what a dispute wrote up to some point is reversed there, and it wrote nothing since. */
  lemma ClosedForGood(run: seq<Timed>, n: nat, now: int, event: string, objectId: string, won: bool)
    requires InTime(run) && n <= |run| && AllReversed(Run(run[..n]).txns, objectId)
    requires forall t | |Run(run[..n]).txns| <= t < |Run(run).txns| :: !Disputed(Run(run).txns[t], objectId)
    ensures var r := CloseDispute(Run(run), now, event, objectId, won);
      r == Run(run) || r == Run(run).(claims := Run(run).claims + {ClawbackEvent(event)})
  {
    RunEvolves(run, n);
    var before, after := Run(run[..n]).txns, Run(run).txns;
    forall t | 0 <= t < |after| && Disputed(after[t], objectId) ensures Reversed(after[t]) {
      assert RowStands(before[t], after[t]);
    }
    ClosedAgain(Run(run), now, event, objectId, won);
  }

  // ----- One dispute event, then its closings -----

  /** A closing event of the dispute. */
  datatype Closing = Closing(at: int, event: string, won: bool)

  /** Closings one after another. */
  function CloseAll(db: Db, objectId: string, cs: seq<Closing>): Db {
    if cs == [] then db else
      var c := cs[|cs| - 1];
      CloseDispute(CloseAll(db, objectId, cs[..|cs| - 1]), c.at, c.event, objectId, c.won)
  }

  /** A closing the handler acts on: won, with an event id nobody has claimed. */
  predicate Counts(c: Closing, claims: set<Claim>) {
    c.won && c.event != "" && ClawbackEvent(c.event) !in claims
  }

  ghost predicate SomeCounts(cs: seq<Closing>, claims: set<Claim>) {
    exists i :: 0 <= i < |cs| && Counts(cs[i], claims)
  }

  /** The event's object names this grant and no other. */
  ghost predicate NamesOnly(txns: seq<Txn>, refs: set<string>, g: nat) {
    && g < |txns| && Names(txns[g], refs)
    && forall k {:trigger txns[k]} | 0 <= k < |txns| && k != g :: !Names(txns[k], refs)
  }

  /** The part of the ledger an event walks names nothing from row k on. */
  lemma {:induction false} NothingNamed(db: Db, now: int, k: nat, limit: nat, e: MoneyBack)
    requires k <= limit <= |db.txns| && forall j | k <= j < limit :: !Names(db.txns[j], e.refs)
    ensures ClawBackFrom(db, now, k, limit, e.refs, e.refunded, e.total, e.reason, e.objectId) == db
    decreases limit - k
  {
    if k < limit {
      NothingNamed(db, now, k + 1, limit, e);
    }
  }

  lemma {:induction false} OneNamed(db: Db, now: int, k: nat, e: MoneyBack, g: nat)
    requires NamesOnly(db.txns, e.refs, g) && k <= g
    ensures ClawBackFrom(db, now, k, |db.txns|, e.refs, e.refunded, e.total, e.reason, e.objectId)
         == ClawBackRemaining(db, now, g, e.refunded, e.total, e.reason, e.objectId)
    decreases g - k
  {
    if k < g {
      OneNamed(db, now, k + 1, e, g);
    } else {
      var next := ClawBackRemaining(db, now, g, e.refunded, e.total, e.reason, e.objectId);
      RemainingAppends(db, now, g, e.refunded, e.total, e.reason, e.objectId);
      NothingNamed(next, now, g + 1, |db.txns|, e);
    }
  }

  /** The dispute has written one row, the last one, and it is open. */
  ghost predicate OneOpenClaw(db: Db, t: nat, w: nat, g: nat, objectId: string) {
    && OpenClaw(db, t, w, g) && |db.txns| == t + 1 && Disputed(db.txns[t], objectId)
    && forall k {:trigger db.txns[k]} | 0 <= k < t :: !Disputed(db.txns[k], objectId)
  }

  lemma {:induction false} ReversesTheOne(db: Db, now: int, k: nat, t: nat, w: nat, g: nat, objectId: string)
    requires OneOpenClaw(db, t, w, g, objectId) && k <= t
    ensures ReverseFrom(db, now, k, |db.txns|, objectId) == ReverseClawback(db, now, t)
    decreases t - k
  {
    if k < t {
      ReversesTheOne(db, now, k + 1, t, w, g, objectId);
    }
  }

  /** Reversing the dispute's one row leaves none of its rows open. */
  lemma ReversedOnce(db: Db, now: int, t: nat, w: nat, g: nat, objectId: string)
    requires OneOpenClaw(db, t, w, g, objectId) && w < |db.wallets|
    ensures AllReversed(ReverseClawback(db, now, t).txns, objectId)
  {
    ReverseRows(db, now, t);
    ReversalMarks(db, now, t);
  }

  lemma ReversalMarks(db: Db, now: int, t: nat)
    requires t < |db.txns| && db.txns[t].note.ClawedBack? && db.txns[t].wallet < |db.wallets|
    ensures Reversed(ReverseClawback(db, now, t).txns[t])
  {
  }

  /** Credits live at an instant, and the debt of a wallet. */
  ghost predicate Standing(db: Db, w: nat, at: int, live: nat, owed: nat) {
    Credits(db.lots, w, After(at)) == live && Owed(db.debts, w) == owed
  }

  /** The first closing that counts gives back what the dispute took, whenever it comes. */
  lemma FirstClosing(db: Db, c: Closing, t: nat, w: nat, g: nat, objectId: string, at: int, live: nat)
    returns (closed: Db)
    requires Sound(db) && OneOpenClaw(db, t, w, g, objectId) && objectId != "" && c.at <= at
    requires Owed(db.debts, w) == db.txns[t].note.claw.outstanding
    requires Credits(db.lots, w, After(at))
          == live - (if Beyond(GrantDeadline(db.lots, g), After(at)) then db.txns[t].note.claw.reclaimed else 0)
    requires Counts(c, db.claims)
    ensures closed == CloseDispute(db, c.at, c.event, objectId, c.won)
    ensures AllReversed(closed.txns, objectId) && Standing(closed, w, at, live, 0)
  {
    var claimed := db.(claims := db.claims + {ClawbackEvent(c.event)});
    closed := CloseDispute(db, c.at, c.event, objectId, c.won);
    assert Disputed(db.txns[t], objectId);
    ReversesTheOne(claimed, c.at, 0, t, w, g, objectId);
    assert NoteRefs(db.txns[t], db.txns, db.holds, db.debts);
    ReversedOnce(claimed, c.at, t, w, g, objectId);
    var restored := ReverseUndoes(claimed, t, w, g, c.at, at);
  }

  /** Any closings of a dispute with one open row: until one counts nothing changes, and from then on nothing but claims. */
  lemma {:induction false} Closings(db: Db, cs: seq<Closing>, t: nat, w: nat, g: nat, objectId: string, at: int, live: nat)
    requires Sound(db) && OneOpenClaw(db, t, w, g, objectId) && objectId != ""
    requires Owed(db.debts, w) == db.txns[t].note.claw.outstanding
    requires Credits(db.lots, w, After(at))
          == live - (if Beyond(GrantDeadline(db.lots, g), After(at)) then db.txns[t].note.claw.reclaimed else 0)
    requires forall i | 0 <= i < |cs| :: cs[i].at <= at
    ensures var r := CloseAll(db, objectId, cs);
      if SomeCounts(cs, db.claims) then AllReversed(r.txns, objectId) && Standing(r, w, at, live, 0) else r == db
  {
    if cs != [] {
      var front, c := cs[..|cs| - 1], cs[|cs| - 1];
      Closings(db, front, t, w, g, objectId, at, live);
      var before := CloseAll(db, objectId, front);
      if i :| 0 <= i < |front| && Counts(front[i], db.claims) {
        assert Counts(cs[i], db.claims);
        ClosedAgain(before, c.at, c.event, objectId, c.won);
      } else if Counts(c, db.claims) {
        var closed := FirstClosing(db, c, t, w, g, objectId, at, live);
        assert Counts(cs[|cs| - 1], db.claims);
      } else {
        assert forall i | 0 <= i < |cs| :: cs[i] == if i < |front| then front[i] else c;
      }
    }
  }

  /** With no row of its own, a dispute's closings change nothing. */
  lemma {:induction false} NothingToClose(db: Db, cs: seq<Closing>, objectId: string)
    requires forall k | 0 <= k < |db.txns| :: !Disputed(db.txns[k], objectId)
    ensures CloseAll(db, objectId, cs) == db
  {
    if cs != [] { NothingToClose(db, cs[..|cs| - 1], objectId); }
  }

  /** The dispute event on one grant: nothing left to request, or one open row at the end of the ledger. */
  lemma DisputeOpens(db: Db, now: int, e: MoneyBack, g: nat, at: int) returns (disputed: Db)
    requires Sound(db) && now <= at && NamesOnly(db.txns, e.refs, g) && e.reason.ByDispute?
    requires e.event != "" && ClawbackEvent(e.event) !in db.claims
    requires forall k | 0 <= k < |db.txns| :: !Disputed(db.txns[k], e.objectId)
    requires Owed(db.debts, db.txns[g].wallet) == 0
    ensures disputed == Deliver(db, now, e)
    ensures var w := db.txns[g].wallet; var t := |disputed.txns| - 1;
      if disputed.txns == db.txns then disputed == db.(claims := disputed.claims)
      else
        && Sound(disputed) && t >= 0 && OneOpenClaw(disputed, t, w, g, e.objectId)
        && Owed(disputed.debts, w) == disputed.txns[t].note.claw.outstanding
        && Credits(disputed.lots, w, After(at)) == Credits(db.lots, w, After(at))
             - (if Beyond(GrantDeadline(disputed.lots, g), After(at)) then disputed.txns[t].note.claw.reclaimed else 0)
  {
    var claimed := db.(claims := db.claims + {ClawbackEvent(e.event)});
    disputed := Deliver(db, now, e);
    assert Names(db.txns[g], e.refs);
    OneNamed(claimed, now, 0, e, g);
    var more := RemainingIs(claimed, now, g, e.refunded, e.total, e.reason, e.objectId);
    if disputed != claimed {
      var clawed, t := Clawed(claimed, now, g, more, e.objectId, at);
      WrittenLast(claimed, now, g, more, e.objectId);
    }
  }

  /** A clawback's own row is the last; before it stand the old rows and the sweep's. */
  lemma WrittenLast(db: Db, now: int, g: nat, requested: nat, objectId: string)
    requires g < |db.txns| && db.txns[g].wallet < |db.wallets|
    requires forall k | 0 <= k < |db.txns| :: !Disputed(db.txns[k], objectId)
    ensures var r := ClawBack(db, now, g, requested, ByDispute, objectId).txns; var t := |r| - 1;
      && |r| > |db.txns| && Disputed(r[t], objectId) && forall k | 0 <= k < t :: !Disputed(r[k], objectId)
  {
    var swept := Sweep(db, db.txns[g].wallet, now);
    assert Routine(db.txns, swept.txns);
  }

  /**
   * A dispute event naming one grant of a wallet that owes nothing, then any closings, redelivered or not, won or lost, at
   * any times: once a won one with a fresh event id is among them, live credits at every later instant and the debt are
   * as before the dispute; otherwise they leave what the dispute did as it was.
   */
  lemma WonDisputeRestores(db: Db, clock: int, now: int, e: MoneyBack, g: nat, cs: seq<Closing>, at: int)
    returns (disputed: Db, last: Db)
    requires Inv(db, clock) && now <= at && NamesOnly(db.txns, e.refs, g) && e.reason.ByDispute? && e.objectId != ""
    requires e.event != "" && ClawbackEvent(e.event) !in db.claims
    requires forall k | 0 <= k < |db.txns| :: !Disputed(db.txns[k], e.objectId)
    requires Owed(db.debts, db.txns[g].wallet) == 0 && forall i | 0 <= i < |cs| :: cs[i].at <= at
    ensures disputed == Deliver(db, now, e) && last == CloseAll(disputed, e.objectId, cs)
    ensures SomeCounts(cs, disputed.claims) ==>
              AllReversed(last.txns, e.objectId)
              && Standing(last, db.txns[g].wallet, at, Credits(db.lots, db.txns[g].wallet, After(at)), 0)
    ensures !SomeCounts(cs, disputed.claims) ==> last == disputed
  {
    var w := db.txns[g].wallet;
    disputed := DisputeOpens(db, now, e, g, at);
    last := CloseAll(disputed, e.objectId, cs);
    if disputed.txns == db.txns {
      NothingToClose(disputed, cs, e.objectId);
    } else {
      Closings(disputed, cs, |disputed.txns| - 1, w, g, e.objectId, at, Credits(db.lots, w, After(at)));
    }
  }
}
