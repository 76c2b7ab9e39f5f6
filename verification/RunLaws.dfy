/** What holds in every reachable state, in the words of the tables. */
module RunLaws {
  import opened Sums
  import opened Models
  import opened Lots
  import opened Operations
  import opened Clawbacks
  import opened Merges
  import opened Books
  import opened ClawbackBooks
  import opened Soundness
  import opened MoreSoundness
  import opened HoldLaws
  import opened Balances
  import opened Runs
  import opened MergeRuns
  import opened Evolution
  import opened Optimality
  import opened ClawbackLaws
  import opened Rows

  ghost predicate UpTo(run: seq<Timed>, now: int) {
    InTime(run) && forall i | 0 <= i < |run| :: run[i].at <= now
  }

  /** The ledger explains the credits: per wallet, non-merge deltas sum to its lots plus its open reservations. */
  lemma LedgerConserves(run: seq<Timed>, now: int, v: nat)
    requires UpTo(run, now)
    ensures Sum(Run(run).txns, DeltaOf(v)) == Credits(Run(run).lots, v, Everything) + OnHold(Run(run).holds, v)
  {
    RunInv(run, now);
    assert LedgerGap(Run(run), v) == 0;
  }

  function AnyDeltaOf(v: nat): Txn -> int { (t: Txn) => if t.wallet == v then t.delta else 0 }

  function MergeDeltaOf(v: nat): Txn -> int { (t: Txn) => if t.wallet == v && t.note.MergedIn? then t.delta else 0 }

  /**
   * Summed over every row, the ledger exceeds the credits by exactly the merge rows: a merge moves the rows that explain
   * the credits and then adds one more for the same credits.
   */
  lemma MergeRowsAreTheOnlyGap(run: seq<Timed>, now: int, v: nat)
    requires UpTo(run, now)
    ensures Sum(Run(run).txns, AnyDeltaOf(v))
         == Credits(Run(run).lots, v, Everything) + OnHold(Run(run).holds, v) + Sum(Run(run).txns, MergeDeltaOf(v))
  {
    LedgerConserves(run, now, v);
    SumSplit(Run(run).txns, AnyDeltaOf(v), Run(run).txns, DeltaOf(v), MergeDeltaOf(v));
  }

  /** Lots plus open reservations less debt is what was credited, charged, captured, lapsed and clawed back. */
  lemma NetPosition(run: seq<Timed>, now: int, v: nat)
    requires UpTo(run, now)
    ensures Sum(Run(run).txns, EffectOf(v))
         == Credits(Run(run).lots, v, Everything) + OnHold(Run(run).holds, v) - Owed(Run(run).debts, v)
  {
    RunInv(run, now);
    assert PositionGap(Run(run), v) == 0;
  }

  /** The hold state machine, and the home of every allocation. */
  lemma HoldMachine(run: seq<Timed>, now: int, h: nat)
    requires UpTo(run, now) && h < |Run(run).holds|
    ensures var db := Run(run); var x := db.holds[h];
      && (x.status.Held? ==> Total(x.allocs) == x.credits)
      && (x.status.Released? || x.status.Expired? ==> Total(x.allocs) == 0)
      && Sum(db.txns, CountFor(h)) == (if x.status.Captured? then 1 else 0)
      && (x.status.Captured? ==>
            && ChargeRow(db.txns, x.wallet, h).Some?
            && Sum(db.txns, ChargeFor(h)) == 0 - Total(x.allocs))
      && InTable(x.allocs, db.lots, x.wallet)
  {
    RunInv(run, now);
    assert HoldOk(Run(run).holds[h], Run(run).txns, h);
    if Run(run).holds[h].status.Captured? {
      ChargeRowExists(Run(run), h);
    }
  }

  /** The cache lies between what is live and what is left, in every wallet at every later instant. */
  lemma CacheBounds(run: seq<Timed>, now: int, v: nat)
    requires UpTo(run, now) && v < |Run(run).wallets|
    ensures Credits(Run(run).lots, v, After(now)) <= Run(run).wallets[v].balance <= Credits(Run(run).lots, v, Everything)
  {
    RunInv(run, now);
    assert CachedAt(Run(run), v, now);
  }

  lemma {:induction false} SweepFromFresh(db: Db, now: int, k: nat, v: nat)
    requires Inv(db, now) && k <= |db.wallets| && v < |db.wallets| && (v < k ==> Fresh(db, v, now))
    ensures Fresh(SweepFrom(db, now, k), v, now)
    decreases |db.wallets| - k
  {
    if k < |db.wallets| {
      SweepInv(db, k, now, now);
      if v < k {
        SweepOnly(db, k, now);
        assert Sweep(db, k, now).wallets[v] == db.wallets[v];
        assert Credits(Sweep(db, k, now).lots, v, After(now)) == Credits(db.lots, v, After(now));
      }
      SweepFromFresh(Sweep(db, k, now), now, k + 1, v);
    }
  }

  /** The audit finds nothing right after the expiry sweep. */
  lemma AuditIsClean(run: seq<Timed>, now: int)
    requires UpTo(run, now)
    ensures Drifted(ExpireCreditLots(Run(run), now), now) == {}
  {
    RunInv(run, now);
    var r := ExpireCreditLots(Run(run), now);
    forall v | v in Drifted(r, now) ensures false {
      SweepFromFresh(Run(run), now, 0, v);
    }
  }

  // ----- Clawbacks over whole runs -----

  /** What is requested back of a grant, net of reversals, stays within the grant. */
  ghost predicate WithinGrants(txns: seq<Txn>) {
    forall g: nat {:trigger AlreadyClawedBack(txns, g)} ::
      AlreadyClawedBack(txns, g) <= if g < |txns| then Max(0, txns[g].delta) else 0
  }

  lemma FewerRequests(txns: seq<Txn>, txns': seq<Txn>, w: nat, key: Key, kind: Writing)
    requires WithinGrants(txns) && NewRows(txns, txns', w, key, kind) && !kind.Claws?
    ensures WithinGrants(txns')
  {
    forall g: nat ensures AlreadyClawedBack(txns', g) <= if g < |txns'| then Max(0, txns'[g].delta) else 0 {
      assert AlreadyClawedBack(txns, g) <= if g < |txns| then Max(0, txns[g].delta) else 0;
      RequestsFall(txns, txns', g, w, key, kind);
      assert g < |txns| ==> txns'[g] == txns[g] || txns'[g] == MarkReversed(txns[g]);
    }
  }

  lemma RequestsFall(txns: seq<Txn>, txns': seq<Txn>, g: nat, w: nat, key: Key, kind: Writing)
    requires NewRows(txns, txns', w, key, kind) && !kind.Claws?
    ensures AlreadyClawedBack(txns', g) <= AlreadyClawedBack(txns, g)
  {
    var old' := txns'[..|txns|];
    forall t | 0 <= t < |txns| ensures RequestedOf(g)(old'[t]) <= RequestedOf(g)(txns[t]) {
      assert txns'[t] == txns[t] || txns'[t] == MarkReversed(txns[t]);
    }
    SumAtMost(old', RequestedOf(g), txns, RequestedOf(g));
    SumGrow(old', txns', RequestedOf(g), |txns'|);
  }

  lemma {:induction false} ClawBackFromWithin(db: Db, now: int, k: nat, limit: nat, refs: set<string>,
                                              refunded: Option<int>, total: Option<int>, reason: ClawReason,
                                              objectId: string)
    requires Inv(db, now) && k <= limit <= |db.txns| && WithinGrants(db.txns)
    ensures WithinGrants(ClawBackFrom(db, now, k, limit, refs, refunded, total, reason, objectId).txns)
    decreases limit - k
  {
    if k < limit {
      if !Names(db.txns[k], refs) {
        ClawBackFromWithin(db, now, k + 1, limit, refs, refunded, total, reason, objectId);
      } else {
        var goal := EventTarget(db.txns[k], refunded, total);
        var next := OneRemaining(db, now, k, refunded, total, reason, objectId, k, goal);
        forall g: nat ensures AlreadyClawedBack(next.txns, g) <= if g < |next.txns| then Max(0, next.txns[g].delta) else 0 {
          assert AlreadyClawedBack(db.txns, g) <= if g < |db.txns| then Max(0, db.txns[g].delta) else 0;
          var again := OneRemaining(db, now, k, refunded, total, reason, objectId, g, goal);
        }
        ClawBackFromWithin(next, now, k + 1, limit, refs, refunded, total, reason, objectId);
      }
    }
  }

  /** Commands that write no clawback and reverse none leave what was requested of every grant alone. */
  lemma PlainRequests(txns: seq<Txn>, txns': seq<Txn>, w: nat, key: Key, g: nat)
    requires NewRows(txns, txns', w, key, Plain)
    ensures AlreadyClawedBack(txns', g) == AlreadyClawedBack(txns, g)
  {
    SameRequests(txns, txns', g);
  }

  /** A merge moves clawback rows with the rest, and requests nothing. */
  lemma MergeRequests(db: Db, now: int, fromUser: nat, intoUser: nat, sources: set<Source>, g: nat)
    ensures AlreadyClawedBack(MergeOp(db, now, fromUser, intoUser, sources).db.txns, g) == AlreadyClawedBack(db.txns, g)
  {
    var r := MergeOp(db, now, fromUser, intoUser, sources).db;
    if r.txns != db.txns {
      var m := WalletOf(db.wallets, fromUser).value;
      var locked := LockWallet(db, intoUser);
      var key := MergeOf(fromUser, intoUser);
      FoldRequests(locked.db, now, m, locked.w, key, sources, g);
      var folded := Fold(locked.db, now, m, locked.w, key, sources).value;
      RoutineRows(folded.txns, r.txns, 0, NoKey);
      PlainRequests(folded.txns, r.txns, 0, NoKey, g);
    }
  }

  lemma FoldRequests(db: Db, now: int, m: nat, s: nat, key: Key, sources: set<Source>, g: nat)
    requires m < |db.wallets| && s < |db.wallets| && Fold(db, now, m, s, key, sources).Ok?
    ensures AlreadyClawedBack(Fold(db, now, m, s, key, sources).value.txns, g) == AlreadyClawedBack(db.txns, g)
  {
    var swept := Sweep(db, m, now);
    var kept := ForfeitFrom(swept, m, now, sources, 0);
    RoutineRows(db.txns, swept.txns, 0, NoKey);
    PlainRequests(db.txns, swept.txns, 0, NoKey, g);
    ForfeitRows(swept, m, now, sources, 0);
    PlainRequests(swept.txns, kept.txns, 0, NoKey, g);
    var moved := MoveTxns(kept.txns, m, s);
    SumSame(moved, RequestedOf(g), kept.txns, RequestedOf(g));
    SameRequests(moved, Fold(db, now, m, s, key, sources).value.txns, g);
  }

  lemma MergeWithin(db: Db, now: int, fromUser: nat, intoUser: nat, sources: set<Source>)
    requires Sound(db) && WithinGrants(db.txns)
    ensures WithinGrants(MergeOp(db, now, fromUser, intoUser, sources).db.txns)
  {
    var r := MergeOp(db, now, fromUser, intoUser, sources).db;
    MergeEvolves(db, now, fromUser, intoUser, sources);
    forall g: nat ensures AlreadyClawedBack(r.txns, g) == AlreadyClawedBack(db.txns, g) {
      MergeRequests(db, now, fromUser, intoUser, sources, g);
    }
    StillWithin(db.txns, r.txns);
  }

  lemma StillWithin(txns: seq<Txn>, txns': seq<Txn>)
    requires WithinGrants(txns) && LedgerStands(txns, txns')
    requires forall g: nat :: AlreadyClawedBack(txns', g) == AlreadyClawedBack(txns, g)
    ensures WithinGrants(txns')
  {
    forall g: nat ensures AlreadyClawedBack(txns', g) <= if g < |txns'| then Max(0, txns'[g].delta) else 0 {
      assert AlreadyClawedBack(txns, g) <= if g < |txns| then Max(0, txns[g].delta) else 0;
      assert g < |txns| ==> RowStands(txns[g], txns'[g]);
    }
  }

  lemma ApplyWithin(db: Db, clock: int, now: int, c: Command)
    requires Inv(db, clock) && clock <= now && WithinGrants(db.txns)
    ensures WithinGrants(Apply(db, now, c).txns)
  {
    if c.MergeCommand? {
      MergeWithin(db, now, c.fromUser, c.intoUser, c.sources);
    } else if c.ClawbackCommand? {
      CachedLater(db, clock, now);
      var claimed := db.(claims := db.claims + {ClawbackEvent(c.event)});
      ClaimInv(db, claimed.claims, now);
      ClawBackFromWithin(claimed, now, 0, |db.txns|, c.refs, c.refunded, c.total, c.reason, c.objectId);
    } else {
      ApplyRows(db, now, c);
      FewerRequests(db.txns, Apply(db, now, c).txns, OwnWallet(db, c), OwnKey(c), WritingOf(c));
    }
  }

  /** Over every run, with repeats and reversals, the clawbacks in force never exceed their grant. */
  lemma {:induction false} ClawbacksStayWithinGrants(run: seq<Timed>, now: int)
    requires UpTo(run, now)
    ensures WithinGrants(Run(run).txns)
  {
    if run != [] {
      var front, last := run[..|run| - 1], run[|run| - 1];
      ClawbacksStayWithinGrants(front, last.at);
      RunInv(front, last.at);
      ApplyWithin(Run(front), last.at, last.at, last.command);
    }
  }

  // ----- Settlement rows and reservation keys -----

  ghost predicate SettlementsKeyless(txns: seq<Txn>) {
    forall t {:trigger txns[t]} | 0 <= t < |txns| && txns[t].note.Settled? :: txns[t].key.NoKey?
  }

  lemma NewRowsKeyless(txns: seq<Txn>, txns': seq<Txn>, w: nat, key: Key, kind: Writing)
    requires SettlementsKeyless(txns) && NewRows(txns, txns', w, key, kind)
    ensures SettlementsKeyless(txns')
  {
    assert forall t | 0 <= t < |txns| ::
      txns'[t].key == txns[t].key && txns'[t].note.Settled? == txns[t].note.Settled?;
  }

  lemma MergeKeyless(db: Db, now: int, fromUser: nat, intoUser: nat, sources: set<Source>)
    requires SettlementsKeyless(db.txns)
    ensures SettlementsKeyless(MergeOp(db, now, fromUser, intoUser, sources).db.txns)
  {
    var r := MergeOp(db, now, fromUser, intoUser, sources).db;
    if r.txns != db.txns {
      var m := WalletOf(db.wallets, fromUser).value;
      var locked := LockWallet(db, intoUser);
      var swept := Sweep(locked.db, m, now);
      var kept := ForfeitFrom(swept, m, now, sources, 0);
      RoutineRows(db.txns, swept.txns, 0, NoKey);
      NewRowsKeyless(db.txns, swept.txns, 0, NoKey, Plain);
      ForfeitRows(swept, m, now, sources, 0);
      NewRowsKeyless(swept.txns, kept.txns, 0, NoKey, Plain);
      assert SettlementsKeyless(MoveTxns(kept.txns, m, locked.w));
      var folded := Fold(locked.db, now, m, locked.w, MergeOf(fromUser, intoUser), sources).value;
      assert SettlementsKeyless(folded.txns);
      RoutineRows(folded.txns, r.txns, 0, NoKey);
      NewRowsKeyless(folded.txns, r.txns, 0, NoKey, Plain);
    }
  }

  /** No settlement row ever carries a retry key, so no retry is ever answered with a collection. */
  lemma {:induction false} SettlementsCarryNoKey(run: seq<Timed>, now: int)
    requires UpTo(run, now)
    ensures SettlementsKeyless(Run(run).txns)
  {
    if run != [] {
      var front, last := run[..|run| - 1], run[|run| - 1];
      SettlementsCarryNoKey(front, last.at);
      RunInv(front, last.at);
      if last.command.MergeCommand? {
        MergeKeyless(Run(front), last.at, last.command.fromUser, last.command.intoUser, last.command.sources);
      } else {
        ApplyRows(Run(front), last.at, last.command);
        NewRowsKeyless(Run(front).txns, Run(run).txns, OwnWallet(Run(front), last.command), OwnKey(last.command),
                       WritingOf(last.command));
      }
    }
  }

  /** A retry key names one reservation of its wallet, merges included. */
  lemma HoldKeysAreUnique(run: seq<Timed>, now: int, a: nat, b: nat)
    requires UpTo(run, now) && a < |Run(run).holds| && b < |Run(run).holds| && a != b
    ensures Run(run).holds[a].wallet == Run(run).holds[b].wallet ==> Run(run).holds[a].key != Run(run).holds[b].key
  {
    RunInv(run, now);
    assert UniqueKeys(Run(run).holds);
  }
}
