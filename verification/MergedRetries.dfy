/** Retries across a merge: two accounts may have used one retry key, and the survivor answers with the newest row. */
module MergedRetries {
  import opened Models
  import opened Lots
  import opened Operations
  import opened Merges
  import opened Soundness
  import opened MoreSoundness
  import opened Balances
  import opened Runs
  import opened MergeRuns
  import opened Evolution
  import opened Rows
  import opened RunLaws
  import opened Charging

  /** The ledger after m's rows moved to s: keys as they were, and no new row under a caller's key. */
  ghost predicate Arrived(txns: seq<Txn>, txns': seq<Txn>, m: nat, s: nat) {
    && |txns| <= |txns'|
    && (forall i {:trigger txns'[i]} | 0 <= i < |txns| ::
          txns'[i].key == txns[i].key && txns'[i].wallet == Moved(txns[i].wallet, m, s))
    && (forall i {:trigger txns'[i]} | |txns| <= i < |txns'| :: !txns'[i].key.Caller?)
  }

  lemma FoldArrives(db: Db, now: int, m: nat, s: nat, fromUser: nat, intoUser: nat, sources: set<Source>)
    requires m < |db.wallets| && s < |db.wallets|
    requires Fold(db, now, m, s, MergeOf(fromUser, intoUser), sources).Ok?
    ensures Arrived(db.txns, Fold(db, now, m, s, MergeOf(fromUser, intoUser), sources).value.txns, m, s)
  {
    var swept := Sweep(db, m, now);
    ForfeitRows(swept, m, now, sources, 0);
    var kept := ForfeitFrom(swept, m, now, sources, 0);
    assert forall i | 0 <= i < |db.txns| :: swept.txns[i] == db.txns[i];
    assert Arrived(db.txns, MoveTxns(kept.txns, m, s), m, s);
  }

  lemma MergeArrives(db: Db, now: int, fromUser: nat, intoUser: nat, sources: set<Source>)
    requires MergeOp(db, now, fromUser, intoUser, sources).out == Ok(true)
    ensures Arrived(db.txns, MergeOp(db, now, fromUser, intoUser, sources).db.txns,
                    WalletOf(db.wallets, fromUser).value, LockWallet(db, intoUser).w)
  {
    var m, locked := WalletOf(db.wallets, fromUser).value, LockWallet(db, intoUser);
    FoldArrives(locked.db, now, m, locked.w, fromUser, intoUser, sources);
    var folded := Fold(locked.db, now, m, locked.w, MergeOf(fromUser, intoUser), sources).value;
    assert Routine(folded.txns, SettleDebts(folded, locked.w, now).txns);
  }

  /** The merged account used the same key in a later row. */
  ghost predicate Eclipsed(txns: seq<Txn>, m: nat, key: string, t: nat) {
    exists i :: t < i < |txns| && txns[i].wallet == m && txns[i].key == Caller(key)
  }

  lemma NewestArrived(txns: seq<Txn>, txns': seq<Txn>, m: nat, w: nat, key: string, t: nat)
    requires Arrived(txns, txns', m, w) && OnlyRow(txns, w, key, t) && m != w
    ensures KeyRow(txns', w, Caller(key)).Some?
    ensures KeyRow(txns', w, Caller(key)) == Some(t) <==> !Eclipsed(txns, m, key, t)
  {
    assert txns'[t].wallet == w && txns'[t].key == Caller(key);
    var k := KeyRow(txns', w, Caller(key)).value;
    assert k < |txns| && txns[k].key == Caller(key);
    if k != t { assert txns[k].wallet == m && t < k; }
    if i :| t < i < |txns| && txns[i].wallet == m && txns[i].key == Caller(key) {
      assert txns'[i].wallet == w && txns'[i].key == Caller(key);
    }
  }

  lemma MergeKeepsStory(db: Db, clock: int, now: int, fromUser: nat, user: nat, sources: set<Source>, t: nat, n: nat)
    requires Inv(db, clock) && clock <= now && t < |db.txns| && (db.txns[t].note.Debited? || db.txns[t].note.Waived?)
    requires MergeOp(db, now, fromUser, user, sources).out == Ok(true)
    ensures var r := MergeOp(db, now, fromUser, user, sources).db;
      t < |r.txns| && ReplayDebit(r, t, n) == ReplayDebit(db, t, n)
  {
    MergeEvolves(db, now, fromUser, user, sources);
    SameStory(db, MergeOp(db, now, fromUser, user, sources).db, t, n);
  }

  /** A ledger row and debts that only fall tell a retry what they told before. */
  lemma SameStory(db: Db, r: Db, t: nat, n: nat)
    requires Evolves(db, r)
    requires t < |db.txns| && (db.txns[t].note.Debited? || db.txns[t].note.Waived?)
    ensures t < |r.txns| && ReplayDebit(r, t, n) == ReplayDebit(db, t, n)
  {
    assert RowStands(db.txns[t], r.txns[t]);
    forall d | 0 <= d < |db.debts| ensures r.debts[d].txn == db.debts[d].txn {
      assert DebtFalls(db.debts[d], r.debts[d]);
    }
    SameDebtOf(db.debts, r.debts, t);
  }

  /**
   * After another account is merged into the user's, a retried partial debit still changes nothing; it tells the first
   * call's story exactly when the merged account had not used the same key in a later row.
   */
  lemma MergedRetryIff(db: Db, clock: int, now: int, fromUser: nat, user: nat, sources: set<Source>, w: nat,
                       key: string, t: nat, told: Receipt, n: nat, later: int, meterOnly: bool)
    requires Inv(db, clock) && clock <= now && n > 0 && key != "" && told.txn == t
    requires Tells(db, user, w, key, t, told, n)
    requires MergeOp(db, now, fromUser, user, sources).out == Ok(true)
    ensures var r := MergeOp(db, now, fromUser, user, sources).db;
      var retry := DebitOp(r, later, user, n, key, true, meterOnly);
      && retry.db == r && retry.out.Ok? && retry.out.value.Partial?
      && (retry.out.value.receipt == told
          <==> !Eclipsed(db.txns, WalletOf(db.wallets, fromUser).value, key, t))
  {
    var m, r := WalletOf(db.wallets, fromUser).value, MergeOp(db, now, fromUser, user, sources).db;
    MergeArrives(db, now, fromUser, user, sources);
    NewestArrived(db.txns, r.txns, m, w, key, t);
    MergeKeepsStory(db, clock, now, fromUser, user, sources, t, n);
    SurvivorKept(db, clock, now, fromUser, user, sources, w);
  }

  lemma SurvivorKept(db: Db, clock: int, now: int, fromUser: nat, user: nat, sources: set<Source>, w: nat)
    requires Inv(db, clock) && clock <= now && WalletOf(db.wallets, user) == Some(w)
    requires MergeOp(db, now, fromUser, user, sources).out == Ok(true)
    ensures LockWallet(MergeOp(db, now, fromUser, user, sources).db, user)
         == Locked(MergeOp(db, now, fromUser, user, sources).db, w)
  {
    MergeInv(db, clock, now, fromUser, user, sources);
    SurvivorStays(db, now, fromUser, user, sources, w);
    KeepsWallet(MergeOp(db, now, fromUser, user, sources).db.wallets, user, w);
  }

  lemma SurvivorStays(db: Db, now: int, fromUser: nat, user: nat, sources: set<Source>, w: nat)
    requires Users(db.wallets) && WalletOf(db.wallets, user) == Some(w)
    requires MergeOp(db, now, fromUser, user, sources).out == Ok(true)
    ensures var r := MergeOp(db, now, fromUser, user, sources).db;
      w < |r.wallets| && r.wallets[w].user == Some(user)
  {
    var m := WalletOf(db.wallets, fromUser).value;
    assert LockWallet(db, user) == Locked(db, w) && m != w;
    var folded := Fold(db, now, m, w, MergeOf(fromUser, user), sources).value;
    assert folded.wallets[w].user == Some(user);
  }

  // ----- Over runs -----

  /** Every merge may name the user as the survivor; none takes the user's wallet away. */
  predicate Remains(c: Command, user: nat) { c.MergeCommand? ==> c.fromUser != user }

  /** A command that merges another account into the user's, bringing a row under the key newer than t. */
  ghost predicate Overtakes(db: Db, now: int, c: Command, user: nat, key: string, t: nat) {
    && c.MergeCommand? && c.intoUser == user && MergeOp(db, now, c.fromUser, user, c.sources).out == Ok(true)
    && Eclipsed(db.txns, WalletOf(db.wallets, c.fromUser).value, key, t)
  }

  /** Some account merged into the user's along the way had used the key in a row newer than t. */
  ghost predicate Overtaken(db: Db, more: seq<Timed>, user: nat, key: string, t: nat) {
    more != []
    && (Overtaken(db, more[..|more| - 1], user, key, t)
        || Overtakes(Continue(db, more[..|more| - 1]), more[|more| - 1].at, more[|more| - 1].command, user, key, t))
  }

  /** The key's newest row is t, or a newer one exactly when something overtook it. */
  ghost predicate Answers(txns: seq<Txn>, w: nat, key: string, t: nat, overtaken: bool) {
    && KeyRow(txns, w, Caller(key)).Some? && KeyRow(txns, w, Caller(key)).value >= t
    && (KeyRow(txns, w, Caller(key)) == Some(t) <==> !overtaken)
  }

  /** A merge leaves the newest row under a key the newest of the survivor's and the arrivals'. */
  lemma ArrivedNewest(txns: seq<Txn>, txns': seq<Txn>, m: nat, s: nat, w: nat, key: string, k: nat)
    requires Arrived(txns, txns', m, s) && m != w && KeyRow(txns, w, Caller(key)) == Some(k)
    ensures Answers(txns', w, key, k, s == w && Eclipsed(txns, m, key, k))
  {
    assert txns'[k].wallet == w && txns'[k].key == Caller(key);
    var r := KeyRow(txns', w, Caller(key)).value;
    assert r < |txns| && txns[r].key == Caller(key) && Moved(txns[r].wallet, m, s) == w;
    if s == w {
      if i :| k < i < |txns| && txns[i].wallet == m && txns[i].key == Caller(key) {
        assert txns'[i].wallet == w && txns'[i].key == Caller(key);
      }
    }
  }

  lemma StepWallet(db: Db, clock: int, now: int, c: Command, user: nat, w: nat)
    requires Inv(db, clock) && clock <= now && Remains(c, user) && WalletOf(db.wallets, user) == Some(w)
    ensures WalletOf(Apply(db, now, c).wallets, user) == Some(w)
  {
    ApplyInv(db, clock, now, c);
    if c.MergeCommand? {
      MergeKeepsUser(db, now, c.fromUser, c.intoUser, c.sources, user, w);
    } else {
      ApplyUsers(db, now, c);
    }
    KeepsWallet(Apply(db, now, c).wallets, user, w);
  }

  lemma StepKeyRow(db: Db, now: int, c: Command, user: nat, w: nat, key: string, k: nat)
    requires Users(db.wallets) && Remains(c, user) && WalletOf(db.wallets, user) == Some(w) && key != ""
    requires KeyRow(db.txns, w, Caller(key)) == Some(k)
    ensures Answers(Apply(db, now, c).txns, w, key, k, Overtakes(db, now, c, user, key, k))
  {
    if !c.MergeCommand? {
      ApplyKeepsNewest(db, now, c, user, w, key);
    } else if MergeOp(db, now, c.fromUser, c.intoUser, c.sources).out == Ok(true) {
      MergeArrives(db, now, c.fromUser, c.intoUser, c.sources);
      var m := WalletOf(db.wallets, c.fromUser).value;
      assert m != w;
      ArrivedNewest(db.txns, Apply(db, now, c).txns, m, LockWallet(db, c.intoUser).w, w, key, k);
    } else {
      assert MergeOp(db, now, c.fromUser, c.intoUser, c.sources).db == db;
    }
  }

  /** One command: the newest row under the key moves on exactly when a merge into the user's account overtakes it. */
  lemma StepAnswers(db: Db, now: int, c: Command, user: nat, w: nat, key: string, t: nat, overtaken: bool)
    requires Users(db.wallets) && Remains(c, user) && WalletOf(db.wallets, user) == Some(w) && key != ""
    requires Answers(db.txns, w, key, t, overtaken)
    ensures Answers(Apply(db, now, c).txns, w, key, t, overtaken || Overtakes(db, now, c, user, key, t))
  {
    StepKeyRow(db, now, c, user, w, key, KeyRow(db.txns, w, Caller(key)).value);
  }

  ghost predicate AllRemain(more: seq<Timed>, user: nat) {
    forall i {:trigger more[i]} | 0 <= i < |more| :: Remains(more[i].command, user)
  }

  /** The user keeps the wallet, and what stood stands. */
  lemma {:induction false} ContinueWallet(db: Db, clock: int, more: seq<Timed>, now: int, user: nat, w: nat)
    returns (r: Db)
    requires Inv(db, clock) && Within(more, clock, now) && AllRemain(more, user)
    requires WalletOf(db.wallets, user) == Some(w)
    ensures r == Continue(db, more) && Inv(r, now) && Evolves(db, r) && WalletOf(r.wallets, user) == Some(w)
  {
    ContinueInv(db, clock, more, now);
    r := Continue(db, more);
    if more != [] {
      var front, last := more[..|more| - 1], more[|more| - 1];
      var before := ContinueWallet(db, clock, front, last.at, user, w);
      StepWallet(before, last.at, last.at, last.command, user, w);
      ApplyEvolves(before, last.at, last.at, last.command);
      EvolvesOnward(db, before, r);
    }
  }

  lemma {:induction false} ContinueAnswers(db: Db, clock: int, more: seq<Timed>, now: int, user: nat, w: nat, key: string,
                                           t: nat)
    requires Inv(db, clock) && Within(more, clock, now) && AllRemain(more, user) && key != ""
    requires WalletOf(db.wallets, user) == Some(w) && KeyRow(db.txns, w, Caller(key)) == Some(t)
    ensures Answers(Continue(db, more).txns, w, key, t, Overtaken(db, more, user, key, t))
  {
    if more != [] {
      var front, last := more[..|more| - 1], more[|more| - 1];
      ContinueAnswers(db, clock, front, last.at, user, w, key, t);
      var before := ContinueWallet(db, clock, front, last.at, user, w);
      StepAnswers(before, last.at, last.command, user, w, key, t, Overtaken(db, front, user, key, t));
    }
  }

  /**
   * A retried partial debit after any later commands that leave the user an account, merges into it included: nothing
   * changes, and the first call's receipt is told exactly when no account merged in had used the key in a later row.
   */
  lemma RetryAcrossMergesIff(run: seq<Timed>, now: int, user: nat, n: nat, key: string, meterOnly: bool,
                             more: seq<Timed>, end: int, later: int, meterOnlyLater: bool)
    returns (first: Step<Charge>)
    requires UpTo(run, now) && n > 0 && key != "" && Within(more, now, end) && AllRemain(more, user)
    requires KeyRow(Run(run).txns, LockWallet(Run(run), user).w, Caller(key)).None?
    ensures first == DebitOp(Run(run), now, user, n, key, true, meterOnly)
    ensures first.out.Ok? && first.out.value.Partial?
    ensures var last := Continue(first.db, more);
      var retry := DebitOp(last, later, user, n, key, true, meterOnlyLater);
      && retry.db == last && retry.out.Ok?
      && (retry.out == first.out <==> !Overtaken(first.db, more, user, key, first.out.value.receipt.txn))
  {
    var w;
    first, w := FirstCallTells(run, now, user, n, key, meterOnly);
    var t := first.out.value.receipt.txn;
    ContinueAnswers(first.db, now, more, end, user, w, key, t);
    var last := ContinueWallet(first.db, now, more, end, user, w);
    RetryReplays(first.db, last, later, user, w, key, t, first.out.value.receipt, n, meterOnlyLater);
  }

  /** What a retry is answered with: the newest row under its key. */
  lemma RetryReplays(db: Db, last: Db, later: int, user: nat, w: nat, key: string, t: nat, told: Receipt, n: nat,
                     meterOnly: bool)
    requires Tells(db, user, w, key, t, told, n) && told.txn == t && Evolves(db, last) && n > 0 && key != ""
    requires WalletOf(last.wallets, user) == Some(w) && KeyRow(last.txns, w, Caller(key)).Some?
    ensures var retry := DebitOp(last, later, user, n, key, true, meterOnly);
      && retry.db == last && retry.out.Ok?
      && (retry.out == Ok(Partial(told)) <==> KeyRow(last.txns, w, Caller(key)) == Some(t))
  {
    SameStory(db, last, t, n);
  }
}
