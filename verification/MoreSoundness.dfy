/** The referential facts through clawbacks, won disputes, new wallets and merges. */
module MoreSoundness {
  import opened Models
  import opened Lots
  import opened Operations
  import opened Clawbacks
  import opened ClawbackBooks
  import opened Merges
  import opened Soundness

  lemma GrantIsHome(db: Db, g: nat)
    requires Sound(db) && g < |db.txns|
    ensures Home(db.lots, g, db.txns[g].wallet)
  {
  }

  lemma ClawBackSound(db: Db, now: int, g: nat, requested: nat, reason: ClawReason, objectId: string)
    requires Sound(db) && g < |db.txns|
    ensures Sound(ClawBack(db, now, g, requested, reason, objectId))
  {
    var w := db.txns[g].wallet;
    var swept := Sweep(db, w, now);
    SweepSound(db, w, now);
    GrantIsHome(swept, g);
    TakeGrantedShape(swept.lots, g, 0, requested, w);
    var drawn := swept.(lots := TakeGranted(swept.lots, g, 0, requested).lots);
    DrawSound(swept, drawn.lots);
    SyncSound(drawn, w, now);
    var synced := Sync(drawn, w, now);
    var r := ClawBack(db, now, g, requested, reason, objectId);
    if |r.debts| > |swept.debts| {
      NewDebtSound(synced, r.debts[|swept.debts|]);
      assert r.debts == synced.debts + [r.debts[|swept.debts|]];
    } else {
      assert r.debts == synced.debts;
    }
    RowSound(synced.(debts := r.debts), r.txns[|swept.txns|]);
  }

  lemma CancelClawSound(db: Db, now: int, t: nat)
    requires Sound(db) && t < |db.txns| && db.txns[t].note.ClawedBack?
    ensures Sound(CancelClaw(db, now, t))
  {
    var d := db.txns[t].note.claw.debt;
    var debts := CancelDebt(db.debts, d, now);
    if d.Some? && d.value < |db.debts| && db.debts[d.value].outstanding > 0 {
      DebtSound(db, d.value, debts[d.value]);
      assert debts == db.debts[d.value := debts[d.value]];
    }
    MarkSound(db.(debts := debts), t);
  }

  lemma RestoreSound(db: Db, now: int, t: nat, w: nat, g: nat, n: nat)
    requires Sound(db) && Opens(db.wallets, w) && g < |db.txns| && db.txns[g].wallet == w
    ensures Sound(Restore(db, now, t, w, g, n))
  {
    var added := db.(lots := db.lots + [RestoredLot(db, w, g, n)]);
    LotSound(db, RestoredLot(db, w, g, n));
    SweepSound(added, w, now);
    var swept := Sweep(added, w, now);
    SyncSound(swept, w, now);
    SyncKeepsOpen(swept, w, now, w);
    SweepKeepsOpen(added, w, now, w);
    var r := Restore(db, now, t, w, g, n);
    RowSound(Sync(swept, w, now), r.txns[|r.txns| - 1]);
  }

  lemma SyncKeepsOpen(db: Db, w: nat, now: int, v: nat)
    requires w < |db.wallets|
    ensures Opens(Sync(db, w, now).wallets, v) <==> Opens(db.wallets, v)
    ensures v < |db.wallets| ==> Sync(db, w, now).wallets[v].user == db.wallets[v].user
  {
  }

  lemma SweepKeepsOpen(db: Db, w: nat, now: int, v: nat)
    requires w < |db.wallets|
    ensures Opens(Sweep(db, w, now).wallets, v) <==> Opens(db.wallets, v)
    ensures v < |db.wallets| ==> Sweep(db, w, now).wallets[v].user == db.wallets[v].user
  {
  }

  lemma ReverseSound(db: Db, now: int, t: nat)
    requires Sound(db) && t < |db.txns|
    ensures Sound(ReverseClawback(db, now, t))
  {
    var row := db.txns[t];
    if row.note.ClawedBack? && !row.note.claw.reversed {
      var claw := row.note.claw;
      var cancelled := CancelClaw(db, now, t);
      CancelClawSound(db, now, t);
      var given := GivenBack(db, claw);
      if given > 0 {
        RestoreSound(cancelled, now, t, row.wallet, claw.grant, given);
        var restored := Restore(cancelled, now, t, row.wallet, claw.grant, given);
        SettleFromSound(restored, row.wallet, now, 0);
      }
    }
  }

  lemma LockSound(db: Db, user: nat)
    requires Sound(db)
    ensures Sound(LockWallet(db, user).db) && Opens(LockWallet(db, user).db.wallets, LockWallet(db, user).w)
  {
    var wallets := LockWallet(db, user).db.wallets;
    assert forall v | Opens(db.wallets, v) :: Opens(wallets, v);
    assert LotRefs(wallets, db.lots, db.txns);
    assert HoldRefs(wallets, db.holds, db.lots);
    assert TxnRefs(wallets, db.txns, db.holds, db.debts);
    assert DebtRefs(wallets, db.debts);
    assert Users(wallets);
  }

  lemma {:induction false} ForfeitSound(db: Db, w: nat, now: int, sources: set<Source>, k: nat)
    requires Sound(db) && k <= |db.lots|
    ensures Sound(ForfeitFrom(db, w, now, sources, k))
    decreases |db.lots| - k
  {
    if k < |db.lots| {
      if !Forfeits(db.lots, w, sources, db.lots[k]) {
        ForfeitSound(db, w, now, sources, k + 1);
      } else {
        var b := Credits(Draw(db.lots, k, db.lots[k].remaining), w, After(now));
        WriteOffSound(db, k, b, Forfeited);
        ForfeitSound(WriteOff(db, k, b, Forfeited), w, now, sources, k + 1);
      }
    }
  }

  // ----- Merges -----

  /** A hold table after renaming: only keys changed, and keys stay unique within every wallet. */
  ghost predicate Renamed(holds: seq<Hold>, holds': seq<Hold>, m: nat) {
    && |holds'| == |holds|
    && forall h {:trigger holds[h]} {:trigger holds'[h]} | 0 <= h < |holds| ::
         holds'[h] == holds[h].(key := holds'[h].key) && (holds[h].wallet != m ==> holds'[h] == holds[h])
  }

  lemma {:induction false} RenameKeepsUnique(holds: seq<Hold>, m: nat, taken: set<string>, k: nat)
    requires UniqueKeys(holds) && k <= |holds| && RenameClashes(holds, m, taken, k).Some?
    ensures UniqueKeys(RenameClashes(holds, m, taken, k).value)
    ensures Renamed(holds, RenameClashes(holds, m, taken, k).value, m)
    decreases k
  {
    if k > 0 {
      if holds[k - 1].wallet != m || holds[k - 1].key !in taken {
        RenameKeepsUnique(holds, m, taken, k - 1);
      } else {
        var key := RenamedKey(holds[k - 1].key, m);
        assert !UsesKey(holds, m, key);
        RenameKeepsUnique(holds[k - 1 := holds[k - 1].(key := key)], m, taken, k - 1);
      }
    }
  }

  lemma RenamedSound(db: Db, holds: seq<Hold>, m: nat)
    requires Sound(db) && Renamed(db.holds, holds, m) && UniqueKeys(holds)
    ensures Sound(db.(holds := holds))
  {
    forall t | 0 <= t < |db.txns| ensures NoteRefs(db.txns[t], db.txns, holds, db.debts) {
    }
  }

  lemma NoneShared<T>(a: set<T>, b: set<T>, x: T, y: T)
    requires a * b == {} && x in a && y in b
    ensures x != y
  {
    assert x !in a * b;
  }

  /** Moving rows keeps the reservation keys unique when the two wallets share none. */
  lemma MoveKeysUnique(holds: seq<Hold>, m: nat, s: nat)
    requires UniqueKeys(holds) && KeysOf(holds, m) * KeysOf(holds, s) == {}
    ensures UniqueKeys(MoveHolds(holds, m, s))
  {
    forall i, j | 0 <= i < j < |holds| && Moved(holds[i].wallet, m, s) == Moved(holds[j].wallet, m, s)
      ensures holds[i].key != holds[j].key
    {
      if holds[i].wallet != holds[j].wallet {
        var a, b := if holds[i].wallet == m then i else j, if holds[i].wallet == m then j else i;
        NoneShared(KeysOf(holds, m), KeysOf(holds, s), holds[a].key, holds[b].key);
      }
    }
  }

  lemma MoveRowsSound(db: Db, m: nat, s: nat)
    requires Sound(db) && m != s && m < |db.wallets| && Opens(db.wallets, s) && s < |db.wallets|
    requires KeysOf(db.holds, m) * KeysOf(db.holds, s) == {}
    ensures Sound(MoveRows(db, m, s)) && Opens(MoveRows(db, m, s).wallets, s)
  {
    var r := MoveRows(db, m, s);
    assert forall v | Opens(db.wallets, v) :: Opens(r.wallets, Moved(v, m, s));
    assert LotRefs(r.wallets, r.lots, r.txns);
    assert SameDeadline(r.lots);
    assert HoldRefs(r.wallets, r.holds, r.lots);
    MoveKeysUnique(db.holds, m, s);
    forall t | 0 <= t < |r.txns| ensures NoteRefs(r.txns[t], r.txns, r.holds, r.debts) {
      assert NoteRefs(db.txns[t], db.txns, db.holds, db.debts);
    }
    assert DebtRefs(r.wallets, r.debts);
    assert Users(r.wallets);
  }

  lemma WelcomeSound(db: Db, m: nat, s: nat, now: int, moved: nat, key: Key)
    requires Sound(db) && Opens(db.wallets, s)
    ensures Sound(Welcome(db, m, s, now, moved, key)) && Opens(Welcome(db, m, s, now, moved, key).wallets, s)
  {
    SweepSound(db, s, now);
    SyncSound(Sweep(db, s, now), s, now);
    SweepKeepsOpen(db, s, now, s);
    SyncKeepsOpen(Sweep(db, s, now), s, now, s);
    var r := Welcome(db, m, s, now, moved, key);
    RowSound(Sync(Sweep(db, s, now), s, now), r.txns[|r.txns| - 1]);
  }

  lemma FoldSound(db: Db, now: int, m: nat, s: nat, key: Key, sources: set<Source>)
    requires Sound(db) && m != s && Opens(db.wallets, m) && Opens(db.wallets, s)
    requires Fold(db, now, m, s, key, sources).Ok?
    ensures Sound(Fold(db, now, m, s, key, sources).value)
    ensures Opens(Fold(db, now, m, s, key, sources).value.wallets, s)
  {
    var swept := Sweep(db, m, now);
    SweepSound(db, m, now);
    SweepKeepsOpen(db, m, now, s);
    var kept := ForfeitFrom(swept, m, now, sources, 0);
    ForfeitSound(swept, m, now, sources, 0);
    var taken := KeysOf(kept.holds, s);
    var holds := RenameClashes(kept.holds, m, taken, |kept.holds|).value;
    RenameKeepsUnique(kept.holds, m, taken, |kept.holds|);
    RenamedSound(kept, holds, m);
    RenamedKeepsOthers(kept.holds, holds, m, s);
    var arrived := kept.(holds := holds);
    MoveRowsSound(arrived, m, s);
    WelcomeSound(MoveRows(arrived, m, s), m, s, now, Credits(kept.lots, m, After(now)), key);
  }

  lemma RenamedKeepsOthers(holds: seq<Hold>, holds': seq<Hold>, m: nat, s: nat)
    requires Renamed(holds, holds', m) && m != s
    ensures KeysOf(holds', s) == KeysOf(holds, s)
  {
    assert forall i | 0 <= i < |holds| && holds[i].wallet == s :: holds'[i] == holds[i];
    assert forall i | 0 <= i < |holds| && holds'[i].wallet == s :: holds'[i] == holds[i];
  }
}
