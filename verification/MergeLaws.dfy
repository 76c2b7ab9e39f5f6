/** A merge adds the two wallets' credits instant by instant, closes one of them, and happens once. */
module MergeLaws {
  import opened Sums
  import opened Models
  import opened Lots
  import opened Operations
  import opened Merges
  import opened Books
  import opened MergeBooks
  import opened Soundness
  import opened MoreSoundness
  import opened Balances
  import opened Runs
  import opened MergeRuns
  import opened Evolution

  /** The credits a merge forfeits beyond a cut. */
  function ForfeitOf(lots: seq<Lot>, w: nat, sources: set<Source>, c: Cut): Lot -> int {
    (l: Lot) => if Forfeits(lots, w, sources, l) && Beyond(l.expires, c) then l.remaining else 0
  }

  function Forfeited(lots: seq<Lot>, w: nat, sources: set<Source>, c: Cut): int {
    Sum(lots, ForfeitOf(lots, w, sources, c))
  }

  /** What the forfeiting walk leaves of a lot. */
  function Spared(lots: seq<Lot>, w: nat, sources: set<Source>, l: Lot): Lot {
    if Forfeits(lots, w, sources, l) then l.(remaining := 0) else l
  }

  /** Forfeiting one lot does not change which others forfeit. */
  lemma ForfeitsStable(lots: seq<Lot>, lots': seq<Lot>, w: nat, sources: set<Source>, l: Lot)
    requires Shrinks(lots, lots') && |lots| == |lots'|
    ensures Forfeits(lots', w, sources, l) == Forfeits(lots, w, sources, l)
  {
    if l.wallet == w && l.remaining > 0 && l.source !in sources && l.source.HoldRelease? && l.grant.Some? {
      assert forall j | 0 <= j < |lots| ::
        lots'[j].wallet == lots[j].wallet && lots'[j].source == lots[j].source && lots'[j].grant == lots[j].grant;
    }
  }

  lemma {:induction false} ForfeitSpares(db: Db, w: nat, now: int, sources: set<Source>, k: nat, i: nat)
    requires k <= |db.lots| && i < |db.lots|
    ensures ForfeitFrom(db, w, now, sources, k).lots[i]
         == if i < k then db.lots[i] else Spared(db.lots, w, sources, db.lots[i])
    decreases |db.lots| - k
  {
    if k < |db.lots| {
      if !Forfeits(db.lots, w, sources, db.lots[k]) {
        ForfeitSpares(db, w, now, sources, k + 1, i);
      } else {
        var lots' := Draw(db.lots, k, db.lots[k].remaining);
        var b := Credits(lots', w, After(now));
        ForfeitSpares(WriteOff(db, k, b, Models.Note.Forfeited), w, now, sources, k + 1, i);
        ForfeitsStable(db.lots, lots', w, sources, lots'[i]);
      }
    }
  }

  lemma ForfeitTakes(db: Db, w: nat, now: int, sources: set<Source>, c: Cut)
    ensures Credits(ForfeitFrom(db, w, now, sources, 0).lots, w, c)
         == Credits(db.lots, w, c) - Forfeited(db.lots, w, sources, c)
  {
    var lots' := ForfeitFrom(db, w, now, sources, 0).lots;
    forall i | 0 <= i < |db.lots|
      ensures CreditsOf(w, c)(db.lots[i]) == CreditsOf(w, c)(lots'[i]) + ForfeitOf(db.lots, w, sources, c)(db.lots[i])
    {
      ForfeitSpares(db, w, now, sources, 0, i);
    }
    SumTriple(db.lots, CreditsOf(w, c), lots', CreditsOf(w, c), ForfeitOf(db.lots, w, sources, c));
  }

  lemma SumTriple(s: seq<Lot>, h: Lot -> int, s': seq<Lot>, f: Lot -> int, g: Lot -> int)
    requires |s| == |s'| && forall i | 0 <= i < |s| :: h(s[i]) == f(s'[i]) + g(s[i])
    ensures Sum(s, h) == Sum(s', f) + Sum(s, g)
  {
    SumTripleTo(s, h, s', f, g, |s|);
  }

  lemma {:induction false} SumTripleTo(s: seq<Lot>, h: Lot -> int, s': seq<Lot>, f: Lot -> int, g: Lot -> int, n: nat)
    requires n <= |s| == |s'| && forall i | 0 <= i < |s| :: h(s[i]) == f(s'[i]) + g(s[i])
    ensures SumTo(s, h, n) == SumTo(s', f, n) + SumTo(s, g, n)
  {
    if n > 0 { SumTripleTo(s, h, s', f, g, n - 1); }
  }

  /** Before debts are settled, every later instant sees both wallets' credits less the forfeited ones. */
  lemma MergeIsAdditive(db: Db, now: int, m: nat, s: nat, key: Key, sources: set<Source>, t: int)
    requires m != s && m < |db.wallets| && s < |db.wallets| && t >= now
    requires Fold(db, now, m, s, key, sources).Ok?
    ensures Credits(Fold(db, now, m, s, key, sources).value.lots, s, After(t))
         == Credits(db.lots, s, After(t)) + Credits(db.lots, m, After(t))
            - Forfeited(Sweep(db, m, now).lots, m, sources, After(t))
  {
    var swept := Sweep(db, m, now);
    SweepCredits(db, m, now, s, After(t));
    SweepCredits(db, m, now, m, After(t));
    var kept := ForfeitFrom(swept, m, now, sources, 0);
    ForfeitTakes(swept, m, now, sources, After(t));
    ForfeitCredits(swept, m, now, sources, 0, s, After(t));
    MoveCredits(kept.lots, m, s, s, After(t));
    var holds := RenameClashes(kept.holds, m, KeysOf(kept.holds, s), |kept.holds|).value;
    SweepCredits(MoveRows(kept.(holds := holds), m, s), s, now, s, After(t));
  }

  /** A closed wallet: no owner, no balance, no row of any table. */
  ghost predicate Vacated(db: Db, m: nat, s: nat) {
    && m < |db.wallets| && db.wallets[m] == Wallet(None, 0, Some(s))
    && (forall i | 0 <= i < |db.lots| :: db.lots[i].wallet != m)
    && (forall i | 0 <= i < |db.txns| :: db.txns[i].wallet != m)
    && (forall i | 0 <= i < |db.holds| :: db.holds[i].wallet != m)
    && (forall i | 0 <= i < |db.debts| :: db.debts[i].wallet != m)
  }

  /** The merged wallet ends closed at zero with nothing in it, and the survivor's cache is exact. */
  lemma MergeVacates(db: Db, clock: int, now: int, fromUser: nat, intoUser: nat, sources: set<Source>)
    requires Inv(db, clock) && clock <= now
    requires MergeOp(db, now, fromUser, intoUser, sources).out == Ok(true)
    ensures var r := MergeOp(db, now, fromUser, intoUser, sources).db;
      && Vacated(r, WalletOf(db.wallets, fromUser).value, LockWallet(db, intoUser).w)
      && Fresh(r, LockWallet(db, intoUser).w, now)
  {
    CachedLater(db, clock, now);
    var m := WalletOf(db.wallets, fromUser).value;
    var locked := LockWallet(db, intoUser);
    LockInv(db, intoUser, now);
    var key := MergeOf(fromUser, intoUser);
    FoldInv(locked.db, now, m, locked.w, key, sources);
    var folded := Fold(locked.db, now, m, locked.w, key, sources).value;
    var r := MergeOp(db, now, fromUser, intoUser, sources).db;
    SettleInv(folded, locked.w, now);
    SettleFromOnly(folded, locked.w, now, 0);
    assert r.wallets[m] == folded.wallets[m] == Wallet(None, 0, Some(locked.w));
    MergeInv(db, now, now, fromUser, intoUser, sources);
    assert !Opens(r.wallets, m);
  }

  ghost predicate HasKey(txns: seq<Txn>, key: Key) { exists t | 0 <= t < |txns| :: txns[t].key == key }

  lemma MergeWritesRow(db: Db, now: int, fromUser: nat, intoUser: nat, sources: set<Source>)
    requires MergeOp(db, now, fromUser, intoUser, sources).out == Ok(true)
    ensures HasKey(MergeOp(db, now, fromUser, intoUser, sources).db.txns, MergeOf(fromUser, intoUser))
  {
    var m := WalletOf(db.wallets, fromUser).value;
    var locked := LockWallet(db, intoUser);
    var folded := Fold(locked.db, now, m, locked.w, MergeOf(fromUser, intoUser), sources).value;
    var r := MergeOp(db, now, fromUser, intoUser, sources).db;
    assert folded.txns[|folded.txns| - 1].key == MergeOf(fromUser, intoUser);
    assert r.txns[|folded.txns| - 1] == folded.txns[|folded.txns| - 1];
  }

  lemma MergeRowEndsIt(db: Db, db': Db, now: int, fromUser: nat, intoUser: nat, sources: set<Source>)
    requires LedgerStands(db.txns, db'.txns)
    requires HasKey(db.txns, MergeOf(fromUser, intoUser))
    ensures MergeOp(db', now, fromUser, intoUser, sources) == Step(db', Ok(false))
  {
    var t :| 0 <= t < |db.txns| && db.txns[t].key == MergeOf(fromUser, intoUser);
    assert RowStands(db.txns[t], db'.txns[t]);
    assert db'.txns[t].key == MergeOf(fromUser, intoUser);
  }

  lemma RunPrefix(run: seq<Timed>, n: nat)
    requires n < |run|
    ensures Run(run[..n + 1]) == Apply(Run(run[..n]), run[n].at, run[n].command)
  {
    assert run[..n + 1][..n] == run[..n];
  }

  /** Once a merge has been applied, redelivery changes nothing, ever after. */
  lemma MergesOnce(run: seq<Timed>, n: nat, now: int, fromUser: nat, intoUser: nat, sources: set<Source>,
                   again: set<Source>)
    requires InTime(run) && n < |run| && run[n].command == MergeCommand(fromUser, intoUser, sources)
    requires MergeOp(Run(run[..n]), run[n].at, fromUser, intoUser, sources).out == Ok(true)
    ensures MergeOp(Run(run), now, fromUser, intoUser, again) == Step(Run(run), Ok(false))
  {
    MergedRun(run, n, fromUser, intoUser, sources);
    RunEvolves(run, n + 1);
    MergeRowEndsIt(Run(run[..n + 1]), Run(run), now, fromUser, intoUser, again);
  }

  lemma MergedRun(run: seq<Timed>, n: nat, fromUser: nat, intoUser: nat, sources: set<Source>)
    requires n < |run| && run[n].command == MergeCommand(fromUser, intoUser, sources)
    requires MergeOp(Run(run[..n]), run[n].at, fromUser, intoUser, sources).out == Ok(true)
    ensures HasKey(Run(run[..n + 1]).txns, MergeOf(fromUser, intoUser))
  {
    RunPrefix(run, n);
    MergeWritesRow(Run(run[..n]), run[n].at, fromUser, intoUser, sources);
  }

  // ----- When a merge is refused -----

  /** A clashing hold of m would be renamed to a key that either wallet already uses. */
  ghost predicate Blocked(holds: seq<Hold>, m: nat, s: nat) {
    exists i, j | 0 <= i < |holds| && 0 <= j < |holds| ::
      && holds[i].wallet == m && holds[i].key in KeysOf(holds, s)
      && (holds[j].wallet == m || holds[j].wallet == s) && holds[j].key == RenamedKey(holds[i].key, m)
  }

  /** The key hold h ends with after the walk over the first k rows. */
  function FinalKey(h: Hold, m: nat, taken: set<string>, renamed: bool): string {
    if renamed && h.wallet == m && h.key in taken then RenamedKey(h.key, m) else h.key
  }

  lemma {:induction false} RenameFinal(holds: seq<Hold>, m: nat, taken: set<string>, k: nat, h: nat)
    requires k <= |holds| && h < |holds| && RenameClashes(holds, m, taken, k).Some?
    ensures RenameClashes(holds, m, taken, k).value[h].wallet == holds[h].wallet
    ensures RenameClashes(holds, m, taken, k).value[h].key == FinalKey(holds[h], m, taken, h < k)
    decreases k
  {
    if k > 0 {
      if holds[k - 1].wallet != m || holds[k - 1].key !in taken {
        RenameFinal(holds, m, taken, k - 1, h);
      } else {
        RenameFinal(holds[k - 1 := holds[k - 1].(key := RenamedKey(holds[k - 1].key, m))], m, taken, k - 1, h);
      }
    }
  }

  lemma RenamedKeyInjective(a: string, b: string, m: nat)
    ensures RenamedKey(a, m) == RenamedKey(b, m) ==> a == b
    ensures RenamedKey(a, m) != a
  {
    var suffix := ":merged:" + Digits(m);
    assert RenamedKey(a, m) == a + suffix && RenamedKey(b, m) == b + suffix;
    assert |suffix| > 0;
    if a + suffix == b + suffix {
      assert |a| == |b| && (a + suffix)[..|a|] == a && (b + suffix)[..|b|] == b;
    }
  }

  /** The rows from k on are renamed where they clash; the walk meets no conflict in the rest. */
  lemma {:induction false} RenameSucceeds(origin: seq<Hold>, holds: seq<Hold>, m: nat, s: nat, k: nat)
    requires k <= |holds| == |origin| && UniqueKeys(origin) && !Blocked(origin, m, s)
    requires forall h | 0 <= h < |holds| :: holds[h].wallet == origin[h].wallet
               && holds[h].key == FinalKey(origin[h], m, KeysOf(origin, s), h >= k)
    ensures RenameClashes(holds, m, KeysOf(origin, s), k).Some?
    decreases k
  {
    if k > 0 {
      var taken := KeysOf(origin, s);
      if holds[k - 1].wallet != m || holds[k - 1].key !in taken {
        RenameSucceeds(origin, holds, m, s, k - 1);
      } else {
        var key := RenamedKey(holds[k - 1].key, m);
        forall i | 0 <= i < |holds| && holds[i].wallet == m ensures holds[i].key != key {
          RenamedKeyInjective(origin[i].key, origin[k - 1].key, m);
          assert origin[i].key != key;
          if i < k - 1 { assert origin[i].key != origin[k - 1].key; }
          if k - 1 < i { assert origin[k - 1].key != origin[i].key; }
        }
        RenameSucceeds(origin, holds[k - 1 := holds[k - 1].(key := key)], m, s, k - 1);
      }
    }
  }

  /** A merge is refused exactly when a rename it needs is taken. */
  lemma MergeRefusedIff(db: Db, now: int, m: nat, s: nat, key: Key, sources: set<Source>)
    requires Sound(db) && m != s && m < |db.wallets| && s < |db.wallets|
    ensures Fold(db, now, m, s, key, sources).Err? <==> Blocked(db.holds, m, s)
  {
    var holds, taken := db.holds, KeysOf(db.holds, s);
    assert ForfeitFrom(Sweep(db, m, now), m, now, sources, 0).holds == holds;
    if Blocked(holds, m, s) {
      if RenameClashes(holds, m, taken, |holds|).Some? { BlockedIsRefused(holds, m, s); }
    } else {
      RenameSucceeds(holds, holds, m, s, |holds|);
      var final := RenameClashes(holds, m, taken, |holds|).value;
      forall i | 0 <= i < |final| && final[i].wallet == m ensures final[i].key !in taken {
        RenameFinal(holds, m, taken, |holds|, i);
      }
    }
  }

  lemma BlockedIsRefused(holds: seq<Hold>, m: nat, s: nat)
    requires UniqueKeys(holds) && m != s && Blocked(holds, m, s)
    requires RenameClashes(holds, m, KeysOf(holds, s), |holds|).Some?
    ensures KeysOf(RenameClashes(holds, m, KeysOf(holds, s), |holds|).value, m) * KeysOf(holds, s) != {}
  {
    var taken := KeysOf(holds, s);
    var i, j :| 0 <= i < |holds| && 0 <= j < |holds| && holds[i].wallet == m && holds[i].key in taken
                && (holds[j].wallet == m || holds[j].wallet == s) && holds[j].key == RenamedKey(holds[i].key, m);
    var final := RenameClashes(holds, m, taken, |holds|).value;
    RenameFinal(holds, m, taken, |holds|, i);
    RenameFinal(holds, m, taken, |holds|, j);
    RenameKeepsUnique(holds, m, taken, |holds|);
    RenamedKeyInjective(holds[i].key, holds[i].key, m);
    assert final[i].key in KeysOf(final, m);
    assert holds[j].key in taken;
    assert final[i].key in KeysOf(final, m) * taken;
  }
}
