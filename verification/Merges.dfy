/** Folding one account's wallet into another's, and the sweeps that visit every wallet and hold. */
module Merges {
  import opened Models
  import opened Lots
  import opened Operations

  // ----- Forfeited lots -----

  /** Account-bound credits: a listed source, or a hold's return of such a grant. */
  predicate Forfeits(lots: seq<Lot>, w: nat, sources: set<Source>, l: Lot) {
    && l.wallet == w && l.remaining > 0
    && (l.source in sources
        || (l.source.HoldRelease? && l.grant.Some?
            && exists j | 0 <= j < |lots| ::
                 lots[j].wallet == w && lots[j].source in sources && lots[j].grant == l.grant))
  }

  /** `_forfeit_lots_on_merge`, from row k on. */
  function ForfeitFrom(db: Db, w: nat, now: int, sources: set<Source>, k: nat): (r: Db)
    requires k <= |db.lots|
    ensures r.wallets == db.wallets && |r.lots| == |db.lots| && r.holds == db.holds && r.debts == db.debts
    decreases |db.lots| - k
  {
    if k == |db.lots| then db
    else if !Forfeits(db.lots, w, sources, db.lots[k]) then ForfeitFrom(db, w, now, sources, k + 1)
    else
      var lots' := Draw(db.lots, k, db.lots[k].remaining);
      ForfeitFrom(WriteOff(db, k, Credits(lots', w, After(now)), Forfeited), w, now, sources, k + 1)
  }

  // ----- Hold keys -----

  function Digits(n: nat): string {
    (if n < 10 then "" else Digits(n / 10)) + ["0123456789"[n % 10]]
  }

  /** The key a clashing hold arrives under. */
  function RenamedKey(key: string, m: nat): string { key + ":merged:" + Digits(m) }

  predicate UsesKey(holds: seq<Hold>, w: nat, key: string) {
    exists i | 0 <= i < |holds| :: holds[i].wallet == w && holds[i].key == key
  }

  /** Rename m's clashing holds among the first k rows, newest first; None when the unique constraint refuses. */
  function RenameClashes(holds: seq<Hold>, m: nat, taken: set<string>, k: nat): (r: Option<seq<Hold>>)
    requires k <= |holds|
    ensures r.Some? ==> |r.value| == |holds|
    decreases k
  {
    if k == 0 then Some(holds)
    else if holds[k - 1].wallet != m || holds[k - 1].key !in taken then RenameClashes(holds, m, taken, k - 1)
    else
      var key := RenamedKey(holds[k - 1].key, m);
      if UsesKey(holds, m, key) then None
      else RenameClashes(holds[k - 1 := holds[k - 1].(key := key)], m, taken, k - 1)
  }

  function KeysOf(holds: seq<Hold>, w: nat): set<string> {
    set i | 0 <= i < |holds| && holds[i].wallet == w :: holds[i].key
  }

  // ----- Moving the rows -----

  function Moved(v: nat, m: nat, s: nat): nat { if v == m then s else v }

  function MoveLots(lots: seq<Lot>, m: nat, s: nat): seq<Lot> {
    seq(|lots|, i requires 0 <= i < |lots| => lots[i].(wallet := Moved(lots[i].wallet, m, s)))
  }

  function MoveTxns(txns: seq<Txn>, m: nat, s: nat): seq<Txn> {
    seq(|txns|, i requires 0 <= i < |txns| => txns[i].(wallet := Moved(txns[i].wallet, m, s)))
  }

  function MoveHolds(holds: seq<Hold>, m: nat, s: nat): seq<Hold> {
    seq(|holds|, i requires 0 <= i < |holds| => holds[i].(wallet := Moved(holds[i].wallet, m, s)))
  }

  function MoveDebts(debts: seq<Debt>, m: nat, s: nat): seq<Debt> {
    seq(|debts|, i requires 0 <= i < |debts| => debts[i].(wallet := Moved(debts[i].wallet, m, s)))
  }

  /** Every row of m changes owner, and m is closed at zero. */
  function MoveRows(db: Db, m: nat, s: nat): (r: Db)
    requires m < |db.wallets|
    ensures |r.wallets| == |db.wallets|
  {
    Db(db.wallets[m := Wallet(None, 0, Some(s))], MoveLots(db.lots, m, s), MoveTxns(db.txns, m, s),
       MoveHolds(db.holds, m, s), MoveDebts(db.debts, m, s), db.claims)
  }

  /** The survivor's balance is derived from the lots that arrived, and one row says so. */
  function Welcome(db: Db, m: nat, s: nat, now: int, moved: nat, key: Key): (r: Db)
    requires s < |db.wallets|
    ensures |r.wallets| == |db.wallets|
  {
    var synced := Sync(Sweep(db, s, now), s, now);
    AddTxn(synced, Txn(s, None, moved, synced.wallets[s].balance, key, MergedIn(m), [], {}))
  }

  /** The state just before debts are settled: swept, forfeited, renamed, moved and explained. */
  function Fold(db: Db, now: int, m: nat, s: nat, key: Key, sources: set<Source>): (r: Outcome<Db>)
    requires m < |db.wallets| && s < |db.wallets|
    ensures r.Ok? ==> |r.value.wallets| == |db.wallets|
  {
    var swept := Sweep(db, m, now);
    var kept := ForfeitFrom(swept, m, now, sources, 0);
    var taken := KeysOf(kept.holds, s);
    match RenameClashes(kept.holds, m, taken, |kept.holds|)
    case None => Err(IntegrityError)
    case Some(holds) =>
      if KeysOf(holds, m) * taken != {} then Err(IntegrityError)
      else Ok(Welcome(MoveRows(kept.(holds := holds), m, s), m, s, now, Credits(kept.lots, m, After(now)), key))
  }

  /** `merge_wallets`; the handler in actions.py drops an event that names one account twice. */
  function MergeOp(db: Db, now: int, fromUser: nat, intoUser: nat, sources: set<Source>): Step<bool> {
    var key := MergeOf(fromUser, intoUser);
    if fromUser == intoUser || exists i | 0 <= i < |db.txns| :: db.txns[i].key == key then Step(db, Ok(false))
    else
      match WalletOf(db.wallets, fromUser)
      case None => Step(db, Ok(false))
      case Some(m) =>
        var locked := LockWallet(db, intoUser);
        match Fold(locked.db, now, m, locked.w, key, sources)
        case Err(e) => Step(db, Err(e))
        case Ok(folded) => Step(SettleDebts(folded, locked.w, now), Ok(true))
  }

  // ----- The sweeps of tasks.py -----

  /** `expire_credit_lots`, from wallet k on; a wallet with nothing due is left alone. */
  function SweepFrom(db: Db, now: int, k: nat): (r: Db)
    requires k <= |db.wallets|
    ensures |r.wallets| == |db.wallets| && r.holds == db.holds && UsersKept(db.wallets, r.wallets)
    decreases |db.wallets| - k
  {
    if k == |db.wallets| then db else SweepFrom(Sweep(db, k, now), now, k + 1)
  }

  function ExpireCreditLots(db: Db, now: int): Db { SweepFrom(db, now, 0) }

  predicate Abandoned(h: Hold, now: int) { h.status.Held? && !Beyond(h.deadline, After(now)) }

  /** `expire_holds`, from hold k on. */
  function ExpireHoldsFrom(db: Db, now: int, k: nat): (r: Db)
    ensures UsersKept(db.wallets, r.wallets)
    decreases |db.holds| - k
  {
    if k >= |db.holds| then db
    else
      var next := if Abandoned(db.holds[k], now) then ReleaseOp(db, now, k, true).db else db;
      if |next.holds| != |db.holds| then next else ExpireHoldsFrom(next, now, k + 1)
  }

  function ExpireHolds(db: Db, now: int): Db { ExpireHoldsFrom(db, now, 0) }

  /** `reconcile_wallet_balances`: the wallets whose cache disagrees with their live lots. */
  function Drifted(db: Db, now: int): set<nat> {
    set w | 0 <= w < |db.wallets| && db.wallets[w].balance != Credits(db.lots, w, After(now))
  }
}
