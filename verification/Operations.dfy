/** The wallet operations of services.py, each one atomic step; a refusal returns the state it was given. */
module Operations {
  import opened Sums
  import opened Models
  import opened Lots

  datatype Step<+T> = Step(db: Db, out: Outcome<T>)

  // ----- Rows and the balance cache -----

  function WalletOf(wallets: seq<Wallet>, user: nat): (r: Option<nat>)
    ensures r.Some? ==> r.value < |wallets| && wallets[r.value].user == Some(user)
    ensures r.None? ==> forall i | 0 <= i < |wallets| :: wallets[i].user != Some(user)
  {
    if wallets == [] then None else
      var k := |wallets| - 1;
      var r := WalletOf(wallets[..k], user);
      if r.Some? then r else if wallets[k].user == Some(user) then Some(k) else None
  }

  datatype Locked = Locked(db: Db, w: nat)

  /** `_lock_wallet`: the user's wallet, created on first use. */
  function LockWallet(db: Db, user: nat): (r: Locked)
    ensures r.w < |r.db.wallets| && r.db.wallets[r.w].user == Some(user)
  {
    match WalletOf(db.wallets, user)
    case Some(w) => Locked(db, w)
    case None => Locked(db.(wallets := db.wallets + [Wallet(Some(user), 0, None)]), |db.wallets|)
  }

  /** `_sync_balance`: recompute the cache from the lots. */
  function Sync(db: Db, w: nat, now: int): (r: Db)
    requires w < |db.wallets|
    ensures |r.wallets| == |db.wallets| && r == db.(wallets := r.wallets)
  {
    db.(wallets := db.wallets[w := db.wallets[w].(balance := Credits(db.lots, w, After(now)))])
  }

  function AddTxn(db: Db, row: Txn): Db { db.(txns := db.txns + [row]) }

  function SingleLot(taken: seq<Share>): Option<nat> {
    if |taken| == 1 then Some(taken[0].lot) else None
  }

  /** Zero lot i and write the EXPIRATION row that says so. */
  function WriteOff(db: Db, i: nat, balanceAfter: int, note: Note): (r: Db)
    requires i < |db.lots|
  {
    var l := db.lots[i];
    AddTxn(db.(lots := Draw(db.lots, i, l.remaining)),
           Txn(l.wallet, Some(i), 0 - l.remaining, balanceAfter, NoKey, note, [], {}))
  }

  // ----- Expiry -----

  /** Write off the wallet's due lots in deadline order, each row stepping the balance down. */
  function ExpireLots(db: Db, w: nat, now: int): (r: Db)
    ensures r.wallets == db.wallets && |r.lots| == |db.lots| && r.holds == db.holds && r.debts == db.debts
    ensures Routine(db.txns, r.txns) && Shrinks(db.lots, r.lots)
    decreases Credits(db.lots, w, Everything)
  {
    match Soonest(db.lots, Due(w, now))
    case None => db
    case Some(i) =>
      var lots' := Draw(db.lots, i, db.lots[i].remaining);
      DrawCredits(db.lots, i, db.lots[i].remaining, w, Everything);
      ExpireLots(WriteOff(db, i, Credits(lots', w, Everything), Lapsed), w, now)
  }

  /** `_expire_due_lots`. */
  function Sweep(db: Db, w: nat, now: int): (r: Db)
    requires w < |db.wallets|
    ensures |r.wallets| == |db.wallets| && |r.lots| == |db.lots| && r.holds == db.holds && r.debts == db.debts
    ensures Routine(db.txns, r.txns) && Shrinks(db.lots, r.lots)
  {
    if Soonest(db.lots, Due(w, now)).None? then db else Sync(ExpireLots(db, w, now), w, now)
  }

  // ----- Debts -----

  predicate OpenDebt(d: Debt, w: nat) {
    d.wallet == w && d.settledAt.None? && d.outstanding > 0
  }

  function PayDebt(d: Debt, a: nat, now: int): Debt
    requires a <= d.outstanding
  {
    d.(outstanding := d.outstanding - a, settledAt := if a == d.outstanding then Some(now) else d.settledAt)
  }

  /** One collection: a real debit of what the debt and the live lots allow. */
  function SettleOne(db: Db, w: nat, now: int, k: nat): (r: Db)
    requires w < |db.wallets| && k < |db.debts|
    ensures |r.wallets| == |db.wallets| && |r.debts| == |db.debts|
  {
    var a := Min(db.debts[k].outstanding, Credits(db.lots, w, After(now)));
    var drawn := Consume(db.lots, w, now, a);
    var synced := Sync(db.(lots := drawn.lots), w, now);
    AddTxn(synced.(debts := db.debts[k := PayDebt(db.debts[k], a, now)]),
           Txn(w, SingleLot(drawn.taken), -a, synced.wallets[w].balance, NoKey, Settled(k), drawn.taken, {}))
  }

  /** Collect from debt k on, oldest first, until nothing live is left. */
  function SettleFrom(db: Db, w: nat, now: int, k: nat): (r: Db)
    requires w < |db.wallets| && k <= |db.debts|
    ensures |r.wallets| == |db.wallets| && |r.debts| == |db.debts| && Routine(db.txns, r.txns)
    ensures UsersKept(db.wallets, r.wallets)
    decreases |db.debts| - k
  {
    if k == |db.debts| then db
    else if !OpenDebt(db.debts[k], w) then SettleFrom(db, w, now, k + 1)
    else if Credits(db.lots, w, After(now)) == 0 then db
    else SettleFrom(SettleOne(db, w, now, k), w, now, k + 1)
  }

  /** `_settle_debts`. */
  function SettleDebts(db: Db, w: nat, now: int): (r: Db)
    requires w < |db.wallets|
    ensures |r.wallets| == |db.wallets| && Routine(db.txns, r.txns) && UsersKept(db.wallets, r.wallets)
  {
    SettleFrom(db, w, now, 0)
  }

  // ----- Credit -----

  /** The newest row of wallet w with this retry key. */
  function KeyRow(txns: seq<Txn>, w: nat, key: Key): (r: Option<nat>)
    ensures r.Some? ==> r.value < |txns| && txns[r.value].wallet == w && txns[r.value].key == key
    ensures r.Some? ==> forall i | r.value < i < |txns| :: !(txns[i].wallet == w && txns[i].key == key)
    ensures r.None? ==> forall i | 0 <= i < |txns| :: !(txns[i].wallet == w && txns[i].key == key)
  {
    if txns == [] then None else
      var k := |txns| - 1;
      if txns[k].wallet == w && txns[k].key == key then Some(k) else KeyRow(txns[..k], w, key)
  }

  /** A missing or empty key means no key. */
  function KeyOf(key: string): Key { if key == "" then NoKey else Caller(key) }

  /** The lot and its ledger row. */
  function GrantLot(db: Db, w: nat, now: int, n: nat, source: Source, expires: Expiry, key: Key,
                    refs: set<string>): (r: Db)
    requires w < |db.wallets|
    ensures |r.wallets| == |db.wallets|
  {
    var lot := Lot(w, source, n, n, expires, Some(|db.txns|));
    var synced := Sync(db.(lots := db.lots + [lot]), w, now);
    AddTxn(synced, Txn(w, Some(|db.lots|), n, synced.wallets[w].balance, key, Granted, [], refs))
  }

  function CreditOp(db: Db, now: int, user: nat, n: int, source: Source, expires: Expiry, key: string,
                    refs: set<string>, settle: bool): Step<nat>
  {
    if n <= 0 || !Beyond(expires, After(now)) then Step(db, Err(ValueError)) else
      var locked := LockWallet(db, user);
      var prior := if key == "" then None else KeyRow(locked.db.txns, locked.w, Caller(key));
      if prior.Some? then Step(locked.db, Ok(prior.value)) else
        var swept := Sweep(locked.db, locked.w, now);
        var granted := GrantLot(swept, locked.w, now, n, source, expires, KeyOf(key), refs);
        Step(if settle then SettleDebts(granted, locked.w, now) else granted, Ok(|swept.txns|))
  }

  // ----- Debit -----

  /** The answer to a partial debit. */
  datatype Receipt = Receipt(txn: nat, requested: int, debited: int, shortfall: int, balance: int,
                             debt: Option<nat>)

  /** What debit returns: the row, or the receipt when a partial debit was asked for. */
  datatype Charge = Row(txn: nat) | Partial(receipt: Receipt)

  /** The charge row, and the debt for what the lots did not cover. */
  function ChargeLots(db: Db, w: nat, now: int, requested: nat, chargeable: nat, key: Key): (r: Db)
    requires w < |db.wallets| && chargeable <= requested
    ensures |r.wallets| == |db.wallets| && |r.txns| == |db.txns| + 1
  {
    var drawn := Consume(db.lots, w, now, chargeable);
    var synced := Sync(db.(lots := drawn.lots), w, now);
    var short := requested - chargeable;
    var debt := if short > 0 then Some(|db.debts|) else None;
    AddTxn(synced.(debts := db.debts
                            + if short > 0 then [Debt(w, short, short, PartialDebit, |db.txns|, key, None)] else []),
           Txn(w, SingleLot(drawn.taken), 0 - chargeable, synced.wallets[w].balance, key,
               Debited(requested, short, debt), drawn.taken, {}))
  }

  /** `_meter_only_debit`: the row at zero cost. */
  function WaiveCharge(db: Db, w: nat, now: int, n: nat, key: Key): Db {
    AddTxn(db, Txn(w, None, 0, Credits(db.lots, w, After(now)), key, Waived(n), [], {}))
  }

  function DebtOfTxn(debts: seq<Debt>, t: nat): (r: Option<nat>)
    ensures r.Some? ==> r.value < |debts| && debts[r.value].txn == t
    ensures r.None? ==> forall i | 0 <= i < |debts| :: debts[i].txn != t
  {
    if debts == [] then None else
      var r := DebtOfTxn(debts[..|debts| - 1], t);
      if r.Some? then r else if debts[|debts| - 1].txn == t then Some(|debts| - 1) else None
  }

  /** `_replay_debit`: the receipt a retry is given. */
  function ReplayDebit(db: Db, t: nat, requested: nat): Receipt
    requires t < |db.txns|
  {
    var row := db.txns[t];
    if row.note.Waived? then Receipt(t, row.note.credits, 0, 0, row.balanceAfter, None) else
      var original := if row.note.Debited? && row.note.shortfall > 0 then row.note.requested else requested;
      Receipt(t, original, -row.delta, Max(original + row.delta, 0), row.balanceAfter, DebtOfTxn(db.debts, t))
  }

  function DebitOp(db: Db, now: int, user: nat, n: int, key: string, partial: bool, meterOnly: bool): Step<Charge> {
    if n <= 0 then Step(db, Err(ValueError)) else
      var locked := LockWallet(db, user);
      var w := locked.w;
      var prior := if key == "" then None else KeyRow(locked.db.txns, w, Caller(key));
      if prior.Some? then
        Step(locked.db, Ok(if partial then Partial(ReplayDebit(locked.db, prior.value, n)) else Row(prior.value)))
      else
        var swept := Sweep(locked.db, w, now);
        var t := |swept.txns|;
        var live := Credits(swept.lots, w, After(now));
        if meterOnly then
          Step(WaiveCharge(swept, w, now, n, KeyOf(key)),
               Ok(if partial then Partial(Receipt(t, n, 0, 0, live, None)) else Row(t)))
        else if !partial && live < n then Step(db, Err(InsufficientCredits(live, n)))
        else
          var chargeable := Min(n, live);
          var charged := ChargeLots(swept, w, now, n, chargeable, KeyOf(key));
          Step(charged, Ok(if !partial then Row(t) else
            Partial(Receipt(t, n, chargeable, n - chargeable, charged.wallets[w].balance,
                            if chargeable < n then Some(|swept.debts|) else None))))
  }

  datatype Affordability = Affordability(affordable: bool, balance: int, requested: int, shortfall: int)

  function CanAfford(db: Db, now: int, user: nat, n: nat, meterOnly: bool): Affordability {
    var balance := match WalletOf(db.wallets, user) case Some(w) => Credits(db.lots, w, After(now)) case None => 0;
    if meterOnly then Affordability(true, balance, n, 0)
    else Affordability(balance >= n, balance, n, Max(n - balance, 0))
  }

  // ----- Holds -----

  function FindHold(holds: seq<Hold>, w: nat, key: string): (r: Option<nat>)
    ensures r.Some? ==> r.value < |holds| && holds[r.value].wallet == w && holds[r.value].key == key
    ensures r.None? ==> forall i | 0 <= i < |holds| :: !(holds[i].wallet == w && holds[i].key == key)
  {
    if holds == [] then None else
      var k := |holds| - 1;
      var r := FindHold(holds[..k], w, key);
      if r.Some? then r else if holds[k].wallet == w && holds[k].key == key then Some(k) else None
  }

  function HoldDeadline(now: int, expires: Option<int>, ttl: nat): Expiry {
    if expires.Some? then At(expires.value) else if ttl > 0 then At(now + ttl) else Never
  }

  /** Draw n credits into a hold: a new row, or the released row of that key re-armed. */
  function Reserve(db: Db, w: nat, now: int, n: nat, key: string, deadline: Expiry, waived: Option<nat>,
                   prior: Option<nat>): (r: Db)
    requires w < |db.wallets| && (prior.Some? ==> prior.value < |db.holds|)
    ensures |r.wallets| == |db.wallets|
  {
    var drawn := Consume(db.lots, w, now, n);
    var held := Hold(w, n, key, Held, deadline, waived, drawn.taken);
    var holds := if prior.Some? then db.holds[prior.value := held] else db.holds + [held];
    Sync(db.(lots := drawn.lots, holds := holds), w, now)
  }

  function HoldOp(db: Db, now: int, user: nat, n: int, key: string, expires: Option<int>, ttl: nat,
                  meterOnly: bool): Step<nat>
  {
    if n <= 0 || key == "" then Step(db, Err(ValueError)) else
      var locked := LockWallet(db, user);
      var w := locked.w;
      var prior := FindHold(locked.db.holds, w, key);
      if prior.Some? && locked.db.holds[prior.value].status.Captured? then
        Step(db, Err(HoldKeyResolved(prior.value)))
      else if prior.Some? && locked.db.holds[prior.value].status.Held? then
        Step(locked.db, Ok(prior.value))
      else
        var swept := Sweep(locked.db, w, now);
        var live := Credits(swept.lots, w, After(now));
        var deadline := HoldDeadline(now, expires, ttl);
        var h := if prior.Some? then prior.value else |swept.holds|;
        if meterOnly then Step(Reserve(swept, w, now, 0, key, deadline, Some(n), prior), Ok(h))
        else if live < n then Step(db, Err(InsufficientCredits(live, n)))
        else Step(Reserve(swept, w, now, n, key, deadline, None, prior), Ok(h))
  }

  /** The charge row a captured hold already has. */
  function ChargeRow(txns: seq<Txn>, w: nat, h: nat): (r: Option<nat>)
    ensures r.Some? ==> r.value < |txns| && txns[r.value].wallet == w
                        && txns[r.value].note.Charged? && txns[r.value].note.hold == h
    ensures r.None? ==> forall i | 0 <= i < |txns| && txns[i].wallet == w && txns[i].note.Charged? ::
                          txns[i].note.hold != h
  {
    if txns == [] then None else
      var k := |txns| - 1;
      if txns[k].wallet == w && txns[k].note.Charged? && txns[k].note.hold == h then Some(k)
      else ChargeRow(txns[..k], w, h)
  }

  /** A capture above the estimate: the extra comes out of the live lots. */
  function Extend(db: Db, h: nat, now: int, extra: nat): (r: Db)
    requires h < |db.holds|
    ensures r.wallets == db.wallets && |r.holds| == |db.holds| && r.txns == db.txns
    ensures r.holds[h].wallet == db.holds[h].wallet
  {
    var held := db.holds[h];
    var drawn := Consume(db.lots, held.wallet, now, extra);
    db.(lots := drawn.lots, holds := db.holds[h := held.(allocs := held.allocs + drawn.taken)])
  }

  /** n credits of a hold back to the lots; allocations that name no lot have nothing to give back. */
  function GiveBack(db: Db, h: nat, n: nat): (r: Db)
    requires h < |db.holds|
    ensures r.wallets == db.wallets && |r.holds| == |db.holds| && r.txns == db.txns
    ensures r.holds[h].wallet == db.holds[h].wallet
  {
    var held := db.holds[h];
    if !Located(held.allocs, db.lots) then db else
      var back := Refund(db.lots, held.wallet, held.allocs, |held.allocs|, n);
      db.(lots := back.lots, holds := db.holds[h := held.(allocs := back.allocs)])
  }

  /** Bring a hold's allocations to n: draw the extra, or refund the rest and let what is dead die. */
  function Adjust(db: Db, h: nat, now: int, n: nat): (r: Db)
    requires h < |db.holds| && db.holds[h].wallet < |db.wallets|
    ensures |r.wallets| == |db.wallets| && |r.holds| == |db.holds| && Routine(db.txns, r.txns)
    ensures r.holds[h].wallet == db.holds[h].wallet
  {
    var held := db.holds[h];
    if n > held.credits then Extend(db, h, now, n - held.credits)
    else if n < held.credits then Sweep(GiveBack(db, h, held.credits - n), held.wallet, now)
    else db
  }

  function Billed(allocs: seq<Share>): seq<Share> {
    if allocs == [] then [] else
      var last := allocs[|allocs| - 1];
      Billed(allocs[..|allocs| - 1]) + if last.credits > 0 then [last] else []
  }

  /** Sync, write the charge row and settle the hold. */
  function Bill(db: Db, h: nat, now: int, n: nat, waived: Option<nat>): (r: Db)
    requires h < |db.holds| && db.holds[h].wallet < |db.wallets|
    ensures |r.wallets| == |db.wallets|
  {
    var held := db.holds[h];
    var synced := Sync(db, held.wallet, now);
    var charged := Billed(held.allocs);
    AddTxn(synced.(holds := db.holds[h := held.(status := Captured)]),
           Txn(held.wallet, SingleLot(charged), 0 - n, synced.wallets[held.wallet].balance, NoKey,
               Charged(h, waived), charged, {}))
  }

  function CaptureOp(db: Db, now: int, h: nat, actual: Option<int>): Step<nat> {
    if h >= |db.holds| || db.holds[h].wallet >= |db.wallets| then Step(db, Err(HoldNotFound)) else
      var held := db.holds[h];
      var w := held.wallet;
      var n: int := if actual.Some? then actual.value else held.credits;
      if held.status.Captured? then
        match ChargeRow(db.txns, w, h)
        case Some(t) => Step(db, Ok(t))
        case None => Step(db, Err(HoldState(Captured)))
      else if !held.status.Held? then Step(db, Err(HoldState(held.status)))
      else if n < 0 then Step(db, Err(ValueError))
      else if held.waived.Some? then Step(Bill(db, h, now, 0, Some(n)), Ok(|db.txns|))
      else
        var swept := Sweep(db, w, now);
        var live := Credits(swept.lots, w, After(now));
        if n > held.credits && live < n - held.credits then
          Step(db, Err(InsufficientCredits(live, n - held.credits)))
        else
          var moved := Adjust(swept, h, now, n);
          Step(Bill(moved, h, now, n, None), Ok(|moved.txns|))
  }

  /** Mark a hold resolved. */
  function Close(db: Db, h: nat, status: Status): (r: Db)
    requires h < |db.holds|
    ensures r.wallets == db.wallets
  {
    db.(holds := db.holds[h := db.holds[h].(status := status)])
  }

  function ReleaseOp(db: Db, now: int, h: nat, expired: bool): Step<nat> {
    if h >= |db.holds| || db.holds[h].wallet >= |db.wallets| then Step(db, Err(HoldNotFound)) else
      var w := db.holds[h].wallet;
      if !db.holds[h].status.Held? then Step(db, Ok(h)) else
        var swept := Sweep(db, w, now);
        var back := Sweep(GiveBack(swept, h, Total(swept.holds[h].allocs)), w, now);
        Step(Close(Sync(back, w, now), h, if expired then Expired else Released), Ok(h))
  }
}
