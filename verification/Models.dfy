/** The tables of models.py. A row's index in its table is its id and its place in creation order. */
module Models {
  import opened Sums

  datatype Option<+T> = None | Some(value: T)

  /** When credits die; `expires_at = NULL` is Never. */
  datatype Expiry = Never | At(t: int)

  /** Which credits a sum counts: all of them, or those still alive after an instant. */
  datatype Cut = Everything | After(t: int)

  predicate Beyond(e: Expiry, c: Cut) { c.Everything? || e.Never? || e.t > c.t }

  /** The order `expires_at ASC NULLS LAST`. */
  predicate NoLater(a: Expiry, b: Expiry) { b.Never? || (a.At? && a.t <= b.t) }

  datatype Source = Purchase | Subscription | Grant | Adjustment | HoldRelease

  datatype Lot = Lot(wallet: nat, source: Source, initial: nat, remaining: nat, expires: Expiry,
                     grant: Option<nat>)

  /** Credits drawn from one lot: a consumption record, and a hold's allocation. */
  datatype Share = Share(lot: nat, credits: nat)

  /** A ledger row's retry key; the merge key is a function of the two accounts. */
  datatype Key = NoKey | Caller(text: string) | MergeOf(fromUser: nat, intoUser: nat)

  datatype ClawReason = ByRefund | ByDispute | ByCreditNote

  datatype Claw = Claw(grant: nat, reason: ClawReason, objectId: string, requested: nat, reclaimed: nat,
                       forgiven: nat, outstanding: nat, debt: Option<nat>, reversed: bool)

  /** What a ledger row records beyond its delta: its type and its typed metadata. */
  datatype Note =
    | Granted
    | Debited(requested: nat, shortfall: nat, debt: Option<nat>)
    | Waived(credits: nat)
    | Settled(pays: nat)
    | Lapsed
    | Forfeited
    | Charged(hold: nat, waived: Option<nat>)
    | ClawedBack(claw: Claw)
    | Restored(row: nat)
    | MergedIn(closed: nat)

  datatype Txn = Txn(wallet: nat, lot: Option<nat>, delta: int, balanceAfter: int, key: Key,
                     note: Note, split: seq<Share>, refs: set<string>)

  datatype Status = Held | Captured | Released | Expired

  datatype Hold = Hold(wallet: nat, credits: nat, key: string, status: Status, deadline: Expiry,
                       waived: Option<nat>, allocs: seq<Share>)

  datatype DebtReason = PartialDebit | Clawback

  datatype Debt = Debt(wallet: nat, initial: nat, outstanding: nat, reason: DebtReason, txn: nat,
                       key: Key, settledAt: Option<int>)

  datatype Wallet = Wallet(user: Option<nat>, balance: int, mergedInto: Option<nat>)

  /** One object whose effect may happen once: a money-back event, or a wallet's plan bundle for a period. */
  datatype Claim = ClawbackEvent(event: string) | PlanBundle(wallet: nat, plan: string, period: string)

  datatype Db = Db(wallets: seq<Wallet>, lots: seq<Lot>, txns: seq<Txn>, holds: seq<Hold>,
                   debts: seq<Debt>, claims: set<Claim>)

  const EMPTY_DB := Db([], [], [], [], [], {})

  datatype Error =
    | ValueError
    | InsufficientCredits(available: int, required: int)
    | HoldNotFound
    | HoldState(status: Status)
    | HoldKeyResolved(hold: nat)
    | IntegrityError

  datatype Outcome<+T> = Ok(value: T) | Err(error: Error)

  // ----- Live credits -----

  function CreditsOf(v: nat, c: Cut): Lot -> int {
    (l: Lot) => if l.wallet == v && Beyond(l.expires, c) then l.remaining else 0
  }

  /** The credits wallet v holds in lots that outlive the cut. */
  function Credits(lots: seq<Lot>, v: nat, c: Cut): (r: nat) {
    SumNonNegative(lots, CreditsOf(v, c));
    Sum(lots, CreditsOf(v, c))
  }

  /** The credits of one share if its lot outlives the cut. */
  function Part(s: Share, lots: seq<Lot>, c: Cut): nat {
    if c.Everything? || (s.lot < |lots| && Beyond(lots[s.lot].expires, c)) then s.credits else 0
  }

  function ShareBeyond(lots: seq<Lot>, c: Cut): Share -> int { (s: Share) => Part(s, lots, c) }

  /** The credits of an allocation list whose lots outlive the cut. */
  function Shares(allocs: seq<Share>, lots: seq<Lot>, c: Cut): (r: nat) {
    SumNonNegative(allocs, ShareBeyond(lots, c));
    Sum(allocs, ShareBeyond(lots, c))
  }

  /** The total of an allocation list, whatever its lots' deadlines. */
  function Total(allocs: seq<Share>): nat { Shares(allocs, [], Everything) }

  function ReservedOf(lots: seq<Lot>, v: nat, c: Cut): Hold -> int {
    (h: Hold) => if h.wallet == v && h.status.Held? then Shares(h.allocs, lots, c) else 0
  }

  /** The credits v's open holds keep out of lots that outlive the cut. */
  function Reserved(holds: seq<Hold>, lots: seq<Lot>, v: nat, c: Cut): (r: nat) {
    SumNonNegative(holds, ReservedOf(lots, v, c));
    Sum(holds, ReservedOf(lots, v, c))
  }

  function OwedOf(v: nat): Debt -> int {
    (d: Debt) => if d.wallet == v && d.settledAt.None? then d.outstanding else 0
  }

  /** What wallet v owes over its open debts. */
  function Owed(debts: seq<Debt>, v: nat): (r: nat) {
    SumNonNegative(debts, OwedOf(v));
    Sum(debts, OwedOf(v))
  }

  // ----- Small facts about the sums -----

  /** Same rows but for `remaining`, which never goes up; new rows may follow. */
  ghost predicate Shrinks(lots: seq<Lot>, lots': seq<Lot>) {
    && |lots| <= |lots'|
    && forall i {:trigger lots[i]} {:trigger lots'[i]} | 0 <= i < |lots| ::
         lots'[i].remaining <= lots[i].remaining && lots'[i] == lots[i].(remaining := lots'[i].remaining)
  }

  /** The table grew at the end. */
  ghost predicate Extends<T>(s: seq<T>, s': seq<T>) {
    |s| <= |s'| && forall i {:trigger s'[i]} {:trigger s[i]} | 0 <= i < |s| :: s'[i] == s[i]
  }

  /** The ledger grew only by the rows that sweeps and settlements write, none of which carries a retry key. */
  ghost predicate Routine(txns: seq<Txn>, txns': seq<Txn>) {
    && Extends(txns, txns')
    && forall t {:trigger txns'[t]} | |txns| <= t < |txns'| ::
         (txns'[t].note.Lapsed? || txns'[t].note.Settled?) && txns'[t].key.NoKey?
  }

  /** No wallet changes hands. */
  ghost predicate UsersKept(wallets: seq<Wallet>, wallets': seq<Wallet>) {
    && |wallets| <= |wallets'|
    && forall i {:trigger wallets'[i]} | 0 <= i < |wallets| :: wallets'[i].user == wallets[i].user
  }

  ghost predicate InTable(allocs: seq<Share>, lots: seq<Lot>, w: nat) {
    forall k | 0 <= k < |allocs| :: allocs[k].lot < |lots| && lots[allocs[k].lot].wallet == w
  }

  lemma SharesStable(allocs: seq<Share>, lots: seq<Lot>, lots': seq<Lot>, w: nat, c: Cut)
    requires Shrinks(lots, lots') && InTable(allocs, lots, w)
    ensures Shares(allocs, lots', c) == Shares(allocs, lots, c)
  {
    SumSame(allocs, ShareBeyond(lots', c), allocs, ShareBeyond(lots, c));
  }

  lemma SharesAppend(allocs: seq<Share>, s: Share, lots: seq<Lot>, c: Cut)
    ensures Shares(allocs + [s], lots, c) == Shares(allocs, lots, c) + Part(s, lots, c)
  {
    SumAppend(allocs, s, ShareBeyond(lots, c));
  }

  lemma SharesPrepend(s: Share, allocs: seq<Share>, lots: seq<Lot>, c: Cut)
    ensures Shares([s] + allocs, lots, c) == Part(s, lots, c) + Shares(allocs, lots, c)
  {
    SumPrepend(s, allocs, ShareBeyond(lots, c));
  }

  /** Appending lots does not change what existing allocations weigh. */
  lemma SharesGrow(allocs: seq<Share>, lots: seq<Lot>, lots': seq<Lot>, c: Cut)
    requires Extends(lots, lots') && forall k | 0 <= k < |allocs| :: allocs[k].lot < |lots|
    ensures Shares(allocs, lots', c) == Shares(allocs, lots, c)
  {
    SumSame(allocs, ShareBeyond(lots', c), allocs, ShareBeyond(lots, c));
  }

  lemma TotalIs(allocs: seq<Share>, lots: seq<Lot>)
    ensures Shares(allocs, lots, Everything) == Total(allocs)
  {
    SumSame(allocs, ShareBeyond(lots, Everything), allocs, ShareBeyond([], Everything));
  }

  /** Fewer credits outlive a later instant. */
  lemma CreditsLater(lots: seq<Lot>, v: nat, t: int, t': int)
    requires t <= t'
    ensures Credits(lots, v, After(t')) <= Credits(lots, v, After(t)) <= Credits(lots, v, Everything)
  {
    SumAtMost(lots, CreditsOf(v, After(t')), lots, CreditsOf(v, After(t)));
    SumAtMost(lots, CreditsOf(v, After(t)), lots, CreditsOf(v, Everything));
  }
}
