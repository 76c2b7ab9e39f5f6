/** The event log and the claim table under any interleaving of deliveries, failures, retries and replays. */
module Webhooks {
  import opened Sums
  import opened Models

  datatype Scope = Invoice | CheckoutSession | PlanBundle

  /** A provider object a grant is claimed for. */
  datatype Thing = Thing(scope: Scope, id: string)

  /** A row of the event log. */
  datatype Entry = Entry(event: string, stored: seq<Thing>, processed: bool, stale: bool, error: string)

  /** One committed handler run. */
  datatype Commit = Commit(row: nat, names: seq<Thing>)

  /** What the grants leave: the claim rows and the objects credited, in order. */
  datatype Given = Given(claims: set<Thing>, grants: seq<Thing>)

  /** The tables, and the history of committed handler runs. */
  datatype Store = Store(log: seq<Entry>, granted: Given, commits: seq<Commit>)

  const EMPTY_STORE := Store([], Given({}, []), [])

  // ----- The handler -----

  /** `claim_provider_object` wins: the object has an identity and nobody claimed it. */
  predicate Claimable(t: Thing, claims: set<Thing>) { t.id != "" && t !in claims }

  /** A handler over the objects its event names: each grant needs its claim, and a lost claim ends the handler. */
  function Perform(g: Given, names: seq<Thing>): Given
    decreases |names|
  {
    if names == [] || !Claimable(names[0], g.claims) then g
    else Perform(Given(g.claims + {names[0]}, g.grants + [names[0]]), names[1..])
  }

  // ----- Running one stored event -----

  datatype Outcome = Processed | IgnoredStale | Duplicate

  /** How the handler's run ends, as the environment decides: an exception, or success with the stale mark or without. */
  datatype Fate = Raises(error: string) | Succeeds(stale: bool)

  datatype Applied = Applied(store: Store, out: Result)

  datatype Result = Done(outcome: Outcome) | Raised(error: string)

  /** `apply_stored_event`: one atomic block; an exception leaves every table as it was. */
  function ApplyStored(s: Store, i: nat, names: seq<Thing>, fate: Fate): (r: Applied)
    requires i < |s.log|
    ensures |r.store.log| == |s.log|
  {
    if s.log[i].processed then Applied(s, Done(Duplicate)) else
      match fate
      case Raises(e) => Applied(s, Raised(e))
      case Succeeds(stale) =>
        Applied(Store(s.log[i := s.log[i].(processed := true, stale := stale, error := "")],
                      Perform(s.granted, names), s.commits + [Commit(i, names)]),
                Done(if stale then IgnoredStale else Processed))
  }

  function EntryOf(log: seq<Entry>, event: string): (r: Option<nat>)
    ensures r.Some? ==> r.value < |log| && log[r.value].event == event
    ensures r.None? ==> forall i | 0 <= i < |log| :: log[i].event != event
  {
    if log == [] then None else
      var r := EntryOf(log[..|log| - 1], event);
      if r.Some? then r else if log[|log| - 1].event == event then Some(|log| - 1) else None
  }

  datatype Logged = Logged(store: Store, i: nat)

  /** `get_or_create` of the log row. */
  function LogEvent(s: Store, event: string, names: seq<Thing>): (r: Logged)
    ensures r.i < |r.store.log| && r.store.log[r.i].event == event
  {
    match EntryOf(s.log, event)
    case Some(i) => Logged(s, i)
    case None => Logged(s.(log := s.log + [Entry(event, names, false, false, "")]), |s.log|)
  }

  /** The separate write of a failure's message. */
  function RecordError(s: Store, i: nat, error: string): Store
    requires i < |s.log|
  {
    s.(log := s.log[i := s.log[i].(error := error)])
  }

  // ----- Concurrent workers -----

  /** A request or replay under way: about to run an event, or holding a failure it has not written down yet. */
  datatype Worker = Running(i: nat, names: seq<Thing>) | Failing(i: nat, error: string) | Gone

  datatype State = State(store: Store, workers: seq<Worker>)

  datatype Step =
    | Receive(event: string, names: seq<Thing>)
    | StartReplay(i: nat)
    | Attempt(w: nat, fate: Fate)
    | WriteError(w: nat)
    | Crash(w: nat)

  /** One step of one worker; a step that is not enabled does nothing. */
  function Next(s: State, step: Step): State {
    match step
    case Receive(event, names) =>
      var logged := LogEvent(s.store, event, names);
      if logged.store.log[logged.i].processed then State(logged.store, s.workers)
      else State(logged.store, s.workers + [Running(logged.i, names)])
    case StartReplay(i) =>
      if i >= |s.store.log| then s
      else s.(workers := s.workers + [Running(i, s.store.log[i].stored)])
    case Attempt(w, fate) =>
      if w >= |s.workers| || !s.workers[w].Running? || s.workers[w].i >= |s.store.log| then s else
        var r := ApplyStored(s.store, s.workers[w].i, s.workers[w].names, fate);
        State(r.store, s.workers[w := if r.out.Raised? then Failing(s.workers[w].i, r.out.error) else Gone])
    case WriteError(w) =>
      if w >= |s.workers| || !s.workers[w].Failing? || s.workers[w].i >= |s.store.log| then s
      else State(RecordError(s.store, s.workers[w].i, s.workers[w].error), s.workers[w := Gone])
    case Crash(w) => if w >= |s.workers| then s else s.(workers := s.workers[w := Gone])
  }

  function Interleave(steps: seq<Step>): State {
    if steps == [] then State(EMPTY_STORE, []) else
      Next(Interleave(steps[..|steps| - 1]), steps[|steps| - 1])
  }

  // ----- The invariant -----

  function RunOf(i: nat): Commit -> int { (c: Commit) => if c.row == i then 1 else 0 }

  /** How many committed handler runs an event has. */
  function Commits(commits: seq<Commit>, i: nat): int { Sum(commits, RunOf(i)) }

  /** What a history of committed runs grants, one after another. */
  function Replayed(commits: seq<Commit>): Given {
    if commits == [] then Given({}, []) else
      Perform(Replayed(commits[..|commits| - 1]), commits[|commits| - 1].names)
  }

  ghost predicate Distinct<T>(s: seq<T>) { forall i, j | 0 <= i < j < |s| :: s[i] != s[j] }

  /** One log row per event id. */
  ghost predicate UniqueEvents(log: seq<Entry>) {
    forall i, j | 0 <= i < j < |log| :: log[i].event != log[j].event
  }

  /** An object is claimed exactly when it was granted, and granted once. */
  ghost predicate GrantedOnce(g: Given) {
    Distinct(g.grants) && forall t :: t in g.claims <==> t in g.grants
  }

  ghost predicate Consistent(s: Store) {
    && UniqueEvents(s.log)
    && (forall c | c in s.commits :: c.row < |s.log|)
    && (forall i {:trigger s.log[i]} | 0 <= i < |s.log| ::
          Commits(s.commits, i) == if s.log[i].processed then 1 else 0)
    && s.granted == Replayed(s.commits)
    && GrantedOnce(s.granted)
  }

  lemma {:induction false} PerformOnce(g: Given, names: seq<Thing>)
    requires GrantedOnce(g)
    ensures GrantedOnce(Perform(g, names)) && g.claims <= Perform(g, names).claims
    decreases |names|
  {
    if names != [] && Claimable(names[0], g.claims) {
      var g' := Given(g.claims + {names[0]}, g.grants + [names[0]]);
      assert forall t :: t in g'.claims <==> t in g'.grants;
      PerformOnce(g', names[1..]);
    }
  }

  lemma {:induction false} NoRuns(commits: seq<Commit>, i: nat)
    requires forall c | c in commits :: c.row != i
    ensures Commits(commits, i) == 0
  {
    SumZero(commits, RunOf(i));
  }

  lemma ApplyConsistent(s: Store, i: nat, names: seq<Thing>, fate: Fate)
    requires Consistent(s) && i < |s.log|
    ensures Consistent(ApplyStored(s, i, names, fate).store)
  {
    var r := ApplyStored(s, i, names, fate).store;
    if r != s {
      PerformOnce(s.granted, names);
      assert r.commits[..|r.commits| - 1] == s.commits;
      forall j | 0 <= j < |r.log| ensures Commits(r.commits, j) == if r.log[j].processed then 1 else 0 {
        SumAppend(s.commits, Commit(i, names), RunOf(j));
        assert s.log[j].processed <==> (r.log[j].processed && j != i);
      }
    }
  }

  lemma LogConsistent(s: Store, event: string, names: seq<Thing>)
    requires Consistent(s)
    ensures Consistent(LogEvent(s, event, names).store)
  {
    if EntryOf(s.log, event).None? {
      NoRuns(s.commits, |s.log|);
    }
  }

  lemma StepConsistent(s: State, step: Step)
    requires Consistent(s.store)
    ensures Consistent(Next(s, step).store)
  {
    match step
    case Receive(event, names) => LogConsistent(s.store, event, names);
    case Attempt(w, fate) =>
      if w < |s.workers| && s.workers[w].Running? && s.workers[w].i < |s.store.log| {
        ApplyConsistent(s.store, s.workers[w].i, s.workers[w].names, fate);
      }
    case StartReplay(_) =>
    case WriteError(_) =>
    case Crash(_) =>
  }

  lemma {:induction false} AlwaysConsistent(steps: seq<Step>)
    ensures Consistent(Interleave(steps).store)
  {
    if steps != [] {
      AlwaysConsistent(steps[..|steps| - 1]);
      StepConsistent(Interleave(steps[..|steps| - 1]), steps[|steps| - 1]);
    }
  }

  // ----- At most one effect -----

  lemma {:induction false} TwoRuns(commits: seq<Commit>, j: nat, k: nat, n: nat)
    requires j < k < n <= |commits| && commits[j].row == commits[k].row
    ensures SumTo(commits, RunOf(commits[j].row), n) >= 2
  {
    var f := RunOf(commits[j].row);
    if k < n - 1 {
      TwoRuns(commits, j, k, n - 1);
    } else {
      SumToNonNegative(commits, f, k);
      assert f(commits[j]) == 1;
    }
  }

  /**
   * For any interleaving: two committed handler runs are runs of two different events, an event is marked processed
   * exactly when its handler committed, and no object is granted twice.
   */
  lemma AtMostOneEffect(steps: seq<Step>)
    ensures var s := Interleave(steps).store;
      && (forall j, k | 0 <= j < k < |s.commits| ::
            s.commits[j].row < |s.log| && s.commits[k].row < |s.log|
            && s.log[s.commits[j].row].event != s.log[s.commits[k].row].event)
      && (forall i | 0 <= i < |s.log| :: s.log[i].processed <==> exists k | 0 <= k < |s.commits| :: s.commits[k].row == i)
      && Distinct(s.granted.grants) && (forall t :: t in s.granted.claims <==> t in s.granted.grants)
  {
    AlwaysConsistent(steps);
    var s := Interleave(steps).store;
    forall j, k | 0 <= j < k < |s.commits|
      ensures s.commits[j].row < |s.log| && s.commits[k].row < |s.log|
      ensures s.log[s.commits[j].row].event != s.log[s.commits[k].row].event
    {
      assert s.commits[j] in s.commits && s.commits[k] in s.commits;
      if s.commits[j].row == s.commits[k].row {
        TwoRuns(s.commits, j, k, |s.commits|);
      }
    }
    forall i | 0 <= i < |s.log|
      ensures s.log[i].processed <==> exists k | 0 <= k < |s.commits| :: s.commits[k].row == i
    {
      RanIff(s.commits, i);
    }
  }

  lemma RanIff(commits: seq<Commit>, i: nat)
    ensures Commits(commits, i) > 0 <==> exists k | 0 <= k < |commits| :: commits[k].row == i
  {
    if k :| 0 <= k < |commits| && commits[k].row == i {
      SumNonNegative(commits, RunOf(i));
      assert RunOf(i)(commits[k]) == 1;
    } else {
      SumZero(commits, RunOf(i));
    }
  }

  /** Every step keeps what was committed: rows stay processed, and runs and grants are only added to. */
  ghost predicate Keeps(s: Store, s': Store) {
    && |s.log| <= |s'.log| && s.commits <= s'.commits && s.granted.claims <= s'.granted.claims
    && forall i {:trigger s'.log[i]} | 0 <= i < |s.log| ::
         s'.log[i].event == s.log[i].event && (s.log[i].processed ==> s'.log[i].processed)
  }

  lemma {:induction false} CommitsStand(steps: seq<Step>, k: nat)
    requires k <= |steps|
    ensures Keeps(Interleave(steps[..k]).store, Interleave(steps).store)
  {
    if k == |steps| {
      assert steps[..k] == steps;
    } else {
      var front := steps[..|steps| - 1];
      CommitsStand(front, k);
      assert front[..k] == steps[..k];
      AlwaysConsistent(front);
      StepKeeps(Interleave(front), steps[|steps| - 1]);
    }
  }

  lemma StepKeeps(s: State, step: Step)
    requires Consistent(s.store)
    ensures Keeps(s.store, Next(s, step).store)
  {
    if step.Attempt? && step.w < |s.workers| && s.workers[step.w].Running? {
      PerformOnce(s.store.granted, s.workers[step.w].names);
    }
  }

  /** Every handler of this module names at most one object, under a real id. */
  ghost predicate OneThing(names: seq<Thing>) {
    forall k | 0 <= k < |names| :: names[k] == names[0] && names[k].id != ""
  }

  lemma PerformOneThing(g: Given, names: seq<Thing>, t: Thing)
    requires OneThing(names)
    ensures t in Perform(g, names).claims <==> t in g.claims || t in names
  {
    if names != [] && names[0] !in g.claims {
      var g' := Given(g.claims + {names[0]}, g.grants + [names[0]]);
      assert Perform(g', names[1..]) == g';
    }
  }

  /** What is granted is what the processed events name, whatever the order, the failures and the retries. */
  lemma {:induction false} GrantedIffCommitted(commits: seq<Commit>, t: Thing)
    requires forall c | c in commits :: OneThing(c.names)
    ensures t in Replayed(commits).claims <==> exists c | c in commits :: t in c.names
  {
    if commits != [] {
      var front, last := commits[..|commits| - 1], commits[|commits| - 1];
      GrantedIffCommitted(front, t);
      assert last in commits;
      PerformOneThing(Replayed(front), last.names, t);
      if exists c | c in commits :: t in c.names {
        var c :| c in commits && t in c.names;
        assert c in front || c == last;
      }
    }
  }

  /** Every payload in a state names at most one object. */
  ghost predicate AllOneThing(s: State) {
    && (forall e | e in s.store.log :: OneThing(e.stored))
    && (forall c | c in s.store.commits :: OneThing(c.names))
    && (forall w | w in s.workers && w.Running? :: OneThing(w.names))
  }

  lemma StepOneThing(s: State, step: Step)
    requires AllOneThing(s) && (step.Receive? ==> OneThing(step.names))
    ensures AllOneThing(Next(s, step))
  {
    var s' := Next(s, step);
    if step.StartReplay? && step.i < |s.store.log| {
      assert s.store.log[step.i] in s.store.log;
    }
    if step.Attempt? && step.w < |s.workers| {
      assert s.workers[step.w] in s.workers;
    }
    assert forall i | 0 <= i < |s.store.log| ::
      s'.store.log[i].stored == s.store.log[i].stored && s.store.log[i] in s.store.log;
    assert forall i | 0 <= i < |s.workers| && s'.workers[i].Running? :: s'.workers[i] == s.workers[i] && s.workers[i] in s.workers;
  }

  lemma {:induction false} AlwaysOneThing(steps: seq<Step>)
    requires forall step | step in steps && step.Receive? :: OneThing(step.names)
    ensures AllOneThing(Interleave(steps))
  {
    if steps != [] {
      var front, last := steps[..|steps| - 1], steps[|steps| - 1];
      assert last in steps && forall step | step in front :: step in steps;
      AlwaysOneThing(front);
      StepOneThing(Interleave(front), last);
    }
  }

  /** In every reachable state an object is granted exactly when the committed run of some event names it. */
  lemma GrantsAreTheCommitted(steps: seq<Step>, t: Thing)
    requires forall step | step in steps && step.Receive? :: OneThing(step.names)
    ensures var s := Interleave(steps).store;
      t in s.granted.grants <==> exists c | c in s.commits :: t in c.names
  {
    AlwaysConsistent(steps);
    AlwaysOneThing(steps);
    GrantedIffCommitted(Interleave(steps).store.commits, t);
  }

  /** A failed event is not lost: a retry finds its row unprocessed, runs the handler again, and commits it. */
  lemma RetryReprocesses(steps: seq<Step>, i: nat, names: seq<Thing>, stale: bool)
    requires i < |Interleave(steps).store.log| && !Interleave(steps).store.log[i].processed
    ensures var s := Interleave(steps);
      var r := Next(Next(s, Receive(s.store.log[i].event, names)), Attempt(|s.workers|, Succeeds(stale))).store;
      && r.log[i].processed && r.commits == s.store.commits + [Commit(i, names)] && |r.log| == |s.store.log|
  {
    AlwaysConsistent(steps);
    var s := Interleave(steps);
    assert EntryOf(s.store.log, s.store.log[i].event) == Some(i);
  }

  // ----- A late error -----

  function RunAll(s: State, steps: seq<Step>): State {
    if steps == [] then s else Next(RunAll(s, steps[..|steps| - 1]), steps[|steps| - 1])
  }

  /** A worker that failed on row i and has still to write down why. */
  ghost predicate OwesError(s: State, i: nat) {
    exists w :: 0 <= w < |s.workers| && s.workers[w].Failing? && s.workers[w].i == i && s.workers[w].error != ""
  }

  ghost predicate Clean(s: State, i: nat) {
    i < |s.store.log| && s.store.log[i].processed && s.store.log[i].error == "" && !OwesError(s, i)
  }

  lemma CleanStays(s: State, step: Step, i: nat)
    requires Clean(s, i)
    ensures Clean(Next(s, step), i)
  {
    var s' := Next(s, step);
    forall w | 0 <= w < |s'.workers| && s'.workers[w].Failing? && s'.workers[w].i == i
      ensures s'.workers[w].error == ""
    {
      assert w < |s.workers| && s.workers[w] == s'.workers[w];
    }
  }

  lemma {:induction false} CleanForever(s: State, steps: seq<Step>, i: nat)
    requires Clean(s, i)
    ensures Clean(RunAll(s, steps), i)
  {
    if steps != [] {
      CleanForever(s, steps[..|steps| - 1], i);
      CleanStays(RunAll(s, steps[..|steps| - 1]), steps[|steps| - 1], i);
    }
  }

  ghost predicate ShowsError(s: State, i: nat) { i < |s.store.log| && s.store.log[i].error != "" }

  /**
   * An event that has just been processed can still come to carry an error exactly when another delivery of it has
   * failed and not yet written that down: the error is a separate write, outside the lock.
   */
  lemma LateErrorIff(s: State, i: nat)
    requires i < |s.store.log| && s.store.log[i].processed && s.store.log[i].error == ""
    ensures (exists steps :: ShowsError(RunAll(s, steps), i)) <==> OwesError(s, i)
  {
    if OwesError(s, i) {
      var w :| 0 <= w < |s.workers| && s.workers[w].Failing? && s.workers[w].i == i && s.workers[w].error != "";
      var steps := [WriteError(w)];
      assert steps[..0] == [] && RunAll(s, steps) == Next(s, WriteError(w));
      assert ShowsError(RunAll(s, steps), i);
    } else {
      forall steps: seq<Step> ensures !ShowsError(RunAll(s, steps), i) {
        CleanForever(s, steps, i);
      }
    }
  }

  lemma FourSteps(a: Step, b: Step, c: Step, d: Step)
    ensures Interleave([a, b, c, d]) == Next(Next(Next(Next(State(EMPTY_STORE, []), a), b), c), d)
  {
    assert [a, b, c, d][..3] == [a, b, c] && [a, b, c][..2] == [a, b] && [a, b][..1] == [a] && [a][..0] == [];
    assert Interleave([a]) == Next(State(EMPTY_STORE, []), a);
    assert Interleave([a, b]) == Next(Interleave([a]), b);
    assert Interleave([a, b, c]) == Next(Interleave([a, b]), c);
  }

  /** A delivery of an event the log holds unprocessed starts a worker; the first one writes the row. */
  lemma {:induction false} ReceiveOnce(event: string, names: seq<Thing>) returns (r: State)
    ensures r == Next(State(EMPTY_STORE, []), Receive(event, names))
    ensures r.store == Store([Entry(event, names, false, false, "")], Given({}, []), []) && r.workers == [Running(0, names)]
  {
    r := Next(State(EMPTY_STORE, []), Receive(event, names));
    assert EntryOf(EMPTY_STORE.log, event).None?;
    var logged := LogEvent(EMPTY_STORE, event, names);
    assert logged.i == 0 && logged.store.log == [Entry(event, names, false, false, "")];
  }

  lemma {:induction false} ReceiveAgain(s: State, event: string, names: seq<Thing>)
    requires |s.store.log| == 1 && s.store.log[0].event == event && !s.store.log[0].processed
    ensures Next(s, Receive(event, names)) == s.(workers := s.workers + [Running(0, names)])
  {
    var i := EntryOf(s.store.log, event);
    assert i == Some(0);
    assert LogEvent(s.store, event, names) == Logged(s.store, 0);
  }

  /** Two deliveries of one event: the first fails, the second succeeds, and only then is the failure written down. */
  lemma {:induction false} AProcessedEventShowsAnError(event: string, names: seq<Thing>, error: string) returns (s: State)
    requires error != ""
    ensures s == Interleave([Receive(event, names), Receive(event, names), Attempt(0, Raises(error)),
                             Attempt(1, Succeeds(false))])
    ensures |s.store.log| == 1 && s.store.log[0].processed && s.store.log[0].error == "" && OwesError(s, 0)
    ensures ShowsError(Next(s, WriteError(0)), 0)
  {
    FourSteps(Receive(event, names), Receive(event, names), Attempt(0, Raises(error)), Attempt(1, Succeeds(false)));
    var once := ReceiveOnce(event, names);
    ReceiveAgain(once, event, names);
    var twice := once.(workers := [Running(0, names), Running(0, names)]);
    s := FailThenSucceed(twice, names, error);
  }

  /** Of two workers on one row the first fails and the second commits. */
  lemma {:induction false} FailThenSucceed(twice: State, names: seq<Thing>, error: string) returns (s: State)
    requires |twice.store.log| == 1 && !twice.store.log[0].processed && error != ""
    requires twice.workers == [Running(0, names), Running(0, names)]
    ensures s == Next(Next(twice, Attempt(0, Raises(error))), Attempt(1, Succeeds(false)))
    ensures |s.store.log| == 1 && s.store.log[0].processed && s.store.log[0].error == "" && OwesError(s, 0)
    ensures ShowsError(Next(s, WriteError(0)), 0)
  {
    var failing := Next(twice, Attempt(0, Raises(error)));
    assert failing == twice.(workers := [Failing(0, error), Running(0, names)]);
    s := Next(failing, Attempt(1, Succeeds(false)));
    assert s.workers == [Failing(0, error), Gone] && |s.store.log| == 1;
    assert s.workers[0].Failing?;
  }

  // ----- The live delivery and the replay, start to end -----

  datatype Reply = Accepted | AlreadyDone | Failed

  datatype Posted = Posted(store: Store, reply: Reply)

  /** `StripeWebhookView.post` with nobody in between. */
  function Post(s: Store, event: string, names: seq<Thing>, fate: Fate): Posted {
    var logged := LogEvent(s, event, names);
    if logged.store.log[logged.i].processed then Posted(logged.store, AlreadyDone) else
      var r := ApplyStored(logged.store, logged.i, names, fate);
      match r.out
      case Raised(e) => Posted(RecordError(r.store, logged.i, e), Failed)
      case Done(outcome) => Posted(r.store, if outcome.Duplicate? then AlreadyDone else Accepted)
  }

  /** A delivery is the three steps of one worker. */
  lemma PostIsThreeSteps(s: State, event: string, names: seq<Thing>, fate: Fate)
    ensures var w := |s.workers|;
      RunAll(s, [Receive(event, names), Attempt(w, fate), WriteError(w)]).store == Post(s.store, event, names, fate).store
  {
    var w := |s.workers|;
    var first := [Receive(event, names)];
    assert first[..0] == [] && RunAll(s, first) == Next(s, Receive(event, names));
    RunAppend(s, first, Attempt(w, fate));
    RunAppend(s, first + [Attempt(w, fate)], WriteError(w));
    assert first + [Attempt(w, fate)] + [WriteError(w)] == [Receive(event, names), Attempt(w, fate), WriteError(w)];
  }

  lemma RunAppend(s: State, steps: seq<Step>, last: Step)
    ensures RunAll(s, steps + [last]) == Next(RunAll(s, steps), last)
  {
    assert (steps + [last])[..|steps|] == steps;
  }

  /** The rows a replay runs: named ones, and when asked every one never finished. */
  predicate Replayable(e: Entry, ids: set<string>, unprocessed: bool) { e.event in ids || (unprocessed && !e.processed) }

  /** Running one stored row with its stored payload; a failure is written down. */
  function Rerun(s: Store, i: nat, fate: Fate): (r: Store)
    requires i < |s.log|
    ensures |r.log| == |s.log|
  {
    var r := ApplyStored(s, i, s.log[i].stored, fate);
    if r.out.Raised? then RecordError(r.store, i, r.out.error) else r.store
  }

  /** `replay_webhook_events` without the dry run, from row k on: the rows chosen when it began, oldest first. */
  function ReplayFrom(s: Store, was: seq<Entry>, ids: set<string>, unprocessed: bool, fates: seq<Fate>, k: nat): (r: Store)
    requires k <= |was| == |s.log| == |fates|
    ensures |r.log| == |s.log|
    decreases |was| - k
  {
    if k == |was| then s
    else ReplayFrom(if Replayable(was[k], ids, unprocessed) then Rerun(s, k, fates[k]) else s,
                    was, ids, unprocessed, fates, k + 1)
  }

  /** A replay without failures leaves nothing it was asked for unprocessed, and runs no finished event again. */
  lemma {:induction false} ReplayFinishes(s: Store, was: seq<Entry>, ids: set<string>, unprocessed: bool,
                                          fates: seq<Fate>, k: nat)
    requires k <= |was| == |s.log| == |fates| && forall f | f in fates :: f.Succeeds?
    requires forall i | k <= i < |was| :: s.log[i] == was[i]
    ensures var r := ReplayFrom(s, was, ids, unprocessed, fates, k);
      && (forall i | k <= i < |was| && Replayable(was[i], ids, unprocessed) :: r.log[i].processed)
      && (forall i | 0 <= i < |was| && s.log[i].processed ::
            r.log[i] == s.log[i] && Commits(r.commits, i) == Commits(s.commits, i))
      && (forall i | 0 <= i < k :: r.log[i] == s.log[i])
    decreases |was| - k
  {
    if k < |was| {
      var next := if Replayable(was[k], ids, unprocessed) then Rerun(s, k, fates[k]) else s;
      assert fates[k] in fates;
      ReplayFinishes(next, was, ids, unprocessed, fates, k + 1);
      if next.commits != s.commits {
        forall i | 0 <= i < |was| && s.log[i].processed ensures Commits(next.commits, i) == Commits(s.commits, i) {
          SumAppend(s.commits, Commit(k, s.log[k].stored), RunOf(i));
        }
      }
    }
  }
}
