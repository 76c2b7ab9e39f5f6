/** The event log and the claim table as the delivery path changes them in place. */
module EventLogs {
  import opened Webhooks

  /** The log, the claims and the grants, changed in place by the delivery path; the history is kept for the proofs. */
  class EventLog {
    var log: seq<Entry>
    var claims: set<Thing>
    var grants: seq<Thing>
    ghost var commits: seq<Commit>

    ghost function Contents(): Store
      reads this
    {
      Store(log, Given(claims, grants), commits)
    }

    constructor ()
      ensures Contents() == EMPTY_STORE
    {
      log, claims, grants, commits := [], {}, [], [];
    }

    /** `claim_provider_object`. */
    method ClaimObject(t: Thing) returns (mine: bool)
      modifies `claims
      ensures mine <==> Claimable(t, old(claims))
      ensures claims == if mine then old(claims) + {t} else old(claims)
    {
      mine := t.id != "" && t !in claims;
      if mine {
        claims := claims + {t};
      }
    }

    /** The handler: a claim and a grant for each object, until a claim is lost. */
    method Handle(names: seq<Thing>)
      modifies `claims, `grants
      ensures Given(claims, grants) == Perform(old(Given(claims, grants)), names)
    {
      var k := 0;
      while k < |names|
        invariant 0 <= k <= |names|
        invariant Perform(Given(claims, grants), names[k..]) == Perform(old(Given(claims, grants)), names)
      {
        var mine := ClaimObject(names[k]);
        if !mine {
          return;
        }
        grants := grants + [names[k]];
        k := k + 1;
      }
    }

    /** `apply_stored_event`: the handler's effects and the processed mark, or neither. */
    method ApplyStoredEvent(i: nat, names: seq<Thing>, fate: Fate) returns (out: Result)
      requires i < |log|
      modifies this
      ensures Applied(Contents(), out) == ApplyStored(old(Contents()), i, names, fate)
    {
      if log[i].processed {
        return Done(Duplicate);
      }
      var savedClaims, savedGrants := claims, grants;
      Handle(names);
      if fate.Raises? {
        claims, grants := savedClaims, savedGrants;
        return Raised(fate.error);
      }
      log := log[i := log[i].(processed := true, stale := fate.stale, error := "")];
      commits := commits + [Commit(i, names)];
      out := Done(if fate.stale then IgnoredStale else Processed);
    }

    /** `StripeWebhookView.post`. */
    method PostEvent(event: string, names: seq<Thing>, fate: Fate) returns (reply: Reply)
      modifies this
      ensures Posted(Contents(), reply) == Post(old(Contents()), event, names, fate)
    {
      var existing := EntryOf(log, event);
      var i := |log|;
      if existing.Some? {
        i := existing.value;
        if log[i].processed {
          return AlreadyDone;
        }
      } else {
        log := log + [Entry(event, names, false, false, "")];
      }
      var out := ApplyStoredEvent(i, names, fate);
      if out.Raised? {
        log := log[i := log[i].(error := out.error)];
        return Failed;
      }
      reply := if out.outcome.Duplicate? then AlreadyDone else Accepted;
    }

    /** `replay_webhook_events`: the rows are chosen first, then run one by one; a dry run only lists them. */
    method ReplayEvents(ids: set<string>, unprocessed: bool, dryRun: bool, fates: seq<Fate>) returns (seen: seq<nat>)
      requires |fates| == |log|
      modifies this
      ensures Contents() == if dryRun then old(Contents())
                            else ReplayFrom(old(Contents()), old(log), ids, unprocessed, fates, 0)
      ensures forall i :: i in seen <==> 0 <= i < old(|log|) && Replayable(old(log)[i], ids, unprocessed)
    {
      seen := [];
      var was := log;
      var k := 0;
      while k < |was|
        invariant 0 <= k <= |was| == |log|
        invariant forall i :: i in seen <==> 0 <= i < k && Replayable(was[i], ids, unprocessed)
        invariant dryRun ==> Contents() == old(Contents())
        invariant !dryRun ==>
                    ReplayFrom(Contents(), was, ids, unprocessed, fates, k)
                    == ReplayFrom(old(Contents()), was, ids, unprocessed, fates, 0)
      {
        if was[k].event in ids || (unprocessed && !was[k].processed) {
          if !dryRun {
            var out := ApplyStoredEvent(k, log[k].stored, fates[k]);
            if out.Raised? {
              log := log[k := log[k].(error := out.error)];
            }
          }
          seen := seen + [k];
        }
        k := k + 1;
      }
    }
  }
}
