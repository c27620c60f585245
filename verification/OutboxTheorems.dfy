/**
 What the outbox promises over whole runs: nothing is lost, finished rows stay finished, leases keep
 claims apart, and every due row is claimed after a bounded number of claims.
 */
module OutboxTheorems {
  import opened Options
  import opened OutboxTables
  import opened OutboxInvariant

  // ---------------------------------------------------------------- no intent is lost

  predicate RelayLetterFor(s: State, l: nat, id: nat) {
    l in s.letters && s.letters[l].byRelay && s.letters[l].jobId == OutboxJobId(id)
  }

  /** The intent is still pending in the table, or was added as a job, or its row failed, still carries it,
      and the one dead letter the relay wrote for it holds it until retention removes that letter. */
  ghost predicate Accounted(s: State, id: nat)
    requires id in s.log.intents
  {
    var x := s.log.intents[id];
    id in s.rows && match s.rows[id].status
    case Pending => IntentOf(s.rows[id]) == x
    case Published => (OutboxJobId(id), x) in s.log.added
    case Failed =>
      && IntentOf(s.rows[id]) == x && id in s.log.letterOf
      && (forall l :: RelayLetterFor(s, l, id) ==> l == s.log.letterOf[id])
      && (HoldsIntent(s, s.log.letterOf[id], id, x) || s.log.letterOf[id] in s.log.prunedLetters)
  }

  /** The dead letter `l` is stored, was written by the relay for row `id`, and holds the intent. */
  predicate HoldsIntent(s: State, l: nat, id: nat, x: Intent) {
    RelayLetterFor(s, l, id) && s.letters[l].intent == x
  }

  lemma InvAccounts(s: State, id: nat)
    requires Inv(s) && id in s.log.intents && id !in s.log.pruned
    ensures Accounted(s, id)
  {
    assert RowOk(s.log, id, s.rows[id]);
    forall l | RelayLetterFor(s, l, id)
      ensures l in s.log.rowOf && s.log.rowOf[l] == id && s.letters[l].intent == s.log.intents[id]
    {
      assert LetterOk(s.log, l, s.letters[l]);
      OutboxJobIdInjective(s.log.rowOf[l], id);
    }
    if s.rows[id].status.Failed? && s.log.letterOf[id] in s.letters {
      assert LetterOk(s.log, s.log.letterOf[id], s.letters[s.log.letterOf[id]]);
    }
  }

  /** With any number of relays, crashes, timeouts and stale claims, every committed intent that
      retention has not removed is accounted for. */
  lemma NoIntentLost(cfg: Config, es: seq<Event>, id: nat)
    ensures var s := Run(Init(cfg), es);
            id in s.log.intents && id !in s.log.pruned ==> Accounted(s, id)
  {
    var s := Run(Init(cfg), es);
    RunInv(Init(cfg), es);
    if id in s.log.intents && id !in s.log.pruned {
      InvAccounts(s, id);
    }
  }

  /** Every job ever added under an intent's job id carries that intent. */
  lemma JobsCarryIntents(cfg: Config, es: seq<Event>, id: nat, x: Intent)
    ensures var s := Run(Init(cfg), es);
            (OutboxJobId(id), x) in s.log.added ==> id in s.log.intents && s.log.intents[id] == x
  {
    var s := Run(Init(cfg), es);
    RunInv(Init(cfg), es);
    if (OutboxJobId(id), x) in s.log.added {
      var i :| i in s.log.intents && (OutboxJobId(id), x) == (OutboxJobId(i), s.log.intents[i]);
      OutboxJobIdInjective(i, id);
    }
  }

  /** Stored rows have intents; a row about to be inserted does not yet. */
  ghost predicate Numbered(s: State) {
    && (forall id :: id in s.rows ==> id in s.log.intents)
    && (forall p :: p in s.redrives ==> s.redrives[p].outboxId !in s.log.intents)
  }

  lemma InvNumbered(s: State)
    requires Inv(s)
    ensures Numbered(s)
  {
  }

  /** No statement removes a pending row, and none changes a finished one except by removing it. */
  lemma StatusSteps(s: State, e: Event, id: nat)
    requires Numbered(s) && id in s.rows
    ensures s.rows[id].status.Pending? ==> id in Next(s, e).rows
    ensures !s.rows[id].status.Pending? && id in Next(s, e).rows ==> Next(s, e).rows[id] == s.rows[id]
    ensures id !in Next(s, e).rows ==> e.Prune? && id in Next(s, e).log.pruned
    ensures id in Next(s, e).log.intents && Next(s, e).log.intents[id] == s.log.intents[id]
  {
  }

  /** A finished row never changes again: it stays as it is until retention removes it, for good. */
  lemma {:induction false} TerminalForever(s: State, es: seq<Event>, id: nat)
    requires Inv(s) && id in s.log.intents && (id in s.rows ==> !s.rows[id].status.Pending?)
    ensures id in Run(s, es).rows ==> id in s.rows && Run(s, es).rows[id] == s.rows[id]
    decreases |es|
  {
    if es != [] {
      var t := Next(s, es[0]);
      NextInv(s, es[0]);
      InvNumbered(s);
      if id in s.rows {
        StatusSteps(s, es[0], id);
      } else {
        GoneStaysGone(s, es[0], id);
      }
      TerminalForever(t, es[1..], id);
    }
  }

  lemma GoneStaysGone(s: State, e: Event, id: nat)
    requires Numbered(s) && id in s.log.intents && id !in s.rows
    ensures id !in Next(s, e).rows && id in Next(s, e).log.intents
  {
  }

  // ---------------------------------------------------------------- re-drives

  /** Each dead letter is re-driven at most once: stamped letters and committed re-drive rows match one
      to one, with the same queue, job and payload. */
  lemma RedrivenAtMostOnce(cfg: Config, es: seq<Event>)
    ensures var s := Run(Init(cfg), es);
            && (forall l :: l in s.letters && s.letters[l].redriven.Some? ==>
                  var id := s.letters[l].redriven.value;
                  && id in s.log.intents && s.log.intents[id] == s.letters[l].intent
                  && id in s.log.origin && s.log.origin[id] == l)
            && (forall id :: id in s.log.origin && s.log.origin[id] in s.letters ==>
                  s.letters[s.log.origin[id]].redriven == Some(id))
            && (forall i, j :: i in s.log.origin && j in s.log.origin && s.log.origin[i] == s.log.origin[j] ==> i == j)
  {
    RunInv(Init(cfg), es);
    var s := Run(Init(cfg), es);
    assert forall l :: l in s.letters ==> LetterOk(s.log, l, s.letters[l]);
  }

  // ---------------------------------------------------------------- leases

  predicate Retries(e: Event, id: nat) {
    e.MarkRetry? && e.copy.id == id
  }

  predicate Claims(s: State, e: Event, id: nat) {
    e.ClaimBatch? && IsBatch(s.rows, s.clock, e.limit, e.skipped, e.chosen) && id in e.chosen
  }

  /** Some event of the run claims row `id`. */
  ghost predicate ClaimedIn(s: State, es: seq<Event>, id: nat)
    decreases |es|
  {
    es != [] && (Claims(s, es[0], id) || ClaimedIn(Next(s, es[0]), es[1..], id))
  }

  /** The row is leased until `until`, or no longer pending. */
  predicate LeasedUntil(s: State, id: nat, until: int) {
    id in s.rows && s.rows[id].status.Pending? ==> until <= s.rows[id].availableAt
  }

  lemma LeaseStep(s: State, e: Event, id: nat, until: int)
    requires Numbered(s) && id in s.log.intents && LeasedUntil(s, id, until) && !Retries(e, id)
    requires s.clock < until
    ensures LeasedUntil(Next(s, e), id, until) && !Claims(s, e, id) && id in Next(s, e).log.intents
  {
  }

  lemma {:induction false} LeaseRun(s: State, es: seq<Event>, id: nat, until: int)
    requires Inv(s) && id in s.log.intents && LeasedUntil(s, id, until)
    requires forall e :: e in es ==> !Retries(e, id)
    requires Run(s, es).clock < until
    ensures !ClaimedIn(s, es, id)
    decreases |es|
  {
    if es != [] {
      ClockGrows(s, [es[0]]);
      ClockGrows(Next(s, es[0]), es[1..]);
      NextInv(s, es[0]);
      InvNumbered(s);
      LeaseStep(s, es[0], id, until);
      LeaseRun(Next(s, es[0]), es[1..], id, until);
    }
  }

  lemma {:induction false} ClockGrows(s: State, es: seq<Event>)
    ensures s.clock <= Run(s, es).clock && Run(s, es).cfg == s.cfg
    decreases |es|
  {
    if es != [] {
      ClockGrows(Next(s, es[0]), es[1..]);
    }
  }

  /** A claim returns only pending rows that are available, with their attempts, and leases them. */
  lemma ClaimedWasDue(s: State, claim: Event, id: nat)
    requires Claims(s, claim, id)
    ensures id in s.rows && s.rows[id].status.Pending? && s.rows[id].availableAt <= s.clock
    ensures Next(s, claim).rows[id] == s.rows[id].(availableAt := s.clock + s.cfg.lease)
    ensures Copy(id, IntentOf(s.rows[id]), s.rows[id].attempts) in Next(s, claim).log.copies
  {
    assert id in DueRows(s.rows, s.clock);
    assert Copy(id, IntentOf(s.rows[id]), s.rows[id].attempts) in CopiesOf(s.rows, claim.chosen);
  }

  /** After a claim of row `id`, no other claim returns it before the lease is over, unless a
      `markRetry` of that row comes between. */
  lemma ClaimsAreALeaseApart(s: State, claim: Event, es: seq<Event>, id: nat)
    requires Inv(s) && Claims(s, claim, id)
    requires forall e :: e in es ==> !Retries(e, id)
    requires Run(Next(s, claim), es).clock < s.clock + s.cfg.lease
    ensures !ClaimedIn(Next(s, claim), es, id)
  {
    assert RowOk(s.log, id, s.rows[id]);
    NextInv(s, claim);
    LeaseRun(Next(s, claim), es, id, s.clock + s.cfg.lease);
  }

  // ---------------------------------------------------------------- every due row is claimed

  /** The pending rows that became available no later than row `id`, itself included. */
  function Ahead(s: State, id: nat): set<nat>
    requires id in s.rows
  {
    set y | y in s.rows && s.rows[y].status.Pending? && s.rows[y].availableAt <= s.rows[id].availableAt
  }

  /** Nothing but a claim touches row `id`, and enqueues and retries are dated after it became available. */
  predicate Undisturbed(s: State, e: Event, id: nat)
    requires id in s.rows
  {
    match e
    case MarkPublished(c, _) => c.id != id
    case MarkRetry(c, at) => c.id != id && s.rows[id].availableAt < at
    case MarkFailed(c, _, _) => c.id != id
    case Enqueue(_, _, at) => s.rows[id].availableAt < at
    case RedriveCommit(pid) => pid in s.redrives ==> s.rows[id].availableAt < s.redrives[pid].at
    case _ => true
  }

  ghost predicate UndisturbedRun(s: State, es: seq<Event>, id: nat)
    decreases |es|
  {
    es == [] || (id in s.rows && Undisturbed(s, es[0], id) && UndisturbedRun(Next(s, es[0]), es[1..], id))
  }

  function CountClaims(s: State, es: seq<Event>, limit: nat, id: nat): nat
    decreases |es|
  {
    if es == [] then 0
    else CountClaims(Next(s, es[0]), es[1..], limit, id) + if Counts(s, es[0], limit, id) then 1 else 0
  }

  /** A claim that does not find row `id` locked and leaves it out takes `limit` rows from ahead of it. */
  lemma SkippedClaim(s: State, limit: nat, skipped: set<nat>, chosen: set<nat>, id: nat)
    requires id in s.rows && Due(s.rows[id], s.clock) && s.cfg.lease > 0
    requires IsBatch(s.rows, s.clock, limit, skipped, chosen) && id !in chosen && id !in skipped
    ensures var t := Next(s, ClaimBatch(limit, skipped, chosen));
            id in t.rows && t.rows[id] == s.rows[id] && |Ahead(t, id)| + limit <= |Ahead(s, id)|
  {
    var t := Next(s, ClaimBatch(limit, skipped, chosen));
    assert id in DueRows(s.rows, s.clock) - skipped;
    assert chosen <= Ahead(s, id);
    assert Ahead(t, id) <= Ahead(s, id) - chosen;
    Fewer(Ahead(t, id), Ahead(s, id) - chosen);
    assert |Ahead(s, id) - chosen| == |Ahead(s, id)| - |chosen| by {
      assert Ahead(s, id) == (Ahead(s, id) - chosen) + chosen;
    }
  }

  lemma Fewer(a: set<nat>, b: set<nat>)
    requires a <= b
    ensures |a| <= |b|
  {
    assert b == a + (b - a);
  }

  lemma QuietStep(s: State, e: Event, id: nat)
    requires Numbered(s) && id in s.rows && Due(s.rows[id], s.clock) && Undisturbed(s, e, id) && s.cfg.lease > 0
    requires !Claims(s, e, id)
    ensures id in Next(s, e).rows && Next(s, e).rows[id] == s.rows[id]
    ensures |Ahead(Next(s, e), id)| <= |Ahead(s, id)|
  {
    var t := Next(s, e);
    StatusSteps(s, e, id);
    assert t.rows[id] == s.rows[id];
    if e.ClaimBatch? {
      ClaimShrinks(s, e.limit, e.skipped, e.chosen, id);
    } else {
      AheadShrinks(s, e, id);
    }
    Fewer(Ahead(t, id), Ahead(s, id));
  }

  lemma ClaimShrinks(s: State, limit: nat, skipped: set<nat>, chosen: set<nat>, id: nat)
    requires id in s.rows && s.cfg.lease > 0 && !Claims(s, ClaimBatch(limit, skipped, chosen), id)
    ensures var t := Next(s, ClaimBatch(limit, skipped, chosen));
            id in t.rows && t.rows[id] == s.rows[id] && Ahead(t, id) <= Ahead(s, id)
  {
  }

  lemma AheadShrinks(s: State, e: Event, id: nat)
    requires Numbered(s) && id in s.rows && Due(s.rows[id], s.clock) && Undisturbed(s, e, id)
    requires !e.ClaimBatch?
    requires id in Next(s, e).rows && Next(s, e).rows[id] == s.rows[id]
    ensures Ahead(Next(s, e), id) <= Ahead(s, id)
  {
  }

  /** A claim of `limit` rows that does not find row `id` locked by somebody else. */
  predicate Counts(s: State, e: Event, limit: nat, id: nat) {
    e.ClaimBatch? && e.limit == limit && id !in e.skipped && IsBatch(s.rows, s.clock, limit, e.skipped, e.chosen)
  }

  /** One event that does not claim row `id` leaves it due, and a claim takes `limit` rows ahead of it. */
  lemma WaitingStep(s: State, e: Event, id: nat, limit: nat)
    requires Numbered(s) && id in s.rows && Due(s.rows[id], s.clock) && Undisturbed(s, e, id) && s.cfg.lease > 0
    requires !Claims(s, e, id)
    ensures var t := Next(s, e);
            && id in t.rows && Due(t.rows[id], t.clock) && t.cfg == s.cfg
            && |Ahead(t, id)| + (if Counts(s, e, limit, id) then limit else 0) <= |Ahead(s, id)|
  {
    QuietStep(s, e, id);
    ClockGrows(s, [e]);
    assert Run(s, [e]) == Run(Next(s, e), []);
    if Counts(s, e, limit, id) {
      SkippedClaim(s, limit, e.skipped, e.chosen, id);
    }
  }

  lemma Enough(count: nat, limit: nat, ahead: nat, rest: nat, counted: bool)
    requires (count + if counted then 1 else 0) * limit >= ahead
    requires rest + (if counted then limit else 0) <= ahead
    ensures count * limit >= rest
  {
  }

  lemma StillWaiting(s: State, es: seq<Event>, id: nat, limit: nat)
    requires Numbered(s) && id in s.rows && Due(s.rows[id], s.clock) && s.cfg.lease > 0
    requires es != [] && UndisturbedRun(s, es, id) && !Claims(s, es[0], id)
    requires CountClaims(s, es, limit, id) * limit >= |Ahead(s, id)|
    ensures var t := Next(s, es[0]);
            && id in t.rows && Due(t.rows[id], t.clock) && t.cfg == s.cfg
            && CountClaims(t, es[1..], limit, id) * limit >= |Ahead(t, id)|
  {
    WaitingStep(s, es[0], id, limit);
    Enough(CountClaims(Next(s, es[0]), es[1..], limit, id), limit, |Ahead(s, id)|, |Ahead(Next(s, es[0]), id)|,
           Counts(s, es[0], limit, id));
  }

  /** A due row with r rows no later than it is claimed within ceil(r / limit) claims that do not find it
      locked: once that many claims have run, one of them returned it. */
  lemma {:induction false} DueRowIsClaimed(s: State, es: seq<Event>, id: nat, limit: nat)
    requires Inv(s) && id in s.rows && s.rows[id].status.Pending? && s.rows[id].availableAt <= s.clock && s.cfg.lease > 0
    requires UndisturbedRun(s, es, id)
    requires CountClaims(s, es, limit, id) * limit >= |Ahead(s, id)|
    ensures ClaimedIn(s, es, id)
    decreases |es|
  {
    assert id in Ahead(s, id);
    if es == [] {
      assert false;
    }
    if !Claims(s, es[0], id) {
      NextInv(s, es[0]);
      InvNumbered(s);
      StillWaiting(s, es, id, limit);
      DueRowIsClaimed(Next(s, es[0]), es[1..], id, limit);
    }
  }
}
