/**
 The relay's work on claimed rows: one row among any other sessions, and whole runs of one relay process.
 */
module OutboxRelay {
  import opened Options
  import opened FreshNumbers
  import opened OutboxTables
  import opened OutboxInvariant
  import opened OutboxTheorems

  /** How one publish ended for the relay; one that failed for it may still have reached the queue. */
  datatype Publish = Delivered | Refused(landed: bool)

  datatype PublishOutcome = PublishedIt | RetryIt | FailedIt | SkippedIt

  function Pow2(n: nat): nat {
    if n == 0 then 1 else 2 * Pow2(n - 1)
  }

  /** Exponential backoff for failed publishes, capped at one hour. */
  function RetryDelaySeconds(attempts: nat): (r: nat)
    ensures 5 <= r <= 3600
    ensures attempts == 0 ==> r == 5
  {
    var delay := 5 * Pow2(attempts);
    Pow2Positive(attempts);
    if delay < 3600 then delay else 3600
  }

  lemma {:induction false} Pow2Positive(n: nat)
    ensures Pow2(n) >= 1
  {
    if n > 0 { Pow2Positive(n - 1); }
  }

  /** Each further attempt waits twice as long, up to the cap, so waits never get shorter. */
  lemma {:induction false} RetryDelayDoubles(a: nat, b: nat)
    requires a <= b
    ensures RetryDelaySeconds(a + 1) == if RetryDelaySeconds(a) <= 1800 then 2 * RetryDelaySeconds(a) else 3600
    ensures RetryDelaySeconds(a) <= RetryDelaySeconds(b)
    decreases b - a
  {
    Pow2Positive(a);
    if a < b {
      RetryDelayDoubles(a, b - 1);
      RetryDelayDoubles(b - 1, b - 1);
    }
  }

  // ---------------------------------------------------------------- concluding a publish

  function CopyOf(rows: map<nat, Row>, id: nat): Copy
    requires id in rows
  {
    Copy(id, IntentOf(rows[id]), rows[id].attempts)
  }

  predicate Routable(cfg: Config, copy: Copy) {
    copy.intent.queue in cfg.routable
  }

  /** What the mark of a row uses: a new id for a dead letter, and the time it read before it runs. */
  datatype Stamp = Stamp(letter: nat, now: int)

  predicate Fits(s: State, stamp: Stamp) {
    stamp.letter !in s.log.everLetters && stamp.now <= s.clock
  }

  /** What the others do around one publish: until it lands, until the clock is read, until the mark runs. */
  datatype Around = Around(before: seq<Event>, during: seq<Event>, waiting: seq<Event>)

  /** What the publish does to the queues: nothing for an unknown queue, and a publish that failed for the
      relay may have landed. */
  function PublishEvents(cfg: Config, copy: Copy, result: Publish): seq<Event> {
    if Routable(cfg, copy) && (result.Delivered? || result.landed) then [PublishLands(copy)] else []
  }

  /** The state in which the clock is read, and the one in which the mark runs. */
  function AtRead(s: State, copy: Copy, result: Publish, x: Around): State {
    Run(s, x.before + PublishEvents(s.cfg, copy, result) + x.during)
  }

  function AtMark(s: State, copy: Copy, result: Publish, x: Around): State {
    Run(AtRead(s, copy, result, x), x.waiting)
  }

  /** What the relay makes of a publish: which outcome, and which update. */
  function OutcomeOf(cfg: Config, copy: Copy, result: Publish): PublishOutcome {
    if !Routable(cfg, copy) then FailedIt
    else if result.Delivered? then PublishedIt
    else if copy.attempts + 1 >= cfg.maxAttempts then FailedIt
    else RetryIt
  }

  function MarkOf(cfg: Config, copy: Copy, result: Publish, stamp: Stamp): Event {
    match OutcomeOf(cfg, copy, result)
    case PublishedIt => MarkPublished(copy, stamp.now)
    case RetryIt => MarkRetry(copy, stamp.now + RetryDelaySeconds(copy.attempts + 1))
    case _ => MarkFailed(copy, stamp.letter, stamp.now)
  }

  /** The update that answer `o` stands for has taken place between `m` and `b`: it is skipped exactly if the
      row is no longer pending when the update runs, and touches only that row, its job and its letter. */
  ghost predicate Concluded(m: State, b: State, copy: Copy, stamp: Stamp, o: PublishOutcome) {
    && (o.SkippedIt? <==> !Open(m, copy))
    && (o.SkippedIt? ==> b == m)
    && (forall id :: id != copy.id ==> (id in b.rows <==> id in m.rows))
    && (forall id :: id != copy.id && id in b.rows ==> b.rows[id] == m.rows[id])
    && (!o.SkippedIt? ==> copy.id in b.rows && Marked(m.rows[copy.id], b.rows[copy.id], copy, stamp.now, o))
    && (o.PublishedIt? ==> (OutboxJobId(copy.id), copy.intent) in b.log.added)
    && (o.FailedIt? ==> stamp.letter in b.letters
                        && b.letters[stamp.letter] == Letter(copy.intent, OutboxJobId(copy.id), true, None))
    && (!o.FailedIt? ==> b.letters == m.letters)
  }

  /** How the row changes; `now` is the time that was read before the update. */
  predicate Marked(was: Row, r: Row, copy: Copy, now: int, o: PublishOutcome) {
    match o
    case PublishedIt => r == was.(status := Status.Published, payload := EMPTY, availableAt := now)
    case FailedIt => r == was.(status := Failed, attempts := copy.attempts + 1, availableAt := now)
    case RetryIt =>
      r == was.(attempts := was.attempts + 1, availableAt := now + RetryDelaySeconds(copy.attempts + 1))
    case SkippedIt => r == was
  }

  /** Which outcome a publish has while its row is pending: an unknown queue is given up at once, a refused
      publish only with the last attempt. */
  predicate Decided(cfg: Config, copy: Copy, result: Publish, o: PublishOutcome) {
    && (o.PublishedIt? <==> copy.intent.queue in cfg.routable && result.Delivered?)
    && (o.RetryIt? <==> copy.intent.queue in cfg.routable && result.Refused? && copy.attempts + 1 < cfg.maxAttempts)
    && (o.FailedIt? <==> copy.intent.queue !in cfg.routable
                         || (result.Refused? && copy.attempts + 1 >= cfg.maxAttempts))
  }

  /** The answer: the row is skipped exactly if it is no longer pending when the mark runs. */
  predicate Answers(m: State, copy: Copy, result: Publish, o: PublishOutcome) {
    && (o.SkippedIt? <==> copy.id !in m.rows || !m.rows[copy.id].status.Pending?)
    && (!o.SkippedIt? ==> Decided(m.cfg, copy, result, o))
  }

  lemma OutcomeDecided(cfg: Config, copy: Copy, result: Publish, o: PublishOutcome)
    ensures !o.SkippedIt? ==> (o == OutcomeOf(cfg, copy, result) <==> Decided(cfg, copy, result, o))
    ensures !OutcomeOf(cfg, copy, result).SkippedIt?
  {
  }

  lemma MarkConcludes(m: State, copy: Copy, result: Publish, stamp: Stamp, o: PublishOutcome)
    requires copy in m.log.copies && Fits(m, stamp) && Answers(m, copy, result, o)
    requires Routable(m.cfg, copy) && result.Delivered? ==> (OutboxJobId(copy.id), copy.intent) in m.log.added
    ensures Concluded(m, Next(m, MarkOf(m.cfg, copy, result, stamp)), copy, stamp, o)
  {
    OutcomeDecided(m.cfg, copy, result, o);
  }

  // ---------------------------------------------------------------- one relay process

  /** What one relay process has at hand: the rows of its current batch not yet concluded; and, as history,
      the failed publishes and the completed processRow calls of each row. */
  datatype Work = Work(batch: map<nat, Copy>, failures: map<nat, nat>, calls: map<nat, nat>)

  datatype Relay = Relay(s: State, w: Work)

  /** With one relay process at a time only it claims and marks. `Drop` is the end of a pass, or a crash. */
  datatype Step =
    | Outside(e: Event)
    | Claim(limit: nat, skipped: set<nat>, chosen: set<nat>)
    | Conclude(id: nat, result: Publish, stamp: Stamp)
    | Drop

  predicate IsOutside(e: Event) {
    !e.ClaimBatch? && !e.MarkPublished? && !e.MarkRetry? && !e.MarkFailed?
  }

  function Count(m: map<nat, nat>, id: nat): nat {
    if id in m then m[id] else 0
  }

  function RelayInit(cfg: Config): Relay {
    Relay(Init(cfg), Work(map[], map[], map[]))
  }

  predicate CanConclude(r: Relay, id: nat, result: Publish, stamp: Stamp) {
    && id in r.w.batch && Fits(r.s, stamp)
    && (Routable(r.s.cfg, r.w.batch[id]) && result.Delivered? ==>
          (OutboxJobId(id), r.w.batch[id].intent) in r.s.log.added)
  }

  function ConcludeWork(cfg: Config, w: Work, id: nat, result: Publish): Work
    requires id in w.batch
  {
    Work(map i | i in w.batch && i != id :: w.batch[i],
         if Routable(cfg, w.batch[id]) && result.Refused? then w.failures[id := Count(w.failures, id) + 1] else w.failures,
         w.calls[id := Count(w.calls, id) + 1])
  }

  function EventOf(r: Relay, step: Step): seq<Event> {
    match step
    case Outside(e) => if IsOutside(e) then [e] else []
    case Claim(limit, skipped, chosen) => [ClaimBatch(limit, skipped, chosen)]
    case Conclude(id, result, stamp) =>
      if CanConclude(r, id, result, stamp) then [MarkOf(r.s.cfg, r.w.batch[id], result, stamp)] else []
    case Drop => []
  }

  function WorkAfter(r: Relay, step: Step): Work {
    match step
    case Outside(_) => r.w
    case Claim(limit, skipped, chosen) =>
      if IsBatch(r.s.rows, r.s.clock, limit, skipped, chosen)
      then r.w.(batch := map id | id in chosen && id in r.s.rows :: CopyOf(r.s.rows, id)) else r.w
    case Conclude(id, result, stamp) =>
      if CanConclude(r, id, result, stamp) then ConcludeWork(r.s.cfg, r.w, id, result) else r.w
    case Drop => r.w.(batch := map[])
  }

  function RelayNext(r: Relay, step: Step): Relay {
    Relay(Run(r.s, EventOf(r, step)), WorkAfter(r, step))
  }

  function RelayRun(r: Relay, steps: seq<Step>): Relay
    decreases |steps|
  {
    if steps == [] then r else RelayRun(RelayNext(r, steps[0]), steps[1..])
  }

  function EventsOf(r: Relay, steps: seq<Step>): seq<Event>
    decreases |steps|
  {
    if steps == [] then [] else EventOf(r, steps[0]) + EventsOf(RelayNext(r, steps[0]), steps[1..])
  }

  /** A run of one relay is a run of the outbox. */
  lemma {:induction false} RelayRunIsRun(r: Relay, steps: seq<Step>)
    ensures RelayRun(r, steps).s == Run(r.s, EventsOf(r, steps))
    decreases |steps|
  {
    if steps != [] {
      RunConcat(r.s, EventOf(r, steps[0]), EventsOf(RelayNext(r, steps[0]), steps[1..]));
      RelayRunIsRun(RelayNext(r, steps[0]), steps[1..]);
    }
  }

  // ---------------------------------------------------------------- what one relay keeps

  /** The copies at hand are those of the stored, pending rows. */
  ghost predicate Current(s: State, batch: map<nat, Copy>) {
    forall id :: id in batch ==>
      id in s.rows && s.rows[id].status.Pending? && batch[id] == CopyOf(s.rows, id) && batch[id] in s.log.copies
  }

  /** A pending row's attempts are its completed calls, and its failed publishes if it has a queue. */
  predicate RowTally(cfg: Config, r: Row, failures: nat, calls: nat) {
    r.status.Pending? ==>
      && r.attempts == calls < cfg.maxAttempts
      && (if r.queue in cfg.routable then failures == calls else calls == 0)
  }

  ghost predicate Tally(s: State, w: Work) {
    forall id :: id in s.rows ==> RowTally(s.cfg, s.rows[id], Count(w.failures, id), Count(w.calls, id))
  }

  ghost predicate Known(s: State, w: Work) {
    && (forall id :: id in w.failures ==> id in s.log.intents)
    && (forall id :: id in w.calls ==> id in s.log.intents && w.calls[id] <= s.cfg.maxAttempts)
  }

  ghost predicate RelayInv(r: Relay) {
    Inv(r.s) && r.s.cfg.maxAttempts > 0 && Current(r.s, r.w.batch) && Tally(r.s, r.w) && Known(r.s, r.w)
  }

  /** What outside events do to rows: pending ones stay as they are, finished ones stay or are removed, and new
      ones are new; what was logged stays logged. */
  ghost predicate Onward(s: State, t: State) {
    && t.cfg == s.cfg && t.log.copies == s.log.copies && s.log.added <= t.log.added
    && s.log.intents.Keys <= t.log.intents.Keys && s.log.letterOf.Keys <= t.log.letterOf.Keys
    && (forall id :: id in s.log.intents ==> t.log.intents[id] == s.log.intents[id])
    && (forall id :: id in s.rows && s.rows[id].status.Pending? ==> id in t.rows)
    && (forall id :: id in t.rows && id in s.log.intents ==> id in s.rows && t.rows[id] == s.rows[id])
    && (forall id :: id in t.rows && id !in s.log.intents ==> t.rows[id].attempts == 0)
  }

  lemma OutsideOnward(s: State, e: Event)
    requires Numbered(s) && IsOutside(e)
    ensures Onward(s, Next(s, e))
  {
    if e.Enqueue? || e.RedriveCommit? {
      AddOnward(s, e);
    } else if e.Prune? {
      PruneOnward(s, e.ids);
    } else {
      QuietOnward(s, e);
    }
  }

  lemma AddOnward(s: State, e: Event)
    requires Numbered(s) && (e.Enqueue? || e.RedriveCommit?)
    ensures Onward(s, Next(s, e))
  {
  }

  lemma PruneOnward(s: State, ids: set<nat>)
    requires Numbered(s)
    ensures Onward(s, Next(s, Prune(ids)))
  {
  }

  lemma QuietOnward(s: State, e: Event)
    requires Numbered(s) && IsOutside(e) && !e.Enqueue? && !e.RedriveCommit? && !e.Prune?
    ensures Onward(s, Next(s, e))
  {
    assert Next(s, e).rows == s.rows && Next(s, e).log.intents == s.log.intents;
  }

  lemma OutsideInv(r: Relay, e: Event)
    requires RelayInv(r) && IsOutside(e)
    ensures RelayInv(r.(s := Next(r.s, e)))
  {
    InvNumbered(r.s);
    NextInv(r.s, e);
    OutsideOnward(r.s, e);
    KeptTally(r.s, Next(r.s, e), r.w);
  }

  lemma KeptTally(s: State, t: State, w: Work)
    requires Numbered(s) && Onward(s, t) && s.cfg.maxAttempts > 0
    requires Current(s, w.batch) && Tally(s, w) && Known(s, w)
    ensures Current(t, w.batch) && Tally(t, w) && Known(t, w)
  {
  }

  lemma ClaimKeeps(r: Relay, limit: nat, skipped: set<nat>, chosen: set<nat>)
    requires RelayInv(r)
    ensures RelayInv(RelayNext(r, Claim(limit, skipped, chosen)))
  {
    var e := ClaimBatch(limit, skipped, chosen);
    RunOne(r.s, e);
    NextInv(r.s, e);
    ClaimTally(r.s, r.w, limit, skipped, chosen);
    if IsBatch(r.s.rows, r.s.clock, limit, skipped, chosen) {
      ClaimedCurrent(r.s, limit, skipped, chosen);
    }
  }

  lemma ClaimTally(s: State, w: Work, limit: nat, skipped: set<nat>, chosen: set<nat>)
    requires Tally(s, w) && Known(s, w)
    ensures var t := Next(s, ClaimBatch(limit, skipped, chosen)); Tally(t, w) && Known(t, w) && t.cfg == s.cfg
  {
    var t := Next(s, ClaimBatch(limit, skipped, chosen));
    forall id | id in t.rows ensures RowTally(t.cfg, t.rows[id], Count(w.failures, id), Count(w.calls, id)) {
      assert RowTally(s.cfg, s.rows[id], Count(w.failures, id), Count(w.calls, id));
    }
  }

  lemma ClaimedCurrent(s: State, limit: nat, skipped: set<nat>, chosen: set<nat>)
    requires IsBatch(s.rows, s.clock, limit, skipped, chosen)
    ensures var t := Next(s, ClaimBatch(limit, skipped, chosen));
            Current(t, map id | id in chosen && id in s.rows :: CopyOf(s.rows, id))
  {
    var t := Next(s, ClaimBatch(limit, skipped, chosen));
    forall id | id in chosen && id in s.rows
      ensures id in t.rows && t.rows[id].status.Pending? && CopyOf(s.rows, id) == CopyOf(t.rows, id)
              && CopyOf(s.rows, id) in t.log.copies
    {
      assert id in DueRows(s.rows, s.clock);
      assert CopyOf(s.rows, id) in CopiesOf(s.rows, chosen);
    }
  }

  /** In a relay's own run no row is taken from under it, so no update is skipped. */
  lemma ConcludeStep(s: State, w: Work, id: nat, result: Publish, stamp: Stamp)
    requires id in w.batch && Current(s, w.batch) && CanConclude(Relay(s, w), id, result, stamp)
    ensures var t := Next(s, MarkOf(s.cfg, w.batch[id], result, stamp));
            && Concluded(s, t, w.batch[id], stamp, OutcomeOf(s.cfg, w.batch[id], result))
            && t.cfg == s.cfg && t.log.copies == s.log.copies && t.log.intents == s.log.intents
  {
    assert w.batch[id] == CopyOf(s.rows, id) && w.batch[id] in s.log.copies;
    MarkConcludes(s, w.batch[id], result, stamp, OutcomeOf(s.cfg, w.batch[id], result));
  }

  lemma ConcludeInv(r: Relay, id: nat, result: Publish, stamp: Stamp)
    requires RelayInv(r) && CanConclude(r, id, result, stamp)
    ensures RelayInv(Relay(Next(r.s, MarkOf(r.s.cfg, r.w.batch[id], result, stamp)),
                           ConcludeWork(r.s.cfg, r.w, id, result)))
  {
    var t := Next(r.s, MarkOf(r.s.cfg, r.w.batch[id], result, stamp));
    NextInv(r.s, MarkOf(r.s.cfg, r.w.batch[id], result, stamp));
    InvNumbered(r.s);
    ConcludeStep(r.s, r.w, id, result, stamp);
    ConcludedCurrent(r.s, t, r.w, id, result, stamp);
    ConcludedTally(r.s, t, r.w, id, result, stamp);
  }

  lemma ConcludedCurrent(s: State, t: State, w: Work, id: nat, result: Publish, stamp: Stamp)
    requires id in w.batch && Current(s, w.batch) && t.log.copies == s.log.copies
    requires Concluded(s, t, w.batch[id], stamp, OutcomeOf(s.cfg, w.batch[id], result))
    ensures Current(t, ConcludeWork(s.cfg, w, id, result).batch)
  {
  }

  lemma ConcludedTally(s: State, t: State, w: Work, id: nat, result: Publish, stamp: Stamp)
    requires id in w.batch && Current(s, w.batch) && Tally(s, w) && Known(s, w) && id in s.log.intents
    requires Concluded(s, t, w.batch[id], stamp, OutcomeOf(s.cfg, w.batch[id], result))
    requires t.cfg == s.cfg && t.log.intents == s.log.intents
    ensures var v := ConcludeWork(s.cfg, w, id, result); Tally(t, v) && Known(t, v)
  {
    var v := ConcludeWork(s.cfg, w, id, result);
    ConcludedRow(s.cfg, s.rows[id], t.rows[id], stamp.now, w, id, result);
    forall i | i in t.rows ensures RowTally(t.cfg, t.rows[i], Count(v.failures, i), Count(v.calls, i)) {
      if i != id {
        assert RowTally(s.cfg, s.rows[i], Count(w.failures, i), Count(w.calls, i));
      }
    }
  }

  /** The concluded row itself. */
  lemma ConcludedRow(cfg: Config, was: Row, r: Row, clock: int, w: Work, id: nat, result: Publish)
    requires id in w.batch && was.status.Pending? && w.batch[id] == Copy(id, IntentOf(was), was.attempts)
    requires Marked(was, r, w.batch[id], clock, OutcomeOf(cfg, w.batch[id], result))
    requires RowTally(cfg, was, Count(w.failures, id), Count(w.calls, id))
    ensures var v := ConcludeWork(cfg, w, id, result);
            RowTally(cfg, r, Count(v.failures, id), Count(v.calls, id)) && Count(v.calls, id) <= cfg.maxAttempts
  {
  }

  lemma ConcludeIs(r: Relay, id: nat, result: Publish, stamp: Stamp)
    requires CanConclude(r, id, result, stamp)
    ensures RelayNext(r, Conclude(id, result, stamp))
         == Relay(Next(r.s, MarkOf(r.s.cfg, r.w.batch[id], result, stamp)), ConcludeWork(r.s.cfg, r.w, id, result))
  {
    RunOne(r.s, MarkOf(r.s.cfg, r.w.batch[id], result, stamp));
  }

  lemma RelayNextInv(r: Relay, step: Step)
    requires RelayInv(r)
    ensures RelayInv(RelayNext(r, step))
  {
    match step
    case Outside(e) => if IsOutside(e) { RunOne(r.s, e); OutsideInv(r, e); }
    case Claim(limit, skipped, chosen) => ClaimKeeps(r, limit, skipped, chosen);
    case Conclude(id, result, stamp) => if CanConclude(r, id, result, stamp) {
        ConcludeInv(r, id, result, stamp);
        ConcludeIs(r, id, result, stamp);
      }
    case Drop =>
  }

  lemma {:induction false} RelayRunInv(r: Relay, steps: seq<Step>)
    requires RelayInv(r)
    ensures RelayInv(RelayRun(r, steps))
    decreases |steps|
  {
    if steps != [] {
      RelayNextInv(r, steps[0]);
      RelayRunInv(RelayNext(r, steps[0]), steps[1..]);
    }
  }

  /** In every run of one relay process, crashes included, a pending row that has a queue has as many attempts as
      failed publishes, and fewer than the maximum. */
  lemma AttemptsAreFailures(cfg: Config, steps: seq<Step>, id: nat)
    requires cfg.maxAttempts > 0
    ensures var r := RelayRun(RelayInit(cfg), steps);
            id in r.s.rows && r.s.rows[id].status.Pending? && r.s.rows[id].queue in cfg.routable ==>
              r.s.rows[id].attempts == Count(r.w.failures, id) < cfg.maxAttempts
  {
    RelayRunInv(RelayInit(cfg), steps);
    ConfigStays(RelayInit(cfg), steps);
    var r := RelayRun(RelayInit(cfg), steps);
    if id in r.s.rows { assert RowTally(r.s.cfg, r.s.rows[id], Count(r.w.failures, id), Count(r.w.calls, id)); }
  }

  /** No row gets more completed calls than the maximum, and after that many it is finished. */
  lemma FinishedWithinMaxAttempts(cfg: Config, steps: seq<Step>, id: nat)
    requires cfg.maxAttempts > 0
    ensures var r := RelayRun(RelayInit(cfg), steps);
            && Count(r.w.calls, id) <= cfg.maxAttempts
            && (Count(r.w.calls, id) == cfg.maxAttempts && id in r.s.rows ==> !r.s.rows[id].status.Pending?)
  {
    RelayRunInv(RelayInit(cfg), steps);
    ConfigStays(RelayInit(cfg), steps);
    var r := RelayRun(RelayInit(cfg), steps);
    if id in r.s.rows { assert RowTally(r.s.cfg, r.s.rows[id], Count(r.w.failures, id), Count(r.w.calls, id)); }
  }

  // ---------------------------------------------------------------- no row is given up early

  /** Rows with a queue have a dead letter only after the maximum of failed publishes. */
  ghost predicate GivenUpLate(s: State, w: Work) {
    forall id :: id in s.log.letterOf ==> id in s.log.intents && LateEnough(s, w, id)
  }

  predicate LateEnough(s: State, w: Work, id: nat)
    requires id in s.log.intents
  {
    s.log.intents[id].queue in s.cfg.routable ==> Count(w.failures, id) == s.cfg.maxAttempts
  }

  lemma OutsideLate(s: State, e: Event, w: Work)
    requires Numbered(s) && IsOutside(e) && GivenUpLate(s, w)
    ensures GivenUpLate(Next(s, e), w)
  {
    OutsideOnward(s, e);
    SameLetters(s, e);
    forall id | id in s.log.letterOf ensures id in Next(s, e).log.intents && LateEnough(Next(s, e), w, id) {
      assert LateEnough(s, w, id);
    }
  }

  lemma SameLetters(s: State, e: Event)
    requires !e.MarkFailed?
    ensures Next(s, e).log.letterOf == s.log.letterOf
  {
  }

  lemma ClaimLate(s: State, w: Work, limit: nat, skipped: set<nat>, chosen: set<nat>, batch: map<nat, Copy>)
    requires GivenUpLate(s, w)
    ensures GivenUpLate(Next(s, ClaimBatch(limit, skipped, chosen)), w.(batch := batch))
  {
    var t := Next(s, ClaimBatch(limit, skipped, chosen));
    forall id | id in s.log.letterOf ensures LateEnough(t, w.(batch := batch), id) {
      assert LateEnough(s, w, id);
    }
  }

  /** A pending row that is marked failed has just had its last attempt, or has no queue. */
  lemma ConcludeLate(s: State, w: Work, id: nat, result: Publish, stamp: Stamp)
    requires Current(s, w.batch) && Tally(s, w) && RowsOk(s.rows, s.log) && GivenUpLate(s, w)
    requires id in w.batch && CanConclude(Relay(s, w), id, result, stamp)
    ensures GivenUpLate(Next(s, MarkOf(s.cfg, w.batch[id], result, stamp)), ConcludeWork(s.cfg, w, id, result))
  {
    var t, v := Next(s, MarkOf(s.cfg, w.batch[id], result, stamp)), ConcludeWork(s.cfg, w, id, result);
    assert w.batch[id] == CopyOf(s.rows, id) && RowOk(s.log, id, s.rows[id]);
    assert RowTally(s.cfg, s.rows[id], Count(w.failures, id), Count(w.calls, id));
    MarkedLetters(s, w.batch[id], result, stamp);
    forall i | i in t.log.letterOf ensures i in t.log.intents && LateEnough(t, v, i) {
      if i != id { assert LateEnough(s, w, i); }
    }
  }

  lemma MarkedLetters(s: State, copy: Copy, result: Publish, stamp: Stamp)
    ensures var t := Next(s, MarkOf(s.cfg, copy, result, stamp));
            && t.log.intents == s.log.intents && t.cfg == s.cfg
            && (t.log.letterOf == s.log.letterOf
                || (OutcomeOf(s.cfg, copy, result).FailedIt? && t.log.letterOf == s.log.letterOf[copy.id := stamp.letter]))
  {
  }

  lemma LateNext(r: Relay, step: Step)
    requires RelayInv(r) && GivenUpLate(r.s, r.w)
    ensures GivenUpLate(RelayNext(r, step).s, RelayNext(r, step).w)
  {
    match step
    case Outside(e) => if IsOutside(e) { RunOne(r.s, e); InvNumbered(r.s); OutsideLate(r.s, e, r.w); }
    case Claim(limit, skipped, chosen) =>
      RunOne(r.s, ClaimBatch(limit, skipped, chosen));
      ClaimLate(r.s, r.w, limit, skipped, chosen, WorkAfter(r, step).batch);
    case Conclude(id, result, stamp) => if CanConclude(r, id, result, stamp) {
        ConcludeLate(r.s, r.w, id, result, stamp);
        ConcludeIs(r, id, result, stamp);
      }
    case Drop =>
  }

  lemma {:induction false} LateRun(r: Relay, steps: seq<Step>)
    requires RelayInv(r) && GivenUpLate(r.s, r.w)
    ensures GivenUpLate(RelayRun(r, steps).s, RelayRun(r, steps).w)
    decreases |steps|
  {
    if steps != [] {
      RelayNextInv(r, steps[0]);
      LateNext(r, steps[0]);
      LateRun(RelayNext(r, steps[0]), steps[1..]);
    }
  }

  /** In every run of one relay process a row with a queue has failed, or has a dead letter written by the relay,
      only after exactly the maximum of failed publishes: none is given up early. */
  lemma GivenUpOnlyAtMaximum(cfg: Config, steps: seq<Step>, id: nat)
    requires cfg.maxAttempts > 0
    ensures var r := RelayRun(RelayInit(cfg), steps);
            && (id in r.s.rows && r.s.rows[id].status.Failed? && r.s.rows[id].queue in cfg.routable ==>
                  Count(r.w.failures, id) == cfg.maxAttempts)
            && (forall l :: RelayLetterFor(r.s, l, id) && r.s.letters[l].intent.queue in cfg.routable ==>
                  Count(r.w.failures, id) == cfg.maxAttempts)
  {
    var r := RelayRun(RelayInit(cfg), steps);
    RelayRunInv(RelayInit(cfg), steps);
    LateRun(RelayInit(cfg), steps);
    ConfigStays(RelayInit(cfg), steps);
    LateHolds(r.s, r.w, id);
  }

  lemma LateHolds(s: State, w: Work, id: nat)
    requires Inv(s) && GivenUpLate(s, w)
    ensures id in s.rows && s.rows[id].status.Failed? && s.rows[id].queue in s.cfg.routable ==>
              Count(w.failures, id) == s.cfg.maxAttempts
    ensures forall l :: RelayLetterFor(s, l, id) && s.letters[l].intent.queue in s.cfg.routable ==>
              Count(w.failures, id) == s.cfg.maxAttempts
  {
    if id in s.rows && s.rows[id].status.Failed? {
      assert RowOk(s.log, id, s.rows[id]) && LateEnough(s, w, id);
    }
    forall l | RelayLetterFor(s, l, id)
      ensures s.letters[l].intent.queue in s.cfg.routable ==> Count(w.failures, id) == s.cfg.maxAttempts
    {
      assert LetterOk(s.log, l, s.letters[l]);
      OutboxJobIdInjective(s.log.rowOf[l], id);
      assert LateEnough(s, w, id);
    }
  }

  lemma {:induction false} ConfigStays(r: Relay, steps: seq<Step>)
    ensures RelayRun(r, steps).s.cfg == r.s.cfg
    decreases |steps|
  {
    if steps != [] {
      ClockGrows(r.s, EventOf(r, steps[0]));
      ConfigStays(RelayNext(r, steps[0]), steps[1..]);
    }
  }

  lemma {:induction false} RelayRunConcat(r: Relay, a: seq<Step>, b: seq<Step>)
    ensures RelayRun(r, a + b) == RelayRun(RelayRun(r, a), b)
    decreases |a|
  {
    if a == [] {
      assert a + b == b;
    } else {
      assert (a + b)[0] == a[0] && (a + b)[1..] == a[1..] + b;
      RelayRunConcat(RelayNext(r, a[0]), a[1..], b);
    }
  }

  // ---------------------------------------------------------------- one pass

  function Outsides(es: seq<Event>): seq<Step> {
    seq(|es|, i requires 0 <= i < |es| => Outside(es[i]))
  }

  ghost predicate AllOutside(es: seq<Event>) {
    forall e :: e in es ==> IsOutside(e)
  }

  lemma OnwardTrans(s: State, t: State, u: State)
    requires Numbered(s) && Onward(s, t) && Onward(t, u)
    ensures Onward(s, u)
  {
  }

  lemma {:induction false} OutsideRun(r: Relay, es: seq<Event>)
    requires RelayInv(r) && AllOutside(es)
    ensures RelayRun(r, Outsides(es)) == r.(s := Run(r.s, es)) && RelayInv(r.(s := Run(r.s, es)))
    ensures Onward(r.s, Run(r.s, es))
    decreases |es|
  {
    if es != [] {
      var m := r.(s := Next(r.s, es[0]));
      assert es[0] in es && Outsides(es)[0] == Outside(es[0]) && Outsides(es)[1..] == Outsides(es[1..]);
      RunOne(r.s, es[0]);
      InvNumbered(r.s);
      OutsideInv(r, es[0]);
      OutsideOnward(r.s, es[0]);
      OutsideRun(m, es[1..]);
      OnwardTrans(r.s, m.s, Run(m.s, es[1..]));
    }
  }

  /** The steps that one processRow call is. */
  function RowSteps(cfg: Config, copy: Copy, result: Publish, x: Around, stamp: Stamp): seq<Step> {
    Outsides(x.before + PublishEvents(cfg, copy, result) + x.during + x.waiting) + [Conclude(copy.id, result, stamp)]
  }

  ghost predicate OutsideOnly(x: Around) {
    AllOutside(x.before) && AllOutside(x.during) && AllOutside(x.waiting)
  }

  /** One processRow call of the relay, for a row of its batch. */
  lemma RowRuns(r: Relay, copy: Copy, result: Publish, x: Around, stamp: Stamp)
    requires RelayInv(r) && OutsideOnly(x) && copy.id in r.w.batch && r.w.batch[copy.id] == copy
    requires Fits(AtMark(r.s, copy, result, x), stamp)
    ensures var m := AtMark(r.s, copy, result, x);
            var t := Relay(Next(m, MarkOf(m.cfg, copy, result, stamp)), ConcludeWork(r.s.cfg, r.w, copy.id, result));
            && RelayRun(r, RowSteps(r.s.cfg, copy, result, x, stamp)) == t && RelayInv(t)
            && Onward(r.s, m) && Open(m, copy) && LogStays(m, t.s)
            && Concluded(m, t.s, copy, stamp, OutcomeOf(r.s.cfg, copy, result))
  {
    var es := x.before + PublishEvents(r.s.cfg, copy, result) + x.during + x.waiting;
    var m := AtMark(r.s, copy, result, x);
    OutsideRun(r, es);
    Lands(r.s, copy, result, x);
    RowConcludes(Relay(m, r.w), copy, result, stamp);
    RelayRunConcat(r, Outsides(es), [Conclude(copy.id, result, stamp)]);
  }

  /** A publish that the relay saw succeed has added its job. */
  lemma Lands(s: State, copy: Copy, result: Publish, x: Around)
    requires copy in s.log.copies
    ensures var m := AtMark(s, copy, result, x);
            && m == Run(s, x.before + PublishEvents(s.cfg, copy, result) + x.during + x.waiting)
            && m.cfg == s.cfg && copy in m.log.copies
            && (Routable(s.cfg, copy) && result.Delivered? ==> (OutboxJobId(copy.id), copy.intent) in m.log.added)
  {
    var es := PublishEvents(s.cfg, copy, result);
    var a := Run(s, x.before);
    RunConcat(s, x.before, es);
    RunConcat(s, x.before + es, x.during);
    RunConcat(s, x.before + es + x.during, x.waiting);
    LogGrows(s, x.before);
    LogGrows(a, es);
    LogGrows(Run(a, es), x.during);
    LogGrows(AtRead(s, copy, result, x), x.waiting);
    RunOne(a, PublishLands(copy));
  }

  lemma LogGrowsNext(s: State, e: Event)
    ensures s.log.added <= Next(s, e).log.added && s.log.copies <= Next(s, e).log.copies && Next(s, e).cfg == s.cfg
  {
  }

  lemma {:induction false} LogGrows(s: State, es: seq<Event>)
    ensures s.log.added <= Run(s, es).log.added && s.log.copies <= Run(s, es).log.copies && Run(s, es).cfg == s.cfg
    decreases |es|
  {
    if es != [] {
      LogGrowsNext(s, es[0]);
      LogGrows(Next(s, es[0]), es[1..]);
    }
  }

  /** The mark. */
  lemma RowConcludes(n: Relay, copy: Copy, result: Publish, stamp: Stamp)
    requires RelayInv(n) && copy.id in n.w.batch && n.w.batch[copy.id] == copy && Fits(n.s, stamp)
    requires Routable(n.s.cfg, copy) && result.Delivered? ==> (OutboxJobId(copy.id), copy.intent) in n.s.log.added
    ensures var t := Relay(Next(n.s, MarkOf(n.s.cfg, copy, result, stamp)), ConcludeWork(n.s.cfg, n.w, copy.id, result));
            && RelayRun(n, [Conclude(copy.id, result, stamp)]) == t && RelayInv(t)
            && Open(n.s, copy) && LogStays(n.s, t.s)
            && Concluded(n.s, t.s, copy, stamp, OutcomeOf(n.s.cfg, copy, result))
  {
    ConcludeInv(n, copy.id, result, stamp);
    ConcludeIs(n, copy.id, result, stamp);
    ConcludeStep(n.s, n.w, copy.id, result, stamp);
    MarkKeepsLog(n.s, copy, result, stamp);
    RelayOne(n, Conclude(copy.id, result, stamp));
  }

  lemma RelayOne(r: Relay, step: Step)
    ensures RelayRun(r, [step]) == RelayNext(r, step)
  {
    assert RelayRun(r, [step]) == RelayRun(RelayNext(r, step), []);
  }

  /** What a mark leaves in the log. */
  predicate LogStays(m: State, t: State) {
    && t.cfg == m.cfg && t.log.added == m.log.added && t.log.intents == m.log.intents
    && m.log.letterOf.Keys <= t.log.letterOf.Keys
  }

  lemma MarkKeepsLog(m: State, copy: Copy, result: Publish, stamp: Stamp)
    ensures LogStays(m, Next(m, MarkOf(m.cfg, copy, result, stamp)))
  {
  }

  // ---------------------------------------------------------------- what a pass leaves

  ghost predicate Distinct(batch: seq<nat>) {
    forall i, j :: 0 <= i < j < |batch| ==> batch[i] != batch[j]
  }

  function Elements(batch: seq<nat>): set<nat> {
    set id | id in batch
  }

  function PublishedCount(outcomes: seq<PublishOutcome>): nat {
    if outcomes == [] then 0
    else PublishedCount(outcomes[..|outcomes| - 1]) + if outcomes[|outcomes| - 1].PublishedIt? then 1 else 0
  }

  /** What outcome `o` of the claimed row `copy` means, also later on: retention may have removed a finished row. */
  predicate RowEnd(s: State, copy: Copy, o: PublishOutcome) {
    copy.id in s.log.intents &&
    match o
    case PublishedIt =>
      && (OutboxJobId(copy.id), copy.intent) in s.log.added
      && (copy.id in s.rows ==> s.rows[copy.id].status.Published?)
    case FailedIt =>
      && copy.id in s.log.letterOf
      && (copy.id in s.rows ==> s.rows[copy.id].status.Failed? && s.rows[copy.id].attempts == copy.attempts + 1)
    case RetryIt => copy.id in s.rows && s.rows[copy.id].status.Pending?
                    && CopyOf(s.rows, copy.id) == copy.(attempts := copy.attempts + 1)
    case SkippedIt => false
  }

  predicate RowLeft(s: State, copy: Copy) {
    copy.id in s.rows && s.rows[copy.id].status.Pending? && CopyOf(s.rows, copy.id) == copy
  }

  /** The first rows of the batch have these outcomes, none of them a retry, and the others are at hand. */
  ghost predicate PassAt(s: State, w: Work, copies: seq<Copy>, results: seq<Publish>, outcomes: seq<PublishOutcome>) {
    && |outcomes| <= |copies| == |results|
    && (forall k :: 0 <= k < |outcomes| ==> Processed(s, copies[k], results[k], outcomes[k]) && !outcomes[k].RetryIt?)
    && (forall k :: |outcomes| <= k < |copies| ==> AtHand(w, copies[k]))
  }

  predicate AtHand(w: Work, copy: Copy) {
    copy.id in w.batch && w.batch[copy.id] == copy
  }

  predicate Processed(s: State, copy: Copy, result: Publish, o: PublishOutcome) {
    Decided(s.cfg, copy, result, o) && RowEnd(s, copy, o)
  }

  /** The pass is over: every processed row ended as its publish says; a retry ended it, and left the remaining
      rows pending with payload and attempts as they were. */
  ghost predicate PassOver(s: State, copies: seq<Copy>, results: seq<Publish>, outcomes: seq<PublishOutcome>) {
    && |outcomes| <= |copies| == |results|
    && (forall k :: 0 <= k < |outcomes| ==> Processed(s, copies[k], results[k], outcomes[k]))
    && (forall k :: 0 <= k < |outcomes| - 1 ==> !outcomes[k].RetryIt?)
    && (|outcomes| < |copies| ==> outcomes != [] && outcomes[|outcomes| - 1].RetryIt?)
    && (forall k :: |outcomes| <= k < |copies| ==> RowLeft(s, copies[k]))
  }

  function Copies(rows: map<nat, Row>, batch: seq<nat>): seq<Copy>
    requires forall k :: 0 <= k < |batch| ==> batch[k] in rows
  {
    seq(|batch|, k requires 0 <= k < |batch| => CopyOf(rows, batch[k]))
  }

  /** Neither the others nor the mark of another row change what an outcome means. */
  lemma EndStays(s: State, m: State, t: State, copy: Copy, o: PublishOutcome, done: Copy, stamp: Stamp, p: PublishOutcome)
    requires RowEnd(s, copy, o) && Onward(s, m) && LogStays(m, t) && Concluded(m, t, done, stamp, p)
    requires done.id != copy.id
    ensures RowEnd(t, copy, o)
  {
  }

  lemma EndOfRow(m: State, t: State, done: Copy, stamp: Stamp, p: PublishOutcome)
    requires RowsOk(t.rows, t.log) && Open(m, done) && CopyOf(m.rows, done.id) == done && Concluded(m, t, done, stamp, p)
    requires LogStays(m, t)
    ensures RowEnd(t, done, p)
  {
    assert RowOk(t.log, done.id, t.rows[done.id]);
  }

  ghost predicate DistinctIds(copies: seq<Copy>) {
    forall i, j :: 0 <= i < j < |copies| ==> copies[i].id != copies[j].id
  }

  ghost predicate Outsiders(around: seq<Around>) {
    forall k :: 0 <= k < |around| ==> OutsideOnly(around[k])
  }

  predicate InRows(rows: map<nat, Row>, batch: seq<nat>) {
    forall k :: 0 <= k < |batch| ==> batch[k] in rows
  }

  lemma BatchInRows(s: State, limit: nat, skipped: set<nat>, batch: seq<nat>)
    requires IsBatch(s.rows, s.clock, limit, skipped, Elements(batch))
    ensures InRows(s.rows, batch)
  {
    forall k | 0 <= k < |batch| ensures batch[k] in s.rows {
      assert batch[k] in Elements(batch);
    }
  }

  /** What the claim hands to the pass. */
  lemma PassStarts(a: Relay, limit: nat, skipped: set<nat>, batch: seq<nat>, results: seq<Publish>)
    requires RelayInv(a) && IsBatch(a.s.rows, a.s.clock, limit, skipped, Elements(batch)) && Distinct(batch)
    requires InRows(a.s.rows, batch) && |results| == |batch|
    ensures var claim := Claim(limit, skipped, Elements(batch));
            var t := RelayNext(a, claim);
            && t == Relay(Next(a.s, ClaimBatch(limit, skipped, Elements(batch))), WorkAfter(a, claim))
            && RelayInv(t) && PassAt(t.s, t.w, Copies(a.s.rows, batch), results, [])
            && DistinctIds(Copies(a.s.rows, batch))
  {
    RunOne(a.s, ClaimBatch(limit, skipped, Elements(batch)));
    ClaimKeeps(a, limit, skipped, Elements(batch));
    BatchAtHand(a, limit, skipped, batch, results, RelayNext(a, Claim(limit, skipped, Elements(batch))).s);
  }

  lemma BatchAtHand(a: Relay, limit: nat, skipped: set<nat>, batch: seq<nat>, results: seq<Publish>, s: State)
    requires IsBatch(a.s.rows, a.s.clock, limit, skipped, Elements(batch)) && InRows(a.s.rows, batch)
    requires Distinct(batch) && |results| == |batch|
    ensures DistinctIds(Copies(a.s.rows, batch))
    ensures PassAt(s, WorkAfter(a, Claim(limit, skipped, Elements(batch))), Copies(a.s.rows, batch), results, [])
  {
  }

  lemma PassClosed(a: Relay, claim: Step, steps: seq<Step>, r: Relay)
    requires r == RelayRun(RelayNext(a, claim), steps) && RelayInv(r)
    ensures RelayRun(a, [claim] + steps + [Drop]) == r.(w := r.w.(batch := map[]))
    ensures RelayInv(r.(w := r.w.(batch := map[])))
  {
    RelayOne(a, claim);
    RelayRunConcat(a, [claim], steps);
    RelayRunConcat(a, [claim] + steps, [Drop]);
    RelayOne(r, Drop);
  }

  lemma CountOne(outcomes: seq<PublishOutcome>, o: PublishOutcome)
    ensures PublishedCount(outcomes + [o]) == PublishedCount(outcomes) + if o.PublishedIt? then 1 else 0
  {
    assert (outcomes + [o])[..|outcomes|] == outcomes;
  }

  /** One more row of the batch was processed: from `r` over the mark in `m` to `t`. */
  lemma PassAdvances(r: Relay, m: State, t: Relay, copies: seq<Copy>, results: seq<Publish>,
                     outcomes: seq<PublishOutcome>, stamp: Stamp, o: PublishOutcome)
    requires PassAt(r.s, r.w, copies, results, outcomes) && |outcomes| < |copies| && DistinctIds(copies)
    requires Onward(r.s, m) && LogStays(m, t.s) && Current(t.s, t.w.batch) && copies[|outcomes|].id in r.w.batch
    requires var copy, result := copies[|outcomes|], results[|outcomes|];
             && Concluded(m, t.s, copy, stamp, o) && Decided(t.s.cfg, copy, result, o) && RowEnd(t.s, copy, o)
             && t.w == ConcludeWork(r.s.cfg, r.w, copy.id, result)
    ensures if o.RetryIt? then PassOver(t.s, copies, results, outcomes + [o])
            else PassAt(t.s, t.w, copies, results, outcomes + [o])
  {
    var k := |outcomes|;
    AllEnded(r, m, t.s, copies, results, outcomes, stamp, o);
    forall j | k < j < |copies| ensures AtHand(t.w, copies[j]) && RowLeft(t.s, copies[j]) {
      RestStays(r, t, copies, results, outcomes, j);
    }
  }

  lemma AllEnded(r: Relay, m: State, t: State, copies: seq<Copy>, results: seq<Publish>,
                 outcomes: seq<PublishOutcome>, stamp: Stamp, o: PublishOutcome)
    requires PassAt(r.s, r.w, copies, results, outcomes) && |outcomes| < |copies| && DistinctIds(copies)
    requires Onward(r.s, m) && LogStays(m, t) && Concluded(m, t, copies[|outcomes|], stamp, o)
    requires Processed(t, copies[|outcomes|], results[|outcomes|], o)
    ensures forall j :: 0 <= j <= |outcomes| ==> Processed(t, copies[j], results[j], (outcomes + [o])[j])
  {
    forall j | 0 <= j <= |outcomes| ensures Processed(t, copies[j], results[j], (outcomes + [o])[j]) {
      if j < |outcomes| {
        EndedStays(r, m, t, copies, results, outcomes, j, stamp, o);
      }
    }
  }

  lemma EndedStays(r: Relay, m: State, t: State, copies: seq<Copy>, results: seq<Publish>,
                   outcomes: seq<PublishOutcome>, j: nat, stamp: Stamp, o: PublishOutcome)
    requires PassAt(r.s, r.w, copies, results, outcomes) && j < |outcomes| < |copies| && DistinctIds(copies)
    requires Onward(r.s, m) && LogStays(m, t) && Concluded(m, t, copies[|outcomes|], stamp, o)
    ensures Processed(t, copies[j], results[j], outcomes[j])
  {
    assert Processed(r.s, copies[j], results[j], outcomes[j]);
    EndStays(r.s, m, t, copies[j], outcomes[j], copies[|outcomes|], stamp, o);
  }

  lemma RestStays(r: Relay, t: Relay, copies: seq<Copy>, results: seq<Publish>, outcomes: seq<PublishOutcome>, j: nat)
    requires PassAt(r.s, r.w, copies, results, outcomes) && |outcomes| < j < |copies| && DistinctIds(copies)
    requires copies[|outcomes|].id in r.w.batch && Current(t.s, t.w.batch)
    requires t.w == ConcludeWork(r.s.cfg, r.w, copies[|outcomes|].id, results[|outcomes|])
    ensures AtHand(t.w, copies[j]) && RowLeft(t.s, copies[j])
  {
    assert AtHand(r.w, copies[j]);
  }

  // ---------------------------------------------------------------- the class

  /** Which update ends the publish, and the outcome it stands for. */
  method Decide(cfg: Config, copy: Copy, result: Publish, stamp: Stamp) returns (e: Event, after: PublishOutcome)
    ensures after == OutcomeOf(cfg, copy, result) && e == MarkOf(cfg, copy, result, stamp)
  {
    e, after := MarkPublished(copy, stamp.now), PublishedIt;
    if copy.intent.queue !in cfg.routable {
      e, after := MarkFailed(copy, stamp.letter, stamp.now), FailedIt;
    } else if result.Refused? {
      var attempts := copy.attempts + 1;
      if attempts >= cfg.maxAttempts {
        e, after := MarkFailed(copy, stamp.letter, stamp.now), FailedIt;
      } else {
        e, after := MarkRetry(copy, stamp.now + RetryDelaySeconds(attempts)), RetryIt;
      }
    }
  }

  class OutboxStore {
    var s: State
    ghost var work: Work

    constructor (s: State)
      ensures this.s == s && work == Work(map[], map[], map[])
    {
      this.s := s;
      work := Work(map[], map[], map[]);
    }

    /** One statement of this session. */
    method Apply(e: Event)
      requires Inv(s)
      modifies this`s
      ensures s == Next(old(s), e) && Inv(s)
    {
      NextInv(s, e);
      s := Next(s, e);
    }

    /** `processRow`, with any number of other relays: `copy` may be stale, and the others act before the publish
        lands, before the clock is read and before the mark runs. `m` is the state in which the mark runs; `stamp`
        is the new letter id and the time it uses. */
    method ProcessRow(copy: Copy, result: Publish, x: Around)
      returns (o: PublishOutcome, ghost m: State, ghost stamp: Stamp, ghost trace: seq<Event>)
      requires Inv(s) && copy in s.log.copies
      modifies this`s
      ensures m == AtMark(old(s), copy, result, x) && Fits(m, stamp)
      ensures stamp.now == AtRead(old(s), copy, result, x).clock
      ensures s == Next(m, MarkOf(m.cfg, copy, result, stamp)) && s == Run(old(s), trace) && Inv(s)
      ensures Answers(m, copy, result, o) && Concluded(m, s, copy, stamp, o)
    {
      ghost var es := x.before + PublishEvents(s.cfg, copy, result) + x.during;
      Lands(s, copy, result, x);
      RunInv(s, es);
      s := AtRead(s, copy, result, x);
      var now := s.clock;
      RunInv(s, x.waiting);
      ClockGrows(s, x.waiting);
      s := Run(s, x.waiting);
      m := s;
      o, stamp := MarkRow(copy, result, now);
      RunSnoc(old(s), es + x.waiting, MarkOf(m.cfg, copy, result, stamp));
      trace := es + x.waiting + [MarkOf(m.cfg, copy, result, stamp)];
    }

    /** After the publish: mark the row published, retried or failed. */
    method MarkRow(copy: Copy, result: Publish, now: int) returns (o: PublishOutcome, ghost stamp: Stamp)
      requires Inv(s) && copy in s.log.copies && now <= s.clock
      requires Routable(s.cfg, copy) && result.Delivered? ==> (OutboxJobId(copy.id), copy.intent) in s.log.added
      modifies this`s
      ensures Fits(old(s), stamp) && stamp.now == now
      ensures s == Next(old(s), MarkOf(old(s).cfg, copy, result, stamp)) && Inv(s)
      ensures Answers(old(s), copy, result, o) && Concluded(old(s), s, copy, stamp, o)
    {
      var id := FreshNumber(s.log.everLetters);
      var e, after := Decide(s.cfg, copy, result, Stamp(id, now));
      o, stamp := if Open(s, copy) then after else SkippedIt, Stamp(id, now);
      MarkConcludes(s, copy, result, stamp, o);
      Apply(e);
    }

    /** One claim-and-publish pass of the one relay process: `batch` is what the claim returned, `results` how
        each publish ends, `around` what the others do around it. A retry ends the pass. */
    method RelayOnce(limit: nat, skipped: set<nat>, batch: seq<nat>, results: seq<Publish>,
                     around: seq<Around>)
      returns (published: nat, ghost outcomes: seq<PublishOutcome>, ghost steps: seq<Step>)
      requires RelayInv(Relay(s, work))
      requires Distinct(batch) && IsBatch(s.rows, s.clock, limit, skipped, Elements(batch))
      requires |results| == |around| == |batch| && Outsiders(around)
      modifies this
      ensures RelayInv(Relay(s, work)) && Relay(s, work) == RelayRun(Relay(old(s), old(work)), steps)
      ensures InRows(old(s).rows, batch) && PassOver(s, Copies(old(s).rows, batch), results, outcomes)
      ensures published == PublishedCount(outcomes)
    {
      ghost var a, claim := Relay(s, work), Claim(limit, skipped, Elements(batch));
      BatchInRows(s, limit, skipped, batch);
      var copies := Copies(s.rows, batch);
      PassStarts(a, limit, skipped, batch, results);
      Apply(ClaimBatch(limit, skipped, Elements(batch)));
      work := WorkAfter(a, claim);
      published, outcomes, steps := PublishBatch(copies, results, around);
      PassClosed(a, claim, steps, Relay(s, work));
      steps, work := [claim] + steps + [Drop], work.(batch := map[]);
    }

    /** The loop over the claimed rows. */
    method PublishBatch(copies: seq<Copy>, results: seq<Publish>, around: seq<Around>)
      returns (published: nat, ghost outcomes: seq<PublishOutcome>, ghost steps: seq<Step>)
      requires RelayInv(Relay(s, work)) && PassAt(s, work, copies, results, []) && DistinctIds(copies)
      requires |around| == |copies| && Outsiders(around)
      modifies this
      ensures RelayInv(Relay(s, work)) && Relay(s, work) == RelayRun(Relay(old(s), old(work)), steps)
      ensures PassOver(s, copies, results, outcomes) && published == PublishedCount(outcomes)
    {
      ghost var a := Relay(s, work);
      published, outcomes, steps := 0, [], [];
      for k := 0 to |copies|
        invariant |outcomes| == k && PassAt(s, work, copies, results, outcomes)
        invariant RelayInv(Relay(s, work)) && Relay(s, work) == RelayRun(a, steps)
        invariant published == PublishedCount(outcomes)
      {
        var o, more := ProcessNext(copies, results, around[k], k, outcomes);
        RelayRunConcat(a, steps, more);
        CountOne(outcomes, o);
        steps, outcomes := steps + more, outcomes + [o];
        published := published + if o.PublishedIt? then 1 else 0;
        if o.RetryIt? {
          return;
        }
      }
    }

    /** The body of the loop: the row with number `k`. */
    method ProcessNext(copies: seq<Copy>, results: seq<Publish>, x: Around, k: nat,
                       ghost outcomes: seq<PublishOutcome>)
      returns (o: PublishOutcome, ghost steps: seq<Step>)
      requires RelayInv(Relay(s, work)) && PassAt(s, work, copies, results, outcomes) && |outcomes| == k < |copies|
      requires OutsideOnly(x) && DistinctIds(copies)
      modifies this
      ensures RelayInv(Relay(s, work)) && Relay(s, work) == RelayRun(Relay(old(s), old(work)), steps)
      ensures if o.RetryIt? then PassOver(s, copies, results, outcomes + [o])
              else PassAt(s, work, copies, results, outcomes + [o])
    {
      ghost var r := Relay(s, work);
      assert AtHand(work, copies[k]);
      ghost var m, stamp, trace;
      o, m, stamp, trace := ProcessRow(copies[k], results[k], x);
      RowRuns(r, copies[k], results[k], x, stamp);
      steps := RowSteps(r.s.cfg, copies[k], results[k], x, stamp);
      work := ConcludeWork(r.s.cfg, work, copies[k].id, results[k]);
      EndOfRow(m, s, copies[k], stamp, o);
      PassAdvances(r, m, Relay(s, work), copies, results, outcomes, stamp, o);
    }
  }

  lemma RunCons(s: State, e: Event, es: seq<Event>)
    ensures Run(s, [e] + es) == Run(Next(s, e), es)
  {
    assert ([e] + es)[1..] == es;
  }

  lemma RunOne(s: State, e: Event)
    ensures Run(s, [e]) == Next(s, e)
  {
    assert Run(s, [e]) == Run(Next(s, e), []);
  }
}
