/**
 The outbox and dead_letter_jobs tables, the jobs added to the queues, and the statements of
 producers, relays, re-drives and retention.

 `Next` is one statement; a disabled one changes nothing. A relay works on the copy of a row that its
 claim returned. The times it stores are those it read before its update runs. Copies are never taken
 back: a stalled relay may act on an old copy at any later time, and a relay that crashed simply never
 does. A publish may land long after it timed out.
 */
module OutboxTables {
  import opened Options
  import opened Decimals

  type Json = string
  type Pid = nat

  const EMPTY: Json := "{}"

  /** What a producer asked for: one job on one queue. */
  datatype Intent = Intent(queue: string, job: string, payload: Json)

  datatype Status = Pending | Published | Failed

  datatype Row = Row(queue: string, job: string, payload: Json, status: Status, attempts: nat, availableAt: int)

  /** ClaimedOutboxRow: the relay's copy of a claimed row. */
  datatype Copy = Copy(id: nat, intent: Intent, attempts: nat)

  datatype Letter = Letter(intent: Intent, jobId: string, byRelay: bool, redriven: Option<nat>)

  /** A re-drive transaction that has inserted its outbox row; once `stamped` it holds the letter's lock. */
  datatype Redrive = Redrive(letter: nat, outboxId: nat, intent: Intent, at: int, stamped: bool)

  datatype Config = Config(lease: nat, maxAttempts: nat, routable: set<string>)

  /** History: every committed intent, every copy handed out, every job added, the outbox rows removed
      by retention, the dead letter of each failed row and the reverse, the letter behind each
      re-driven row, the letters ever written and those removed by retention. */
  datatype Log = Log(
    intents: map<nat, Intent>,
    copies: set<Copy>,
    added: set<(string, Intent)>,
    pruned: set<nat>,
    letterOf: map<nat, nat>,
    rowOf: map<nat, nat>,
    origin: map<nat, nat>,
    everLetters: set<nat>,
    prunedLetters: set<nat>)

  datatype State = State(
    cfg: Config,
    clock: int,
    rows: map<nat, Row>,
    letters: map<nat, Letter>,
    redrives: map<Pid, Redrive>,
    log: Log)

  datatype Event =
    | Tick(elapsed: nat)
    | Enqueue(id: nat, intent: Intent, at: int)
    | ClaimBatch(limit: nat, skipped: set<nat>, chosen: set<nat>)
    | PublishLands(copy: Copy)
    | MarkPublished(copy: Copy, at: int)
    | MarkRetry(copy: Copy, availableAt: int)
    | MarkFailed(copy: Copy, letter: nat, at: int)
    | Prune(ids: set<nat>)
    | PruneLetters(ids: set<nat>)
    | WorkerFails(letter: nat, intent: Intent, jobId: string)
    | RedriveInsert(pid: Pid, letter: nat, outboxId: nat)
    | RedriveStamp(pid: Pid)
    | RedriveCommit(pid: Pid)
    | RedriveRollback(pid: Pid)

  function Init(cfg: Config): State {
    State(cfg, 0, map[], map[], map[], Log(map[], {}, {}, {}, map[], map[], map[], {}, {}))
  }

  /** `outboxJobId`: never purely numeric, and one intent maps to one job id. */
  function OutboxJobId(id: nat): string {
    "outbox-" + Decimal(id)
  }

  lemma OutboxJobIdInjective(i: nat, j: nat)
    requires OutboxJobId(i) == OutboxJobId(j)
    ensures i == j
  {
    assert OutboxJobId(i)[7..] == Decimal(i) && OutboxJobId(j)[7..] == Decimal(j);
    DecimalInjective(i, j);
  }

  predicate FreshId(s: State, id: nat) {
    && id !in s.log.intents
    && forall p :: p in s.redrives ==> s.redrives[p].outboxId != id
  }

  predicate Due(r: Row, clock: int) {
    r.status.Pending? && r.availableAt <= clock
  }

  function DueRows(rows: map<nat, Row>, clock: int): set<nat> {
    set id | id in rows && Due(rows[id], clock)
  }

  /** The rows one claim leases: all due rows that nobody else has locked (`skipped`) if they fit, else the
      `limit` of them that were available first. */
  predicate IsBatch(rows: map<nat, Row>, clock: int, limit: nat, skipped: set<nat>, chosen: set<nat>) {
    && chosen <= DueRows(rows, clock) - skipped
    && |chosen| <= limit
    && (chosen == DueRows(rows, clock) - skipped || |chosen| == limit)
    && forall x, y :: x in chosen && y in DueRows(rows, clock) - skipped && y !in chosen ==>
                        rows[x].availableAt <= rows[y].availableAt
  }

  function Lease(rows: map<nat, Row>, chosen: set<nat>, until: int): map<nat, Row> {
    map id | id in rows :: if id in chosen then rows[id].(availableAt := until) else rows[id]
  }

  function IntentOf(r: Row): Intent {
    Intent(r.queue, r.job, r.payload)
  }

  function CopiesOf(rows: map<nat, Row>, chosen: set<nat>): set<Copy> {
    set id | id in chosen && id in rows :: Copy(id, IntentOf(rows[id]), rows[id].attempts)
  }

  function RowFor(x: Intent, at: int): Row {
    Row(x.queue, x.job, x.payload, Pending, 0, at)
  }

  /** The finalizing updates are guarded by status = 'PENDING'. */
  predicate Open(s: State, copy: Copy) {
    copy in s.log.copies && copy.id in s.rows && s.rows[copy.id].status.Pending?
  }

  predicate StampedByOther(s: State, pid: Pid, letter: nat) {
    exists p :: p in s.redrives && p != pid && s.redrives[p].stamped && s.redrives[p].letter == letter
  }

  predicate LetterLocked(s: State, letter: nat) {
    exists p :: p in s.redrives && s.redrives[p].stamped && s.redrives[p].letter == letter
  }

  function Without(m: map<Pid, Redrive>, pid: Pid): map<Pid, Redrive> {
    map p | p in m && p != pid :: m[p]
  }

  /** A committed row is available from the time `at` its insert took, which may lie before the commit. */
  function AddIntent(s: State, id: nat, x: Intent, at: int): State {
    s.(rows := s.rows[id := RowFor(x, at)], log := s.log.(intents := s.log.intents[id := x]))
  }

  function Fail(s: State, copy: Copy, l: nat, at: int): State
    requires copy.id in s.rows
  {
    s.(rows := s.rows[copy.id := s.rows[copy.id].(status := Failed, attempts := copy.attempts + 1,
                                                  availableAt := at)],
       letters := s.letters[l := Letter(copy.intent, OutboxJobId(copy.id), true, None)],
       log := s.log.(letterOf := s.log.letterOf[copy.id := l], rowOf := s.log.rowOf[l := copy.id],
                     everLetters := s.log.everLetters + {l}))
  }

  predicate CanCommitRedrive(s: State, pid: Pid) {
    pid in s.redrives && s.redrives[pid].stamped && s.redrives[pid].letter in s.letters
  }

  function CommitRedrive(s: State, pid: Pid): State
    requires CanCommitRedrive(s, pid)
  {
    var r := s.redrives[pid];
    var t := AddIntent(s, r.outboxId, r.intent, r.at);
    t.(letters := s.letters[r.letter := s.letters[r.letter].(redriven := Some(r.outboxId))],
       redrives := Without(s.redrives, pid),
       log := t.log.(origin := s.log.origin[r.outboxId := r.letter]))
  }

  function Next(s: State, e: Event): State {
    match e
    case Tick(elapsed) => s.(clock := s.clock + elapsed)
    case Enqueue(id, x, at) => if FreshId(s, id) && at <= s.clock then AddIntent(s, id, x, at) else s
    case ClaimBatch(limit, skipped, chosen) =>
      if IsBatch(s.rows, s.clock, limit, skipped, chosen) then
        s.(rows := Lease(s.rows, chosen, s.clock + s.cfg.lease),
           log := s.log.(copies := s.log.copies + CopiesOf(s.rows, chosen)))
      else s
    case PublishLands(copy) =>
      if copy in s.log.copies && copy.intent.queue in s.cfg.routable
      then s.(log := s.log.(added := s.log.added + {(OutboxJobId(copy.id), copy.intent)})) else s
    case MarkPublished(copy, at) =>
      if Open(s, copy) && (OutboxJobId(copy.id), copy.intent) in s.log.added && at <= s.clock
      then s.(rows := s.rows[copy.id := s.rows[copy.id].(status := Published, payload := EMPTY, availableAt := at)]) else s
    case MarkRetry(copy, availableAt) =>
      if Open(s, copy)
      then s.(rows := s.rows[copy.id := s.rows[copy.id].(attempts := s.rows[copy.id].attempts + 1,
                                                         availableAt := availableAt)]) else s
    case MarkFailed(copy, l, at) =>
      if Open(s, copy) && l !in s.log.everLetters && at <= s.clock then Fail(s, copy, l, at) else s
    case Prune(ids) =>
      if forall id :: id in ids ==> id in s.rows && !s.rows[id].status.Pending? then
        s.(rows := map id | id in s.rows && id !in ids :: s.rows[id], log := s.log.(pruned := s.log.pruned + ids))
      else s
    case PruneLetters(ids) =>
      if forall l :: l in ids ==> !LetterLocked(s, l)
      then s.(letters := map l | l in s.letters && l !in ids :: s.letters[l],
              log := s.log.(prunedLetters := s.log.prunedLetters + (set l | l in ids && l in s.letters))) else s
    case WorkerFails(l, x, jobId) =>
      if l !in s.log.everLetters then
        s.(letters := s.letters[l := Letter(x, jobId, false, None)],
           log := s.log.(everLetters := s.log.everLetters + {l}))
      else s
    case RedriveInsert(pid, l, id) =>
      if pid !in s.redrives && l in s.letters && s.letters[l].redriven.None?
         && s.letters[l].intent.queue in s.cfg.routable && FreshId(s, id)
      then s.(redrives := s.redrives[pid := Redrive(l, id, s.letters[l].intent, s.clock, false)]) else s
    case RedriveStamp(pid) =>
      if pid !in s.redrives || s.redrives[pid].stamped || StampedByOther(s, pid, s.redrives[pid].letter) then s
      else if s.redrives[pid].letter in s.letters && s.letters[s.redrives[pid].letter].redriven.None?
      then s.(redrives := s.redrives[pid := s.redrives[pid].(stamped := true)])
      else s.(redrives := Without(s.redrives, pid))
    case RedriveCommit(pid) => if CanCommitRedrive(s, pid) then CommitRedrive(s, pid) else s
    case RedriveRollback(pid) => s.(redrives := Without(s.redrives, pid))
  }

  function Run(s: State, es: seq<Event>): State
    decreases |es|
  {
    if es == [] then s else Run(Next(s, es[0]), es[1..])
  }

  lemma {:induction false} RunConcat(s: State, es: seq<Event>, fs: seq<Event>)
    ensures Run(s, es + fs) == Run(Run(s, es), fs)
    decreases |es|
  {
    if es == [] {
      assert es + fs == fs;
    } else {
      assert (es + fs)[0] == es[0] && (es + fs)[1..] == es[1..] + fs;
      RunConcat(Next(s, es[0]), es[1..], fs);
    }
  }

  lemma RunSnoc(s: State, es: seq<Event>, e: Event)
    ensures Run(s, es + [e]) == Next(Run(s, es), e)
  {
    RunConcat(s, es, [e]);
    assert Run(Run(s, es), [e]) == Run(Next(Run(s, es), e), []);
  }
}
