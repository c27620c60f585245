/**
 No intent is lost, no finished row changes, every job carries its intent, and every dead letter is
 re-driven at most once, in every run of producers, relays, workers, re-drives and retention.
 */
module OutboxInvariant {
  import opened Options
  import opened OutboxTables

  predicate JobAdded(log: Log, id: nat)
    requires id in log.intents
  {
    (OutboxJobId(id), log.intents[id]) in log.added
  }

  /** A stored row carries its intent until a job carries it, or a dead letter does. */
  predicate RowOk(log: Log, id: nat, r: Row) {
    && id in log.intents
    && r.queue == log.intents[id].queue && r.job == log.intents[id].job
    && match r.status
       case Pending => r.payload == log.intents[id].payload && id !in log.letterOf
       case Published => JobAdded(log, id) && id !in log.letterOf
       case Failed => r.payload == log.intents[id].payload && id in log.letterOf
  }

  ghost predicate RowsOk(rows: map<nat, Row>, log: Log) {
    forall id :: id in rows ==> RowOk(log, id, rows[id])
  }

  /** Only retention removes rows. */
  ghost predicate Kept(rows: map<nat, Row>, log: Log) {
    && (forall id :: id in log.intents ==> id in rows || id in log.pruned)
    && (forall id :: id in log.pruned ==> id !in rows && id in log.intents)
  }

  ghost predicate CopiesOk(log: Log) {
    forall c :: c in log.copies ==> c.id in log.intents && c.intent == log.intents[c.id]
  }

  ghost predicate JobsOk(log: Log) {
    forall a :: a in log.added ==> exists id :: id in log.intents && a == (OutboxJobId(id), log.intents[id])
  }

  predicate LetterOk(log: Log, l: nat, x: Letter) {
    && l in log.everLetters
    && (x.byRelay ==>
          && l in log.rowOf && log.rowOf[l] in log.intents
          && x.intent == log.intents[log.rowOf[l]] && x.jobId == OutboxJobId(log.rowOf[l]))
    && (x.redriven.Some? ==>
          && x.redriven.value in log.intents && log.intents[x.redriven.value] == x.intent
          && x.redriven.value in log.origin && log.origin[x.redriven.value] == l)
    && (l in log.rowOf ==> x.byRelay)
  }

  ghost predicate LettersOk(letters: map<nat, Letter>, log: Log) {
    forall l :: l in letters ==> LetterOk(log, l, letters[l])
  }

  /** Only retention removes letters. */
  ghost predicate LettersKept(letters: map<nat, Letter>, log: Log) {
    && (forall l :: l in log.everLetters ==> l in letters || l in log.prunedLetters)
    && (forall l :: l in log.prunedLetters ==> l in log.everLetters && l !in letters)
  }

  /** Failed rows and relay-written letters correspond one to one. */
  ghost predicate Paired(log: Log) {
    && (forall id :: id in log.letterOf ==>
          && id in log.intents && log.letterOf[id] in log.everLetters
          && log.letterOf[id] in log.rowOf && log.rowOf[log.letterOf[id]] == id)
    && (forall l :: l in log.rowOf ==>
          l in log.everLetters && log.rowOf[l] in log.letterOf && log.letterOf[log.rowOf[l]] == l)
  }

  /** Each re-driven row comes from one letter, and that letter, while it is kept, is stamped with it. */
  ghost predicate Stamped(letters: map<nat, Letter>, log: Log) {
    forall id :: id in log.origin ==>
      && id in log.intents && log.origin[id] in log.everLetters
      && (log.origin[id] in letters ==> letters[log.origin[id]].redriven == Some(id))
  }

  ghost predicate AtMostOnce(log: Log) {
    forall i, j :: i in log.origin && j in log.origin && log.origin[i] == log.origin[j] ==> i == j
  }

  predicate RedriveOk(letters: map<nat, Letter>, log: Log, r: Redrive) {
    && r.outboxId !in log.intents
    && r.letter in log.everLetters
    && (r.letter in letters ==> r.intent == letters[r.letter].intent)
    && (r.stamped ==> r.letter in letters && letters[r.letter].redriven.None?)
  }

  ghost predicate RedrivesOk(letters: map<nat, Letter>, log: Log, redrives: map<Pid, Redrive>) {
    forall p :: p in redrives ==> RedriveOk(letters, log, redrives[p])
  }

  predicate Apart(a: Redrive, b: Redrive) {
    a.outboxId != b.outboxId && !(a.stamped && b.stamped && a.letter == b.letter)
  }

  ghost predicate Exclusive(redrives: map<Pid, Redrive>) {
    forall p, q :: p in redrives && q in redrives && p != q ==> Apart(redrives[p], redrives[q])
  }

  ghost predicate Inv(s: State) {
    && RowsOk(s.rows, s.log) && Kept(s.rows, s.log) && CopiesOk(s.log) && JobsOk(s.log)
    && LettersOk(s.letters, s.log) && LettersKept(s.letters, s.log) && Paired(s.log)
    && Stamped(s.letters, s.log) && AtMostOnce(s.log)
    && RedrivesOk(s.letters, s.log, s.redrives) && Exclusive(s.redrives)
  }

  lemma AddRows(s: State, id: nat, x: Intent, at: int)
    requires RowsOk(s.rows, s.log) && Kept(s.rows, s.log) && Paired(s.log) && id !in s.log.intents
    ensures RowsOk(AddIntent(s, id, x, at).rows, AddIntent(s, id, x, at).log)
    ensures Kept(AddIntent(s, id, x, at).rows, AddIntent(s, id, x, at).log)
  {
  }

  lemma AddJobs(s: State, id: nat, x: Intent, at: int)
    requires CopiesOk(s.log) && JobsOk(s.log) && id !in s.log.intents
    ensures CopiesOk(AddIntent(s, id, x, at).log) && JobsOk(AddIntent(s, id, x, at).log)
  {
  }

  lemma AddLetters(s: State, id: nat, x: Intent, at: int)
    requires LettersOk(s.letters, s.log) && id !in s.log.intents
    ensures LettersOk(s.letters, AddIntent(s, id, x, at).log)
  {
  }

  lemma EnqueueInv(s: State, id: nat, x: Intent, at: int)
    requires Inv(s) && FreshId(s, id)
    ensures Inv(AddIntent(s, id, x, at))
  {
    AddRows(s, id, x, at);
    AddJobs(s, id, x, at);
    AddLetters(s, id, x, at);
  }

  lemma ClaimRows(s: State, limit: nat, skipped: set<nat>, chosen: set<nat>)
    requires RowsOk(s.rows, s.log) && Kept(s.rows, s.log) && CopiesOk(s.log)
    requires IsBatch(s.rows, s.clock, limit, skipped, chosen)
    ensures var t := Next(s, ClaimBatch(limit, skipped, chosen));
            RowsOk(t.rows, t.log) && Kept(t.rows, t.log) && CopiesOk(t.log)
  {
  }

  lemma ClaimLetters(s: State, limit: nat, skipped: set<nat>, chosen: set<nat>)
    requires LettersOk(s.letters, s.log)
    ensures LettersOk(s.letters, Next(s, ClaimBatch(limit, skipped, chosen)).log)
  {
    assert forall l :: l in s.letters ==> LetterOk(s.log, l, s.letters[l]);
  }

  lemma ClaimInv(s: State, limit: nat, skipped: set<nat>, chosen: set<nat>)
    requires Inv(s) && IsBatch(s.rows, s.clock, limit, skipped, chosen)
    ensures Inv(Next(s, ClaimBatch(limit, skipped, chosen)))
  {
    ClaimRows(s, limit, skipped, chosen);
    ClaimLetters(s, limit, skipped, chosen);
  }

  lemma PublishJobs(s: State, copy: Copy)
    requires CopiesOk(s.log) && JobsOk(s.log)
    ensures JobsOk(Next(s, PublishLands(copy)).log)
  {
    var t := Next(s, PublishLands(copy));
    forall a | a in t.log.added ensures exists i :: i in t.log.intents && a == (OutboxJobId(i), t.log.intents[i]) {
      if a !in s.log.added {
        assert copy.id in t.log.intents && a == (OutboxJobId(copy.id), t.log.intents[copy.id]);
      }
    }
  }

  lemma PublishRows(s: State, copy: Copy)
    requires RowsOk(s.rows, s.log)
    ensures RowsOk(s.rows, Next(s, PublishLands(copy)).log)
  {
    assert forall id :: id in s.rows ==> RowOk(s.log, id, s.rows[id]);
  }

  lemma PublishLetters(s: State, copy: Copy)
    requires LettersOk(s.letters, s.log)
    ensures LettersOk(s.letters, Next(s, PublishLands(copy)).log)
  {
    assert forall l :: l in s.letters ==> LetterOk(s.log, l, s.letters[l]);
  }

  lemma PublishInv(s: State, copy: Copy)
    requires Inv(s)
    ensures Inv(Next(s, PublishLands(copy)))
  {
    PublishJobs(s, copy);
    PublishRows(s, copy);
    PublishLetters(s, copy);
  }

  lemma MarkInv(s: State, e: Event)
    requires Inv(s) && (e.MarkPublished? || e.MarkRetry?)
    ensures Inv(Next(s, e))
  {
    if Open(s, e.copy) {
      assert RowOk(s.log, e.copy.id, s.rows[e.copy.id]);
    }
  }

  lemma FailRows(s: State, copy: Copy, l: nat, at: int)
    requires RowsOk(s.rows, s.log) && Kept(s.rows, s.log) && Open(s, copy)
    ensures var t := Fail(s, copy, l, at); RowsOk(t.rows, t.log) && Kept(t.rows, t.log)
  {
  }

  lemma FailLetters(s: State, copy: Copy, l: nat, at: int)
    requires LettersOk(s.letters, s.log) && CopiesOk(s.log) && Open(s, copy) && l !in s.log.everLetters
    ensures LettersOk(Fail(s, copy, l, at).letters, Fail(s, copy, l, at).log)
  {
  }

  lemma FailPaired(s: State, copy: Copy, l: nat, at: int)
    requires RowsOk(s.rows, s.log) && Paired(s.log) && Stamped(s.letters, s.log)
    requires Open(s, copy) && l !in s.log.everLetters
    ensures Paired(Fail(s, copy, l, at).log) && Stamped(Fail(s, copy, l, at).letters, Fail(s, copy, l, at).log)
  {
    assert RowOk(s.log, copy.id, s.rows[copy.id]);
  }

  lemma FailInv(s: State, copy: Copy, l: nat, at: int)
    requires Inv(s) && Open(s, copy) && l !in s.log.everLetters
    ensures Inv(Fail(s, copy, l, at))
  {
    FailRows(s, copy, l, at);
    FailLetters(s, copy, l, at);
    FailPaired(s, copy, l, at);
  }

  lemma PruneInv(s: State, ids: set<nat>)
    requires Inv(s)
    ensures Inv(Next(s, Prune(ids)))
  {
  }

  lemma PruneLettersKept(s: State, ids: set<nat>)
    requires LettersOk(s.letters, s.log) && LettersKept(s.letters, s.log) && Stamped(s.letters, s.log)
    ensures var t := Next(s, PruneLetters(ids));
            LettersOk(t.letters, t.log) && LettersKept(t.letters, t.log) && Stamped(t.letters, t.log)
  {
    assert forall l :: l in s.letters ==> LetterOk(s.log, l, s.letters[l]);
  }

  lemma PruneLettersRedrives(s: State, ids: set<nat>)
    requires RedrivesOk(s.letters, s.log, s.redrives)
    ensures var t := Next(s, PruneLetters(ids)); RedrivesOk(t.letters, t.log, s.redrives)
  {
  }

  lemma PruneLettersInv(s: State, ids: set<nat>)
    requires Inv(s)
    ensures Inv(Next(s, PruneLetters(ids)))
  {
    PruneLettersKept(s, ids);
    PruneLettersRedrives(s, ids);
    assert forall id :: id in s.rows ==> RowOk(s.log, id, s.rows[id]);
  }

  lemma WorkerLetters(s: State, l: nat, x: Intent, jobId: string)
    requires LettersOk(s.letters, s.log) && LettersKept(s.letters, s.log) && Paired(s.log) && Stamped(s.letters, s.log)
    ensures var t := Next(s, WorkerFails(l, x, jobId));
            LettersOk(t.letters, t.log) && LettersKept(t.letters, t.log) && Paired(t.log) && Stamped(t.letters, t.log)
  {
    assert forall k :: k in s.letters ==> LetterOk(s.log, k, s.letters[k]);
  }

  lemma WorkerRows(s: State, l: nat, x: Intent, jobId: string)
    requires RowsOk(s.rows, s.log)
    ensures RowsOk(s.rows, Next(s, WorkerFails(l, x, jobId)).log)
  {
    assert forall id :: id in s.rows ==> RowOk(s.log, id, s.rows[id]);
  }

  lemma WorkerInv(s: State, l: nat, x: Intent, jobId: string)
    requires Inv(s)
    ensures Inv(Next(s, WorkerFails(l, x, jobId)))
  {
    WorkerLetters(s, l, x, jobId);
    WorkerRows(s, l, x, jobId);
  }

  lemma RedriveInv(s: State, e: Event)
    requires Inv(s) && (e.RedriveInsert? || e.RedriveStamp? || e.RedriveRollback?)
    ensures Inv(Next(s, e))
  {
    if e.RedriveInsert? && e.letter in s.letters {
      assert LetterOk(s.log, e.letter, s.letters[e.letter]);
    }
  }

  lemma CommitLetters(s: State, pid: Pid)
    requires CanCommitRedrive(s, pid) && RedriveOk(s.letters, s.log, s.redrives[pid])
    requires LettersOk(s.letters, s.log) && Stamped(s.letters, s.log)
    ensures LettersOk(CommitRedrive(s, pid).letters, CommitRedrive(s, pid).log)
  {
  }

  lemma CommitStamped(s: State, pid: Pid)
    requires CanCommitRedrive(s, pid) && RedriveOk(s.letters, s.log, s.redrives[pid])
    requires Stamped(s.letters, s.log) && AtMostOnce(s.log)
    ensures Stamped(CommitRedrive(s, pid).letters, CommitRedrive(s, pid).log)
    ensures AtMostOnce(CommitRedrive(s, pid).log)
  {
  }

  lemma CommitRedrives(s: State, pid: Pid)
    requires CanCommitRedrive(s, pid)
    requires RedrivesOk(s.letters, s.log, s.redrives) && Exclusive(s.redrives)
    ensures var t := CommitRedrive(s, pid); RedrivesOk(t.letters, t.log, t.redrives) && Exclusive(t.redrives)
  {
  }

  lemma CommitRedriveInv(s: State, pid: Pid)
    requires Inv(s) && CanCommitRedrive(s, pid)
    ensures Inv(CommitRedrive(s, pid))
  {
    var r := s.redrives[pid];
    assert RedriveOk(s.letters, s.log, r);
    AddRows(s, r.outboxId, r.intent, r.at);
    AddJobs(s, r.outboxId, r.intent, r.at);
    CommitLetters(s, pid);
    CommitStamped(s, pid);
    CommitRedrives(s, pid);
    CommitRows(s, pid);
  }

  /** The re-drive's commit adds its outbox row and otherwise touches only the letter. */
  lemma CommitRows(s: State, pid: Pid)
    requires CanCommitRedrive(s, pid) && Paired(s.log)
    requires var t := AddIntent(s, s.redrives[pid].outboxId, s.redrives[pid].intent, s.redrives[pid].at);
             RowsOk(t.rows, t.log) && Kept(t.rows, t.log) && CopiesOk(t.log) && JobsOk(t.log)
    ensures var t := CommitRedrive(s, pid);
            RowsOk(t.rows, t.log) && Kept(t.rows, t.log) && CopiesOk(t.log) && JobsOk(t.log) && Paired(t.log)
  {
  }

  lemma NextInv(s: State, e: Event)
    requires Inv(s)
    ensures Inv(Next(s, e))
  {
    if Next(s, e) != s {
      match e
      case Tick(_) =>
      case Enqueue(id, x, at) => EnqueueInv(s, id, x, at);
      case ClaimBatch(limit, skipped, chosen) => ClaimInv(s, limit, skipped, chosen);
      case PublishLands(copy) => PublishInv(s, copy);
      case MarkPublished(_, _) => MarkInv(s, e);
      case MarkRetry(_, _) => MarkInv(s, e);
      case MarkFailed(copy, l, at) => FailInv(s, copy, l, at);
      case Prune(ids) => PruneInv(s, ids);
      case PruneLetters(ids) => PruneLettersInv(s, ids);
      case WorkerFails(l, x, jobId) => WorkerInv(s, l, x, jobId);
      case RedriveInsert(_, _, _) => RedriveInv(s, e);
      case RedriveStamp(_) => RedriveInv(s, e);
      case RedriveCommit(pid) => CommitRedriveInv(s, pid);
      case RedriveRollback(_) => RedriveInv(s, e);
    }
  }

  lemma {:induction false} RunInv(s: State, es: seq<Event>)
    requires Inv(s)
    ensures Inv(Run(s, es))
    decreases |es|
  {
    if es != [] {
      NextInv(s, es[0]);
      RunInv(Next(s, es[0]), es[1..]);
    }
  }
}
