/**
 The operator's re-drive of one dead letter, and the retention of finished outbox rows, each against
 whatever the other sessions do between its statements.
 */
module OutboxRedrive {
  import opened Options
  import opened OutboxTables
  import opened OutboxInvariant
  import opened OutboxTheorems
  import opened OutboxRelay

  // ---------------------------------------------------------------- replay guards

  const VERIFICATION := "sendVerificationEmail"
  const RESET_PASSWORD := "sendResetPasswordEmail"
  const OTP_CODE := "sendOtpEmail"

  /** What a guard finds in a payload: each field only if it is a string. */
  datatype Fields = Fields(token: Option<string>, email: Option<string>, code: Option<string>)

  datatype Link = Link(expiresAt: int, used: bool)
  datatype SentCode = SentCode(email: string, code: string, consumed: bool, verified: bool, expiresAt: int)

  /** The tables a guard looks at, as the transaction reads them. */
  datatype Secrets = Secrets(verifications: map<string, Link>, resets: map<string, Link>, codes: map<string, SentCode>)

  datatype Refusal = Gone | Used | AlreadyVerified | Expired

  /** What is left of the secret that a guarded mail carries. */
  datatype Secret = Secret(used: bool, verified: bool, expiresAt: int)

  predicate Guarded(job: string) {
    job == VERIFICATION || job == RESET_PASSWORD || job == OTP_CODE
  }

  function FindLink(token: Option<string>, links: map<string, Link>): Option<Link> {
    if token.Some? && |token.value| > 0 && token.value in links then Some(links[token.value]) else None
  }

  /** The stored secret that the payload carries: the link's token, or the address's present code. */
  function SecretOf(job: string, f: Fields, secrets: Secrets): Option<Secret> {
    if job == OTP_CODE then
      if f.email.Some? && f.email.value in secrets.codes && f.code.Some?
         && secrets.codes[f.email.value].email == f.email.value && secrets.codes[f.email.value].code == f.code.value
      then var x := secrets.codes[f.email.value]; Some(Secret(x.consumed, x.verified, x.expiresAt)) else None
    else
      match FindLink(f.token, if job == VERIFICATION then secrets.verifications else secrets.resets)
      case Some(x) => Some(Secret(job == RESET_PASSWORD && x.used, false, x.expiresAt))
      case None => None
  }

  /** The mail of this job would still be of use: its link is stored, unused and unexpired, or its code is the
      present one of the address, neither used nor verified nor expired. Other jobs may always run again. */
  predicate MayReplay(job: string, f: Fields, secrets: Secrets, now: int) {
    && (job == VERIFICATION ==>
          && f.token.Some? && |f.token.value| > 0 && f.token.value in secrets.verifications
          && now < secrets.verifications[f.token.value].expiresAt)
    && (job == RESET_PASSWORD ==>
          && f.token.Some? && |f.token.value| > 0 && f.token.value in secrets.resets
          && !secrets.resets[f.token.value].used && now < secrets.resets[f.token.value].expiresAt)
    && (job == OTP_CODE ==>
          && f.email.Some? && f.code.Some? && f.email.value in secrets.codes
          && var x := secrets.codes[f.email.value];
             x.email == f.email.value && x.code == f.code.value && !x.consumed && !x.verified && now < x.expiresAt)
  }

  predicate Because(x: Option<Secret>, now: int, reason: Refusal) {
    match reason
    case Gone => x.None?
    case Used => x.Some? && x.value.used
    case AlreadyVerified => x.Some? && !x.value.used && x.value.verified
    case Expired => x.Some? && !x.value.used && !x.value.verified && x.value.expiresAt <= now
  }

  /** `REPLAY_GUARDS`: the first reason against running the job again. Other jobs have no guard. */
  method RefuseReplay(job: string, f: Fields, secrets: Secrets, now: int) returns (r: Option<Refusal>)
    ensures r.None? <==> MayReplay(job, f, secrets, now)
    ensures r.Some? ==> Guarded(job) && Because(SecretOf(job, f, secrets), now, r.value)
  {
    if job == VERIFICATION {
      var record := FindLink(f.token, secrets.verifications);
      if record.None? { return Some(Gone); }
      if record.value.expiresAt <= now { return Some(Expired); }
    } else if job == RESET_PASSWORD {
      var record := FindLink(f.token, secrets.resets);
      if record.None? { return Some(Gone); }
      if record.value.used { return Some(Used); }
      if record.value.expiresAt <= now { return Some(Expired); }
    } else if job == OTP_CODE {
      if f.email.None? || f.email.value !in secrets.codes || f.code.None? { return Some(Gone); }
      var record := secrets.codes[f.email.value];
      if record.email != f.email.value || record.code != f.code.value { return Some(Gone); }
      if record.consumed { return Some(Used); }
      if record.verified { return Some(AlreadyVerified); }
      if record.expiresAt <= now { return Some(Expired); }
    }
    return None;
  }

  // ---------------------------------------------------------------- re-drive

  datatype Redriven =
    | Driven(deadLetterId: nat, outboxId: nat)
    | NotFound
    | AlreadyRedriven
    | UnknownQueue
    | ReplayRefused(reason: Refusal)
    | LostRace
    | StillLocked

  predicate ActsFor(e: Event, pid: Pid) {
    match e
    case RedriveInsert(p, _, _) => p == pid
    case RedriveStamp(p) => p == pid
    case RedriveCommit(p) => p == pid
    case RedriveRollback(p) => p == pid
    case _ => false
  }

  ghost predicate OthersOnly(es: seq<Event>, pid: Pid) {
    forall e :: e in es ==> !ActsFor(e, pid)
  }

  lemma RedriveKeptNext(s: State, e: Event, pid: Pid)
    requires pid in s.redrives && !ActsFor(e, pid)
    ensures pid in Next(s, e).redrives && Next(s, e).redrives[pid] == s.redrives[pid]
  {
  }

  /** The others cannot touch a transaction in flight. */
  lemma {:induction false} RedriveKept(s: State, es: seq<Event>, pid: Pid)
    requires Inv(s) && pid in s.redrives && OthersOnly(es, pid)
    ensures Inv(Run(s, es)) && pid in Run(s, es).redrives && Run(s, es).redrives[pid] == s.redrives[pid]
    decreases |es|
  {
    if es != [] {
      RedriveKeptNext(s, es[0], pid);
      NextInv(s, es[0]);
      RedriveKept(Next(s, es[0]), es[1..], pid);
    }
  }

  /** A refused or losing re-drive leaves nothing behind: no transaction, no outbox row, no stamp. */
  ghost predicate NothingLeft(s: State, pid: Pid, outboxId: nat) {
    && pid !in s.redrives && outboxId !in s.rows && outboxId !in s.log.intents && outboxId !in s.log.origin
    && forall l :: l in s.letters ==> s.letters[l].redriven != Some(outboxId)
  }

  lemma UnusedLeavesNothing(s: State, pid: Pid, outboxId: nat)
    requires Inv(s) && pid !in s.redrives && outboxId !in s.log.intents
    ensures NothingLeft(s, pid, outboxId)
  {
  }

  /** A completed re-drive: the letter is stamped with a new pending row that carries its job. */
  ghost predicate Completed(a: State, s: State, pid: Pid, l: nat, outboxId: nat) {
    && pid !in s.redrives
    && l in a.letters && l in s.letters && s.letters[l].redriven == Some(outboxId)
    && outboxId in s.rows && s.rows[outboxId] == RowFor(a.letters[l].intent, a.clock)
    && outboxId in s.log.origin && s.log.origin[outboxId] == l
  }

  /** What each answer of a re-drive that started in `a` and ended in `s` means. */
  ghost predicate RedriveAnswer(a: State, s: State, pid: Pid, l: nat, outboxId: nat, f: Fields, secrets: Secrets,
                                r: Redriven)
  {
    match r
    case Driven(letter, id) =>
      && letter == l && id == outboxId && Completed(a, s, pid, l, outboxId)
      && MayReplay(a.letters[l].intent.job, f, secrets, a.clock)
    case NotFound => s == a && l !in a.letters
    case AlreadyRedriven => s == a && l in a.letters && a.letters[l].redriven.Some?
    case UnknownQueue => s == a && l in a.letters && a.letters[l].intent.queue !in a.cfg.routable
    case ReplayRefused(reason) =>
      && s == a && l in a.letters && Guarded(a.letters[l].intent.job)
      && Because(SecretOf(a.letters[l].intent.job, f, secrets), a.clock, reason)
    case LostRace => NothingLeft(s, pid, outboxId) && (l !in s.letters || s.letters[l].redriven.Some?)
    case StillLocked => pid in s.redrives && !s.redrives[pid].stamped && StampedByOther(s, pid, l)
  }

  lemma InsertedRedrive(a: State, pid: Pid, l: nat, outboxId: nat)
    requires Inv(a) && pid !in a.redrives && l in a.letters && a.letters[l].redriven.None?
    requires a.letters[l].intent.queue in a.cfg.routable && FreshId(a, outboxId)
    ensures var b := Next(a, RedriveInsert(pid, l, outboxId));
            Inv(b) && pid in b.redrives && b.redrives[pid] == Redrive(l, outboxId, a.letters[l].intent, a.clock, false)
  {
  }

  lemma StampDecides(s: State, pid: Pid)
    requires Inv(s) && pid in s.redrives && !s.redrives[pid].stamped && !StampedByOther(s, pid, s.redrives[pid].letter)
    ensures var t, r := Next(s, RedriveStamp(pid)), s.redrives[pid];
            && Inv(t)
            && (pid in t.redrives ==> t.redrives[pid] == r.(stamped := true))
            && (pid !in t.redrives ==> NothingLeft(t, pid, r.outboxId)
                                       && (r.letter !in t.letters || t.letters[r.letter].redriven.Some?))
  {
    var t := Next(s, RedriveStamp(pid));
    NextInv(s, RedriveStamp(pid));
    assert RedriveOk(s.letters, s.log, s.redrives[pid]);
    if pid !in t.redrives {
      UnusedLeavesNothing(t, pid, s.redrives[pid].outboxId);
    }
  }

  lemma CommitCompletes(a: State, s: State, pid: Pid)
    requires Inv(s) && pid in s.redrives && s.redrives[pid].stamped
    requires s.redrives[pid].letter in a.letters && s.redrives[pid].intent == a.letters[s.redrives[pid].letter].intent
    requires s.redrives[pid].at == a.clock
    ensures var t := Next(s, RedriveCommit(pid));
            Inv(t) && Completed(a, t, pid, s.redrives[pid].letter, s.redrives[pid].outboxId)
  {
    NextInv(s, RedriveCommit(pid));
    assert RedriveOk(s.letters, s.log, s.redrives[pid]);
  }

  /** `redrive`. Reading the letter and inserting the outbox row is one step: the row stays invisible to
      the others until the commit. `fields` is what the guards read in the letter's payload; `first`, `second`
      are what the others do before the stamp and before the commit. */
  method RedriveLetter(db: OutboxStore, pid: Pid, l: nat, outboxId: nat, fields: Fields, secrets: Secrets,
                       first: seq<Event>, second: seq<Event>)
    returns (r: Redriven, ghost trace: seq<Event>)
    requires Inv(db.s) && pid !in db.s.redrives && FreshId(db.s, outboxId)
    requires OthersOnly(first, pid) && OthersOnly(second, pid)
    modifies db
    ensures Inv(db.s) && db.s == Run(old(db.s), trace)
    ensures RedriveAnswer(old(db.s), db.s, pid, l, outboxId, fields, secrets, r)
  {
    trace := [];
    if l !in db.s.letters { return NotFound, trace; }
    var row := db.s.letters[l];
    if row.redriven.Some? { return AlreadyRedriven, trace; }
    if row.intent.queue !in db.s.cfg.routable { return UnknownQueue, trace; }
    var refusal := RefuseReplay(row.intent.job, fields, secrets, db.s.clock);
    if refusal.Some? { return ReplayRefused(refusal.value), trace; }
    InsertedRedrive(db.s, pid, l, outboxId);
    db.Apply(RedriveInsert(pid, l, outboxId));
    ghost var tr;
    r, tr := StampAndCommit(db, old(db.s), pid, l, outboxId, fields, secrets, first, second);
    RunCons(old(db.s), RedriveInsert(pid, l, outboxId), tr);
    trace := [RedriveInsert(pid, l, outboxId)] + tr;
  }

  /** The conditional stamp and the commit. */
  method StampAndCommit(db: OutboxStore, ghost a: State, pid: Pid, l: nat, outboxId: nat, ghost fields: Fields,
                        ghost secrets: Secrets, first: seq<Event>, second: seq<Event>)
    returns (r: Redriven, ghost trace: seq<Event>)
    requires Inv(db.s) && pid in db.s.redrives && l in a.letters
    requires MayReplay(a.letters[l].intent.job, fields, secrets, a.clock)
    requires db.s.redrives[pid] == Redrive(l, outboxId, a.letters[l].intent, a.clock, false)
    requires OthersOnly(first, pid) && OthersOnly(second, pid)
    modifies db
    ensures Inv(db.s) && db.s == Run(old(db.s), trace)
    ensures RedriveAnswer(a, db.s, pid, l, outboxId, fields, secrets, r)
  {
    RedriveKept(db.s, first, pid);
    db.s := Run(db.s, first);
    if StampedByOther(db.s, pid, l) {
      return StillLocked, first;
    }
    StampDecides(db.s, pid);
    RunSnoc(old(db.s), first, RedriveStamp(pid));
    db.s := Next(db.s, RedriveStamp(pid));
    trace := first + [RedriveStamp(pid)];
    if pid !in db.s.redrives {
      return LostRace, trace;
    }
    RedriveKept(db.s, second, pid);
    CommitCompletes(a, Run(db.s, second), pid);
    RunConcat(old(db.s), trace, second);
    RunSnoc(old(db.s), trace + second, RedriveCommit(pid));
    db.s := Next(Run(db.s, second), RedriveCommit(pid));
    return Driven(l, outboxId), trace + second + [RedriveCommit(pid)];
  }

  // ---------------------------------------------------------------- what can be pruned

  /** The finished rows whose terminal time lies before `before`. */
  function Prunable(rows: map<nat, Row>, status: Status, before: int): set<nat> {
    set id | id in rows && rows[id].status == status && rows[id].availableAt < before
  }

  /** A mark lands so late that the terminal time it read lies before `before`. */
  predicate LateMark(s: State, e: Event, status: Status, before: int) {
    match e
    case MarkPublished(copy, at) =>
      && status.Published? && at < before && at <= s.clock && Open(s, copy)
      && (OutboxJobId(copy.id), copy.intent) in s.log.added
    case MarkFailed(copy, l, at) =>
      status.Failed? && at < before && at <= s.clock && Open(s, copy) && l !in s.log.everLetters
    case _ => false
  }

  ghost predicate Prompt(s: State, es: seq<Event>, status: Status, before: int)
    decreases |es|
  {
    es == [] || (!LateMark(s, es[0], status, before) && Prompt(Next(s, es[0]), es[1..], status, before))
  }

  /** Exactly a late mark makes a further row prunable. */
  lemma PrunableGrows(s: State, e: Event, status: Status, before: int)
    requires Numbered(s) && !status.Pending?
    ensures Prunable(Next(s, e).rows, status, before) <= Prunable(s.rows, status, before)
       <==> !LateMark(s, e, status, before)
  {
    if LateMark(s, e, status, before) {
      assert e.copy.id in Prunable(Next(s, e).rows, status, before);
    } else {
      NotLate(s, e, status, before);
    }
  }

  lemma NotLate(s: State, e: Event, status: Status, before: int)
    requires Numbered(s) && !status.Pending? && !LateMark(s, e, status, before)
    ensures Prunable(Next(s, e).rows, status, before) <= Prunable(s.rows, status, before)
  {
    if e.MarkPublished? || e.MarkFailed? || e.MarkRetry? {
      MarkNotLate(s, e, status, before);
    } else {
      NoMark(s, e, status, before);
    }
  }

  lemma MarkNotLate(s: State, e: Event, status: Status, before: int)
    requires (e.MarkPublished? || e.MarkFailed? || e.MarkRetry?) && !status.Pending? && !LateMark(s, e, status, before)
    ensures Prunable(Next(s, e).rows, status, before) <= Prunable(s.rows, status, before)
  {
  }

  lemma NoMark(s: State, e: Event, status: Status, before: int)
    requires Numbered(s) && !status.Pending? && !e.MarkPublished? && !e.MarkFailed? && !e.MarkRetry?
    ensures Prunable(Next(s, e).rows, status, before) <= Prunable(s.rows, status, before)
  {
  }

  /** No run without late marks makes a further row prunable. */
  lemma {:induction false} PrunableShrinks(s: State, es: seq<Event>, status: Status, before: int)
    requires Inv(s) && !status.Pending? && Prompt(s, es, status, before)
    ensures Prunable(Run(s, es).rows, status, before) <= Prunable(s.rows, status, before)
    decreases |es|
  {
    if es != [] {
      InvNumbered(s);
      PrunableGrows(s, es[0], status, before);
      NextInv(s, es[0]);
      PrunableShrinks(Next(s, es[0]), es[1..], status, before);
    }
  }

  lemma {:induction false} PromptConcat(s: State, es: seq<Event>, fs: seq<Event>, status: Status, before: int)
    ensures Prompt(s, es + fs, status, before)
       <==> Prompt(s, es, status, before) && Prompt(Run(s, es), fs, status, before)
    decreases |es|
  {
    if es == [] {
      assert es + fs == fs;
    } else {
      assert (es + fs)[0] == es[0] && (es + fs)[1..] == es[1..] + fs;
      PromptConcat(Next(s, es[0]), es[1..], fs, status, before);
    }
  }

  // ---------------------------------------------------------------- one DELETE of the loop

  /** The ids that the subquery of one DELETE picks: everything prunable, or the `size` oldest of it. */
  predicate IsPruneBatch(rows: map<nat, Row>, status: Status, before: int, size: nat, chosen: set<nat>) {
    && chosen <= Prunable(rows, status, before) && |chosen| <= size
    && (chosen == Prunable(rows, status, before) || |chosen| == size)
    && forall x, y :: x in chosen && y in Prunable(rows, status, before) && y !in chosen ==>
                        rows[x].availableAt <= rows[y].availableAt
  }

  lemma Oldest(rows: map<nat, Row>, ids: set<nat>) returns (x: nat)
    requires ids != {} && ids <= rows.Keys
    ensures x in ids && forall y :: y in ids ==> rows[x].availableAt <= rows[y].availableAt
  {
    x :| x in ids;
    var rest := ids - {x};
    assert ids == rest + {x};
    if rest != {} {
      var y := Oldest(rows, rest);
      if rows[y].availableAt < rows[x].availableAt { x := y; }
    }
  }

  predicate AreOldest(rows: map<nat, Row>, ids: set<nat>, chosen: set<nat>)
    requires ids <= rows.Keys
  {
    chosen <= ids && forall x, y :: x in chosen && y in ids && y !in chosen ==> rows[x].availableAt <= rows[y].availableAt
  }

  lemma {:induction false} OldestExist(rows: map<nat, Row>, ids: set<nat>, size: nat) returns (chosen: set<nat>)
    requires ids <= rows.Keys
    ensures AreOldest(rows, ids, chosen) && |chosen| <= size && (chosen == ids || |chosen| == size)
    decreases size
  {
    if size == 0 || ids == {} {
      chosen := {};
    } else {
      var x := Oldest(rows, ids);
      var rest := OldestExist(rows, ids - {x}, size - 1);
      chosen := rest + {x};
      assert ids == (ids - {x}) + {x};
    }
  }

  lemma BatchExists(rows: map<nat, Row>, status: Status, before: int, size: nat)
    ensures exists chosen :: chosen <= Prunable(rows, status, before) && IsPruneBatch(rows, status, before, size, chosen)
  {
    var chosen := OldestExist(rows, Prunable(rows, status, before), size);
    assert IsPruneBatch(rows, status, before, size, chosen);
  }

  /** What others have left of the batch when its rows are deleted. */
  function Remaining(b: State, batch: set<nat>, during: seq<Event>): set<nat> {
    batch * Run(b, during).rows.Keys
  }

  /** One DELETE: it began in `start`, picked `batch` after `others` and removed what `during` had left of it. */
  datatype PrunePass = PrunePass(start: State, batch: set<nat>, deleted: nat, end: State)

  ghost predicate IsPass(p: PrunePass, status: Status, before: int, size: nat, others: seq<Event>, during: seq<Event>) {
    var b := Run(p.start, others);
    && IsPruneBatch(b.rows, status, before, size, p.batch)
    && p.deleted == |Remaining(b, p.batch, during)|
    && p.end == Next(Run(b, during), Prune(Remaining(b, p.batch, during)))
  }

  /** Nobody else removed a row of the batch between its selection and its deletion. */
  predicate Undisputed(p: PrunePass, others: seq<Event>, during: seq<Event>) {
    p.batch <= Run(Run(p.start, others), during).rows.Keys
  }

  function PassTrace(b: State, batch: set<nat>, others: seq<Event>, during: seq<Event>): seq<Event> {
    others + during + [Prune(Remaining(b, batch, during))]
  }

  lemma PassRuns(p: PrunePass, status: Status, before: int, size: nat, others: seq<Event>, during: seq<Event>)
    requires IsPass(p, status, before, size, others, during)
    ensures Run(p.start, PassTrace(Run(p.start, others), p.batch, others, during)) == p.end
  {
    RunConcat(p.start, others, during);
    RunSnoc(p.start, others + during, Prune(Remaining(Run(p.start, others), p.batch, during)));
  }

  /** Finished rows stay finished, so all that is left of the batch goes. */
  lemma {:induction false} StaysPrunable(s: State, es: seq<Event>, status: Status, before: int, id: nat)
    requires Inv(s) && !status.Pending? && id in Prunable(s.rows, status, before) && id in Run(s, es).rows
    ensures id in Prunable(Run(s, es).rows, status, before)
  {
    assert RowOk(s.log, id, s.rows[id]);
    TerminalForever(s, es, id);
  }

  lemma BatchRemoved(s: State, status: Status, before: int, chosen: set<nat>)
    requires !status.Pending? && chosen <= Prunable(s.rows, status, before)
    ensures Prunable(Next(s, Prune(chosen)).rows, status, before) == Prunable(s.rows, status, before) - chosen
  {
  }

  lemma MinusCount(a: set<nat>, b: set<nat>)
    requires b <= a
    ensures |a - b| + |b| == |a|
  {
    assert a == (a - b) + b;
  }

  /** From `a` to `s` at least `removed` prunable rows went, and no more when nobody else was at work. */
  predicate Counted(a: State, s: State, status: Status, before: int, removed: nat, alone: bool) {
    var was, left := |Prunable(a.rows, status, before)|, |Prunable(s.rows, status, before)|;
    removed + left <= was && (alone ==> removed + left == was)
  }

  lemma CountedOn(a: State, b: State, c: State, status: Status, before: int, n: nat, m: nat, alone: bool, still: bool)
    requires Counted(a, b, status, before, n, alone) && Counted(b, c, status, before, m, still) && (alone ==> still)
    ensures Counted(a, c, status, before, n + m, alone)
  {
  }

  /** What one DELETE does, whatever the others do around it, if they make no late marks. */
  lemma PassMeans(p: PrunePass, status: Status, before: int, size: nat, others: seq<Event>, during: seq<Event>)
    requires Inv(p.start) && !status.Pending? && IsPass(p, status, before, size, others, during)
    requires Prompt(p.start, PassTrace(Run(p.start, others), p.batch, others, during), status, before)
    ensures Counted(p.start, p.end, status, before, p.deleted, others == [] && during == [])
    ensures p.deleted < size && Undisputed(p, others, during) ==> Prunable(p.end.rows, status, before) == {}
  {
    var b := Run(p.start, others);
    var c, left := Run(b, during), Remaining(b, p.batch, during);
    PromptConcat(p.start, others + during, [Prune(left)], status, before);
    PromptConcat(p.start, others, during, status, before);
    RunInv(p.start, others);
    PrunableShrinks(p.start, others, status, before);
    PrunableShrinks(b, during, status, before);
    forall id | id in left ensures id in Prunable(c.rows, status, before) {
      StaysPrunable(b, during, status, before, id);
    }
    PassCounts(p.start, b, c, p, status, before, size, left);
  }

  lemma PassCounts(a: State, b: State, c: State, p: PrunePass, status: Status, before: int, size: nat, left: set<nat>)
    requires !status.Pending? && IsPruneBatch(b.rows, status, before, size, p.batch)
    requires left == p.batch * c.rows.Keys && left <= Prunable(c.rows, status, before)
    requires p.deleted == |left| && p.end == Next(c, Prune(left))
    requires Prunable(c.rows, status, before) <= Prunable(b.rows, status, before) <= Prunable(a.rows, status, before)
    ensures Counted(a, p.end, status, before, p.deleted, a == b == c)
    ensures p.deleted < size && p.batch <= c.rows.Keys ==> Prunable(p.end.rows, status, before) == {}
  {
    BatchRemoved(c, status, before, left);
    MinusCount(Prunable(c.rows, status, before), left);
    Fewer(Prunable(c.rows, status, before), Prunable(a.rows, status, before));
    if p.batch <= c.rows.Keys {
      assert left == p.batch;
    }
  }

  /** The condition is needed: whenever more than `size` rows are prunable, another pruner that takes one row of
      the batch makes the pass short, so the loop stops with prunable rows left. */
  lemma DisputedPassStopsEarly(b: State, status: Status, before: int, size: nat, batch: set<nat>, x: nat)
    requires !status.Pending? && batch <= Prunable(b.rows, status, before) && x in batch
    requires |batch| <= size < |Prunable(b.rows, status, before)|
    ensures var left := Remaining(b, batch, [Prune({x})]);
            && |left| < size
            && Prunable(Next(Run(b, [Prune({x})]), Prune(left)).rows, status, before) != {}
  {
    RunOne(b, Prune({x}));
    OneTaken(b, status, before, batch, x);
    OneShort(Prunable(b.rows, status, before), batch, x);
    BatchRemoved(b, status, before, {x});
    BatchRemoved(Next(b, Prune({x})), status, before, batch - {x});
  }

  lemma OneShort(p: set<nat>, batch: set<nat>, x: nat)
    requires batch <= p && x in batch && |batch| < |p|
    ensures |batch - {x}| < |batch| && p - {x} - (batch - {x}) != {} && batch - {x} <= p - {x}
  {
    MinusCount(p, batch);
    MinusCount(batch, {x});
    assert p - {x} - (batch - {x}) == p - batch;
  }

  lemma OneTaken(b: State, status: Status, before: int, batch: set<nat>, x: nat)
    requires !status.Pending? && x in batch && batch <= Prunable(b.rows, status, before)
    ensures batch * Next(b, Prune({x})).rows.Keys == batch - {x}
  {
  }

  // ---------------------------------------------------------------- the loop

  function Total(passes: seq<PrunePass>): nat {
    if passes == [] then 0 else Total(passes[..|passes| - 1]) + passes[|passes| - 1].deleted
  }

  function LastState(a: State, passes: seq<PrunePass>): State {
    if passes == [] then a else passes[|passes| - 1].end
  }

  /** The passes follow one another from `a`, each picking its batch from the table as it then is. */
  ghost predicate Follow(a: State, passes: seq<PrunePass>, status: Status, before: int, size: nat,
                         others: seq<seq<Event>>, during: seq<seq<Event>>)
    decreases |passes|
  {
    && |passes| <= |others| == |during|
    && (passes == [] ||
        var n := |passes| - 1;
        && Follow(a, passes[..n], status, before, size, others, during)
        && passes[n].start == LastState(a, passes[..n])
        && IsPass(passes[n], status, before, size, others[n], during[n]))
  }

  /** The loop stops after the first pass that deleted less than `size` rows, or when there are no more passes. */
  ghost predicate Stopped(passes: seq<PrunePass>, size: nat, maxBatches: nat) {
    && (forall k :: 0 <= k < |passes| - 1 ==> passes[k].deleted >= size)
    && (|passes| < maxBatches ==> |passes| > 0 && passes[|passes| - 1].deleted < size)
  }

  /** What the passes mean together if nobody makes a late mark: the count, and that nothing prunable is left
      after a short pass in which nobody else took rows of the batch. */
  ghost predicate PruneMeans(a: State, s: State, passes: seq<PrunePass>, status: Status, before: int, size: nat,
                             others: seq<seq<Event>>, during: seq<seq<Event>>)
    requires |passes| <= |others| == |during|
  {
    && Counted(a, s, status, before, Total(passes), Alone(others) && Alone(during))
    && (|passes| > 0 ==>
          var n := |passes| - 1;
          passes[n].deleted < size && Undisputed(passes[n], others[n], during[n]) ==> NoneLeft(s, status, before))
  }

  /** No row with this status has a terminal time before the limit. */
  ghost predicate NoneLeft(s: State, status: Status, before: int) {
    forall id :: id in s.rows && s.rows[id].status == status ==> before <= s.rows[id].availableAt
  }

  lemma EmptyMeansNone(s: State, status: Status, before: int)
    ensures Prunable(s.rows, status, before) == {} <==> NoneLeft(s, status, before)
  {
    if !NoneLeft(s, status, before) {
      var id :| id in s.rows && s.rows[id].status == status && s.rows[id].availableAt < before;
      assert id in Prunable(s.rows, status, before);
    }
  }

  ghost predicate Alone(others: seq<seq<Event>>) {
    forall k :: 0 <= k < |others| ==> others[k] == []
  }

  lemma Longer(a: State, passes: seq<PrunePass>, p: PrunePass, status: Status, before: int, size: nat,
               others: seq<seq<Event>>, during: seq<seq<Event>>)
    requires Follow(a, passes, status, before, size, others, during) && |passes| < |others|
    requires p.start == LastState(a, passes) && IsPass(p, status, before, size, others[|passes|], during[|passes|])
    ensures Follow(a, passes + [p], status, before, size, others, during)
  {
    assert (passes + [p])[..|passes|] == passes;
  }

  lemma OneMorePass(a: State, passes: seq<PrunePass>, p: PrunePass)
    ensures LastState(a, passes + [p]) == p.end && Total(passes + [p]) == Total(passes) + p.deleted
  {
    assert (passes + [p])[..|passes|] == passes;
  }

  /** One more pass, after a trace that led to its start. */
  lemma MeansMore(a: State, trace: seq<Event>, passes: seq<PrunePass>, p: PrunePass, more: seq<Event>, status: Status,
                  before: int, size: nat, others: seq<seq<Event>>, during: seq<seq<Event>>)
    requires |passes| < |others| == |during| && p.start == Run(a, trace) && Inv(p.start) && !status.Pending?
    requires IsPass(p, status, before, size, others[|passes|], during[|passes|])
    requires more == PassTrace(Run(p.start, others[|passes|]), p.batch, others[|passes|], during[|passes|])
    requires Prompt(a, trace, status, before) ==>
               PruneMeans(a, p.start, passes, status, before, size, others, during)
    requires Total(passes + [p]) == Total(passes) + p.deleted
    ensures Run(a, trace + more) == p.end && Inv(p.end)
    ensures Prompt(a, trace + more, status, before) ==>
              PruneMeans(a, p.end, passes + [p], status, before, size, others, during)
  {
    var n := |passes|;
    PassRuns(p, status, before, size, others[n], during[n]);
    RunConcat(a, trace, more);
    RunInv(p.start, more);
    PromptConcat(a, trace, more, status, before);
    if Prompt(a, trace + more, status, before) {
      PassMeans(p, status, before, size, others[n], during[n]);
      EmptyMeansNone(p.end, status, before);
      CountedOn(a, p.start, p.end, status, before, Total(passes), p.deleted, Alone(others) && Alone(during),
                others[n] == [] && during[n] == []);
    }
  }

  /** The passes have led from `a` to `s`, and what they mean. */
  ghost predicate PruneAt(a: State, s: State, trace: seq<Event>, passes: seq<PrunePass>, status: Status, before: int,
                          size: nat, others: seq<seq<Event>>, during: seq<seq<Event>>) {
    && Inv(s) && s == Run(a, trace) && s == LastState(a, passes)
    && Follow(a, passes, status, before, size, others, during)
    && (Prompt(a, trace, status, before) ==> PruneMeans(a, s, passes, status, before, size, others, during))
  }

  lemma PruneOn(a: State, trace: seq<Event>, passes: seq<PrunePass>, p: PrunePass, more: seq<Event>, status: Status,
                before: int, size: nat, others: seq<seq<Event>>, during: seq<seq<Event>>)
    requires PruneAt(a, p.start, trace, passes, status, before, size, others, during) && |passes| < |others|
    requires IsPass(p, status, before, size, others[|passes|], during[|passes|]) && !status.Pending?
    requires more == PassTrace(Run(p.start, others[|passes|]), p.batch, others[|passes|], during[|passes|])
    ensures PruneAt(a, p.end, trace + more, passes + [p], status, before, size, others, during)
    ensures Total(passes + [p]) == Total(passes) + p.deleted
  {
    Longer(a, passes, p, status, before, size, others, during);
    OneMorePass(a, passes, p);
    MeansMore(a, trace, passes, p, more, status, before, size, others, during);
  }

  /** `prune`: batches until one is short. `others[k]` and `during[k]` are what the others do before the k-th DELETE
      and between the selection of its batch and the deletion; `passes` are the DELETEs that were run. */
  method PruneOutbox(db: OutboxStore, status: Status, before: int, size: nat, maxBatches: nat,
                     others: seq<seq<Event>>, during: seq<seq<Event>>)
    returns (removed: nat, ghost passes: seq<PrunePass>, ghost trace: seq<Event>)
    requires Inv(db.s) && !status.Pending? && |others| == |during| == maxBatches
    modifies db
    ensures PruneAt(old(db.s), db.s, trace, passes, status, before, size, others, during)
    ensures removed == Total(passes) && Stopped(passes, size, maxBatches)
  {
    ghost var a := db.s;
    removed, passes, trace := 0, [], [];
    for batch := 0 to maxBatches
      invariant |passes| == batch && removed == Total(passes)
      invariant forall k :: 0 <= k < |passes| ==> passes[k].deleted >= size
      invariant PruneAt(a, db.s, trace, passes, status, before, size, others, during)
    {
      var deleted, p, more := PruneBatch(db, status, before, size, others[batch], during[batch]);
      PruneOn(a, trace, passes, p, more, status, before, size, others, during);
      removed, passes, trace := removed + deleted, passes + [p], trace + more;
      if deleted < size {
        return;
      }
    }
  }

  /** One DELETE of the loop. */
  method PruneBatch(db: OutboxStore, status: Status, before: int, size: nat, others: seq<Event>, during: seq<Event>)
    returns (deleted: nat, ghost p: PrunePass, ghost trace: seq<Event>)
    modifies db
    ensures p.start == old(db.s) && p.end == db.s && p.deleted == deleted
    ensures IsPass(p, status, before, size, others, during)
    ensures trace == PassTrace(Run(p.start, others), p.batch, others, during)
  {
    ghost var start := db.s;
    db.s := Run(db.s, others);
    ghost var b := db.s;
    BatchExists(db.s.rows, status, before, size);
    var batch :| batch <= Prunable(db.s.rows, status, before) && IsPruneBatch(db.s.rows, status, before, size, batch);
    db.s := Run(db.s, during);
    var left := set id | id in batch && id in db.s.rows;
    assert left == Remaining(b, batch, during);
    deleted := |left|;
    db.s := Next(db.s, Prune(left));
    p := PrunePass(start, batch, deleted, db.s);
    trace := PassTrace(b, batch, others, during);
  }
}
