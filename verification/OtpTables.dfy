/**
 Registration codes: the email_otps table, the requests that issue, verify and consume codes, and the
 accounts they create.

 `Next` is one statement of one request; a disabled statement, or one that waits for a row lock,
 changes nothing. Addresses stand for their normalized form. A code hash determines its address and
 code, and a registration ticket determines its row and verification time; a request can only present
 a ticket that was handed out before.

 A cleanup is a DELETE of the rows with ids from its snapshot. A row that was issued again meanwhile keeps
 its id, so the DELETE removes whatever the row has become.
 */
module OtpTables {
  import opened Options

  type Email = string
  type Code = string
  type RowId = nat
  type Pid = nat

  datatype CodeHash = CodeHash(email: Email, code: Code)

  datatype Row = Row(
    id: RowId, codeHash: CodeHash, attempts: nat, sentAt: int, expiresAt: int,
    verifiedAt: Option<int>, consumedAt: Option<int>)

  datatype Ticket = Ticket(id: RowId, at: int)

  /** A request whose code matched: it read `seen` with its attempt; `at` is the time that it read from the
      clock to store, and `marked` is whether its conditional update has run. */
  datatype Verifier = Verifier(email: Email, id: RowId, seen: Option<int>, at: Option<int>, marked: bool)

  /** A registration transaction. Once `checked` it has found no account; once `consumed`, its ticket matched
      the row that it updated and holds locked. */
  datatype Registration =
    Registration(email: Email, ticket: Ticket, startedAt: int, checked: bool, consumed: bool)

  /** A request for a code that found no account. `startedAt` is the start of its transaction, which is what
      the database's now() stays at in all of its statements. */
  datatype Sender = Sender(email: Email, startedAt: Option<int>)

  /** `timeout` is how long a transaction may last. */
  datatype Config = Config(expiry: nat, cooldown: nat, maxAttempts: nat, window: nat, timeout: nat)

  /** One comparison against the `issue`-th code sent to an address. */
  datatype Guess = Guess(issue: nat, at: int)

  /** History: whose row each id was, the codes issued and the codes presented correctly, the tickets
      handed out, and for each address the times of its issues and the comparisons made. */
  datatype Log = Log(
    owner: map<RowId, Email>,
    issued: set<CodeHash>,
    matched: set<CodeHash>,
    tickets: set<Ticket>,
    sent: map<Email, seq<int>>,
    guesses: map<Email, seq<Guess>>)

  datatype State = State(
    cfg: Config,
    clock: int,
    rows: map<Email, Row>,
    senders: map<Pid, Sender>,
    verifiers: map<Pid, Verifier>,
    registrations: map<Pid, Registration>,
    cleaners: map<Pid, set<RowId>>,
    accounts: multiset<Email>,
    log: Log)

  datatype Event =
    | Tick(elapsed: nat)
    | SendCheck(pid: Pid, email: Email)
    | BeginSend(pid: Pid)
    | Issue(pid: Pid, code: Code, id: RowId)
    | DropSend(pid: Pid)
    | Reserve(pid: Pid, email: Email, code: Code)
    | ReadClock(pid: Pid)
    | MarkVerified(pid: Pid)
    | HandTicket(pid: Pid)
    | Begin(pid: Pid, email: Email, ticket: Ticket)
    | Check(pid: Pid)
    | Consume(pid: Pid)
    | Create(pid: Pid)
    | Abort(pid: Pid)
    | DeleteAccount(email: Email)
    | CleanStart(pid: Pid, ids: set<RowId>)
    | CleanEnd(pid: Pid)
    | CleanDrop(pid: Pid)

  /** The default settings, in seconds. */
  const DEFAULTS := Config(600, 60, 5, 1800, 5)

  const ADDRESS: Email := "a@b.c"

  predicate IsSend(e: Event) {
    e.SendCheck? || e.BeginSend? || e.DropSend?
  }

  function Init(cfg: Config): State {
    State(cfg, 0, map[], map[], map[], map[], map[], multiset{}, Log(map[], {}, {}, {}, map[], map[]))
  }

  predicate Locked(s: State, email: Email) {
    exists p :: p in s.registrations && s.registrations[p].consumed && s.registrations[p].email == email
  }

  function Sent(log: Log, email: Email): seq<int> {
    if email in log.sent then log.sent[email] else []
  }

  function Guesses(log: Log, email: Email): seq<Guess> {
    if email in log.guesses then log.guesses[email] else []
  }

  /** In a transaction that started at `at`, a new code goes out at once, a replacement only after the cooldown. */
  predicate CanIssue(s: State, email: Email, id: RowId, at: int) {
    && s.clock - at <= s.cfg.timeout
    && if email in s.rows then !Locked(s, email) && s.rows[email].sentAt <= at - s.cfg.cooldown
       else id !in s.log.owner
  }

  function IssueCode(s: State, email: Email, code: Code, id: RowId, at: int): State {
    var rowId := if email in s.rows then s.rows[email].id else id;
    s.(rows := s.rows[email := Row(rowId, CodeHash(email, code), 0, at, at + s.cfg.expiry, None, None)],
       log := s.log.(owner := s.log.owner[rowId := email], issued := s.log.issued + {CodeHash(email, code)},
                     sent := s.log.sent[email := Sent(s.log, email) + [at]]))
  }

  function DropSender(s: State, pid: Pid): State {
    s.(senders := map p | p in s.senders && p != pid :: s.senders[p])
  }

  predicate Begun(s: State, pid: Pid) {
    pid in s.senders && s.senders[pid].startedAt.Some?
  }

  predicate CanReserve(s: State, email: Email) {
    && email in s.rows && !Locked(s, email)
    && s.rows[email].consumedAt.None? && s.clock < s.rows[email].expiresAt
    && s.rows[email].attempts < s.cfg.maxAttempts
  }

  /** Counts the attempt, compares the code, and goes on with a matching one. */
  function ReserveAttempt(s: State, pid: Pid, email: Email, code: Code): State
    requires CanReserve(s, email)
  {
    var row := s.rows[email];
    var right := row.codeHash == CodeHash(email, code);
    var guess := Guess(if |Sent(s.log, email)| > 0 then |Sent(s.log, email)| - 1 else 0, s.clock);
    s.(rows := s.rows[email := row.(attempts := row.attempts + 1)],
       verifiers := if right then s.verifiers[pid := Verifier(email, row.id, row.verifiedAt, None, false)] else s.verifiers,
       log := s.log.(matched := if right then s.log.matched + {CodeHash(email, code)} else s.log.matched,
                     guesses := s.log.guesses[email := Guesses(s.log, email) + [guess]]))
  }

  predicate StillThere(s: State, v: Verifier) {
    v.email in s.rows && s.rows[v.email].id == v.id
  }

  function DropVerifier(s: State, pid: Pid): State {
    s.(verifiers := map p | p in s.verifiers && p != pid :: s.verifiers[p])
  }

  predicate CanMark(s: State, pid: Pid) {
    pid in s.verifiers && s.verifiers[pid].seen.None? && s.verifiers[pid].at.Some? && !s.verifiers[pid].marked
  }

  /** The update stores the time read before, whatever has become of the row's code since. */
  function Mark(s: State, pid: Pid): State
    requires CanMark(s, pid)
  {
    var v := s.verifiers[pid];
    var t := s.(verifiers := s.verifiers[pid := v.(marked := true)]);
    if StillThere(s, v) && s.rows[v.email].verifiedAt.None?
    then t.(rows := s.rows[v.email := s.rows[v.email].(verifiedAt := v.at)]) else t
  }

  /** The verification time the request answers with: the one it read, else the stored one. */
  function AnswerTime(s: State, v: Verifier): Option<int> {
    if v.seen.Some? then v.seen
    else if StillThere(s, v) then s.rows[v.email].verifiedAt
    else None
  }

  function Hand(s: State, pid: Pid): State
    requires pid in s.verifiers
  {
    var v, t := s.verifiers[pid], DropVerifier(s, pid);
    match AnswerTime(s, v)
    case Some(at) => t.(log := s.log.(tickets := s.log.tickets + {Ticket(v.id, at)}))
    case None => t
  }

  function DropRegistration(s: State, pid: Pid): State {
    s.(registrations := map p | p in s.registrations && p != pid :: s.registrations[p])
  }

  /** The row is unconsumed and was verified within the window: the consume finds it, or waits for it. */
  predicate Finds(s: State, r: Registration) {
    && r.email in s.rows && s.rows[r.email].consumedAt.None?
    && s.rows[r.email].verifiedAt.Some? && s.rows[r.email].verifiedAt.value > r.startedAt - s.cfg.window
  }

  /** Besides, the ticket proves that verification. */
  predicate Redeems(s: State, r: Registration) {
    && Finds(s, r)
    && r.ticket == Ticket(s.rows[r.email].id, s.rows[r.email].verifiedAt.value)
  }

  /** The transaction may still run statements and commit. */
  predicate InTime(s: State, r: Registration) {
    s.clock - r.startedAt <= s.cfg.timeout
  }

  predicate CanCheck(s: State, pid: Pid) {
    pid in s.registrations && !s.registrations[pid].checked && InTime(s, s.registrations[pid])
  }

  predicate CanConsume(s: State, pid: Pid) {
    && pid in s.registrations && s.registrations[pid].checked && !s.registrations[pid].consumed
    && InTime(s, s.registrations[pid])
    && (Finds(s, s.registrations[pid]) ==> !Locked(s, s.registrations[pid].email))
  }

  predicate CanCreate(s: State, pid: Pid) {
    && pid in s.registrations && s.registrations[pid].consumed && s.registrations[pid].email in s.rows
    && InTime(s, s.registrations[pid])
  }

  function CreateAccount(s: State, pid: Pid): State
    requires CanCreate(s, pid)
  {
    var r := s.registrations[pid];
    DropRegistration(s, pid).(
      rows := s.rows[r.email := s.rows[r.email].(consumedAt := Some(r.startedAt))],
      accounts := s.accounts + multiset{r.email})
  }

  /** The row has been expired for longer than the registration window. */
  predicate LongExpired(s: State, id: RowId) {
    && id in s.log.owner && s.log.owner[id] in s.rows
    && s.rows[s.log.owner[id]].id == id && s.rows[s.log.owner[id]].expiresAt < s.clock - s.cfg.window
  }

  /** The DELETE of a cleanup waits for rows that are locked. */
  predicate CanCleanEnd(s: State, pid: Pid) {
    pid in s.cleaners && forall e :: e in s.rows && s.rows[e].id in s.cleaners[pid] ==> !Locked(s, e)
  }

  function DropCleaner(s: State, pid: Pid): State {
    s.(cleaners := map p | p in s.cleaners && p != pid :: s.cleaners[p])
  }

  function Next(s: State, e: Event): State {
    match e
    case Tick(elapsed) => s.(clock := s.clock + elapsed)
    case SendCheck(pid, email) =>
      if pid !in s.senders && email !in s.accounts then s.(senders := s.senders[pid := Sender(email, None)]) else s
    case BeginSend(pid) =>
      if pid in s.senders && s.senders[pid].startedAt.None?
      then s.(senders := s.senders[pid := s.senders[pid].(startedAt := Some(s.clock))]) else s
    case Issue(pid, code, id) =>
      if Begun(s, pid) && CanIssue(s, s.senders[pid].email, id, s.senders[pid].startedAt.value)
      then IssueCode(DropSender(s, pid), s.senders[pid].email, code, id, s.senders[pid].startedAt.value) else s
    case DropSend(pid) => DropSender(s, pid)
    case Reserve(pid, email, code) =>
      if pid !in s.verifiers && CanReserve(s, email) then ReserveAttempt(s, pid, email, code) else s
    case ReadClock(pid) =>
      if pid in s.verifiers && s.verifiers[pid].seen.None? && s.verifiers[pid].at.None?
      then s.(verifiers := s.verifiers[pid := s.verifiers[pid].(at := Some(s.clock))]) else s
    case MarkVerified(pid) => if CanMark(s, pid) then Mark(s, pid) else s
    case HandTicket(pid) =>
      if pid in s.verifiers && (s.verifiers[pid].seen.Some? || s.verifiers[pid].marked) then Hand(s, pid) else s
    case Begin(pid, email, ticket) =>
      if pid !in s.registrations && ticket in s.log.tickets
      then s.(registrations := s.registrations[pid := Registration(email, ticket, s.clock, false, false)]) else s
    case Check(pid) =>
      if !CanCheck(s, pid) then s
      else if s.registrations[pid].email in s.accounts then DropRegistration(s, pid)
      else s.(registrations := s.registrations[pid := s.registrations[pid].(checked := true)])
    case Consume(pid) =>
      if !CanConsume(s, pid) then s
      else if Redeems(s, s.registrations[pid])
      then s.(registrations := s.registrations[pid := s.registrations[pid].(consumed := true)])
      else DropRegistration(s, pid)
    case Create(pid) => if CanCreate(s, pid) then CreateAccount(s, pid) else s
    case Abort(pid) => DropRegistration(s, pid)
    case DeleteAccount(email) => s.(accounts := s.accounts - multiset{email})
    case CleanStart(pid, ids) =>
      if pid !in s.cleaners && forall id :: id in ids ==> LongExpired(s, id)
      then s.(cleaners := s.cleaners[pid := ids]) else s
    case CleanEnd(pid) =>
      if CanCleanEnd(s, pid)
      then DropCleaner(s, pid).(rows := map e | e in s.rows && s.rows[e].id !in s.cleaners[pid] :: s.rows[e]) else s
    case CleanDrop(pid) => DropCleaner(s, pid)
  }

  function Run(s: State, es: seq<Event>): State
    decreases |es|
  {
    if es == [] then s else Run(Next(s, es[0]), es[1..])
  }

  lemma {:induction false} RunConcat(s: State, es: seq<Event>, fs: seq<Event>)
    ensures Run(s, es + fs) == Run(Run(s, es), fs)
    decreases |es|
  {
    if es == [] {
      assert es + fs == fs;
    } else {
      assert (es + fs)[0] == es[0] && (es + fs)[1..] == es[1..] + fs;
      RunConcat(Next(s, es[0]), es[1..], fs);
    }
  }

  lemma RunSnoc(s: State, es: seq<Event>, e: Event)
    ensures Run(s, es + [e]) == Next(Run(s, es), e)
  {
    RunConcat(s, es, [e]);
    assert Run(Run(s, es), [e]) == Run(Next(Run(s, es), e), []);
  }

  lemma RunThree(s: State, a: Event, b: Event, c: Event)
    ensures Run(s, [a, b, c]) == Next(Next(Next(s, a), b), c)
  {
    RunSnoc(s, [], a);
    RunSnoc(s, [a], b);
    RunSnoc(s, [a, b], c);
    assert [] + [a] == [a] && [a] + [b] == [a, b] && [a, b] + [c] == [a, b, c];
  }

  lemma RunFour(s: State, a: Event, b: Event, c: Event, d: Event)
    ensures Run(s, [a, b, c, d]) == Next(Next(Next(Next(s, a), b), c), d)
  {
    RunThree(s, a, b, c);
    RunSnoc(s, [a, b, c], d);
    assert [a, b, c] + [d] == [a, b, c, d];
  }

  ghost predicate Reachable(cfg: Config, s: State) {
    exists es :: s == Run(Init(cfg), es)
  }

  lemma ReachableNext(cfg: Config, s: State, e: Event)
    requires Reachable(cfg, s)
    ensures Reachable(cfg, Next(s, e))
  {
    var es :| s == Run(Init(cfg), es);
    RunSnoc(Init(cfg), es, e);
    assert Next(s, e) == Run(Init(cfg), es + [e]);
  }

  lemma ReachableRun(cfg: Config, s: State, es: seq<Event>)
    requires Reachable(cfg, s)
    ensures Reachable(cfg, Run(s, es))
  {
    var fs :| s == Run(Init(cfg), fs);
    RunConcat(Init(cfg), fs, es);
    assert Run(s, es) == Run(Init(cfg), fs + es);
  }
}
