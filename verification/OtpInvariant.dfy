/**
 What every statement keeps true of the registration codes: a verified row, a ticket and an account
 all go back to a code that was issued to that address and presented correctly.
 */
module OtpInvariant {
  import opened Options
  import opened OtpTables

  /** Some code was issued to this address and later presented correctly for it. */
  ghost predicate Proven(log: Log, email: Email) {
    exists code :: CodeHash(email, code) in log.issued && CodeHash(email, code) in log.matched
  }

  ghost predicate RowOk(log: Log, clock: int, email: Email, row: Row) {
    && row.id in log.owner && log.owner[row.id] == email
    && row.codeHash.email == email && row.codeHash in log.issued
    && (row.verifiedAt.Some? ==> row.verifiedAt.value <= clock && Proven(log, email))
  }

  ghost predicate RowsOk(rows: map<Email, Row>, log: Log, clock: int) {
    forall e :: e in rows ==> RowOk(log, clock, e, rows[e])
  }

  /** A ticket names a row that was stored, and a time in the past. */
  predicate TicketOk(log: Log, clock: int, t: Ticket) {
    t.id in log.owner && t.at <= clock
  }

  ghost predicate TicketsOk(log: Log, clock: int) {
    forall t :: t in log.tickets ==> TicketOk(log, clock, t)
  }

  ghost predicate VerifierOk(log: Log, clock: int, v: Verifier) {
    && v.id in log.owner && log.owner[v.id] == v.email && Proven(log, v.email)
    && (v.seen.Some? ==> v.seen.value <= clock)
    && (v.at.Some? ==> v.at.value <= clock)
  }

  ghost predicate VerifiersOk(log: Log, clock: int, verifiers: map<Pid, Verifier>) {
    forall p :: p in verifiers ==> VerifierOk(log, clock, verifiers[p])
  }

  /** A registration that consumed a code holds its row, which stays as its ticket says. */
  predicate RegistrationOk(rows: map<Email, Row>, log: Log, r: Registration) {
    && r.ticket in log.tickets
    && (r.consumed ==>
          && r.checked && r.email in rows && rows[r.email].consumedAt.None?
          && rows[r.email].verifiedAt.Some? && r.ticket == Ticket(rows[r.email].id, rows[r.email].verifiedAt.value))
  }

  ghost predicate RegistrationsOk(rows: map<Email, Row>, log: Log, registrations: map<Pid, Registration>) {
    forall p :: p in registrations ==> RegistrationOk(rows, log, registrations[p])
  }

  predicate Apart(a: Registration, b: Registration) {
    !(a.consumed && b.consumed && a.email == b.email)
  }

  ghost predicate Exclusive(registrations: map<Pid, Registration>) {
    forall p, q :: p in registrations && q in registrations && p != q ==> Apart(registrations[p], registrations[q])
  }

  ghost predicate Started(registrations: map<Pid, Registration>, clock: int) {
    forall p :: p in registrations ==> registrations[p].startedAt <= clock
  }

  ghost predicate SendersOk(senders: map<Pid, Sender>, clock: int) {
    forall p :: p in senders && senders[p].startedAt.Some? ==> senders[p].startedAt.value <= clock
  }

  ghost predicate AccountsOk(accounts: multiset<Email>, log: Log) {
    forall e :: e in accounts ==> Proven(log, e)
  }

  ghost predicate Inv(s: State) {
    && RowsOk(s.rows, s.log, s.clock) && TicketsOk(s.log, s.clock)
    && VerifiersOk(s.log, s.clock, s.verifiers)
    && RegistrationsOk(s.rows, s.log, s.registrations) && Exclusive(s.registrations)
    && Started(s.registrations, s.clock) && SendersOk(s.senders, s.clock)
    && AccountsOk(s.accounts, s.log)
  }

  lemma ProvenAll(a: Log, b: Log)
    requires a.issued <= b.issued && a.matched <= b.matched
    ensures forall e :: Proven(a, e) ==> Proven(b, e)
  {
  }

  lemma TickInv(s: State, elapsed: nat)
    requires Inv(s)
    ensures Inv(Next(s, Tick(elapsed)))
  {
  }

  // ---------------------------------------------------------------- a code is issued

  lemma IssueRows(s: State, email: Email, code: Code, id: RowId, at: int)
    requires RowsOk(s.rows, s.log, s.clock) && CanIssue(s, email, id, at)
    ensures var t := IssueCode(s, email, code, id, at); RowsOk(t.rows, t.log, s.clock)
  {
  }

  lemma IssueTimes(s: State, email: Email, code: Code, id: RowId, at: int, k: Ticket)
    requires RowsOk(s.rows, s.log, s.clock) && CanIssue(s, email, id, at) && TicketOk(s.log, s.clock, k)
    ensures var t := IssueCode(s, email, code, id, at);
            TicketOk(t.log, s.clock, k) && t.log.owner[k.id] == s.log.owner[k.id]
  {
  }

  lemma IssueInv(s: State, email: Email, code: Code, id: RowId, at: int)
    requires Inv(s) && CanIssue(s, email, id, at)
    ensures Inv(IssueCode(s, email, code, id, at))
  {
    var t := IssueCode(s, email, code, id, at);
    IssueRows(s, email, code, id, at);
    ProvenAll(s.log, t.log);
    forall k | k in s.log.tickets ensures TicketOk(t.log, s.clock, k) {
      IssueTimes(s, email, code, id, at, k);
    }
    IssueVerifiers(s, email, code, id, at);
    forall p | p in s.registrations ensures RegistrationOk(t.rows, t.log, s.registrations[p]) {
      assert RegistrationOk(s.rows, s.log, s.registrations[p]);
    }
  }

  lemma IssueVerifiers(s: State, email: Email, code: Code, id: RowId, at: int)
    requires RowsOk(s.rows, s.log, s.clock) && VerifiersOk(s.log, s.clock, s.verifiers)
    requires CanIssue(s, email, id, at)
    ensures var t := IssueCode(s, email, code, id, at); VerifiersOk(t.log, s.clock, s.verifiers)
  {
  }

  lemma SendInv(s: State, e: Event)
    requires Inv(s) && (e.SendCheck? || e.BeginSend? || e.DropSend?)
    ensures Inv(Next(s, e))
  {
    assert SendersOk(Next(s, e).senders, s.clock);
  }

  lemma IssuedInv(s: State, pid: Pid, code: Code, id: RowId)
    requires Inv(s) && Begun(s, pid) && CanIssue(s, s.senders[pid].email, id, s.senders[pid].startedAt.value)
    ensures Inv(Next(s, Issue(pid, code, id)))
  {
    SendInv(s, DropSend(pid));
    IssueInv(DropSender(s, pid), s.senders[pid].email, code, id, s.senders[pid].startedAt.value);
  }

  // ---------------------------------------------------------------- a code is tried

  lemma ReserveRows(s: State, pid: Pid, email: Email, code: Code)
    requires RowsOk(s.rows, s.log, s.clock) && TicketsOk(s.log, s.clock) && CanReserve(s, email)
    ensures var t := ReserveAttempt(s, pid, email, code);
            RowsOk(t.rows, t.log, s.clock) && TicketsOk(t.log, s.clock)
  {
  }

  lemma ReserveVerifiers(s: State, pid: Pid, email: Email, code: Code)
    requires RowsOk(s.rows, s.log, s.clock) && VerifiersOk(s.log, s.clock, s.verifiers) && CanReserve(s, email)
    ensures var t := ReserveAttempt(s, pid, email, code); VerifiersOk(t.log, s.clock, t.verifiers)
  {
  }

  lemma ReserveInv(s: State, pid: Pid, email: Email, code: Code)
    requires Inv(s) && CanReserve(s, email)
    ensures Inv(ReserveAttempt(s, pid, email, code))
  {
    var t := ReserveAttempt(s, pid, email, code);
    ReserveRows(s, pid, email, code);
    ReserveVerifiers(s, pid, email, code);
    ProvenAll(s.log, t.log);
    forall p | p in s.registrations ensures RegistrationOk(t.rows, t.log, s.registrations[p]) {
      assert RegistrationOk(s.rows, s.log, s.registrations[p]);
    }
  }

  // ---------------------------------------------------------------- a verification is stored

  lemma ReadInv(s: State, pid: Pid)
    requires Inv(s)
    ensures Inv(Next(s, ReadClock(pid)))
  {
  }

  lemma MarkRows(s: State, pid: Pid)
    requires RowsOk(s.rows, s.log, s.clock) && VerifiersOk(s.log, s.clock, s.verifiers) && CanMark(s, pid)
    ensures RowsOk(Mark(s, pid).rows, s.log, s.clock) && VerifiersOk(s.log, s.clock, Mark(s, pid).verifiers)
  {
    assert VerifierOk(s.log, s.clock, s.verifiers[pid]);
  }

  lemma MarkInv(s: State, pid: Pid)
    requires Inv(s) && CanMark(s, pid)
    ensures Inv(Mark(s, pid))
  {
    MarkRows(s, pid);
    forall p | p in s.registrations ensures RegistrationOk(Mark(s, pid).rows, s.log, s.registrations[p]) {
      assert RegistrationOk(s.rows, s.log, s.registrations[p]);
    }
  }

  lemma HandTickets(s: State, pid: Pid)
    requires TicketsOk(s.log, s.clock) && VerifiersOk(s.log, s.clock, s.verifiers) && pid in s.verifiers
    requires RowsOk(s.rows, s.log, s.clock)
    ensures var t := Hand(s, pid);
            TicketsOk(t.log, s.clock) && VerifiersOk(t.log, s.clock, t.verifiers) && RowsOk(t.rows, t.log, s.clock)
  {
    assert VerifierOk(s.log, s.clock, s.verifiers[pid]);
    ProvenAll(s.log, Hand(s, pid).log);
  }

  lemma HandInv(s: State, pid: Pid)
    requires Inv(s) && pid in s.verifiers
    ensures Inv(Hand(s, pid))
  {
    var t := Hand(s, pid);
    HandTickets(s, pid);
    ProvenAll(s.log, t.log);
    forall p | p in s.registrations ensures RegistrationOk(t.rows, t.log, s.registrations[p]) {
      assert RegistrationOk(s.rows, s.log, s.registrations[p]);
    }
  }

  // ---------------------------------------------------------------- registration and retention

  ghost predicate RegistrationsFine(rows: map<Email, Row>, log: Log, clock: int, registrations: map<Pid, Registration>) {
    RegistrationsOk(rows, log, registrations) && Exclusive(registrations) && Started(registrations, clock)
  }

  lemma PutFine(s: State, pid: Pid, r: Registration)
    requires RegistrationsFine(s.rows, s.log, s.clock, s.registrations)
    requires !r.consumed && r.ticket in s.log.tickets && r.startedAt <= s.clock
    ensures RegistrationsFine(s.rows, s.log, s.clock, s.registrations[pid := r])
  {
  }

  lemma ConsumeFine(s: State, pid: Pid)
    requires RegistrationsFine(s.rows, s.log, s.clock, s.registrations)
    requires CanConsume(s, pid) && Redeems(s, s.registrations[pid])
    ensures RegistrationsFine(s.rows, s.log, s.clock, s.registrations[pid := s.registrations[pid].(consumed := true)])
  {
  }

  lemma DropFine(s: State, pid: Pid)
    requires RegistrationsFine(s.rows, s.log, s.clock, s.registrations)
    ensures RegistrationsFine(s.rows, s.log, s.clock, DropRegistration(s, pid).registrations)
  {
  }

  lemma RegisterInv(s: State, e: Event)
    requires Inv(s) && (e.Begin? || e.Check? || e.Consume? || e.Abort?) && Next(s, e) != s
    ensures Inv(Next(s, e))
  {
    if e.Begin? {
      PutFine(s, e.pid, Registration(e.email, e.ticket, s.clock, false, false));
    } else if e.Check? && s.registrations[e.pid].email !in s.accounts {
      assert RegistrationOk(s.rows, s.log, s.registrations[e.pid]);
      PutFine(s, e.pid, s.registrations[e.pid].(checked := true));
    } else if e.Consume? && Redeems(s, s.registrations[e.pid]) {
      ConsumeFine(s, e.pid);
    } else {
      DropFine(s, e.pid);
    }
  }

  lemma CreateInv(s: State, pid: Pid)
    requires Inv(s) && CanCreate(s, pid)
    ensures Inv(CreateAccount(s, pid))
  {
    var t, r := CreateAccount(s, pid), s.registrations[pid];
    assert RegistrationOk(s.rows, s.log, r);
    assert RowOk(s.log, s.clock, r.email, s.rows[r.email]);
    forall e | e in t.rows ensures RowOk(t.log, t.clock, e, t.rows[e]) {
      assert RowOk(s.log, s.clock, e, s.rows[e]);
    }
    forall k | k in s.log.tickets ensures TicketOk(t.log, s.clock, k) {
      assert TicketOk(s.log, s.clock, k);
    }
    forall p | p in t.verifiers ensures VerifierOk(t.log, s.clock, t.verifiers[p]) {
      assert VerifierOk(s.log, s.clock, s.verifiers[p]);
    }
    forall p | p in t.registrations ensures RegistrationOk(t.rows, t.log, t.registrations[p]) {
      assert RegistrationOk(s.rows, s.log, s.registrations[p]) && Apart(s.registrations[p], r);
    }
  }

  lemma CleanInv(s: State, pid: Pid)
    requires Inv(s) && CanCleanEnd(s, pid)
    ensures Inv(Next(s, CleanEnd(pid)))
  {
    var t := Next(s, CleanEnd(pid));
    forall p | p in s.registrations ensures RegistrationOk(t.rows, t.log, s.registrations[p]) {
      assert RegistrationOk(s.rows, s.log, s.registrations[p]);
      assert s.registrations[p].consumed ==> Locked(s, s.registrations[p].email);
    }
  }

  lemma CleanerInv(s: State, e: Event)
    requires Inv(s) && (e.CleanStart? || e.CleanDrop?)
    ensures Inv(Next(s, e))
  {
  }

  lemma NextInv(s: State, e: Event)
    requires Inv(s)
    ensures Inv(Next(s, e))
  {
    if Next(s, e) != s {
      match e
      case Tick(elapsed) => TickInv(s, elapsed);
      case SendCheck(_, _) => SendInv(s, e);
      case BeginSend(_) => SendInv(s, e);
      case DropSend(_) => SendInv(s, e);
      case Issue(pid, code, id) => IssuedInv(s, pid, code, id);
      case Reserve(pid, email, code) => ReserveInv(s, pid, email, code);
      case ReadClock(pid) => ReadInv(s, pid);
      case MarkVerified(pid) => MarkInv(s, pid);
      case HandTicket(pid) => HandInv(s, pid);
      case Create(pid) => CreateInv(s, pid);
      case CleanStart(_, _) => CleanerInv(s, e);
      case CleanEnd(pid) => CleanInv(s, pid);
      case CleanDrop(_) => CleanerInv(s, e);
      case DeleteAccount(_) =>
      case Begin(_, _, _) => RegisterInv(s, e);
      case Check(_) => RegisterInv(s, e);
      case Consume(_) => RegisterInv(s, e);
      case Abort(_) => RegisterInv(s, e);
    }
  }

  lemma {:induction false} RunInv(s: State, es: seq<Event>)
    requires Inv(s)
    ensures Inv(Run(s, es))
    decreases |es|
  {
    if es != [] {
      NextInv(s, es[0]);
      RunInv(Next(s, es[0]), es[1..]);
    }
  }
}
