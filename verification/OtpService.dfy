/**
 The three requests of registration by code: send, verify and register. Each method says what the
 other requests do before its statements; its promises hold for all of those schedules.
 */
module OtpService {
  import opened Options
  import opened FreshNumbers
  import opened OtpTables
  import opened OtpInvariant
  import opened OtpAccounts

  datatype SendResult = Queued | AlreadyRegistered | CoolingDown | SendWaits | TimedOut

  datatype VerifyResult = TicketFor(ticket: Ticket) | TooManyAttempts | InvalidOrExpired | InvalidCode | VerifyWaits

  datatype RegisterResult = Created | EmailInUse | NotVerified | RegisterWaits | RegisterTimedOut

  predicate Sends(e: Event, pid: Pid) {
    match e
    case SendCheck(p, _) => p == pid
    case BeginSend(p) => p == pid
    case Issue(p, _, _) => p == pid
    case DropSend(p) => p == pid
    case _ => false
  }

  predicate Verifies(e: Event, pid: Pid) {
    match e
    case Reserve(p, _, _) => p == pid
    case ReadClock(p) => p == pid
    case MarkVerified(p) => p == pid
    case HandTicket(p) => p == pid
    case _ => false
  }

  predicate Registers(e: Event, pid: Pid) {
    match e
    case Begin(p, _, _) => p == pid
    case Check(p) => p == pid
    case Consume(p) => p == pid
    case Create(p) => p == pid
    case Abort(p) => p == pid
    case _ => false
  }

  ghost predicate NoneSends(es: seq<Event>, pid: Pid) {
    forall e :: e in es ==> !Sends(e, pid)
  }

  ghost predicate NoneVerifies(es: seq<Event>, pid: Pid) {
    forall e :: e in es ==> !Verifies(e, pid)
  }

  ghost predicate NotVerifying(m: Meanwhile, pid: Pid) {
    NoneVerifies(m.first, pid) && NoneVerifies(m.second, pid) && NoneVerifies(m.third, pid)
  }

  ghost predicate NoneRegisters(es: seq<Event>, pid: Pid) {
    forall e :: e in es ==> !Registers(e, pid)
  }

  lemma SenderKeptNext(s: State, e: Event, pid: Pid)
    requires !Sends(e, pid) && pid in s.senders
    ensures pid in Next(s, e).senders && Next(s, e).senders[pid] == s.senders[pid]
  {
  }

  lemma {:induction false} SenderKept(s: State, es: seq<Event>, pid: Pid)
    requires Inv(s) && NoneSends(es, pid) && pid in s.senders
    ensures Inv(Run(s, es)) && pid in Run(s, es).senders && Run(s, es).senders[pid] == s.senders[pid]
    decreases |es|
  {
    if es != [] {
      SenderKeptNext(s, es[0], pid);
      NextInv(s, es[0]);
      SenderKept(Next(s, es[0]), es[1..], pid);
    }
  }

  lemma VerifierKeptNext(s: State, e: Event, pid: Pid)
    requires !Verifies(e, pid)
    ensures pid in Next(s, e).verifiers <==> pid in s.verifiers
    ensures pid in s.verifiers ==> Next(s, e).verifiers[pid] == s.verifiers[pid]
  {
    if !IsVerify(e) {
      VerifiersSame(s, e);
    }
  }

  lemma VerifiersSame(s: State, e: Event)
    requires !IsVerify(e)
    ensures Next(s, e).verifiers == s.verifiers
  {
    if IsRegister(e) || e.Create? {
      RegistrationsOnly(s, e);
    } else if IsSend(e) || e.Issue? {
      SendsOnly(s, e);
    }
  }

  lemma SendsOnly(s: State, e: Event)
    requires IsSend(e) || e.Issue?
    ensures Next(s, e).verifiers == s.verifiers
  {
  }

  lemma RegistrationsOnly(s: State, e: Event)
    requires IsRegister(e) || e.Create?
    ensures Next(s, e).verifiers == s.verifiers
  {
  }

  lemma {:induction false} VerifierKept(s: State, es: seq<Event>, pid: Pid)
    requires Inv(s) && NoneVerifies(es, pid)
    ensures Inv(Run(s, es)) && (pid in Run(s, es).verifiers <==> pid in s.verifiers)
    ensures pid in s.verifiers ==> Run(s, es).verifiers[pid] == s.verifiers[pid]
    decreases |es|
  {
    if es != [] {
      VerifierKeptNext(s, es[0], pid);
      NextInv(s, es[0]);
      VerifierKept(Next(s, es[0]), es[1..], pid);
    }
  }

  lemma RegistrationKeptNext(s: State, e: Event, pid: Pid)
    requires !Registers(e, pid)
    ensures pid in Next(s, e).registrations <==> pid in s.registrations
    ensures pid in s.registrations ==> Next(s, e).registrations[pid] == s.registrations[pid]
  {
    if e.Create? {
      OtherCreates(s, e.pid, pid);
    } else if !IsRegister(e) && !e.DeleteAccount? {
      Untouched(s, e);
    }
  }

  lemma OtherCreates(s: State, p: Pid, pid: Pid)
    requires p != pid
    ensures var t := Next(s, Create(p));
            && (pid in t.registrations <==> pid in s.registrations)
            && (pid in s.registrations ==> t.registrations[pid] == s.registrations[pid])
  {
  }

  lemma {:induction false} RegistrationKept(s: State, es: seq<Event>, pid: Pid)
    requires Inv(s) && NoneRegisters(es, pid)
    ensures Inv(Run(s, es)) && (pid in Run(s, es).registrations <==> pid in s.registrations)
    ensures pid in s.registrations ==> Run(s, es).registrations[pid] == s.registrations[pid]
    decreases |es|
  {
    if es != [] {
      RegistrationKeptNext(s, es[0], pid);
      NextInv(s, es[0]);
      RegistrationKept(Next(s, es[0]), es[1..], pid);
    }
  }

  lemma RunCons(s: State, e: Event, es: seq<Event>)
    ensures Run(s, [e] + es) == Run(Next(s, e), es)
  {
  }

  /** The history only grows. */
  ghost predicate Grown(a: Log, b: Log) {
    && a.issued <= b.issued && a.matched <= b.matched && a.tickets <= b.tickets
    && (forall i :: i in a.owner ==> i in b.owner && b.owner[i] == a.owner[i])
  }

  lemma IssueGrows(s: State, pid: Pid, code: Code, id: RowId)
    requires RowsOk(s.rows, s.log, s.clock)
    ensures Grown(s.log, Next(s, Issue(pid, code, id)).log)
  {
    if pid in s.senders && s.senders[pid].email in s.rows {
      assert RowOk(s.log, s.clock, s.senders[pid].email, s.rows[s.senders[pid].email]);
    }
  }

  lemma GrownNext(s: State, e: Event)
    requires RowsOk(s.rows, s.log, s.clock)
    ensures Grown(s.log, Next(s, e).log)
  {
    if e.Issue? {
      IssueGrows(s, e.pid, e.code, e.id);
    } else if !e.Reserve? && !e.HandTicket? {
      LogSame(s, e);
    }
  }

  lemma LogSame(s: State, e: Event)
    requires !e.Issue? && !e.Reserve? && !e.HandTicket?
    ensures Next(s, e).log == s.log
  {
  }

  lemma {:induction false} GrownRun(s: State, es: seq<Event>)
    requires Inv(s)
    ensures Grown(s.log, Run(s, es).log)
    decreases |es|
  {
    if es != [] {
      GrownNext(s, es[0]);
      NextInv(s, es[0]);
      GrownRun(Next(s, es[0]), es[1..]);
    }
  }

  // ---------------------------------------------------------------- send

  /** The state in which the transaction starts, and the one in which the code is to be stored; `first` and
      `second` are what the others do before each. */
  function AtBegin(a: State, pid: Pid, email: Email, first: seq<Event>): State {
    Run(Next(a, SendCheck(pid, email)), first)
  }

  function AtIssue(a: State, pid: Pid, email: Email, first: seq<Event>, second: seq<Event>): State {
    Run(Next(AtBegin(a, pid, email, first), BeginSend(pid)), second)
  }

  /** A new code, unused and unverified, dated from the start of the transaction. */
  predicate Stored(s: State, email: Email, code: Code, at: int) {
    && email in s.rows && s.rows[email].codeHash == CodeHash(email, code) && s.rows[email].attempts == 0
    && s.rows[email].sentAt == at && s.rows[email].expiresAt == at + s.cfg.expiry
    && s.rows[email].verifiedAt.None? && s.rows[email].consumedAt.None?
    && |Sent(s.log, email)| > 0 && Sent(s.log, email)[|Sent(s.log, email)| - 1] == at
  }

  /** How the transaction of a request for a code ends. */
  ghost predicate IssueAnswer(b: State, s: State, pid: Pid, code: Code, r: SendResult)
    requires Begun(b, pid)
  {
    var email, at := b.senders[pid].email, b.senders[pid].startedAt.value;
    if b.clock - at > b.cfg.timeout then r.TimedOut? && s == DropSender(b, pid)
    else if email in b.rows && Locked(b, email) then r.SendWaits? && s == b
    else if email in b.rows && b.rows[email].sentAt > at - b.cfg.cooldown then r.CoolingDown? && s == DropSender(b, pid)
    else r.Queued? && pid !in s.senders && Stored(s, email, code, at)
         && (email in b.rows ==> s.rows[email].id == b.rows[email].id)
  }

  lemma IssueEnds(b: State, pid: Pid, code: Code, id: RowId)
    requires Begun(b, pid) && CanIssue(b, b.senders[pid].email, id, b.senders[pid].startedAt.value)
    ensures IssueAnswer(b, Next(b, Issue(pid, code, id)), pid, code, Queued)
  {
  }

  /** What each answer to a request for a code means. */
  ghost predicate SendAnswer(a: State, s: State, pid: Pid, email: Email, code: Code,
                             first: seq<Event>, second: seq<Event>, r: SendResult) {
    var at, b := AtBegin(a, pid, email, first).clock, AtIssue(a, pid, email, first, second);
    if email in a.accounts then r.AlreadyRegistered? && s == a
    else && pid in b.senders && b.senders[pid] == Sender(email, Some(at))
         && IssueAnswer(b, s, pid, code, r)
  }

  // ---------------------------------------------------------------- verify

  /** The presented code is one that was issued to the address. */
  predicate Matched(log: Log, email: Email, code: Code) {
    CodeHash(email, code) in log.issued && CodeHash(email, code) in log.matched
  }

  /** The address has a code that may still be tried. */
  predicate Triable(s: State, email: Email) {
    && email in s.rows && s.rows[email].consumedAt.None? && s.clock < s.rows[email].expiresAt
    && s.rows[email].attempts < s.cfg.maxAttempts
  }

  /** What the others do while a code is presented: before the clock is read, before the update with that time
      runs, and before the stored time is read. */
  datatype Meanwhile = Meanwhile(first: seq<Event>, second: seq<Event>, third: seq<Event>)

  /** From the matched attempt to the read of the stored time: the update stores the time that was read after
      `first`, on the row as it is after `second`. */
  function MarkPath(s: State, pid: Pid, m: Meanwhile): State {
    Run(Next(Run(Next(Run(s, m.first), ReadClock(pid)), m.second), MarkVerified(pid)), m.third)
  }

  /** Where a request with the right code ends up. */
  function MatchedEnd(r: State, pid: Pid, email: Email, code: Code, m: Meanwhile): State {
    var a := Next(r, Reserve(pid, email, code));
    var b := if email in r.rows && r.rows[email].verifiedAt.Some? then a else MarkPath(a, pid, m);
    Next(b, HandTicket(pid))
  }

  /** The ticket names the stored row and its verification. */
  predicate HasTicket(s: State, email: Email, k: Ticket) {
    email in s.rows && s.rows[email].id == k.id && s.rows[email].verifiedAt == Some(k.at)
  }

  ghost predicate NoTry(es: seq<Event>, pid: Pid) {
    forall e :: e in es ==> !(e.Reserve? && e.pid == pid)
  }

  /** The request counts one attempt, with its first statement, and no other. */
  ghost predicate OneAttempt(a: State, trace: seq<Event>, pid: Pid, email: Email, code: Code) {
    && trace != [] && trace[0] == Reserve(pid, email, code)
    && NoTry(trace[1..], pid) && email in a.rows
    && Next(a, trace[0]).rows == a.rows[email := a.rows[email].(attempts := a.rows[email].attempts + 1)]
  }

  ghost predicate NoIssue(es: seq<Event>) {
    forall e :: e in es ==> !e.Issue?
  }

  /** The right code was presented in `a`: a verification that was stored then is the answer, else what is stored
      when it is read again; and there is one if the row is still there and its code was not replaced meanwhile. */
  ghost predicate MatchedAnswer(a: State, b: State, pid: Pid, email: Email, code: Code, m: Meanwhile, r: VerifyResult)
    requires email in a.rows
  {
    var row := a.rows[email];
    && b == MatchedEnd(a, pid, email, code, m) && pid !in b.verifiers && Matched(b.log, email, code)
    && (if row.verifiedAt.Some? then r == TicketFor(Ticket(row.id, row.verifiedAt.value))
        else if email in b.rows && b.rows[email].id == row.id && b.rows[email].verifiedAt.Some?
        then r == TicketFor(Ticket(row.id, b.rows[email].verifiedAt.value))
        else r.InvalidOrExpired?)
    && (r.TicketFor? ==> r.ticket in b.log.tickets && HasTicket(b, email, r.ticket))
    && (email in b.rows && b.rows[email].id == row.id && NoIssue(m.third) ==> r.TicketFor?)
  }

  /** Exactly when a presented code is refused, waits for the row or is tried, and the answer in each case. */
  ghost predicate VerifyAnswer(a: State, trace: seq<Event>, b: State, pid: Pid, email: Email, code: Code,
                               m: Meanwhile, r: VerifyResult) {
    if !Triable(a, email) then
      && trace == m.first && b == Run(a, m.first)
      && r == if email in b.rows && b.rows[email].consumedAt.None? && b.clock < b.rows[email].expiresAt
                 && b.rows[email].attempts >= b.cfg.maxAttempts then TooManyAttempts else InvalidOrExpired
    else if Locked(a, email) then r.VerifyWaits? && trace == [] && b == a
    else TryAnswer(a, trace, b, pid, email, code, m, r)
  }

  /** The code is tried: one attempt is counted, whatever the code is. */
  ghost predicate TryAnswer(a: State, trace: seq<Event>, b: State, pid: Pid, email: Email, code: Code, m: Meanwhile,
                            r: VerifyResult) {
    && OneAttempt(a, trace, pid, email, code)
    && if a.rows[email].codeHash != CodeHash(email, code) then r.InvalidCode? && trace[1..] == [] && b == Next(a, trace[0])
       else MatchedAnswer(a, b, pid, email, code, m, r)
  }

  /** A matching attempt, from the reserve to the answer. */
  lemma MatchedAttempt(r: State, pid: Pid, email: Email, code: Code)
    requires Inv(r) && pid !in r.verifiers && Triable(r, email) && !Locked(r, email)
    requires r.rows[email].codeHash == CodeHash(email, code)
    ensures var a := Next(r, Reserve(pid, email, code));
            && Inv(a) && pid in a.verifiers
            && a.verifiers[pid] == Verifier(email, r.rows[email].id, r.rows[email].verifiedAt, None, false)
            && Matched(a.log, email, code)
  {
    NextInv(r, Reserve(pid, email, code));
    assert RowOk(r.log, r.clock, email, r.rows[email]);
  }

  /** What is known of a handed ticket. */
  predicate Handed(t: State, v: Verifier, at: Option<int>) {
    at.Some? ==> Ticket(v.id, at.value) in t.log.tickets && v.id in t.log.owner && t.log.owner[v.id] == v.email
  }

  lemma HandHands(s: State, pid: Pid)
    requires pid in s.verifiers && s.verifiers[pid].id in s.log.owner
    requires s.log.owner[s.verifiers[pid].id] == s.verifiers[pid].email
    ensures var t := Hand(s, pid);
            pid !in t.verifiers && t.rows == s.rows && Handed(t, s.verifiers[pid], AnswerTime(s, s.verifiers[pid]))
  {
  }

  lemma HandedTicket(s: State, pid: Pid)
    requires Inv(s) && pid in s.verifiers && (s.verifiers[pid].seen.Some? || s.verifiers[pid].marked)
    ensures var t, v := Next(s, HandTicket(pid)), s.verifiers[pid];
            Inv(t) && pid !in t.verifiers && t.rows == s.rows && Handed(t, v, AnswerTime(s, v))
  {
    assert VerifierOk(s.log, s.clock, s.verifiers[pid]);
    HandInv(s, pid);
    HandHands(s, pid);
  }

  lemma ReadVerifier(s: State, pid: Pid)
    requires Inv(s) && pid in s.verifiers && s.verifiers[pid].seen.None? && s.verifiers[pid].at.None?
    ensures var t := Next(s, ReadClock(pid));
            Inv(t) && pid in t.verifiers && t.verifiers[pid] == s.verifiers[pid].(at := Some(s.clock))
  {
    NextInv(s, ReadClock(pid));
  }

  lemma MarkedVerifier(s: State, pid: Pid)
    requires Inv(s) && CanMark(s, pid)
    ensures var t := Next(s, MarkVerified(pid));
            Inv(t) && pid in t.verifiers && t.verifiers[pid] == s.verifiers[pid].(marked := true)
  {
    NextInv(s, MarkVerified(pid));
  }

  /** An attempt that may be made is counted, and nothing else changes in the table. */
  lemma AttemptCounts(a: State, pid: Pid, email: Email, code: Code)
    requires pid !in a.verifiers && Triable(a, email) && !Locked(a, email)
    ensures Next(a, Reserve(pid, email, code)).rows
         == a.rows[email := a.rows[email].(attempts := a.rows[email].attempts + 1)]
  {
  }

  lemma WrongCode(a: State, pid: Pid, email: Email, code: Code, m: Meanwhile)
    requires Inv(a) && pid !in a.verifiers && Triable(a, email) && !Locked(a, email)
    requires a.rows[email].codeHash != CodeHash(email, code)
    ensures var b, trace := Next(a, Reserve(pid, email, code)), [Reserve(pid, email, code)];
            Inv(b) && b == Run(a, trace) && TryAnswer(a, trace, b, pid, email, code, m, InvalidCode)
  {
    NextInv(a, Reserve(pid, email, code));
    AttemptCounts(a, pid, email, code);
    RunCons(a, Reserve(pid, email, code), []);
    assert [Reserve(pid, email, code)] + [] == [Reserve(pid, email, code)];
  }

  /** Attempts of a code are counted by nothing else. */
  lemma OnlyTriesCount(s: State, e: Event, email: Email)
    requires !e.Reserve? && !e.Issue? && email in s.rows && email in Next(s, e).rows
    ensures Next(s, e).rows[email].attempts == s.rows[email].attempts
  {
  }

  /** While no code is issued rows only disappear, and keep their code and their verification. */
  predicate RowStays(s: State, t: State, email: Email) {
    email in t.rows ==>
      && email in s.rows && t.rows[email].id == s.rows[email].id && t.rows[email].codeHash == s.rows[email].codeHash
      && (s.rows[email].verifiedAt.Some? ==> t.rows[email].verifiedAt == s.rows[email].verifiedAt)
  }

  lemma RowStaysNext(s: State, e: Event, email: Email)
    requires !e.Issue?
    ensures RowStays(s, Next(s, e), email)
  {
  }

  lemma {:induction false} RowStaysRun(s: State, es: seq<Event>, email: Email)
    requires NoIssue(es)
    ensures RowStays(s, Run(s, es), email)
    decreases |es|
  {
    if es != [] {
      assert es[0] in es;
      RowStaysNext(s, es[0], email);
      RowStaysRun(Next(s, es[0]), es[1..], email);
    }
  }

  /** Correct submits, one after the other or at once, get the same ticket while the code is not replaced. */
  lemma TicketsAgree(b: State, es: seq<Event>, email: Email, k: Ticket, l: Ticket)
    requires HasTicket(b, email, k) && HasTicket(Run(b, es), email, l) && NoIssue(es)
    ensures k == l
  {
    RowStaysRun(b, es, email);
  }

  /** After the update the row, if it is there, is verified, and stays so unless its code is replaced. */
  lemma MarkLasts(y: State, pid: Pid, third: seq<Event>)
    requires CanMark(y, pid) && NoIssue(third)
    ensures var v, b := y.verifiers[pid], Run(Next(y, MarkVerified(pid)), third);
            v.email in b.rows && b.rows[v.email].id == v.id ==> b.rows[v.email].verifiedAt.Some?
  {
    RowStaysRun(Next(y, MarkVerified(pid)), third, y.verifiers[pid].email);
  }

  class OtpStore {
    var s: State

    constructor (cfg: Config)
      ensures s == Init(cfg) && Inv(s)
    {
      s := Init(cfg);
    }

    /** `sendCode`. The mail intent is recorded with the row. */
    method SendCode(pid: Pid, email: Email, code: Code, first: seq<Event>, second: seq<Event>)
      returns (r: SendResult, ghost trace: seq<Event>)
      requires Inv(s) && pid !in s.senders && NoneSends(first, pid) && NoneSends(second, pid)
      modifies this
      ensures Inv(s) && s == Run(old(s), trace)
      ensures SendAnswer(old(s), s, pid, email, code, first, second, r)
    {
      if email in s.accounts {
        return AlreadyRegistered, [];
      }
      trace := BeginSending(pid, email, first, second);
      ghost var end;
      r, end := IssueInTime(pid, code);
      RunConcat(old(s), trace, end);
      trace := trace + end;
    }

    /** The transaction stores the code, or finds that it must not. */
    method IssueInTime(pid: Pid, code: Code) returns (r: SendResult, ghost end: seq<Event>)
      requires Inv(s) && Begun(s, pid)
      modifies this
      ensures Inv(s) && s == Run(old(s), end)
      ensures IssueAnswer(old(s), s, pid, code, r)
    {
      var email, at := s.senders[pid].email, s.senders[pid].startedAt.value;
      if email in s.rows && Locked(s, email) && s.clock - at <= s.cfg.timeout {
        return SendWaits, [];
      }
      var id := FreshNumber(s.log.owner.Keys);
      var e := if CanIssue(s, email, id, at) then Issue(pid, code, id) else DropSend(pid);
      r := if e.Issue? then Queued else if s.clock - at > s.cfg.timeout then TimedOut else CoolingDown;
      NextInv(s, e);
      if e.Issue? {
        IssueEnds(s, pid, code, id);
      }
      RunCons(s, e, []);
      s := Next(s, e);
      end := [e] + [];
    }

    /** The account check and the start of the transaction. */
    method BeginSending(pid: Pid, email: Email, first: seq<Event>, second: seq<Event>) returns (ghost trace: seq<Event>)
      requires Inv(s) && pid !in s.senders && email !in s.accounts && NoneSends(first, pid) && NoneSends(second, pid)
      modifies this
      ensures Inv(s) && s == Run(old(s), trace) && s == AtIssue(old(s), pid, email, first, second)
      ensures pid in s.senders && s.senders[pid] == Sender(email, Some(AtBegin(old(s), pid, email, first).clock))
    {
      ghost var check := SendCheck(pid, email);
      NextInv(s, check);
      RunCons(s, check, first);
      s := Next(s, SendCheck(pid, email));
      SenderKept(s, first, pid);
      s := Run(s, first);
      NextInv(s, BeginSend(pid));
      RunSnoc(old(s), [check] + first, BeginSend(pid));
      s := Next(s, BeginSend(pid));
      SenderKept(s, second, pid);
      RunConcat(old(s), [check] + first + [BeginSend(pid)], second);
      s := Run(s, second);
      trace := [check] + first + [BeginSend(pid)] + second;
    }

    /** `verifyCode`: the attempt is counted before the code is compared. */
    method VerifyCode(pid: Pid, email: Email, code: Code, m: Meanwhile)
      returns (r: VerifyResult, ghost trace: seq<Event>)
      requires Inv(s) && pid !in s.verifiers && NotVerifying(m, pid)
      modifies this
      ensures Inv(s) && s == Run(old(s), trace)
      ensures VerifyAnswer(old(s), trace, s, pid, email, code, m, r)
    {
      if email !in s.rows || s.rows[email].consumedAt.Some? || s.rows[email].expiresAt <= s.clock
         || s.rows[email].attempts >= s.cfg.maxAttempts {
        r := RefuseTry(pid, email, m.first);
        return r, m.first;
      }
      if Locked(s, email) {
        return VerifyWaits, [];
      }
      r, trace := TryCode(pid, email, code, m);
    }

    /** Counts the attempt and compares the code. */
    method TryCode(pid: Pid, email: Email, code: Code, m: Meanwhile) returns (r: VerifyResult, ghost trace: seq<Event>)
      requires Inv(s) && pid !in s.verifiers && NotVerifying(m, pid) && Triable(s, email) && !Locked(s, email)
      modifies this
      ensures Inv(s) && s == Run(old(s), trace)
      ensures TryAnswer(old(s), trace, s, pid, email, code, m, r)
    {
      var matches := s.rows[email].codeHash == CodeHash(email, code);
      if !matches {
        WrongCode(s, pid, email, code, m);
        s := Next(s, Reserve(pid, email, code));
        return InvalidCode, [Reserve(pid, email, code)];
      }
      AttemptCounts(s, pid, email, code);
      MatchedAttempt(s, pid, email, code);
      s := Next(s, Reserve(pid, email, code));
      r, trace := AnswerMatched(old(s), pid, email, code, m);
      RunCons(old(s), Reserve(pid, email, code), trace);
      assert ([Reserve(pid, email, code)] + trace)[1..] == trace;
      trace := [Reserve(pid, email, code)] + trace;
    }

    /** No attempt was counted: the row is read to tell the two refusals apart. */
    method RefuseTry(ghost pid: Pid, email: Email, first: seq<Event>) returns (r: VerifyResult)
      requires Inv(s) && NoneVerifies(first, pid)
      modifies this
      ensures Inv(s) && s == Run(old(s), first)
      ensures r == if email in s.rows && s.rows[email].consumedAt.None? && s.clock < s.rows[email].expiresAt
                      && s.rows[email].attempts >= s.cfg.maxAttempts then TooManyAttempts else InvalidOrExpired
    {
      VerifierKept(s, first, pid);
      s := Run(s, first);
      if email in s.rows && s.rows[email].consumedAt.None? && s.clock < s.rows[email].expiresAt
         && s.rows[email].attempts >= s.cfg.maxAttempts {
        return TooManyAttempts;
      }
      return InvalidOrExpired;
    }

    /** The code matched: store the verification unless one was read, and hand out its ticket. */
    method AnswerMatched(ghost a: State, pid: Pid, email: Email, code: Code, m: Meanwhile)
      returns (o: VerifyResult, ghost trace: seq<Event>)
      requires Inv(s) && pid in s.verifiers && Matched(s.log, email, code) && email in a.rows && email in s.rows
      requires s == Next(a, Reserve(pid, email, code)) && s.rows[email].verifiedAt == a.rows[email].verifiedAt
      requires s.rows[email].id == a.rows[email].id
      requires s.verifiers[pid] == Verifier(email, a.rows[email].id, a.rows[email].verifiedAt, None, false)
      requires NotVerifying(m, pid)
      modifies this
      ensures Inv(s) && s == Run(old(s), trace) && NoTry(trace, pid)
      ensures MatchedAnswer(a, s, pid, email, code, m, o)
    {
      trace := [];
      if s.verifiers[pid].seen.None? {
        trace := MarkAndWait(pid, m);
      }
      GrownRun(old(s), trace);
      HandedTicket(s, pid);
      RunSnoc(old(s), trace, HandTicket(pid));
      GrownNext(s, HandTicket(pid));
      var v := s.verifiers[pid];
      var at := AnswerTime(s, v);
      s := Next(s, HandTicket(pid));
      trace := trace + [HandTicket(pid)];
      return if at.Some? then TicketFor(Ticket(v.id, at.value)) else InvalidOrExpired, trace;
    }

    /** `markVerified`: read the clock, store that time if none is stored, and wait for the read of the row. */
    method MarkAndWait(pid: Pid, m: Meanwhile) returns (ghost trace: seq<Event>)
      requires Inv(s) && pid in s.verifiers && NotVerifying(m, pid)
      requires s.verifiers[pid].seen.None? && s.verifiers[pid].at.None? && !s.verifiers[pid].marked
      modifies this
      ensures Inv(s) && s == Run(old(s), trace) && pid in s.verifiers && s == MarkPath(old(s), pid, m) && NoTry(trace, pid)
      ensures s.verifiers[pid] == old(s).verifiers[pid].(at := Some(Run(old(s), m.first).clock), marked := true)
      ensures var v := s.verifiers[pid];
              NoIssue(m.third) && v.email in s.rows && s.rows[v.email].id == v.id ==> s.rows[v.email].verifiedAt.Some?
    {
      VerifierKept(s, m.first, pid);
      ReadVerifier(Run(s, m.first), pid);
      RunSnoc(s, m.first, ReadClock(pid));
      s := Next(Run(s, m.first), ReadClock(pid));
      trace := m.first + [ReadClock(pid)];
      ghost var rest := MarkLater(pid, m.second, m.third);
      RunConcat(old(s), trace, rest);
      trace := trace + rest;
    }

    /** The update with the time read before. */
    method MarkLater(pid: Pid, second: seq<Event>, third: seq<Event>) returns (ghost trace: seq<Event>)
      requires Inv(s) && CanMark(s, pid) && NoneVerifies(second, pid) && NoneVerifies(third, pid)
      modifies this
      ensures Inv(s) && s == Run(old(s), trace) && pid in s.verifiers && NoTry(trace, pid)
      ensures s == Run(Next(Run(old(s), second), MarkVerified(pid)), third)
      ensures s.verifiers[pid] == old(s).verifiers[pid].(marked := true)
      ensures var v := s.verifiers[pid];
              NoIssue(third) && v.email in s.rows && s.rows[v.email].id == v.id ==> s.rows[v.email].verifiedAt.Some?
    {
      ghost var b := Run(s, second);
      VerifierKept(s, second, pid);
      MarkedVerifier(b, pid);
      VerifierKept(Next(b, MarkVerified(pid)), third, pid);
      RunSnoc(s, second, MarkVerified(pid));
      RunConcat(s, second + [MarkVerified(pid)], third);
      if NoIssue(third) {
        MarkLasts(b, pid, third);
      }
      s := Run(Next(Run(s, second), MarkVerified(pid)), third);
      trace := second + [MarkVerified(pid)] + third;
    }

    /** `register` in code mode: look for an account, consume the verified code, insert the account,
        all in one transaction. `before`, `first` and `second` are what the others do before each. */
    method Register(pid: Pid, email: Email, ticket: Option<Ticket>, before: seq<Event>, first: seq<Event>,
                    second: seq<Event>)
      returns (r: RegisterResult, ghost trace: seq<Event>)
      requires Inv(s) && pid !in s.registrations
      requires NoneRegisters(before, pid) && NoneRegisters(first, pid) && NoneRegisters(second, pid)
      modifies this
      ensures Inv(s) && s == Run(old(s), trace)
      ensures RegisterAnswer(old(s), s, pid, email, ticket, before, first, second, r)
      ensures r.Created? && Single(old(s)) && SafeRun(old(s), trace) ==> s.accounts[email] == 1
    {
      if ticket.None? || ticket.value !in s.log.tickets {
        RunInv(s, before);
        s := Run(s, before);
        return if email in s.accounts then EmailInUse else NotVerified, before;
      }
      var k := ticket.value;
      NextInv(s, Begin(pid, email, k));
      RunCons(s, Begin(pid, email, k), []);
      s := Next(s, Begin(pid, email, k));
      r, trace := CheckAndConsume(pid, before, first, second);
      RunCons(old(s), Begin(pid, email, k), trace);
      trace := [Begin(pid, email, k)] + trace;
      if r.Created? {
        OnlyAccount(old(s), trace, email);
      }
    }

    method CheckAndConsume(pid: Pid, before: seq<Event>, first: seq<Event>, second: seq<Event>)
      returns (r: RegisterResult, ghost trace: seq<Event>)
      requires Inv(s) && pid in s.registrations && !s.registrations[pid].checked && !s.registrations[pid].consumed
      requires NoneRegisters(before, pid) && NoneRegisters(first, pid) && NoneRegisters(second, pid)
      modifies this
      ensures Inv(s) && s == Run(old(s), trace)
      ensures CheckAnswer(old(s), s, pid, before, first, second, r)
      ensures r.Created? ==> old(s).registrations[pid].email in s.accounts
    {
      RegistrationKept(s, before, pid);
      s := Run(s, before);
      if !InTime(s, s.registrations[pid]) {
        r, trace := TimesOut(pid);
        RunConcat(old(s), before, trace);
        return r, before + trace;
      }
      CheckDecides(s, pid);
      RunSnoc(old(s), before, Check(pid));
      s := Next(s, Check(pid));
      trace := before + [Check(pid)];
      if pid !in s.registrations {
        return EmailInUse, trace;
      }
      ghost var rest;
      r, rest := ConsumeAndCreate(pid, first, second);
      RunConcat(old(s), trace, rest);
      trace := trace + rest;
    }

    /** The transaction has lasted too long and is rolled back. */
    method TimesOut(pid: Pid) returns (r: RegisterResult, ghost trace: seq<Event>)
      requires Inv(s)
      modifies this
      ensures Inv(s) && s == Run(old(s), trace) && s == DropRegistration(old(s), pid) && r.RegisterTimedOut?
    {
      NextInv(s, Abort(pid));
      RunCons(s, Abort(pid), []);
      s := Next(s, Abort(pid));
      return RegisterTimedOut, [Abort(pid)] + [];
    }

    method ConsumeAndCreate(pid: Pid, first: seq<Event>, second: seq<Event>)
      returns (r: RegisterResult, ghost trace: seq<Event>)
      requires Inv(s) && pid in s.registrations && s.registrations[pid].checked && !s.registrations[pid].consumed
      requires NoneRegisters(first, pid) && NoneRegisters(second, pid)
      modifies this
      ensures Inv(s) && s == Run(old(s), trace)
      ensures ConsumeAnswer(old(s), s, pid, first, second, r)
    {
      RegistrationKept(s, first, pid);
      s := Run(s, first);
      if !InTime(s, s.registrations[pid]) {
        r, trace := TimesOut(pid);
        RunConcat(old(s), first, trace);
        return r, first + trace;
      }
      if Finds(s, s.registrations[pid]) && Locked(s, s.registrations[pid].email) {
        return RegisterWaits, first;
      }
      ConsumeDecides(s, pid);
      RunSnoc(old(s), first, Consume(pid));
      s := Next(s, Consume(pid));
      trace := first + [Consume(pid)];
      if pid !in s.registrations {
        return NotVerified, trace;
      }
      ghost var rest;
      r, rest := InsertAccount(pid, second);
      RunConcat(old(s), trace, rest);
      trace := trace + rest;
    }

    method InsertAccount(pid: Pid, second: seq<Event>) returns (r: RegisterResult, ghost trace: seq<Event>)
      requires Inv(s) && pid in s.registrations && s.registrations[pid].consumed && NoneRegisters(second, pid)
      modifies this
      ensures Inv(s) && s == Run(old(s), trace)
      ensures InsertAnswer(old(s), s, pid, second, r)
    {
      RegistrationKept(s, second, pid);
      s := Run(s, second);
      if !InTime(s, s.registrations[pid]) {
        r, trace := TimesOut(pid);
        RunConcat(old(s), second, trace);
        return r, second + trace;
      }
      CreatedAccount(s, pid);
      RunSnoc(old(s), second, Create(pid));
      s := Next(s, Create(pid));
      return Created, second + [Create(pid)];
    }
  }

  /** The account exists, its address was proven, and the ticket's verification is consumed. */
  ghost predicate Made(s: State, pid: Pid, email: Email, ticket: Ticket) {
    && email in s.accounts && Proven(s.log, email) && pid !in s.registrations
    && email in s.rows && s.rows[email].consumedAt.Some? && s.rows[email].verifiedAt.Some?
    && ticket == Ticket(s.rows[email].id, s.rows[email].verifiedAt.value)
  }

  lemma OnlyAccount(a: State, es: seq<Event>, email: Email)
    requires Inv(a) && email in Run(a, es).accounts
    ensures Single(a) && SafeRun(a, es) ==> Run(a, es).accounts[email] == 1
  {
    if Single(a) && SafeRun(a, es) {
      RunSingle(a, es);
    }
  }

  lemma CheckDecides(s: State, pid: Pid)
    requires Inv(s) && CanCheck(s, pid)
    ensures var t := Next(s, Check(pid));
            && Inv(t)
            && (if s.registrations[pid].email in s.accounts then t == DropRegistration(s, pid)
                else t == s.(registrations := s.registrations[pid := s.registrations[pid].(checked := true)]))
  {
    NextInv(s, Check(pid));
  }

  lemma ConsumeDecides(s: State, pid: Pid)
    requires Inv(s) && CanConsume(s, pid)
    ensures var t := Next(s, Consume(pid));
            && Inv(t)
            && (if Redeems(s, s.registrations[pid])
                then t == s.(registrations := s.registrations[pid := s.registrations[pid].(consumed := true)])
                else t == DropRegistration(s, pid))
  {
    NextInv(s, Consume(pid));
  }

  lemma CreatedAccount(s: State, pid: Pid)
    requires Inv(s) && pid in s.registrations && s.registrations[pid].consumed && InTime(s, s.registrations[pid])
    ensures var t, r := Next(s, Create(pid)), s.registrations[pid];
            Inv(t) && Made(t, pid, r.email, r.ticket) && t.accounts == s.accounts + multiset{r.email}
  {
    NextInv(s, Create(pid));
    assert RegistrationOk(s.rows, s.log, s.registrations[pid]);
    assert RowOk(s.log, s.clock, s.registrations[pid].email, s.rows[s.registrations[pid].email]);
  }

  /** The insert: too late, or the account is made. */
  ghost predicate InsertAnswer(a: State, s: State, pid: Pid, second: seq<Event>, r: RegisterResult)
    requires pid in a.registrations
  {
    var c, reg := Run(a, second), a.registrations[pid];
    if c.clock - reg.startedAt > c.cfg.timeout then r.RegisterTimedOut? && s == DropRegistration(c, pid)
    else r.Created? && Made(s, pid, reg.email, reg.ticket) && s.accounts == c.accounts + multiset{reg.email}
  }

  /** The consume decides: it is too late; finds no unconsumed code verified within the window; waits for that
      row; finds that the ticket is not of this verification; or redeems it. */
  ghost predicate ConsumeAnswer(a: State, s: State, pid: Pid, first: seq<Event>, second: seq<Event>, r: RegisterResult)
    requires pid in a.registrations
  {
    var c, reg := Run(a, first), a.registrations[pid];
    if c.clock - reg.startedAt > c.cfg.timeout then r.RegisterTimedOut? && s == DropRegistration(c, pid)
    else if reg.email !in c.rows || c.rows[reg.email].consumedAt.Some? || c.rows[reg.email].verifiedAt.None?
            || c.rows[reg.email].verifiedAt.value <= reg.startedAt - c.cfg.window
    then r.NotVerified? && s == DropRegistration(c, pid)
    else if Locked(c, reg.email) then r.RegisterWaits? && s == c
    else if reg.ticket.id != c.rows[reg.email].id || reg.ticket.at != c.rows[reg.email].verifiedAt.value
    then r.NotVerified? && s == DropRegistration(c, pid)
    else InsertAnswer(c.(registrations := c.registrations[pid := reg.(consumed := true)]), s, pid, second, r)
  }

  ghost predicate CheckAnswer(a: State, s: State, pid: Pid, before: seq<Event>, first: seq<Event>, second: seq<Event>,
                              r: RegisterResult)
    requires pid in a.registrations
  {
    var b, reg := Run(a, before), a.registrations[pid];
    if b.clock - reg.startedAt > b.cfg.timeout then r.RegisterTimedOut? && s == DropRegistration(b, pid)
    else if reg.email in b.accounts then r.EmailInUse? && s == DropRegistration(b, pid)
    else ConsumeAnswer(b.(registrations := b.registrations[pid := reg.(checked := true)]), s, pid, first, second, r)
  }

  /** What each answer of a registration means: exactly when it is refused, and what it made. */
  ghost predicate RegisterAnswer(a: State, s: State, pid: Pid, email: Email, ticket: Option<Ticket>,
                                 before: seq<Event>, first: seq<Event>, second: seq<Event>, r: RegisterResult)
    requires pid !in a.registrations
  {
    if ticket.None? || ticket.value !in a.log.tickets then
      s == Run(a, before) && (if email in s.accounts then r.EmailInUse? else r.NotVerified?)
    else CheckAnswer(Next(a, Begin(pid, email, ticket.value)), s, pid, before, first, second, r)
  }
}
