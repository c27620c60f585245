/**
 Accounts made from registration codes: each address was proven first, and no address gets two active
 accounts unless a code is replaced and verified again, under the time of the first verification, while a
 registration is in flight. The condition is exact.
 */
module OtpAccounts {
  import opened Options
  import opened OtpTables
  import opened OtpInvariant

  /** An account appears only for an address to which some code was issued that had, by then, been
      presented correctly: in every reachable state, whatever request runs next. */
  lemma AccountNeedsMatchedCode(cfg: Config, es: seq<Event>, next: Event, email: Email)
    requires var s := Run(Init(cfg), es); Next(s, next).accounts[email] > s.accounts[email]
    ensures var s := Run(Init(cfg), es);
            next.Create? && CanCreate(s, next.pid) && s.registrations[next.pid].email == email && Proven(s.log, email)
  {
    var s := Run(Init(cfg), es);
    RunInv(Init(cfg), es);
    OnlyCreateAdds(s, next, email);
    assert RegistrationOk(s.rows, s.log, s.registrations[next.pid]);
    assert RowOk(s.log, s.clock, email, s.rows[email]);
  }

  lemma OnlyCreateAdds(s: State, e: Event, email: Email)
    requires Next(s, e).accounts[email] > s.accounts[email]
    ensures e.Create? && CanCreate(s, e.pid) && s.registrations[e.pid].email == email
  {
    if !e.Create? && !e.DeleteAccount? { AccountsSame(s, e); }
  }

  lemma AccountsSame(s: State, e: Event)
    requires !e.Create? && !e.DeleteAccount?
    ensures Next(s, e).accounts == s.accounts
  {
    if !IsRegister(e) { Untouched(s, e); }
  }

  // ---------------------------------------------------------------- at most one account

  /** The start of a sender's transaction if it issues in this instant. */
  function StartAt(x: Sender, clock: int): int {
    if x.startedAt.Some? then x.startedAt.value else clock
  }

  /** The sender is past its account check and can replace the code `row` in this instant. */
  predicate Ready(cfg: Config, clock: int, row: Row, x: Sender) {
    row.sentAt <= StartAt(x, clock) - cfg.cooldown && clock - StartAt(x, clock) <= cfg.timeout
  }

  /** It can replace the code now, or begin its transaction later and replace it by the deadline. */
  predicate ReadyBy(cfg: Config, clock: int, row: Row, x: Sender, deadline: int) {
    Ready(cfg, clock, row, x) || (x.startedAt.None? && row.sentAt + cfg.cooldown <= deadline)
  }

  predicate NoneReady(cfg: Config, clock: int, row: Row, senders: map<Pid, Sender>, email: Email) {
    forall q :: q in senders && senders[q].email == email ==> !Ready(cfg, clock, row, senders[q])
  }

  predicate NoneReadyBy(cfg: Config, clock: int, row: Row, senders: map<Pid, Sender>, email: Email, deadline: int) {
    forall q :: q in senders && senders[q].email == email ==> !ReadyBy(cfg, clock, row, senders[q], deadline)
  }

  /** The verification in flight has read the ticket's time for the ticket's row, or may read it now. */
  predicate Stores(clock: int, v: Verifier, ticket: Ticket) {
    && v.id == ticket.id && v.seen.None? && !v.marked
    && (if v.at.Some? then v.at.value == ticket.at else clock <= ticket.at)
  }

  predicate NoneStores(clock: int, verifiers: map<Pid, Verifier>, ticket: Ticket) {
    forall q :: q in verifiers ==> !Stores(clock, verifiers[q], ticket)
  }

  function Deadline(cfg: Config, r: Registration): int {
    r.startedAt + cfg.timeout
  }

  /** The registration is not too late to redeem a verification of its ticket's time. */
  predicate Alive(cfg: Config, clock: int, r: Registration) {
    clock <= Deadline(cfg, r) && r.startedAt - cfg.window < r.ticket.at
  }

  /** Nobody will give the consumed row a verification that `r` could redeem: no request in flight can replace
      the code in time, or the ticket's time cannot be stored again, neither by a verification in flight nor, in
      this very instant, by one of a new code. */
  predicate Unrepeatable(s: State, row: Row, r: Registration) {
    || NoneReadyBy(s.cfg, s.clock, row, s.senders, r.email, Deadline(s.cfg, r))
    || (&& NoneStores(s.clock, s.verifiers, r.ticket)
        && (r.ticket.at < s.clock || NoneReady(s.cfg, s.clock, row, s.senders, r.email)))
  }

  /** The insert of `pid` leaves the registration `other` without anything to redeem. */
  predicate SafeFrom(s: State, pid: Pid, other: Pid)
    requires CanCreate(s, pid) && other in s.registrations
  {
    var c, r := s.registrations[pid], s.registrations[other];
    && other != pid && r.email == c.email && r.checked && r.ticket.id == s.rows[c.email].id && Alive(s.cfg, s.clock, r)
    ==> Unrepeatable(s, s.rows[c.email], r)
  }

  predicate Safe(s: State, e: Event) {
    e.Create? && CanCreate(s, e.pid) ==> forall p :: p in s.registrations ==> SafeFrom(s, e.pid, p)
  }

  ghost predicate SafeRun(s: State, es: seq<Event>)
    decreases |es|
  {
    es == [] || (Safe(s, es[0]) && SafeRun(Next(s, es[0]), es[1..]))
  }

  /** The row can no longer be redeemed by `r`, now or ever. */
  predicate Spent(s: State, row: Row, r: Registration) {
    || !Alive(s.cfg, s.clock, r)
    || (row.consumedAt.Some? && Unrepeatable(s, row, r))
    || (r.ticket.at < s.clock && NoneStores(s.clock, s.verifiers, r.ticket) && row.verifiedAt != Some(r.ticket.at))
  }

  /** A registration that found no account before one was created has nothing to redeem; one that has
      consumed its code is the only one. */
  predicate Harmless(s: State, r: Registration) {
    r.email in s.accounts ==>
      && !r.consumed
      && (r.checked && r.email in s.rows && s.rows[r.email].id == r.ticket.id ==> Spent(s, s.rows[r.email], r))
  }

  ghost predicate Single(s: State) {
    && (forall p :: p in s.registrations ==> Harmless(s, s.registrations[p]))
    && (forall e :: s.accounts[e] <= 1)
  }

  predicate IsVerify(e: Event) {
    e.Reserve? || e.ReadClock? || e.MarkVerified? || e.HandTicket?
  }

  predicate IsClean(e: Event) {
    e.CleanStart? || e.CleanEnd? || e.CleanDrop?
  }

  predicate IsRegister(e: Event) {
    e.Begin? || e.Check? || e.Consume? || e.Abort?
  }

  lemma TickHarmless(s: State, elapsed: nat, r: Registration)
    requires Harmless(s, r) && r.ticket.at <= s.clock
    ensures Harmless(Next(s, Tick(elapsed)), r)
  {
  }

  /** No sender gets past its check for an address that has an account. */
  lemma SendHarmless(s: State, e: Event, r: Registration)
    requires IsSend(e) && Harmless(s, r)
    ensures Harmless(Next(s, e), r)
  {
  }

  lemma IssueHarmless(s: State, pid: Pid, code: Code, id: RowId, r: Registration)
    requires Harmless(s, r) && r.ticket.id in s.log.owner
    ensures Harmless(Next(s, Issue(pid, code, id)), r)
  {
  }

  lemma ReserveHarmless(s: State, pid: Pid, email: Email, code: Code, r: Registration)
    requires Harmless(s, r) && RowsOk(s.rows, s.log, s.clock)
    ensures Harmless(Next(s, Reserve(pid, email, code)), r)
  {
  }

  lemma MarkHarmless(s: State, pid: Pid, r: Registration)
    requires Harmless(s, r)
    ensures Harmless(Next(s, MarkVerified(pid)), r)
  {
  }

  lemma VerifyHarmless(s: State, e: Event, r: Registration)
    requires IsVerify(e) && Harmless(s, r) && RowsOk(s.rows, s.log, s.clock)
    ensures Harmless(Next(s, e), r)
  {
    if e.Reserve? {
      ReserveHarmless(s, e.pid, e.email, e.code, r);
    } else if e.MarkVerified? {
      MarkHarmless(s, e.pid, r);
    }
  }

  lemma CleanHarmless(s: State, e: Event, r: Registration)
    requires IsClean(e) && Harmless(s, r)
    ensures Harmless(Next(s, e), r)
  {
  }

  lemma CreateSingle(s: State, pid: Pid)
    requires Inv(s) && Single(s) && CanCreate(s, pid) && Safe(s, Create(pid))
    ensures Single(CreateAccount(s, pid))
  {
  }

  lemma RegistrationSingle(s: State, e: Event)
    requires Single(s) && IsRegister(e)
    ensures Single(Next(s, e))
  {
  }

  lemma Untouched(s: State, e: Event)
    requires !IsRegister(e) && !e.Create? && !e.DeleteAccount?
    ensures Next(s, e).registrations == s.registrations && Next(s, e).accounts == s.accounts
  {
  }

  lemma StaysHarmless(s: State, e: Event, r: Registration)
    requires !IsRegister(e) && !e.Create? && !e.DeleteAccount?
    requires Harmless(s, r) && RowsOk(s.rows, s.log, s.clock) && TicketOk(s.log, s.clock, r.ticket)
    ensures Harmless(Next(s, e), r)
  {
    if IsSend(e) {
      SendHarmless(s, e, r);
    } else if IsVerify(e) {
      VerifyHarmless(s, e, r);
    } else if IsClean(e) {
      CleanHarmless(s, e, r);
    } else if e.Tick? {
      TickHarmless(s, e.elapsed, r);
    } else {
      IssueHarmless(s, e.pid, e.code, e.id, r);
    }
  }

  lemma OthersSingle(s: State, e: Event)
    requires Inv(s) && Single(s) && !IsRegister(e) && !e.Create? && !e.DeleteAccount?
    ensures Single(Next(s, e))
  {
    Untouched(s, e);
    forall p | p in s.registrations ensures Harmless(Next(s, e), s.registrations[p]) {
      assert RegistrationOk(s.rows, s.log, s.registrations[p]);
      StaysHarmless(s, e, s.registrations[p]);
    }
  }

  lemma DeleteSingle(s: State, email: Email)
    requires Single(s)
    ensures Single(Next(s, DeleteAccount(email)))
  {
  }

  lemma NextSingle(s: State, e: Event)
    requires Inv(s) && Single(s) && Safe(s, e)
    ensures Single(Next(s, e))
  {
    if e.Create? {
      if CanCreate(s, e.pid) { CreateSingle(s, e.pid); }
    } else if e.DeleteAccount? {
      DeleteSingle(s, e.email);
    } else if IsRegister(e) {
      RegistrationSingle(s, e);
    } else {
      OthersSingle(s, e);
    }
  }

  lemma {:induction false} RunSingle(s: State, es: seq<Event>)
    requires Inv(s) && Single(s) && SafeRun(s, es)
    ensures Inv(Run(s, es)) && Single(Run(s, es))
    decreases |es|
  {
    if es != [] {
      NextInv(s, es[0]);
      NextSingle(s, es[0]);
      RunSingle(Next(s, es[0]), es[1..]);
    }
  }

  /** Among accounts created from codes, no address ever has two active ones, over all interleavings of
      send, verify, register, rollback, account deletion and cleanup in which every insert is safe. */
  lemma OneAccountPerAddress(cfg: Config, es: seq<Event>, email: Email)
    requires SafeRun(Init(cfg), es)
    ensures Run(Init(cfg), es).accounts[email] <= 1
  {
    RunSingle(Init(cfg), es);
  }

  /** An insert is safe when the clock has moved since the verification that it redeems and no verification in
      flight for the row still has a time to store. */
  lemma SettledIsSafe(s: State, pid: Pid)
    requires Inv(s) && CanCreate(s, pid)
    requires forall p :: p in s.registrations && s.registrations[p].email == s.registrations[pid].email ==>
               s.registrations[p].ticket.at < s.clock
    requires forall q :: q in s.verifiers && s.verifiers[q].id == s.registrations[pid].ticket.id ==>
               s.verifiers[q].seen.Some? || s.verifiers[q].marked
    ensures Safe(s, Create(pid))
  {
    assert RegistrationOk(s.rows, s.log, s.registrations[pid]);
  }

  /** So it is when more of the cooldown is left than a transaction may last. */
  lemma CooldownIsSafe(s: State, pid: Pid)
    requires Inv(s) && CanCreate(s, pid)
    requires s.clock + s.cfg.timeout < s.rows[s.registrations[pid].email].sentAt + s.cfg.cooldown
    ensures Safe(s, Create(pid))
  {
    var c := s.registrations[pid];
    forall p | p in s.registrations && s.registrations[p].email == c.email
      ensures NoneReadyBy(s.cfg, s.clock, s.rows[c.email], s.senders, c.email, Deadline(s.cfg, s.registrations[p]))
    {
      assert s.registrations[p].startedAt <= s.clock;
    }
  }

  // ---------------------------------------------------------------- unsafe inserts

  /** The verification is stored, and redeemed by the other registration. */
  function Ends(verifier: Pid, other: Pid): seq<Event> {
    [MarkVerified(verifier), Consume(other), Create(other)]
  }

  /** How the requests in flight can go on after the insert: the sender replaces the code, at once or after
      `wait`; the verification stores the time it has read; and the other registration redeems that. */
  function Late(sender: Pid, verifier: Pid, code: Code, wait: nat, other: Pid): seq<Event> {
    [ReadClock(verifier), Tick(wait), BeginSend(sender), Issue(sender, code, 0)] + Ends(verifier, other)
  }

  /** All in one instant, the replaced code can also be verified by a request that comes only now. */
  function Again(sender: Pid, verifier: Pid, email: Email, code: Code, other: Pid): seq<Event> {
    [BeginSend(sender), Issue(sender, code, 0), Reserve(verifier, email, code), ReadClock(verifier)]
    + Ends(verifier, other)
  }

  /** The settings allow a code to be tried after the longest transaction that issues it. */
  predicate Usable(cfg: Config) {
    cfg.timeout < cfg.expiry && cfg.maxAttempts > 0
  }

  /** `other` waits for a verification of its ticket's row and time, which it may redeem until its deadline. */
  predicate Poised(s: State, email: Email, other: Pid, k: Ticket) {
    && email in s.rows && s.rows[email].id == k.id && !Locked(s, email) && other in s.registrations
    && var r := s.registrations[other];
       r.email == email && r.ticket == k && r.checked && !r.consumed && Alive(s.cfg, s.clock, r)
  }

  /** Nothing but the rows, senders and verifiers differs. */
  predicate SameBooks(s: State, t: State) {
    t.registrations == s.registrations && t.accounts == s.accounts && t.cfg == s.cfg && t.clock == s.clock
  }

  lemma PoisedStays(s: State, t: State, email: Email, other: Pid, k: Ticket)
    requires Poised(s, email, other, k) && SameBooks(s, t) && email in t.rows && t.rows[email].id == k.id
    ensures Poised(t, email, other, k)
  {
    assert !Locked(t, email);
  }

  predicate CanReplace(s: State, email: Email, sender: Pid) {
    && email in s.rows && sender in s.senders && s.senders[sender].email == email
    && Ready(s.cfg, s.clock, s.rows[email], s.senders[sender])
  }

  lemma Replaced(s: State, email: Email, code: Code, other: Pid, k: Ticket, sender: Pid)
    requires Poised(s, email, other, k) && CanReplace(s, email, sender)
    ensures var t := Next(Next(s, BeginSend(sender)), Issue(sender, code, 0));
            && SameBooks(s, t) && t.verifiers == s.verifiers && Poised(t, email, other, k)
            && t.rows[email].codeHash == CodeHash(email, code) && t.rows[email].attempts == 0
            && t.rows[email].expiresAt >= s.clock - s.cfg.timeout + s.cfg.expiry
            && t.rows[email].verifiedAt.None? && t.rows[email].consumedAt.None?
  {
    var a := Next(s, BeginSend(sender));
    assert SameBooks(s, a) && a.rows == s.rows;
    PoisedStays(s, a, email, other, k);
    assert a.senders[sender] == Sender(email, Some(StartAt(s.senders[sender], s.clock)));
    PoisedStays(a, Next(a, Issue(sender, code, 0)), email, other, k);
  }

  /** The verification has read the time `k.at` for the row. */
  predicate HasTime(s: State, verifier: Pid, email: Email, k: Ticket) {
    verifier in s.verifiers && s.verifiers[verifier] == Verifier(email, k.id, None, Some(k.at), false)
  }

  lemma Stored(s: State, email: Email, other: Pid, k: Ticket, verifier: Pid)
    requires Poised(s, email, other, k) && HasTime(s, verifier, email, k)
    requires s.rows[email].verifiedAt.None? && s.rows[email].consumedAt.None?
    ensures var t := Next(s, MarkVerified(verifier));
            && SameBooks(s, t) && Poised(t, email, other, k)
            && t.rows[email].verifiedAt == Some(k.at) && t.rows[email].consumedAt.None?
  {
    PoisedStays(s, Next(s, MarkVerified(verifier)), email, other, k);
  }

  lemma Redeemed(s: State, email: Email, other: Pid, k: Ticket)
    requires Poised(s, email, other, k) && s.rows[email].verifiedAt == Some(k.at) && s.rows[email].consumedAt.None?
    ensures Next(Next(s, Consume(other)), Create(other)).accounts == s.accounts + multiset{email}
  {
    assert CanConsume(s, other) && Redeems(s, s.registrations[other]);
    assert CanCreate(Next(s, Consume(other)), other);
  }

  lemma StoredAndRedeemed(s: State, email: Email, other: Pid, k: Ticket, verifier: Pid)
    requires Poised(s, email, other, k) && HasTime(s, verifier, email, k)
    requires s.rows[email].verifiedAt.None? && s.rows[email].consumedAt.None?
    ensures Next(Next(Next(s, MarkVerified(verifier)), Consume(other)), Create(other)).accounts
         == s.accounts + multiset{email}
  {
    Stored(s, email, other, k, verifier);
    Redeemed(Next(s, MarkVerified(verifier)), email, other, k);
  }

  /** A run of four events and then three. */
  lemma RunParts(s: State, es: seq<Event>, fs: seq<Event>)
    requires |es| == 4 && |fs| == 3
    ensures Run(s, es + fs) == Next(Next(Next(Next(Next(Next(Next(s, es[0]), es[1]), es[2]), es[3]), fs[0]), fs[1]), fs[2])
  {
    RunConcat(s, es, fs);
    RunFour(s, es[0], es[1], es[2], es[3]);
    RunThree(Run(s, es), fs[0], fs[1], fs[2]);
    assert es == [es[0], es[1], es[2], es[3]] && fs == [fs[0], fs[1], fs[2]];
  }

  // ---------------------------------------------------------------- a verification in flight

  /** How long the sender has to wait for the cooldown before it begins. */
  function Wait(s: State, email: Email, sender: Pid): nat
    requires email in s.rows && sender in s.senders
  {
    var due := s.rows[email].sentAt + s.cfg.cooldown;
    if s.senders[sender].startedAt.Some? || due <= s.clock then 0 else due - s.clock
  }

  lemma TimeRead(s: State, email: Email, other: Pid, k: Ticket, verifier: Pid)
    requires Poised(s, email, other, k) && verifier in s.verifiers && s.verifiers[verifier].email == email
    requires Stores(s.clock, s.verifiers[verifier], k) && k.at <= s.clock
    ensures var t := Next(s, ReadClock(verifier));
            && SameBooks(s, t) && t.rows == s.rows && t.senders == s.senders
            && Poised(t, email, other, k) && HasTime(t, verifier, email, k)
  {
    PoisedStays(s, Next(s, ReadClock(verifier)), email, other, k);
  }

  lemma Waited(s: State, email: Email, other: Pid, k: Ticket, sender: Pid)
    requires Poised(s, email, other, k) && sender in s.senders && s.senders[sender].email == email
    requires ReadyBy(s.cfg, s.clock, s.rows[email], s.senders[sender], Deadline(s.cfg, s.registrations[other]))
    ensures var t := Next(s, Tick(Wait(s, email, sender)));
            Poised(t, email, other, k) && CanReplace(t, email, sender)
  {
    assert !Locked(Next(s, Tick(Wait(s, email, sender))), email);
  }

  lemma LateDoubles(s: State, email: Email, code: Code, other: Pid, k: Ticket, sender: Pid, verifier: Pid)
    requires Poised(s, email, other, k) && sender in s.senders && s.senders[sender].email == email
    requires ReadyBy(s.cfg, s.clock, s.rows[email], s.senders[sender], Deadline(s.cfg, s.registrations[other]))
    requires verifier in s.verifiers && s.verifiers[verifier].email == email && k.at <= s.clock
    requires Stores(s.clock, s.verifiers[verifier], k)
    ensures Run(s, Late(sender, verifier, code, Wait(s, email, sender), other)).accounts == s.accounts + multiset{email}
  {
    var a := Next(s, ReadClock(verifier));
    TimeRead(s, email, other, k, verifier);
    var b := Next(a, Tick(Wait(s, email, sender)));
    Waited(a, email, other, k, sender);
    var c := Next(Next(b, BeginSend(sender)), Issue(sender, code, 0));
    Replaced(b, email, code, other, k, sender);
    StoredAndRedeemed(c, email, other, k, verifier);
    RunParts(s, [ReadClock(verifier), Tick(Wait(s, email, sender)), BeginSend(sender), Issue(sender, code, 0)],
             Ends(verifier, other));
  }

  // ---------------------------------------------------------------- all in one instant

  lemma TriedAgain(s: State, email: Email, code: Code, other: Pid, k: Ticket, verifier: Pid)
    requires Poised(s, email, other, k) && Usable(s.cfg) && verifier !in s.verifiers && k.at == s.clock
    requires s.rows[email].codeHash == CodeHash(email, code) && s.rows[email].attempts == 0
    requires s.rows[email].expiresAt >= s.clock - s.cfg.timeout + s.cfg.expiry
    requires s.rows[email].verifiedAt.None? && s.rows[email].consumedAt.None?
    ensures var t := Next(Next(s, Reserve(verifier, email, code)), ReadClock(verifier));
            && SameBooks(s, t) && Poised(t, email, other, k) && HasTime(t, verifier, email, k)
            && t.rows[email].verifiedAt.None? && t.rows[email].consumedAt.None?
  {
    var a := Next(s, Reserve(verifier, email, code));
    PoisedStays(s, a, email, other, k);
    assert a.verifiers[verifier] == Verifier(email, k.id, None, None, false);
    PoisedStays(a, Next(a, ReadClock(verifier)), email, other, k);
  }

  lemma AgainDoubles(s: State, email: Email, code: Code, other: Pid, k: Ticket, sender: Pid, verifier: Pid)
    requires Poised(s, email, other, k) && CanReplace(s, email, sender) && k.at == s.clock
    requires Usable(s.cfg) && verifier !in s.verifiers
    ensures Run(s, Again(sender, verifier, email, code, other)).accounts == s.accounts + multiset{email}
  {
    var a := Next(Next(s, BeginSend(sender)), Issue(sender, code, 0));
    Replaced(s, email, code, other, k, sender);
    TriedAgain(a, email, code, other, k, verifier);
    StoredAndRedeemed(Next(Next(a, Reserve(verifier, email, code)), ReadClock(verifier)), email, other, k, verifier);
    RunParts(s, [BeginSend(sender), Issue(sender, code, 0), Reserve(verifier, email, code), ReadClock(verifier)],
             Ends(verifier, other));
  }

  // ---------------------------------------------------------------- the condition is exact

  lemma UnsafePoised(s: State, pid: Pid, other: Pid)
    requires Inv(s) && CanCreate(s, pid) && other in s.registrations && !SafeFrom(s, pid, other)
    ensures var t, c, r := Next(s, Create(pid)), s.registrations[pid], s.registrations[other];
            && r.ticket.at <= s.clock && Poised(t, c.email, other, r.ticket)
            && t.rows[c.email].sentAt == s.rows[c.email].sentAt && t.accounts == s.accounts + multiset{c.email}
            && t.senders == s.senders && t.verifiers == s.verifiers && t.registrations[other] == r
  {
    var c, r := s.registrations[pid], s.registrations[other];
    assert RegistrationOk(s.rows, s.log, r) && TicketOk(s.log, s.clock, r.ticket) && Apart(c, r);
    forall p | p in Next(s, Create(pid)).registrations
      ensures !(s.registrations[p].consumed && s.registrations[p].email == c.email)
    {
      assert Apart(s.registrations[p], c);
    }
  }

  /** The condition is exact: after every unsafe insert, in any reachable state, a request for a code that was
      already past its account check, a verification and the other registration can go on so that the address
      gets a second active account. Either the verification was already in flight, or all is in one instant. */
  lemma UnsafeInsertCanDouble(s: State, pid: Pid, other: Pid, newcomer: Pid, code: Code)
    requires Inv(s) && CanCreate(s, pid) && other in s.registrations && !SafeFrom(s, pid, other)
    requires newcomer !in s.verifiers && Usable(s.cfg)
    ensures var t, email := Next(s, Create(pid)), s.registrations[pid].email;
            || (exists q, v, wait :: q in s.senders && v in s.verifiers
                                     && Run(t, Late(q, v, code, wait, other)).accounts[email] >= 2)
            || (exists q :: q in s.senders && Run(t, Again(q, newcomer, email, code, other)).accounts[email] >= 2)
  {
    var t, email, r := Next(s, Create(pid)), s.registrations[pid].email, s.registrations[other];
    var row := s.rows[email];
    UnsafePoised(s, pid, other);
    if q, v :| && q in s.senders && s.senders[q].email == email
               && ReadyBy(s.cfg, s.clock, row, s.senders[q], Deadline(s.cfg, r))
               && v in s.verifiers && Stores(s.clock, s.verifiers[v], r.ticket) {
      OwnVerifier(s, v, email);
      LateDoubles(t, email, code, other, r.ticket, q, v);
      assert Run(t, Late(q, v, code, Wait(t, email, q), other)).accounts[email] >= 2;
    } else {
      var q :| q in s.senders && s.senders[q].email == email && Ready(s.cfg, s.clock, row, s.senders[q]);
      AgainDoubles(t, email, code, other, r.ticket, q, newcomer);
    }
  }

  lemma OwnVerifier(s: State, v: Pid, email: Email)
    requires Inv(s) && v in s.verifiers && email in s.rows && s.verifiers[v].id == s.rows[email].id
    ensures s.verifiers[v].email == email
  {
    assert VerifierOk(s.log, s.clock, s.verifiers[v]) && RowOk(s.log, s.clock, email, s.rows[email]);
  }

  // ---------------------------------------------------------------- unsafe inserts are reachable

  const CODE := "111111"

  predicate Bare(s: State, clock: int) {
    s.cfg == DEFAULTS && s.clock == clock && s.registrations == map[] && s.accounts == multiset{}
  }

  /** The code of time 0 is stored, with this many attempts and this verification. */
  predicate HasCode(s: State, attempts: nat, verifiedAt: Option<int>) {
    ADDRESS in s.rows && s.rows[ADDRESS] == Row(0, CodeHash(ADDRESS, CODE), attempts, 0, 600, verifiedAt, None)
  }

  lemma Issuing() returns (s: State)
    ensures Reachable(DEFAULTS, s) && Bare(s, 0) && HasCode(s, 0, None) && s.senders == map[] && s.verifiers == map[]
  {
    s := Init(DEFAULTS);
    assert s == Run(Init(DEFAULTS), []);
    ReachableNext(DEFAULTS, s, SendCheck(7, ADDRESS));
    s := Next(s, SendCheck(7, ADDRESS));
    ReachableNext(DEFAULTS, s, BeginSend(7));
    s := Next(s, BeginSend(7));
    assert s.senders == map[7 := Sender(ADDRESS, Some(0))] && s.rows == map[];
    ReachableNext(DEFAULTS, s, Issue(7, CODE, 0));
    s := Next(s, Issue(7, CODE, 0));
  }

  /** Later, another request for a code finds no account. */
  lemma Waiting(wait: nat) returns (s: State)
    ensures Reachable(DEFAULTS, s) && Bare(s, wait) && HasCode(s, 0, None)
    ensures s.senders == map[8 := Sender(ADDRESS, None)] && s.verifiers == map[]
  {
    s := Issuing();
    ReachableNext(DEFAULTS, s, Tick(wait));
    s := Next(s, Tick(wait));
    ReachableNext(DEFAULTS, s, SendCheck(8, ADDRESS));
    s := Next(s, SendCheck(8, ADDRESS));
  }

  lemma Reserves(s: State, pid: Pid, n: nat) returns (t: State)
    requires Reachable(DEFAULTS, s) && Bare(s, s.clock) && HasCode(s, n, None) && n < 5 && s.clock < 600
    requires pid !in s.verifiers
    ensures Reachable(DEFAULTS, t) && Bare(t, s.clock) && HasCode(t, n + 1, None) && t.senders == s.senders
    ensures t.verifiers == s.verifiers[pid := Verifier(ADDRESS, 0, None, None, false)]
  {
    assert !Locked(s, ADDRESS);
    ReachableNext(DEFAULTS, s, Reserve(pid, ADDRESS, CODE));
    t := Next(s, Reserve(pid, ADDRESS, CODE));
  }

  lemma Tries(s: State, pid: Pid, n: nat) returns (t: State)
    requires Reachable(DEFAULTS, s) && Bare(s, s.clock) && HasCode(s, n, None) && n < 5 && s.clock < 600
    requires pid !in s.verifiers
    ensures Reachable(DEFAULTS, t) && Bare(t, s.clock) && HasCode(t, n + 1, None) && t.senders == s.senders
    ensures t.verifiers == s.verifiers[pid := Verifier(ADDRESS, 0, None, Some(s.clock), false)]
  {
    var r := Reserves(s, pid, n);
    ReachableNext(DEFAULTS, r, ReadClock(pid));
    t := Next(r, ReadClock(pid));
  }

  /** The code is presented twice, both requests read the same time, and only the first one stores it. */
  lemma Verifying(wait: nat) returns (s: State)
    requires wait < 600
    ensures Reachable(DEFAULTS, s) && Bare(s, wait) && HasCode(s, 2, Some(wait)) && Ticket(0, wait) in s.log.tickets
    ensures s.senders == map[8 := Sender(ADDRESS, None)]
    ensures s.verifiers == map[9 := Verifier(ADDRESS, 0, None, Some(wait), false)]
  {
    s := Waiting(wait);
    s := Tries(s, 5, 0);
    s := Tries(s, 9, 1);
    s := Stamps(s, 5, wait);
    assert s.verifiers == map[9 := Verifier(ADDRESS, 0, None, Some(wait), false)];
  }

  /** A verification stores the time it has read, and its ticket is handed out. */
  lemma Stamps(s: State, pid: Pid, wait: nat) returns (t: State)
    requires Reachable(DEFAULTS, s) && Bare(s, wait) && HasCode(s, 2, None)
    requires pid in s.verifiers && s.verifiers[pid] == Verifier(ADDRESS, 0, None, Some(wait), false)
    ensures Reachable(DEFAULTS, t) && Bare(t, wait) && HasCode(t, 2, Some(wait)) && Ticket(0, wait) in t.log.tickets
    ensures t.senders == s.senders && t.verifiers == map p | p in s.verifiers && p != pid :: s.verifiers[p]
  {
    ReachableNext(DEFAULTS, s, MarkVerified(pid));
    var m := Next(s, MarkVerified(pid));
    assert HasCode(m, 2, Some(wait)) && m.verifiers == s.verifiers[pid := Verifier(ADDRESS, 0, None, Some(wait), true)];
    ReachableNext(DEFAULTS, m, HandTicket(pid));
    t := Next(m, HandTicket(pid));
  }

  /** A registration with this ticket finds no account. */
  lemma Enters(s: State, pid: Pid, wait: nat) returns (t: State)
    requires Reachable(DEFAULTS, s) && s.cfg == DEFAULTS && s.clock == wait && s.accounts == multiset{}
    requires Ticket(0, wait) in s.log.tickets && pid !in s.registrations
    ensures Reachable(DEFAULTS, t)
    ensures t == s.(registrations := s.registrations[pid := Registration(ADDRESS, Ticket(0, wait), wait, true, false)])
  {
    ReachableNext(DEFAULTS, s, Begin(pid, ADDRESS, Ticket(0, wait)));
    t := Next(s, Begin(pid, ADDRESS, Ticket(0, wait)));
    ReachableNext(DEFAULTS, t, Check(pid));
    t := Next(t, Check(pid));
  }

  /** Unsafe inserts are reachable, also after the clock has moved since the verification that they redeem and
      before its cooldown has ended. */
  lemma UnsafeInsertReachable(wait: nat, later: nat) returns (t: State)
    requires 55 <= wait < 600 && later <= 5
    ensures Reachable(DEFAULTS, t) && CanCreate(t, 1) && 2 in t.registrations && !SafeFrom(t, 1, 2)
    ensures t.clock == wait + later && t.registrations[1].ticket.at == wait && t.registrations[1].email == ADDRESS
    ensures t.rows[ADDRESS].sentAt == 0 && 0 !in t.verifiers && t.cfg == DEFAULTS
  {
    var s := Verifying(wait);
    var a := Enters(s, 1, wait);
    var b := Enters(a, 2, wait);
    var r := Registration(ADDRESS, Ticket(0, wait), wait, true, false);
    assert b.registrations == map[1 := r, 2 := r] && !Locked(b, ADDRESS);
    ReachableNext(DEFAULTS, b, Consume(1));
    var c := Next(b, Consume(1));
    assert c.registrations == map[1 := r.(consumed := true), 2 := r];
    ReachableNext(DEFAULTS, c, Tick(later));
    t := Next(c, Tick(later));
    Uncovered(t, wait);
  }

  lemma Uncovered(t: State, wait: nat)
    requires 55 <= wait <= t.clock <= wait + 5 && t.cfg == DEFAULTS && HasCode(t, 2, Some(wait))
    requires t.senders == map[8 := Sender(ADDRESS, None)]
    requires t.verifiers == map[9 := Verifier(ADDRESS, 0, None, Some(wait), false)]
    requires var r := Registration(ADDRESS, Ticket(0, wait), wait, true, false);
             t.registrations == map[1 := r.(consumed := true), 2 := r]
    ensures CanCreate(t, 1) && 2 in t.registrations && !SafeFrom(t, 1, 2)
  {
    var r := t.registrations[2];
    assert 8 in t.senders && ReadyBy(t.cfg, t.clock, t.rows[ADDRESS], t.senders[8], Deadline(t.cfg, r));
    assert 9 in t.verifiers && Stores(t.clock, t.verifiers[9], r.ticket);
  }

  /** So an address can end up with two active accounts. */
  lemma TwoAccounts(wait: nat, later: nat)
    requires 55 <= wait < 600 && later <= 5
    ensures exists s :: Reachable(DEFAULTS, s) && s.accounts[ADDRESS] >= 2
  {
    var t := UnsafeInsertReachable(wait, later);
    ReachableInv(t);
    UnsafeInsertCanDouble(t, 1, 2, 0, "222222");
    ReachableNext(DEFAULTS, t, Create(1));
    var u := Next(t, Create(1));
    if q, v, w :| Run(u, Late(q, v, "222222", w, 2)).accounts[ADDRESS] >= 2 {
      ReachableRun(DEFAULTS, u, Late(q, v, "222222", w, 2));
    } else {
      var q :| q in t.senders && Run(u, Again(q, 0, ADDRESS, "222222", 2)).accounts[ADDRESS] >= 2;
      ReachableRun(DEFAULTS, u, Again(q, 0, ADDRESS, "222222", 2));
    }
  }

  lemma ReachableInv(s: State)
    requires Reachable(DEFAULTS, s)
    ensures Inv(s)
  {
    var es :| s == Run(Init(DEFAULTS), es);
    RunInv(Init(DEFAULTS), es);
  }
}
