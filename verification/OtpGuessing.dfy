/**
 How often a registration code can be guessed: a bounded number of comparisons per issued code, a
 minimum distance between issues even when cleanup removes rows, and so a bound for any time span.
 */
module OtpGuessing {
  import opened Options
  import opened OtpTables
  import opened OtpInvariant
  import opened FreshNumbers

  /** The comparisons made against the k-th code of an address. */
  function CountFor(gs: seq<Guess>, k: nat): nat
    decreases |gs|
  {
    if gs == [] then 0
    else CountFor(gs[..|gs| - 1], k) + if gs[|gs| - 1].issue == k then 1 else 0
  }

  lemma CountSnoc(gs: seq<Guess>, g: Guess, k: nat)
    ensures CountFor(gs + [g], k) == CountFor(gs, k) + if g.issue == k then 1 else 0
  {
  }

  /** The k-th code went out before the cooldown of the one before it was over. */
  predicate Close(sent: seq<int>, k: nat, cooldown: nat) {
    0 < k < |sent| && sent[k] < sent[k - 1] + cooldown
  }

  /** How many of the first n codes did. */
  function CloseCount(sent: seq<int>, n: nat, cooldown: nat): nat
    requires n <= |sent|
  {
    if n == 0 then 0 else CloseCount(sent, n - 1, cooldown) + if Close(sent, n - 1, cooldown) then 1 else 0
  }

  /** A comparison was made while the code it was made against was valid. */
  predicate GuessOk(sent: seq<int>, expiry: int, clock: int, g: Guess) {
    g.issue < |sent| && sent[g.issue] <= g.at < sent[g.issue] + expiry && g.at <= clock
  }

  /** The row, if there is one, is the latest issue. */
  predicate LatestOk(cfg: Config, clock: int, row: Option<Row>, sent: seq<int>, gs: seq<Guess>) {
    row.Some? ==>
      && |sent| > 0 && row.value.sentAt == sent[|sent| - 1] <= clock
      && row.value.expiresAt == row.value.sentAt + cfg.expiry
      && row.value.attempts == CountFor(gs, |sent| - 1)
  }

  /** A code sent at `last` is past its cooldown for every transaction that may still issue one. */
  predicate Cleared(cfg: Config, clock: int, senders: map<Pid, Sender>, e: Email, last: int) {
    && last + cfg.cooldown <= clock
    && forall q :: q in senders && CanStillIssue(cfg, clock, senders[q], e) ==>
                     last + cfg.cooldown <= senders[q].startedAt.value
  }

  predicate CanStillIssue(cfg: Config, clock: int, x: Sender, e: Email) {
    x.email == e && x.startedAt.Some? && clock - x.startedAt.value <= cfg.timeout
  }

  predicate Removes(s: State, ev: Event, e: Email) {
    ev.CleanEnd? && CanCleanEnd(s, ev.pid) && e in s.rows && s.rows[e].id in s.cleaners[ev.pid]
  }

  /** A cleanup removes the row of a code that is not past its cooldown: one that was sent after the cleanup
      took its snapshot. */
  predicate Early(s: State, ev: Event, e: Email) {
    Removes(s, ev, e) && !Cleared(s.cfg, s.clock, s.senders, e, s.rows[e].sentAt)
  }

  function EarlyRemovals(s: State, es: seq<Event>, e: Email): nat
    decreases |es|
  {
    if es == [] then 0 else (if Early(s, es[0], e) then 1 else 0) + EarlyRemovals(Next(s, es[0]), es[1..], e)
  }

  function RowAt(rows: map<Email, Row>, e: Email): Option<Row> {
    if e in rows then Some(rows[e]) else None
  }

  /** Without a row, the next code may go out too early. */
  predicate Exposed(s: State, e: Email) {
    var sent := Sent(s.log, e);
    e !in s.rows && |sent| > 0 && !Cleared(s.cfg, s.clock, s.senders, e, sent[|sent| - 1])
  }

  ghost predicate HistoryOk(cfg: Config, clock: int, sent: seq<int>, gs: seq<Guess>) {
    && (forall k :: CountFor(gs, k) <= cfg.maxAttempts)
    && (forall i :: 0 <= i < |gs| ==> GuessOk(sent, cfg.expiry, clock, gs[i]))
  }

  /** Every code that went out too early, or may do so next, is due to an early removal. */
  predicate Paid(s: State, e: Email, early: nat) {
    CloseCount(Sent(s.log, e), |Sent(s.log, e)|, s.cfg.cooldown) + (if Exposed(s, e) then 1 else 0) <= early
  }

  ghost predicate Bounded(s: State, e: Email, early: nat) {
    && SendersOk(s.senders, s.clock) && Paid(s, e, early)
    && LatestOk(s.cfg, s.clock, RowAt(s.rows, e), Sent(s.log, e), Guesses(s.log, e))
    && HistoryOk(s.cfg, s.clock, Sent(s.log, e), Guesses(s.log, e))
  }

  lemma {:induction false} ClosePrefix(sent: seq<int>, more: seq<int>, n: nat, cooldown: nat)
    requires n <= |sent|
    ensures CloseCount(sent + more, n, cooldown) == CloseCount(sent, n, cooldown)
  {
    if n > 0 { ClosePrefix(sent, more, n - 1, cooldown); }
  }

  /** The sender is past its check and in time, so the code it issues is early only if the address is exposed. */
  lemma IssuePaid(s: State, email: Email, code: Code, id: RowId, at: int, early: nat)
    requires Paid(s, email, early) && CanIssue(s, email, id, at)
    requires LatestOk(s.cfg, s.clock, RowAt(s.rows, email), Sent(s.log, email), Guesses(s.log, email))
    requires email !in s.rows && |Sent(s.log, email)| > 0 && !Exposed(s, email) ==>
               Sent(s.log, email)[|Sent(s.log, email)| - 1] + s.cfg.cooldown <= at
    ensures Paid(IssueCode(s, email, code, id, at), email, early)
  {
    var before, sent := Sent(s.log, email), Sent(IssueCode(s, email, code, id, at).log, email);
    assert sent == before + [at];
    ClosePrefix(before, [at], |before|, s.cfg.cooldown);
  }

  lemma BoundedIssue(s: State, email: Email, code: Code, id: RowId, at: int, early: nat)
    requires Bounded(s, email, early) && CanIssue(s, email, id, at) && at <= s.clock
    requires email !in s.rows && |Sent(s.log, email)| > 0 && !Exposed(s, email) ==>
               Sent(s.log, email)[|Sent(s.log, email)| - 1] + s.cfg.cooldown <= at
    ensures Bounded(IssueCode(s, email, code, id, at), email, early)
  {
    var t := IssueCode(s, email, code, id, at);
    var gs, before, sent := Guesses(s.log, email), Sent(s.log, email), Sent(t.log, email);
    assert sent == before + [at];
    IssuePaid(s, email, code, id, at, early);
    NoneYet(gs, |before|, before, s.cfg.expiry, s.clock);
    forall i | 0 <= i < |gs| ensures GuessOk(sent, s.cfg.expiry, s.clock, gs[i]) {
      assert GuessOk(before, s.cfg.expiry, s.clock, gs[i]);
    }
  }

  /** No comparison was made against a code that was not issued yet. */
  lemma {:induction false} NoneYet(gs: seq<Guess>, k: nat, sent: seq<int>, expiry: int, clock: int)
    requires forall i :: 0 <= i < |gs| ==> GuessOk(sent, expiry, clock, gs[i])
    requires k >= |sent|
    ensures CountFor(gs, k) == 0
    decreases |gs|
  {
    if gs != [] {
      assert GuessOk(sent, expiry, clock, gs[|gs| - 1]);
      NoneYet(gs[..|gs| - 1], k, sent, expiry, clock);
    }
  }

  lemma BoundedReserve(s: State, pid: Pid, email: Email, code: Code, early: nat)
    requires Bounded(s, email, early) && CanReserve(s, email)
    ensures Bounded(ReserveAttempt(s, pid, email, code), email, early)
  {
    var t := ReserveAttempt(s, pid, email, code);
    var gs, sent := Guesses(s.log, email), Sent(s.log, email);
    var g := Guess(|sent| - 1, s.clock);
    assert Guesses(t.log, email) == gs + [g];
    forall k: nat ensures CountFor(gs + [g], k) <= s.cfg.maxAttempts {
      CountSnoc(gs, g, k);
    }
    CountSnoc(gs, g, |sent| - 1);
  }

  lemma BoundedTick(s: State, elapsed: nat, e: Email, early: nat)
    requires Bounded(s, e, early)
    ensures Bounded(Next(s, Tick(elapsed)), e, early)
  {
    assert Exposed(Next(s, Tick(elapsed)), e) ==> Exposed(s, e);
  }

  /** Other events leave an address's codes, counts and times alone. */
  predicate SameCodes(s: State, t: State, e: Email) {
    && t.cfg == s.cfg && t.clock == s.clock
    && Sent(t.log, e) == Sent(s.log, e) && Guesses(t.log, e) == Guesses(s.log, e)
    && (e in t.rows <==> e in s.rows)
    && (e in s.rows ==> t.rows[e].sentAt == s.rows[e].sentAt && t.rows[e].expiresAt == s.rows[e].expiresAt
                        && t.rows[e].attempts == s.rows[e].attempts)
  }

  lemma BoundedSame(s: State, t: State, e: Email, early: nat)
    requires Bounded(s, e, early) && SameCodes(s, t, e) && SendersOk(t.senders, t.clock)
    requires Exposed(t, e) ==> Exposed(s, e)
    ensures Bounded(t, e, early)
  {
  }

  lemma SendSame(s: State, ev: Event, e: Email)
    requires IsSend(ev) && SendersOk(s.senders, s.clock)
    ensures SameCodes(s, Next(s, ev), e) && SendersOk(Next(s, ev).senders, s.clock)
    ensures Exposed(Next(s, ev), e) ==> Exposed(s, e)
  {
    match ev
    case SendCheck(pid, email) => SendCheckSame(s, pid, email, e);
    case BeginSend(pid) => BeginSame(s, pid, e);
    case DropSend(pid) => DropSame(s, pid, e);
  }

  ghost predicate OnlySenders(s: State, t: State, e: Email) {
    && SameCodes(s, t, e) && t == s.(senders := t.senders) && SendersOk(t.senders, s.clock)
    && (Exposed(t, e) ==> Exposed(s, e))
  }

  lemma SendCheckSame(s: State, pid: Pid, email: Email, e: Email)
    requires SendersOk(s.senders, s.clock)
    ensures OnlySenders(s, Next(s, SendCheck(pid, email)), e)
  {
  }

  lemma BeginSame(s: State, pid: Pid, e: Email)
    requires SendersOk(s.senders, s.clock)
    ensures OnlySenders(s, Next(s, BeginSend(pid)), e)
  {
  }

  lemma DropSame(s: State, pid: Pid, e: Email)
    requires SendersOk(s.senders, s.clock)
    ensures OnlySenders(s, Next(s, DropSend(pid)), e)
  {
  }

  lemma IssueNext(s: State, pid: Pid, code: Code, id: RowId, e: Email, early: nat)
    requires Bounded(s, e, early) && Begun(s, pid)
    requires CanIssue(s, s.senders[pid].email, id, s.senders[pid].startedAt.value)
    ensures Bounded(Next(s, Issue(pid, code, id)), e, early)
  {
    var t, x := Next(s, Issue(pid, code, id)), s.senders[pid];
    if x.email == e {
      IssueExposed(s, pid, e, early);
      BoundedIssue(s, e, code, id, x.startedAt.value, early);
      IssueThenDrop(s, pid, code, id);
      SenderLeaves(IssueCode(s, e, code, id, x.startedAt.value), t, pid, e, early);
    } else {
      OtherIssue(s, pid, code, id, e, early);
    }
  }

  lemma IssueThenDrop(s: State, pid: Pid, code: Code, id: RowId)
    requires Begun(s, pid) && CanIssue(s, s.senders[pid].email, id, s.senders[pid].startedAt.value)
    ensures Next(s, Issue(pid, code, id))
         == DropSender(IssueCode(s, s.senders[pid].email, code, id, s.senders[pid].startedAt.value), pid)
  {
  }

  lemma OtherIssue(s: State, pid: Pid, code: Code, id: RowId, e: Email, early: nat)
    requires Bounded(s, e, early) && Begun(s, pid) && s.senders[pid].email != e
    requires CanIssue(s, s.senders[pid].email, id, s.senders[pid].startedAt.value)
    ensures Bounded(Next(s, Issue(pid, code, id)), e, early)
  {
    DropSame(s, pid, e);
    BoundedSame(s, DropSender(s, pid), e, early);
    BoundedSame(DropSender(s, pid), Next(s, Issue(pid, code, id)), e, early);
  }

  lemma SenderLeaves(s: State, t: State, pid: Pid, e: Email, early: nat)
    requires Bounded(s, e, early) && e in s.rows && t == DropSender(s, pid)
    ensures Bounded(t, e, early)
  {
    BoundedSame(s, t, e, early);
  }

  /** Should the sender itself be what exposes the address, the early removal is paid for. */
  lemma IssueExposed(s: State, pid: Pid, e: Email, early: nat)
    requires Begun(s, pid) && s.senders[pid].email == e && s.clock - s.senders[pid].startedAt.value <= s.cfg.timeout
    ensures e !in s.rows && |Sent(s.log, e)| > 0 && !Exposed(s, e) ==>
              Sent(s.log, e)[|Sent(s.log, e)| - 1] + s.cfg.cooldown <= s.senders[pid].startedAt.value
  {
  }

  /** A cleanup exposes an address only by an early removal. */
  lemma CleanNext(s: State, pid: Pid, e: Email, early: nat)
    requires Bounded(s, e, early)
    ensures Bounded(Next(s, CleanEnd(pid)), e, early + if Early(s, CleanEnd(pid), e) then 1 else 0)
  {
  }

  lemma OthersSame(s: State, ev: Event, e: Email)
    requires !ev.Tick? && !ev.Issue? && !IsSend(ev) && !ev.CleanEnd? && !(ev.Reserve? && ev.email == e)
    ensures SameCodes(s, Next(s, ev), e) && Next(s, ev).senders == s.senders
  {
    match ev
    case Reserve(pid, email, code) => ReserveSame(s, pid, email, code, e);
    case MarkVerified(pid) => MarkSame(s, pid, e);
    case HandTicket(pid) => HandSame(s, pid, e);
    case Create(pid) => CreateSame(s, pid, e);
    case ReadClock(_) => RowsSame(s, ev);
    case DeleteAccount(_) => RowsSame(s, ev);
    case CleanStart(_, _) => RowsSame(s, ev);
    case CleanDrop(_) => RowsSame(s, ev);
    case Begin(_, _, _) => RegisterSame(s, ev);
    case Check(_) => RegisterSame(s, ev);
    case Consume(_) => RegisterSame(s, ev);
    case Abort(_) => RegisterSame(s, ev);
  }

  lemma ReserveSame(s: State, pid: Pid, email: Email, code: Code, e: Email)
    requires email != e
    ensures var t := Next(s, Reserve(pid, email, code)); SameCodes(s, t, e) && t.senders == s.senders
  {
  }

  lemma MarkSame(s: State, pid: Pid, e: Email)
    ensures var t := Next(s, MarkVerified(pid)); SameCodes(s, t, e) && t.senders == s.senders
  {
  }

  lemma HandSame(s: State, pid: Pid, e: Email)
    ensures var t := Next(s, HandTicket(pid)); SameCodes(s, t, e) && t.senders == s.senders
  {
  }

  lemma CreateSame(s: State, pid: Pid, e: Email)
    ensures var t := Next(s, Create(pid)); SameCodes(s, t, e) && t.senders == s.senders
  {
  }

  predicate SameRows(s: State, t: State) {
    t.cfg == s.cfg && t.clock == s.clock && t.rows == s.rows && t.log == s.log && t.senders == s.senders
  }

  lemma RowsSame(s: State, ev: Event)
    requires ev.ReadClock? || ev.DeleteAccount? || ev.CleanStart? || ev.CleanDrop?
    ensures SameRows(s, Next(s, ev))
  {
  }

  lemma RegisterSame(s: State, ev: Event)
    requires ev.Begin? || ev.Check? || ev.Consume? || ev.Abort?
    ensures SameRows(s, Next(s, ev))
  {
  }

  lemma BoundedNext(s: State, ev: Event, e: Email, early: nat)
    requires Bounded(s, e, early)
    ensures Bounded(Next(s, ev), e, early + if Early(s, ev, e) then 1 else 0)
  {
    if Next(s, ev) != s {
      if ev.Tick? {
        BoundedTick(s, ev.elapsed, e, early);
      } else if ev.Issue? {
        IssueNext(s, ev.pid, ev.code, ev.id, e, early);
      } else if ev.Reserve? && ev.email == e {
        BoundedReserve(s, ev.pid, e, ev.code, early);
      } else if ev.CleanEnd? {
        CleanNext(s, ev.pid, e, early);
      } else if IsSend(ev) {
        SendSame(s, ev, e);
        BoundedSame(s, Next(s, ev), e, early);
      } else {
        OthersSame(s, ev, e);
        BoundedSame(s, Next(s, ev), e, early);
      }
    }
  }

  lemma ConfigNext(s: State, ev: Event)
    ensures Next(s, ev).cfg == s.cfg
  {
  }

  lemma {:induction false} BoundedRun(s: State, es: seq<Event>, e: Email, early: nat)
    requires Bounded(s, e, early)
    ensures Bounded(Run(s, es), e, early + EarlyRemovals(s, es, e)) && Run(s, es).cfg == s.cfg
    decreases |es|
  {
    if es != [] {
      BoundedNext(s, es[0], e, early);
      ConfigNext(s, es[0]);
      BoundedRun(Next(s, es[0]), es[1..], e, early + if Early(s, es[0], e) then 1 else 0);
    }
  }

  lemma BoundedInit(cfg: Config, es: seq<Event>, e: Email)
    ensures Bounded(Run(Init(cfg), es), e, EarlyRemovals(Init(cfg), es, e)) && Run(Init(cfg), es).cfg == cfg
  {
    BoundedRun(Init(cfg), es, e, 0);
  }

  /** At most `maxAttempts` comparisons are ever made against one issued code. */
  lemma GuessesPerCode(cfg: Config, es: seq<Event>, e: Email, k: nat)
    ensures CountFor(Guesses(Run(Init(cfg), es).log, e), k) <= cfg.maxAttempts
  {
    BoundedInit(cfg, es, e);
  }

  /** In every run, no more codes of an address go out before the cooldown of the one before is over than
      cleanups have removed its row early. */
  lemma CloseIssues(cfg: Config, es: seq<Event>, e: Email)
    ensures var sent := Sent(Run(Init(cfg), es).log, e);
            CloseCount(sent, |sent|, cfg.cooldown) <= EarlyRemovals(Init(cfg), es, e)
  {
    BoundedInit(cfg, es, e);
  }

  /** Without early removals, two issues for one address are at least the cooldown apart, cleanup or not. */
  lemma IssuesApart(cfg: Config, es: seq<Event>, e: Email, i: nat, j: nat)
    requires EarlyRemovals(Init(cfg), es, e) == 0 && i < j < |Sent(Run(Init(cfg), es).log, e)|
    ensures Sent(Run(Init(cfg), es).log, e)[i] + (j - i) * cfg.cooldown <= Sent(Run(Init(cfg), es).log, e)[j]
  {
    BoundedInit(cfg, es, e);
    var sent := Sent(Run(Init(cfg), es).log, e);
    NoneClose(sent, |sent|, cfg.cooldown);
    SpacedApart(sent, cfg.cooldown, i, j);
  }

  lemma {:induction false} NoneClose(sent: seq<int>, n: nat, cooldown: nat)
    requires n <= |sent| && CloseCount(sent, n, cooldown) == 0
    ensures forall k :: 0 <= k < n ==> !Close(sent, k, cooldown)
  {
    if n > 0 { NoneClose(sent, n - 1, cooldown); }
  }

  lemma {:induction false} SpacedApart(sent: seq<int>, cooldown: nat, i: nat, j: nat)
    requires i <= j < |sent| && forall k :: 0 <= k < |sent| ==> !Close(sent, k, cooldown)
    ensures sent[i] + (j - i) * cooldown <= sent[j]
    decreases j - i
  {
    if i < j {
      SpacedApart(sent, cooldown, i, j - 1);
      assert !Close(sent, j, cooldown);
      assert (j - i) * cooldown == (j - 1 - i) * cooldown + cooldown;
    }
  }

  // ---------------------------------------------------------------- early removals break the spacing

  /** One more code went out, before the cooldown of the one before was over. */
  predicate OneMoreClose(a: seq<int>, b: seq<int>, cooldown: nat) {
    |b| == |a| + 1 && Close(b, |a|, cooldown)
  }

  lemma IssuesClose(s: State, q: Pid, code: Code, id: RowId, e: Email)
    requires Begun(s, q) && s.senders[q].email == e && s.clock - s.senders[q].startedAt.value <= s.cfg.timeout
    requires e !in s.rows && id !in s.log.owner && |Sent(s.log, e)| > 0
    requires s.senders[q].startedAt.value < Sent(s.log, e)[|Sent(s.log, e)| - 1] + s.cfg.cooldown
    ensures OneMoreClose(Sent(s.log, e), Sent(Next(s, Issue(q, code, id)).log, e), s.cfg.cooldown)
  {
    assert CanIssue(s, e, id, s.senders[q].startedAt.value);
  }

  lemma {:induction false} AccountsDeleted(s: State, e: Email) returns (es: seq<Event>)
    ensures Run(s, es) == s.(accounts := Run(s, es).accounts) && e !in Run(s, es).accounts
    decreases s.accounts[e]
  {
    if e in s.accounts {
      var rest := AccountsDeleted(Next(s, DeleteAccount(e)), e);
      es := [DeleteAccount(e)] + rest;
      assert es[1..] == rest;
    } else {
      es := [];
    }
  }

  lemma NewSender(s: State, q: Pid, e: Email)
    requires q !in s.senders && e !in s.accounts
    ensures Next(Next(s, SendCheck(q, e)), BeginSend(q)) == s.(senders := s.senders[q := Sender(e, Some(s.clock))])
  {
    assert s.senders[q := Sender(e, None)][q := Sender(e, Some(s.clock))] == s.senders[q := Sender(e, Some(s.clock))];
  }

  /** The condition is exact: after every early removal, in any reachable state, some requests for a code (and
      deletions of the address's account, if it has one) make the next code go out too early. */
  lemma EarlyRemovalBreaksSpacing(s: State, ev: Event, e: Email, early: nat, code: Code)
    requires Bounded(s, e, early) && Early(s, ev, e)
    ensures exists es :: OneMoreClose(Sent(s.log, e), Sent(Run(Next(s, ev), es).log, e), s.cfg.cooldown)
  {
    var t := Next(s, ev);
    var id := Above(s.log.owner.Keys);
    if q :| && q in s.senders && CanStillIssue(s.cfg, s.clock, s.senders[q], e)
            && s.senders[q].startedAt.value < s.rows[e].sentAt + s.cfg.cooldown {
      IssuesClose(t, q, code, id, e);
      RunSnoc(t, [], Issue(q, code, id));
      assert OneMoreClose(Sent(s.log, e), Sent(Run(t, [] + [Issue(q, code, id)]).log, e), s.cfg.cooldown);
    } else {
      var es := NewcomerIsClose(t, e, code, id);
      assert OneMoreClose(Sent(s.log, e), Sent(Run(t, es).log, e), s.cfg.cooldown);
    }
  }

  lemma NewcomerIsClose(t: State, e: Email, code: Code, id: RowId) returns (es: seq<Event>)
    requires e !in t.rows && id !in t.log.owner && |Sent(t.log, e)| > 0
    requires t.clock < Sent(t.log, e)[|Sent(t.log, e)| - 1] + t.cfg.cooldown
    ensures OneMoreClose(Sent(t.log, e), Sent(Run(t, es).log, e), t.cfg.cooldown)
  {
    var deletes := AccountsDeleted(t, e);
    var q := Above(t.senders.Keys);
    SendsClose(Run(t, deletes), q, e, code, id);
    es := deletes + [SendCheck(q, e), BeginSend(q), Issue(q, code, id)];
    RunConcat(t, deletes, [SendCheck(q, e), BeginSend(q), Issue(q, code, id)]);
  }

  lemma SendsClose(a: State, q: Pid, e: Email, code: Code, id: RowId)
    requires e !in a.rows && e !in a.accounts && q !in a.senders && id !in a.log.owner && |Sent(a.log, e)| > 0
    requires a.clock < Sent(a.log, e)[|Sent(a.log, e)| - 1] + a.cfg.cooldown
    ensures OneMoreClose(Sent(a.log, e), Sent(Run(a, [SendCheck(q, e), BeginSend(q), Issue(q, code, id)]).log, e),
                         a.cfg.cooldown)
  {
    NewSender(a, q, e);
    IssuesClose(a.(senders := a.senders[q := Sender(e, Some(a.clock))]), q, code, id, e);
    RunThree(a, SendCheck(q, e), BeginSend(q), Issue(q, code, id));
  }

  // ---------------------------------------------------------------- any time span

  /** The comparisons made from `a` to `b`. */
  function InSpan(gs: seq<Guess>, a: int, b: int): nat
    decreases |gs|
  {
    if gs == [] then 0
    else InSpan(gs[..|gs| - 1], a, b) + if a <= gs[|gs| - 1].at <= b then 1 else 0
  }

  /** Those against the first n codes. */
  function SpanBelow(gs: seq<Guess>, n: nat, a: int, b: int): nat
    decreases |gs|
  {
    if gs == [] then 0
    else SpanBelow(gs[..|gs| - 1], n, a, b) + if a <= gs[|gs| - 1].at <= b && gs[|gs| - 1].issue < n then 1 else 0
  }

  predicate Within(x: int, lo: int, hi: int) {
    lo < x <= hi
  }

  /** How many of the first n times lie in (lo, hi]. */
  function WithinCount(sent: seq<int>, n: nat, lo: int, hi: int): nat
    requires n <= |sent|
  {
    if n == 0 then 0 else WithinCount(sent, n - 1, lo, hi) + if Within(sent[n - 1], lo, hi) then 1 else 0
  }

  lemma {:induction false} AllBelow(gs: seq<Guess>, sent: seq<int>, expiry: nat, clock: int, a: int, b: int)
    requires forall i :: 0 <= i < |gs| ==> GuessOk(sent, expiry, clock, gs[i])
    ensures InSpan(gs, a, b) == SpanBelow(gs, |sent|, a, b) && SpanBelow(gs, 0, a, b) == 0
    decreases |gs|
  {
    if gs != [] {
      assert GuessOk(sent, expiry, clock, gs[|gs| - 1]);
      AllBelow(gs[..|gs| - 1], sent, expiry, clock, a, b);
    }
  }

  /** A code has comparisons in the span only if it was issued in (a - expiry, b]. */
  lemma {:induction false} OneMoreCode(gs: seq<Guess>, sent: seq<int>, expiry: nat, clock: int, a: int, b: int, n: nat)
    requires n < |sent| && forall i :: 0 <= i < |gs| ==> GuessOk(sent, expiry, clock, gs[i])
    ensures SpanBelow(gs, n + 1, a, b)
         <= SpanBelow(gs, n, a, b) + if Within(sent[n], a - expiry, b) then CountFor(gs, n) else 0
    decreases |gs|
  {
    if gs != [] {
      assert GuessOk(sent, expiry, clock, gs[|gs| - 1]);
      OneMoreCode(gs[..|gs| - 1], sent, expiry, clock, a, b, n);
    }
  }

  lemma {:induction false} SpanByCodes(gs: seq<Guess>, sent: seq<int>, expiry: nat, clock: int, a: int, b: int,
                                       n: nat, max: nat)
    requires n <= |sent| && forall i :: 0 <= i < |gs| ==> GuessOk(sent, expiry, clock, gs[i])
    requires forall k :: CountFor(gs, k) <= max
    ensures SpanBelow(gs, n, a, b) <= WithinCount(sent, n, a - expiry, b) * max
    decreases n
  {
    if n == 0 {
      AllBelow(gs, sent, expiry, clock, a, b);
    } else {
      SpanByCodes(gs, sent, expiry, clock, a, b, n - 1, max);
      OneMoreCode(gs, sent, expiry, clock, a, b, n - 1);
      assert CountFor(gs, n - 1) <= max;
      OneMore(WithinCount(sent, n - 1, a - expiry, b), max);
    }
  }

  lemma OneMore(n: nat, max: nat)
    ensures (n + 1) * max == n * max + max
  {
  }

  /** How many of the codes since the last one that went out too early lie in (lo, hi]. */
  function SinceClose(sent: seq<int>, n: nat, cooldown: nat, lo: int, hi: int): nat
    requires n <= |sent|
  {
    if n == 0 then 0
    else (if Close(sent, n - 1, cooldown) then 0 else SinceClose(sent, n - 1, cooldown, lo, hi))
         + if Within(sent[n - 1], lo, hi) then 1 else 0
  }

  lemma {:induction false} SinceCloseSpreads(sent: seq<int>, n: nat, cooldown: nat, lo: int, hi: int)
    requires 0 < n <= |sent| && SinceClose(sent, n, cooldown, lo, hi) > 0
    ensures lo < sent[n - 1] - (SinceClose(sent, n, cooldown, lo, hi) - 1) * cooldown
    decreases n
  {
    var c := SinceClose(sent, n, cooldown, lo, hi);
    if !Close(sent, n - 1, cooldown) && n > 1 && SinceClose(sent, n - 1, cooldown, lo, hi) > 0 {
      var was := SinceClose(sent, n - 1, cooldown, lo, hi);
      SinceCloseSpreads(sent, n - 1, cooldown, lo, hi);
      assert sent[n - 2] + cooldown <= sent[n - 1];
      if c > was {
        OneMore(was - 1, cooldown);
        assert (c - 1) * cooldown == (was - 1) * cooldown + cooldown;
      }
    } else {
      assert c == 1;
    }
  }

  lemma {:induction false} SinceCloseFits(sent: seq<int>, n: nat, cooldown: nat, lo: int, hi: int, m: nat)
    requires n <= |sent| && hi - lo <= m * cooldown
    ensures SinceClose(sent, n, cooldown, lo, hi) <= m
    decreases n
  {
    if n > 0 {
      SinceCloseFits(sent, n - 1, cooldown, lo, hi, m);
      var c := SinceClose(sent, n, cooldown, lo, hi);
      if c > m {
        SinceCloseSpreads(sent, n, cooldown, lo, hi);
        Scale(m, c - 1, cooldown);
        assert false;
      }
    }
  }

  /** The codes issued in (lo, hi] are at most `m` for each stretch between codes that went out too early. */
  lemma {:induction false} CodesInSpan(sent: seq<int>, n: nat, cooldown: nat, lo: int, hi: int, m: nat)
    requires n <= |sent| && hi - lo <= m * cooldown
    ensures WithinCount(sent, n, lo, hi) <= CloseCount(sent, n, cooldown) * m + SinceClose(sent, n, cooldown, lo, hi)
    decreases n
  {
    if n > 0 {
      CodesInSpan(sent, n - 1, cooldown, lo, hi, m);
      SinceCloseFits(sent, n - 1, cooldown, lo, hi, m);
      OneMore(CloseCount(sent, n - 1, cooldown), m);
    }
  }

  lemma Scale(n: nat, m: nat, k: nat)
    requires n <= m
    ensures n * k <= m * k
  {
  }

  /** The comparisons made for one address in any span of time are at most `maxAttempts` for each of the `m`
      issues that fit, a cooldown apart, in that span and one code lifetime before it, once for the run and once
      more for every early removal. */
  lemma GuessesInSpan(cfg: Config, es: seq<Event>, e: Email, a: int, b: int, m: nat)
    requires b - a + cfg.expiry <= m * cfg.cooldown
    ensures InSpan(Guesses(Run(Init(cfg), es).log, e), a, b)
         <= (1 + EarlyRemovals(Init(cfg), es, e)) * m * cfg.maxAttempts
  {
    var s, early := Run(Init(cfg), es), EarlyRemovals(Init(cfg), es, e);
    var sent, gs := Sent(s.log, e), Guesses(s.log, e);
    BoundedInit(cfg, es, e);
    AllBelow(gs, sent, cfg.expiry, s.clock, a, b);
    SpanByCodes(gs, sent, cfg.expiry, s.clock, a, b, |sent|, cfg.maxAttempts);
    SpanTotal(sent, cfg.cooldown, a - cfg.expiry, b, m, early);
    Scale(WithinCount(sent, |sent|, a - cfg.expiry, b), (1 + early) * m, cfg.maxAttempts);
  }

  lemma SpanTotal(sent: seq<int>, cooldown: nat, lo: int, hi: int, m: nat, early: nat)
    requires hi - lo <= m * cooldown && CloseCount(sent, |sent|, cooldown) <= early
    ensures WithinCount(sent, |sent|, lo, hi) <= (1 + early) * m
  {
    CodesInSpan(sent, |sent|, cooldown, lo, hi, m);
    SinceCloseFits(sent, |sent|, cooldown, lo, hi, m);
    Scale(CloseCount(sent, |sent|, cooldown), early, m);
    OneMore(early, m);
  }

  // ---------------------------------------------------------------- early removals are reachable

  /** One request for a code, with its transaction, in one instant. */
  lemma Sends(s: State, q: Pid, id: RowId, code: Code) returns (t: State)
    requires Reachable(DEFAULTS, s) && s.cfg == DEFAULTS && q !in s.senders && ADDRESS !in s.accounts
    requires CanIssue(s, ADDRESS, id, s.clock)
    ensures Reachable(DEFAULTS, t) && t == IssueCode(s, ADDRESS, code, id, s.clock)
  {
    NewSender(s, q, ADDRESS);
    var b := s.(senders := s.senders[q := Sender(ADDRESS, Some(s.clock))]);
    ReachableNext(DEFAULTS, s, SendCheck(q, ADDRESS));
    ReachableNext(DEFAULTS, Next(s, SendCheck(q, ADDRESS)), BeginSend(q));
    ReachableNext(DEFAULTS, b, Issue(q, code, id));
    t := Next(b, Issue(q, code, id));
    SentBy(s, b, q, id, code);
  }

  lemma SentBy(s: State, b: State, q: Pid, id: RowId, code: Code)
    requires q !in s.senders && b == s.(senders := s.senders[q := Sender(ADDRESS, Some(s.clock))])
    requires CanIssue(s, ADDRESS, id, s.clock)
    ensures Next(b, Issue(q, code, id)) == IssueCode(s, ADDRESS, code, id, s.clock)
  {
    assert DropSender(b, q) == s;
  }

  /** A cleanup takes its snapshot of an old code, which is replaced before the DELETE reaches it. */
  lemma EarlyRemovalReachable() returns (s: State)
    ensures Reachable(DEFAULTS, s) && Early(s, CleanEnd(1), ADDRESS)
  {
    s := Init(DEFAULTS);
    assert s == Run(Init(DEFAULTS), []);
    s := Sends(s, 7, 0, "111111");
    ReachableNext(DEFAULTS, s, Tick(2401));
    s := Next(s, Tick(2401));
    ReachableNext(DEFAULTS, s, CleanStart(1, {0}));
    s := Next(s, CleanStart(1, {0}));
    assert !Locked(s, ADDRESS) && s.cleaners == map[1 := {0}];
    s := Sends(s, 8, 0, "222222");
  }
}
