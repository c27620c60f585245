/**
 One refresh-token exchange: rotate a live token, hand the family's newest token to a request inside
 the grace window, delete an expired token, revoke the family of a token reused later.

 Every method names what the other sessions do between its own statements; its promises hold for all
 of those schedules.
 */
module RefreshRotation {
  import opened Options
  import opened RefreshTables
  import opened RefreshInvariant
  import opened RefreshFamily
  import opened RefreshRevocation

  const MAX_SUCCESSOR_HOPS := 5

  /** `Waiting` is a statement that still waits for a row lock; `Failed` is a rolled-back exchange. */
  datatype Outcome =
    | Issued(userId: UserId, refreshToken: Token)
    | Invalid
    | Expired
    | Reused(userId: UserId, familyId: FamilyId)
    | Waiting
    | Failed

  // ---------------------------------------------------------------- the walk on one table state

  function Walk(rows: map<Hash, Row>, token: Token, current: Row, now: int, hops: nat): Outcome
    decreases hops
  {
    if hops == 0 || current.successor.None? then Invalid
    else
      match OpenSuccessor(token, Hash(token), current.successor.value)
      case None => Invalid
      case Some(next) =>
        if Hash(next) !in rows || rows[Hash(next)].expiresAt <= now then Invalid
        else if rows[Hash(next)].rotatedAt.None? then Issued(rows[Hash(next)].userId, next)
        else Walk(rows, next, rows[Hash(next)], now, hops - 1)
  }

  /** A client that presents a token, is handed only its direct successor, and presents that one in
      turn, each time under the expiry and grace rules, until it holds the live token. */
  function InTurn(rows: map<Hash, Row>, token: Token, now: int, grace: nat, hops: nat): Outcome
    decreases hops
  {
    if hops == 0 || Hash(token) !in rows then Invalid
    else
      var row := rows[Hash(token)];
      if row.expiresAt <= now || row.rotatedAt.None? || now - row.rotatedAt.value > grace
         || row.successor.None? then Invalid
      else
        match OpenSuccessor(token, Hash(token), row.successor.value)
        case None => Invalid
        case Some(next) =>
          if Hash(next) !in rows || rows[Hash(next)].expiresAt <= now then Invalid
          else if rows[Hash(next)].rotatedAt.None? then Issued(rows[Hash(next)].userId, next)
          else InTurn(rows, next, now, grace, hops - 1)
  }

  /** The walk checks the grace window once, for the presented token; every later link was rotated
      later, so it grants exactly what presenting each token in turn would grant. */
  lemma {:induction false} WalkIsInTurn(s: State, token: Token, now: int, grace: nat, hops: nat)
    requires Inv(s) && Hash(token) in s.rows && now < s.rows[Hash(token)].expiresAt
    requires s.rows[Hash(token)].rotatedAt.Some? && now - s.rows[Hash(token)].rotatedAt.value <= grace
    ensures Walk(s.rows, token, s.rows[Hash(token)], now, hops) == InTurn(s.rows, token, now, grace, hops)
    decreases hops
  {
    if hops > 0 {
      assert s.rows[Hash(token)] == RowOf(s.log, token) && LinkOk(s.log.issued, token);
      var next := s.log.issued[token].next.value;
      if Hash(next) in s.rows && s.rows[Hash(next)].rotatedAt.Some? && now < s.rows[Hash(next)].expiresAt {
        assert s.rows[Hash(next)] == RowOf(s.log, next) && LinkOk(s.log.issued, next);
        WalkIsInTurn(s, next, now, grace, hops - 1);
      }
    }
  }

  /** The newest token of `token`'s family if it is at most `hops` links ahead. */
  function Reach(log: Log, token: Token, hops: nat): Outcome
    requires token in log.issued && log.issued[token].familyId in log.last
    requires log.last[log.issued[token].familyId] in log.issued
  {
    if Distance(log, token) <= hops
    then Issued(log.issued[token].userId, log.last[log.issued[token].familyId]) else Invalid
  }

  function Answer(log: Log, token: Token): Outcome
    requires token in log.issued && log.issued[token].familyId in log.last
    requires log.last[log.issued[token].familyId] in log.issued
  {
    Reach(log, token, MAX_SUCCESSOR_HOPS)
  }

  /** On one table state the walk from a standing token gives the family's newest token, if that is
      within reach. */
  lemma {:induction false} WalkAnswers(s: State, token: Token, now: int, hops: nat)
    requires Chained(s) && Stands(s, token) && s.log.issued[token].next.Some? && now <= s.clock
    requires s.log.issued[token].familyId in s.log.last
    requires s.log.last[s.log.issued[token].familyId] in s.log.issued
    ensures Walk(s.rows, token, s.rows[Hash(token)], now, hops) == Reach(s.log, token, hops)
    decreases hops
  {
    if hops > 0 {
      BothStep(s, token, now, hops);
      var next := s.log.issued[token].next.value;
      if s.log.issued[next].next.Some? {
        WalkAnswers(s, next, now, hops - 1);
      }
    } else {
      BothStep(s, token, now, 0);
    }
  }

  /** One link further, the walk and what it should reach develop alike. */
  lemma BothStep(s: State, token: Token, now: int, hops: nat)
    requires Chained(s) && Stands(s, token) && s.log.issued[token].next.Some? && now <= s.clock
    requires s.log.issued[token].familyId in s.log.last
    requires s.log.last[s.log.issued[token].familyId] in s.log.issued
    ensures var next := s.log.issued[token].next.value;
            && Stands(s, next)
            && s.log.issued[next].familyId == s.log.issued[token].familyId
            && var stop := if hops == 0 then Invalid else Issued(s.log.issued[token].userId, next);
               if hops > 0 && s.log.issued[next].next.Some? then
                 && Walk(s.rows, token, s.rows[Hash(token)], now, hops) == Walk(s.rows, next, s.rows[Hash(next)], now, hops - 1)
                 && Reach(s.log, token, hops) == Reach(s.log, next, hops - 1)
               else
                 && Walk(s.rows, token, s.rows[Hash(token)], now, hops) == stop
                 && Reach(s.log, token, hops) == stop
  {
  }

  ghost predicate Elsewhere(es: seq<Event>, pid: Pid) {
    forall e :: e in es ==> !Acts(e, pid)
  }

  /** The outcome hands out the live token of `token`'s family, to its owner. */
  ghost predicate IsLive(s: State, token: Token, o: Outcome)
    requires o.Issued? && token in s.log.issued
  {
    var f := s.log.issued[token].familyId;
    && f in s.log.last && s.log.last[f] == o.refreshToken
    && Hash(o.refreshToken) in s.rows && s.rows[Hash(o.refreshToken)].rotatedAt.None?
    && o.userId == s.log.issued[token].userId
  }

  /** The walk from `token` has followed `hop` links and holds `current`, whose successor is sealed in
      the row it read. */
  ghost predicate AtHop(log: Log, token: Token, current: Token, row: Row, hop: nat) {
    && token in log.issued && current in log.issued
    && log.issued[current].next.Some?
    && row.successor == Some(Sealed(current, Hash(current), log.issued[current].next.value))
    && log.issued[current].familyId == log.issued[token].familyId
    && log.issued[current].userId == log.issued[token].userId
    && log.issued[current].pos == log.issued[token].pos + hop
  }

  lemma AtHopLater(a: State, b: State, token: Token, current: Token, row: Row, hop: nat)
    requires Later(a, b) && AtHop(a.log, token, current, row, hop)
    ensures AtHop(b.log, token, current, row, hop)
  {
  }

  /** While the presented token stands, so does every later one. */
  lemma {:induction false} LaterStands(s: State, t: Token, u: Token)
    requires Inv(s) && Stands(s, t) && u in s.log.issued
    requires s.log.issued[u].familyId == s.log.issued[t].familyId && s.log.issued[t].pos <= s.log.issued[u].pos
    ensures Stands(s, u)
    decreases s.log.issued[u].pos - s.log.issued[t].pos
  {
    assert EndOk(s.log, u) && EndOk(s.log, t);
    if s.log.issued[t].pos < s.log.issued[u].pos {
      Link(s, t);
      LaterStands(s, s.log.issued[t].next.value, u);
    }
  }

  /** What one read of the walk establishes: a missing or expired successor means that the presented
      token no longer stands, an unrotated one is the live token, a rotated one is the next hop. */
  lemma HopDecides(s: State, token: Token, current: Token, row: Row, hop: nat, now: int)
    requires Inv(s) && AtHop(s.log, token, current, row, hop) && now <= s.clock
    ensures s.log.issued[token].familyId in s.log.last
    ensures s.log.last[s.log.issued[token].familyId] in s.log.issued
    ensures var next := s.log.issued[current].next.value;
            if Hash(next) !in s.rows || s.rows[Hash(next)].expiresAt <= now then !Stands(s, token)
            else if s.rows[Hash(next)].rotatedAt.None? then
              IsLive(s, token, Issued(s.rows[Hash(next)].userId, next)) && Distance(s.log, token) == hop + 1
            else AtHop(s.log, token, next, s.rows[Hash(next)], hop + 1)
  {
    var next := s.log.issued[current].next.value;
    assert LinkOk(s.log.issued, current) && LinkOk(s.log.issued, next);
    assert EndOk(s.log, next) && EndOk(s.log, token);
    if Hash(next) in s.rows {
      assert s.rows[Hash(next)] == RowOf(s.log, next);
    }
    if Stands(s, token) {
      LaterStands(s, token, next);
    }
  }

  lemma HopsExhausted(s: State, token: Token, current: Token, row: Row, hop: nat)
    requires Inv(s) && AtHop(s.log, token, current, row, hop)
    ensures s.log.issued[token].familyId in s.log.last
    ensures s.log.last[s.log.issued[token].familyId] in s.log.issued
    ensures Distance(s.log, token) > hop
  {
  }

  /** `latestSuccessor`: walks from the presented token to the family's live token, reading rows while
      the others go on. Relative to the state it returns in, the answer is exact. */
  method LatestSuccessor(db: RefreshStore, token: Token, record: Row, now: int, others: seq<seq<Event>>,
                         ghost pid: Pid)
    returns (o: Outcome, ghost trace: seq<Event>)
    requires Inv(db.s) && AtHop(db.s.log, token, token, record, 0) && now <= db.s.clock
    requires |others| == MAX_SUCCESSOR_HOPS
    requires forall k :: 0 <= k < |others| ==> Elsewhere(others[k], pid)
    modifies db
    ensures Inv(db.s) && db.s == Run(old(db.s), trace) && Elsewhere(trace, pid)
    ensures o.Issued? || o.Invalid?
    ensures token in db.s.log.issued && db.s.log.issued[token].familyId in db.s.log.last
    ensures db.s.log.last[db.s.log.issued[token].familyId] in db.s.log.issued
    ensures o.Issued? ==> IsLive(db.s, token, o)
    ensures Stands(db.s, token) ==> o == Answer(db.s.log, token)
  {
    var currentToken, current := token, record;
    trace := [];
    for hop := 0 to MAX_SUCCESSOR_HOPS
      invariant Inv(db.s) && db.s == Run(old(db.s), trace) && Elsewhere(trace, pid) && now <= db.s.clock
      invariant AtHop(db.s.log, token, currentToken, current, hop)
    {
      var next := OpenSuccessor(currentToken, Hash(currentToken), current.successor.value).value;
      ghost var was := db.s;
      RunLater(was, others[hop]);
      RunConcat(old(db.s), trace, others[hop]);
      db.s := Run(db.s, others[hop]);
      trace := trace + others[hop];
      AtHopLater(was, db.s, token, currentToken, current, hop);
      HopDecides(db.s, token, currentToken, current, hop, now);
      if Hash(next) !in db.s.rows || db.s.rows[Hash(next)].expiresAt <= now {
        return Invalid, trace;
      }
      var row := db.s.rows[Hash(next)];
      if row.rotatedAt.None? {
        return Issued(row.userId, next), trace;
      }
      currentToken, current := next, row;
    }
    HopsExhausted(db.s, token, currentToken, current, MAX_SUCCESSOR_HOPS);
    return Invalid, trace;
  }

  // ---------------------------------------------------------------- the other branches

  /** A running DELETE after `during`, once it has locked what it can. */
  lemma FinishStatement(b: State, pid: Pid, during: seq<Event>)
    requires Inv(b) && pid in b.txs && b.txs[pid].Deleting? && Meanwhile(during, pid)
    ensures var c := Run(b, during);
            && pid in c.txs && c.txs[pid].Deleting?
            && var finish := DeleteLock(pid, c.txs[pid].todo);
               var d := Next(c, finish);
               && d == Run(b, during + [finish]) && Inv(d)
               && PassProgress(b, d, pid)
  {
    HeldRun(b, during, pid);
    var c := Run(b, during);
    var finish := DeleteLock(pid, c.txs[pid].todo);
    RunSnoc(b, during, finish);
    RunInv(b, during + [finish]);
    ProgressRun(b, during + [finish], pid);
  }

  lemma ExpiredGone(b: State, d: State, pid: Pid, h: Hash)
    requires PassProgress(b, d, pid) && b.txs[pid] == Deleting({}, {h}) && d.txs[pid].todo == {}
    ensures h !in Next(d, Commit(pid)).rows && pid !in Next(d, Commit(pid)).txs
  {
  }

  lemma RunAround(a: State, first: Event, during: seq<Event>, last: Event)
    ensures Run(a, [first] + during + [last]) == Next(Run(Next(a, first), during), last)
  {
    assert ([first] + during + [last])[1..] == during + [last];
    RunSnoc(Next(a, first), during, last);
  }

  lemma ExpireStarts(a: State, pid: Pid, h: Hash)
    requires Inv(a) && pid !in a.txs && h in a.rows && a.rows[h].expiresAt <= a.clock
    ensures var b := Next(a, ExpireStart(pid, {h})); Inv(b) && pid in b.txs && b.txs[pid] == Deleting({}, {h})
  {
    OneExpires(a, pid, h);
    NextInv(a, ExpireStart(pid, {h}));
  }

  lemma OneExpires(a: State, pid: Pid, h: Hash)
    requires pid !in a.txs && h in a.rows && a.rows[h].expiresAt <= a.clock
    ensures Next(a, ExpireStart(pid, {h})) == a.(txs := a.txs[pid := Deleting({}, {h})])
  {
  }

  /** The DELETE of one expired row, up to its commit. */
  lemma ExpirePass(b: State, pid: Pid, h: Hash, during: seq<Event>)
    requires Inv(b) && pid in b.txs && b.txs[pid] == Deleting({}, {h}) && Meanwhile(during, pid)
    ensures var c := Run(b, during);
            && pid in c.txs && c.txs[pid].Deleting?
            && var d := Next(c, DeleteLock(pid, c.txs[pid].todo));
               && Inv(d) && pid in d.txs && d.txs[pid].Deleting?
               && (d.txs[pid].todo == {} ==> h !in Next(d, Commit(pid)).rows && pid !in Next(d, Commit(pid)).txs)
               && (d.txs[pid].todo != {} ==> Blocked(d, pid))
  {
    FinishStatement(b, pid, during);
    LeftIsLocked(Run(b, during), pid);
    var d := Next(Run(b, during), DeleteLock(pid, Run(b, during).txs[pid].todo));
    if d.txs[pid].todo == {} {
      ExpiredGone(b, d, pid, h);
    }
  }

  /** The expired token's row is deleted; afterwards it is gone, or the DELETE waits for who holds it. */
  method DeleteExpired(db: RefreshStore, pid: Pid, h: Hash, during: seq<Event>)
    returns (done: bool, ghost trace: seq<Event>)
    requires Inv(db.s) && pid !in db.s.txs && h in db.s.rows && db.s.rows[h].expiresAt <= db.s.clock
    requires Meanwhile(during, pid)
    modifies db
    ensures Inv(db.s) && db.s == Run(old(db.s), trace)
    ensures done ==> h !in db.s.rows && pid !in db.s.txs
    ensures !done ==> Blocked(db.s, pid)
  {
    ExpireStarts(db.s, pid, h);
    db.s := Next(db.s, ExpireStart(pid, {h}));
    ExpirePass(db.s, pid, h, during);
    RunAround(old(db.s), ExpireStart(pid, {h}), during, DeleteLock(pid, Run(db.s, during).txs[pid].todo));
    db.s := Run(db.s, during);
    trace := [ExpireStart(pid, {h})] + during + [DeleteLock(pid, db.s.txs[pid].todo)];
    db.s := Next(db.s, DeleteLock(pid, db.s.txs[pid].todo));
    done := db.s.txs[pid].todo == {};
    if done {
      NextInv(db.s, Commit(pid));
      RunSnoc(old(db.s), trace, Commit(pid));
      db.s := Next(db.s, Commit(pid));
      trace := trace + [Commit(pid)];
    }
  }

  lemma RotatingNext(s: State, e: Event, pid: Pid)
    requires pid in s.txs && s.txs[pid].Rotating? && !Acts(e, pid)
    ensures pid in Next(s, e).txs && Next(s, e).txs[pid] == s.txs[pid]
  {
  }

  lemma {:induction false} RotatingRun(s: State, es: seq<Event>, pid: Pid)
    requires pid in s.txs && s.txs[pid].Rotating? && Elsewhere(es, pid)
    ensures pid in Run(s, es).txs && Run(s, es).txs[pid] == s.txs[pid]
    decreases |es|
  {
    if es != [] {
      RotatingNext(s, es[0], pid);
      RotatingRun(Next(s, es[0]), es[1..], pid);
    }
  }

  /** The presented token was replaced by `successor`, which is now the live token of the family. */
  lemma CommittedIsLive(s: State, pid: Pid)
    requires Inv(s) && CanCommit(s, pid) && s.txs[pid].Rotating?
    ensures var tx, s' := s.txs[pid], Next(s, Commit(pid));
            && tx.token in s'.log.issued
            && IsLive(s', tx.token, Issued(s.log.issued[tx.token].userId, tx.successor))
            && s'.log.last[s'.log.issued[tx.token].familyId] in s'.log.issued
            && Distance(s'.log, tx.token) == 1
            && s'.log.issued[tx.token].next == Some(tx.successor)
            && s'.log.issued[tx.successor].createdAt == tx.now
            && ExpiresAt(s'.log, tx.token) == ExpiresAt(s.log, tx.token)
  {
    assert TxOk(s.rows.Keys, s.log, s.clock, s.txs[pid]);
  }

  /** The state of a rotation just before it commits. */
  lemma BeforeCommit(a: State, pid: Pid, third: seq<Event>, fourth: seq<Event>)
    requires Inv(a) && pid in a.txs && a.txs[pid].Rotating?
    requires Elsewhere(third, pid) && Elsewhere(fourth, pid)
    ensures var b := Run(Next(Run(a, third), Insert(pid)), fourth);
            && Inv(b) && b == Run(a, third + [Insert(pid)] + fourth) && Later(a, b)
            && CanCommit(b, pid) && b.txs[pid] == a.txs[pid].(inserted := true)
            && a.txs[pid].token in a.log.issued
  {
    assert TxOk(a.rows.Keys, a.log, a.clock, a.txs[pid]);
    RotatingRun(a, third, pid);
    RunSnoc(a, third, Insert(pid));
    var m := Next(Run(a, third), Insert(pid));
    RotatingRun(m, fourth, pid);
    RunConcat(a, third + [Insert(pid)], fourth);
    RunLater(a, third + [Insert(pid)] + fourth);
    assert TxOk(Run(m, fourth).rows.Keys, Run(m, fourth).log, Run(m, fourth).clock, Run(m, fourth).txs[pid]);
  }

  /** In `d` the token rotated by `tx` is followed by its successor, the live token of the family. */
  ghost predicate Replaced(a: State, tx: Tx, d: State)
    requires tx.Rotating?
  {
    && tx.token in a.log.issued && tx.token in d.log.issued
    && IsLive(d, tx.token, Issued(a.log.issued[tx.token].userId, tx.successor))
    && d.log.last[d.log.issued[tx.token].familyId] in d.log.issued
    && Distance(d.log, tx.token) == 1
    && ExpiresAt(d.log, tx.token) == ExpiresAt(a.log, tx.token)
  }

  lemma AfterCommit(a: State, pid: Pid, third: seq<Event>, fourth: seq<Event>)
    requires Inv(a) && pid in a.txs && a.txs[pid].Rotating?
    requires Elsewhere(third, pid) && Elsewhere(fourth, pid)
    ensures var d := Next(Run(Next(Run(a, third), Insert(pid)), fourth), Commit(pid));
            Inv(d) && d == Run(a, third + [Insert(pid)] + fourth + [Commit(pid)]) && Replaced(a, a.txs[pid], d)
  {
    BeforeCommit(a, pid, third, fourth);
    var es := third + [Insert(pid)] + fourth;
    RunSnoc(a, es, Commit(pid));
    RunInv(a, es + [Commit(pid)]);
    CommitReplaces(a, Run(a, es), pid);
  }

  lemma CommitReplaces(a: State, b: State, pid: Pid)
    requires Inv(b) && Later(a, b) && CanCommit(b, pid) && pid in a.txs && a.txs[pid].Rotating?
    requires b.txs[pid] == a.txs[pid].(inserted := true) && a.txs[pid].token in a.log.issued
    ensures Replaced(a, a.txs[pid], Next(b, Commit(pid)))
  {
    CommittedIsLive(b, pid);
    assert Grown(a.log.issued[a.txs[pid].token], b.log.issued[a.txs[pid].token]);
  }

  /** The claimed row is marked rotated, its successor inserted, and both are committed together. */
  method InsertAndCommit(db: RefreshStore, pid: Pid, third: seq<Event>, fourth: seq<Event>)
    returns (ghost trace: seq<Event>)
    requires Inv(db.s) && pid in db.s.txs && db.s.txs[pid].Rotating?
    requires Elsewhere(third, pid) && Elsewhere(fourth, pid)
    modifies db
    ensures Inv(db.s) && db.s == Run(old(db.s), trace)
    ensures Replaced(old(db.s), old(db.s).txs[pid], db.s)
  {
    AfterCommit(db.s, pid, third, fourth);
    trace := third + [Insert(pid)] + fourth + [Commit(pid)];
    db.s := Run(db.s, third);
    db.s := Next(db.s, Insert(pid));
    db.s := Run(db.s, fourth);
    db.s := Next(db.s, Commit(pid));
  }

  // ---------------------------------------------------------------- a rotated token is presented

  /** `record`, read for `token`, shows the rotation to the successor the history names. */
  ghost predicate ReadRotated(log: Log, token: Token, record: Row) {
    && AtHop(log, token, token, record, 0)
    && log.issued[token].next.value in log.issued
    && record.rotatedAt == Some(log.issued[log.issued[token].next.value].createdAt)
    && record.userId == log.issued[token].userId && record.familyId == log.issued[token].familyId
  }

  /** The rotation of `token` lies at most `grace` before `now`. */
  ghost predicate InGrace(log: Log, token: Token, now: int, grace: nat) {
    && token in log.issued && log.issued[token].next.Some? && log.issued[token].next.value in log.issued
    && now - log.issued[log.issued[token].next.value].createdAt <= grace
  }

  lemma ReadShows(s: State, token: Token)
    requires Inv(s) && Hash(token) in s.rows && s.rows[Hash(token)].rotatedAt.Some?
    ensures ReadRotated(s.log, token, s.rows[Hash(token)])
  {
  }

  lemma InGraceLater(a: State, b: State, token: Token, now: int, grace: nat)
    requires Inv(a) && Later(a, b) && token in a.log.issued && a.log.issued[token].next.Some?
    ensures InGrace(a.log, token, now, grace) <==> InGrace(b.log, token, now, grace)
  {
  }

  /** What a completed answer to a presented token means, from the request's start `a` to its end `b`. */
  ghost predicate Answered(a: State, trace: seq<Event>, b: State, pid: Pid, token: Token, now: int, grace: nat,
                           minted: Option<Token>, o: Outcome)
  {
    match o
    case Issued(_, t) =>
      && token in b.log.issued && IsLive(b, token, o)
      && (Some(t) != minted ==> InGrace(b.log, token, now, grace))
    case Invalid => Elsewhere(trace, pid)
    case Expired => true
    case Reused(u, f) =>
      && token in b.log.issued && b.log.issued[token].familyId == f && b.log.issued[token].userId == u
      && !InGrace(b.log, token, now, grace)
      && pid !in b.txs
      && (SoleDeleter(a, trace, pid, OfFamily(u, f)) ==> f in b.log.last && Dead(b, f))
    case Waiting => Blocked(b, pid) || (pid !in b.txs && Locked(b, Hash(token)) && Elsewhere(trace, pid))
    case Failed =>
      && pid !in b.txs
      && token in b.log.issued && !InGrace(b.log, token, now, grace)
      && NewRows(a, trace, OfFamily(b.log.issued[token].userId, b.log.issued[token].familyId))
           >= MAX_REVOCATION_PASSES - 1
  }

  /** Relative to the state the request ends in, a standing token is answered exactly. */
  ghost predicate Exact(b: State, token: Token, o: Outcome) {
    (o.Issued? || o.Invalid?) && Stands(b, token) ==>
      && b.log.issued[token].familyId in b.log.last
      && b.log.last[b.log.issued[token].familyId] in b.log.issued
      && o == Answer(b.log, token)
  }

  predicate Granted(o: Outcome) {
    o.Issued? || o.Invalid?
  }

  /** All requests that present one standing token get the same answer, whether they won the claim,
      lost it or came later, as long as no newer rotation of the family commits in between. */
  lemma RequestsAgree(b: State, es: seq<Event>, token: Token, first: Outcome, second: Outcome)
    requires Inv(b) && Stands(Run(b, es), token) && token in b.log.issued
    requires Granted(first) && Exact(b, token, first)
    requires Granted(second) && Exact(Run(b, es), token, second)
    requires var f := b.log.issued[token].familyId;
             f in Run(b, es).log.last && f in b.log.last && Run(b, es).log.last[f] == b.log.last[f]
    ensures first == second
  {
    RunLater(b, es);
    AnswersAgree(b, Run(b, es), token);
  }

  lemma AnswersAgree(b: State, c: State, token: Token)
    requires Later(b, c) && Stands(c, token) && token in b.log.issued
    requires var f := b.log.issued[token].familyId;
             f in c.log.last && f in b.log.last && c.log.last[f] == b.log.last[f] && b.log.last[f] in b.log.issued
    ensures Stands(b, token) && Answer(b.log, token) == Answer(c.log, token)
  {
    assert Grown(b.log.issued[token], c.log.issued[token]);
    var newest := b.log.last[b.log.issued[token].familyId];
    assert Grown(b.log.issued[newest], c.log.issued[newest]);
  }

  lemma ReusedRollsBack(a: State, tr: seq<Event>, b: State, pid: Pid, filter: Filter)
    requires Inv(b) && b == Run(a, tr)
    ensures var c := Next(b, Rollback(pid));
            && Inv(c) && c == Run(a, tr + [Rollback(pid)]) && pid !in c.txs && c.log == b.log
            && NewRows(a, tr + [Rollback(pid)], filter) >= NewRows(a, tr, filter)
  {
    NextInv(b, Rollback(pid));
    RunSnoc(a, tr, Rollback(pid));
    NewRowsConcat(a, tr, [Rollback(pid)], filter);
  }

  lemma ReusedCommits(a: State, tr: seq<Event>, b: State, pid: Pid, filter: Filter)
    requires Inv(b) && b == Run(a, tr) && pid in b.txs && CanCommit(b, pid)
    requires filter.OfFamily? && FamilyMatches(a.log, filter.familyId, filter) && Later(a, b)
    requires b.txs[pid].Deleting?
    requires SoleDeleter(a, tr, pid, filter) ==> SealedOff(b, pid, filter.familyId)
    ensures var c := Next(b, Commit(pid));
            && Inv(c) && c == Run(a, tr + [Commit(pid)]) && pid !in c.txs && c.log == b.log
            && filter.familyId in c.log.last
            && (SoleDeleter(a, tr + [Commit(pid)], pid, filter) ==> Dead(c, filter.familyId))
  {
    NextInv(b, Commit(pid));
    RunSnoc(a, tr, Commit(pid));
    ReusedDead(a, tr, b, pid, filter);
  }

  lemma ReusedDead(a: State, tr: seq<Event>, b: State, pid: Pid, filter: Filter)
    requires b == Run(a, tr) && pid in b.txs && CanCommit(b, pid) && filter.OfFamily?
    requires SoleDeleter(a, tr, pid, filter) ==> SealedOff(b, pid, filter.familyId)
    ensures SoleDeleter(a, tr + [Commit(pid)], pid, filter) ==> Dead(Next(b, Commit(pid)), filter.familyId)
  {
    SoleDeleterConcat(a, tr, [Commit(pid)], pid, filter);
    if SealedOff(b, pid, filter.familyId) {
      SealedCommits(b, pid, filter.familyId);
    }
  }

  lemma FailedAnswer(a: State, tr: seq<Event>, b: State, pid: Pid, token: Token, record: Row, now: int, grace: nat)
    requires Inv(a) && Inv(b) && b == Run(a, tr) && ReadRotated(a.log, token, record)
    requires !InGrace(a.log, token, now, grace)
    requires NewRows(a, tr, OfFamily(record.userId, record.familyId)) >= MAX_REVOCATION_PASSES - 1
    ensures var c := Next(b, Rollback(pid));
            && Inv(c) && c == Run(a, tr + [Rollback(pid)])
            && Answered(a, tr + [Rollback(pid)], c, pid, token, now, grace, None, Failed)
  {
    ReusedRollsBack(a, tr, b, pid, OfFamily(record.userId, record.familyId));
    RunLater(a, tr);
    InGraceLater(a, b, token, now, grace);
    assert Grown(a.log.issued[token], b.log.issued[token]);
  }

  lemma ReusedAnswer(a: State, tr: seq<Event>, b: State, pid: Pid, token: Token, record: Row, now: int, grace: nat)
    requires Inv(a) && Inv(b) && b == Run(a, tr) && ReadRotated(a.log, token, record)
    requires !InGrace(a.log, token, now, grace)
    requires pid in b.txs && CanCommit(b, pid) && b.txs[pid].Deleting?
    requires var filter := OfFamily(record.userId, record.familyId);
             SoleDeleter(a, tr, pid, filter) ==>
               forall f :: FamilyMatches(a.log, f, filter) ==> SealedOff(b, pid, f)
    ensures var c := Next(b, Commit(pid));
            && Inv(c) && c == Run(a, tr + [Commit(pid)])
            && Answered(a, tr + [Commit(pid)], c, pid, token, now, grace, None, Reused(record.userId, record.familyId))
  {
    var filter := OfFamily(record.userId, record.familyId);
    RunLater(a, tr);
    InGraceLater(a, b, token, now, grace);
    assert Grown(a.log.issued[token], b.log.issued[token]);
    OneOwner(a.log, token);
    assert FamilyMatches(a.log, record.familyId, filter);
    ReusedCommits(a, tr, b, pid, filter);
  }

  /** Reuse after the grace window: revoke the family in this transaction and commit, or roll back. */
  method RevokeReused(db: RefreshStore, pid: Pid, ghost token: Token, record: Row, ghost now: int, ghost grace: nat,
                      before: seq<seq<Event>>, during: seq<seq<Event>>)
    returns (o: Outcome, ghost trace: seq<Event>)
    requires Inv(db.s) && pid !in db.s.txs && ReadRotated(db.s.log, token, record)
    requires !InGrace(db.s.log, token, now, grace)
    requires ScheduleFor(before, during, pid) && |before| == MAX_REVOCATION_PASSES
    modifies db
    ensures Inv(db.s) && db.s == Run(old(db.s), trace)
    ensures o.Reused? || o.Failed? || (o.Waiting? && Blocked(db.s, pid))
    ensures Answered(old(db.s), trace, db.s, pid, token, now, grace, None, o)
  {
    var r, e := db.RevokeRefreshTokens(pid, OfFamily(record.userId, record.familyId), true, before, during);
    trace := e.trace;
    match r
    case StillWaiting =>
      o := Waiting;
    case NotConverged =>
      FailedAnswer(old(db.s), trace, db.s, pid, token, record, now, grace);
      db.s := Next(db.s, Rollback(pid));
      o, trace := Failed, trace + [Rollback(pid)];
    case Removed(_) =>
      ReusedAnswer(old(db.s), trace, db.s, pid, token, record, now, grace);
      db.s := Next(db.s, Commit(pid));
      o, trace := Reused(record.userId, record.familyId), trace + [Commit(pid)];
  }

  // ---------------------------------------------------------------- the whole exchange

  /** What the others do before each statement of one exchange. */
  datatype Schedule = Schedule(
    first: seq<Event>, second: seq<Event>, third: seq<Event>, fourth: seq<Event>,
    hops: seq<seq<Event>>, before: seq<seq<Event>>, during: seq<seq<Event>>)

  ghost predicate ScheduleOk(sch: Schedule, pid: Pid) {
    && Elsewhere(sch.first, pid) && Elsewhere(sch.second, pid)
    && Elsewhere(sch.third, pid) && Elsewhere(sch.fourth, pid)
    && |sch.hops| == MAX_SUCCESSOR_HOPS
    && (forall k :: 0 <= k < |sch.hops| ==> Elsewhere(sch.hops[k], pid))
    && ScheduleFor(sch.before, sch.during, pid) && |sch.before| == MAX_REVOCATION_PASSES
  }

  /** How a token that was read rotated is answered: inside its grace window by the walk, after it by
      revocation, which may have to wait for rows that others hold. */
  ghost predicate DecidesRotated(row: Row, b: State, pid: Pid, now: int, grace: nat, o: Outcome) {
    if row.rotatedAt.Some? && now - row.rotatedAt.value <= grace then o.Issued? || o.Invalid?
    else o.Reused? || o.Failed? || (o.Waiting? && Blocked(b, pid))
  }

  /** The presented token was found rotated: reuse, or the walk to the newest token. */
  method AnswerRotated(db: RefreshStore, pid: Pid, token: Token, record: Row, now: int, grace: nat, sch: Schedule)
    returns (o: Outcome, ghost trace: seq<Event>)
    requires Inv(db.s) && pid !in db.s.txs && ReadRotated(db.s.log, token, record) && now <= db.s.clock
    requires ScheduleOk(sch, pid)
    modifies db
    ensures Inv(db.s) && db.s == Run(old(db.s), trace)
    ensures Answered(old(db.s), trace, db.s, pid, token, now, grace, None, o) && Exact(db.s, token, o)
    ensures DecidesRotated(record, db.s, pid, now, grace, o)
  {
    if now - record.rotatedAt.value > grace {
      o, trace := RevokeReused(db, pid, token, record, now, grace, sch.before, sch.during);
    } else {
      o, trace := LatestSuccessor(db, token, record, now, sch.hops, pid);
      RunLater(old(db.s), trace);
      InGraceLater(old(db.s), db.s, token, now, grace);
    }
  }

  lemma ElsewhereConcat(es: seq<Event>, fs: seq<Event>, pid: Pid)
    requires Elsewhere(es, pid) && Elsewhere(fs, pid)
    ensures Elsewhere(es + fs, pid)
  {
  }

  lemma {:induction false} AbsentRun(s: State, es: seq<Event>, pid: Pid)
    requires pid !in s.txs && Elsewhere(es, pid)
    ensures pid !in Run(s, es).txs
    decreases |es|
  {
    if es != [] {
      AbsentNext(s, es[0], pid);
      AbsentRun(Next(s, es[0]), es[1..], pid);
    }
  }

  lemma AbsentNext(s: State, e: Event, pid: Pid)
    requires pid !in s.txs && !Acts(e, pid)
    ensures pid !in Next(s, e).txs
  {
  }

  /** An answer found after the others' events `es` is the answer of the whole exchange. */
  lemma AnsweredEarlier(a: State, es: seq<Event>, tr: seq<Event>, b: State, pid: Pid, token: Token, now: int,
                        grace: nat, minted: Option<Token>, o: Outcome)
    requires Answered(Run(a, es), tr, b, pid, token, now, grace, None, o) && Elsewhere(es, pid)
    ensures Answered(a, es + tr, b, pid, token, now, grace, minted, o)
    ensures Run(a, es + tr) == Run(Run(a, es), tr)
  {
    RunConcat(a, es, tr);
    match o
    case Issued(_, t) =>
    case Invalid => ElsewhereConcat(es, tr, pid);
    case Reused(u, f) => SoleDeleterConcat(a, es, tr, pid, OfFamily(u, f));
    case Failed =>
      NewRowsConcat(a, es, tr, OfFamily(b.log.issued[token].userId, b.log.issued[token].familyId));
    case Waiting => if Elsewhere(tr, pid) { ElsewhereConcat(es, tr, pid); }
    case _ =>
  }

  /** A token whose row is gone is not standing, so `Invalid` is the exact answer. */
  lemma GoneIsInvalid(a: State, es: seq<Event>, pid: Pid, token: Token, now: int, grace: nat, minted: Option<Token>)
    requires Elsewhere(es, pid) && Hash(token) !in Run(a, es).rows
    ensures Answered(a, es, Run(a, es), pid, token, now, grace, minted, Invalid) && Exact(Run(a, es), token, Invalid)
  {
  }

  /** Why the claim succeeds on an unlocked, unrotated row. */
  lemma ClaimGuard(a: State, m: State, b: State, pid: Pid, token: Token, successor: Token)
    requires Past(a.log, a.clock) && Stored(m.rows, m.log) && Later(a, m) && Later(m, b)
    requires pid !in b.txs && Fresh(b, successor)
    requires token in a.log.issued && !Locked(b, Hash(token))
    requires Hash(token) in m.rows && a.clock < m.rows[Hash(token)].expiresAt
    ensures Hash(token) in b.rows && b.rows[Hash(token)].rotatedAt.None? ==>
              CanClaim(b, pid, token, a.clock, successor)
  {
  }

  lemma RotatedAnswer(a: State, es: seq<Event>, tr: seq<Event>, b: State, d: State, pid: Pid, token: Token,
                      successor: Token, now: int, grace: nat)
    requires Inv(d) && b == Run(a, es) && CanClaim(b, pid, token, now, successor)
    requires d == Run(Next(b, Claim(pid, token, now, successor)), tr)
    requires Replaced(Next(b, Claim(pid, token, now, successor)), Rotating(token, now, successor, false), d)
    ensures var trace := es + [Claim(pid, token, now, successor)] + tr;
            var o := Issued(b.log.issued[token].userId, successor);
            && d == Run(a, trace)
            && Answered(a, trace, d, pid, token, now, grace, Some(successor), o) && Exact(d, token, o)
  {
    RunSnoc(a, es, Claim(pid, token, now, successor));
    RunConcat(a, es + [Claim(pid, token, now, successor)], tr);
  }

  /** The row was live: claim it, insert the successor and commit, or learn that the claim was lost. */
  method ClaimAndRotate(db: RefreshStore, pid: Pid, token: Token, now: int, successor: Token, sch: Schedule)
    returns (claimed: bool, userId: UserId, ghost trace: seq<Event>)
    requires Inv(db.s) && pid !in db.s.txs && ScheduleOk(sch, pid)
    requires Hash(token) in db.s.rows && db.s.rows[Hash(token)].rotatedAt.None? ==>
               CanClaim(db.s, pid, token, now, successor)
    modifies db
    ensures Inv(db.s)
    ensures claimed <==> Hash(token) in old(db.s).rows && old(db.s).rows[Hash(token)].rotatedAt.None?
    ensures !claimed ==> db.s == old(db.s)
    ensures claimed ==>
              var c := Next(old(db.s), Claim(pid, token, now, successor));
              && db.s == Run(c, trace) && Replaced(c, Rotating(token, now, successor, false), db.s)
              && token in old(db.s).log.issued && userId == old(db.s).log.issued[token].userId
  {
    claimed := Hash(token) in db.s.rows && db.s.rows[Hash(token)].rotatedAt.None?;
    if !claimed {
      return false, 0, [];
    }
    assert db.s.rows[Hash(token)] == RowOf(db.s.log, token);
    userId := db.s.rows[Hash(token)].userId;
    NextInv(db.s, Claim(pid, token, now, successor));
    db.s := Next(db.s, Claim(pid, token, now, successor));
    trace := InsertAndCommit(db, pid, sch.third, sch.fourth);
  }

  lemma ReadExpiry(a: State, m: State, token: Token)
    requires Stored(m.rows, m.log) && Later(a, m) && Hash(token) in m.rows && token in a.log.issued
    ensures m.rows[Hash(token)].expiresAt == ExpiresAt(a.log, token)
  {
  }

  /** The others go on while `pid` has no transaction. */
  lemma Onwards(a: State, es: seq<Event>, m: State, fs: seq<Event>, pid: Pid)
    requires Inv(m) && m == Run(a, es) && pid !in m.txs && Elsewhere(es, pid) && Elsewhere(fs, pid)
    ensures var b := Run(m, fs);
            Inv(b) && Later(m, b) && pid !in b.txs && b == Run(a, es + fs) && Elsewhere(es + fs, pid)
  {
    RunLater(m, fs);
    AbsentRun(m, fs, pid);
    RunConcat(a, es, fs);
    ElsewhereConcat(es, fs, pid);
  }

  /** The request reaches its claim. */
  lemma Arrive(a: State, es: seq<Event>, m: State, fs: seq<Event>, pid: Pid, token: Token, successor: Token)
    requires Past(a.log, a.clock) && Inv(m) && m == Run(a, es) && Later(a, m)
    requires pid !in m.txs && Elsewhere(es, pid) && Elsewhere(fs, pid) && token in a.log.issued
    requires Hash(token) in m.rows && a.clock < m.rows[Hash(token)].expiresAt
    requires Fresh(Run(m, fs), successor)
    ensures var b := Run(m, fs);
            && Inv(b) && pid !in b.txs && b == Run(a, es + fs) && Elsewhere(es + fs, pid)
            && a.clock <= b.clock && token in b.log.issued
            && (!Locked(b, Hash(token)) && Hash(token) in b.rows && b.rows[Hash(token)].rotatedAt.None? ==>
                  CanClaim(b, pid, token, a.clock, successor))
  {
    Onwards(a, es, m, fs, pid);
    if !Locked(Run(m, fs), Hash(token)) {
      ClaimGuard(a, m, Run(m, fs), pid, token, successor);
    }
  }

  datatype Attempt = Finished(outcome: Outcome) | Lost(record: Row)

  /** How an attempt to rotate a row that was read live in `m` ends: it waits for who holds the row, wins the
      claim, or finds what the winner left. */
  ghost predicate Attempted(m: State, sch: Schedule, b: State, token: Token, successor: Token, r: Attempt) {
    var h, c := Hash(token), Run(m, sch.second);
    if h in c.rows && c.rows[h].rotatedAt.None? then
      if Locked(c, h) then r == Finished(Waiting) && b == c
      else r.Finished? && r.outcome.Issued? && r.outcome.refreshToken == successor
    else Reread(Run(c, sch.third), b, token, r)
  }

  predicate Reread(d: State, b: State, token: Token, r: Attempt) {
    b == d && r == if Hash(token) in d.rows then Lost(d.rows[Hash(token)]) else Finished(Invalid)
  }

  /** Which answer the schedule leads to: what was read, whether the claim had to wait or was lost, and
      whether the rotation lay inside the grace window. */
  ghost predicate Decides(a: State, sch: Schedule, b: State, pid: Pid, token: Token, successor: Token, now: int,
                          grace: nat, o: Outcome)
  {
    var h, m := Hash(token), Run(a, sch.first);
    if h !in m.rows then o == Invalid && b == m
    else if m.rows[h].expiresAt <= now then o.Expired? || (o.Waiting? && Blocked(b, pid))
    else if m.rows[h].rotatedAt.Some? then DecidesRotated(m.rows[h], b, pid, now, grace, o)
    else
      var c := Run(m, sch.second);
      var d := Run(c, sch.third);
      if h in c.rows && c.rows[h].rotatedAt.None? then
        if Locked(c, h) then o == Waiting && b == c else o.Issued? && o.refreshToken == successor
      else if h !in d.rows then o == Invalid && b == d
      else DecidesRotated(d.rows[h], b, pid, now, grace, o)
  }

  /** The presented row was read unrotated: rotate it, or, when another request won the claim, read
      what that request left. */
  method RotateOrReread(db: RefreshStore, ghost a: State, pid: Pid, token: Token, now: int, successor: Token,
                        ghost grace: nat, sch: Schedule)
    returns (r: Attempt, ghost trace: seq<Event>)
    requires Past(a.log, a.clock) && Inv(db.s) && db.s == Run(a, sch.first) && Later(a, db.s)
    requires pid !in db.s.txs && ScheduleOk(sch, pid)
    requires now == a.clock && token in a.log.issued
    requires Hash(token) in db.s.rows && now < db.s.rows[Hash(token)].expiresAt
    requires Fresh(Run(db.s, sch.second), successor)
    modifies db
    ensures Inv(db.s) && db.s == Run(a, trace)
    ensures r.Finished? ==> Answered(a, trace, db.s, pid, token, now, grace, Some(successor), r.outcome)
    ensures r.Finished? ==> Exact(db.s, token, r.outcome)
    ensures r.Lost? ==> Elsewhere(trace, pid) && pid !in db.s.txs && now <= db.s.clock
    ensures r.Lost? ==> ReadRotated(db.s.log, token, r.record)
    ensures Attempted(old(db.s), sch, db.s, token, successor, r)
  {
    Arrive(a, sch.first, db.s, sch.second, pid, token, successor);
    trace := sch.first + sch.second;
    db.s := Run(db.s, sch.second);
    if Hash(token) in db.s.rows && db.s.rows[Hash(token)].rotatedAt.None? && Locked(db.s, Hash(token)) {
      return Finished(Waiting), trace;
    }
    r, trace := ClaimOrReread(db, a, trace, pid, token, now, successor, grace, sch);
  }

  /** The claim on an unlocked row. */
  method ClaimOrReread(db: RefreshStore, ghost a: State, ghost es: seq<Event>, pid: Pid, token: Token, now: int,
                       successor: Token, ghost grace: nat, sch: Schedule)
    returns (r: Attempt, ghost trace: seq<Event>)
    requires Inv(db.s) && db.s == Run(a, es) && Elsewhere(es, pid) && a.clock == now <= db.s.clock
    requires pid !in db.s.txs && ScheduleOk(sch, pid) && token in db.s.log.issued
    requires Hash(token) in db.s.rows && db.s.rows[Hash(token)].rotatedAt.None? ==>
               CanClaim(db.s, pid, token, now, successor)
    modifies db
    ensures Inv(db.s) && db.s == Run(a, trace)
    ensures r.Finished? ==> Answered(a, trace, db.s, pid, token, now, grace, Some(successor), r.outcome)
    ensures r.Finished? ==> Exact(db.s, token, r.outcome)
    ensures r.Lost? ==> Elsewhere(trace, pid) && pid !in db.s.txs && now <= db.s.clock
    ensures r.Lost? ==> ReadRotated(db.s.log, token, r.record)
    ensures if Hash(token) in old(db.s).rows && old(db.s).rows[Hash(token)].rotatedAt.None?
            then r.Finished? && r.outcome.Issued? && r.outcome.refreshToken == successor
            else Reread(Run(old(db.s), sch.third), db.s, token, r)
  {
    ghost var b := db.s;
    var claimed, userId, tr := ClaimAndRotate(db, pid, token, now, successor, sch);
    if claimed {
      RotatedAnswer(a, es, tr, b, db.s, pid, token, successor, now, grace);
      return Finished(Issued(userId, successor)), es + [Claim(pid, token, now, successor)] + tr;
    }
    r := RereadLost(db, a, es, pid, token, grace, sch.third);
    trace := es + sch.third;
  }

  /** The claim was lost: the row as it is now shows the winner's rotation, or is gone. */
  method RereadLost(db: RefreshStore, ghost a: State, ghost es: seq<Event>, ghost pid: Pid, token: Token,
                    ghost grace: nat, third: seq<Event>)
    returns (r: Attempt)
    requires Inv(db.s) && db.s == Run(a, es) && pid !in db.s.txs && a.clock <= db.s.clock
    requires Elsewhere(es, pid) && Elsewhere(third, pid)
    requires token in db.s.log.issued
    requires Hash(token) !in db.s.rows || db.s.rows[Hash(token)].rotatedAt.Some?
    modifies db
    ensures Inv(db.s) && db.s == Run(a, es + third)
    ensures r.Finished? ==> Answered(a, es + third, db.s, pid, token, a.clock, grace, None, r.outcome)
    ensures r.Finished? ==> Exact(db.s, token, r.outcome)
    ensures Reread(Run(old(db.s), third), db.s, token, r)
    ensures r.Lost? ==> Elsewhere(es + third, pid) && pid !in db.s.txs && a.clock <= db.s.clock
    ensures r.Lost? ==> ReadRotated(db.s.log, token, r.record)
  {
    ghost var b := db.s;
    Onwards(a, es, b, third, pid);
    db.s := Run(db.s, third);
    LostMeansRotated(b, db.s, token);
    if Hash(token) !in db.s.rows || db.s.rows[Hash(token)].rotatedAt.None? {
      GoneIsInvalid(a, es + third, pid, token, a.clock, grace, None);
      return Finished(Invalid);
    }
    ReadShows(db.s, token);
    return Lost(db.s.rows[Hash(token)]);
  }

  /** A row that is gone or rotated stays gone or rotated. */
  lemma LostMeansRotated(b: State, c: State, token: Token)
    requires Inv(b) && Inv(c) && Later(b, c) && token in b.log.issued
    requires Hash(token) !in b.rows || b.rows[Hash(token)].rotatedAt.Some?
    ensures Hash(token) !in c.rows || c.rows[Hash(token)].rotatedAt.Some?
  {
    if Hash(token) in c.rows {
      assert b.rows[Hash(token)] == RowOf(b.log, token) && c.rows[Hash(token)] == RowOf(c.log, token);
      assert LinkOk(b.log.issued, token) && LinkOk(c.log.issued, token);
      assert Grown(b.log.issued[token], c.log.issued[token]);
    }
  }

  /** `rotateRefreshToken` with the transaction of its caller. `sch` is what the others do before each
      statement, `successor` the token generated for a rotation. The presented token was issued before
      the request read its clock, and the generated one is new when it is used. */
  method RotateRefreshToken(db: RefreshStore, pid: Pid, token: Token, successor: Token, grace: nat, sch: Schedule)
    returns (o: Outcome, ghost trace: seq<Event>)
    requires Inv(db.s) && pid !in db.s.txs && ScheduleOk(sch, pid)
    requires token in Run(db.s, sch.first).log.issued ==> token in db.s.log.issued
    requires Fresh(Run(Run(db.s, sch.first), sch.second), successor)
    modifies db
    ensures Inv(db.s) && db.s == Run(old(db.s), trace)
    ensures Answered(old(db.s), trace, db.s, pid, token, old(db.s).clock, grace, Some(successor), o)
    ensures Exact(db.s, token, o)
    ensures Decides(old(db.s), sch, db.s, pid, token, successor, old(db.s).clock, grace, o)
    ensures o.Expired? ==> Hash(token) !in db.s.rows
    ensures o.Expired? ==> token in old(db.s).log.issued && ExpiresAt(old(db.s).log, token) <= old(db.s).clock
    ensures o.Issued? || o.Reused? ==>
              token in old(db.s).log.issued && old(db.s).clock < ExpiresAt(old(db.s).log, token)
  {
    var now := db.s.clock;
    ghost var a := db.s;
    RunLater(a, sch.first);
    AbsentRun(a, sch.first, pid);
    db.s := Run(db.s, sch.first);
    if Hash(token) !in db.s.rows {
      GoneIsInvalid(a, sch.first, pid, token, now, grace, Some(successor));
      return Invalid, sch.first;
    }
    var record := db.s.rows[Hash(token)];
    ReadExpiry(a, db.s, token);
    if record.expiresAt <= now {
      var done, tr := DeleteExpired(db, pid, Hash(token), sch.during[0]);
      RunConcat(a, sch.first, tr);
      return if done then Expired else Waiting, sch.first + tr;
    }
    trace := sch.first;
    if record.rotatedAt.None? {
      var r, tr := RotateOrReread(db, a, pid, token, now, successor, grace, sch);
      if r.Finished? {
        return r.outcome, tr;
      }
      record, trace := r.record, tr;
    } else {
      ReadShows(db.s, token);
    }
    ghost var es := trace;
    o, trace := AnswerRotated(db, pid, token, record, now, grace, sch);
    AnsweredEarlier(a, es, trace, db.s, pid, token, now, grace, Some(successor), o);
    trace := es + trace;
  }
}
