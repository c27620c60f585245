/**
 What every statement of every session keeps true of the refresh_tokens table.
 */
module RefreshInvariant {
  import opened Options
  import opened RefreshTables

  /** The successor of `t` belongs to the same session, and was made by a request that started after
      `t` had been committed. */
  predicate LinkOk(issued: map<Token, Issue>, t: Token)
    requires t in issued
  {
    var n := issued[t];
    && n.createdAt <= n.committedAt
    && (n.next.Some? ==>
          && n.next.value in issued
          && var m := issued[n.next.value];
             && m.familyId == n.familyId && m.userId == n.userId
             && m.pos == n.pos + 1
             && n.committedAt <= m.createdAt)
  }

  predicate EndOk(log: Log, t: Token)
    requires t in log.issued
  {
    var f := log.issued[t].familyId;
    && f in log.last && log.last[f] in log.issued
    && log.issued[log.last[f]].familyId == f
    && log.issued[t].pos <= log.issued[log.last[f]].pos
    && (log.issued[t].next.None? <==> log.last[f] == t)
  }

  /** Every family is one chain of links that ends in its newest token. */
  ghost predicate History(log: Log) {
    && (forall t :: t in log.issued ==> LinkOk(log.issued, t) && EndOk(log, t))
    && (forall f :: f in log.last ==> log.last[f] in log.issued && log.issued[log.last[f]].familyId == f)
  }

  /** No two tokens of a family share a place in its chain. */
  ghost predicate Placed(log: Log) {
    forall t :: t in log.issued ==>
      var n := log.issued[t];
      (n.familyId, n.pos) in log.place && log.place[(n.familyId, n.pos)] == t
  }

  ghost predicate Past(log: Log, clock: int) {
    forall t :: t in log.issued ==> log.issued[t].committedAt <= clock
  }

  /** The only content the row of `t` can have, given the history. */
  function RowOf(log: Log, t: Token): Row
    requires t in log.issued
  {
    var n := log.issued[t];
    if n.next.Some? && n.next.value in log.issued then
      Row(n.userId, n.familyId, ExpiresAt(log, t),
          Some(log.issued[n.next.value].createdAt), Some(Sealed(t, Hash(t), n.next.value)))
    else
      Row(n.userId, n.familyId, ExpiresAt(log, t), None, None)
  }

  ghost predicate Stored(rows: map<Hash, Row>, log: Log) {
    forall h :: h in rows ==> h.token in log.issued && rows[h] == RowOf(log, h.token)
  }

  predicate Unexpired(log: Log, clock: int, t: Token)
    requires t in log.issued
  {
    clock < ExpiresAt(log, t)
  }

  /** A link from a stored, unexpired row. */
  predicate LiveLink(keys: set<Hash>, log: Log, clock: int, t: Token)
  {
    t in log.issued && log.issued[t].next.Some? && Hash(t) in keys && Unexpired(log, clock, t)
  }

  /** No gaps: the successor of a stored, unexpired row is stored too. */
  ghost predicate NoGaps(keys: set<Hash>, log: Log, clock: int) {
    forall t :: LiveLink(keys, log, clock, t) ==> Hash(log.issued[t].next.value) in keys
  }

  /** A set of rows that can be deleted together without leaving a gap. */
  ghost predicate Closed(doomed: set<Hash>, keys: set<Hash>, log: Log, clock: int) {
    forall t :: LiveLink(keys, log, clock, t) && Hash(log.issued[t].next.value) in doomed ==> Hash(t) in doomed
  }

  ghost predicate Known(hs: set<Hash>, log: Log) {
    forall h :: h in hs ==> h.token in log.issued
  }

  ghost predicate TxOk(keys: set<Hash>, log: Log, clock: int, tx: Tx) {
    match tx
    case Rotating(token, now, successor, _) =>
      && token in log.issued && log.issued[token].next.None?
      && Hash(token) in keys
      && log.issued[token].committedAt <= now <= clock
      && successor !in log.issued
    case Deleting(held, todo) =>
      && held <= keys
      && held !! todo
      && Known(held + todo, log)
      && Closed(held + todo, keys, log, clock)
  }

  ghost predicate TxsOk(keys: set<Hash>, log: Log, clock: int, txs: map<Pid, Tx>) {
    forall p :: p in txs ==> TxOk(keys, log, clock, txs[p])
  }

  predicate Compatible(a: Tx, b: Tx) {
    && Locks(a) !! Locks(b)
    && (a.Rotating? && b.Rotating? ==> a.successor != b.successor)
  }

  ghost predicate Exclusive(txs: map<Pid, Tx>) {
    forall p, q :: p in txs && q in txs && p != q ==> Compatible(txs[p], txs[q])
  }

  ghost predicate Inv(s: State) {
    && History(s.log)
    && Placed(s.log)
    && Past(s.log, s.clock)
    && Stored(s.rows, s.log)
    && NoGaps(s.rows.Keys, s.log, s.clock)
    && TxsOk(s.rows.Keys, s.log, s.clock, s.txs)
    && Exclusive(s.txs)
  }

  // ---------------------------------------------------------------- time

  lemma TickInv(s: State, elapsed: nat)
    requires Inv(s)
    ensures Inv(Next(s, Tick(elapsed)))
  {
  }

  // ---------------------------------------------------------------- a new family

  lemma StartHistory(log: Log, t: Token, u: UserId, f: FamilyId, at: int, clock: int)
    requires History(log) && Placed(log) && t !in log.issued && f !in log.last && at <= clock
    ensures History(Start(log, t, u, f, at, clock)) && Placed(Start(log, t, u, f, at, clock))
  {
    var log' := Start(log, t, u, f, at, clock);
    forall x | x in log'.issued ensures LinkOk(log'.issued, x) && EndOk(log', x) {
      assert x != t ==> LinkOk(log.issued, x) && EndOk(log, x);
    }
  }

  lemma StartTx(keys: set<Hash>, log: Log, clock: int, tx: Tx, t: Token, u: UserId, f: FamilyId, at: int)
    requires History(log) && t !in log.issued && TxOk(keys, log, clock, tx)
    requires tx.Rotating? ==> tx.successor != t
    ensures TxOk(keys + {Hash(t)}, Start(log, t, u, f, at, clock), clock, tx)
  {
  }

  lemma LoginInv(s: State, t: Token, u: UserId, f: FamilyId, at: int)
    requires Inv(s) && Fresh(s, t) && f !in s.log.last && at <= s.clock
    ensures Inv(Next(s, Login(t, u, f, at)))
  {
    StartHistory(s.log, t, u, f, at, s.clock);
    LoginStored(s, t, u, f, at);
    LoginTxs(s, t, u, f, at);
  }

  lemma LoginTxs(s: State, t: Token, u: UserId, f: FamilyId, at: int)
    requires History(s.log) && NoGaps(s.rows.Keys, s.log, s.clock)
    requires TxsOk(s.rows.Keys, s.log, s.clock, s.txs)
    requires Fresh(s, t) && f !in s.log.last && at <= s.clock
    ensures var s' := Next(s, Login(t, u, f, at));
            NoGaps(s'.rows.Keys, s'.log, s.clock) && TxsOk(s'.rows.Keys, s'.log, s.clock, s.txs)
  {
    var s' := Next(s, Login(t, u, f, at));
    var keys' := s.rows.Keys + {Hash(t)};
    assert s'.rows.Keys == keys';
    assert forall x :: LiveLink(keys', s'.log, s.clock, x) ==> LiveLink(s.rows.Keys, s.log, s.clock, x);
    forall p | p in s.txs ensures TxOk(keys', s'.log, s.clock, s.txs[p]) {
      StartTx(s.rows.Keys, s.log, s.clock, s.txs[p], t, u, f, at);
    }
  }

  lemma LoginStored(s: State, t: Token, u: UserId, f: FamilyId, at: int)
    requires History(s.log) && Stored(s.rows, s.log) && Fresh(s, t) && f !in s.log.last && at <= s.clock
    ensures Stored(Next(s, Login(t, u, f, at)).rows, Next(s, Login(t, u, f, at)).log)
  {
    var s' := Next(s, Login(t, u, f, at));
    forall h | h in s'.rows ensures h.token in s'.log.issued && s'.rows[h] == RowOf(s'.log, h.token) {
      if h != Hash(t) {
        assert s.rows[h] == RowOf(s.log, h.token) && LinkOk(s.log.issued, h.token);
      }
    }
  }

  // ---------------------------------------------------------------- the claim

  lemma AddTx(s: State, pid: Pid, tx: Tx)
    requires Inv(s)
    requires TxOk(s.rows.Keys, s.log, s.clock, tx)
    requires forall p :: p in s.txs && p != pid ==> Compatible(s.txs[p], tx)
    ensures Inv(s.(txs := s.txs[pid := tx]))
  {
  }

  lemma ClaimInv(s: State, pid: Pid, token: Token, now: int, successor: Token)
    requires Inv(s) && CanClaim(s, pid, token, now, successor)
    ensures Inv(Next(s, Claim(pid, token, now, successor)))
  {
    assert s.rows[Hash(token)] == RowOf(s.log, token);
    assert LinkOk(s.log.issued, token);
    AddTx(s, pid, Rotating(token, now, successor, false));
  }

  // ---------------------------------------------------------------- a rotation commits

  lemma ExtendHistory(log: Log, t: Token, successor: Token, now: int, clock: int)
    requires History(log)
    requires t in log.issued && log.issued[t].next.None? && successor !in log.issued
    requires log.issued[t].committedAt <= now <= clock
    ensures History(Extend(log, t, successor, now, clock))
  {
  }

  lemma ExtendPlaced(log: Log, t: Token, successor: Token, now: int, clock: int)
    requires History(log) && Placed(log)
    requires t in log.issued && log.issued[t].next.None? && successor !in log.issued
    ensures Placed(Extend(log, t, successor, now, clock))
  {
  }

  lemma ExtendLinks(keys: set<Hash>, log: Log, clock: int, t: Token, successor: Token, now: int)
    requires History(log) && t in log.issued && log.issued[t].next.None? && successor !in log.issued
    ensures forall x :: LiveLink(keys + {Hash(successor)}, Extend(log, t, successor, now, clock), clock, x) && x != t
                        ==> LiveLink(keys, log, clock, x)
  {
  }

  lemma ExtendTx(keys: set<Hash>, log: Log, clock: int, tx: Tx, t: Token, successor: Token, now: int)
    requires History(log) && t in log.issued && log.issued[t].next.None? && successor !in log.issued
    requires TxOk(keys, log, clock, tx) && Compatible(tx, Rotating(t, now, successor, true))
    ensures TxOk(keys + {Hash(successor)}, Extend(log, t, successor, now, clock), clock, tx)
  {
  }

  lemma CommitRotationInv(s: State, pid: Pid)
    requires Inv(s) && CanCommit(s, pid) && s.txs[pid].Rotating?
    ensures Inv(CommitRotation(s, pid))
  {
    var tx := s.txs[pid];
    assert TxOk(s.rows.Keys, s.log, s.clock, tx);
    ExtendHistory(s.log, tx.token, tx.successor, tx.now, s.clock);
    ExtendPlaced(s.log, tx.token, tx.successor, tx.now, s.clock);
    CommitRotationRest(s, pid);
    CommitRotationStored(s, pid);
    CommitRotationTxs(s, pid);
  }

  lemma CommitRotationRest(s: State, pid: Pid)
    requires Past(s.log, s.clock) && Exclusive(s.txs) && CanCommit(s, pid) && s.txs[pid].Rotating?
    ensures Past(CommitRotation(s, pid).log, s.clock) && Exclusive(CommitRotation(s, pid).txs)
  {
  }

  lemma CommitRotationTxs(s: State, pid: Pid)
    requires History(s.log) && NoGaps(s.rows.Keys, s.log, s.clock)
    requires TxsOk(s.rows.Keys, s.log, s.clock, s.txs) && Exclusive(s.txs)
    requires CanCommit(s, pid) && s.txs[pid].Rotating?
    ensures var s' := CommitRotation(s, pid);
            NoGaps(s'.rows.Keys, s'.log, s.clock) && TxsOk(s'.rows.Keys, s'.log, s.clock, s'.txs)
  {
    var s' := CommitRotation(s, pid);
    var tx := s.txs[pid];
    var keys' := s.rows.Keys + {Hash(tx.successor)};
    assert TxOk(s.rows.Keys, s.log, s.clock, tx);
    assert s'.rows.Keys == keys';
    ExtendLinks(s.rows.Keys, s.log, s.clock, tx.token, tx.successor, tx.now);
    forall p | p in s'.txs ensures TxOk(keys', s'.log, s.clock, s'.txs[p]) {
      assert Compatible(s.txs[p], tx);
      ExtendTx(s.rows.Keys, s.log, s.clock, s.txs[p], tx.token, tx.successor, tx.now);
    }
  }

  lemma CommitRotationStored(s: State, pid: Pid)
    requires History(s.log) && Stored(s.rows, s.log)
    requires CanCommit(s, pid) && s.txs[pid].Rotating? && TxOk(s.rows.Keys, s.log, s.clock, s.txs[pid])
    ensures Stored(CommitRotation(s, pid).rows, CommitRotation(s, pid).log)
  {
    var s' := CommitRotation(s, pid);
    var tx := s.txs[pid];
    forall h | h in s'.rows ensures h.token in s'.log.issued && s'.rows[h] == RowOf(s'.log, h.token) {
      if h != Hash(tx.successor) {
        assert s.rows[h] == RowOf(s.log, h.token) && LinkOk(s.log.issued, h.token);
      }
    }
  }

  // ---------------------------------------------------------------- deletions

  lemma DeleteTx(keys: set<Hash>, log: Log, clock: int, tx: Tx, gone: set<Hash>)
    requires TxOk(keys, log, clock, tx) && Locks(tx) !! gone
    ensures TxOk(keys - gone, log, clock, tx)
  {
  }

  lemma CommitDeleteInv(s: State, pid: Pid)
    requires Inv(s) && CanCommit(s, pid) && s.txs[pid].Deleting?
    ensures Inv(Next(s, Commit(pid)))
  {
    var s' := Next(s, Commit(pid));
    var gone := s.txs[pid].held;
    assert TxOk(s.rows.Keys, s.log, s.clock, s.txs[pid]);
    assert gone + s.txs[pid].todo == gone;
    assert s'.rows.Keys == s.rows.Keys - gone;
    assert forall x :: LiveLink(s'.rows.Keys, s.log, s.clock, x) ==> LiveLink(s.rows.Keys, s.log, s.clock, x);
    forall p | p in s'.txs ensures TxOk(s'.rows.Keys, s.log, s.clock, s.txs[p]) {
      assert Compatible(s.txs[p], s.txs[pid]);
      DeleteTx(s.rows.Keys, s.log, s.clock, s.txs[p], gone);
    }
  }

  /** A revocation's snapshot is closed: the rows of one family belong to one user. */
  lemma SnapshotClosed(s: State, pid: Pid, filter: Filter)
    requires Inv(s) && CanStartDelete(s, pid)
    ensures Closed(Held(s, pid) + Visible(s, pid, filter), s.rows.Keys, s.log, s.clock)
  {
  }

  lemma DeleteStartInv(s: State, pid: Pid, filter: Filter)
    requires Inv(s) && CanStartDelete(s, pid)
    ensures Inv(Next(s, DeleteStart(pid, filter)))
  {
    var held, todo := Held(s, pid), Visible(s, pid, filter);
    SnapshotClosed(s, pid, filter);
    if pid in s.txs {
      assert TxOk(s.rows.Keys, s.log, s.clock, s.txs[pid]);
    }
    AddTx(s, pid, Deleting(held, todo));
  }

  lemma ExpiredClosed(s: State, batch: set<Hash>)
    requires Inv(s) && forall h :: h in batch ==> h in s.rows && s.rows[h].expiresAt <= s.clock
    ensures Closed(batch, s.rows.Keys, s.log, s.clock)
  {
  }

  lemma ExpireStartInv(s: State, pid: Pid, batch: set<Hash>)
    requires Inv(s) && pid !in s.txs
    requires forall h :: h in batch ==> h in s.rows && s.rows[h].expiresAt <= s.clock
    ensures Inv(Next(s, ExpireStart(pid, batch)))
  {
    ExpiredClosed(s, batch);
    assert {} + batch == batch;
    AddTx(s, pid, Deleting({}, batch));
  }

  lemma AcquireOk(s: State, pid: Pid, wanted: set<Hash>)
    requires Inv(s) && pid in s.txs && s.txs[pid].Deleting?
    ensures TxOk(s.rows.Keys, s.log, s.clock, Acquire(s, pid, wanted))
  {
  }

  lemma DeleteLockInv(s: State, pid: Pid, wanted: set<Hash>)
    requires Inv(s) && pid in s.txs && s.txs[pid].Deleting?
    ensures Inv(Next(s, DeleteLock(pid, wanted)))
  {
    AcquireOk(s, pid, wanted);
    forall p | p in s.txs && p != pid ensures Compatible(s.txs[p], Acquire(s, pid, wanted)) {
      assert Compatible(s.txs[p], s.txs[pid]);
    }
    AddTx(s, pid, Acquire(s, pid, wanted));
  }

  // ---------------------------------------------------------------- every statement, every run

  lemma InsertInv(s: State, pid: Pid)
    requires Inv(s) && pid in s.txs && s.txs[pid].Rotating?
    ensures Inv(Next(s, Insert(pid)))
  {
    assert TxOk(s.rows.Keys, s.log, s.clock, s.txs[pid]);
    AddTx(s, pid, s.txs[pid].(inserted := true));
  }

  lemma NextInv(s: State, e: Event)
    requires Inv(s)
    ensures Inv(Next(s, e))
  {
    if Next(s, e) != s {
      match e
      case Tick(elapsed) => TickInv(s, elapsed);
      case Login(token, userId, familyId, at) => LoginInv(s, token, userId, familyId, at);
      case Claim(pid, token, now, successor) => ClaimInv(s, pid, token, now, successor);
      case Insert(pid) => InsertInv(s, pid);
      case DeleteStart(pid, filter) => DeleteStartInv(s, pid, filter);
      case ExpireStart(pid, batch) => ExpireStartInv(s, pid, batch);
      case DeleteLock(pid, wanted) => DeleteLockInv(s, pid, wanted);
      case Commit(pid) =>
        if s.txs[pid].Rotating? { CommitRotationInv(s, pid); } else { CommitDeleteInv(s, pid); }
      case Rollback(_) =>
    }
  }

  lemma {:induction false} RunInv(s: State, es: seq<Event>)
    requires Inv(s)
    ensures Inv(Run(s, es))
    decreases |es|
  {
    if es != [] {
      NextInv(s, es[0]);
      RunInv(Next(s, es[0]), es[1..]);
    }
  }
}
