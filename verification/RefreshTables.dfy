/**
 The refresh_tokens table and the transactions that write it.

 A state holds the committed rows, the in-flight transactions with their row locks, and the
 history of every token ever committed. `Next` is one statement of one session; a statement that
 cannot run now (it waits for a lock, or its guard is false) leaves the state unchanged. A run is
 any sequence of statements of any sessions, so a theorem about `Run` covers every interleaving.

 Tokens, hashes and sealed successors are symbolic: a hash determines its token, and a sealed
 successor opens only with the token and the hash it was sealed under.
 */
module RefreshTables {
  import opened Options

  type Token = nat
  type UserId = nat
  type FamilyId = nat
  type Pid = nat

  datatype Hash = Hash(token: Token)

  datatype Sealed = Sealed(key: Token, aad: Hash, content: Token)

  function OpenSuccessor(token: Token, hash: Hash, sealed: Sealed): (next: Option<Token>)
    ensures forall t: Token :: sealed == Sealed(token, hash, t) <==> next == Some(t)
  {
    if sealed.key == token && sealed.aad == hash then Some(sealed.content) else None
  }

  datatype Row = Row(
    userId: UserId, familyId: FamilyId, expiresAt: int, rotatedAt: Option<int>, successor: Option<Sealed>)

  /** What stays known of a committed token for ever: its owner, its place in its family's chain, the
      `now` of the request that made it, the time its insertion committed, and its successor. */
  datatype Issue = Issue(
    userId: UserId, familyId: FamilyId, pos: nat, createdAt: int, committedAt: int, next: Option<Token>)

  /** The history of all families: `last` is the newest token of each, `place` the token at each
      position of its chain. */
  datatype Log = Log(
    lifetime: nat, issued: map<Token, Issue>, last: map<FamilyId, Token>, place: map<(FamilyId, nat), Token>)

  /** The filters of the two session revocations. */
  datatype Filter = OfFamily(userId: UserId, familyId: FamilyId) | OfUser(userId: UserId)

  /** An in-flight transaction: a rotation that won its claim, or a transaction that deletes rows
      (`held` are locked and doomed, `todo` is the rest of the running statement's snapshot). */
  datatype Tx =
    | Rotating(token: Token, now: int, successor: Token, inserted: bool)
    | Deleting(held: set<Hash>, todo: set<Hash>)

  datatype State = State(
    clock: int,
    rows: map<Hash, Row>,
    txs: map<Pid, Tx>,
    log: Log)

  datatype Event =
    | Tick(elapsed: nat)
    | Login(token: Token, userId: UserId, familyId: FamilyId, at: int)
    | Claim(pid: Pid, token: Token, now: int, successor: Token)
    | Insert(pid: Pid)
    | Commit(pid: Pid)
    | Rollback(pid: Pid)
    | DeleteStart(pid: Pid, filter: Filter)
    | ExpireStart(pid: Pid, batch: set<Hash>)
    | DeleteLock(pid: Pid, rows: set<Hash>)

  function Init(lifetime: nat): State {
    State(0, map[], map[], Log(lifetime, map[], map[], map[]))
  }

  predicate Matches(filter: Filter, row: Row) {
    match filter
    case OfFamily(u, f) => row.userId == u && row.familyId == f
    case OfUser(u) => row.userId == u
  }

  function Locks(tx: Tx): set<Hash> {
    match tx
    case Rotating(token, _, _, _) => {Hash(token)}
    case Deleting(held, _) => held
  }

  predicate Locked(s: State, h: Hash) {
    exists p :: p in s.txs && h in Locks(s.txs[p])
  }

  predicate LockedByOther(s: State, pid: Pid, h: Hash) {
    exists p :: p in s.txs && p != pid && h in Locks(s.txs[p])
  }

  predicate Fresh(s: State, t: Token) {
    && t !in s.log.issued
    && forall p :: p in s.txs && s.txs[p].Rotating? ==> s.txs[p].successor != t
  }

  function ExpiresAt(log: Log, t: Token): int
    requires t in log.issued
  {
    log.issued[t].createdAt + log.lifetime
  }

  /** A request presents only tokens that were committed before it read its clock. */
  predicate CanClaim(s: State, pid: Pid, token: Token, now: int, successor: Token) {
    && pid !in s.txs
    && token in s.log.issued && s.log.issued[token].committedAt <= now <= s.clock
    && now < ExpiresAt(s.log, token)
    && Fresh(s, successor)
    && !Locked(s, Hash(token))
    && Hash(token) in s.rows && s.rows[Hash(token)].rotatedAt.None?
  }

  function Held(s: State, pid: Pid): set<Hash> {
    if pid in s.txs then Locks(s.txs[pid]) else {}
  }

  /** The rows a DELETE of `pid` sees when it starts: committed, matching, not deleted by itself. */
  function Visible(s: State, pid: Pid, filter: Filter): set<Hash> {
    set h | h in s.rows && Matches(filter, s.rows[h]) && h !in Held(s, pid)
  }

  predicate CanStartDelete(s: State, pid: Pid) {
    pid !in s.txs || (s.txs[pid].Deleting? && s.txs[pid].todo == {})
  }

  predicate CanCommit(s: State, pid: Pid) {
    pid in s.txs && match s.txs[pid]
      case Rotating(token, _, _, inserted) => inserted && Hash(token) in s.rows && token in s.log.issued
      case Deleting(_, todo) => todo == {}
  }

  function Without(txs: map<Pid, Tx>, pid: Pid): map<Pid, Tx> {
    map p | p in txs && p != pid :: txs[p]
  }

  function Remove(rows: map<Hash, Row>, gone: set<Hash>): map<Hash, Row> {
    map h | h in rows && h !in gone :: rows[h]
  }

  function CommitRotation(s: State, pid: Pid): State
    requires CanCommit(s, pid) && s.txs[pid].Rotating?
  {
    var tx := s.txs[pid];
    var h := Hash(tx.token);
    var row := s.rows[h];
    var rotated := row.(rotatedAt := Some(tx.now), successor := Some(Sealed(tx.token, h, tx.successor)));
    s.(rows := s.rows[h := rotated]
                     [Hash(tx.successor) := Row(row.userId, row.familyId, tx.now + s.log.lifetime, None, None)],
       log := Extend(s.log, tx.token, tx.successor, tx.now, s.clock),
       txs := Without(s.txs, pid))
  }

  function Extend(log: Log, t: Token, successor: Token, now: int, clock: int): Log
    requires t in log.issued
  {
    var n := log.issued[t];
    log.(issued := log.issued[t := n.(next := Some(successor))]
                             [successor := Issue(n.userId, n.familyId, n.pos + 1, now, clock, None)],
         last := log.last[n.familyId := successor],
         place := log.place[(n.familyId, n.pos + 1) := successor])
  }

  function Start(log: Log, t: Token, userId: UserId, familyId: FamilyId, at: int, clock: int): Log {
    log.(issued := log.issued[t := Issue(userId, familyId, 0, at, clock, None)],
         last := log.last[familyId := t],
         place := log.place[(familyId, 0) := t])
  }

  function Next(s: State, e: Event): State {
    match e
    case Tick(elapsed) => s.(clock := s.clock + elapsed)
    case Login(token, userId, familyId, at) =>
      if Fresh(s, token) && familyId !in s.log.last && at <= s.clock then
        s.(rows := s.rows[Hash(token) := Row(userId, familyId, at + s.log.lifetime, None, None)],
           log := Start(s.log, token, userId, familyId, at, s.clock))
      else s
    case Claim(pid, token, now, successor) =>
      if CanClaim(s, pid, token, now, successor)
      then s.(txs := s.txs[pid := Rotating(token, now, successor, false)]) else s
    case Insert(pid) =>
      if pid in s.txs && s.txs[pid].Rotating?
      then s.(txs := s.txs[pid := s.txs[pid].(inserted := true)]) else s
    case Commit(pid) =>
      if !CanCommit(s, pid) then s
      else if s.txs[pid].Rotating? then CommitRotation(s, pid)
      else s.(rows := Remove(s.rows, s.txs[pid].held), txs := Without(s.txs, pid))
    case Rollback(pid) => s.(txs := Without(s.txs, pid))
    case DeleteStart(pid, filter) =>
      if CanStartDelete(s, pid)
      then s.(txs := s.txs[pid := Deleting(Held(s, pid), Visible(s, pid, filter))]) else s
    case ExpireStart(pid, batch) =>
      if pid !in s.txs && forall h :: h in batch ==> h in s.rows && s.rows[h].expiresAt <= s.clock
      then s.(txs := s.txs[pid := Deleting({}, batch)]) else s
    case DeleteLock(pid, wanted) =>
      if pid in s.txs && s.txs[pid].Deleting? then s.(txs := s.txs[pid := Acquire(s, pid, wanted)]) else s
  }

  /** The DELETE of `pid` reaches some rows of its snapshot: rows that are gone drop out, free rows
      are locked for deletion, rows locked by another transaction keep it waiting. */
  function Acquire(s: State, pid: Pid, wanted: set<Hash>): Tx
    requires pid in s.txs && s.txs[pid].Deleting?
  {
    var tx := s.txs[pid];
    var reached := set h | h in tx.todo && h in wanted && !LockedByOther(s, pid, h);
    Deleting(tx.held + (set h | h in reached && h in s.rows), tx.todo - reached)
  }

  function Run(s: State, es: seq<Event>): State
    decreases |es|
  {
    if es == [] then s else Run(Next(s, es[0]), es[1..])
  }

  lemma {:induction false} RunConcat(s: State, es: seq<Event>, fs: seq<Event>)
    ensures Run(s, es + fs) == Run(Run(s, es), fs)
    decreases |es|
  {
    if es == [] {
      assert es + fs == fs;
    } else {
      assert (es + fs)[0] == es[0] && (es + fs)[1..] == es[1..] + fs;
      RunConcat(Next(s, es[0]), es[1..], fs);
    }
  }

  lemma RunSnoc(s: State, es: seq<Event>, e: Event)
    ensures Run(s, es + [e]) == Next(Run(s, es), e)
  {
    RunConcat(s, es, [e]);
    assert Run(Run(s, es), [e]) == Run(Next(Run(s, es), e), []);
  }

  predicate Acts(e: Event, pid: Pid) {
    match e
    case Tick(_) => false
    case Login(_, _, _, _) => false
    case _ => e.pid == pid
  }
}
