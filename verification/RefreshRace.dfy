/**
 Why a revocation needs to be the only deleter: whenever a rotation in flight holds a row that somebody else
 can delete, a revocation of that family can return normally while the family keeps a live token.
 */
module RefreshRace {
  import opened Options
  import opened RefreshTables
  import opened RefreshInvariant
  import opened RefreshFamily
  import opened RefreshRevocation

  function FamilyRows(s: State, f: FamilyId): set<Hash> {
    set h | h in s.rows && s.rows[h].familyId == f
  }

  /** Once rotation `p` has committed, transaction `q` can delete every present row of its family. */
  ghost predicate CanTake(s: State, p: Pid, q: Pid, f: FamilyId) {
    && p in s.txs && s.txs[p].Rotating? && s.txs[p].token in s.log.issued
    && s.log.issued[s.txs[p].token].familyId == f
    && q in s.txs && s.txs[q].Deleting? && Hash(s.txs[p].token) in s.txs[q].todo
    && (forall h :: h in FamilyRows(s, f) ==> Wants(s.txs[q], h))
    && forall h :: h in s.txs[q].todo ==> FreeFor(s, q, h, Hash(s.txs[p].token))
  }

  /** Nobody else holds the row, unless it is the row `own`. */
  predicate FreeFor(s: State, q: Pid, h: Hash, own: Hash) {
    h == own || !LockedByOther(s, q, h)
  }

  predicate Wants(d: Tx, h: Hash) {
    d.Deleting? && (h in d.held || h in d.todo)
  }

  /** The rotation commits, and `q` deletes the old rows before the revocation reaches them. */
  function Race(s: State, p: Pid, q: Pid): seq<Event> {
    [Insert(p), Commit(p), DeleteLock(q, Todo(s, q)), Commit(q)]
  }

  /** The first pass meets the race; no further one is made. */
  function Before(): seq<seq<Event>> {
    seq(MAX_REVOCATION_PASSES, _ => [])
  }

  function During(s: State, p: Pid, q: Pid): seq<seq<Event>> {
    [Race(s, p, q)] + seq(MAX_REVOCATION_PASSES - 1, _ => [])
  }

  predicate Live(s: State, f: FamilyId, t: Token) {
    && Hash(t) in s.rows && s.rows[Hash(t)].familyId == f
    && s.rows[Hash(t)].rotatedAt.None? && s.clock < s.rows[Hash(t)].expiresAt
  }

  // ---------------------------------------------------------------- step by step

  /** What the invariant adds: nobody else holds a row that `q` wants, and the new row is not among them. */
  ghost predicate Lineup(s: State, p: Pid, q: Pid, f: FamilyId) {
    && CanTake(s, p, q, f)
    && Hash(s.txs[p].token) in s.rows && s.rows[Hash(s.txs[p].token)].familyId == f
    && Hash(s.txs[p].successor) !in s.txs[q].held + s.txs[q].todo
    && forall x :: x in s.txs && x != p && x != q ==> Clear(s.txs[x], s.txs[q])
  }

  /** The deleting transaction `d` wants no row that `tx` holds. */
  predicate Clear(tx: Tx, d: Tx) {
    d.Deleting? && Locks(tx) !! d.held + d.todo
  }

  lemma LinedUp(s: State, p: Pid, q: Pid, f: FamilyId)
    requires Inv(s) && CanTake(s, p, q, f)
    ensures Lineup(s, p, q, f)
  {
    assert TxOk(s.rows.Keys, s.log, s.clock, s.txs[p]) && TxOk(s.rows.Keys, s.log, s.clock, s.txs[q]);
    assert s.rows[Hash(s.txs[p].token)] == RowOf(s.log, s.txs[p].token);
    forall x | x in s.txs && x != p && x != q ensures Clear(s.txs[x], s.txs[q]) {
      assert Compatible(s.txs[x], s.txs[p]) && Compatible(s.txs[x], s.txs[q]);
    }
  }

  /** The state after the rotation's commit, with the revocation's snapshot `v` taken before. */
  predicate Rotated(s: State, r: State, p: Pid, pid: Pid, v: set<Hash>, f: FamilyId)
    requires p in s.txs && s.txs[p].Rotating?
  {
    var h := Hash(s.txs[p].successor);
    && r.clock == s.clock && r.rows.Keys == s.rows.Keys + {h}
    && r.rows[h].familyId == f && r.rows[h].rotatedAt.None? && r.rows[h].expiresAt == s.txs[p].now + s.log.lifetime
    && r.txs == Without(s.txs, p)[pid := Deleting({}, v)]
  }

  lemma Started(s: State, pid: Pid, filter: Filter)
    requires pid !in s.txs
    ensures Next(s, DeleteStart(pid, filter)) == s.(txs := s.txs[pid := Deleting({}, Visible(s, pid, filter))])
  {
  }

  lemma RotationLands(s: State, p: Pid, q: Pid, pid: Pid, v: set<Hash>, f: FamilyId)
    requires Lineup(s, p, q, f) && pid !in s.txs
    ensures var a := s.(txs := s.txs[pid := Deleting({}, v)]); Rotated(s, Next(Next(a, Insert(p)), Commit(p)), p, pid, v, f)
  {
    var a := s.(txs := s.txs[pid := Deleting({}, v)]);
    var b := a.(txs := a.txs[p := s.txs[p].(inserted := true)]);
    assert Next(a, Insert(p)) == b;
    RotationCommits(s, b, p, q, pid, v, f);
  }

  lemma RotationCommits(s: State, b: State, p: Pid, q: Pid, pid: Pid, v: set<Hash>, f: FamilyId)
    requires Lineup(s, p, q, f) && pid !in s.txs
    requires b == s.(txs := s.txs[pid := Deleting({}, v)][p := s.txs[p].(inserted := true)])
    ensures Rotated(s, Next(b, Commit(p)), p, pid, v, f)
  {
    assert CanCommit(b, p);
    assert Without(b.txs, p) == Without(s.txs, p)[pid := Deleting({}, v)];
  }

  /** With the rotation out of the way nobody holds a row that `q` wants. */
  lemma WantedFree(s: State, r: State, p: Pid, q: Pid, pid: Pid, v: set<Hash>, f: FamilyId)
    requires Lineup(s, p, q, f) && pid !in s.txs && Rotated(s, r, p, pid, v, f)
    ensures forall h :: h in s.txs[q].todo ==> !LockedByOther(r, q, h)
  {
    forall h | h in s.txs[q].todo ensures !LockedByOther(r, q, h) {
      forall x | x in r.txs && x != q ensures h !in Locks(r.txs[x]) {
        if x != pid { assert Clear(s.txs[x], s.txs[q]); }
      }
    }
  }

  lemma DeleterLocks(s: State, r: State, p: Pid, q: Pid, pid: Pid, v: set<Hash>, f: FamilyId)
    requires Lineup(s, p, q, f) && pid !in s.txs && Rotated(s, r, p, pid, v, f)
    ensures var held := s.txs[q].held + (set h | h in s.txs[q].todo && h in r.rows);
            Next(r, DeleteLock(q, s.txs[q].todo)) == r.(txs := r.txs[q := Deleting(held, {})])
  {
    WantedFree(s, r, p, q, pid, v, f);
    var held := s.txs[q].held + (set h | h in s.txs[q].todo && h in r.rows);
    assert Acquire(r, q, s.txs[q].todo) == Deleting(held, {});
  }

  /** The deleter removes all the rows it wanted. */
  lemma DeleterTakes(s: State, r: State, p: Pid, q: Pid, pid: Pid, v: set<Hash>, f: FamilyId)
    requires Lineup(s, p, q, f) && pid !in s.txs && Rotated(s, r, p, pid, v, f)
    ensures var t := Next(Next(r, DeleteLock(q, s.txs[q].todo)), Commit(q));
            && t.clock == s.clock
            && t.rows == Remove(r.rows, s.txs[q].held + s.txs[q].todo)
            && t.txs == Without(Without(s.txs, p), q)[pid := Deleting({}, v)]
  {
    var held := s.txs[q].held + (set h | h in s.txs[q].todo && h in r.rows);
    DeleterLocks(s, r, p, q, pid, v, f);
    var l := r.(txs := r.txs[q := Deleting(held, {})]);
    assert Remove(r.rows, held) == Remove(r.rows, s.txs[q].held + s.txs[q].todo);
    assert Without(l.txs, q) == Without(Without(s.txs, p), q)[pid := Deleting({}, v)];
  }

  /** The revocation finds every row of its snapshot gone. */
  lemma NothingCounted(s: State, t: State, p: Pid, q: Pid, pid: Pid, v: set<Hash>, f: FamilyId)
    requires Lineup(s, p, q, f) && pid !in s.txs && v <= s.txs[q].held + s.txs[q].todo && v !! t.rows.Keys
    requires t.txs == Without(Without(s.txs, p), q)[pid := Deleting({}, v)]
    ensures Next(t, DeleteLock(pid, v)) == t.(txs := t.txs[pid := Deleting({}, {})])
  {
    forall h | h in v ensures !LockedByOther(t, pid, h) {
      forall x | x in t.txs && x != pid ensures h !in Locks(t.txs[x]) {
        assert Clear(s.txs[x], s.txs[q]);
      }
    }
    assert Acquire(t, pid, v) == Deleting({}, {});
  }

  lemma RaceRuns(r: State, p: Pid, q: Pid, wanted: set<Hash>)
    ensures Run(r, [Insert(p), Commit(p), DeleteLock(q, wanted), Commit(q)])
         == Next(Next(Next(Next(r, Insert(p)), Commit(p)), DeleteLock(q, wanted)), Commit(q))
  {
    RunFour(r, Insert(p), Commit(p), DeleteLock(q, wanted), Commit(q));
  }

  /** The DELETE of the revocation completes without a row, and the rotation's new token is live. */
  lemma StatementFindsNothing(s: State, p: Pid, q: Pid, pid: Pid, u: UserId, f: FamilyId)
    requires Lineup(s, p, q, f) && pid !in s.txs && s.clock < s.txs[p].now + s.log.lifetime
    ensures var c := Statement(s, pid, OfFamily(u, f), Race(s, p, q));
            pid in c.txs && c.txs[pid] == Deleting({}, {}) && Live(c, f, s.txs[p].successor)
  {
    var v := Visible(s, pid, OfFamily(u, f));
    var a := s.(txs := s.txs[pid := Deleting({}, v)]);
    var r := Next(Next(a, Insert(p)), Commit(p));
    Started(s, pid, OfFamily(u, f));
    RotationLands(s, p, q, pid, v, f);
    DeleterTakes(s, r, p, q, pid, v, f);
    RaceRuns(a, p, q, s.txs[q].todo);
    assert v <= FamilyRows(s, f);
    NothingCounted(s, Next(Next(r, DeleteLock(q, s.txs[q].todo)), Commit(q)), p, q, pid, v, f);
  }

  lemma LiveCommits(c: State, pid: Pid, f: FamilyId, t: Token)
    requires pid in c.txs && c.txs[pid] == Deleting({}, {}) && Live(c, f, t)
    ensures Live(Next(c, Commit(pid)), f, t)
  {
  }

  lemma EmptyPass(s: State, pid: Pid, filter: Filter, inTx: bool, race: seq<Event>)
    requires pid !in s.txs
    requires var c := Statement(s, pid, filter, race); pid in c.txs && c.txs[pid] == Deleting({}, {})
    ensures var p := PassOf(s, pid, filter, inTx, [], race);
            p.count == Some(0) && p.state == Completed(Statement(s, pid, filter, race), pid, inTx)
  {
    assert Run(s, []) == s;
  }

  lemma EndsAtOnce(s: State, ps: seq<Pass>)
    requires |ps| > 0 && ps[0].count == Some(0)
    ensures EndOf(s, ps, 0, 0).result == Removed(0) && EndOf(s, ps, 0, 0).state == ps[0].state
  {
  }

  lemma FirstPass(s: State, p: Pid, q: Pid, pid: Pid, filter: Filter, inTx: bool)
    ensures var ps := PassesOf(s, pid, filter, inTx, Before(), During(s, p, q));
            |ps| > 0 && ps[0] == PassOf(s, pid, filter, inTx, [], Race(s, p, q))
  {
    PassAt(s, pid, filter, inTx, Before(), During(s, p, q), 0);
  }

  lemma PassFindsNothing(s: State, p: Pid, q: Pid, pid: Pid, u: UserId, f: FamilyId, inTx: bool)
    requires Lineup(s, p, q, f) && pid !in s.txs && s.clock < s.txs[p].now + s.log.lifetime
    ensures var pass := PassOf(s, pid, OfFamily(u, f), inTx, [], Race(s, p, q));
            pass.count == Some(0) && Live(pass.state, f, s.txs[p].successor)
  {
    StatementFindsNothing(s, p, q, pid, u, f);
    LiveCommits(Statement(s, pid, OfFamily(u, f), Race(s, p, q)), pid, f, s.txs[p].successor);
    EmptyPass(s, pid, OfFamily(u, f), inTx, Race(s, p, q));
  }

  lemma RaceIsSchedule(s: State, p: Pid, q: Pid, pid: Pid)
    requires p in s.txs && q in s.txs && pid !in s.txs
    ensures ScheduleFor(Before(), During(s, p, q), pid)
  {
    forall k | 0 <= k < MAX_REVOCATION_PASSES ensures Meanwhile(Before()[k], pid) && Meanwhile(During(s, p, q)[k], pid) {
      assert k > 0 ==> During(s, p, q)[k] == [];
    }
  }

  /** From every reachable state in which a rotation in flight holds a row that another deleter can take, there
      is a schedule in which a revocation of that family, in a transaction or not, returns normally and the
      family keeps a live token: its only pass found rows, and others deleted all of them. */
  lemma SecondDeleterLeavesLiveToken(s: State, p: Pid, q: Pid, pid: Pid, u: UserId, f: FamilyId, inTx: bool)
    requires Inv(s) && CanTake(s, p, q, f) && pid !in s.txs && s.clock < s.txs[p].now + s.log.lifetime
    ensures ScheduleFor(Before(), During(s, p, q), pid)
    ensures var e := Revoke(s, pid, OfFamily(u, f), inTx, Before(), During(s, p, q));
            e.result == Removed(0) && Live(e.state, f, s.txs[p].successor)
  {
    LinedUp(s, p, q, f);
    RaceIsSchedule(s, p, q, pid);
    PassFindsNothing(s, p, q, pid, u, f, inTx);
    FirstPass(s, p, q, pid, OfFamily(u, f), inTx);
    EndsAtOnce(s, PassesOf(s, pid, OfFamily(u, f), inTx, Before(), During(s, p, q)));
  }

  // ---------------------------------------------------------------- who the other deleter can be

  /** Along a chain no token expires before an older one. */
  lemma {:induction false} OlderExpiresFirst(log: Log, t: Token)
    requires History(log) && t in log.issued
    ensures var f := log.issued[t].familyId;
            f in log.last && log.last[f] in log.issued && ExpiresAt(log, t) <= ExpiresAt(log, log.last[f])
    decreases log.issued[log.last[log.issued[t].familyId]].pos - log.issued[t].pos
  {
    assert EndOk(log, t) && LinkOk(log.issued, t);
    if log.issued[t].next.Some? {
      OlderExpiresFirst(log, log.issued[t].next.value);
    }
  }

  /** The rows of the family that `p` rotates, apart from the row it holds, are free. */
  ghost predicate OthersFree(s: State, p: Pid, f: FamilyId) {
    && p in s.txs && s.txs[p].Rotating? && s.txs[p].token in s.log.issued
    && s.log.issued[s.txs[p].token].familyId == f
    && forall h :: h in FamilyRows(s, f) && h != Hash(s.txs[p].token) ==> !Locked(s, h)
  }

  lemma HoldsRow(s: State, p: Pid, f: FamilyId)
    requires Inv(s) && OthersFree(s, p, f)
    ensures Hash(s.txs[p].token) in FamilyRows(s, f) && f in s.log.last && s.log.last[f] == s.txs[p].token
  {
    assert TxOk(s.rows.Keys, s.log, s.clock, s.txs[p]);
    assert s.rows[Hash(s.txs[p].token)] == RowOf(s.log, s.txs[p].token);
    assert EndOk(s.log, s.txs[p].token);
  }

  lemma AllExpired(s: State, p: Pid, f: FamilyId)
    requires Inv(s) && OthersFree(s, p, f) && ExpiresAt(s.log, s.txs[p].token) <= s.clock
    ensures Hash(s.txs[p].token) in FamilyRows(s, f)
    ensures forall h :: h in FamilyRows(s, f) ==> s.rows[h].expiresAt <= s.clock
  {
    HoldsRow(s, p, f);
    forall h | h in FamilyRows(s, f) ensures s.rows[h].expiresAt <= s.clock {
      assert s.rows[h] == RowOf(s.log, h.token);
      OlderExpiresFirst(s.log, h.token);
    }
  }

  /** Expiry cleanup can take the rows once the row that the rotation holds has expired. */
  lemma CleanupCanTake(s: State, p: Pid, q: Pid, f: FamilyId)
    requires Inv(s) && OthersFree(s, p, f) && q !in s.txs
    requires ExpiresAt(s.log, s.txs[p].token) <= s.clock
    ensures CanTake(Next(s, ExpireStart(q, FamilyRows(s, f))), p, q, f)
  {
    AllExpired(s, p, f);
    Joined(s, p, q, f, Next(s, ExpireStart(q, FamilyRows(s, f))));
  }

  /** A second revocation of the family can always take them. */
  lemma RevocationCanTake(s: State, p: Pid, q: Pid, f: FamilyId)
    requires Inv(s) && OthersFree(s, p, f) && q !in s.txs
    ensures CanTake(Next(s, DeleteStart(q, OfFamily(s.log.issued[s.txs[p].token].userId, f))), p, q, f)
  {
    var u := s.log.issued[s.txs[p].token].userId;
    HoldsRow(s, p, f);
    forall h | h in FamilyRows(s, f) ensures s.rows[h].userId == u {
      assert s.rows[h] == RowOf(s.log, h.token);
      OneOwner(s.log, h.token);
    }
    assert Visible(s, q, OfFamily(u, f)) == FamilyRows(s, f);
    Joined(s, p, q, f, Next(s, DeleteStart(q, OfFamily(u, f))));
  }

  lemma Joined(s: State, p: Pid, q: Pid, f: FamilyId, t: State)
    requires OthersFree(s, p, f) && q !in s.txs && Hash(s.txs[p].token) in FamilyRows(s, f)
    requires t == s.(txs := s.txs[q := Deleting({}, FamilyRows(s, f))])
    ensures CanTake(t, p, q, f)
  {
    forall h | h in FamilyRows(s, f) && h != Hash(s.txs[p].token) ensures !LockedByOther(t, q, h) {
      assert !Locked(s, h);
    }
  }

  // ---------------------------------------------------------------- such states are reachable

  /** A session logs in at 0 with lifetime 10 and rotates its token at 9; meanwhile the token expires. */
  const SETUP := [Login(1, 7, 9, 0), Tick(9), Claim(1, 1, 9, 2), Tick(2)]

  lemma SetUp()
    ensures var s := Run(Init(10), SETUP);
            && s.rows == map[Hash(1) := Row(7, 9, 10, None, None)] && s.txs == map[1 := Rotating(1, 9, 2, false)]
            && s.clock == 11 && s.log.lifetime == 10
            && 1 in s.log.issued && s.log.issued[1].familyId == 9 && ExpiresAt(s.log, 1) == 10
  {
    var a := Next(Init(10), Login(1, 7, 9, 0));
    assert a.rows == map[Hash(1) := Row(7, 9, 10, None, None)];
    var b := Next(a, Tick(9));
    assert CanClaim(b, 1, 1, 9, 2);
    var c := Next(b, Claim(1, 1, 9, 2));
    assert c.txs == map[1 := Rotating(1, 9, 2, false)] && c.rows == a.rows;
    RunFour(Init(10), SETUP[0], SETUP[1], SETUP[2], SETUP[3]);
  }

  lemma RaceIsReachable()
    ensures var s := Run(Init(10), SETUP);
            && Inv(s) && OthersFree(s, 1, 9) && 2 !in s.txs && 3 !in s.txs
            && ExpiresAt(s.log, s.txs[1].token) <= s.clock < s.txs[1].now + s.log.lifetime
  {
    SetUp();
    RunInv(Init(10), SETUP);
    assert FamilyRows(Run(Init(10), SETUP), 9) == {Hash(1)};
  }

  lemma RunFour(s: State, a: Event, b: Event, c: Event, d: Event)
    ensures Run(s, [a, b, c, d]) == Next(Next(Next(Next(s, a), b), c), d)
  {
    RunSnoc(s, [], a);
    RunSnoc(s, [a], b);
    RunSnoc(s, [a, b], c);
    RunSnoc(s, [a, b, c], d);
    assert [] + [a] == [a] && [a] + [b] == [a, b] && [a, b] + [c] == [a, b, c] && [a, b, c] + [d] == [a, b, c, d];
  }
}
