/**
 Exactly when a revocation can miss a live token: with other deleters about, it can return normally and leave
 the family a live token if and only if the family has a source of one when the revocation starts.
 */
module RefreshMissed {
  import opened Options
  import opened FreshNumbers
  import opened RefreshTables
  import opened RefreshInvariant
  import opened RefreshFamily
  import opened RefreshRevocation
  import opened RefreshRace

  /** A request that read its clock at `now` could rotate `t`, apart from locks, into a token that is not expired. */
  predicate Claimable(s: State, f: FamilyId, t: Token, now: int) {
    && t in s.log.issued && s.log.issued[t].familyId == f
    && s.log.issued[t].committedAt <= now <= s.clock && now < ExpiresAt(s.log, t)
    && Hash(t) in s.rows && s.rows[Hash(t)].rotatedAt.None?
    && s.clock < now + s.log.lifetime
  }

  /** Transaction `p` is rotating a token of the family into one that is not expired. */
  predicate InFlight(s: State, f: FamilyId, p: Pid) {
    && p in s.txs && s.txs[p].Rotating? && s.txs[p].token in s.log.issued
    && s.log.issued[s.txs[p].token].familyId == f
    && s.clock < s.txs[p].now + s.log.lifetime
  }

  ghost predicate Source(s: State, f: FamilyId) {
    (exists t, now :: Claimable(s, f, t, now)) || (exists p :: InFlight(s, f, p))
  }

  /** Some schedule of the others makes the revocation return normally with a live token left. */
  ghost predicate CanMiss(s: State, pid: Pid, filter: Filter, inTx: bool, f: FamilyId) {
    exists before, during :: Misses(s, pid, filter, inTx, f, before, during)
  }

  ghost predicate Misses(s: State, pid: Pid, filter: Filter, inTx: bool, f: FamilyId,
                         before: seq<seq<Event>>, during: seq<seq<Event>>) {
    && ScheduleFor(before, during, pid) && |before| == MAX_REVOCATION_PASSES
    && var e := Revoke(s, pid, filter, inTx, before, during);
       e.result.Removed? && exists t :: Live(e.state, f, t)
  }

  // ---------------------------------------------------------------- without a source there never is a live token

  lemma LiveIsSource(s: State, f: FamilyId, t: Token)
    requires Inv(s) && Live(s, f, t)
    ensures Claimable(s, f, t, s.clock)
  {
    assert s.rows[Hash(t)] == RowOf(s.log, t) && LinkOk(s.log.issued, t);
  }

  lemma ClaimableBefore(s: State, e: Event, f: FamilyId, t: Token, now: int)
    requires Inv(s) && f in s.log.last && Claimable(Next(s, e), f, t, now)
    ensures Source(s, f)
  {
    if e.Tick? {
      assert LinkOk(s.log.issued, t);
      var was := if now <= s.clock then now else s.clock;
      assert Claimable(s, f, t, was);
    } else if t in s.log.issued && Hash(t) in s.rows {
      NewSuccessor(s, e);
      SameRow(s, e, t);
      assert Claimable(s, f, t, now);
    } else {
      NewRowSource(s, e, f, t, now);
    }
  }

  predicate Fits(s: State, e: Event) {
    e.Commit? && CanCommit(s, e.pid) && s.txs[e.pid].Rotating? ==> s.txs[e.pid].successor !in s.log.issued
  }

  lemma NewSuccessor(s: State, e: Event)
    requires Inv(s)
    ensures Fits(s, e)
  {
    if e.Commit? && CanCommit(s, e.pid) {
      assert TxOk(s.rows.Keys, s.log, s.clock, s.txs[e.pid]);
    }
  }

  /** A row that was there, and is not rotated, is as it was. */
  lemma SameRow(s: State, e: Event, t: Token)
    requires Fits(s, e) && !e.Tick? && t in s.log.issued && Hash(t) in s.rows
    requires Hash(t) in Next(s, e).rows && Next(s, e).rows[Hash(t)].rotatedAt.None?
    ensures Next(s, e).clock == s.clock && Next(s, e).log.lifetime == s.log.lifetime
    ensures t in Next(s, e).log.issued && Next(s, e).rows[Hash(t)] == s.rows[Hash(t)]
    ensures var m, n := s.log.issued[t], Next(s, e).log.issued[t];
            m.familyId == n.familyId && m.committedAt == n.committedAt && m.createdAt == n.createdAt
  {
  }

  /** A new row of the family comes from a rotation in flight. */
  lemma NewRowSource(s: State, e: Event, f: FamilyId, t: Token, now: int)
    requires Inv(s) && !e.Tick? && f in s.log.last && Claimable(Next(s, e), f, t, now)
    requires !(t in s.log.issued && Hash(t) in s.rows)
    ensures Source(s, f)
  {
    assert Hash(t) !in s.rows;
    RowAppears(s, e, Hash(t));
    if e.Commit? {
      assert TxOk(s.rows.Keys, s.log, s.clock, s.txs[e.pid]);
      assert s.rows[Hash(s.txs[e.pid].token)] == RowOf(s.log, s.txs[e.pid].token);
      assert InFlight(s, f, e.pid);
    }
  }

  lemma InFlightBefore(s: State, e: Event, f: FamilyId, p: Pid)
    requires Inv(s) && f in s.log.last && InFlight(Next(s, e), f, p)
    ensures Source(s, f)
  {
    if p in s.txs && s.txs[p].Rotating? {
      assert TxOk(s.rows.Keys, s.log, s.clock, s.txs[p]);
      NextLater(s, e);
      StillRotating(s, e, f, p);
      assert InFlight(s, f, p);
    } else {
      Claimed(s, e, f, p);
      assert Claimable(s, f, e.token, e.now);
    }
  }

  lemma StillRotating(s: State, e: Event, f: FamilyId, p: Pid)
    requires p in s.txs && s.txs[p].Rotating? && s.txs[p].token in s.log.issued && InFlight(Next(s, e), f, p)
    requires Later(s, Next(s, e))
    ensures InFlight(s, f, p)
  {
    SameRotation(s, e, p);
    assert Grown(s.log.issued[s.txs[p].token], Next(s, e).log.issued[s.txs[p].token]);
  }

  lemma SameRotation(s: State, e: Event, p: Pid)
    requires p in s.txs && s.txs[p].Rotating? && p in Next(s, e).txs && Next(s, e).txs[p].Rotating?
    ensures Next(s, e).txs[p].token == s.txs[p].token && Next(s, e).txs[p].now == s.txs[p].now
  {
  }

  lemma Claimed(s: State, e: Event, f: FamilyId, p: Pid)
    requires !(p in s.txs && s.txs[p].Rotating?) && InFlight(Next(s, e), f, p)
    ensures e.Claim? && Claimable(s, f, e.token, e.now)
  {
  }

  lemma {:induction false} SourceBefore(s: State, es: seq<Event>, f: FamilyId)
    requires Inv(s) && f in s.log.last && Source(Run(s, es), f)
    ensures Source(s, f)
    decreases |es|
  {
    if es != [] {
      var m := Next(s, es[0]);
      NextInv(s, es[0]);
      NextLater(s, es[0]);
      SourceBefore(m, es[1..], f);
      if t, now :| Claimable(m, f, t, now) {
        ClaimableBefore(s, es[0], f, t, now);
      } else {
        var p :| InFlight(m, f, p);
        InFlightBefore(s, es[0], f, p);
      }
    }
  }

  // ---------------------------------------------------------------- from a source to a miss

  function Restrict(txs: map<Pid, Tx>, keep: set<Pid>): map<Pid, Tx> {
    map p | p in txs && p in keep :: txs[p]
  }

  /** All transactions outside `keep` roll back. */
  lemma {:induction false} RollBack(s: State, keep: set<Pid>, gone: set<Pid>, pid: Pid) returns (es: seq<Event>)
    requires s.txs.Keys <= keep + gone && gone !! keep && pid !in gone
    ensures Run(s, es) == s.(txs := Restrict(s.txs, keep)) && Meanwhile(es, pid)
    decreases |gone|
  {
    if gone == {} {
      es := [];
      assert Restrict(s.txs, keep) == s.txs;
    } else {
      var p :| p in gone;
      var t := Next(s, Rollback(p));
      assert gone == (gone - {p}) + {p};
      var rest := RollBack(t, keep, gone - {p}, pid);
      es := [Rollback(p)] + rest;
      assert es[1..] == rest && Restrict(t.txs, keep) == Restrict(s.txs, keep);
    }
  }

  /** Only the rotation `p` is in flight. */
  predicate Only(s: State, f: FamilyId, p: Pid) {
    InFlight(s, f, p) && s.txs == map[p := s.txs[p]]
  }

  lemma KeepRotation(s: State, f: FamilyId, p: Pid, pid: Pid) returns (es: seq<Event>)
    requires InFlight(s, f, p) && pid !in s.txs
    ensures Only(Run(s, es), f, p) && Meanwhile(es, pid)
  {
    es := RollBack(s, {p}, s.txs.Keys - {p}, pid);
    assert Restrict(s.txs, {p}) == map[p := s.txs[p]];
  }

  lemma StartRotation(s: State, f: FamilyId, t: Token, now: int, p: Pid, pid: Pid) returns (es: seq<Event>)
    requires Claimable(s, f, t, now) && pid !in s.txs && p != pid
    ensures Only(Run(s, es), f, p) && Meanwhile(es, pid)
  {
    var back := RollBack(s, {}, s.txs.Keys, pid);
    var a := s.(txs := map[]);
    assert Restrict(s.txs, {}) == map[];
    var successor := Above(s.log.issued.Keys);
    assert CanClaim(a, p, t, now, successor);
    es := back + [Claim(p, t, now, successor)];
    RunSnoc(s, back, Claim(p, t, now, successor));
  }

  lemma RotationReady(s: State, f: FamilyId, pid: Pid) returns (p: Pid, es: seq<Event>)
    requires Source(s, f) && pid !in s.txs
    ensures Only(Run(s, es), f, p) && Meanwhile(es, pid) && p != pid
  {
    if q :| InFlight(s, f, q) {
      p := q;
      es := KeepRotation(s, f, q, pid);
    } else {
      var t, now :| Claimable(s, f, t, now);
      p := pid + 1;
      es := StartRotation(s, f, t, now, p, pid);
    }
  }

  /** A second revocation joins, and can take the family's rows. */
  lemma DeleterReady(b: State, a: State, f: FamilyId, p: Pid, q: Pid)
    requires Inv(b) && Only(b, f, p) && q != p
    requires a == Next(b, DeleteStart(q, OfFamily(b.log.issued[b.txs[p].token].userId, f)))
    ensures CanTake(a, p, q, f) && a.clock < a.txs[p].now + a.log.lifetime && a.txs.Keys == {p, q}
  {
    forall h | h in FamilyRows(b, f) && h != Hash(b.txs[p].token) ensures !Locked(b, h) {
      assert Locks(b.txs[p]) == {Hash(b.txs[p].token)};
    }
    RevocationCanTake(b, p, q, f);
  }

  lemma PassAfter(s: State, pid: Pid, filter: Filter, inTx: bool, es: seq<Event>, race: seq<Event>)
    ensures var p, q := PassOf(s, pid, filter, inTx, es, race), PassOf(Run(s, es), pid, filter, inTx, [], race);
            p.count == q.count && p.state == q.state
  {
    assert Run(Run(s, es), []) == Run(s, es);
  }

  /** The others get ready before the first pass. */
  function First(es: seq<Event>): seq<seq<Event>> {
    [es] + seq(MAX_REVOCATION_PASSES - 1, _ => [])
  }

  lemma FirstIsSchedule(es: seq<Event>, a: State, p: Pid, q: Pid, pid: Pid)
    requires Meanwhile(es, pid) && ScheduleFor(Before(), During(a, p, q), pid)
    ensures ScheduleFor(First(es), During(a, p, q), pid) && |First(es)| == MAX_REVOCATION_PASSES
  {
    forall k | 0 <= k < MAX_REVOCATION_PASSES
      ensures Meanwhile(First(es)[k], pid) && Meanwhile(During(a, p, q)[k], pid)
    {
      assert k > 0 ==> First(es)[k] == [];
      assert Meanwhile(Before()[k], pid) && Meanwhile(During(a, p, q)[k], pid);
    }
  }

  /** Everything is ready for the race in state `a`. */
  ghost predicate Set(a: State, p: Pid, q: Pid, pid: Pid, f: FamilyId) {
    Lineup(a, p, q, f) && pid !in a.txs && a.clock < a.txs[p].now + a.log.lifetime
  }

  lemma RaceMisses(s: State, es: seq<Event>, a: State, p: Pid, q: Pid, pid: Pid, u: UserId, f: FamilyId, inTx: bool)
    requires Meanwhile(es, pid) && a == Run(s, es) && Set(a, p, q, pid, f)
    ensures Misses(s, pid, OfFamily(u, f), inTx, f, First(es), During(a, p, q))
  {
    var during := During(a, p, q);
    RaceIsSchedule(a, p, q, pid);
    FirstIsSchedule(es, a, p, q, pid);
    PassFindsNothing(a, p, q, pid, u, f, inTx);
    PassAfter(s, pid, OfFamily(u, f), inTx, es, Race(a, p, q));
    PassAt(s, pid, OfFamily(u, f), inTx, First(es), during, 0);
    EndsAtOnce(s, PassesOf(s, pid, OfFamily(u, f), inTx, First(es), during));
    assert Live(Revoke(s, pid, OfFamily(u, f), inTx, First(es), during).state, f, a.txs[p].successor);
  }

  lemma SourceMisses(s: State, pid: Pid, u: UserId, f: FamilyId, inTx: bool)
    requires Inv(s) && pid !in s.txs && Source(s, f)
    ensures CanMiss(s, pid, OfFamily(u, f), inTx, f)
  {
    var p, es := RotationReady(s, f, pid);
    JoinedMisses(s, es, p, p + pid + 1, pid, u, f, inTx);
  }

  lemma JoinedMisses(s: State, es: seq<Event>, p: Pid, q: Pid, pid: Pid, u: UserId, f: FamilyId, inTx: bool)
    requires Inv(s) && Meanwhile(es, pid) && Only(Run(s, es), f, p) && p != pid && q != p && q != pid
    ensures CanMiss(s, pid, OfFamily(u, f), inTx, f)
  {
    var join := Joining(Run(s, es), f, p, q);
    DeleterJoins(s, es, f, p, q, pid);
    RunSnoc(s, es, join);
    OneMore(es, join, pid);
    RaceSet(s, es + [join], Run(s, es + [join]), f, p, q, pid);
    RaceMisses(s, es + [join], Run(s, es + [join]), p, q, pid, u, f, inTx);
  }

  /** A second revocation by the owner. */
  function Joining(b: State, f: FamilyId, p: Pid, q: Pid): Event
    requires Only(b, f, p)
  {
    DeleteStart(q, OfFamily(b.log.issued[b.txs[p].token].userId, f))
  }

  ghost predicate Joined(a: State, p: Pid, q: Pid, pid: Pid, f: FamilyId) {
    CanTake(a, p, q, f) && pid !in a.txs && a.clock < a.txs[p].now + a.log.lifetime
  }

  lemma DeleterJoins(s: State, es: seq<Event>, f: FamilyId, p: Pid, q: Pid, pid: Pid)
    requires Inv(s) && Only(Run(s, es), f, p) && p != pid && q != p && q != pid
    ensures Joined(Next(Run(s, es), Joining(Run(s, es), f, p, q)), p, q, pid, f)
  {
    RunInv(s, es);
    DeleterReady(Run(s, es), Next(Run(s, es), Joining(Run(s, es), f, p, q)), f, p, q);
  }

  lemma OneMore(es: seq<Event>, e: Event, pid: Pid)
    requires Meanwhile(es, pid) && !Acts(e, pid)
    ensures Meanwhile(es + [e], pid)
  {
  }

  lemma RaceSet(s: State, es: seq<Event>, a: State, f: FamilyId, p: Pid, q: Pid, pid: Pid)
    requires Inv(s) && a == Run(s, es) && Joined(a, p, q, pid, f)
    ensures Set(a, p, q, pid, f)
  {
    RunInv(s, es);
    LinedUp(a, p, q, f);
  }

  /** The exact condition. */
  lemma MissesExactlyFromSource(s: State, pid: Pid, u: UserId, f: FamilyId, inTx: bool)
    requires Inv(s) && pid !in s.txs && f in s.log.last
    ensures CanMiss(s, pid, OfFamily(u, f), inTx, f) <==> Source(s, f)
  {
    if Source(s, f) {
      SourceMisses(s, pid, u, f, inTx);
    }
    if before, during :| Misses(s, pid, OfFamily(u, f), inTx, f, before, during) {
      MissHasSource(s, pid, OfFamily(u, f), inTx, f, before, during);
    }
  }

  lemma MissHasSource(s: State, pid: Pid, filter: Filter, inTx: bool, f: FamilyId,
                      before: seq<seq<Event>>, during: seq<seq<Event>>)
    requires Inv(s) && pid !in s.txs && f in s.log.last && Misses(s, pid, filter, inTx, f, before, during)
    ensures Source(s, f)
  {
    var e := Revoke(s, pid, filter, inTx, before, during);
    RevokeEnds(s, pid, filter, inTx, before, during);
    var t :| Live(e.state, f, t);
    LiveIsSource(e.state, f, t);
    SourceBefore(s, e.trace, f);
  }
}
