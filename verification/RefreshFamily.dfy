/**
 What the invariant means for one session family: its unexpired rows are one run of successor
 links, and walking those links is the same as presenting each token in turn.
 */
module RefreshFamily {
  import opened Options
  import opened RefreshTables
  import opened RefreshInvariant

  /** The number of links from `t` to the newest token of its family. */
  function Distance(log: Log, t: Token): int
    requires t in log.issued && log.issued[t].familyId in log.last
    requires log.last[log.issued[t].familyId] in log.issued
  {
    log.issued[log.last[log.issued[t].familyId]].pos - log.issued[t].pos
  }

  ghost predicate Stands(s: State, t: Token) {
    t in s.log.issued && Hash(t) in s.rows && Unexpired(s.log, s.clock, t)
  }

  /** The part of the invariant that makes a family one chain of stored rows. */
  ghost predicate Chained(s: State) {
    History(s.log) && Stored(s.rows, s.log) && NoGaps(s.rows.Keys, s.log, s.clock)
  }

  /** A link leads from a standing token to another one, which is not older. */
  lemma Link(s: State, t: Token)
    requires Chained(s) && Stands(s, t) && s.log.issued[t].next.Some?
    ensures var u := s.log.issued[t].next.value;
            && Stands(s, u)
            && s.log.issued[u].familyId == s.log.issued[t].familyId
            && s.log.issued[u].userId == s.log.issued[t].userId
            && s.log.issued[u].pos == s.log.issued[t].pos + 1
            && s.log.issued[t].createdAt <= s.log.issued[u].createdAt
            && Distance(s.log, u) == Distance(s.log, t) - 1 >= 0
  {
  }

  /** Row `h` is an unexpired row of family `f`. */
  predicate Current(s: State, f: FamilyId, h: Hash) {
    h in s.rows && s.rows[h].familyId == f && s.clock < s.rows[h].expiresAt
  }

  /** `run` lists the unexpired rows of family `f`: each holds the sealed successor that opens to
      the next, no row expires before its predecessor, none was rotated before it, and only the
      final one is not rotated. */
  ghost predicate IsRun(s: State, f: FamilyId, run: seq<Token>) {
    && (forall i :: 0 <= i < |run| ==> Current(s, f, Hash(run[i])))
    && (forall i :: 0 <= i < |run| - 1 ==> LinkedAt(s, run, i))
    && (run != [] ==> s.rows[Hash(run[|run| - 1])].rotatedAt.None?)
    && (forall h :: Current(s, f, h) ==> h.token in run)
  }

  ghost predicate LinkedAt(s: State, run: seq<Token>, i: nat)
    requires i + 1 < |run| && Hash(run[i]) in s.rows && Hash(run[i + 1]) in s.rows
  {
    Linked(s.rows[Hash(run[i])], s.rows[Hash(run[i + 1])], run[i], run[i + 1])
  }

  predicate Unrotated(s: State, f: FamilyId, h: Hash) {
    h in s.rows && s.rows[h].familyId == f && s.rows[h].rotatedAt.None?
  }

  predicate Linked(row: Row, next: Row, t: Token, u: Token) {
    && row.rotatedAt.Some?
    && row.successor.Some? && OpenSuccessor(t, Hash(t), row.successor.value) == Some(u)
    && row.expiresAt <= next.expiresAt
    && (next.rotatedAt.Some? ==> row.rotatedAt.value <= next.rotatedAt.value)
  }

  /** The tokens from `t` to the end of its family's chain. */
  ghost function Tail(s: State, t: Token): (run: seq<Token>)
    requires Inv(s) && Stands(s, t)
    ensures |run| == Distance(s.log, t) + 1 && run[0] == t
    decreases Distance(s.log, t)
  {
    assert EndOk(s.log, t);
    if s.log.issued[t].next.None? then [t]
    else
      Link(s, t);
      [t] + Tail(s, s.log.issued[t].next.value)
  }

  lemma {:induction false} TailIsRun(s: State, t: Token)
    requires Inv(s) && Stands(s, t)
    ensures var run := Tail(s, t);
            && (forall i :: 0 <= i < |run| ==> Stands(s, run[i]) && s.log.issued[run[i]].familyId == s.log.issued[t].familyId
                                               && s.log.issued[run[i]].pos == s.log.issued[t].pos + i)
            && (forall i :: 0 <= i < |run| - 1 ==> s.log.issued[run[i]].next == Some(run[i + 1]))
            && s.log.issued[run[|run| - 1]].next.None?
    decreases Distance(s.log, t)
  {
    assert EndOk(s.log, t);
    var run := Tail(s, t);
    if s.log.issued[t].next.Some? {
      Link(s, t);
      var u := s.log.issued[t].next.value;
      TailIsRun(s, u);
      assert run == [t] + Tail(s, u);
      forall i | 0 <= i < |run| ensures Stands(s, run[i]) && s.log.issued[run[i]].pos == s.log.issued[t].pos + i
                                        && s.log.issued[run[i]].familyId == s.log.issued[t].familyId {
        assert i > 0 ==> run[i] == Tail(s, u)[i - 1];
      }
      forall i | 0 <= i < |run| - 1 ensures s.log.issued[run[i]].next == Some(run[i + 1]) {
        assert i > 0 ==> run[i] == Tail(s, u)[i - 1] && run[i + 1] == Tail(s, u)[i];
      }
    }
  }

  lemma LinkedRows(s: State, t: Token, u: Token)
    requires Inv(s) && Stands(s, t) && Stands(s, u) && s.log.issued[t].next == Some(u)
    ensures Linked(s.rows[Hash(t)], s.rows[Hash(u)], t, u)
  {
  }

  lemma CurrentStands(s: State, f: FamilyId, h: Hash)
    requires Inv(s)
    ensures Current(s, f, h) <==> Stands(s, h.token) && s.log.issued[h.token].familyId == f
  {
  }

  /** The oldest unexpired row of a family starts a run that lists them all. */
  lemma OldestStartsRun(s: State, f: FamilyId, t: Token)
    requires Inv(s) && Stands(s, t) && s.log.issued[t].familyId == f
    requires forall u :: Stands(s, u) && s.log.issued[u].familyId == f ==> s.log.issued[t].pos <= s.log.issued[u].pos
    ensures IsRun(s, f, Tail(s, t))
  {
    var run := Tail(s, t);
    TailIsRun(s, t);
    forall i | 0 <= i < |run| ensures Current(s, f, Hash(run[i])) {
      CurrentStands(s, f, Hash(run[i]));
    }
    forall i | 0 <= i < |run| - 1 ensures LinkedAt(s, run, i) {
      LinkedRows(s, run[i], run[i + 1]);
    }
    assert s.rows[Hash(run[|run| - 1])] == RowOf(s.log, run[|run| - 1]);
    forall h | Current(s, f, h) ensures h.token in run {
      CurrentStands(s, f, h);
      InRun(s, t, h);
    }
  }

  lemma InRun(s: State, t: Token, h: Hash)
    requires Inv(s) && Stands(s, t) && h in s.rows && s.rows[h].familyId == s.log.issued[t].familyId
    requires Stands(s, h.token) ==> s.log.issued[t].pos <= s.log.issued[h.token].pos
    requires s.clock < s.rows[h].expiresAt
    ensures h.token in Tail(s, t)
  {
    var u := h.token;
    assert h == Hash(u) && s.rows[h] == RowOf(s.log, u);
    assert EndOk(s.log, u) && EndOk(s.log, t);
    var i := s.log.issued[u].pos - s.log.issued[t].pos;
    TailIsRun(s, t);
    var v := Tail(s, t)[i];
    assert s.log.issued[v].pos == s.log.issued[u].pos;
  }

  lemma {:induction false} Oldest(s: State, f: FamilyId, t: Token) returns (oldest: Token)
    requires Inv(s) && Stands(s, t) && s.log.issued[t].familyId == f
    ensures Stands(s, oldest) && s.log.issued[oldest].familyId == f
    ensures forall u :: Stands(s, u) && s.log.issued[u].familyId == f ==> s.log.issued[oldest].pos <= s.log.issued[u].pos
    decreases s.log.issued[t].pos
  {
    if u :| Stands(s, u) && s.log.issued[u].familyId == f && s.log.issued[u].pos < s.log.issued[t].pos {
      oldest := Oldest(s, f, u);
    } else {
      oldest := t;
    }
  }

  ghost predicate HasRun(s: State, f: FamilyId) {
    exists run: seq<Token> :: IsRun(s, f, run)
  }

  lemma RunWitness(s: State, f: FamilyId, run: seq<Token>)
    requires IsRun(s, f, run)
    ensures HasRun(s, f)
  {
  }

  lemma SomeRun(s: State, f: FamilyId) returns (run: seq<Token>)
    requires Inv(s)
    ensures IsRun(s, f, run)
  {
    if t :| Stands(s, t) && s.log.issued[t].familyId == f {
      var oldest := Oldest(s, f, t);
      OldestStartsRun(s, f, oldest);
      run := Tail(s, oldest);
    } else {
      forall h ensures !Current(s, f, h) {
        CurrentStands(s, f, h);
      }
      run := [];
    }
  }

  /** In every reachable state each family has at most one row that is not rotated, and its unexpired
      rows are one contiguous run of successor links that ends in that row. */
  lemma FamilyIsOneRun(lifetime: nat, es: seq<Event>, f: FamilyId)
    ensures var s := Run(Init(lifetime), es);
            && (forall g, h :: Unrotated(s, f, g) && Unrotated(s, f, h) ==> g == h)
            && HasRun(s, f)
  {
    var s := Run(Init(lifetime), es);
    RunInv(Init(lifetime), es);
    forall h | Unrotated(s, f, h) ensures f in s.log.last && h == Hash(s.log.last[f]) {
      assert s.rows[h] == RowOf(s.log, h.token) && EndOk(s.log, h.token) && LinkOk(s.log.issued, h.token);
    }
    var run := SomeRun(s, f);
    RunWitness(s, f, run);
  }

  // ---------------------------------------------------------------- one owner, one direction of time

  /** All tokens of a family belong to the owner of its newest token. */
  lemma {:induction false} OneOwner(log: Log, t: Token)
    requires History(log) && t in log.issued
    ensures var f := log.issued[t].familyId;
            f in log.last && log.last[f] in log.issued && log.issued[log.last[f]].familyId == f
            && log.issued[log.last[f]].userId == log.issued[t].userId
    decreases log.issued[log.last[log.issued[t].familyId]].pos - log.issued[t].pos
  {
    assert EndOk(log, t) && LinkOk(log.issued, t);
    if log.issued[t].next.Some? {
      assert EndOk(log, log.issued[t].next.value);
      OneOwner(log, log.issued[t].next.value);
    }
  }

  /** `b` comes after `a` in some run: history only grows, and a deleted row never comes back. */
  ghost predicate Later(a: State, b: State) {
    && a.clock <= b.clock
    && a.log.lifetime == b.log.lifetime
    && (forall t :: t in a.log.issued ==> t in b.log.issued && Grown(a.log.issued[t], b.log.issued[t]))
    && (forall h :: h in b.rows && h.token in a.log.issued ==> h in a.rows)
    && (forall f :: f in a.log.last ==> f in b.log.last)
  }

  predicate Grown(m: Issue, n: Issue) {
    n == m || (m.next.None? && n == m.(next := n.next))
  }

  lemma LaterTrans(a: State, b: State, c: State)
    requires Later(a, b) && Later(b, c)
    ensures Later(a, c)
  {
  }

  lemma CommitLater(s: State, pid: Pid)
    requires Inv(s) && CanCommit(s, pid) && s.txs[pid].Rotating?
    ensures Later(s, CommitRotation(s, pid))
  {
    assert TxOk(s.rows.Keys, s.log, s.clock, s.txs[pid]);
  }

  lemma LoginLater(s: State, t: Token, u: UserId, f: FamilyId, at: int)
    requires Inv(s)
    ensures Later(s, Next(s, Login(t, u, f, at)))
  {
  }

  lemma OthersLater(s: State, e: Event)
    requires !e.Login? && !(e.Commit? && CanCommit(s, e.pid) && s.txs[e.pid].Rotating?)
    ensures Later(s, Next(s, e))
  {
  }

  lemma NextLater(s: State, e: Event)
    requires Inv(s)
    ensures Later(s, Next(s, e))
  {
    if e.Login? {
      LoginLater(s, e.token, e.userId, e.familyId, e.at);
    } else if e.Commit? && CanCommit(s, e.pid) && s.txs[e.pid].Rotating? {
      CommitLater(s, e.pid);
    } else {
      OthersLater(s, e);
    }
  }

  lemma {:induction false} RunLater(s: State, es: seq<Event>)
    requires Inv(s)
    ensures Later(s, Run(s, es)) && Inv(Run(s, es))
    decreases |es|
  {
    if es != [] {
      NextInv(s, es[0]);
      NextLater(s, es[0]);
      RunLater(Next(s, es[0]), es[1..]);
      LaterTrans(s, Next(s, es[0]), Run(s, es));
    }
  }
}
