/**
 Session revocation: DELETE repeated until it matches nothing, while other sessions log in, rotate,
 revoke and clean up.
 */
module RefreshRevocation {
  import opened Options
  import opened RefreshTables
  import opened RefreshInvariant
  import opened RefreshFamily

  const MAX_REVOCATION_PASSES := 10

  datatype Revocation = Removed(count: nat) | NotConverged | StillWaiting

  // ---------------------------------------------------------------- what "revoked" means

  ghost predicate NoRotation(s: State, f: FamilyId) {
    forall p :: p in s.txs && s.txs[p].Rotating? && s.txs[p].token in s.log.issued
                ==> s.log.issued[s.txs[p].token].familyId != f
  }

  /** Every row of the family is doomed by transaction `pid`, and no rotation of it is in flight. */
  ghost predicate SealedOff(s: State, pid: Pid, f: FamilyId) {
    && (pid in s.txs ==> s.txs[pid].Deleting?)
    && (forall h :: h in s.rows && s.rows[h].familyId == f ==> h in Held(s, pid))
    && NoRotation(s, f)
  }

  /** No row of the family is stored and no rotation can still commit one. */
  ghost predicate Dead(s: State, f: FamilyId) {
    && (forall h :: h in s.rows ==> s.rows[h].familyId != f)
    && NoRotation(s, f)
  }

  predicate FamilyMatches(log: Log, f: FamilyId, filter: Filter) {
    && f in log.last && log.last[f] in log.issued
    && match filter
       case OfFamily(u, g) => g == f && log.issued[log.last[f]].userId == u
       case OfUser(u) => log.issued[log.last[f]].userId == u
  }

  /** A claim or a commit concerns a family that still has a row. */
  lemma RotationHasRow(s: State, e: Event)
    requires Inv(s)
    ensures e.Claim? && CanClaim(s, e.pid, e.token, e.now, e.successor) ==>
              s.rows[Hash(e.token)].familyId == s.log.issued[e.token].familyId
    ensures e.Commit? && CanCommit(s, e.pid) && s.txs[e.pid].Rotating? ==>
              && s.txs[e.pid].successor !in s.log.issued
              && s.rows[Hash(s.txs[e.pid].token)].familyId == s.log.issued[s.txs[e.pid].token].familyId
  {
  }

  lemma RotatingBefore(s: State, e: Event, p: Pid)
    requires p in Next(s, e).txs && Next(s, e).txs[p].Rotating?
    ensures (p in s.txs && s.txs[p].Rotating? && s.txs[p].token == Next(s, e).txs[p].token)
            || (e.Claim? && CanClaim(s, e.pid, e.token, e.now, e.successor) && e.token == Next(s, e).txs[p].token)
  {
  }

  /** In-flight rotations hold known tokens, and no event changes a known token's family. */
  lemma NoRotationNext(s: State, e: Event, f: FamilyId)
    requires Inv(s) && NoRotation(s, f)
    requires e.Claim? && CanClaim(s, e.pid, e.token, e.now, e.successor) ==> s.log.issued[e.token].familyId != f
    ensures NoRotation(Next(s, e), f)
  {
    NextLater(s, e);
    var s' := Next(s, e);
    forall p | p in s'.txs && s'.txs[p].Rotating? ensures s'.txs[p].token in s.log.issued
                                                   && s.log.issued[s'.txs[p].token].familyId != f {
      RotatingBefore(s, e, p);
      if p in s.txs && s.txs[p].Rotating? && s.txs[p].token == s'.txs[p].token {
        assert TxOk(s.rows.Keys, s.log, s.clock, s.txs[p]);
      }
    }
  }

  lemma DeadNext(s: State, e: Event, f: FamilyId)
    requires Inv(s) && f in s.log.last && Dead(s, f)
    ensures Dead(Next(s, e), f)
  {
    RotationHasRow(s, e);
    NoRotationNext(s, e, f);
    var s' := Next(s, e);
    forall h | h in s'.rows ensures s'.rows[h].familyId != f {
      if h in s.rows { SameOwner(s, e, h); }
    }
  }

  /** A dead family stays dead in every continuation. */
  lemma {:induction false} DeadForever(s: State, es: seq<Event>, f: FamilyId)
    requires Inv(s) && f in s.log.last && Dead(s, f)
    ensures Dead(Run(s, es), f)
    decreases |es|
  {
    if es != [] {
      NextInv(s, es[0]);
      NextLater(s, es[0]);
      DeadNext(s, es[0], f);
      DeadForever(Next(s, es[0]), es[1..], f);
    }
  }

  lemma SealedNext(s: State, e: Event, pid: Pid, f: FamilyId)
    requires Inv(s) && f in s.log.last && SealedOff(s, pid, f)
    requires Acts(e, pid) ==> e.DeleteLock?
    ensures SealedOff(Next(s, e), pid, f)
  {
    var s' := Next(s, e);
    RotationHasRow(s, e);
    if e.Claim? && CanClaim(s, e.pid, e.token, e.now, e.successor) && s.log.issued[e.token].familyId == f {
      assert false;
    }
    NoRotationNext(s, e, f);
    HeldGrows(s, e, pid);
    forall h | h in s'.rows && s'.rows[h].familyId == f ensures h in Held(s', pid) {
      SealedRow(s, e, pid, f, h);
    }
  }

  lemma SealedRow(s: State, e: Event, pid: Pid, f: FamilyId, h: Hash)
    requires Inv(s) && f in s.log.last && SealedOff(s, pid, f)
    requires Acts(e, pid) ==> e.DeleteLock?
    requires h in Next(s, e).rows && Next(s, e).rows[h].familyId == f
    ensures h in s.rows && h in Held(s, pid)
  {
    if h in s.rows {
      SameOwner(s, e, h);
    } else {
      NewRowsAreRotations(s, e, Next(s, e).rows[h].userId, f);
    }
  }

  lemma HeldGrows(s: State, e: Event, pid: Pid)
    requires pid in s.txs ==> s.txs[pid].Deleting?
    requires Acts(e, pid) ==> e.DeleteLock?
    ensures Held(s, pid) <= Held(Next(s, e), pid)
    ensures pid in Next(s, e).txs <==> pid in s.txs
    ensures pid in s.txs ==> Next(s, e).txs[pid].Deleting?
  {
  }

  lemma SealedCommits(s: State, pid: Pid, f: FamilyId)
    requires SealedOff(s, pid, f) && (pid in s.txs ==> CanCommit(s, pid))
    ensures Dead(Next(s, Commit(pid)), f)
  {
  }

  // ---------------------------------------------------------------- schedules

  /** What happens while `pid` waits: anything by the others, and its own DELETE reaching more rows. */
  ghost predicate Meanwhile(es: seq<Event>, pid: Pid) {
    forall e :: e in es && Acts(e, pid) ==> e.DeleteLock?
  }

  ghost predicate Keeps(s: State, e: Event, pid: Pid, filter: Filter) {
    Acts(e, pid) || forall h :: h in s.rows && Matches(filter, s.rows[h]) ==> h in Next(s, e).rows
  }

  /** In this run nobody but `pid` removes a row that the filter matches. */
  ghost predicate SoleDeleter(s: State, es: seq<Event>, pid: Pid, filter: Filter)
    decreases |es|
  {
    es == [] || (Keeps(s, es[0], pid, filter) && SoleDeleter(Next(s, es[0]), es[1..], pid, filter))
  }

  lemma {:induction false} SoleDeleterConcat(s: State, es: seq<Event>, fs: seq<Event>, pid: Pid, filter: Filter)
    ensures SoleDeleter(s, es + fs, pid, filter)
            <==> SoleDeleter(s, es, pid, filter) && SoleDeleter(Run(s, es), fs, pid, filter)
    decreases |es|
  {
    if es == [] {
      assert es + fs == fs;
    } else {
      assert (es + fs)[0] == es[0] && (es + fs)[1..] == es[1..] + fs;
      SoleDeleterConcat(Next(s, es[0]), es[1..], fs, pid, filter);
    }
  }

  predicate AddsRow(s: State, e: Event, filter: Filter) {
    exists h :: h in Next(s, e).rows && h !in s.rows && Matches(filter, Next(s, e).rows[h])
  }

  /** How many events of this run commit a new row that the filter matches. */
  ghost function NewRows(s: State, es: seq<Event>, filter: Filter): nat
    decreases |es|
  {
    if es == [] then 0
    else (if AddsRow(s, es[0], filter) then 1 else 0) + NewRows(Next(s, es[0]), es[1..], filter)
  }

  lemma {:induction false} NewRowsConcat(s: State, es: seq<Event>, fs: seq<Event>, filter: Filter)
    ensures NewRows(s, es + fs, filter) == NewRows(s, es, filter) + NewRows(Run(s, es), fs, filter)
    decreases |es|
  {
    if es == [] {
      assert es + fs == fs;
    } else {
      assert (es + fs)[0] == es[0] && (es + fs)[1..] == es[1..] + fs;
      NewRowsConcat(Next(s, es[0]), es[1..], fs, filter);
    }
  }

  /** Rows appear only with a login, for a new family, or with a committed rotation. */
  lemma RowAppears(s: State, e: Event, h: Hash)
    requires h in Next(s, e).rows && h !in s.rows
    ensures (e.Login? && e.familyId !in s.log.last && Next(s, e).rows[h].familyId == e.familyId)
            || (e.Commit? && CanCommit(s, e.pid) && s.txs[e.pid].Rotating?)
  {
  }

  /** For one existing family, only a committed rotation of that family adds a row. */
  lemma NewRowsAreRotations(s: State, e: Event, u: UserId, f: FamilyId)
    requires Inv(s) && f in s.log.last && AddsRow(s, e, OfFamily(u, f))
    ensures e.Commit? && CanCommit(s, e.pid) && s.txs[e.pid].Rotating?
    ensures s.log.issued[s.txs[e.pid].token].familyId == f
  {
    var h :| h in Next(s, e).rows && h !in s.rows && Matches(OfFamily(u, f), Next(s, e).rows[h]);
    RowAppears(s, e, h);
    assert TxOk(s.rows.Keys, s.log, s.clock, s.txs[e.pid]);
    assert s.rows[Hash(s.txs[e.pid].token)] == RowOf(s.log, s.txs[e.pid].token);
  }

  // ---------------------------------------------------------------- one pass

  /** How `pid`'s doomed and remaining rows develop while its DELETE runs. */
  ghost predicate PassProgress(a: State, b: State, pid: Pid) {
    && pid in a.txs && a.txs[pid].Deleting? && pid in b.txs && b.txs[pid].Deleting?
    && a.txs[pid].held <= b.txs[pid].held
    && (forall h :: h in b.txs[pid].held + b.txs[pid].todo ==> h in a.txs[pid].held + a.txs[pid].todo)
    && (forall h :: h in a.txs[pid].held + a.txs[pid].todo ==>
          h in b.txs[pid].held + b.txs[pid].todo || h !in b.rows)
  }

  lemma ProgressNext(s: State, e: Event, pid: Pid)
    requires Inv(s) && pid in s.txs && s.txs[pid].Deleting?
    requires Acts(e, pid) ==> e.DeleteLock?
    ensures PassProgress(s, Next(s, e), pid)
  {
    assert TxOk(s.rows.Keys, s.log, s.clock, s.txs[pid]);
    ProgressStep(s, e, pid);
  }

  lemma ProgressStep(s: State, e: Event, pid: Pid)
    requires pid in s.txs && s.txs[pid].Deleting?
    requires Acts(e, pid) ==> e.DeleteLock?
    ensures PassProgress(s, Next(s, e), pid)
  {
  }

  lemma ProgressTrans(a: State, b: State, c: State, pid: Pid)
    requires Inv(a) && PassProgress(a, b, pid) && PassProgress(b, c, pid) && Later(b, c) && Later(a, b)
    ensures PassProgress(a, c, pid)
  {
  }

  lemma {:induction false} ProgressRun(s: State, es: seq<Event>, pid: Pid)
    requires Inv(s) && pid in s.txs && s.txs[pid].Deleting? && Meanwhile(es, pid)
    ensures PassProgress(s, Run(s, es), pid)
    decreases |es|
  {
    if es != [] {
      var m := Next(s, es[0]);
      ProgressNext(s, es[0], pid);
      NextInv(s, es[0]);
      NextLater(s, es[0]);
      ProgressRun(m, es[1..], pid);
      RunLater(m, es[1..]);
      ProgressTrans(s, m, Run(s, es), pid);
    }
  }

  lemma {:induction false} SealedRun(s: State, es: seq<Event>, pid: Pid, f: FamilyId)
    requires Inv(s) && f in s.log.last && SealedOff(s, pid, f) && Meanwhile(es, pid)
    ensures SealedOff(Run(s, es), pid, f)
    decreases |es|
  {
    if es != [] {
      NextInv(s, es[0]);
      NextLater(s, es[0]);
      SealedNext(s, es[0], pid, f);
      SealedRun(Next(s, es[0]), es[1..], pid, f);
    }
  }

  lemma SoleDeleterKeepsNext(s: State, e: Event, pid: Pid, filter: Filter, h: Hash)
    requires Inv(s) && Keeps(s, e, pid, filter) && h in s.rows && Matches(filter, s.rows[h])
    requires Acts(e, pid) ==> e.DeleteLock?
    ensures h in Next(s, e).rows && Matches(filter, Next(s, e).rows[h])
  {
    SameOwner(s, e, h);
  }

  /** The rows a filter matches stay unless somebody else deletes them. */
  lemma {:induction false} SoleDeleterKeeps(s: State, es: seq<Event>, pid: Pid, filter: Filter, h: Hash)
    requires Inv(s) && Meanwhile(es, pid) && SoleDeleter(s, es, pid, filter)
    requires h in s.rows && Matches(filter, s.rows[h])
    ensures h in Run(s, es).rows
    decreases |es|
  {
    if es != [] {
      SoleDeleterKeepsNext(s, es[0], pid, filter, h);
      NextInv(s, es[0]);
      SoleDeleterKeeps(Next(s, es[0]), es[1..], pid, filter, h);
    }
  }

  lemma SameOwner(s: State, e: Event, h: Hash)
    requires Inv(s) && h in s.rows
    ensures h in Next(s, e).rows ==>
              s.rows[h].userId == Next(s, e).rows[h].userId && s.rows[h].familyId == Next(s, e).rows[h].familyId
  {
    assert h.token in s.log.issued && h == Hash(h.token);
    if e.Commit? && CanCommit(s, e.pid) && s.txs[e.pid].Rotating? {
      assert TxOk(s.rows.Keys, s.log, s.clock, s.txs[e.pid]);
    }
    SameOwnerStep(s, e, h);
  }

  lemma SameOwnerStep(s: State, e: Event, h: Hash)
    requires h in s.rows && h.token in s.log.issued
    requires e.Commit? && CanCommit(s, e.pid) && s.txs[e.pid].Rotating? ==> s.txs[e.pid].successor !in s.log.issued
    ensures h in Next(s, e).rows ==>
              s.rows[h].userId == Next(s, e).rows[h].userId && s.rows[h].familyId == Next(s, e).rows[h].familyId
  {
  }

  /** Without a new matching row, every matching row was there before. */
  lemma {:induction false} NothingNew(s: State, es: seq<Event>, filter: Filter, h: Hash)
    requires Inv(s) && NewRows(s, es, filter) == 0
    requires h in Run(s, es).rows && Matches(filter, Run(s, es).rows[h])
    ensures h in s.rows && Matches(filter, s.rows[h])
    decreases |es|
  {
    if es != [] {
      var m := Next(s, es[0]);
      NextInv(s, es[0]);
      NothingNew(m, es[1..], filter, h);
      if h in s.rows { SameOwner(s, es[0], h); }
    }
  }

  lemma {:induction false} HeldRun(s: State, es: seq<Event>, pid: Pid)
    requires pid in s.txs ==> s.txs[pid].Deleting?
    requires Meanwhile(es, pid)
    ensures Held(s, pid) <= Held(Run(s, es), pid)
    ensures pid in Run(s, es).txs <==> pid in s.txs
    ensures pid in s.txs ==> Run(s, es).txs[pid].Deleting?
    decreases |es|
  {
    if es != [] {
      HeldGrows(s, es[0], pid);
      HeldRun(Next(s, es[0]), es[1..], pid);
    }
  }

  /** A transaction between two statements stays as it is while the others run. */
  lemma {:induction false} IdleRun(s: State, es: seq<Event>, pid: Pid)
    requires Meanwhile(es, pid)
    requires pid in s.txs ==> s.txs[pid].Deleting? && s.txs[pid].todo == {}
    ensures pid in Run(s, es).txs <==> pid in s.txs
    ensures pid in s.txs ==> Run(s, es).txs[pid] == s.txs[pid]
    decreases |es|
  {
    if es != [] {
      IdleNext(s, es[0], pid);
      IdleRun(Next(s, es[0]), es[1..], pid);
    }
  }

  lemma IdleNext(s: State, e: Event, pid: Pid)
    requires Acts(e, pid) ==> e.DeleteLock?
    requires pid in s.txs ==> s.txs[pid].Deleting? && s.txs[pid].todo == {}
    ensures pid in Next(s, e).txs <==> pid in s.txs
    ensures pid in s.txs ==> Next(s, e).txs[pid] == s.txs[pid]
  {
  }

  lemma StaysEmpty(s: State, es: seq<Event>, pid: Pid, filter: Filter)
    requires Inv(s) && Meanwhile(es, pid) && Visible(s, pid, filter) == {}
    requires pid in s.txs ==> s.txs[pid].Deleting?
    ensures Visible(Run(s, es), pid, filter) == {} || NewRows(s, es, filter) > 0
  {
    HeldRun(s, es, pid);
    if NewRows(s, es, filter) == 0 {
      forall h | h in Run(s, es).rows && Matches(filter, Run(s, es).rows[h]) ensures h in Held(Run(s, es), pid) {
        NothingNew(s, es, filter, h);
        assert h !in Visible(s, pid, filter);
      }
    }
  }

  /** An empty snapshot seals off every family the filter matches. */
  lemma EmptySnapshotSeals(s: State, pid: Pid, filter: Filter, f: FamilyId)
    requires Inv(s) && Visible(s, pid, filter) == {} && FamilyMatches(s.log, f, filter)
    requires pid in s.txs ==> s.txs[pid].Deleting?
    ensures SealedOff(s, pid, f)
  {
    forall h | h in s.rows && s.rows[h].familyId == f ensures h in Held(s, pid) {
      assert s.rows[h] == RowOf(s.log, h.token);
      OneOwner(s.log, h.token);
      assert h !in Visible(s, pid, filter);
    }
    forall p | p in s.txs && s.txs[p].Rotating? ensures s.log.issued[s.txs[p].token].familyId != f {
      assert TxOk(s.rows.Keys, s.log, s.clock, s.txs[p]);
      var h := Hash(s.txs[p].token);
      assert s.rows[h] == RowOf(s.log, s.txs[p].token);
      if s.rows[h].familyId == f {
        assert false;
      }
    }
  }

  /** When a pass is over, what its snapshot held is doomed or gone. */
  lemma PassOver(a: State, es: seq<Event>, pid: Pid, filter: Filter)
    requires Inv(a) && CanStartDelete(a, pid) && Meanwhile(es, pid)
    requires var b := Run(Next(a, DeleteStart(pid, filter)), es);
             pid in b.txs && b.txs[pid].Deleting? && b.txs[pid].todo == {}
    ensures var s := Next(a, DeleteStart(pid, filter));
            var b := Run(s, es);
            && Held(a, pid) <= Held(b, pid) <= Held(a, pid) + Visible(a, pid, filter)
            && (Visible(b, pid, filter) == {} || NewRows(s, es, filter) > 0)
            && (SoleDeleter(s, es, pid, filter) ==> Held(b, pid) == Held(a, pid) + Visible(a, pid, filter))
  {
    var s := Next(a, DeleteStart(pid, filter));
    var b := Run(s, es);
    DeleteStartInv(a, pid, filter);
    ProgressRun(s, es, pid);
    assert PassProgress(s, b, pid);
    if NewRows(s, es, filter) == 0 {
      forall h | h in b.rows && Matches(filter, b.rows[h]) ensures h in Held(b, pid) {
        NothingNew(s, es, filter, h);
      }
    }
    if SoleDeleter(s, es, pid, filter) {
      forall h | h in Visible(a, pid, filter) ensures h in Held(b, pid) {
        SoleDeleterKeeps(s, es, pid, filter, h);
      }
    }
  }

  /** A completed DELETE of `pid` that counted `n` rows and led from `a` to `c` by the events `tr`. */
  ghost predicate PassDone(a: State, tr: seq<Event>, c: State, pid: Pid, filter: Filter, inTx: bool, n: nat) {
    && CanStartDelete(c, pid) && (inTx <==> pid in c.txs)
    && (inTx ==> |Held(c, pid)| == |Held(a, pid)| + n)
    && (n > 0 ==> Visible(a, pid, filter) != {})
    && (Visible(c, pid, filter) == {} || NewRows(a, tr, filter) > 0)
    && (n == 0 && SoleDeleter(a, tr, pid, filter) ==> Visible(a, pid, filter) == {})
    && (Visible(a, pid, filter) == {} ==> forall f :: FamilyMatches(a.log, f, filter) ==> SealedOff(c, pid, f))
  }

  lemma RunCons(a: State, e: Event, es: seq<Event>, pid: Pid, filter: Filter)
    ensures Run(a, [e] + es) == Run(Next(a, e), es)
    ensures NewRows(a, [e] + es, filter) >= NewRows(Next(a, e), es, filter)
    ensures SoleDeleter(a, [e] + es, pid, filter) ==> SoleDeleter(Next(a, e), es, pid, filter)
  {
  }

  /** An empty snapshot seals off every family the filter matches, whatever happens during the pass. */
  lemma EmptyPassSeals(a: State, es: seq<Event>, pid: Pid, filter: Filter, f: FamilyId)
    requires Inv(a) && CanStartDelete(a, pid) && Meanwhile(es, pid) && FamilyMatches(a.log, f, filter)
    requires Visible(a, pid, filter) == {}
    ensures SealedOff(Run(Next(a, DeleteStart(pid, filter)), es), pid, f)
  {
    EmptySnapshotSeals(a, pid, filter, f);
    SealedStart(a, pid, filter, f);
    DeleteStartInv(a, pid, filter);
    SealedRun(Next(a, DeleteStart(pid, filter)), es, pid, f);
  }

  lemma SealedStart(a: State, pid: Pid, filter: Filter, f: FamilyId)
    requires CanStartDelete(a, pid) && SealedOff(a, pid, f)
    ensures SealedOff(Next(a, DeleteStart(pid, filter)), pid, f)
  {
  }

  lemma Growth(small: set<Hash>, extra: set<Hash>, big: set<Hash>)
    requires small <= big <= small + extra
    ensures |small| <= |big|
    ensures |big| > |small| ==> extra != {}
    ensures |big| == |small| && big == small + extra && small !! extra ==> extra == {}
  {
    var more := big - small;
    assert big == small + more;
    assert |big| == |small| + |more|;
  }

  lemma PassInTx(a: State, es: seq<Event>, pid: Pid, filter: Filter)
    requires Inv(a) && CanStartDelete(a, pid) && Meanwhile(es, pid)
    requires var b := Run(Next(a, DeleteStart(pid, filter)), es);
             pid in b.txs && b.txs[pid].Deleting? && b.txs[pid].todo == {}
    ensures var b := Run(Next(a, DeleteStart(pid, filter)), es);
            && |Held(a, pid)| <= |Held(b, pid)|
            && PassDone(a, [DeleteStart(pid, filter)] + es, b, pid, filter, true, |Held(b, pid)| - |Held(a, pid)|)
  {
    var e := DeleteStart(pid, filter);
    var b := Run(Next(a, e), es);
    PassOver(a, es, pid, filter);
    RunCons(a, e, es, pid, filter);
    Growth(Held(a, pid), Visible(a, pid, filter), Held(b, pid));
    if Visible(a, pid, filter) == {} {
      forall f | FamilyMatches(a.log, f, filter) ensures SealedOff(b, pid, f) {
        EmptyPassSeals(a, es, pid, filter, f);
      }
    }
  }

  lemma CommitVisible(b: State, pid: Pid, filter: Filter)
    requires pid in b.txs && b.txs[pid].Deleting? && b.txs[pid].todo == {}
    ensures Visible(Next(b, Commit(pid)), pid, filter) == Visible(b, pid, filter)
  {
  }

  lemma PassCommits(a: State, tr: seq<Event>, b: State, pid: Pid, filter: Filter, n: nat)
    requires pid !in a.txs && b == Run(a, tr) && PassDone(a, tr, b, pid, filter, true, n)
    ensures PassDone(a, tr + [Commit(pid)], Next(b, Commit(pid)), pid, filter, false, n)
  {
    NewRowsConcat(a, tr, [Commit(pid)], filter);
    SoleDeleterConcat(a, tr, [Commit(pid)], pid, filter);
    CommitVisible(b, pid, filter);
    forall f | SealedOff(b, pid, f) ensures SealedOff(Next(b, Commit(pid)), pid, f) {
      SealedCommits(b, pid, f);
    }
  }

  lemma MatchesLater(a: State, b: State, f: FamilyId, filter: Filter)
    requires Inv(a) && Inv(b) && Later(a, b) && FamilyMatches(a.log, f, filter)
    ensures FamilyMatches(b.log, f, filter)
  {
    OneOwner(b.log, a.log.last[f]);
  }

  // ---------------------------------------------------------------- one statement

  /** The rows the running DELETE of `pid` has not reached. */
  function Todo(s: State, pid: Pid): set<Hash> {
    if pid in s.txs && s.txs[pid].Deleting? then s.txs[pid].todo else {}
  }

  /** The DELETE of `pid` waits: some row of its snapshot is left, and others hold all that are left. */
  ghost predicate Blocked(s: State, pid: Pid) {
    && pid in s.txs && s.txs[pid].Deleting? && s.txs[pid].todo != {}
    && forall h :: h in s.txs[pid].todo ==> LockedByOther(s, pid, h)
  }

  /** A DELETE after `during` has happened since its snapshot, and it has reached all that it can. */
  function Statement(s: State, pid: Pid, filter: Filter, during: seq<Event>): State {
    var b := Run(Next(s, DeleteStart(pid, filter)), during);
    Next(b, DeleteLock(pid, Todo(b, pid)))
  }

  function StatementTrace(s: State, pid: Pid, filter: Filter, during: seq<Event>): seq<Event> {
    [DeleteStart(pid, filter)] + (during + [DeleteLock(pid, Todo(Run(Next(s, DeleteStart(pid, filter)), during), pid))])
  }

  /** The rows a DELETE that led from `a` to `b` has counted. */
  function CountOf(a: State, b: State, pid: Pid): nat {
    if |Held(a, pid)| <= |Held(b, pid)| then |Held(b, pid)| - |Held(a, pid)| else 0
  }

  /** Outside a transaction a completed statement commits at once. */
  function Completed(c: State, pid: Pid, inTx: bool): State {
    if inTx then c else Next(c, Commit(pid))
  }

  function CompletedTrace(pid: Pid, inTx: bool): seq<Event> {
    if inTx then [] else [Commit(pid)]
  }

  lemma LeftIsLocked(b: State, pid: Pid)
    requires pid in b.txs && b.txs[pid].Deleting?
    ensures var c := Next(b, DeleteLock(pid, b.txs[pid].todo));
            && pid in c.txs && c.txs[pid].Deleting?
            && forall h :: h in c.txs[pid].todo ==> LockedByOther(c, pid, h)
  {
    var c := Next(b, DeleteLock(pid, b.txs[pid].todo));
    forall h | h in c.txs[pid].todo ensures LockedByOther(c, pid, h) {
      var p :| p in b.txs && p != pid && h in Locks(b.txs[p]);
      assert p in c.txs && c.txs[p] == b.txs[p];
    }
  }

  /** A statement completes, or waits for rows that others hold. */
  lemma StatementEnds(a: State, pid: Pid, filter: Filter, during: seq<Event>)
    requires Inv(a) && CanStartDelete(a, pid) && Meanwhile(during, pid)
    ensures var c, tr := Statement(a, pid, filter, during), StatementTrace(a, pid, filter, during);
            && Inv(c) && c == Run(a, tr)
            && pid in c.txs && c.txs[pid].Deleting?
            && (Todo(c, pid) != {} ==> Blocked(c, pid))
            && (Todo(c, pid) == {} ==> PassDone(a, tr, c, pid, filter, true, CountOf(a, c, pid)))
  {
    var m := Next(a, DeleteStart(pid, filter));
    HeldRun(m, during, pid);
    var b := Run(m, during);
    var lock := DeleteLock(pid, b.txs[pid].todo);
    var es := during + [lock];
    RunSnoc(m, during, lock);
    RunCons(a, DeleteStart(pid, filter), es, pid, filter);
    RunInv(a, [DeleteStart(pid, filter)] + es);
    LeftIsLocked(b, pid);
    if Todo(Next(b, lock), pid) == {} {
      PassInTx(a, es, pid, filter);
    }
  }

  // ---------------------------------------------------------------- the passes

  /** One pass of a revocation: all that happened, the state it leaves, its snapshot, and the rows it
      counted unless it still waits. */
  datatype Pass = Pass(trace: seq<Event>, state: State, seen: set<Hash>, count: Option<nat>)

  function PassOf(s: State, pid: Pid, filter: Filter, inTx: bool, before: seq<Event>, during: seq<Event>): Pass {
    var b := Run(s, before);
    var c, tr := Statement(b, pid, filter, during), before + StatementTrace(b, pid, filter, during);
    if Todo(c, pid) != {} then Pass(tr, c, Visible(b, pid, filter), None)
    else Pass(tr + CompletedTrace(pid, inTx), Completed(c, pid, inTx), Visible(b, pid, filter), Some(CountOf(b, c, pid)))
  }

  /** The passes one after the other; `before[k]` and `during[k]` are what the others do before and during
      pass k. */
  function PassesOf(s: State, pid: Pid, filter: Filter, inTx: bool, before: seq<seq<Event>>, during: seq<seq<Event>>)
    : (ps: seq<Pass>)
    requires |before| == |during|
    ensures |ps| == |before|
    decreases |before|
  {
    if before == [] then []
    else
      var p := PassOf(s, pid, filter, inTx, before[0], during[0]);
      [p] + PassesOf(p.state, pid, filter, inTx, before[1..], during[1..])
  }

  /** How a revocation ends: its result, the state it leaves, the snapshot of its last pass, and all that
      happened meanwhile. */
  datatype End = End(result: Revocation, state: State, seen: set<Hash>, trace: seq<Event>)

  /** The end of a revocation whose first pass was `p`. */
  function After(p: Pass, rest: End): End {
    End(rest.result, rest.state, rest.seen, p.trace + rest.trace)
  }

  /** From pass k on, passes are made until one counts nothing, or waits, or there are too many. */
  function EndOf(s: State, ps: seq<Pass>, k: nat, removed: nat): End
    requires k <= |ps|
    decreases |ps| - k
  {
    if k == |ps| then End(NotConverged, s, {}, [])
    else if ps[k].count.None? then End(StillWaiting, ps[k].state, ps[k].seen, ps[k].trace)
    else if ps[k].count.value == 0 then End(Removed(removed), ps[k].state, ps[k].seen, ps[k].trace)
    else After(ps[k], EndOf(ps[k].state, ps, k + 1, removed + ps[k].count.value))
  }

  function Revoke(s: State, pid: Pid, filter: Filter, inTx: bool, before: seq<seq<Event>>, during: seq<seq<Event>>): End
    requires |before| == |during|
  {
    EndOf(s, PassesOf(s, pid, filter, inTx, before, during), 0, 0)
  }

  ghost predicate ScheduleFor(before: seq<seq<Event>>, during: seq<seq<Event>>, pid: Pid) {
    && |before| == |during|
    && forall k :: 0 <= k < |before| ==> Meanwhile(before[k], pid) && Meanwhile(during[k], pid)
  }

  /** Between its statements the transaction is idle, and outside one there is none. */
  predicate Idle(s: State, pid: Pid, inTx: bool) {
    CanStartDelete(s, pid) && (!inTx ==> pid !in s.txs)
  }

  ghost predicate Seals(s: State, t: State, pid: Pid, filter: Filter) {
    forall f :: FamilyMatches(s.log, f, filter) ==> SealedOff(t, pid, f)
  }

  ghost predicate Inherits(s: State, t: State, filter: Filter) {
    forall f :: FamilyMatches(s.log, f, filter) ==> FamilyMatches(t.log, f, filter)
  }

  /** 1 if some matching row is left for `pid` to delete. */
  function Left(s: State, pid: Pid, filter: Filter): nat {
    if Visible(s, pid, filter) == {} then 0 else 1
  }

  /** What a completed pass from `s` that counted `n` rows means. */
  ghost predicate PassMeans(s: State, p: Pass, n: nat, pid: Pid, filter: Filter, inTx: bool) {
    && (inTx ==> pid in p.state.txs && |Held(p.state, pid)| == |Held(s, pid)| + n)
    && (p.seen == {} ==> Seals(s, p.state, pid, filter))
    && (n == 0 && SoleDeleter(s, p.trace, pid, filter) ==> p.seen == {})
    && (n > 0 ==> NewRows(s, p.trace, filter) + Left(s, pid, filter) >= 1 + Left(p.state, pid, filter))
    && Inherits(s, p.state, filter)
  }

  ghost predicate PassGood(s: State, p: Pass, pid: Pid, filter: Filter, inTx: bool) {
    && p.state == Run(s, p.trace)
    && match p.count
       case None => Blocked(p.state, pid)
       case Some(n) => Idle(p.state, pid, inTx) && PassMeans(s, p, n, pid, filter, inTx)
  }

  /** From pass k on, every pass up to the last one that counts is good. */
  ghost predicate Chain(s: State, ps: seq<Pass>, k: nat, pid: Pid, filter: Filter, inTx: bool)
    requires k <= |ps|
    decreases |ps| - k
  {
    k == |ps| ||
    (&& PassGood(s, ps[k], pid, filter, inTx)
     && (ps[k].count.Some? ==> Chain(ps[k].state, ps, k + 1, pid, filter, inTx)))
  }

  // ---------------------------------------------------------------- one pass is good

  lemma StatementCompletes(b: State, pid: Pid, filter: Filter, inTx: bool, during: seq<Event>)
    requires Inv(b) && Idle(b, pid, inTx) && Meanwhile(during, pid)
    requires Todo(Statement(b, pid, filter, during), pid) == {}
    ensures var c, tr := Statement(b, pid, filter, during), StatementTrace(b, pid, filter, during);
            var d, done := Completed(c, pid, inTx), tr + CompletedTrace(pid, inTx);
            Idle(d, pid, inTx) && d == Run(b, done) && PassDone(b, done, d, pid, filter, inTx, CountOf(b, c, pid))
  {
    var c, tr := Statement(b, pid, filter, during), StatementTrace(b, pid, filter, during);
    StatementEnds(b, pid, filter, during);
    if inTx {
      assert tr + [] == tr;
    } else {
      PassCommits(b, tr, c, pid, filter, CountOf(b, c, pid));
      RunSnoc(b, tr, Commit(pid));
      NextInv(c, Commit(pid));
    }
  }

  lemma Inherited(s: State, es: seq<Event>, filter: Filter)
    requires Inv(s)
    ensures Inherits(s, Run(s, es), filter)
  {
    RunLater(s, es);
    forall f | FamilyMatches(s.log, f, filter) ensures FamilyMatches(Run(s, es).log, f, filter) {
      MatchesLater(s, Run(s, es), f, filter);
    }
  }

  /** What a completed pass means, together with the wait before it. */
  lemma WaitAndPass(s: State, before: seq<Event>, b: State, tr: seq<Event>, d: State, pid: Pid, filter: Filter,
                    inTx: bool, n: nat)
    requires Inv(s) && b == Run(s, before) && d == Run(b, tr) && Meanwhile(before, pid)
    requires pid in s.txs ==> s.txs[pid].Deleting? && s.txs[pid].todo == {}
    requires PassDone(b, tr, d, pid, filter, inTx, n)
    ensures PassMeans(s, Pass(before + tr, d, Visible(b, pid, filter), Some(n)), n, pid, filter, inTx)
  {
    IdleRun(s, before, pid);
    RunConcat(s, before, tr);
    NewRowsConcat(s, before, tr, filter);
    SoleDeleterConcat(s, before, tr, pid, filter);
    Inherited(s, before, filter);
    Inherited(s, before + tr, filter);
    if Visible(s, pid, filter) == {} {
      StaysEmpty(s, before, pid, filter);
    }
  }

  lemma PassOfGood(s: State, pid: Pid, filter: Filter, inTx: bool, before: seq<Event>, during: seq<Event>)
    requires Inv(s) && Idle(s, pid, inTx) && Meanwhile(before, pid) && Meanwhile(during, pid)
    ensures PassGood(s, PassOf(s, pid, filter, inTx, before, during), pid, filter, inTx)
  {
    var b := Run(s, before);
    var c, tr := Statement(b, pid, filter, during), StatementTrace(b, pid, filter, during);
    IdleRun(s, before, pid);
    RunInv(s, before);
    StatementEnds(b, pid, filter, during);
    RunConcat(s, before, tr);
    if Todo(c, pid) == {} {
      var done := tr + CompletedTrace(pid, inTx);
      StatementCompletes(b, pid, filter, inTx, during);
      RunConcat(s, before, done);
      WaitAndPass(s, before, b, done, Completed(c, pid, inTx), pid, filter, inTx, CountOf(b, c, pid));
      assert before + tr + CompletedTrace(pid, inTx) == before + done;
    }
  }

  /** No pass before pass k was blocked. */
  ghost predicate Reached(ps: seq<Pass>, k: nat) {
    forall i :: 0 <= i < k && i < |ps| ==> ps[i].count.Some?
  }

  ghost predicate GoodPass(a: State, ps: seq<Pass>, k: nat, pid: Pid, filter: Filter, inTx: bool) {
    k < |ps| && (Reached(ps, k) ==> PassGood(StateAt(a, ps, k), ps[k], pid, filter, inTx))
  }

  ghost predicate Starts(s: State, pid: Pid, inTx: bool) {
    Inv(s) && Idle(s, pid, inTx)
  }

  /** A pass that starts well and is not blocked lets the next one start well. */
  ghost predicate Hands(a: State, ps: seq<Pass>, k: nat, pid: Pid, inTx: bool)
    requires k < |ps|
  {
    Starts(StateAt(a, ps, k), pid, inTx) && ps[k].count.Some? ==> Starts(ps[k].state, pid, inTx)
  }

  lemma {:induction false} StartsAt(a: State, ps: seq<Pass>, k: nat, pid: Pid, inTx: bool)
    requires k <= |ps| && Reached(ps, k) && Starts(a, pid, inTx)
    requires forall i :: 0 <= i < |ps| ==> Hands(a, ps, i, pid, inTx)
    ensures Starts(StateAt(a, ps, k), pid, inTx)
    decreases k
  {
    if k > 0 {
      StartsAt(a, ps, k - 1, pid, inTx);
      assert Hands(a, ps, k - 1, pid, inTx);
    }
  }

  ghost predicate StartsWell(a: State, ps: seq<Pass>, k: nat, pid: Pid, inTx: bool)
    requires k <= |ps|
  {
    Reached(ps, k) ==> Starts(StateAt(a, ps, k), pid, inTx)
  }

  lemma AllStart(a: State, ps: seq<Pass>, pid: Pid, filter: Filter, inTx: bool,
                 before: seq<seq<Event>>, during: seq<seq<Event>>)
    requires ScheduleFor(before, during, pid) && |ps| == |before| && Starts(a, pid, inTx)
    requires forall i :: 0 <= i < |ps| ==> IsPass(a, ps, i, pid, filter, inTx, before, during)
    ensures forall i :: 0 <= i < |ps| ==> StartsWell(a, ps, i, pid, inTx)
  {
    forall i | 0 <= i < |ps| ensures Hands(a, ps, i, pid, inTx) {
      assert IsPass(a, ps, i, pid, filter, inTx, before, during);
      NextStarts(a, ps, i, pid, filter, inTx, before, during);
    }
    forall i | 0 <= i < |ps| ensures StartsWell(a, ps, i, pid, inTx) {
      if Reached(ps, i) {
        StartsAt(a, ps, i, pid, inTx);
      }
    }
  }

  lemma NextStarts(a: State, ps: seq<Pass>, k: nat, pid: Pid, filter: Filter, inTx: bool,
                   before: seq<seq<Event>>, during: seq<seq<Event>>)
    requires ScheduleFor(before, during, pid) && k < |ps| == |before|
    requires IsPass(a, ps, k, pid, filter, inTx, before, during)
    ensures Hands(a, ps, k, pid, inTx)
  {
    if Starts(StateAt(a, ps, k), pid, inTx) {
      PassLeads(StateAt(a, ps, k), ps[k], pid, filter, inTx, before[k], during[k]);
    }
  }

  lemma {:induction false} ChainOfGood(a: State, ps: seq<Pass>, k: nat, pid: Pid, filter: Filter, inTx: bool)
    requires k <= |ps| && Reached(ps, k)
    requires forall i :: k <= i < |ps| ==> GoodPass(a, ps, i, pid, filter, inTx)
    ensures Chain(StateAt(a, ps, k), ps, k, pid, filter, inTx)
    decreases |ps| - k
  {
    if k < |ps| {
      assert GoodPass(a, ps, k, pid, filter, inTx);
      if ps[k].count.Some? {
        ChainOfGood(a, ps, k + 1, pid, filter, inTx);
      }
    }
  }

  lemma PassesChain(a: State, ps: seq<Pass>, pid: Pid, filter: Filter, inTx: bool,
                    before: seq<seq<Event>>, during: seq<seq<Event>>)
    requires ScheduleFor(before, during, pid) && |ps| == |before|
    requires forall i :: 0 <= i < |ps| ==> IsPass(a, ps, i, pid, filter, inTx, before, during)
    requires Inv(a) && Idle(a, pid, inTx)
    ensures Chain(a, ps, 0, pid, filter, inTx)
  {
    AllStart(a, ps, pid, filter, inTx, before, during);
    forall i | 0 <= i < |ps| ensures GoodPass(a, ps, i, pid, filter, inTx) {
      if Reached(ps, i) {
        assert StartsWell(a, ps, i, pid, inTx);
        assert IsPass(a, ps, i, pid, filter, inTx, before, during);
        PassLeads(StateAt(a, ps, i), ps[i], pid, filter, inTx, before[i], during[i]);
      }
    }
    ChainOfGood(a, ps, 0, pid, filter, inTx);
  }

  /** A pass is good, and leaves its session ready for the next one. */
  lemma PassLeads(s: State, p: Pass, pid: Pid, filter: Filter, inTx: bool, before: seq<Event>, during: seq<Event>)
    requires Inv(s) && Idle(s, pid, inTx) && Meanwhile(before, pid) && Meanwhile(during, pid)
    requires p == PassOf(s, pid, filter, inTx, before, during)
    ensures PassGood(s, p, pid, filter, inTx) && (p.count.Some? ==> Starts(p.state, pid, inTx))
  {
    PassOfGood(s, pid, filter, inTx, before, during);
    RunInv(s, p.trace);
  }

  // ---------------------------------------------------------------- all passes

  /** The end of a revocation from `s` is the end of a run, and one that has not ended waits for rows that
      others hold. */
  ghost predicate EndsRun(s: State, e: End, pid: Pid, inTx: bool) {
    && e.state == Run(s, e.trace)
    && (e.result.StillWaiting? ==> Blocked(e.state, pid))
    && (!e.result.StillWaiting? ==> Idle(e.state, pid, inTx))
    && (e.result.Removed? && inTx ==> pid in e.state.txs && e.result.count == |Held(e.state, pid)|)
  }

  lemma EndsRunAfter(s: State, p: Pass, rest: End, pid: Pid, inTx: bool)
    requires p.state == Run(s, p.trace) && EndsRun(p.state, rest, pid, inTx)
    ensures EndsRun(s, After(p, rest), pid, inTx)
  {
    RunConcat(s, p.trace, rest.trace);
  }

  lemma {:induction false} ChainRuns(s: State, ps: seq<Pass>, k: nat, pid: Pid, filter: Filter, inTx: bool, removed: nat)
    requires Idle(s, pid, inTx) && k <= |ps| && Chain(s, ps, k, pid, filter, inTx)
    requires inTx ==> removed == |Held(s, pid)|
    ensures EndsRun(s, EndOf(s, ps, k, removed), pid, inTx)
    decreases |ps| - k
  {
    if k < |ps| && ps[k].count.Some? && ps[k].count.value > 0 {
      var n := ps[k].count.value;
      ChainRuns(ps[k].state, ps, k + 1, pid, filter, inTx, removed + n);
      EndsRunAfter(s, ps[k], EndOf(ps[k].state, ps, k + 1, removed + n), pid, inTx);
    }
  }

  /** If the last pass found nothing in its snapshot, every matching family is sealed off. If nobody else
      deletes matching rows, a pass that counts nothing found nothing. */
  ghost predicate EndsSealed(s: State, e: End, pid: Pid, filter: Filter) {
    e.result.Removed? ==>
      && (e.seen == {} ==> Seals(s, e.state, pid, filter))
      && (SoleDeleter(s, e.trace, pid, filter) ==> e.seen == {})
  }

  lemma EndsSealedAfter(s: State, p: Pass, rest: End, pid: Pid, filter: Filter)
    requires p.state == Run(s, p.trace) && Inherits(s, p.state, filter) && EndsSealed(p.state, rest, pid, filter)
    ensures EndsSealed(s, After(p, rest), pid, filter)
  {
    SoleDeleterConcat(s, p.trace, rest.trace, pid, filter);
  }

  lemma {:induction false} ChainSeals(s: State, ps: seq<Pass>, k: nat, pid: Pid, filter: Filter, inTx: bool, removed: nat)
    requires k <= |ps| && Chain(s, ps, k, pid, filter, inTx)
    ensures EndsSealed(s, EndOf(s, ps, k, removed), pid, filter)
    decreases |ps| - k
  {
    if k < |ps| && ps[k].count.Some? && ps[k].count.value > 0 {
      var n := ps[k].count.value;
      ChainSeals(ps[k].state, ps, k + 1, pid, filter, inTx, removed + n);
      EndsSealedAfter(s, ps[k], EndOf(ps[k].state, ps, k + 1, removed + n), pid, filter);
    }
  }

  /** Each further pass that counts something was preceded by a newly committed row. */
  ghost predicate EndsCounted(s: State, e: End, pid: Pid, filter: Filter, passes: nat) {
    e.result.NotConverged? ==> NewRows(s, e.trace, filter) + Left(s, pid, filter) >= passes
  }

  lemma EndsCountedAfter(s: State, p: Pass, rest: End, pid: Pid, filter: Filter, passes: nat)
    requires p.state == Run(s, p.trace) && EndsCounted(p.state, rest, pid, filter, passes)
    requires NewRows(s, p.trace, filter) + Left(s, pid, filter) >= 1 + Left(p.state, pid, filter)
    ensures EndsCounted(s, After(p, rest), pid, filter, passes + 1)
  {
    NewRowsConcat(s, p.trace, rest.trace, filter);
  }

  lemma {:induction false} ChainCounts(s: State, ps: seq<Pass>, k: nat, pid: Pid, filter: Filter, inTx: bool, removed: nat)
    requires k <= |ps| && Chain(s, ps, k, pid, filter, inTx)
    ensures EndsCounted(s, EndOf(s, ps, k, removed), pid, filter, |ps| - k)
    decreases |ps| - k
  {
    if k < |ps| && ps[k].count.Some? && ps[k].count.value > 0 {
      var n := ps[k].count.value;
      ChainCounts(ps[k].state, ps, k + 1, pid, filter, inTx, removed + n);
      EndsCountedAfter(s, ps[k], EndOf(ps[k].state, ps, k + 1, removed + n), pid, filter, |ps| - k - 1);
    }
  }

  /** What the end of a revocation means. */
  ghost predicate RevokeMeans(s: State, e: End, pid: Pid, filter: Filter, inTx: bool, passes: nat) {
    && Inv(e.state) && e.state == Run(s, e.trace)
    && match e.result
       case StillWaiting => Blocked(e.state, pid)
       case NotConverged => Idle(e.state, pid, inTx) && NewRows(s, e.trace, filter) >= passes - 1
       case Removed(count) =>
         && (inTx <==> pid in e.state.txs)
         && (inTx ==> CanCommit(e.state, pid) && e.state.txs[pid].Deleting? && count == |Held(e.state, pid)|)
         && (e.seen == {} ==> Seals(s, e.state, pid, filter))
         && (SoleDeleter(s, e.trace, pid, filter) ==> e.seen == {})
  }

  lemma RevokeEnds(s: State, pid: Pid, filter: Filter, inTx: bool, before: seq<seq<Event>>, during: seq<seq<Event>>)
    requires Inv(s) && pid !in s.txs && ScheduleFor(before, during, pid)
    ensures RevokeMeans(s, Revoke(s, pid, filter, inTx, before, during), pid, filter, inTx, |before|)
  {
    var ps := PassesOf(s, pid, filter, inTx, before, during);
    forall k | 0 <= k < |ps| ensures IsPass(s, ps, k, pid, filter, inTx, before, during) {
      PassAt(s, pid, filter, inTx, before, during, k);
    }
    PassesChain(s, ps, pid, filter, inTx, before, during);
    ChainEnds(s, ps, pid, filter, inTx);
    RunInv(s, EndOf(s, ps, 0, 0).trace);
  }

  lemma ChainEnds(s: State, ps: seq<Pass>, pid: Pid, filter: Filter, inTx: bool)
    requires pid !in s.txs && Chain(s, ps, 0, pid, filter, inTx)
    ensures var e := EndOf(s, ps, 0, 0);
            EndsRun(s, e, pid, inTx) && EndsSealed(s, e, pid, filter) && EndsCounted(s, e, pid, filter, |ps|)
  {
    ChainRuns(s, ps, 0, pid, filter, inTx, 0);
    ChainSeals(s, ps, 0, pid, filter, inTx, 0);
    ChainCounts(s, ps, 0, pid, filter, inTx, 0);
  }

  /** Revoked for good: when revocation returns normally after a pass that found nothing, and its transaction
      (if it has one) commits, no row of a matching family that existed at its start ever appears again. */
  lemma RevokedForGood(s: State, pid: Pid, filter: Filter, inTx: bool, before: seq<seq<Event>>, during: seq<seq<Event>>,
                       f: FamilyId, es: seq<Event>)
    requires Inv(s) && pid !in s.txs && ScheduleFor(before, during, pid) && FamilyMatches(s.log, f, filter)
    ensures var e := Revoke(s, pid, filter, inTx, before, during);
            e.result.Removed? && e.seen == {} ==> Dead(Run(Next(e.state, Commit(pid)), es), f)
  {
    var e := Revoke(s, pid, filter, inTx, before, during);
    RevokeEnds(s, pid, filter, inTx, before, during);
    if e.result.Removed? && e.seen == {} {
      SealedForGood(s, e, pid, f, es);
    }
  }

  lemma SealedForGood(s: State, e: End, pid: Pid, f: FamilyId, es: seq<Event>)
    requires Inv(s) && Inv(e.state) && e.state == Run(s, e.trace) && f in s.log.last
    requires SealedOff(e.state, pid, f) && (pid in e.state.txs ==> CanCommit(e.state, pid))
    ensures Dead(Run(Next(e.state, Commit(pid)), es), f)
  {
    RunLater(s, e.trace);
    SealedCommits(e.state, pid, f);
    NextInv(e.state, Commit(pid));
    NextLater(e.state, Commit(pid));
    DeadForever(Next(e.state, Commit(pid)), es, f);
  }

  class RefreshStore {
    var s: State

    constructor (s: State)
      ensures this.s == s
    {
      this.s := s;
    }

    /** One DELETE statement. `during` is what happens between its snapshot and its end; the statement
        then locks what it can, and either completes or still waits for rows that others hold. Outside a
        transaction it commits at its end. */
    method DeleteMany(pid: Pid, filter: Filter, inTx: bool, during: seq<Event>)
      returns (count: Option<nat>)
      requires Inv(s) && Idle(s, pid, inTx) && Meanwhile(during, pid)
      modifies this
      ensures var c := Statement(old(s), pid, filter, during);
              if Todo(c, pid) == {} then count == Some(CountOf(old(s), c, pid)) && s == Completed(c, pid, inTx)
              else count.None? && s == c && Blocked(s, pid)
    {
      StatementEnds(s, pid, filter, during);
      var before := s;
      s := Next(s, DeleteStart(pid, filter));
      s := Run(s, during);
      s := Next(s, DeleteLock(pid, Todo(s, pid)));
      if Todo(s, pid) != {} {
        return None;
      }
      count := Some(CountOf(before, s, pid));
      if !inTx {
        s := Next(s, Commit(pid));
      }
    }

    /** Repeats the DELETE until it matches nothing. `before[k]` and `during[k]` are what the other
        sessions do before and during pass k. */
    method RevokeRefreshTokens(pid: Pid, filter: Filter, inTx: bool,
                               before: seq<seq<Event>>, during: seq<seq<Event>>)
      returns (r: Revocation, ghost e: End)
      requires Inv(s) && pid !in s.txs && ScheduleFor(before, during, pid) && |before| == MAX_REVOCATION_PASSES
      modifies this
      ensures e == Revoke(old(s), pid, filter, inTx, before, during) && r == e.result && s == e.state
      ensures RevokeMeans(old(s), e, pid, filter, inTx, MAX_REVOCATION_PASSES)
    {
      RevokeEnds(s, pid, filter, inTx, before, during);
      e := Revoke(s, pid, filter, inTx, before, during);
      ghost var ps := PassesOf(s, pid, filter, inTx, before, during);
      forall k | 0 <= k < |ps| ensures IsPass(s, ps, k, pid, filter, inTx, before, during) {
        PassAt(s, pid, filter, inTx, before, during, k);
      }
      r := Passes(pid, filter, inTx, before, during, ps, e);
    }

    /** The loop; `ps` are its passes and `end` is how they end. */
    method Passes(pid: Pid, filter: Filter, inTx: bool, before: seq<seq<Event>>, during: seq<seq<Event>>,
                  ghost ps: seq<Pass>, ghost end: End)
      returns (r: Revocation)
      requires Inv(s) && Idle(s, pid, inTx) && ScheduleFor(before, during, pid) && |ps| == |before|
      requires forall k :: 0 <= k < |ps| ==> IsPass(s, ps, k, pid, filter, inTx, before, during)
      requires Leads(s, ps, 0, 0, end)
      modifies this
      ensures r == end.result && s == end.state
    {
      ghost var a := s;
      AllStart(a, ps, pid, filter, inTx, before, during);
      var removed := 0;
      for pass := 0 to |before|
        invariant s == StateAt(a, ps, pass) && Tallied(ps, pass, removed) && Reached(ps, pass)
      {
        EndAt(a, ps, pass, removed, end);
        var count := OnePass(pid, filter, inTx, before, during, a, ps, pass);
        if count.None? {
          return StillWaiting;
        }
        if count.value == 0 {
          return Removed(removed);
        }
        removed := removed + count.value;
      }
      EndLast(a, ps, removed, end);
      return NotConverged;
    }

    /** The wait before pass k, and its DELETE. */
    method OnePass(pid: Pid, filter: Filter, inTx: bool, before: seq<seq<Event>>, during: seq<seq<Event>>,
                   ghost a: State, ghost ps: seq<Pass>, k: nat)
      returns (count: Option<nat>)
      requires ScheduleFor(before, during, pid) && k < |ps| == |before| && Reached(ps, k) && s == StateAt(a, ps, k)
      requires forall i :: 0 <= i < |ps| ==> StartsWell(a, ps, i, pid, inTx)
      requires forall i :: 0 <= i < |ps| ==> IsPass(a, ps, i, pid, filter, inTx, before, during)
      modifies this
      ensures s == ps[k].state && count == ps[k].count
    {
      assert StartsWell(a, ps, k, pid, inTx) && IsPass(a, ps, k, pid, filter, inTx, before, during);
      IdleRun(s, before[k], pid);
      RunInv(s, before[k]);
      s := Run(s, before[k]);
      count := DeleteMany(pid, filter, inTx, during[k]);
    }
  }

  /** From pass k on, the revocation ends like `end`. */
  predicate Leads(s: State, ps: seq<Pass>, k: nat, removed: nat, end: End)
    requires k <= |ps|
  {
    EndOf(s, ps, k, removed).result == end.result && EndOf(s, ps, k, removed).state == end.state
  }

  /** The state in which pass k starts. */
  function StateAt(a: State, ps: seq<Pass>, k: nat): State
    requires k <= |ps|
  {
    if k == 0 then a else ps[k - 1].state
  }

  predicate IsPass(a: State, ps: seq<Pass>, k: nat, pid: Pid, filter: Filter, inTx: bool, before: seq<seq<Event>>,
                   during: seq<seq<Event>>)
    requires k < |ps| == |before| == |during|
  {
    ps[k] == PassOf(StateAt(a, ps, k), pid, filter, inTx, before[k], during[k])
  }

  lemma {:induction false} PassAt(a: State, pid: Pid, filter: Filter, inTx: bool, before: seq<seq<Event>>,
                                  during: seq<seq<Event>>, k: nat)
    requires k < |before| == |during|
    ensures IsPass(a, PassesOf(a, pid, filter, inTx, before, during), k, pid, filter, inTx, before, during)
    decreases k
  {
    if k > 0 {
      var ps := PassesOf(a, pid, filter, inTx, before, during);
      var b := ps[0].state;
      var rest := PassesOf(b, pid, filter, inTx, before[1..], during[1..]);
      PassAt(b, pid, filter, inTx, before[1..], during[1..], k - 1);
      assert ps[k] == rest[k - 1] && StateAt(a, ps, k) == StateAt(b, rest, k - 1);
      assert before[k] == before[1..][k - 1] && during[k] == during[1..][k - 1];
    }
  }

  lemma EndStep(s: State, ps: seq<Pass>, k: nat, removed: nat, end: End)
    requires k < |ps| && Leads(s, ps, k, removed, end)
    ensures var p := ps[k];
            if p.count.None? then end.result == StillWaiting && end.state == p.state
            else if p.count.value == 0 then end.result == Removed(removed) && end.state == p.state
            else Leads(p.state, ps, k + 1, removed + p.count.value, end)
  {
  }

  lemma EndNone(s: State, ps: seq<Pass>, removed: nat, end: End)
    requires Leads(s, ps, |ps|, removed, end)
    ensures end.result == NotConverged && end.state == s
  {
  }

  /** The first k passes all removed rows, `removed` in all. */
  ghost predicate Tallied(ps: seq<Pass>, k: nat, removed: int)
    requires k <= |ps|
    decreases k
  {
    if k == 0 then removed == 0
    else ps[k - 1].count.Some? && ps[k - 1].count.value > 0 && Tallied(ps, k - 1, removed - ps[k - 1].count.value)
  }

  lemma {:induction false} TalliedLeads(a: State, ps: seq<Pass>, k: nat, removed: int, end: End)
    requires k <= |ps| && Leads(a, ps, 0, 0, end) && Tallied(ps, k, removed)
    ensures removed >= 0 && Leads(StateAt(a, ps, k), ps, k, removed, end)
    decreases k
  {
    if k > 0 {
      var was := removed - ps[k - 1].count.value;
      TalliedLeads(a, ps, k - 1, was, end);
      EndStep(StateAt(a, ps, k - 1), ps, k - 1, was, end);
    }
  }

  /** What a pass means for the end. */
  lemma EndAt(a: State, ps: seq<Pass>, k: nat, removed: nat, end: End)
    requires k < |ps| && Leads(a, ps, 0, 0, end) && Tallied(ps, k, removed)
    ensures var p := ps[k];
            && (p.count.None? ==> end.result == StillWaiting && end.state == p.state)
            && (p.count.Some? && p.count.value == 0 ==> end.result == Removed(removed) && end.state == p.state)
            && (p.count.Some? && p.count.value > 0 ==> Tallied(ps, k + 1, removed + p.count.value))
  {
    TalliedLeads(a, ps, k, removed, end);
    EndStep(StateAt(a, ps, k), ps, k, removed, end);
  }

  lemma EndLast(a: State, ps: seq<Pass>, removed: nat, end: End)
    requires Leads(a, ps, 0, 0, end) && Tallied(ps, |ps|, removed)
    ensures end.result == NotConverged && end.state == StateAt(a, ps, |ps|)
  {
    TalliedLeads(a, ps, |ps|, removed, end);
    EndNone(StateAt(a, ps, |ps|), ps, removed, end);
  }
}
