/**
 The versioned cache of each user's role and permissions, over every interleaving of readers, late
 refills and writers.

 The database is its whole history: revision r is the content after r changes committed. A writer
 commits its change and bumps the version afterwards; a reader reads its entry and the version in one
 call, then the user and the role one after the other, and refills the cache with the version it read.
 `Next` is one such step of one request; a disabled one changes nothing.
 */
module RbacCache {
  import opened Options

  type UserId = int
  type RoleId = int
  type Pid = nat

  datatype Role = Role(slug: string, userType: string, access: set<string>)

  datatype User = User(deleted: bool, roleId: Option<RoleId>)

  datatype Database = Database(users: map<UserId, User>, roles: map<RoleId, Role>)

  /** A role as requests and cache entries carry it; entries written before roles had a user type
      lack that field. */
  datatype RoleData = RoleData(id: RoleId, slug: string, userType: Option<string>, access: set<string>)

  datatype UserData = UserData(id: UserId, role: Option<RoleData>)

  /** A cached value with its stamp, and where its data came from: the revisions that were current when
      the user and the role were read. */
  datatype Entry = Entry(data: UserData, stamp: nat, userRev: nat, roleRev: nat)

  /** A request after a cache miss: the version it read, the newest change whose bump had finished when
      it started, and what it has read so far. */
  datatype Reader =
    | Missed(user: UserId, version: nat, since: nat)
    | HasUser(user: UserId, version: nat, since: nat, roleId: Option<RoleId>, userRev: nat)
    | HasRole(user: UserId, version: nat, since: nat, data: UserData, userRev: nat, roleRev: nat)

  /** What a request went on with. */
  datatype Decision = Decision(user: UserId, since: nat, data: Option<UserData>, userRev: nat, roleRev: nat)

  /** `bumpedTo` is the newest change whose bump has finished, `floors[v]` its value when version `v`
      began, `pending` the changes committed by writers that still have to bump. */
  datatype State = State(
    history: seq<Database>,
    version: nat,
    cache: map<UserId, Entry>,
    readers: map<Pid, Reader>,
    pending: map<Pid, nat>,
    bumpedTo: nat,
    floors: seq<nat>,
    decisions: set<Decision>)

  datatype Event =
    | CommitChange(pid: Pid, db: Database)
    | Bump(pid: Pid)
    | Evict(users: set<UserId>)
    | CacheLegacy(user: UserId, entry: Entry)
    | Start(pid: Pid, user: UserId)
    | ReadUser(pid: Pid)
    | ReadRole(pid: Pid)
    | Refill(pid: Pid)

  function Init(db: Database): State {
    State([db], 0, map[], map[], map[], 0, [0], {})
  }

  function Rev(s: State): nat
    requires |s.history| > 0
  {
    |s.history| - 1
  }

  /** The user's row if it is there and not deleted. */
  function FindUser(db: Database, user: UserId): Option<User> {
    if user in db.users && !db.users[user].deleted then Some(db.users[user]) else None
  }

  function FindRole(db: Database, roleId: Option<RoleId>): Option<RoleData> {
    if roleId.Some? && roleId.value in db.roles then
      var r := db.roles[roleId.value];
      Some(RoleData(roleId.value, r.slug, Some(r.userType), r.access))
    else None
  }

  /** What a lookup gives that reads the user in one revision and the role in another. */
  function Lookup(users: Database, roles: Database, user: UserId): Option<UserData> {
    match FindUser(users, user)
    case None => None
    case Some(row) => Some(UserData(user, FindRole(roles, row.roleId)))
  }

  predicate Legacy(e: Entry) {
    e.data.role.Some? && e.data.role.value.userType.None?
  }

  /** An entry counts if its stamp is the current version and its role has a user type. */
  predicate Hit(s: State, user: UserId) {
    user in s.cache && s.cache[user].stamp == s.version && !Legacy(s.cache[user])
  }

  function Drop(readers: map<Pid, Reader>, pid: Pid): map<Pid, Reader> {
    map p | p in readers && p != pid :: readers[p]
  }

  function Max(a: nat, b: nat): nat {
    if a < b then b else a
  }

  function BumpVersion(s: State, pid: Pid): State
    requires pid in s.pending
  {
    var to := Max(s.bumpedTo, s.pending[pid]);
    s.(version := s.version + 1, bumpedTo := to, floors := s.floors + [to],
       pending := map p | p in s.pending && p != pid :: s.pending[p])
  }

  function StartRequest(s: State, pid: Pid, user: UserId): State {
    if Hit(s, user) then
      var e := s.cache[user];
      s.(decisions := s.decisions + {Decision(user, s.bumpedTo, Some(e.data), e.userRev, e.roleRev)})
    else s.(readers := s.readers[pid := Missed(user, s.version, s.bumpedTo)])
  }

  /** A missing user ends the request; otherwise the role is read next. */
  function FetchUser(s: State, pid: Pid): State
    requires |s.history| > 0 && pid in s.readers && s.readers[pid].Missed?
  {
    var r := s.readers[pid];
    match FindUser(s.history[Rev(s)], r.user)
    case None =>
      s.(readers := Drop(s.readers, pid), decisions := s.decisions + {Decision(r.user, r.since, None, Rev(s), Rev(s))})
    case Some(row) => s.(readers := s.readers[pid := HasUser(r.user, r.version, r.since, row.roleId, Rev(s))])
  }

  function FetchRole(s: State, pid: Pid): State
    requires |s.history| > 0 && pid in s.readers && s.readers[pid].HasUser?
  {
    var r := s.readers[pid];
    var data := UserData(r.user, FindRole(s.history[Rev(s)], r.roleId));
    s.(readers := s.readers[pid := HasRole(r.user, r.version, r.since, data, r.userRev, Rev(s))])
  }

  function RefillCache(s: State, pid: Pid): State
    requires pid in s.readers && s.readers[pid].HasRole?
  {
    var r := s.readers[pid];
    s.(cache := s.cache[r.user := Entry(r.data, r.version, r.userRev, r.roleRev)],
       readers := Drop(s.readers, pid),
       decisions := s.decisions + {Decision(r.user, r.since, Some(r.data), r.userRev, r.roleRev)})
  }

  function Next(s: State, e: Event): State {
    match e
    case CommitChange(pid, db) =>
      if pid !in s.pending then s.(history := s.history + [db], pending := s.pending[pid := |s.history|]) else s
    case Bump(pid) => if pid in s.pending then BumpVersion(s, pid) else s
    case Evict(users) => s.(cache := map u | u in s.cache && u !in users :: s.cache[u])
    case CacheLegacy(user, entry) => if Legacy(entry) then s.(cache := s.cache[user := entry]) else s
    case Start(pid, user) => if pid !in s.readers then StartRequest(s, pid, user) else s
    case ReadUser(pid) =>
      if |s.history| > 0 && pid in s.readers && s.readers[pid].Missed? then FetchUser(s, pid) else s
    case ReadRole(pid) =>
      if |s.history| > 0 && pid in s.readers && s.readers[pid].HasUser? then FetchRole(s, pid) else s
    case Refill(pid) => if pid in s.readers && s.readers[pid].HasRole? then RefillCache(s, pid) else s
  }

  function Run(s: State, es: seq<Event>): State
    decreases |es|
  {
    if es == [] then s else Run(Next(s, es[0]), es[1..])
  }

  // ---------------------------------------------------------------- invariant

  /** The data is what the database held in the two revisions, and neither is older than `floor`. */
  predicate Sourced(history: seq<Database>, user: UserId, data: Option<UserData>, userRev: nat, roleRev: nat, floor: nat) {
    && floor <= userRev <= roleRev < |history|
    && data == Lookup(history[userRev], history[roleRev], user)
  }

  /** Bumps that have finished are of committed changes, and each version has its floor. */
  ghost predicate Versions(s: State) {
    && s.bumpedTo < |s.history| && |s.floors| == s.version + 1 && s.floors[s.version] == s.bumpedTo
    && (forall p :: p in s.pending ==> s.pending[p] < |s.history|)
  }

  /** An entry that can be a hit under version `stamp` is at least as new as that version's floor. */
  predicate EntryOk(history: seq<Database>, floors: seq<nat>, user: UserId, e: Entry) {
    Legacy(e) || (e.stamp < |floors| && Sourced(history, user, Some(e.data), e.userRev, e.roleRev, floors[e.stamp]))
  }

  ghost predicate CacheOk(history: seq<Database>, floors: seq<nat>, cache: map<UserId, Entry>) {
    forall u :: u in cache ==> EntryOk(history, floors, u, cache[u])
  }

  predicate ReaderOk(history: seq<Database>, floors: seq<nat>, r: Reader) {
    && r.version < |floors| && floors[r.version] == r.since
    && match r
       case Missed(_, _, since) => since < |history|
       case HasUser(user, _, since, roleId, userRev) =>
         since <= userRev < |history| && FindUser(history[userRev], user).Some?
         && FindUser(history[userRev], user).value.roleId == roleId
       case HasRole(user, _, since, data, userRev, roleRev) =>
         Sourced(history, user, Some(data), userRev, roleRev, since)
  }

  ghost predicate ReadersOk(history: seq<Database>, floors: seq<nat>, readers: map<Pid, Reader>) {
    forall p :: p in readers ==> ReaderOk(history, floors, readers[p])
  }

  ghost predicate DecisionsOk(history: seq<Database>, decisions: set<Decision>) {
    forall d :: d in decisions ==> Sourced(history, d.user, d.data, d.userRev, d.roleRev, d.since)
  }

  ghost predicate Inv(s: State) {
    && Versions(s) && CacheOk(s.history, s.floors, s.cache) && ReadersOk(s.history, s.floors, s.readers)
    && DecisionsOk(s.history, s.decisions)
  }

  /** Nothing read before is touched by a further revision or a further version. */
  lemma CommitInv(s: State, pid: Pid, db: Database)
    requires Inv(s)
    ensures Inv(Next(s, CommitChange(pid, db)))
  {
  }

  lemma BumpInv(s: State, pid: Pid)
    requires Inv(s)
    ensures Inv(Next(s, Bump(pid)))
  {
  }

  lemma StartInv(s: State, pid: Pid, user: UserId)
    requires Inv(s)
    ensures Inv(Next(s, Start(pid, user)))
  {
  }

  lemma ReadInv(s: State, e: Event)
    requires Inv(s) && (e.ReadUser? || e.ReadRole? || e.Refill?)
    ensures Inv(Next(s, e))
  {
    if e.pid in s.readers { assert ReaderOk(s.history, s.floors, s.readers[e.pid]); }
  }

  lemma NextInv(s: State, e: Event)
    requires Inv(s)
    ensures Inv(Next(s, e))
  {
    match e
    case CommitChange(pid, db) => CommitInv(s, pid, db);
    case Bump(pid) => BumpInv(s, pid);
    case Evict(_) =>
    case CacheLegacy(_, _) =>
    case Start(pid, user) => StartInv(s, pid, user);
    case _ => ReadInv(s, e);
  }

  lemma {:induction false} RunInv(s: State, es: seq<Event>)
    requires Inv(s)
    ensures Inv(Run(s, es))
    decreases |es|
  {
    if es != [] {
      NextInv(s, es[0]);
      RunInv(Next(s, es[0]), es[1..]);
    }
  }

  // ---------------------------------------------------------------- what requests can rely on

  /** Every request decides with data read in revisions no older than any change whose bump had
      finished when the request started. */
  lemma DecisionsSeeFinishedChanges(db: Database, es: seq<Event>, d: Decision)
    ensures var s := Run(Init(db), es);
            d in s.decisions ==> Sourced(s.history, d.user, d.data, d.userRev, d.roleRev, d.since)
  {
    RunInv(Init(db), es);
  }

  /** A finished bump counts for ever: no later version has a lower floor. */
  lemma {:induction false} FloorsGrow(s: State, es: seq<Event>)
    ensures s.bumpedTo <= Run(s, es).bumpedTo && s.history <= Run(s, es).history
    decreases |es|
  {
    if es != [] {
      FloorsGrow(Next(s, es[0]), es[1..]);
    }
  }

  /** A change whose bump has returned is seen by every request that starts afterwards: a hit holds data
      read in revisions that include it, and a miss reads no older ones. */
  lemma RequestAfterBump(s: State, writer: Pid, es: seq<Event>, pid: Pid, user: UserId)
    requires Inv(s) && writer in s.pending
    ensures var change, t := s.pending[writer], Run(Next(s, Bump(writer)), es);
            && (Hit(t, user) ==>
                  Sourced(t.history, user, Some(t.cache[user].data), t.cache[user].userRev, t.cache[user].roleRev, change))
            && (!Hit(t, user) && pid !in t.readers ==>
                  && pid in Next(t, Start(pid, user)).readers
                  && change <= Next(t, Start(pid, user)).readers[pid].since)
  {
    var t := Run(Next(s, Bump(writer)), es);
    NextInv(s, Bump(writer));
    RunInv(Next(s, Bump(writer)), es);
    FloorsGrow(Next(s, Bump(writer)), es);
    if Hit(t, user) { assert EntryOk(t.history, t.floors, user, t.cache[user]); }
  }

  /** When every committed change has been bumped, a hit is exactly what the database holds now. */
  lemma QuietCacheAgrees(s: State, user: UserId)
    requires Inv(s) && Hit(s, user) && s.bumpedTo == Rev(s)
    ensures Some(s.cache[user].data) == Lookup(s.history[Rev(s)], s.history[Rev(s)], user)
  {
  }

  // ---------------------------------------------------------------- the middleware

  datatype Resolved = Ok(role: RoleData) | Unauthorized | Denied

  ghost predicate Elsewhere(es: seq<Event>, pid: Pid) {
    forall e :: e in es ==> !Acts(e, pid)
  }

  predicate Acts(e: Event, pid: Pid) {
    match e
    case Start(p, _) => p == pid
    case ReadUser(p) => p == pid
    case ReadRole(p) => p == pid
    case Refill(p) => p == pid
    case _ => false
  }

  lemma ReaderKeptNext(s: State, e: Event, pid: Pid)
    requires pid in s.readers && !Acts(e, pid)
    ensures pid in Next(s, e).readers && Next(s, e).readers[pid] == s.readers[pid]
  {
  }

  lemma {:induction false} ReaderKept(s: State, es: seq<Event>, pid: Pid)
    requires Inv(s) && pid in s.readers && Elsewhere(es, pid)
    ensures Inv(Run(s, es)) && pid in Run(s, es).readers && Run(s, es).readers[pid] == s.readers[pid]
    decreases |es|
  {
    if es != [] {
      ReaderKeptNext(s, es[0], pid);
      NextInv(s, es[0]);
      ReaderKept(Next(s, es[0]), es[1..], pid);
    }
  }

  /** The refill stores what was read, under the version read first. */
  lemma RefillAnswers(s: State, pid: Pid)
    requires Inv(s) && pid in s.readers && s.readers[pid].HasRole?
    ensures var t, r := Next(s, Refill(pid)), s.readers[pid];
            && Inv(t) && t.history == s.history
            && r.since <= r.userRev <= r.roleRev < |s.history|
            && Some(r.data) == Lookup(s.history[r.userRev], s.history[r.roleRev], r.user)
            && r.user in t.cache && t.cache[r.user].stamp == r.version
  {
    assert ReaderOk(s.history, s.floors, s.readers[pid]);
    NextInv(s, Refill(pid));
  }

  /** The answer follows from the user's data: no user, no role, or the role. */
  function Answer(data: Option<UserData>): Resolved {
    if data.None? then Unauthorized
    else if data.value.role.None? then Denied
    else Ok(data.value.role.value)
  }

  /** The user's row is there and not deleted. */
  predicate IsLive(db: Database, user: UserId) {
    user in db.users && !db.users[user].deleted
  }

  /** The user has a role, and it exists. */
  predicate HasRoleIn(users: Database, roles: Database, user: UserId) {
    user in users.users && users.users[user].roleId.Some? && users.users[user].roleId.value in roles.roles
  }

  /** The answer in terms of the tables: 401 exactly for a missing or deleted user, 403 exactly for a live one
      without an existing role, else that role as it is stored. */
  predicate AnswersFrom(users: Database, roles: Database, user: UserId, r: Resolved) {
    && (r.Unauthorized? <==> !IsLive(users, user))
    && (r.Denied? <==> IsLive(users, user) && !HasRoleIn(users, roles, user))
    && (r.Ok? <==> IsLive(users, user) && HasRoleIn(users, roles, user))
    && (r.Ok? ==>
          var id := users.users[user].roleId.value;
          r.role == RoleData(id, roles.roles[id].slug, Some(roles.roles[id].userType), roles.roles[id].access))
  }

  lemma AnswerIsRight(users: Database, roles: Database, user: UserId)
    ensures AnswersFrom(users, roles, user, Answer(Lookup(users, roles, user)))
  {
  }

  // ---------------------------------------------------------------- a deleted user stays out

  /** The user is deleted or missing in every revision from `change` on. */
  ghost predicate GoneSince(history: seq<Database>, change: nat, user: UserId) {
    forall k :: change <= k < |history| ==> !IsLive(history[k], user)
  }

  /** Once the bump of a deletion has returned and nothing undoes the deletion, the cache holds no hit for the
      user, no request that starts later decides on data of theirs, and a resolution from revisions that include the
      deletion is always 401. */
  lemma DeletedUserStaysOut(s: State, writer: Pid, es: seq<Event>, user: UserId)
    requires Inv(s) && writer in s.pending
    requires GoneSince(Run(Next(s, Bump(writer)), es).history, s.pending[writer], user)
    ensures var change, t := s.pending[writer], Run(Next(s, Bump(writer)), es);
            && !Hit(t, user) && change <= t.bumpedTo
            && (forall d :: d in t.decisions && d.user == user && change <= d.since ==> d.data.None?)
            && (forall userRev: nat, roleRev: nat, r ::
                  (change <= userRev < |t.history| && roleRev < |t.history|
                   && AnswersFrom(t.history[userRev], t.history[roleRev], user, r)) ==> r.Unauthorized?)
  {
    var t := Run(Next(s, Bump(writer)), es);
    NextInv(s, Bump(writer));
    RunInv(Next(s, Bump(writer)), es);
    FloorsGrow(Next(s, Bump(writer)), es);
    if Hit(t, user) { HitWasLive(t, user); }
    forall d | d in t.decisions && d.user == user && s.pending[writer] <= d.since ensures d.data.None? {
      assert Sourced(t.history, d.user, d.data, d.userRev, d.roleRev, d.since);
      AnswerIsRight(t.history[d.userRev], t.history[d.roleRev], user);
    }
  }

  /** A hit was read when the user was live, in a revision with every finished bump. */
  lemma HitWasLive(t: State, user: UserId)
    requires Inv(t) && Hit(t, user)
    ensures var k := t.cache[user].userRev; t.bumpedTo <= k < |t.history| && IsLive(t.history[k], user)
  {
    assert EntryOk(t.history, t.floors, user, t.cache[user]);
  }

  /** The entry may be used as it is. */
  predicate IsCurrent(s: State, user: UserId) {
    && user in s.cache && s.cache[user].stamp == s.version
    && (s.cache[user].data.role.Some? ==> s.cache[user].data.role.value.userType.Some?)
  }

  class AccessGate {
    var s: State

    constructor (db: Database)
      ensures s == Init(db) && Inv(s)
    {
      s := Init(db);
    }

    /** `resolveRole`: `role` is what an earlier gate of the same request resolved, `sub` the token's
        user; `first`, `second`, `third` are what others do before each further step. The answer is what
        the database held in revisions that include every change bumped before the request. Exactly an entry
        stamped with the current version, whose role has a user type, spares the database. */
    method ResolveRole(pid: Pid, role: Option<RoleData>, sub: Option<UserId>,
                       first: seq<Event>, second: seq<Event>, third: seq<Event>)
      returns (r: Resolved, ghost userRev: nat, ghost roleRev: nat)
      requires Inv(s) && pid !in s.readers
      requires Elsewhere(first, pid) && Elsewhere(second, pid) && Elsewhere(third, pid)
      modifies this
      ensures Inv(s)
      ensures role.Some? ==> r == Ok(role.value) && s == old(s)
      ensures role.None? && sub.None? ==> r.Unauthorized? && s == old(s)
      ensures role.None? && sub.Some? ==>
                && old(s).bumpedTo <= userRev <= roleRev < |s.history|
                && AnswersFrom(s.history[userRev], s.history[roleRev], sub.value, r)
      ensures role.None? && sub.Some? && IsCurrent(old(s), sub.value) ==>
                && s.cache == old(s).cache && s.history == old(s).history
                && userRev == s.cache[sub.value].userRev && roleRev == s.cache[sub.value].roleRev
      ensures role.None? && sub.Some? && !IsCurrent(old(s), sub.value) && !r.Unauthorized? ==>
                sub.value in s.cache && s.cache[sub.value].stamp == old(s).version
    {
      userRev, roleRev := 0, 0;
      if role.Some? { return Ok(role.value), 0, 0; }
      if sub.None? { return Unauthorized, 0, 0; }
      NextInv(s, Start(pid, sub.value));
      if Hit(s, sub.value) {
        var entry := s.cache[sub.value];
        assert EntryOk(s.history, s.floors, sub.value, entry);
        AnswerIsRight(s.history[entry.userRev], s.history[entry.roleRev], sub.value);
        s := Next(s, Start(pid, sub.value));
        return Answer(Some(entry.data)), entry.userRev, entry.roleRev;
      }
      s := Next(s, Start(pid, sub.value));
      r, userRev, roleRev := LookUp(pid, first, second, third);
    }

    /** The database reads and the refill after a miss. */
    method LookUp(pid: Pid, first: seq<Event>, second: seq<Event>, third: seq<Event>)
      returns (r: Resolved, ghost userRev: nat, ghost roleRev: nat)
      requires Inv(s) && pid in s.readers && s.readers[pid].Missed?
      requires Elsewhere(first, pid) && Elsewhere(second, pid) && Elsewhere(third, pid)
      modifies this
      ensures Inv(s)
      ensures old(s).readers[pid].since <= userRev <= roleRev < |s.history|
      ensures AnswersFrom(s.history[userRev], s.history[roleRev], old(s).readers[pid].user, r)
      ensures r.Unauthorized? || (old(s).readers[pid].user in s.cache
                                  && s.cache[old(s).readers[pid].user].stamp == old(s).readers[pid].version)
    {
      var user := s.readers[pid].user;
      ReaderKept(s, first, pid);
      s := Run(s, first);
      var found := FindUser(s.history[Rev(s)], user);
      assert ReaderOk(s.history, s.floors, s.readers[pid]);
      NextInv(s, ReadUser(pid));
      s := Next(s, ReadUser(pid));
      if found.None? {
        AnswerIsRight(s.history[Rev(s)], s.history[Rev(s)], user);
        return Unauthorized, Rev(s), Rev(s);
      }
      r, userRev, roleRev := ReadRoleAndRefill(pid, second, third);
    }

    method ReadRoleAndRefill(pid: Pid, second: seq<Event>, third: seq<Event>)
      returns (r: Resolved, ghost userRev: nat, ghost roleRev: nat)
      requires Inv(s) && pid in s.readers && s.readers[pid].HasUser?
      requires Elsewhere(second, pid) && Elsewhere(third, pid)
      modifies this
      ensures Inv(s)
      ensures old(s).readers[pid].since <= userRev <= roleRev < |s.history|
      ensures AnswersFrom(s.history[userRev], s.history[roleRev], old(s).readers[pid].user, r)
      ensures old(s).readers[pid].user in s.cache
              && s.cache[old(s).readers[pid].user].stamp == old(s).readers[pid].version
    {
      ReaderKept(s, second, pid);
      s := Run(s, second);
      NextInv(s, ReadRole(pid));
      s := Next(s, ReadRole(pid));
      ReaderKept(s, third, pid);
      s := Run(s, third);
      var reader := s.readers[pid];
      RefillAnswers(s, pid);
      AnswerIsRight(s.history[reader.userRev], s.history[reader.roleRev], reader.user);
      s := Next(s, Refill(pid));
      return Answer(Some(reader.data)), reader.userRev, reader.roleRev;
    }
  }
}
