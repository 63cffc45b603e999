// Admission: batches and additions, and the users, sessions and memberships
// they create.
module Admissions {
  import opened Rows
  import opened Protocol
  import opened Transactions
  import opened Tables
  import opened PoolTransactions
  import opened PoolStore

  const MAX_KEY_LENGTH := 128
  const ATTEMPTS := 5

  datatype Admission = Admission(
    adminId: AdminId, key: string, digest: string, purpose: Purpose, count: int, capacity: int, template: Session)

  datatype AdditionRequest = AdditionRequest(
    adminId: AdminId, batchId: BatchId, key: string, digest: string, count: int, capacity: int, template: Session)

  // What a successful request returns; `created` is false for a replay.
  datatype Admitted = Admitted(batchId: BatchId, sessions: seq<SessionId>, created: bool)

  // Where random identifiers come from: a draw may fail.
  type Draws = nat -> Option<string>

  // ---- new rows under new ids ----

  predicate Increasing(ids: seq<nat>) { forall i, j :: 0 <= i < j < |ids| ==> ids[i] < ids[j] }

  // m' is m plus rows under these ids, drawn from lo on.
  ghost predicate Extends<V(!new)>(m: map<nat, V>, m': map<nat, V>, ids: seq<nat>, lo: nat, hi: nat) {
    && Increasing(ids) && lo <= hi && (forall id :: id in ids ==> lo <= id < hi && id in m')
    && (forall id :: id in m' <==> id in m || id in ids)
    && (forall id :: id in m ==> id in m' && m'[id] == m[id])
  }

  lemma ExtendsMore<V(!new)>(m: map<nat, V>, m1: map<nat, V>, m2: map<nat, V>, a: seq<nat>, b: seq<nat>, lo: nat,
      mid: nat, hi: nat)
    requires Extends(m, m1, a, lo, mid) && Extends(m1, m2, b, mid, hi)
    ensures Extends(m, m2, a + b, lo, hi)
  {
    forall i, j | 0 <= i < j < |a + b|
      ensures (a + b)[i] < (a + b)[j]
    {
      assert i < |a| ==> a[i] in a;
      assert j >= |a| ==> b[j - |a|] in b;
    }
  }

  lemma ExtendsOne<V(!new)>(m: map<nat, V>, m1: map<nat, V>, ids: seq<nat>, lo: nat, next: nat, v: V)
    requires Extends(m, m1, ids, lo, next) && next !in m1
    ensures Extends(m, m1[next := v], ids + [next], lo, next + 1)
  {
    forall i, j | 0 <= i < j < |ids + [next]|
      ensures (ids + [next])[i] < (ids + [next])[j]
    {
      assert i < |ids| && ids[i] in ids;
    }
  }

  ghost predicate BelowNext<V(!new)>(m: map<nat, V>, next: nat) { forall id :: id in m ==> id < next }

  ghost predicate UniqueAccounts(users: map<UserId, User>) {
    forall u, v :: u in users && v in users && u != v ==> users[u].uniqueId != users[v].uniqueId
  }

  ghost predicate UniqueVtaNames(sessions: map<SessionId, Session>) {
    forall s, t :: s in sessions && t in sessions && s != t ==> sessions[s].vtaName != sessions[t].vtaName
  }

  ghost predicate UniqueKeys(batches: map<BatchId, Batch>, additions: map<AdditionId, Addition>) {
    && (forall a, b :: a in batches && b in batches && a != b ==>
        batches[a].createdBy != batches[b].createdBy || batches[a].key != batches[b].key)
    && (forall a, b :: a in additions && b in additions && a != b ==>
        additions[a].createdBy != additions[b].createdBy || additions[a].key != additions[b].key)
  }

  ghost predicate TidySessions(sessions: map<SessionId, Session>, nextSession: SessionId, nextUser: UserId) {
    && BelowNext(sessions, nextSession) && UniqueVtaNames(sessions)
    && forall sid :: sid in sessions ==> sessions[sid].userId < nextUser
  }

  ghost predicate TidyBatches(batches: map<BatchId, Batch>, nextBatch: BatchId, additions: map<AdditionId, Addition>,
      nextAddition: AdditionId) {
    && BelowNext(batches, nextBatch) && BelowNext(additions, nextAddition) && UniqueKeys(batches, additions)
    && (forall a :: a in additions ==> additions[a].batchId in batches)
    && forall b :: b in batches ==> PublicOk(batches[b])
  }

  // Only public signup batches are ever enabled, and every batch has an image
  // and has been asked for something.
  predicate PublicOk(b: Batch) { (b.publicSince.Some? ==> b.purpose.PublicSignup?) && b.vtaImage != "" && b.requested > 0 }

  ghost predicate TidyMembers(members: map<SessionId, BatchId>, sessions: map<SessionId, Session>,
      batches: map<BatchId, Batch>) {
    forall sid :: sid in members ==> sid in sessions && members[sid] in batches
  }

  // The keys and references of the schema.
  ghost predicate Tidy(d: Db) {
    && BelowNext(d.users, d.nextUser) && UniqueAccounts(d.users)
    && TidySessions(d.claims.sessions, d.claims.nextSession, d.nextUser)
    && TidyBatches(d.batches, d.nextBatch, d.additions, d.nextAddition)
    && TidyMembers(d.members, d.claims.sessions, d.batches)
  }

  // ---- random identifiers ----

  predicate Distinct<T(==)>(s: seq<T>) { forall i, j :: 0 <= i < j < |s| ==> s[i] != s[j] }

  function Elements<T(==)>(s: seq<T>): set<T> { set x | x in s }

  // Every draw succeeds, with a value nobody has and no other draw gives.
  ghost predicate Fresh(next: Draws, taken: set<string>) {
    && (forall k: nat :: next(k).Some? && next(k).value !in taken)
    && forall j: nat, k: nat :: j < k ==> next(j) != next(k)
  }

  method GenerateUniqueIDs(count: nat, generated: set<string>, next: Draws, drawn: nat)
    returns (values: Result<seq<string>>, generated': set<string>, drawn': nat)
    ensures values.Ok? ==> |values.value| == count && Distinct(values.value)
    ensures values.Ok? ==> forall v :: v in values.value ==> v !in generated
    ensures values.Ok? ==> generated' == generated + set v | v in values.value
    ensures values.Ok? ==> forall v :: v in values.value ==> exists k :: drawn <= k < drawn' && next(k) == Some(v)
    ensures drawn <= drawn' <= drawn + count * 20 + 100
    ensures values.Fail? ==> values.error == Exhausted && (drawn' == drawn + count * 20 + 100 || (drawn < drawn' && next(drawn' - 1) == None))
    ensures Fresh(next, {}) && generated == {} ==> values.Ok?
  {
    var found: seq<string> := [];
    generated', drawn' := generated, drawn;
    while |found| < count && drawn' < drawn + count * 20 + 100
      invariant |found| <= count && Distinct(found)
      invariant forall v :: v in found ==> v !in generated
      invariant generated' == generated + set v | v in found
      invariant forall v :: v in found ==> exists k :: drawn <= k < drawn' && next(k) == Some(v)
      invariant drawn <= drawn' <= drawn + count * 20 + 100
      invariant Fresh(next, {}) && generated == {} ==> |found| == drawn' - drawn
      decreases drawn + count * 20 + 100 - drawn'
    {
      var draw := next(drawn');
      drawn' := drawn' + 1;
      if draw.None? {
        return Fail(Exhausted), generated', drawn';
      }
      assert next(drawn' - 1) == Some(draw.value);
      if draw.value in generated' {
        continue;
      }
      generated' := generated' + {draw.value};
      found := found + [draw.value];
    }
    values := if |found| == count then Ok(found) else Fail(Exhausted);
  }

  // ---- users ----

  predicate Anonymous(u: User) { !u.hasEmail && !u.fullstackAccess }

  function AccountNames(users: map<UserId, User>): set<string> { set u | u in users :: users[u].uniqueId }

  // Names that can all go in.
  ghost predicate AllNew(names: seq<string>, taken: set<string>) {
    Distinct(names) && forall i :: 0 <= i < |names| ==> names[i] !in taken
  }

  lemma FreshNames(next: Draws, taken: set<string>, names: seq<string>)
    requires Fresh(next, taken) && Distinct(names) && forall v :: v in names ==> exists k: nat :: next(k) == Some(v)
    ensures AllNew(names, taken)
  {
    forall i | 0 <= i < |names|
      ensures names[i] !in taken
    {
      assert names[i] in names;
      var k: nat :| next(k) == Some(names[i]);
    }
  }

  // What the first i names make of the taken ones.
  function TakenAfter(taken: set<string>, names: seq<string>, i: nat, blocked: set<string>): set<string>
    requires i <= |names|
  {
    taken + (Elements(names[..i]) - blocked)
  }

  lemma TakenNext(taken: set<string>, names: seq<string>, i: nat, blocked: set<string>)
    requires i < |names|
    ensures TakenAfter(taken, names, i + 1, blocked)
         == TakenAfter(taken, names, i, blocked) + if names[i] in blocked then {} else {names[i]}
    ensures AllNew(names, taken + blocked) ==> names[i] !in blocked && names[i] !in TakenAfter(taken, names, i, blocked)
  {
    assert names[..i + 1] == names[..i] + [names[i]];
  }

  ghost predicate NewUsers(m: map<UserId, User>, m': map<UserId, User>, users: seq<UserId>, lo: UserId, hi: UserId) {
    Extends(m, m', users, lo, hi) && (forall u :: u in users ==> Anonymous(m'[u])) && UniqueAccounts(m')
  }

  // INSERT ... ON CONFLICT DO NOTHING: rows whose name is taken, here or in a
  // transaction still running (`blocked`), are left out; every row draws an id.
  method InsertUsers(db: Database, names: seq<string>, blocked: set<string>) returns (inserted: seq<UserId>)
    requires BelowNext(db.users, db.nextUser) && UniqueAccounts(db.users)
    modifies db`users, db`nextUser
    ensures Extends(old(db.users), db.users, inserted, old(db.nextUser), db.nextUser)
    ensures BelowNext(db.users, db.nextUser) && UniqueAccounts(db.users) && |inserted| <= |names|
    ensures forall u :: u in inserted ==> Anonymous(db.users[u])
    ensures AccountNames(db.users) == AccountNames(old(db.users)) + (Elements(names) - blocked)
    ensures AllNew(names, AccountNames(old(db.users)) + blocked) ==> |inserted| == |names|
  {
    inserted := [];
    ghost var m, lo := db.users, db.nextUser;
    var i := 0;
    while i < |names|
      invariant i <= |names| && |inserted| <= i
      invariant Extends(m, db.users, inserted, lo, db.nextUser)
      invariant BelowNext(db.users, db.nextUser) && UniqueAccounts(db.users)
      invariant forall u :: u in inserted ==> Anonymous(db.users[u])
      invariant AccountNames(db.users) == TakenAfter(AccountNames(m), names, i, blocked)
      invariant AllNew(names, AccountNames(m) + blocked) ==> |inserted| == i
    {
      TakenNext(AccountNames(m), names, i, blocked);
      inserted := InsertUser(db, m, lo, inserted, names[i], blocked);
      i := i + 1;
    }
    assert names[..i] == names;
  }

  method InsertUser(db: Database, ghost m: map<UserId, User>, ghost lo: UserId, ids: seq<UserId>, name: string,
      blocked: set<string>) returns (ids': seq<UserId>)
    requires BelowNext(db.users, db.nextUser) && UniqueAccounts(db.users) && Extends(m, db.users, ids, lo, db.nextUser)
    requires forall u :: u in ids ==> Anonymous(db.users[u])
    modifies db`users, db`nextUser
    ensures BelowNext(db.users, db.nextUser) && UniqueAccounts(db.users) && Extends(m, db.users, ids', lo, db.nextUser)
    ensures forall u :: u in ids' ==> Anonymous(db.users[u])
    ensures |ids'| == |ids| + if name in AccountNames(old(db.users)) + blocked then 0 else 1
    ensures AccountNames(db.users) == AccountNames(old(db.users)) + if name in blocked then {} else {name}
  {
    if name !in blocked && forall u :: u in db.users ==> db.users[u].uniqueId != name {
      ids' := AddUser(db, m, lo, ids, name);
    } else {
      db.nextUser := db.nextUser + 1;
      ids' := ids;
    }
  }

  lemma NamesGrow(users: map<UserId, User>, u: UserId, user: User)
    requires u !in users
    ensures AccountNames(users[u := user]) == AccountNames(users) + {user.uniqueId}
  {
    assert user.uniqueId in AccountNames(users[u := user]) by {
      assert users[u := user][u] == user;
    }
    forall v | v in users
      ensures users[v].uniqueId in AccountNames(users[u := user])
    {
      assert users[u := user][v] == users[v];
    }
  }

  method AddUser(db: Database, ghost m: map<UserId, User>, ghost lo: UserId, ids: seq<UserId>,
      name: string) returns (ids': seq<UserId>)
    requires BelowNext(db.users, db.nextUser) && UniqueAccounts(db.users) && Extends(m, db.users, ids, lo, db.nextUser)
    requires forall u :: u in db.users ==> db.users[u].uniqueId != name
    requires forall u :: u in ids ==> Anonymous(db.users[u])
    modifies db`users, db`nextUser
    ensures BelowNext(db.users, db.nextUser) && UniqueAccounts(db.users) && Extends(m, db.users, ids', lo, db.nextUser)
    ensures |ids'| == |ids| + 1 && forall u :: u in ids' ==> Anonymous(db.users[u])
    ensures AccountNames(db.users) == AccountNames(old(db.users)) + {name}
  {
    NamesGrow(db.users, db.nextUser, User(name, false, false));
    ExtendsOne(m, db.users, ids, lo, db.nextUser, User(name, false, false));
    db.users := db.users[db.nextUser := User(name, false, false)];
    ids' := ids + [db.nextUser];
    db.nextUser := db.nextUser + 1;
  }

  method CreateUsers(db: Database, count: nat, next: Draws, blocked: set<string>) returns (r: Result<seq<UserId>>)
    requires BelowNext(db.users, db.nextUser) && UniqueAccounts(db.users)
    modifies db`users, db`nextUser
    ensures r.Ok? ==> |r.value| == count && NewUsers(old(db.users), db.users, r.value, old(db.nextUser), db.nextUser)
    ensures BelowNext(db.users, db.nextUser) && UniqueAccounts(db.users)
    ensures old(db.nextUser) <= db.nextUser
    ensures r.Fail? ==> r.error == Exhausted
    ensures Fresh(next, AccountNames(old(db.users)) + blocked) ==> r.Ok?
  {
    ghost var taken := AccountNames(db.users) + blocked;
    var users: seq<UserId> := [];
    var generated: set<string> := {};
    var drawn, attempt := 0, 0;
    while |users| < count && attempt < ATTEMPTS
      invariant |users| <= count
      invariant Extends(old(db.users), db.users, users, old(db.nextUser), db.nextUser)
      invariant BelowNext(db.users, db.nextUser) && UniqueAccounts(db.users)
      invariant forall u :: u in users ==> Anonymous(db.users[u])
      invariant Fresh(next, taken) ==> |users| == count || (attempt == 0 && users == [] && generated == {} && db.users == old(db.users))
      decreases ATTEMPTS - attempt
    {
      var names;
      names, generated, drawn := GenerateUniqueIDs(count - |users|, generated, next, drawn);
      if names.Fail? {
        return Fail(names.error);
      }
      if Fresh(next, taken) {
        FreshNames(next, taken, names.value);
      }
      ghost var users1, next1 := db.users, db.nextUser;
      var inserted := InsertUsers(db, names.value, blocked);
      ExtendsMore(old(db.users), users1, db.users, users, inserted, old(db.nextUser), next1, db.nextUser);
      users := users + inserted;
      attempt := attempt + 1;
    }
    r := if |users| != count then Fail(Exhausted) else Ok(users);
  }

  // ---- setup sessions ----

  // A session of the template for one user; only its name is new.
  function Candidate(template: Session, userId: UserId, name: string): Session {
    template.(userId := userId, status := PoolCreating, vtaName := name, adminDid := None)
  }

  function VtaNames(sessions: map<SessionId, Session>): set<string> { set s | s in sessions :: sessions[s].vtaName }

  predicate FromTemplate(s: Session, template: Session) { s == Candidate(template, s.userId, s.vtaName) }

  ghost predicate OwnersDistinct(sessions: map<SessionId, Session>, sids: seq<SessionId>)
    requires forall sid :: sid in sids ==> sid in sessions
  {
    forall i, j :: 0 <= i < j < |sids| ==> sessions[sids[i]].userId != sessions[sids[j]].userId
  }

  ghost predicate Owned(sessions: map<SessionId, Session>, sids: seq<SessionId>, u: UserId)
    requires forall sid :: sid in sids ==> sid in sessions
  {
    exists i :: 0 <= i < |sids| && sessions[sids[i]].userId == u
  }

  // What every row inserted so far is.
  ghost predicate Fitting(sessions: map<SessionId, Session>, sids: seq<SessionId>, template: Session, owners: seq<UserId>)
    requires forall sid :: sid in sids ==> sid in sessions
  {
    && (forall sid :: sid in sids ==> FromTemplate(sessions[sid], template) && sessions[sid].userId in owners)
    && OwnersDistinct(sessions, sids)
  }

  ghost predicate NewSessions(m: map<SessionId, Session>, m': map<SessionId, Session>, sids: seq<SessionId>,
      lo: SessionId, hi: SessionId,
                              template: Session, users: seq<UserId>)
  {
    Extends(m, m', sids, lo, hi) && Fitting(m', sids, template, users) && UniqueVtaNames(m')
  }

  lemma VtaNamesGrow(sessions: map<SessionId, Session>, sid: SessionId, s: Session)
    requires sid !in sessions
    ensures VtaNames(sessions[sid := s]) == VtaNames(sessions) + {s.vtaName}
  {
    assert s.vtaName in VtaNames(sessions[sid := s]) by {
      assert sessions[sid := s][sid] == s;
    }
    forall t | t in sessions
      ensures sessions[t].vtaName in VtaNames(sessions[sid := s])
    {
      assert sessions[sid := s][t] == sessions[t];
    }
  }

  method AddSession(db: Database, ghost m: map<SessionId, Session>, ghost lo: SessionId, ids: seq<SessionId>,
                    ghost owners: seq<UserId>, owner: UserId, name: string, template: Session) returns (ids': seq<SessionId>)
    requires BelowNext(db.sessions, db.nextSession) && UniqueVtaNames(db.sessions)
    requires forall s :: s in db.sessions ==> db.sessions[s].vtaName != name
    requires Extends(m, db.sessions, ids, lo, db.nextSession) && Fitting(db.sessions, ids, template, owners) && owner !in owners
    modifies db`sessions, db`nextSession
    ensures Extends(m, db.sessions, ids', lo, db.nextSession) && Fitting(db.sessions, ids', template, owners + [owner])
    ensures BelowNext(db.sessions, db.nextSession) && UniqueVtaNames(db.sessions)
    ensures |ids'| == |ids| + 1 && VtaNames(db.sessions) == VtaNames(old(db.sessions)) + {name}
  {
    ghost var before := db.sessions;
    VtaNamesGrow(before, db.nextSession, Candidate(template, owner, name));
    ExtendsOne(m, db.sessions, ids, lo, db.nextSession, Candidate(template, owner, name));
    ids' := ids + [db.nextSession];
    db.sessions := db.sessions[db.nextSession := Candidate(template, owner, name)];
    db.nextSession := db.nextSession + 1;
    forall i, j | 0 <= i < j < |ids'|
      ensures db.sessions[ids'[i]].userId != db.sessions[ids'[j]].userId
    {
      assert i < |ids| && ids[i] in ids && before[ids[i]].userId in owners;
      assert j < |ids| ==> ids[j] in ids;
    }
  }

  method InsertSessions(db: Database, owners: seq<UserId>, names: seq<string>, template: Session,
      blocked: set<string>) returns (inserted: seq<SessionId>)
    requires |owners| == |names| && Increasing(owners)
    requires BelowNext(db.sessions, db.nextSession) && UniqueVtaNames(db.sessions)
    modifies db`sessions, db`nextSession
    ensures Extends(old(db.sessions), db.sessions, inserted, old(db.nextSession), db.nextSession)
    ensures BelowNext(db.sessions, db.nextSession) && UniqueVtaNames(db.sessions)
    ensures Fitting(db.sessions, inserted, template, owners)
    ensures VtaNames(db.sessions) == VtaNames(old(db.sessions)) + (Elements(names) - blocked)
    ensures AllNew(names, VtaNames(old(db.sessions)) + blocked) ==> |inserted| == |names|
  {
    inserted := [];
    ghost var m, lo := db.sessions, db.nextSession;
    var i := 0;
    while i < |names|
      invariant i <= |names| && Extends(m, db.sessions, inserted, lo, db.nextSession)
      invariant BelowNext(db.sessions, db.nextSession) && UniqueVtaNames(db.sessions)
      invariant Fitting(db.sessions, inserted, template, owners[..i])
      invariant VtaNames(db.sessions) == TakenAfter(VtaNames(m), names, i, blocked)
      invariant AllNew(names, VtaNames(m) + blocked) ==> |inserted| == i
    {
      assert owners[..i + 1] == owners[..i] + [owners[i]] && owners[i] !in owners[..i];
      TakenNext(VtaNames(m), names, i, blocked);
      inserted := InsertSession(db, m, lo, inserted, owners[..i], owners[i], names[i], template, blocked);
      i := i + 1;
    }
    assert owners[..i] == owners && names[..i] == names;
  }

  method InsertSession(db: Database, ghost m: map<SessionId, Session>, ghost lo: SessionId, ids: seq<SessionId>,
                       ghost owners: seq<UserId>, owner: UserId, name: string, template: Session, blocked: set<string>)
    returns (ids': seq<SessionId>)
    requires BelowNext(db.sessions, db.nextSession) && UniqueVtaNames(db.sessions)
    requires Extends(m, db.sessions, ids, lo, db.nextSession) && Fitting(db.sessions, ids, template, owners) && owner !in owners
    modifies db`sessions, db`nextSession
    ensures Extends(m, db.sessions, ids', lo, db.nextSession) && Fitting(db.sessions, ids', template, owners + [owner])
    ensures BelowNext(db.sessions, db.nextSession) && UniqueVtaNames(db.sessions)
    ensures |ids'| == |ids| + if name in VtaNames(old(db.sessions)) + blocked then 0 else 1
    ensures VtaNames(db.sessions) == VtaNames(old(db.sessions)) + if name in blocked then {} else {name}
  {
    if name !in blocked && forall s :: s in db.sessions ==> db.sessions[s].vtaName != name {
      ids' := AddSession(db, m, lo, ids, owners, owner, name, template);
    } else {
      db.nextSession := db.nextSession + 1;
      ids' := ids;
    }
  }

  // The users still without a session, in the same order.
  method StillPending(sessions: map<SessionId, Session>, inserted: seq<SessionId>,
      pending: seq<UserId>) returns (left: seq<UserId>)
    requires Increasing(pending) && forall sid :: sid in inserted ==> sid in sessions
    ensures Increasing(left)
    ensures forall u :: u in left <==> u in pending && !Owned(sessions, inserted, u)
  {
    left := [];
    var i := 0;
    while i < |pending|
      invariant i <= |pending| && Increasing(left)
      invariant forall u :: u in left <==> u in pending[..i] && !Owned(sessions, inserted, u)
      invariant |left| > 0 ==> i > 0 && left[|left| - 1] <= pending[i - 1]
    {
      assert pending[..i + 1] == pending[..i] + [pending[i]];
      if !exists k :: 0 <= k < |inserted| && sessions[inserted[k]].userId == pending[i] {
        left := left + [pending[i]];
      }
      i := i + 1;
    }
    assert pending[..i] == pending;
  }

  // One attempt: who is left without a session, which is nobody if the names are new.
  method InsertPending(db: Database, pending: seq<UserId>, names: seq<string>, template: Session, blocked: set<string>)
    returns (inserted: seq<SessionId>, left: seq<UserId>)
    requires |pending| == |names| && Increasing(pending)
    requires BelowNext(db.sessions, db.nextSession) && UniqueVtaNames(db.sessions)
    modifies db`sessions, db`nextSession
    ensures Extends(old(db.sessions), db.sessions, inserted, old(db.nextSession), db.nextSession)
    ensures BelowNext(db.sessions, db.nextSession) && UniqueVtaNames(db.sessions)
    ensures Fitting(db.sessions, inserted, template, pending)
    ensures Increasing(left) && forall u :: u in left <==> u in pending && !Owned(db.sessions, inserted, u)
    ensures AllNew(names, VtaNames(old(db.sessions)) + blocked) ==> left == []
  {
    inserted := InsertSessions(db, pending, names, template, blocked);
    left := StillPending(db.sessions, inserted, pending);
    if |inserted| == |pending| {
      AllOwned(db.sessions, inserted, pending);
      assert Elements(left) == {};
      DistinctCount(left);
    }
  }

  method CreateSetupSessions(db: Database, users: seq<UserId>, template: Session, next: Draws,
      blocked: set<string>) returns (r: Result<seq<SessionId>>)
    requires Increasing(users)
    requires BelowNext(db.sessions, db.nextSession) && UniqueVtaNames(db.sessions)
    modifies db`sessions, db`nextSession
    ensures BelowNext(db.sessions, db.nextSession) && UniqueVtaNames(db.sessions)
    ensures old(db.nextSession) <= db.nextSession
    ensures r.Ok? ==> |r.value| == |users|
    ensures r.Ok? ==> NewSessions(old(db.sessions), db.sessions, r.value, old(db.nextSession), db.nextSession, template, users)
    ensures r.Fail? ==> r.error == Exhausted
    ensures Fresh(next, VtaNames(old(db.sessions)) + blocked) ==> r.Ok?
  {
    ghost var taken := VtaNames(db.sessions) + blocked;
    var pending, sessions: seq<SessionId> := users, [];
    var generated: set<string> := {};
    var drawn, attempt := 0, 0;
    while |pending| > 0 && attempt < ATTEMPTS
      invariant Increasing(pending) && BelowNext(db.sessions, db.nextSession) && UniqueVtaNames(db.sessions)
      invariant Extends(old(db.sessions), db.sessions, sessions, old(db.nextSession), db.nextSession)
      invariant OwnersDistinct(db.sessions, sessions)
      invariant forall sid :: sid in sessions ==> FromTemplate(db.sessions[sid], template)
      invariant forall sid :: sid in sessions ==> db.sessions[sid].userId in users && db.sessions[sid].userId !in pending
      invariant forall u :: u in pending ==> u in users
      invariant forall u :: u in users ==> u in pending || Owned(db.sessions, sessions, u)
      invariant Fresh(next, taken) ==> pending == [] || (attempt == 0 && generated == {} && db.sessions == old(db.sessions))
      decreases ATTEMPTS - attempt
    {
      var names;
      names, generated, drawn := GenerateUniqueIDs(|pending|, generated, next, drawn);
      if names.Fail? {
        return Fail(names.error);
      }
      if Fresh(next, taken) {
        FreshNames(next, taken, names.value);
      }
      ghost var before, next1 := db.sessions, db.nextSession;
      var inserted, left := InsertPending(db, pending, names.value, template, blocked);
      ExtendsMore(old(db.sessions), before, db.sessions, sessions, inserted, old(db.nextSession), next1, db.nextSession);
      OwnedMore(before, db.sessions, sessions, inserted);
      pending, sessions := left, sessions + inserted;
      attempt := attempt + 1;
    }
    if |pending| != 0 {
      return Fail(Exhausted);
    }
    OneEach(db.sessions, users, sessions);
    r := Ok(sessions);
  }

  // As many sessions as users, each of another one of them: everybody has one.
  lemma AllOwned(sessions: map<SessionId, Session>, sids: seq<SessionId>, users: seq<UserId>)
    requires Increasing(users) && |sids| == |users| && forall sid :: sid in sids ==> sid in sessions && sessions[sid].userId in users
    requires OwnersDistinct(sessions, sids)
    ensures forall u :: u in users ==> Owned(sessions, sids, u)
  {
    var owners := OwnersOf(sessions, sids);
    DistinctCount(owners);
    DistinctCount(users);
    assert Elements(owners) <= Elements(users) by {
      assert forall i :: 0 <= i < |sids| ==> sids[i] in sids;
    }
    assert |Elements(users) - Elements(owners)| == 0;
    forall u | u in users
      ensures Owned(sessions, sids, u)
    {
      assert u in Elements(users) && u in Elements(owners);
      var i :| 0 <= i < |owners| && owners[i] == u;
    }
  }

  lemma OwnedMore(before: map<SessionId, Session>, after: map<SessionId, Session>, a: seq<SessionId>, b: seq<SessionId>)
    requires forall sid :: sid in before ==> sid in after && after[sid] == before[sid]
    requires (forall sid :: sid in a ==> sid in before) && (forall sid :: sid in b ==> sid in after)
    requires OwnersDistinct(before, a) && OwnersDistinct(after, b)
    requires forall i, j :: 0 <= i < |a| && 0 <= j < |b| ==> before[a[i]].userId != after[b[j]].userId
    ensures OwnersDistinct(after, a + b)
    ensures forall u :: Owned(before, a, u) || Owned(after, b, u) ==> Owned(after, a + b, u)
  {
    forall u | Owned(before, a, u) || Owned(after, b, u)
      ensures Owned(after, a + b, u)
    {
      if i :| 0 <= i < |a| && before[a[i]].userId == u {
        assert (a + b)[i] == a[i];
      } else {
        var j :| 0 <= j < |b| && after[b[j]].userId == u;
        assert (a + b)[|a| + j] == b[j];
      }
    }
  }

  lemma {:induction false} DistinctCount(s: seq<nat>)
    requires Distinct(s)
    ensures |Elements(s)| == |s|
  {
    if s == [] {
      assert Elements(s) == {};
    } else {
      var rest := s[..|s| - 1];
      DistinctCount(rest);
      assert forall i :: 0 <= i < |rest| ==> rest[i] != s[|s| - 1];
      assert s == rest + [s[|s| - 1]];
      assert Elements(s) == Elements(rest) + {s[|s| - 1]};
    }
  }

  lemma SameCount(a: seq<nat>, b: seq<nat>)
    requires Distinct(a) && Distinct(b) && forall x :: x in a <==> x in b
    ensures |a| == |b|
  {
    DistinctCount(a);
    DistinctCount(b);
    assert Elements(a) == Elements(b);
  }

  ghost function OwnersOf(sessions: map<SessionId, Session>, sids: seq<SessionId>): (owners: seq<UserId>)
    requires forall sid :: sid in sids ==> sid in sessions
    ensures |owners| == |sids| && forall i :: 0 <= i < |sids| ==> owners[i] == sessions[sids[i]].userId
  {
    if sids == [] then [] else [sessions[sids[0]].userId] + OwnersOf(sessions, sids[1..])
  }

  // One session each: as many sessions as users.
  lemma OneEach(sessions: map<SessionId, Session>, users: seq<UserId>, sids: seq<SessionId>)
    requires Increasing(users) && forall sid :: sid in sids ==> sid in sessions && sessions[sid].userId in users
    requires OwnersDistinct(sessions, sids) && forall u :: u in users ==> Owned(sessions, sids, u)
    ensures |sids| == |users|
  {
    var owners := OwnersOf(sessions, sids);
    forall u
      ensures u in owners <==> u in users
    {
      if u in owners {
        var i :| 0 <= i < |owners| && owners[i] == u;
        assert sids[i] in sids;
      }
      if u in users {
        assert Owned(sessions, sids, u);
        var i :| 0 <= i < |sids| && sessions[sids[i]].userId == u;
        assert owners[i] == u;
      }
    }
    SameCount(owners, users);
  }

  // ---- the whole of one admission ----

  // after is before plus one anonymous user per session, one session of the
  // template for each under new distinct names, all members of the batch, and
  // nothing else.
  ghost predicate Populated(before: Db, after: Db, batchId: BatchId, count: nat, template: Session,
      users: seq<UserId>, sids: seq<SessionId>) {
    && |users| == count == |sids|
    && NewUsers(before.users, after.users, users, before.nextUser, after.nextUser)
    && NewSessions(before.claims.sessions, after.claims.sessions, sids, before.claims.nextSession, after.claims.nextSession, template, users)
    && after.members == Enrolled(before.members, sids, batchId)
    && after.claims == before.claims.(sessions := after.claims.sessions, nextSession := after.claims.nextSession)
    && OtherTablesSame(before, after) && after.nextBatch == before.nextBatch && after.nextAddition == before.nextAddition
  }

  ghost predicate OtherTablesSame(before: Db, after: Db) {
    after.batches == before.batches && after.additions == before.additions && after.passkeys == before.passkeys
  }

  function Enrolled(members: map<SessionId, BatchId>, sids: seq<SessionId>, batchId: BatchId): map<SessionId, BatchId> {
    members + map sid | sid in sids :: batchId
  }

  // A rolled-back request leaves every table alone; only sequences moved on.
  ghost predicate Untouched(before: Db, after: Db) {
    && after.claims == before.claims.(nextSession := after.claims.nextSession)
    && after.members == before.members && after.users == before.users && OtherTablesSame(before, after)
    && before.claims.nextSession <= after.claims.nextSession && before.nextUser <= after.nextUser
    && before.nextBatch <= after.nextBatch && before.nextAddition <= after.nextAddition
  }

  // The members that count against the capacity.
  function NonRunning(members: map<SessionId, BatchId>, sessions: map<SessionId, Session>): set<SessionId> {
    set sid | sid in members && sid in sessions && !sessions[sid].status.Running?
  }

  ghost function PoolSize(d: Db): nat { |NonRunning(d.members, d.claims.sessions)| }

  function Room(reserved: nat, capacity: int): nat { if capacity >= reserved then capacity - reserved else 0 }

  // Neither source of identifiers runs into a name that is taken.
  ghost predicate Plenty(users: map<UserId, User>, sessions: map<SessionId, Session>, accounts: Draws, names: Draws,
      takenAccounts: set<string>, takenNames: set<string>)
  {
    Fresh(accounts, AccountNames(users) + takenAccounts) && Fresh(names, VtaNames(sessions) + takenNames)
  }

  method Populate(db: Database, batchId: BatchId, count: nat, template: Session, accounts: Draws, names: Draws,
                  takenAccounts: set<string>, takenNames: set<string>) returns (r: Result<seq<SessionId>>, ghost users: seq<UserId>)
    requires BelowNext(db.users, db.nextUser) && UniqueAccounts(db.users)
    requires BelowNext(db.sessions, db.nextSession) && UniqueVtaNames(db.sessions)
    modifies db`users, db`nextUser, db`sessions, db`nextSession, db`members
    ensures old(db.nextUser) <= db.nextUser && old(db.nextSession) <= db.nextSession
    ensures r.Ok? ==> |users| == count == |r.value| && db.members == Enrolled(old(db.members), r.value, batchId)
    ensures r.Ok? ==> NewUsers(old(db.users), db.users, users, old(db.nextUser), db.nextUser)
    ensures r.Ok? ==> NewSessions(old(db.sessions), db.sessions, r.value, old(db.nextSession), db.nextSession, template, users)
    ensures r.Fail? ==> db.users == old(db.users) && db.sessions == old(db.sessions) && db.members == old(db.members)
    ensures r.Fail? ==> r.error == Exhausted && !Plenty(old(db.users), old(db.sessions), accounts, names, takenAccounts, takenNames)
  {
    users := [];
    var oldUsers, oldSessions := db.users, db.sessions;
    var created := CreateUsers(db, count, accounts, takenAccounts);
    if created.Fail? {
      db.users := oldUsers;
      return Fail(created.error), users;
    }
    users := created.value;
    r := CreateSetupSessions(db, created.value, template, names, takenNames);
    if r.Fail? {
      db.users, db.sessions := oldUsers, oldSessions;
      return;
    }
    CreateMemberships(db, batchId, r.value);
  }

  lemma PopulatedIs(before: Db, after: Db, batchId: BatchId, count: nat, template: Session, users: seq<UserId>,
      sids: seq<SessionId>)
    requires |users| == count == |sids| && after.members == Enrolled(before.members, sids, batchId)
    requires NewUsers(before.users, after.users, users, before.nextUser, after.nextUser)
    requires NewSessions(before.claims.sessions, after.claims.sessions, sids, before.claims.nextSession, after.claims.nextSession, template, users)
    requires after.claims == before.claims.(sessions := after.claims.sessions, nextSession := after.claims.nextSession)
    requires OtherTablesSame(before, after) && after.nextBatch == before.nextBatch && after.nextAddition == before.nextAddition
    ensures Populated(before, after, batchId, count, template, users, sids)
  {
  }

  lemma PopulatedTotals(before: Db, after: Db, batchId: BatchId, count: nat, template: Session, users: seq<UserId>,
      sids: seq<SessionId>, batches: map<BatchId, Batch>)
    requires Populated(before, after, batchId, count, template, users, sids)
    ensures Populated(before.(batches := batches), after.(batches := batches), batchId, count, template, users, sids)
  {
  }

  method PopulateBatch(db: Database, batchId: BatchId, count: nat, template: Session, accounts: Draws, names: Draws,
                       takenAccounts: set<string>, takenNames: set<string>) returns (r: Result<Admitted>, ghost users: seq<UserId>)
    requires BelowNext(db.users, db.nextUser) && UniqueAccounts(db.users)
    requires BelowNext(db.sessions, db.nextSession) && UniqueVtaNames(db.sessions)
    modifies db`users, db`nextUser, db`sessions, db`nextSession, db`members
    ensures old(db.nextUser) <= db.nextUser && old(db.nextSession) <= db.nextSession
    ensures r.Ok? ==> r.value.created && r.value.batchId == batchId
    ensures r.Ok? ==> Populated(old(Snapshot(db)), Snapshot(db), batchId, count, template, users, r.value.sessions)
    ensures r.Fail? ==> db.users == old(db.users) && db.sessions == old(db.sessions) && db.members == old(db.members)
    ensures r.Fail? ==> r.error == Exhausted && !Plenty(old(db.users), old(db.sessions), accounts, names, takenAccounts, takenNames)
  {
    ghost var before := Snapshot(db);
    var populated;
    populated, users := Populate(db, batchId, count, template, accounts, names, takenAccounts, takenNames);
    if populated.Fail? {
      return Fail(populated.error), users;
    }
    r := Ok(Admitted(batchId, populated.value, true));
    PopulatedIs(before, Snapshot(db), batchId, count, template, users, populated.value);
  }

  method CreateMemberships(db: Database, batchId: BatchId, sids: seq<SessionId>)
    modifies db`members
    ensures db.members == Enrolled(old(db.members), sids, batchId)
  {
    db.members := db.members + map sid | sid in sids :: batchId;
  }

  // ---- admit ----

  predicate ValidAdmission(i: Admission) { i.count >= 1 && i.key != "" && |i.key| <= MAX_KEY_LENGTH && i.template.vtaImage != "" }

  predicate HasKey(batches: map<BatchId, Batch>, b: BatchId, adminId: AdminId, key: string) {
    b in batches && batches[b].createdBy == adminId && batches[b].key == key
  }

  function NewBatch(i: Admission, now: Time): Batch
    requires ValidAdmission(i)
  {
    Batch(i.adminId, i.purpose, i.count, if i.purpose.PublicSignup? then Some(now) else None, i.key, i.digest, i.template.vtaImage, None)
  }

  ghost predicate AdmitCreates(d: Db, i: Admission, now: Time, d': Db, a: Admitted, users: seq<UserId>)
    requires ValidAdmission(i)
  {
    && a.created && a.batchId >= d.nextBatch
    && Populated(WithBatch(d, i, now, a.batchId), d', a.batchId, i.count, i.template, users, a.sessions)
  }

  // The answer to a key already used.
  ghost predicate AdmitReplay(batches: map<BatchId, Batch>, i: Admission, b: BatchId, r: Result<Admitted>) {
    && HasKey(batches, b, i.adminId, i.key)
    && r == if batches[b].digest == i.digest then Ok(Admitted(b, [], false)) else Fail(Conflict)
  }

  ghost predicate KeyUsed(batches: map<BatchId, Batch>, adminId: AdminId, key: string) { exists b :: HasKey(batches,
      b, adminId, key) }

  // What a request to admit does, whichever way it ends.
  ghost predicate AdmitSpec(d: Db, i: Admission, now: Time, d': Db, r: Result<Admitted>) {
    if ValidAdmission(i) then AdmitOutcome(d, i, now, d', r) else d' == d && r == Fail(Invalid)
  }

  ghost predicate AdmitOutcome(d: Db, i: Admission, now: Time, d': Db, r: Result<Admitted>)
    requires ValidAdmission(i)
  {
    if KeyUsed(d.batches, i.adminId, i.key) then Untouched(d, d') && exists b :: AdmitReplay(d.batches, i, b, r)
    else if i.count > Room(PoolSize(d), i.capacity) then Untouched(d, d') && r == Fail(CapacityReached(Room(PoolSize(d), i.capacity)))
    else match r
      case Ok(a) => exists users :: AdmitCreates(d, i, now, d', a, users)
      case Fail(e) => Untouched(d, d') && e == Exhausted
  }

  method Admit(db: Database, i: Admission, now: Time, accounts: Draws, names: Draws, takenAccounts: set<string>,
      takenNames: set<string>)
    returns (r: Result<Admitted>)
    requires Tidy(Snapshot(db))
    modifies db`users, db`nextUser, db`sessions, db`nextSession, db`members, db`batches, db`nextBatch
    ensures AdmitSpec(old(Snapshot(db)), i, now, Snapshot(db), r)
    ensures r == Fail(Exhausted) ==> !Plenty(old(db.users), old(db.sessions), accounts, names, takenAccounts, takenNames)
  {
    if i.count < 1 || i.key == "" || |i.key| > MAX_KEY_LENGTH || i.template.vtaImage == "" {
      return Fail(Invalid);
    }
    r := AdmitValid(db, i, now, accounts, names, takenAccounts, takenNames);
  }

  method AdmitValid(db: Database, i: Admission, now: Time, accounts: Draws, names: Draws, takenAccounts: set<string>,
      takenNames: set<string>)
    returns (r: Result<Admitted>)
    requires ValidAdmission(i) && Tidy(Snapshot(db))
    modifies db`users, db`nextUser, db`sessions, db`nextSession, db`members, db`batches, db`nextBatch
    ensures AdmitOutcome(old(Snapshot(db)), i, now, Snapshot(db), r)
    ensures r == Fail(Exhausted) ==> !Plenty(old(db.users), old(db.sessions), accounts, names, takenAccounts, takenNames)
  {
    ghost var d := Snapshot(db);
    var batches := db.batches;
    var batchId, inserted := AdmitBatchRow(db, i, now);
    if inserted {
      r := AdmitOrUndo(db, d, i, now, batchId, batches, accounts, names, takenAccounts, takenNames);
    } else {
      r := Refuse(db, i);
    }
  }

  // A failure takes the batch row back as well.
  method AdmitOrUndo(db: Database, ghost d: Db, i: Admission, now: Time, batchId: BatchId, batches: map<BatchId, Batch>,
      accounts: Draws, names: Draws, takenAccounts: set<string>, takenNames: set<string>)
    returns (r: Result<Admitted>)
    requires ValidAdmission(i) && batchId >= d.nextBatch && Snapshot(db) == WithBatch(d, i, now, batchId) && batches == d.batches
    requires BelowNext(db.users, db.nextUser) && UniqueAccounts(db.users)
    requires BelowNext(db.sessions, db.nextSession) && UniqueVtaNames(db.sessions)
    modifies db`users, db`nextUser, db`sessions, db`nextSession, db`members, db`batches
    ensures match r
      case Ok(a) => exists users :: AdmitCreates(d, i, now, Snapshot(db), a, users)
      case Fail(e) => Untouched(d, Snapshot(db)) && e == Exhausted
    ensures r.Fail? ==> !Plenty(d.users, d.claims.sessions, accounts, names, takenAccounts, takenNames)
  {
    r := AdmitMembers(db, d, i, now, batchId, accounts, names, takenAccounts, takenNames);
    if r.Fail? {
      db.batches := batches;
    }
  }

  // Past the insertion of the batch row: its users, sessions and memberships.
  method AdmitMembers(db: Database, ghost d: Db, i: Admission, now: Time, batchId: BatchId, accounts: Draws, names: Draws,
      takenAccounts: set<string>, takenNames: set<string>)
    returns (r: Result<Admitted>)
    requires ValidAdmission(i) && batchId >= d.nextBatch && Snapshot(db) == WithBatch(d, i, now, batchId)
    requires BelowNext(db.users, db.nextUser) && UniqueAccounts(db.users)
    requires BelowNext(db.sessions, db.nextSession) && UniqueVtaNames(db.sessions)
    modifies db`users, db`nextUser, db`sessions, db`nextSession, db`members
    ensures old(db.nextUser) <= db.nextUser && old(db.nextSession) <= db.nextSession
    ensures r.Ok? ==> exists users :: AdmitCreates(d, i, now, Snapshot(db), r.value, users)
    ensures r.Fail? ==> db.users == old(db.users) && db.sessions == old(db.sessions) && db.members == old(db.members)
    ensures r.Fail? ==> r.error == Exhausted && !Plenty(old(db.users), old(db.sessions), accounts, names, takenAccounts, takenNames)
  {
    ghost var users;
    r, users := PopulateBatch(db, batchId, i.count, i.template, accounts, names, takenAccounts, takenNames);
    assert r.Ok? ==> AdmitCreates(d, i, now, Snapshot(db), r.value, users);
  }

  // Nothing was inserted: the key was used before, or there is no room.
  method Refuse(db: Database, i: Admission) returns (r: Result<Admitted>)
    ensures var d := Snapshot(db);
      if KeyUsed(d.batches, i.adminId, i.key) then exists b :: AdmitReplay(d.batches, i, b, r) else r == Fail(CapacityReached(Room(PoolSize(d), i.capacity)))
  {
    if b :| b in db.batches && HasKey(db.batches, b, i.adminId, i.key) {
      r := if db.batches[b].digest == i.digest then Ok(Admitted(b, [], false)) else Fail(Conflict);
      assert AdmitReplay(db.batches, i, b, r);
      return;
    }
    var reserved := NonRunningCount(db);
    r := Fail(CapacityReached(Room(reserved, i.capacity)));
  }

  // One statement: the row goes in when there is room for it and its key is new.
  method AdmitBatchRow(db: Database, i: Admission, now: Time) returns (batchId: BatchId, inserted: bool)
    requires ValidAdmission(i)
    modifies db`batches, db`nextBatch
    ensures inserted <==> i.count <= Room(old(PoolSize(Snapshot(db))), i.capacity) && !KeyUsed(old(db.batches), i.adminId, i.key)
    ensures inserted ==> batchId == old(db.nextBatch) && db.batches == old(db.batches)[batchId := NewBatch(i, now)] && db.nextBatch == batchId + 1
    ensures !inserted ==> db.batches == old(db.batches) && old(db.nextBatch) <= db.nextBatch
  {
    batchId, inserted := db.nextBatch, false;
    var reserved := NonRunningCount(db);
    if i.count <= Room(reserved, i.capacity) {
      db.nextBatch := batchId + 1;
      if forall b :: b in db.batches ==> !HasKey(db.batches, b, i.adminId, i.key) {
        db.batches := db.batches[batchId := NewBatch(i, now)];
        inserted := true;
      }
    }
  }

  method NonRunningCount(db: Database) returns (n: nat)
    ensures n == PoolSize(Snapshot(db))
  {
    n := |NonRunning(db.members, db.sessions)|;
  }

  // ---- add inventory ----

  predicate ValidAddition(i: AdditionRequest) {
    i.batchId != 0 && i.count >= 1 && i.key != "" && |i.key| <= MAX_KEY_LENGTH && i.template.vtaImage != ""
  }

  predicate HasAddition(d: Db, a: AdditionId, adminId: AdminId, key: string) {
    a in d.additions && d.additions[a].createdBy == adminId && d.additions[a].key == key
  }

  ghost predicate AddCreates(d: Db, i: AdditionRequest, d': Db, a: Admitted, addition: AdditionId, users: seq<UserId>)
    requires ValidAddition(i)
  {
    && i.batchId in d.batches && a.created && a.batchId == i.batchId && addition >= d.nextAddition
    && Populated(Recorded(d, i, addition), d', i.batchId, i.count, i.template, users, a.sessions)
  }

  // The addition row and the running total of its batch.
  function Recorded(d: Db, i: AdditionRequest, addition: AdditionId): Db
    requires ValidAddition(i) && i.batchId in d.batches
  {
    d.(additions := d.additions[addition := Addition(i.batchId, i.adminId, i.count, i.key, i.digest)], nextAddition := addition + 1,
       batches := d.batches[i.batchId := d.batches[i.batchId].(requested := d.batches[i.batchId].requested + i.count)])
  }

  ghost predicate AddReplay(d: Db, i: AdditionRequest, a: AdditionId, r: Result<Admitted>) {
    && HasAddition(d, a, i.adminId, i.key)
    && r == if d.additions[a].digest == i.digest && d.additions[a].batchId == i.batchId then Ok(Admitted(i.batchId, [], false)) else Fail(Conflict)
  }

  ghost predicate AdditionKeyUsed(d: Db, adminId: AdminId, key: string) { exists a :: HasAddition(d, a, adminId, key) }

  ghost predicate AddSpec(d: Db, i: AdditionRequest, d': Db, r: Result<Admitted>) {
    if !ValidAddition(i) then d' == d && r == Fail(Invalid)
    else if AdditionKeyUsed(d, i.adminId, i.key) then Untouched(d, d') && exists a :: AddReplay(d, i, a, r)
    else if i.batchId !in d.batches then Untouched(d, d') && r == Fail(NotFound)
    else if d.batches[i.batchId].cleanupAt.Some? || d.batches[i.batchId].vtaImage != i.template.vtaImage then Untouched(d, d') && r == Fail(Conflict)
    else if i.count > Room(PoolSize(d), i.capacity) then Untouched(d, d') && r == Fail(CapacityReached(Room(PoolSize(d), i.capacity)))
    else match r
      case Ok(a) => exists addition, users :: AddCreates(d, i, d', a, addition, users)
      case Fail(e) => Untouched(d, d') && e == Exhausted
  }

  method AddInventory(db: Database, i: AdditionRequest, accounts: Draws, names: Draws, takenAccounts: set<string>,
      takenNames: set<string>)
    returns (r: Result<Admitted>)
    requires Tidy(Snapshot(db))
    modifies db`users, db`nextUser, db`sessions, db`nextSession, db`members, db`batches, db`additions, db`nextAddition
    ensures AddSpec(old(Snapshot(db)), i, Snapshot(db), r)
    ensures r == Fail(Exhausted) ==> !Plenty(old(db.users), old(db.sessions), accounts, names, takenAccounts, takenNames)
  {
    if i.batchId == 0 || i.count < 1 || i.key == "" || |i.key| > MAX_KEY_LENGTH || i.template.vtaImage == "" {
      return Fail(Invalid);
    }
    ghost var d := Snapshot(db);
    if a :| a in db.additions && db.additions[a].createdBy == i.adminId && db.additions[a].key == i.key {
      r := if db.additions[a].digest == i.digest && db.additions[a].batchId == i.batchId then Ok(Admitted(i.batchId, [], false)) else Fail(Conflict);
      assert AddReplay(d, i, a, r);
      return;
    }
    assert forall a :: !HasAddition(d, a, i.adminId, i.key);
    if i.batchId !in db.batches {
      return Fail(NotFound);
    }
    var batch := db.batches[i.batchId];
    if batch.cleanupAt.Some? || batch.vtaImage == "" || batch.vtaImage != i.template.vtaImage {
      return Fail(Conflict);
    }
    var reserved := NonRunningCount(db);
    if i.count > Room(reserved, i.capacity) {
      return Fail(CapacityReached(Room(reserved, i.capacity)));
    }
    r := AppendInventory(db, i, accounts, names, takenAccounts, takenNames);
  }

  // Past every check: the row, the sessions, and the new total of the batch.
  method AppendInventory(db: Database, i: AdditionRequest, accounts: Draws, names: Draws, takenAccounts: set<string>,
      takenNames: set<string>)
    returns (r: Result<Admitted>)
    requires ValidAddition(i) && i.batchId in db.batches
    requires BelowNext(db.users, db.nextUser) && UniqueAccounts(db.users)
    requires BelowNext(db.sessions, db.nextSession) && UniqueVtaNames(db.sessions)
    modifies db`users, db`nextUser, db`sessions, db`nextSession, db`members, db`batches, db`additions, db`nextAddition
    ensures match r
      case Ok(a) => exists addition, users :: AddCreates(old(Snapshot(db)), i, Snapshot(db), a, addition, users)
      case Fail(e) => Untouched(old(Snapshot(db)), Snapshot(db)) && e == Exhausted
    ensures r.Fail? ==> !Plenty(old(db.users), old(db.sessions), accounts, names, takenAccounts, takenNames)
  {
    ghost var d := Snapshot(db);
    var additions := db.additions;
    ghost var users;
    r, users := AppendRows(db, d, i, accounts, names, takenAccounts, takenNames);
    if r.Fail? {
      db.additions := additions;
      return;
    }
    assert AddCreates(d, i, Snapshot(db), r.value, d.nextAddition, users);
  }

  method AppendRows(db: Database, ghost d: Db, i: AdditionRequest, accounts: Draws, names: Draws,
                    takenAccounts: set<string>, takenNames: set<string>) returns (r: Result<Admitted>, ghost users: seq<UserId>)
    requires d == Snapshot(db) && ValidAddition(i) && i.batchId in db.batches
    requires BelowNext(db.users, db.nextUser) && UniqueAccounts(db.users)
    requires BelowNext(db.sessions, db.nextSession) && UniqueVtaNames(db.sessions)
    modifies db`users, db`nextUser, db`sessions, db`nextSession, db`members, db`batches, db`additions, db`nextAddition
    ensures r.Ok? ==> AddCreates(d, i, Snapshot(db), r.value, d.nextAddition, users)
    ensures r.Fail? ==> db.users == d.users && db.sessions == d.claims.sessions && db.members == d.members && db.batches == d.batches
    ensures r.Fail? ==> r.error == Exhausted && !Plenty(d.users, d.claims.sessions, accounts, names, takenAccounts, takenNames)
    ensures d.nextUser <= db.nextUser && d.claims.nextSession <= db.nextSession && d.nextAddition <= db.nextAddition
  {
    var batch, addition := db.batches[i.batchId], db.nextAddition;
    db.additions := db.additions[addition := Addition(i.batchId, i.adminId, i.count, i.key, i.digest)];
    db.nextAddition := addition + 1;
    ghost var before := Snapshot(db);
    r, users := PopulateBatch(db, i.batchId, i.count, i.template, accounts, names, takenAccounts, takenNames);
    if r.Ok? {
      assert before == Recorded(d, i, addition).(batches := d.batches);
      RaiseTotal(db, d, i, batch, addition, users, r.value.sessions);
    }
  }

  method RaiseTotal(db: Database, ghost d: Db, i: AdditionRequest, batch: Batch, ghost addition: AdditionId, ghost users: seq<UserId>,
      ghost sids: seq<SessionId>)
    requires ValidAddition(i) && i.batchId in d.batches && db.batches == d.batches && batch == d.batches[i.batchId]
    requires Populated(Recorded(d, i, addition).(batches := d.batches), Snapshot(db), i.batchId, i.count, i.template, users, sids)
    modifies db`batches
    ensures Populated(Recorded(d, i, addition), Snapshot(db), i.batchId, i.count, i.template, users, sids)
  {
    ghost var before, raised := Recorded(d, i, addition).(batches := d.batches), Recorded(d, i, addition).batches;
    PopulatedTotals(before, Snapshot(db), i.batchId, i.count, i.template, users, sids, raised);
    assert before.(batches := raised) == Recorded(d, i, addition);
    db.batches := db.batches[i.batchId := batch.(requested := batch.requested + i.count)];
  }

  // ---- what admission guarantees ----

  lemma EnrolledKeys(members: map<SessionId, BatchId>, sids: seq<SessionId>, batchId: BatchId, sid: SessionId)
    ensures sid in Enrolled(members, sids, batchId) <==> sid in members || sid in sids
    ensures sid in sids ==> Enrolled(members, sids, batchId)[sid] == batchId
    ensures sid !in sids && sid in members ==> Enrolled(members, sids, batchId)[sid] == members[sid]
  {
  }

  lemma DisjointCount(a: set<nat>, ids: seq<nat>)
    requires Distinct(ids) && forall id :: id in ids ==> id !in a
    ensures |a + Elements(ids)| == |a| + |ids|
  {
    DistinctCount(ids);
    assert a !! Elements(ids);
  }

  lemma UnionCount(c: set<nat>, a: set<nat>, ids: seq<nat>)
    requires Distinct(ids) && (forall id :: id in ids ==> id !in a) && forall x :: x in c <==> x in a || x in ids
    ensures |c| == |a| + |ids|
  {
    DisjointCount(a, ids);
    assert c == a + Elements(ids);
  }

  // Rows under new ids add as many rows.
  lemma ExtendsCount<V(!new)>(m: map<nat, V>, m': map<nat, V>, ids: seq<nat>, lo: nat, hi: nat)
    requires Extends(m, m', ids, lo, hi) && BelowNext(m, lo)
    ensures |m'| == |m| + |ids|
  {
    DisjointCount(m.Keys, ids);
    assert m'.Keys == m.Keys + Elements(ids);
  }

  // Users and sessions have old ids, and members have sessions.
  ghost predicate Countable(d: Db) {
    BelowNext(d.users, d.nextUser) && BelowNext(d.claims.sessions, d.claims.nextSession) && d.members.Keys <= d.claims.sessions.Keys
  }

  lemma MembersCount(members: map<SessionId, BatchId>, sids: seq<SessionId>, batchId: BatchId)
    requires Distinct(sids) && forall sid :: sid in sids ==> sid !in members
    ensures |Enrolled(members, sids, batchId)| == |members| + |sids|
  {
    DisjointCount(members.Keys, sids);
    assert Enrolled(members, sids, batchId).Keys == members.Keys + Elements(sids);
  }

  lemma NewMembersCount(members: map<SessionId, BatchId>, sessions: map<SessionId, Session>, sessions': map<SessionId, Session>,
      sids: seq<SessionId>, batchId: BatchId, sid: SessionId)
    requires members.Keys <= sessions.Keys
    requires sid in sids ==> sid in sessions' && !sessions'[sid].status.Running?
    requires sid in sessions ==> sid in sessions' && sessions'[sid] == sessions[sid]
    ensures sid in NonRunning(Enrolled(members, sids, batchId), sessions') <==> sid in NonRunning(members, sessions) || sid in sids
  {
    EnrolledKeys(members, sids, batchId, sid);
  }

  lemma PoolSizeGrows(members: map<SessionId, BatchId>, sessions: map<SessionId, Session>, sessions': map<SessionId,
      Session>,
                      sids: seq<SessionId>, batchId: BatchId)
    requires Distinct(sids) && members.Keys <= sessions.Keys
    requires forall sid :: sid in sids ==> sid !in sessions && sid in sessions' && !sessions'[sid].status.Running?
    requires forall sid :: sid in sessions ==> sid in sessions' && sessions'[sid] == sessions[sid]
    ensures |NonRunning(Enrolled(members, sids, batchId), sessions')| == |NonRunning(members, sessions)| + |sids|
  {
    var before, after := NonRunning(members, sessions), NonRunning(Enrolled(members, sids, batchId), sessions');
    forall sid
      ensures sid in after <==> sid in before || sid in sids
    {
      NewMembersCount(members, sessions, sessions', sids, batchId, sid);
    }
    UnionCount(after, before, sids);
  }

  // Exactly `count` users, sessions and memberships more, one session for each
  // new user and one membership for each new session, none of them running.
  lemma PopulatedCounts(before: Db, after: Db, batchId: BatchId, count: nat, template: Session, users: seq<UserId>,
      sids: seq<SessionId>)
    requires Countable(before) && Populated(before, after, batchId, count, template, users, sids)
    ensures |after.users| == |before.users| + count
    ensures |after.claims.sessions| == |before.claims.sessions| + count
    ensures |after.members| == |before.members| + count
    ensures PoolSize(after) == PoolSize(before) + count
  {
    ExtendsCount(before.users, after.users, users, before.nextUser, after.nextUser);
    ExtendsCount(before.claims.sessions, after.claims.sessions, sids, before.claims.nextSession, after.claims.nextSession);
    assert forall sid :: sid in sids ==> FromTemplate(after.claims.sessions[sid], template);
    MembersCount(before.members, sids, batchId);
    PoolSizeGrows(before.members, before.claims.sessions, after.claims.sessions, sids, batchId);
  }

  // A session about to be built for an anonymous user: nobody's VTA yet, made as
  // the template says.
  ghost predicate Unbuilt(d: Db, sid: SessionId, template: Session) {
    && sid in d.claims.sessions
    && var s := d.claims.sessions[sid];
    && s.status == PoolCreating && s.adminDid == None
    && s.vtaDid == template.vtaDid && s.vtaImage == template.vtaImage && s.fullStack == template.fullStack
    && s.userId in d.users && !d.users[s.userId].hasEmail && !d.users[s.userId].fullstackAccess
  }

  // Every new member is unbuilt, so nobody can be given one, and every old one is
  // as it was.
  lemma NewMembersAreUnbuilt(before: Db, after: Db, batchId: BatchId, count: nat, template: Session, users: seq<UserId>,
      sids: seq<SessionId>, sid: SessionId)
    requires Countable(before) && Populated(before, after, batchId, count, template, users, sids) && sid in after.members
    ensures if sid in before.members
      then after.members[sid] == before.members[sid] && after.claims.sessions[sid] == before.claims.sessions[sid]
      else sid !in before.claims.sessions && after.members[sid] == batchId && Unbuilt(after, sid, template) && !Waiting(after.claims.sessions[sid])
  {
    EnrolledKeys(before.members, sids, batchId, sid);
    if sid in before.members {
      assert sid in before.claims.sessions;
    } else {
      assert FromTemplate(after.claims.sessions[sid], template) && after.claims.sessions[sid].userId in users;
    }
  }

  // An admission that creates adds this batch, open to the public from now on if
  // that is its purpose, and its members are unbuilt.
  lemma AdmitMakes(d: Db, i: Admission, now: Time, d': Db, a: Admitted, sid: SessionId)
    requires Countable(d) && AdmitSpec(d, i, now, d', Ok(a)) && a.created
    ensures a.batchId >= d.nextBatch && a.batchId in d'.batches && d'.batches == d.batches[a.batchId := d'.batches[a.batchId]]
    ensures var b := d'.batches[a.batchId];
      && b.createdBy == i.adminId && b.key == i.key && b.digest == i.digest && b.purpose == i.purpose && b.requested == i.count
      && b.vtaImage == i.template.vtaImage && b.cleanupAt == None
      && b.publicSince == if i.purpose == PublicSignup then Some(now) else None
    ensures sid in a.sessions <==> sid in d'.members && sid !in d.members
    ensures sid in a.sessions ==> d'.members[sid] == a.batchId && Unbuilt(d', sid, i.template) && !Waiting(d'.claims.sessions[sid])
  {
    var users :| AdmitCreates(d, i, now, d', a, users);
    var d1 := WithBatch(d, i, now, a.batchId);
    EnrolledKeys(d1.members, a.sessions, a.batchId, sid);
    NewMembersAre(d1, d', a.batchId, i.count, i.template, users, a.sessions, sid);
  }

  lemma NewMembersAre(before: Db, after: Db, batchId: BatchId, count: nat, template: Session, users: seq<UserId>,
      sids: seq<SessionId>, sid: SessionId)
    requires Countable(before) && Populated(before, after, batchId, count, template, users, sids)
    ensures sid in sids <==> sid in after.members && sid !in before.members
    ensures sid in sids ==> after.members[sid] == batchId && Unbuilt(after, sid, template) && !Waiting(after.claims.sessions[sid])
  {
    EnrolledKeys(before.members, sids, batchId, sid);
    if sid in sids {
      assert sid !in before.claims.sessions;
      NewMembersAreUnbuilt(before, after, batchId, count, template, users, sids, sid);
    }
  }

  // An addition that creates records itself, and its members are unbuilt.
  lemma AddMakes(d: Db, i: AdditionRequest, d': Db, a: Admitted, sid: SessionId)
    requires Countable(d) && AddSpec(d, i, d', Ok(a)) && a.created
    ensures a.batchId == i.batchId && i.batchId in d.batches
    ensures d'.batches == d.batches[i.batchId := d.batches[i.batchId].(requested := d.batches[i.batchId].requested + i.count)]
    ensures exists addition :: AdditionMade(d, i, d', addition)
    ensures sid in a.sessions <==> sid in d'.members && sid !in d.members
    ensures sid in a.sessions ==> d'.members[sid] == i.batchId && Unbuilt(d', sid, i.template) && !Waiting(d'.claims.sessions[sid])
  {
    var addition, users :| AddCreates(d, i, d', a, addition, users);
    NewMembersAre(Recorded(d, i, addition), d', i.batchId, i.count, i.template, users, a.sessions, sid);
    assert AdditionMade(d, i, d', addition);
  }

  ghost predicate AdditionMade(d: Db, i: AdditionRequest, d': Db, addition: AdditionId)
    requires ValidAddition(i)
  {
    && addition >= d.nextAddition && addition in d'.additions && d'.additions == d.additions[addition := d'.additions[addition]]
    && d'.additions[addition] == Addition(i.batchId, i.adminId, i.count, i.key, i.digest)
  }

  // What is left of the capacity.
  ghost function Left(d: Db, capacity: int): nat { if capacity > PoolSize(d) then capacity - PoolSize(d) else 0 }

  // A new valid request is refused if and only if it does not fit beside the members
  // not running, and told what would; otherwise it creates, or runs out of names.
  lemma AdmitDecides(d: Db, i: Admission, now: Time, d': Db, r: Result<Admitted>)
    requires ValidAdmission(i) && !KeyUsed(d.batches, i.adminId, i.key) && AdmitSpec(d, i, now, d', r)
    ensures if PoolSize(d) + i.count > i.capacity then r == Fail(CapacityReached(Left(d, i.capacity)))
      else if r.Ok? then r.value.created else r == Fail(Exhausted)
    ensures r.Fail? ==> Untouched(d, d')
  {
  }

  // An addition also if its batch is unknown, closing, or of another image.
  lemma AddDecides(d: Db, i: AdditionRequest, d': Db, r: Result<Admitted>)
    requires ValidAddition(i) && !AdditionKeyUsed(d, i.adminId, i.key) && AddSpec(d, i, d', r)
    ensures if i.batchId !in d.batches then r == Fail(NotFound)
      else if d.batches[i.batchId].cleanupAt != None || d.batches[i.batchId].vtaImage != i.template.vtaImage then r == Fail(Conflict)
      else if PoolSize(d) + i.count > i.capacity then r == Fail(CapacityReached(Left(d, i.capacity)))
      else if r.Ok? then r.value.created else r == Fail(Exhausted)
    ensures r.Fail? ==> Untouched(d, d')
  {
  }

  // What makes a request valid.
  lemma ValidRequestIff(i: Admission, a: AdditionRequest)
    ensures ValidAdmission(i) <==> i.count > 0 && 1 <= |i.key| <= 128 && i.template.vtaImage != ""
    ensures ValidAddition(a) <==> a.batchId != 0 && a.count > 0 && 1 <= |a.key| <= 128 && a.template.vtaImage != ""
  {
  }

  // A member takes a place until it runs: running frees exactly one.
  lemma RunningFreesAPlace(d: Db, sid: SessionId)
    requires sid in d.members && sid in d.claims.sessions && d.claims.sessions[sid].status != Running
    ensures PoolSize(d.(claims := PutSession(d.claims, sid, d.claims.sessions[sid].(status := Running)))) == PoolSize(d) - 1
  {
    var d' := d.(claims := PutSession(d.claims, sid, d.claims.sessions[sid].(status := Running)));
    assert sid in NonRunning(d.members, d.claims.sessions);
    assert NonRunning(d'.members, d'.claims.sessions) == NonRunning(d.members, d.claims.sessions) - {sid};
  }

  // And whatever is no member takes none.
  lemma OthersTakeNone(d: Db, sid: SessionId, s: Session)
    requires sid !in d.members
    ensures PoolSize(d.(claims := PutSession(d.claims, sid, s))) == PoolSize(d)
  {
    var d' := d.(claims := PutSession(d.claims, sid, s));
    assert NonRunning(d'.members, d'.claims.sessions) == NonRunning(d.members, d.claims.sessions);
  }

  // The tables with the row of a new batch.
  function WithBatch(d: Db, i: Admission, now: Time, b: BatchId): Db
    requires ValidAdmission(i)
  {
    d.(batches := d.batches[b := NewBatch(i, now)], nextBatch := b + 1)
  }

  // An admission that creates leaves the pool within the capacity it was given.
  lemma AdmitStaysWithinCapacity(d: Db, i: Admission, now: Time, d': Db, a: Admitted)
    requires Countable(d) && AdmitSpec(d, i, now, d', Ok(a)) && a.created
    ensures PoolSize(d') == PoolSize(d) + i.count <= i.capacity
    ensures |d'.users| == |d.users| + i.count && |d'.claims.sessions| == |d.claims.sessions| + i.count && |d'.members| == |d.members| + i.count
  {
    var users :| AdmitCreates(d, i, now, d', a, users);
    PopulatedCounts(WithBatch(d, i, now, a.batchId), d', a.batchId, i.count, i.template, users, a.sessions);
  }

  // Replaying a key with the digest it was first used with returns the batch
  // and changes no table, whatever the capacity has become; with another
  // digest it is refused.
  lemma AdmitIsIdempotent(d: Db, i: Admission, now: Time, d': Db, r: Result<Admitted>, b: BatchId)
    requires Tidy(d) && ValidAdmission(i) && HasKey(d.batches, b, i.adminId, i.key) && AdmitSpec(d, i, now, d', r)
    ensures Untouched(d, d') && r == if d.batches[b].digest == i.digest then Ok(Admitted(b, [], false)) else Fail(Conflict)
  {
    assert KeyUsed(d.batches, i.adminId, i.key);
    var c :| AdmitReplay(d.batches, i, c, r);
    assert c == b;
  }

  // So a request sent twice admits once.
  lemma AdmitTwiceIsOnce(d: Db, i: Admission, now: Time, d': Db, a: Admitted, again: Time, d'': Db, r: Result<Admitted>)
    requires Tidy(d) && Tidy(d') && AdmitSpec(d, i, now, d', Ok(a)) && AdmitSpec(d', i, again, d'', r)
    ensures r == Ok(Admitted(a.batchId, [], false)) && Untouched(d', d'')
  {
    if KeyUsed(d.batches, i.adminId, i.key) {
      var b :| HasKey(d.batches, b, i.adminId, i.key);
      AdmitIsIdempotent(d, i, now, d', Ok(a), b);
      AdmitIsIdempotent(d', i, again, d'', r, b);
    } else {
      var users :| AdmitCreates(d, i, now, d', a, users);
      assert HasKey(d'.batches, a.batchId, i.adminId, i.key);
      AdmitIsIdempotent(d', i, again, d'', r, a.batchId);
    }
  }

  lemma AddStaysWithinCapacity(d: Db, i: AdditionRequest, d': Db, a: Admitted)
    requires Countable(d) && AddSpec(d, i, d', Ok(a)) && a.created
    ensures PoolSize(d') == PoolSize(d) + i.count <= i.capacity
    ensures |d'.users| == |d.users| + i.count && |d'.claims.sessions| == |d.claims.sessions| + i.count && |d'.members| == |d.members| + i.count
  {
    var addition, users :| AddCreates(d, i, d', a, addition, users);
    PopulatedCounts(Recorded(d, i, addition), d', i.batchId, i.count, i.template, users, a.sessions);
  }

  lemma AddIsIdempotent(d: Db, i: AdditionRequest, d': Db, r: Result<Admitted>, a: AdditionId)
    requires Tidy(d) && ValidAddition(i) && HasAddition(d, a, i.adminId, i.key) && AddSpec(d, i, d', r)
    ensures Untouched(d, d')
    ensures r == if d.additions[a].digest == i.digest && d.additions[a].batchId == i.batchId then Ok(Admitted(i.batchId, [], false)) else Fail(Conflict)
  {
    assert AdditionKeyUsed(d, i.adminId, i.key);
    var c :| AddReplay(d, i, c, r);
    assert c == a;
  }

  // ---- the running total ----

  // What the additions numbered below n added to the batch.
  ghost function Added(additions: map<AdditionId, Addition>, b: BatchId, n: AdditionId): nat {
    if n == 0 then 0
    else Added(additions, b, n - 1) + if n - 1 in additions && additions[n - 1].batchId == b then additions[n - 1].requested else 0
  }

  lemma {:induction false} AddedSame(m: map<AdditionId, Addition>, m': map<AdditionId, Addition>, b: BatchId, n: AdditionId)
    requires forall a :: a < n && a in m && m[a].batchId == b ==> a in m' && m'[a] == m[a]
    requires forall a :: a < n && a in m' && m'[a].batchId == b ==> a in m && m[a] == m'[a]
    ensures Added(m, b, n) == Added(m', b, n)
  {
    if n > 0 {
      AddedSame(m, m', b, n - 1);
    }
  }

  lemma {:induction false} AddedBeyond(m: map<AdditionId, Addition>, b: BatchId, n: AdditionId, n': AdditionId)
    requires n <= n' && forall a :: a in m ==> a < n
    ensures Added(m, b, n) == Added(m, b, n')
  {
    if n < n' {
      AddedBeyond(m, b, n, n' - 1);
    }
  }

  // What the batch was first admitted with.
  ghost function FirstCount(d: Db, b: BatchId): int
    requires b in d.batches
  {
    d.batches[b].requested - Added(d.additions, b, d.nextAddition)
  }

  // Tables that keep this batch's total and its additions keep its first count.
  lemma SameFirstCount(d: Db, d': Db, b: BatchId)
    requires Tidy(d) && b in d.batches && b in d'.batches && d'.batches[b].requested == d.batches[b].requested
    requires d.nextAddition <= d'.nextAddition
    requires forall a :: a in d.additions && d.additions[a].batchId == b ==> a in d'.additions && d'.additions[a] == d.additions[a]
    requires forall a :: a in d'.additions && d'.additions[a].batchId == b ==> a in d.additions && d.additions[a] == d'.additions[a]
    ensures FirstCount(d', b) == FirstCount(d, b)
  {
    AddedBeyond(d.additions, b, d.nextAddition, d'.nextAddition);
    AddedSame(d.additions, d'.additions, b, d'.nextAddition);
  }

  lemma RecordedFirstCount(d: Db, i: AdditionRequest, addition: AdditionId, b: BatchId)
    requires Tidy(d) && ValidAddition(i) && i.batchId in d.batches && addition >= d.nextAddition && b in d.batches
    ensures FirstCount(Recorded(d, i, addition), b) == FirstCount(d, b)
  {
    var m' := Recorded(d, i, addition).additions;
    AddedBeyond(d.additions, b, d.nextAddition, addition);
    AddedSame(d.additions, m', b, addition);
  }

  // requested_count is the first count plus every addition: admission sets the
  // first count, and an addition moves the total and its own row together.
  lemma AdmitSetsFirstCount(d: Db, i: Admission, now: Time, d': Db, a: Admitted)
    requires Tidy(d) && AdmitSpec(d, i, now, d', Ok(a)) && a.created
    ensures a.batchId in d'.batches && FirstCount(d', a.batchId) == i.count
  {
    var users :| AdmitCreates(d, i, now, d', a, users);
    AddedNone(d.additions, a.batchId, d.nextAddition);
  }

  lemma {:induction false} AddedNone(m: map<AdditionId, Addition>, b: BatchId, n: AdditionId)
    requires forall a :: a in m ==> m[a].batchId != b
    ensures Added(m, b, n) == 0
  {
    if n > 0 {
      AddedNone(m, b, n - 1);
    }
  }

  lemma AddKeepsFirstCount(d: Db, i: AdditionRequest, d': Db, r: Result<Admitted>, b: BatchId)
    requires Tidy(d) && AddSpec(d, i, d', r) && b in d.batches
    ensures b in d'.batches && FirstCount(d', b) == FirstCount(d, b)
    ensures r.Ok? && r.value.created && b == i.batchId ==> d'.batches[b].requested == d.batches[b].requested + i.count
  {
    if r.Ok? && r.value.created {
      var addition, users :| AddCreates(d, i, d', r.value, addition, users);
      RecordedFirstCount(d, i, addition, b);
    } else {
      SameFirstCount(d, d', b);
    }
  }
}
