// The pool store: its transactions as methods on the database.
module PoolStore {
  import opened Rows
  import opened Protocol
  import opened Transactions
  import opened Tables
  import opened PoolTransactions
  import opened PoolOutcomes
  import opened ConnectionStore

  ghost function Snapshot(db: Database): Db
    reads db
  {
    Db(db.Claims(), db.members, db.batches, db.additions, db.users, db.passkeys, db.nextUser, db.nextBatch, db.nextAddition)
  }

  // ---- reserve ----

  // The loop both reservations share: the first candidate that is not locked,
  // still waits, and takes a reservation.
  method ReserveFirst(db: Database, candidates: seq<SessionId>, skipped: set<SessionId>, times: nat -> Time, freshId: ConnId)
    returns (r: Result<ConnId>)
    modifies db`conns, db`used, db`clock
    ensures Performs(ReserveFrom(old(db.Claims()), candidates, skipped, times, 0, freshId), old(db.Claims()), db.Claims(), r)
  {
    var i := 0;
    while i < |candidates|
      invariant i <= |candidates| && db.Claims() == old(db.Claims())
      invariant ReserveFrom(old(db.Claims()), candidates, skipped, times, 0, freshId)
             == ReserveFrom(old(db.Claims()), candidates, skipped, times, i, freshId)
    {
      var sid := candidates[i];
      i := i + 1;
      if sid in skipped || sid !in db.sessions {
        continue;
      }
      if !db.sessions[sid].status.PoolWaiting? || db.sessions[sid].adminDid.Some? {
        continue;
      }
      var mobile := Change(db, sid, Create, None, true, times(i), freshId);
      if mobile.Fail? && (mobile.error.Conflict? || mobile.error.Cooldown?) {
        continue;
      }
      return mobile;
    }
    r := Fail(Empty);
  }

  // `candidates` is what the query returned of `answered` when the clock read
  // times(0); anything may have committed since.
  method ReserveAnswered(db: Database, ghost eligible: set<BatchId>, ghost answered: Db, candidates: seq<SessionId>,
      skipped: set<SessionId>, times: nat -> Time, freshId: ConnId)
    returns (r: Result<ConnId>)
    requires Inv(db.Claims()) && Readings(times) && freshId !in db.used
    requires Answered(answered, Snapshot(db), eligible, times(0), candidates)
    modifies db`conns, db`used, db`clock
    ensures Performs(ReserveFrom(old(db.Claims()), candidates, skipped, times, 0, freshId), old(db.Claims()), db.Claims(), r)
    ensures r.Ok? ==> Reserves(answered, old(Snapshot(db)), Commit(db.Claims(), r.value), candidates, skipped, times, 0, freshId)
    ensures r.Ok? ==> r.value in db.conns && db.conns[r.value].status.Open? && r.value !in answered.claims.conns
    ensures r.Ok? ==> var sid := db.conns[r.value].sessionId;
      sid in answered.members && answered.members[sid] in eligible && sid !in skipped && Unclaimed(answered.claims, sid, times(0))
    ensures r.Ok? && NoneMade(answered, old(Snapshot(db)), candidates) ==> r.value == freshId
    ensures r.Fail? ==> r == Fail(Empty)
  {
    ghost var d := Snapshot(db);
    ReserveIsExclusive(answered, d, eligible, candidates, skipped, times, 0, freshId);
    r := ReserveFirst(db, candidates, skipped, times, freshId);
    if r.Ok? {
      ghost var k :| 0 <= k < |candidates| && Available(d.claims, candidates, skipped, times, k)
        && (Reserved(d.claims, Commit(db.Claims(), r.value), candidates[k], times(k + 1), freshId)
            || MadeSince(answered.claims, d.claims, Commit(db.Claims(), r.value), candidates[k], times(k + 1)));
      assert candidates[k] in candidates;
    }
  }

  method Reserve(db: Database, batchId: BatchId, ghost answered: Db, candidates: seq<SessionId>, skipped: set<SessionId>,
      times: nat -> Time, freshId: ConnId)
    returns (r: Result<ConnId>)
    requires Inv(db.Claims()) && Readings(times) && freshId !in db.used
    requires Answered(answered, Snapshot(db), {batchId}, times(0), candidates)
    modifies db`conns, db`used, db`clock
    ensures Performs(ReserveFrom(old(db.Claims()), candidates, skipped, times, 0, freshId), old(db.Claims()), db.Claims(), r)
    ensures r.Ok? ==> Reserves(answered, old(Snapshot(db)), Commit(db.Claims(), r.value), candidates, skipped, times, 0, freshId)
    ensures r.Ok? ==> r.value in db.conns && db.conns[r.value].status.Open? && r.value !in answered.claims.conns
    ensures r.Ok? ==> var sid := db.conns[r.value].sessionId;
      sid in answered.members && answered.members[sid] == batchId && sid !in skipped && Unclaimed(answered.claims, sid, times(0))
    ensures r.Ok? && NoneMade(answered, old(Snapshot(db)), candidates) ==> r.value == freshId
    ensures r.Fail? ==> r == Fail(Empty)
  {
    r := ReserveAnswered(db, {batchId}, answered, candidates, skipped, times, freshId);
  }

  method ReservePublic(db: Database, digest: string, ghost answered: Db, candidates: seq<SessionId>,
      skipped: set<SessionId>, times: nat -> Time, freshId: ConnId)
    returns (r: Result<(ConnId, bool)>)
    requires Inv(db.Claims()) && Readings(times) && freshId !in db.used
    requires Answered(answered, Snapshot(db), PublicBatches(answered.batches), times(0), candidates)
    modifies db`conns, db`used, db`clock
    ensures Performs(ReservePublicTx(old(Snapshot(db)), digest, candidates, skipped, times, freshId), old(db.Claims()), db.Claims(), r)
    ensures r.Ok? ==> Bound(db.Claims(), digest, r.value.0)
    ensures r.Ok? && r.value.1 ==> db.conns[r.value.0].status.Open? && r.value.0 !in answered.claims.conns
    ensures r.Ok? && r.value.1 && NoneMade(answered, old(Snapshot(db)), candidates) ==> r.value.0 == freshId
    ensures r.Fail? ==> r.error in {Invalid, PublicDisabled, Empty}
  {
    if |digest| != DIGEST_LENGTH {
      return Fail(Invalid);
    }
    if id :| id in db.conns && db.conns[id].accessDigest == Some(digest) {
      assert Bound(db.Claims(), digest, id);
      return Ok((id, false));
    }
    assert forall id :: !Bound(db.Claims(), digest, id);
    if !exists b :: b in db.batches && db.batches[b].purpose.PublicSignup? && db.batches[b].publicSince.Some? {
      assert forall b :: !PublicEnabled(db.batches, b);
      return Fail(PublicDisabled);
    }
    ghost var b :| b in db.batches && db.batches[b].purpose.PublicSignup? && db.batches[b].publicSince.Some?;
    assert PublicEnabled(db.batches, b);
    var mobile := ReserveBound(db, digest, answered, candidates, skipped, times, freshId);
    r := if mobile.Ok? then Ok((mobile.value, true)) else Fail(mobile.error);
  }

  // Reserves for a digest nobody has, and binds it.
  method ReserveBound(db: Database, digest: string, ghost answered: Db, candidates: seq<SessionId>,
      skipped: set<SessionId>, times: nat -> Time, freshId: ConnId)
    returns (r: Result<ConnId>)
    requires Inv(db.Claims()) && Readings(times) && freshId !in db.used
    requires Answered(answered, Snapshot(db), PublicBatches(answered.batches), times(0), candidates)
    modifies db`conns, db`used, db`clock
    ensures match ReserveFrom(old(db.Claims()), candidates, skipped, times, 0, freshId)
      case Abort(e) => db.Claims() == old(db.Claims()) && r == Fail(e)
      case Commit(c, id) => id in c.conns && db.Claims() == BindDigest(c, id, digest) && r == Ok(id)
    ensures r.Ok? ==> Bound(db.Claims(), digest, r.value) && db.conns[r.value].status.Open? && r.value !in answered.claims.conns
    ensures r.Ok? && NoneMade(answered, old(Snapshot(db)), candidates) ==> r.value == freshId
    ensures r.Fail? ==> r.error == Empty
  {
    r := ReserveAnswered(db, PublicBatches(answered.batches), answered, candidates, skipped, times, freshId);
    if r.Ok? {
      db.conns := db.conns[r.value := db.conns[r.value].(accessDigest := Some(digest))];
    }
  }

  method SetPublicSignup(db: Database, batchId: BatchId, enabled: bool, now: Time) returns (r: Result<()>)
    modifies db`batches
    ensures match SetPublicTx(old(Snapshot(db)), batchId, enabled, now)
      case Ok(d) => Snapshot(db) == d && r.Ok?
      case Fail(e) => Snapshot(db) == old(Snapshot(db)) && r == Fail(e)
  {
    if batchId !in db.batches {
      return Fail(NotFound);
    }
    var batch := db.batches[batchId];
    if !batch.purpose.PublicSignup? || batch.cleanupAt.Some? {
      return Fail(Conflict);
    }
    if enabled {
      if batch.publicSince.Some? {
        return Ok(());
      }
      db.batches := db.batches[batchId := batch.(publicSince := Some(now))];
      return Ok(());
    }
    db.batches := db.batches[batchId := batch.(publicSince := None)];
    r := Ok(());
  }

  // ---- confirm, reject, retry ----

  method Confirm(db: Database, id: ConnId, confirmed: Time, started: Time) returns (r: Result<ConnId>)
    modifies db`sessions, db`conns, db`clock
    ensures Performs(PoolConfirmTx(old(Snapshot(db)), id, confirmed, started), old(db.Claims()), db.Claims(), r)
  {
    if id !in db.conns {
      return Fail(NotFound);
    }
    var sid := db.conns[id].sessionId;
    if sid !in db.members {
      return Fail(Conflict);
    }
    var conns := db.conns;
    ghost var clock := db.clock;
    var done := ConnectionStore.Confirm(db, sid, id, confirmed);
    if done.Fail? {
      var current := db.conns[id];
      if current.status in {Confirmed, ConnStatus.Provisioning, Released} {
        return Ok(id);
      }
      return done;
    }
    r := StartProvisioning(db, id, started);
    if r.Fail? {
      db.conns, db.clock := conns, clock; // the whole transaction rolls back
    }
  }

  method Reject(db: Database, id: ConnId, now: Time) returns (r: Result<ConnId>)
    modifies db`conns, db`used, db`clock
    ensures Performs(PoolRejectTx(old(Snapshot(db)), id, now), old(db.Claims()), db.Claims(), r)
  {
    if id !in db.conns {
      return Fail(NotFound);
    }
    var candidate := db.conns[id];
    if candidate.sessionId !in db.members {
      return Fail(Conflict);
    }
    match candidate.status {
      case Open => r := Change(db, candidate.sessionId, Action.Cancel, Some(id), false, now, 0);
      case Claimed => r := ConnectionStore.Reject(db, candidate.sessionId, id, now);
      case _ => r := Fail(Conflict);
    }
  }

  method RetryActivation(db: Database, sid: SessionId) returns (r: Result<()>)
    modifies db`sessions
    ensures Performs(RetryActivationTx(old(Snapshot(db)), sid), old(db.Claims()), db.Claims(), r)
  {
    if sid !in db.members {
      return Fail(Conflict);
    }
    if sid !in db.sessions {
      return Fail(NotFound);
    }
    var session := db.sessions[sid];
    if !session.status.Failed? || session.adminDid.None? {
      return Fail(Conflict);
    }
    if id :| id in db.conns && RetryRow(session, sid, db.conns[id]) {
      assert Retryable(db.Claims(), sid, id);
      db.sessions := db.sessions[sid := session.(status := SessionStatus.Provisioning)];
      return Ok(());
    }
    assert forall id :: !Retryable(db.Claims(), sid, id);
    r := Fail(Conflict);
  }

  method RetryBuild(db: Database, sid: SessionId) returns (r: Result<()>)
    modifies db`sessions
    ensures Performs(RetryBuildTx(old(Snapshot(db)), sid), old(db.Claims()), db.Claims(), r)
  {
    if sid !in db.members {
      return Fail(Conflict);
    }
    if sid !in db.sessions {
      return Fail(NotFound);
    }
    var session := db.sessions[sid];
    if !session.status.Failed? || session.adminDid.Some? {
      return Fail(Conflict);
    }
    if exists id :: id in db.conns && db.conns[id].sessionId == sid && db.conns[id].confirmedAt.Some? {
      assert exists id :: Of(db.Claims(), id, sid) && db.conns[id].confirmedAt.Some?;
      return Fail(Conflict);
    }
    db.sessions := db.sessions[sid := session.(status := PoolCreating)];
    r := Ok(());
  }

  // The runner's two error records; only the first touches the status.
  method RecordBuildError(db: Database, sid: SessionId)
    modifies db`sessions
    ensures db.Claims() == BuildErrorTx(old(db.Claims()), sid)
  {
    if sid in db.sessions && !db.sessions[sid].status.Deleting? {
      db.sessions := db.sessions[sid := db.sessions[sid].(status := SessionStatus.Failed)];
    }
  }

  // ---- cleanup ----

  // Whether every one of these members is unused: waiting or failed, without
  // an administrator, and its user anonymous, without passkey, and only its own.
  method SessionsDisposable(db: Database, ids: seq<SessionId>) returns (ok: bool)
    requires forall i, j :: 0 <= i < j < |ids| ==> ids[i] != ids[j]
    ensures var d := Snapshot(db);
      ok <==> && (forall sid :: sid in ids ==> sid in d.members && sid in d.claims.sessions && DisposableSession(d, sid))
              && (forall i, j :: 0 <= i < j < |ids| ==> d.claims.sessions[ids[i]].userId != d.claims.sessions[ids[j]].userId)
  {
    var owners: set<UserId> := {};
    var i := 0;
    while i < |ids|
      invariant i <= |ids|
      invariant forall k :: 0 <= k < i ==> ids[k] in db.members && ids[k] in db.sessions && DisposableSession(Snapshot(db), ids[k])
      invariant forall u :: u in owners <==> exists k :: 0 <= k < i && db.sessions[ids[k]].userId == u
      invariant forall k, l :: 0 <= k < l < i ==> db.sessions[ids[k]].userId != db.sessions[ids[l]].userId
    {
      var sid := ids[i];
      assert sid in ids;
      if sid !in db.members || sid !in db.sessions {
        return false;
      }
      var s := db.sessions[sid];
      if s.adminDid.Some? || (!s.status.PoolWaiting? && !s.status.Failed?) || s.userId in owners {
        return false;
      }
      if s.userId !in db.users || db.users[s.userId].hasEmail || db.users[s.userId].fullstackAccess || s.userId in db.passkeys {
        return false;
      }
      owners := owners + {s.userId};
      i := i + 1;
    }
    ok := true;
  }

  // The two conditional updates that lapse what has expired.
  method LapseExpired(db: Database, ids: seq<SessionId>, now: Time)
    modifies db`conns
    ensures db.conns == LapseExpiredOf(old(db.conns), Named(ids), now)
  {
    db.conns := map id | id in db.conns ::
      var row := db.conns[id];
      if row.sessionId in ids && row.status.Open? && row.expiresAt <= now then row.(status := Lapsed) else row;
    db.conns := map id | id in db.conns ::
      var row := db.conns[id];
      if row.sessionId in ids && row.status.Claimed? && row.confirmBy.Some? && row.confirmBy.value <= now
      then row.(status := Lapsed, adminDid := None) else row;
  }

  method MarkDeleting(db: Database, ids: seq<SessionId>)
    modifies db`sessions
    ensures db.sessions == DeletingAll(old(db.sessions), Named(ids))
  {
    db.sessions := map sid | sid in db.sessions ::
      if sid in ids then db.sessions[sid].(status := Deleting) else db.sessions[sid];
  }

  // Expired reservations lapse first; if any other one is left, nothing happened.
  method QueueCleanupBulk(db: Database, ids: seq<SessionId>, now: Time) returns (r: Result<()>)
    requires forall i, j :: 0 <= i < j < |ids| ==> ids[i] != ids[j]
    modifies db`sessions, db`conns, db`clock
    ensures Performs(CleanupTx(old(Snapshot(db)), Named(ids), now), old(db.Claims()), db.Claims(), r)
  {
    ghost var d := Snapshot(db);
    var ok := SessionsDisposable(db, ids);
    if !ok {
      DisposableByIndex(d, ids, now);
      return Fail(Conflict);
    }
    var conns := db.conns;
    LapseExpired(db, ids, now);
    if exists id :: id in db.conns && db.conns[id].sessionId in ids && Claiming(db.conns[id]) {
      LeftoverClaim(d, ids, now, db.conns);
      db.conns := conns;
      return Fail(Conflict);
    }
    NothingLeft(d, ids, now, db.conns);
    DisposableByIndex(d, ids, now);
    MarkDeleting(db, ids);
    db.clock := now;
    r := Ok(());
  }

  predicate Claiming(r: Connection) {
    r.confirmedAt.Some? || r.status.Open? || r.status.Claimed? || r.status.Confirmed? || r.status.Provisioning? || r.status.Released?
  }

  lemma DisposableByIndex(d: Db, ids: seq<SessionId>, now: Time)
    ensures Disposable(d, Named(ids), now) ==>
      && (forall sid :: sid in ids ==> sid in d.members && sid in d.claims.sessions && DisposableSession(d, sid))
      && ((forall i, j :: 0 <= i < j < |ids| ==> ids[i] != ids[j]) ==>
          forall i, j :: 0 <= i < j < |ids| ==> d.claims.sessions[ids[i]].userId != d.claims.sessions[ids[j]].userId)
    ensures
      && (forall sid :: sid in ids ==> sid in d.members && sid in d.claims.sessions && DisposableSession(d, sid))
      && (forall i, j :: 0 <= i < j < |ids| ==> d.claims.sessions[ids[i]].userId != d.claims.sessions[ids[j]].userId)
      && (forall id :: id in d.claims.conns && d.claims.conns[id].sessionId in ids ==>
          d.claims.conns[id].confirmedAt.None? && ExpiredOrOver(d.claims.conns[id], now))
      ==> Disposable(d, Named(ids), now)
  {
  }

  lemma LeftoverClaim(d: Db, ids: seq<SessionId>, now: Time, conns: map<ConnId, Connection>)
    requires conns == LapseExpiredOf(d.claims.conns, Named(ids), now)
    requires exists id :: id in conns && conns[id].sessionId in ids && Claiming(conns[id])
    ensures !Disposable(d, Named(ids), now)
  {
  }

  lemma NothingLeft(d: Db, ids: seq<SessionId>, now: Time, conns: map<ConnId, Connection>)
    requires conns == LapseExpiredOf(d.claims.conns, Named(ids), now)
    requires !exists id :: id in conns && conns[id].sessionId in ids && Claiming(conns[id])
    ensures forall id :: id in d.claims.conns && d.claims.conns[id].sessionId in ids ==>
      d.claims.conns[id].confirmedAt.None? && ExpiredOrOver(d.claims.conns[id], now)
  {
    forall id | id in d.claims.conns && d.claims.conns[id].sessionId in ids
      ensures d.claims.conns[id].confirmedAt.None? && ExpiredOrOver(d.claims.conns[id], now)
    {
      assert !Claiming(conns[id]);
    }
  }

  // The sort that fixes the locking order does not change what is cleaned up.
  method QueueCleanup(db: Database, ids: seq<SessionId>, now: Time) returns (r: Result<()>)
    modifies db`sessions, db`conns, db`clock
    ensures Performs(QueueCleanupTx(old(Snapshot(db)), ids, now), old(db.Claims()), db.Claims(), r)
  {
    if |ids| < 1 {
      return Fail(Conflict);
    }
    if exists i, j :: 0 <= i < j < |ids| && ids[i] == ids[j] {
      return Fail(Conflict);
    }
    r := QueueCleanupBulk(db, ids, now);
  }

  // `ids` are the members of the batch as the query lists them.
  method QueueBatchCleanup(db: Database, batchId: BatchId, ids: seq<SessionId>, now: Time,
      stamped: Time) returns (r: Result<seq<SessionId>>)
    requires Named(ids) == MembersOf(Snapshot(db), batchId)
    requires forall i, j :: 0 <= i < j < |ids| ==> ids[i] != ids[j]
    modifies db`sessions, db`conns, db`batches, db`additions, db`clock
    ensures match BatchCleanupTx(old(Snapshot(db)), batchId, now, stamped)
      case Ok(d) => Snapshot(db) == d && r == Ok(ids)
      case Fail(e) => Snapshot(db) == old(Snapshot(db)) && r == Fail(e)
  {
    if batchId !in db.batches {
      return Fail(NotFound);
    }
    var batch := db.batches[batchId];
    if batch.cleanupAt.Some? {
      return Ok(ids);
    }
    if |ids| == 0 {
      DeleteBatch(db, batchId);
      return Ok(ids);
    }
    BatchCleanupIs(Snapshot(db), batchId, ids, now, stamped);
    var queued := QueueMembers(db, batchId, ids, now, stamped);
    r := if queued.Fail? then Fail(queued.error) else Ok(ids);
  }

  lemma BatchCleanupIs(d: Db, batchId: BatchId, ids: seq<SessionId>, now: Time, stamped: Time)
    requires batchId in d.batches && d.batches[batchId].cleanupAt.None? && |ids| > 0
    requires Named(ids) == MembersOf(d, batchId)
    ensures BatchCleanupTx(d, batchId, now, stamped) == BatchOutcome(d, batchId, CleanupTx(d, Named(ids), now), stamped)
  {
    assert ids[0] in Named(ids);
  }

  method QueueMembers(db: Database, batchId: BatchId, ids: seq<SessionId>, now: Time, stamped: Time) returns (r: Result<()>)
    requires batchId in db.batches && forall i, j :: 0 <= i < j < |ids| ==> ids[i] != ids[j]
    modifies db`sessions, db`conns, db`batches, db`clock
    ensures var d := old(Snapshot(db));
      match BatchOutcome(d, batchId, CleanupTx(d, Named(ids), now), stamped)
      case Ok(d') => Snapshot(db) == d' && r.Ok?
      case Fail(e) => Snapshot(db) == d && r == Fail(e)
  {
    r := QueueCleanupBulk(db, ids, now);
    if r.Ok? {
      db.batches := db.batches[batchId := db.batches[batchId].(cleanupAt := Some(stamped))];
    }
  }

  // Its additions go with a batch.
  method DeleteBatch(db: Database, batchId: BatchId)
    modifies db`batches, db`additions
    ensures db.batches == old(db.batches) - {batchId}
    ensures db.additions == WithoutBatch(old(db.additions), batchId)
  {
    db.batches := db.batches - {batchId};
    db.additions := map a | a in db.additions && db.additions[a].batchId != batchId :: db.additions[a];
  }

  method FinalizeBatchCleanup(db: Database, batchId: BatchId)
    modifies db`batches, db`additions
    ensures Snapshot(db) == FinalizeTx(old(Snapshot(db)), batchId)
  {
    if batchId in db.batches && db.batches[batchId].cleanupAt.Some? && Emptied(db.members, batchId) {
      DeleteBatch(db, batchId);
    }
  }

  // A session goes with its reservations, unless a membership still refers to it.
  method DeleteSessionRow(db: Database, sid: SessionId) returns (ok: bool)
    modifies db`sessions, db`conns
    ensures ok <==> sid !in db.members
    ensures db.Claims() == if ok then DeleteSession(old(db.Claims()), sid) else old(db.Claims())
  {
    if sid in db.members {
      return false;
    }
    db.sessions := db.sessions - {sid};
    db.conns := map id | id in db.conns && db.conns[id].sessionId != sid :: db.conns[id];
    ok := true;
  }

  // A close fails exactly when it is held back.
  ghost function Closed(d: Db, sid: SessionId, userId: UserId, membership: Option<BatchId>): Result<()> {
    if !HeldBack(d, sid, userId, membership) then Ok(()) else Fail(if membership.Some? then NotFound else Conflict)
  }

  // The closing transaction of a teardown.
  method CloseTeardown(db: Database, sid: SessionId, userId: UserId, membership: Option<BatchId>) returns (r: Result<()>)
    modifies db`sessions, db`conns, db`members, db`users, db`batches, db`additions
    ensures Snapshot(db) == CloseTx(old(Snapshot(db)), sid, userId, membership)
    ensures r == Closed(old(Snapshot(db)), sid, userId, membership)
  {
    if membership.None? {
      var ok := DeleteSessionRow(db, sid);
      return if ok then Ok(()) else Fail(Conflict);
    }
    UnkeptOwnsNone(Snapshot(db), sid, userId);
    r := CloseMember(db, sid, userId, membership.value);
  }

  method CloseMember(db: Database, sid: SessionId, userId: UserId, batchId: BatchId) returns (r: Result<()>)
    modifies db`sessions, db`conns, db`members, db`users, db`batches, db`additions
    ensures Snapshot(db) == CloseMemberTx(old(Snapshot(db)), sid, userId, batchId)
    ensures r == if OwnsNone(old(db.sessions) - {sid}, userId) && userId !in old(db.users) then Fail(NotFound) else Ok(())
  {
    var sessions, conns, members := db.sessions, db.conns, db.members;
    db.members := db.members - {sid};
    var _ := DeleteSessionRow(db, sid);
    r := DeleteIdleUser(db, userId);
    if r.Fail? {
      db.sessions, db.conns, db.members := sessions, conns, members;
      return;
    }
    DeleteEmptyBatch(db, batchId);
  }

  // An anonymous user goes with their last session.
  method DeleteIdleUser(db: Database, userId: UserId) returns (r: Result<()>)
    modifies db`users
    ensures r == if OwnsNone(db.sessions, userId) && userId !in old(db.users) then Fail(NotFound) else Ok(())
    ensures db.users == if r.Ok? && OwnsNone(db.sessions, userId) && !old(db.users)[userId].hasEmail
                            && userId !in db.passkeys && !old(db.users)[userId].fullstackAccess
                        then old(db.users) - {userId} else old(db.users)
  {
    r := Ok(());
    if OwnsNone(db.sessions, userId) {
      if userId !in db.users {
        return Fail(NotFound);
      }
      var user := db.users[userId];
      if !user.hasEmail && userId !in db.passkeys && !user.fullstackAccess {
        db.users := db.users - {userId};
      }
    }
  }

  method DeleteEmptyBatch(db: Database, batchId: BatchId)
    modifies db`batches, db`additions
    ensures var over := Emptied(db.members, batchId) && batchId in old(db.batches) && old(db.batches)[batchId].cleanupAt.Some?;
      && db.batches == (if over then old(db.batches) - {batchId} else old(db.batches))
      && db.additions == (if over then WithoutBatch(old(db.additions), batchId) else old(db.additions))
  {
    if Emptied(db.members, batchId) {
      if batchId in db.batches && db.batches[batchId].cleanupAt.Some? {
        DeleteBatch(db, batchId);
      }
    }
  }

  // ---- the runner ----

  // What the others have made of the tables by the next transaction.
  method OthersWrite(db: Database, d: Db)
    modifies db`sessions, db`conns, db`members, db`batches, db`additions, db`users, db`passkeys, db`nextSession, db`nextUser, db`nextBatch, db`nextAddition, db`used, db`clock
    ensures Snapshot(db) == d
  {
    db.sessions, db.conns, db.members := d.claims.sessions, d.claims.conns, d.members;
    db.batches, db.additions, db.users, db.passkeys := d.batches, d.additions, d.users, d.passkeys;
    db.nextSession, db.nextUser, db.nextBatch, db.nextAddition := d.claims.nextSession, d.nextUser, d.nextBatch, d.nextAddition;
    db.used, db.clock := d.claims.used, d.claims.clock;
  }

  // What the cleanup saw of a session before it stopped and closed it.
  ghost predicate SeenUnused(read: Claims, counted: Claims, sid: SessionId) {
    && sid in read.sessions && read.sessions[sid].status.Deleting? && read.sessions[sid].adminDid.None?
    && forall id :: Of(counted, id, sid) ==> counted.conns[id].confirmedAt.None?
  }

  // The later reads of a cleanup: whether a reservation was confirmed.
  method CountConfirmed(db: Database, sid: SessionId, counted: Db) returns (none: bool)
    modifies db`sessions, db`conns, db`members, db`batches, db`additions, db`users, db`passkeys, db`nextSession, db`nextUser, db`nextBatch, db`nextAddition, db`used, db`clock
    ensures Snapshot(db) == counted
    ensures none <==> forall id :: Of(counted.claims, id, sid) ==> counted.claims.conns[id].confirmedAt.None?
  {
    OthersWrite(db, counted);
    none := true;
    if id :| id in db.conns && db.conns[id].sessionId == sid && db.conns[id].confirmedAt.Some? {
      assert Of(counted.claims, id, sid);
      none := false;
    }
  }

  // Stops the session, reads its membership again, then closes it.
  method StopAndClose(db: Database, sid: SessionId, userId: UserId, stopping: Db, reread: Db, closing: Db)
    returns (r: Result<()>, ghost stopped: Db)
    modifies db`sessions, db`conns, db`members, db`batches, db`additions, db`users, db`passkeys, db`nextSession, db`nextUser, db`nextBatch, db`nextAddition, db`used, db`clock
    ensures sid !in stopping.claims.sessions ==> r == Fail(NotFound) && Snapshot(db) == stopping
    ensures sid in stopping.claims.sessions ==>
      var membership := if sid in reread.members then Some(reread.members[sid]) else None;
      && stopped == stopping.(claims := StopTx(stopping.claims, sid).claims)
      && Snapshot(db) == CloseTx(closing, sid, userId, membership) && r == Closed(closing, sid, userId, membership)
  {
    OthersWrite(db, stopping);
    r := Stop(db, sid);
    stopped := Snapshot(db);
    if r.Fail? {
      return;
    }
    OthersWrite(db, reread);
    var membership := if sid in db.members then Some(db.members[sid]) else None;
    OthersWrite(db, closing);
    r := CloseTeardown(db, sid, userId, membership);
  }

  // Finishing a queued cleanup, in steps between which anything may commit: the
  // session and its membership are read at d, then its confirmed reservations
  // counted, then it is stopped, its membership read again, then closed. Nothing
  // to do for what is gone or no member, refusal of anything that may have been
  // handed over.
  ghost predicate CleansUp(d: Db, sid: SessionId, counted: Db, stopping: Db, reread: Db, closing: Db, after: Db, stopped: Db,
      r: Result<()>)
  {
    if sid !in d.claims.sessions || sid !in d.members then r.Ok? && after == d
    else if !d.claims.sessions[sid].status.Deleting? || d.claims.sessions[sid].adminDid.Some? then r == Fail(Conflict) && after == d
    else if !SeenUnused(d.claims, counted.claims, sid) then r == Fail(Conflict) && after == counted
    else if sid !in stopping.claims.sessions then r == Fail(NotFound) && after == stopping
    else
      var membership := if sid in reread.members then Some(reread.members[sid]) else None;
      && stopped == stopping.(claims := StopTx(stopping.claims, sid).claims)
      && after == CloseTx(closing, sid, d.claims.sessions[sid].userId, membership)
      && r == Closed(closing, sid, d.claims.sessions[sid].userId, membership)
  }

  method CleanupPoolSession(db: Database, sid: SessionId, counted: Db, stopping: Db, reread: Db, closing: Db)
    returns (r: Result<()>, ghost stopped: Db)
    modifies db`sessions, db`conns, db`members, db`batches, db`additions, db`users, db`passkeys, db`nextSession, db`nextUser, db`nextBatch, db`nextAddition, db`used, db`clock
    ensures CleansUp(old(Snapshot(db)), sid, counted, stopping, reread, closing, Snapshot(db), stopped, r)
    ensures r.Ok? && sid in old(db.sessions) && sid in old(db.members) ==> SeenUnused(old(db.Claims()), counted.claims, sid)
  {
    stopped := stopping;
    if sid !in db.sessions || sid !in db.members {
      return Ok(()), stopped;
    }
    var session := db.sessions[sid];
    if !session.status.Deleting? || session.adminDid.Some? {
      return Fail(Conflict), stopped;
    }
    var none := CountConfirmed(db, sid, counted);
    if !none {
      return Fail(Conflict), stopped;
    }
    r, stopped := StopAndClose(db, sid, session.userId, stopping, reread, closing);
  }

  // So whatever runs in between, a cleanup destroys only what was never handed
  // over.
  lemma CleanupIsSafe(read: Claims, counted: Claims, closing: Claims, sid: SessionId, a: ConnId)
    requires Inv(read) && Inv(counted) && Inv(closing) && Later(read, counted) && Later(counted, closing)
    requires SeenUnused(read, counted, sid) && sid in counted.sessions && sid in closing.sessions
    ensures Cleanable(closing, sid)
    ensures Of(read, a, sid) ==> read.conns[a].confirmedAt.None?
    ensures Of(closing, a, sid) ==> closing.conns[a].confirmedAt.None? && !Provisioned(closing, a, sid)
  {
    LaterReflexive(read);
    CleanupDestroysOnlyUnused(read, read, counted, closing, sid, a);
    if Of(closing, a, sid) {
      assert RowOk(closing.conns[a]);
    }
  }

  // One turn of a worker. `progress` is where preparing and building took the
  // session on the tables they found, `built` whether they went well; whatever
  // commits in between, what they write is put on what it finds.
  method RunOne(db: Database, sid: SessionId, progress: Option<(SessionStatus, Did)>, built: bool, working: Db, failing: Db,
      counted: Db, stopping: Db, reread: Db, closing: Db)
    returns (r: Result<()>, ghost between: Db)
    modifies db`sessions, db`conns, db`members, db`batches, db`additions, db`users, db`passkeys, db`nextSession, db`nextUser, db`nextBatch, db`nextAddition, db`used, db`clock
    ensures var d := old(Snapshot(db));
      if sid !in d.claims.sessions || d.claims.sessions[sid].status in {PoolWaiting, Running, SessionStatus.Failed} then
        r.Ok? && Snapshot(db) == d
      else if d.claims.sessions[sid].status.Deleting? then
        CleansUp(d, sid, counted, stopping, reread, closing, Snapshot(db), between, r)
      else
        && r.Ok? && between == Progressed(working, sid, progress)
        && Snapshot(db) == if built then between else failing.(claims := BuildErrorTx(failing.claims, sid))
  {
    r, between := Ok(()), working;
    if sid !in db.sessions {
      return;
    }
    var session := db.sessions[sid];
    if session.status.Deleting? {
      r, between := CleanupPoolSession(db, sid, counted, stopping, reread, closing);
      return;
    }
    if session.status in {PoolWaiting, Running, SessionStatus.Failed} {
      return;
    }
    OthersWrite(db, working);
    WriteProgress(db, sid, progress);
    between := Snapshot(db);
    if !built {
      OthersWrite(db, failing);
      RecordBuildError(db, sid);
    }
  }

  ghost function Progressed(d: Db, sid: SessionId, progress: Option<(SessionStatus, Did)>): Db {
    if progress.Some? then d.(claims := OrchestrateTx(d.claims, sid, progress.value.0, progress.value.1)) else d
  }

  method WriteProgress(db: Database, sid: SessionId, progress: Option<(SessionStatus, Did)>)
    modifies db`sessions
    ensures Snapshot(db) == Progressed(old(Snapshot(db)), sid, progress)
  {
    if progress.Some? && !progress.value.0.Deleting? && sid in db.sessions && !db.sessions[sid].status.Deleting? {
      db.sessions := db.sessions[sid := db.sessions[sid].(status := progress.value.0, vtaDid := progress.value.1)];
    }
  }
}
