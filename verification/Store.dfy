// The connection store: the database as an object, and its transactions as
// methods that write row by row and put everything back when they fail.
module Tables {
  import opened Rows
  import opened Protocol

  class Database {
    var sessions: map<SessionId, Session>
    var conns: map<ConnId, Connection>
    var members: map<SessionId, BatchId>
    var batches: map<BatchId, Batch>
    var additions: map<AdditionId, Addition>
    var users: map<UserId, User>
    var passkeys: set<UserId>
    // The sequences the ids come from.
    var nextSession: SessionId
    var nextUser: UserId
    var nextBatch: BatchId
    var nextAddition: AdditionId
    ghost var used: set<ConnId>
    ghost var clock: Time

    ghost function Claims(): Claims
      reads this
    {
      Protocol.Claims.Claims(sessions, conns, used, nextSession, clock)
    }
  }
}

module ConnectionStore {
  import opened Rows
  import opened Protocol
  import opened Transactions
  import opened Tables
  import DidKey

  // The transaction did what its specification says, or failed without a trace.
  ghost predicate Performs<T>(o: Outcome<T>, before: Claims, after: Claims, r: Result<T>) {
    match o
    case Commit(claims, value) => after == claims && r == Ok(value)
    case Abort(error) => after == before && r == Fail(error)
  }

  method Current(db: Database, sid: SessionId) returns (o: Option<ConnId>)
    ensures o == CurrentOf(db.Claims(), sid)
  {
    o := None;
    var rest := db.conns.Keys;
    ghost var seen: set<ConnId> := {};
    ghost var c := db.Claims();
    while rest != {}
      invariant seen + rest == c.conns.Keys
      invariant o.None? ==> forall id :: id in seen ==> c.conns[id].sessionId != sid
      invariant o.Some? ==> o.value in seen && Of(c, o.value, sid)
      invariant o.Some? ==> forall id :: id in seen && Of(c, id, sid) ==> Newer(c.conns[o.value], o.value, c.conns[id], id)
      decreases |rest|
    {
      var id :| id in rest;
      var r := db.conns[id];
      if r.sessionId == sid && (o.None? || Newer(r, id, db.conns[o.value], o.value)) {
        o := Some(id);
      }
      rest, seen := rest - {id}, seen + {id};
    }
    assert IsCurrent(c, sid, o);
    CurrentUnique(c, sid, o, CurrentOf(c, sid));
  }

  method Change(db: Database, sid: SessionId, action: Action, expected: Option<ConnId>, pooled: bool, now: Time,
      freshId: ConnId)
    returns (r: Result<ConnId>)
    modifies db`conns, db`used, db`clock
    ensures Performs(ChangeTx(old(db.Claims()), sid, action, expected, pooled, now, freshId), old(db.Claims()), db.Claims(), r)
  {
    if sid !in db.sessions {
      return Fail(NotFound);
    }
    var s := db.sessions[sid];
    var current := Current(db, sid);
    if expected.Some? && current != expected {
      return Fail(Conflict);
    }
    if action.Cancel? {
      if current.None? || !db.conns[current.value].status.Open? {
        return Fail(Conflict);
      }
      db.conns := db.conns[current.value := db.conns[current.value].(status := Lapsed, adminDid := None)];
      db.clock := now;
      return Ok(current.value);
    }
    var operation := OperationFor(s, s.vtaDid);
    if operation.None? {
      return Fail(Conflict);
    }
    var isPool := s.status.PoolWaiting?;
    if isPool != pooled || (isPool && !operation.value.ProvisionVta?) {
      return Fail(Conflict);
    }
    if current.Some? {
      var row := db.conns[current.value];
      match row.status {
        case Claimed => return Fail(Conflict);
        case Confirmed => return Fail(Conflict);
        case Provisioning => return Fail(Conflict);
        case Open =>
          if now < row.expiresAt && action.Create? {
            db.clock := now;
            return Ok(current.value);
          }
          if now - row.createdAt < COOLDOWN {
            return Fail(Cooldown);
          }
          db.conns := db.conns[current.value := row.(status := Lapsed)];
        case _ =>
          if !Final(row.status) {
            return Fail(Conflict);
          }
          if now - row.createdAt < COOLDOWN {
            return Fail(Cooldown);
          }
      }
    }
    db.conns := db.conns[freshId := NewConnection(s, sid, operation.value, now)];
    db.used := db.used + {freshId};
    db.clock := now;
    r := Ok(freshId);
  }

  method Claim(db: Database, handle: ConnId, value: string, replay: Replay, now: Time) returns (r: Result<ConnId>)
    modifies db`conns, db`clock
    ensures Performs(ClaimTx(old(db.Claims()), handle, value, replay, now), old(db.Claims()), db.Claims(), r)
  {
    var did := DidKey.ValidateAdminDID(value);
    if did.Err? {
      return Fail(InvalidDid);
    }
    if handle !in db.conns || db.conns[handle].sessionId !in db.sessions {
      return Fail(NotFound);
    }
    var before := db.conns;
    var row := db.conns[handle];
    var s := db.sessions[row.sessionId];
    if !row.status.Open? {
      if row.status.Claimed? || row.status.Confirmed? || row.status.Provisioning? || row.status.Released? {
        return Fail(AlreadyClaimed);
      }
      return Fail(Error.Expired);
    }
    if now >= row.expiresAt {
      db.conns := db.conns[handle := row.(status := Lapsed)];
      db.conns := before; // the error rolls the lapse back
      return Fail(Error.Expired);
    }
    var operation := OperationFor(s, row.vtaDid);
    if operation.None? {
      return Fail(Conflict);
    }
    db.conns := db.conns[handle := ClaimedRow(row, operation.value, did.value, now)];
    if replay.NotExecuting? {
      db.conns := before; // so does a replay row that is no longer executing
      return Fail(ReplayInactive);
    }
    db.clock := now;
    r := Ok(handle);
  }

  method Confirm(db: Database, sid: SessionId, id: ConnId, now: Time) returns (r: Result<ConnId>)
    modifies db`conns, db`clock
    ensures Performs(ConfirmTx(old(db.Claims()), sid, id, now), old(db.Claims()), db.Claims(), r)
  {
    if sid !in db.sessions || id !in db.conns || db.conns[id].sessionId != sid {
      return Fail(NotFound);
    }
    var before := db.conns;
    var row := db.conns[id];
    if !row.status.Claimed? || row.confirmBy.None? || now >= row.confirmBy.value {
      if row.status.Claimed? {
        db.conns := db.conns[id := row.(status := Lapsed, adminDid := None)];
      }
      db.conns := before;
      return Fail(Error.Expired);
    }
    db.conns := db.conns[id := row.(status := Confirmed, confirmedAt := Some(now))];
    db.clock := now;
    r := Ok(id);
  }

  method Reject(db: Database, sid: SessionId, id: ConnId, now: Time) returns (r: Result<ConnId>)
    modifies db`conns, db`clock
    ensures Performs(RejectTx(old(db.Claims()), sid, id, now), old(db.Claims()), db.Claims(), r)
  {
    if sid !in db.sessions || id !in db.conns || db.conns[id].sessionId != sid {
      return Fail(NotFound);
    }
    var before := db.conns;
    var row := db.conns[id];
    if !row.status.Claimed? {
      return Fail(Conflict);
    }
    if row.confirmBy.None? || now >= row.confirmBy.value {
      db.conns := db.conns[id := row.(status := Lapsed, adminDid := None)];
      db.conns := before;
      return Fail(Error.Expired);
    }
    db.conns := db.conns[id := row.(status := Rejected, adminDid := None)];
    db.clock := now;
    r := Ok(id);
  }

  method StartProvisioning(db: Database, id: ConnId, now: Time) returns (r: Result<ConnId>)
    modifies db`sessions, db`conns, db`clock
    ensures Performs(StartTx(old(db.Claims()), id, now), old(db.Claims()), db.Claims(), r)
  {
    if id !in db.conns || db.conns[id].sessionId !in db.sessions {
      return Fail(NotFound);
    }
    var row := db.conns[id];
    var s := db.sessions[row.sessionId];
    if row.status.Provisioning? || row.status.Released? {
      return Ok(id);
    }
    if !row.status.Confirmed? {
      return Fail(Conflict);
    }
    match row.operation {
      case ProvisionVta =>
        if s.status.PoolWaiting? && row.confirmedAt.None? {
          return Fail(Conflict);
        }
        db.sessions := db.sessions[row.sessionId := BeginProvision(s, row.adminDid)];
      case GrantAcl =>
        if !s.status.Running? || s.vtaDid != row.vtaDid {
          return Fail(Conflict);
        }
      case NoOperation =>
        return Fail(Conflict);
    }
    db.conns := db.conns[id := row.(status := ConnStatus.Provisioning)];
    db.clock := now;
    r := Ok(id);
  }

  method MarkReleased(db: Database, id: ConnId, now: Time) returns (r: Result<()>)
    modifies db`conns, db`clock
    ensures Performs(ReleaseTx(old(db.Claims()), id, now), old(db.Claims()), db.Claims(), r)
  {
    if id !in db.conns {
      return Fail(NotFound);
    }
    var row := db.conns[id];
    if row.status.Released? {
      return Ok(());
    }
    if !row.status.Provisioning? {
      return Fail(Conflict);
    }
    db.conns := db.conns[id := row.(status := Released, releasedAt := Some(now))];
    db.clock := now;
    r := Ok(());
  }

  method MarkFailed(db: Database, id: ConnId)
    modifies db`conns
    ensures db.Claims() == FailTx(old(db.Claims()), id)
  {
    if id in db.conns && db.conns[id].operation.GrantAcl? && db.conns[id].status in {Confirmed, ConnStatus.Provisioning} {
      db.conns := db.conns[id := db.conns[id].(status := ConnStatus.Failed)];
    }
  }

  // `stale`, `s` and `now` were read before, and anything may have committed
  // since. The copy decides which one of the three updates is tried, and follows
  // what it did.
  method Reconcile(db: Database, id: ConnId, stale: Connection, s: Session, now: Time, released: Time)
    returns (r: Result<()>, copy: Connection)
    modifies db`conns, db`clock
    ensures var c := old(db.Claims());
      if ReleaseDue(stale, s) then Performs(ReleaseTx(c, id, released), c, db.Claims(), r)
      else
        && r == Ok(())
        && db.Claims() == (if stale.status.Open? then ReconcileOpenTx(c, id, stale, now) else ReconcileClaimedTx(c, id, stale, now))
    ensures copy.status != stale.status ==> id in db.conns && db.conns[id].status == copy.status
    ensures id in db.conns && db.conns[id] != old(db.conns)[id] ==> copy.status == db.conns[id].status
  {
    copy, r := stale, Ok(());
    if copy.status.Open? && now >= copy.expiresAt {
      if id in db.conns && db.conns[id].status.Open? {
        db.conns, db.clock := db.conns[id := db.conns[id].(status := Lapsed)], now;
        copy := copy.(status := Lapsed);
      }
    }
    if copy.status.Claimed? && copy.confirmBy.Some? && now >= copy.confirmBy.value {
      if id in db.conns && db.conns[id].status.Claimed? {
        db.conns, db.clock := db.conns[id := db.conns[id].(status := Lapsed, adminDid := None)], now;
        copy := copy.(status := Lapsed, adminDid := None);
      }
    }
    if copy.status.Provisioning? && copy.operation.ProvisionVta? && s.status.Running? && s.adminDid == copy.adminDid && s.vtaDid == copy.vtaDid {
      r := MarkReleased(db, id, released);
      if r.Fail? {
        return;
      }
      copy := copy.(status := Released, releasedAt := Some(now));
    }
  }

  method AcceptManual(db: Database, sid: SessionId, value: string, resume: bool, now: Time) returns (r: Result<()>)
    modifies db`sessions, db`conns, db`clock
    ensures Performs(AcceptTx(old(db.Claims()), sid, value, resume, now), old(db.Claims()), db.Claims(), r)
  {
    var did := DidKey.ValidateAdminDID(value);
    if did.Err? {
      return Fail(InvalidDid);
    }
    if sid !in db.sessions {
      return Fail(NotFound);
    }
    var s := db.sessions[sid];
    if s.status.PoolWaiting? {
      return Fail(Conflict);
    }
    var current := Current(db, sid);
    if current.Some? && db.conns[current.value].status in {Claimed, Confirmed, ConnStatus.Provisioning} {
      return Fail(Conflict);
    }
    if s.adminDid.Some? {
      if s.adminDid.value == did.value && resume && ResumableProvisionStatus(s.status) {
        return Ok(());
      }
      return Fail(Conflict);
    }
    if !Ready(s) {
      return Fail(Conflict);
    }
    db.sessions := db.sessions[sid := BeginProvision(s, Some(did.value))];
    db.conns := map id | id in db.conns ::
      if db.conns[id].sessionId == sid && db.conns[id].status.Open? then db.conns[id].(status := Lapsed) else db.conns[id];
    db.clock := now;
    r := Ok(());
  }

  method CancelPending(db: Database, sid: SessionId) returns (r: Result<()>)
    modifies db`conns
    ensures Performs(CancelPendingTx(old(db.Claims()), sid), old(db.Claims()), db.Claims(), r)
  {
    if sid !in db.sessions {
      return Fail(NotFound);
    }
    db.conns := map id | id in db.conns ::
      if db.conns[id].sessionId == sid && db.conns[id].status.Open? then db.conns[id].(status := Lapsed) else db.conns[id];
    r := Ok(());
  }

  // Moves every reservation of the session with one of these statuses, and
  // forgets whose it was.
  method MoveRows(db: Database, sid: SessionId, from: set<ConnStatus>, to: ConnStatus)
    modifies db`conns
    ensures db.conns.Keys == old(db.conns).Keys
    ensures forall id :: id in db.conns ==> db.conns[id] == MovedRow(old(db.conns)[id], sid, from, to)
  {
    db.conns := map id | id in db.conns :: MovedRow(db.conns[id], sid, from, to);
  }

  function MovedRow(row: Connection, sid: SessionId, from: set<ConnStatus>, to: ConnStatus): Connection {
    if row.sessionId == sid && row.status in from then row.(status := to, adminDid := None) else row
  }

  lemma MovesStop(row: Connection, sid: SessionId)
    requires row.sessionId == sid
    ensures MovedRow(MovedRow(row, sid, {Open, Claimed}, Lapsed), sid, {Confirmed, ConnStatus.Provisioning}, Cancelled) == StoppedRow(row)
  {
  }

  method Stop(db: Database, sid: SessionId) returns (r: Result<()>)
    modifies db`sessions, db`conns
    ensures Performs(StopTx(old(db.Claims()), sid), old(db.Claims()), db.Claims(), r)
  {
    if sid !in db.sessions {
      return Fail(NotFound);
    }
    ghost var c := db.Claims();
    db.sessions := db.sessions[sid := db.sessions[sid].(status := Deleting)];
    MoveRows(db, sid, {Open, Claimed}, Lapsed);
    MoveRows(db, sid, {Confirmed, ConnStatus.Provisioning}, Cancelled);
    forall id | id in c.conns
      ensures db.conns[id] == if c.conns[id].sessionId == sid then StoppedRow(c.conns[id]) else c.conns[id]
    {
      if c.conns[id].sessionId == sid {
        MovesStop(c.conns[id], sid);
      }
    }
    r := Ok(());
  }
}
