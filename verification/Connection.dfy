// The transactions on mobile_connections, as functions from the tables before
// to the tables after, and the proof that each one obeys the rule.
module Transactions {
  import opened Rows
  import opened Protocol
  import DidKey

  // A transaction commits new tables or leaves no trace.
  datatype Outcome<+T> = Commit(claims: Claims, value: T) | Abort(error: Error)

  function After<T>(c: Claims, o: Outcome<T>): Claims { if o.Commit? then o.claims else c }

  datatype Action = Create | Refresh | Cancel

  // The replay execution row a recorded claim completes.
  datatype Replay = Unrecorded | Executing | NotExecuting

  function Put(c: Claims, id: ConnId, r: Connection): Claims { c.(conns := c.conns[id := r]) }

  function PutSession(c: Claims, sid: SessionId, s: Session): Claims { c.(sessions := c.sessions[sid := s]) }

  function OperationFor(s: Session, vtaDid: Did): Option<Operation> {
    if Ready(s) && s.adminDid.None? && s.vtaDid == vtaDid then Some(ProvisionVta)
    else if s.status.Running? && s.vtaDid == vtaDid then Some(GrantAcl)
    else None
  }

  predicate ResumableProvisionStatus(status: SessionStatus) {
    || status.Provisioning? || status.StepImportAdminDid? || status.DeployVta? || status.StepVtcSetupKey?
    || status.StepVtcAclGrant? || status.StepVtcSetup? || status.DeployVtc?
  }

  // ---- the newest reservation exists ----

  lemma {:induction false} CurrentAmong(c: Claims, sid: SessionId, ids: set<ConnId>) returns (o: Option<ConnId>)
    requires ids <= c.conns.Keys
    ensures o.None? ==> forall id :: id in ids ==> c.conns[id].sessionId != sid
    ensures o.Some? ==> o.value in ids && Of(c, o.value, sid)
    ensures o.Some? ==> forall id :: id in ids && Of(c, id, sid) ==> Newer(c.conns[o.value], o.value, c.conns[id], id)
    decreases |ids|
  {
    if ids == {} {
      return None;
    }
    var x :| x in ids;
    o := CurrentAmong(c, sid, ids - {x});
    if c.conns[x].sessionId == sid && (o.None? || Newer(c.conns[x], x, c.conns[o.value], o.value)) {
      o := Some(x);
    }
  }

  ghost function CurrentOf(c: Claims, sid: SessionId): (o: Option<ConnId>)
    ensures IsCurrent(c, sid, o)
  {
    assert exists o :: IsCurrent(c, sid, o) by {
      var o := CurrentAmong(c, sid, c.conns.Keys);
      assert IsCurrent(c, sid, o);
    }
    var o :| IsCurrent(c, sid, o);
    o
  }

  predicate InClaim(status: ConnStatus) { status.Claimed? || status.Confirmed? || status.Provisioning? }

  // ---- updates that insert and delete nothing ----

  ghost predicate RowUpdated(c: Claims, c': Claims, id: ConnId)
    requires id in c.conns && id in c'.conns
  {
    RowStep(c, c', c.conns[id], c'.conns[id]) && c'.conns[id].accessDigest == c.conns[id].accessDigest
  }

  ghost predicate SameTables(c: Claims, c': Claims) {
    && c'.conns.Keys == c.conns.Keys && c'.sessions.Keys == c.sessions.Keys
    && c'.used == c.used && c'.nextSession == c.nextSession
  }

  lemma SameTablesObey(c: Claims, c': Claims)
    requires RowsOk(c) && RowsOwned(c) && SameTables(c, c')
    requires SessionStep(c, c') && RowsStep(c, c') && DigestsStep(c, c')
    ensures Rule(c, c')
  {
    forall id | id in c'.conns
      ensures c'.conns[id].sessionId in c'.sessions
    {
      assert RowStep(c, c', c.conns[id], c'.conns[id]);
    }
  }

  lemma UpdateObeys(c: Claims, c': Claims)
    requires RowsOk(c) && RowsOwned(c) && SameTables(c, c') && SessionStep(c, c')
    requires forall id :: id in c.conns ==> RowUpdated(c, c', id)
    ensures Rule(c, c')
  {
    assert RowsStep(c, c') by {
      forall id | id in c.conns && id in c'.conns
        ensures RowStep(c, c', c.conns[id], c'.conns[id])
      {
        assert RowUpdated(c, c', id);
      }
    }
    assert DigestsStep(c, c') by {
      forall a | a in c.conns
        ensures c'.conns[a].accessDigest == c.conns[a].accessDigest
      {
        assert RowUpdated(c, c', a);
      }
    }
    SameTablesObey(c, c');
  }

  lemma RowObeys(c: Claims, c': Claims, id: ConnId, r': Connection)
    requires RowsOk(c) && RowsOwned(c) && id in c.conns
    requires c' == Put(c, id, r').(clock := c'.clock)
    requires RowStep(c, c', c.conns[id], r') && r'.accessDigest == c.conns[id].accessDigest
    ensures Rule(c, c')
  {
    forall i | i in c.conns
      ensures RowUpdated(c, c', i)
    {
    }
    UpdateObeys(c, c');
  }

  // ---- create, refresh, cancel ----

  function NewConnection(s: Session, sid: SessionId, operation: Operation, now: Time): Connection {
    Connection(sid, s.vtaDid, operation, None, Open, None, now, now + QR_LIFETIME, None, None, None, None, None)
  }

  function InsertTx(c: Claims, sid: SessionId, operation: Operation, now: Time, freshId: ConnId): Claims
    requires sid in c.sessions
  {
    c.(conns := c.conns[freshId := NewConnection(c.sessions[sid], sid, operation, now)], used := c.used + {freshId}, clock := now)
  }

  ghost function ChangeTx(c: Claims, sid: SessionId, action: Action, expected: Option<ConnId>, pooled: bool,
                          now: Time, freshId: ConnId): Outcome<ConnId>
  {
    if sid !in c.sessions then Abort(NotFound)
    else
      var s, current := c.sessions[sid], CurrentOf(c, sid);
      if expected.Some? && current != expected then Abort(Conflict)
      else if action.Cancel? then CancelTx(c, current, now)
      else
        var operation := OperationFor(s, s.vtaDid);
        if operation.None? || s.status.PoolWaiting? != pooled || (pooled && !operation.value.ProvisionVta?) then Abort(Conflict)
        else if current.None? then Commit(InsertTx(c, sid, operation.value, now, freshId), freshId)
        else ReplaceTx(c, sid, current.value, action, operation.value, now, freshId)
  }

  function CancelTx(c: Claims, current: Option<ConnId>, now: Time): Outcome<ConnId> {
    if current.None? || current.value !in c.conns || !c.conns[current.value].status.Open? then Abort(Conflict)
    else Commit(Put(c, current.value, c.conns[current.value].(status := Lapsed, adminDid := None)).(clock := now), current.value)
  }

  function ReplaceTx(c: Claims, sid: SessionId, current: ConnId, action: Action, operation: Operation,
                     now: Time, freshId: ConnId): Outcome<ConnId>
    requires sid in c.sessions && current in c.conns
  {
    var r := c.conns[current];
    if InClaim(r.status) then Abort(Conflict)
    else if r.status.Open? && now < r.expiresAt && action.Create? then Commit(c.(clock := now), current)
    else if !r.status.Open? && !Final(r.status) then Abort(Conflict)
    else if now - r.createdAt < COOLDOWN then Abort(Cooldown)
    else
      Commit(InsertTx(LapseCurrent(c, Some(current)), sid, operation, now, freshId), freshId)
  }

  // The newest reservation, when it is still open, lapses before the insert.
  function LapseCurrent(c: Claims, current: Option<ConnId>): Claims
    requires current.Some? ==> current.value in c.conns
  {
    if current.Some? && c.conns[current.value].status.Open? then Put(c, current.value, c.conns[current.value].(status := Lapsed)) else c
  }

  // What makes room for a new reservation: the newest one is over, or open and
  // about to lapse, and older than now.
  ghost predicate Replaceable(c: Claims, sid: SessionId, current: Option<ConnId>, now: Time) {
    && IsCurrent(c, sid, current)
    && (current.Some? ==> var r := c.conns[current.value];
        r.createdAt < now && (Final(r.status) || r.status.Open?))
  }

  lemma OthersAreOver(c: Claims, sid: SessionId, current: Option<ConnId>, now: Time, b: ConnId)
    requires Inv(c) && Replaceable(c, sid, current, now) && Of(c, b, sid)
    ensures !Active(LapseCurrent(c, current).conns[b].status) && c.conns[b].createdAt < now
  {
    if Active(c.conns[b].status) {
      ActiveIsCurrent(c, b, current);
    }
  }

  lemma InsertFindsOver(c: Claims, sid: SessionId, operation: Operation, now: Time, freshId: ConnId, current: Option<ConnId>,
      b: ConnId)
    requires Inv(c) && freshId !in c.used && sid in c.sessions && Replaceable(c, sid, current, now) && b != freshId
    requires Of(InsertTx(LapseCurrent(c, current), sid, operation, now, freshId), b, sid)
    ensures var c' := InsertTx(LapseCurrent(c, current), sid, operation, now, freshId);
      !Active(c'.conns[b].status) && c'.conns[b].createdAt < now
  {
    assert Of(c, b, sid);
    OthersAreOver(c, sid, current, now, b);
  }

  lemma OnlyInserted(c: Claims, sid: SessionId, operation: Operation, now: Time, freshId: ConnId, current: Option<ConnId>)
    requires sid in c.sessions && (current.Some? ==> current.value in c.conns)
    ensures var c' := InsertTx(LapseCurrent(c, current), sid, operation, now, freshId);
      forall id :: id in c'.conns && id !in c.conns ==> id == freshId
  {
  }

  lemma InsertIsStep(c: Claims, sid: SessionId, operation: Operation, now: Time, freshId: ConnId, current: Option<ConnId>)
    requires Inv(c) && freshId !in c.used && sid in c.sessions && Replaceable(c, sid, current, now)
    requires OperationFor(c.sessions[sid], c.sessions[sid].vtaDid) == Some(operation)
    ensures InsertStep(c, InsertTx(LapseCurrent(c, current), sid, operation, now, freshId))
  {
    var d := LapseCurrent(c, current);
    var c' := InsertTx(d, sid, operation, now, freshId);
    forall b | Of(c', b, sid) && b != freshId
      ensures !Active(c'.conns[b].status) && c'.conns[b].createdAt < now
    {
      InsertFindsOver(c, sid, operation, now, freshId, current, b);
    }
    OnlyInserted(c, sid, operation, now, freshId, current);
  }

  lemma LapseKeepsRow(c: Claims, c': Claims, current: Option<ConnId>, id: ConnId)
    requires current.Some? ==> current.value in c.conns
    requires id in c.conns
    ensures var r, r' := c.conns[id], LapseCurrent(c, current).conns[id];
      RowStep(c, c', r, r') && r'.accessDigest == r.accessDigest
  {
  }

  lemma InsertObeys(c: Claims, sid: SessionId, operation: Operation, now: Time, freshId: ConnId, current: Option<ConnId>)
    requires Inv(c) && freshId !in c.used && sid in c.sessions && Replaceable(c, sid, current, now)
    requires OperationFor(c.sessions[sid], c.sessions[sid].vtaDid) == Some(operation)
    ensures Rule(c, InsertTx(LapseCurrent(c, current), sid, operation, now, freshId))
  {
    var c' := InsertTx(LapseCurrent(c, current), sid, operation, now, freshId);
    assert freshId !in c.conns;
    forall id | id in c.conns
      ensures id in c'.conns && RowStep(c, c', c.conns[id], c'.conns[id])
      ensures c'.conns[id].accessDigest == c.conns[id].accessDigest
    {
      LapseKeepsRow(c, c', current, id);
    }
    InsertIsStep(c, sid, operation, now, freshId, current);
    assert DeleteStep(c, c') by {
      forall id | id in c'.conns
        ensures c'.conns[id].sessionId in c'.sessions
      {
        assert id in c.conns ==> RowStep(c, c', c.conns[id], c'.conns[id]);
      }
    }
  }

  lemma CancelObeys(c: Claims, sid: SessionId, now: Time)
    requires Inv(c)
    ensures Rule(c, After(c, CancelTx(c, CurrentOf(c, sid), now)))
  {
    var o := CancelTx(c, CurrentOf(c, sid), now);
    if o.Commit? {
      RowObeys(c, o.claims, o.value, o.claims.conns[o.value]);
    }
  }

  lemma ChangeObeys(c: Claims, sid: SessionId, action: Action, expected: Option<ConnId>, pooled: bool, now: Time,
      freshId: ConnId)
    requires Inv(c) && freshId !in c.used
    ensures Rule(c, After(c, ChangeTx(c, sid, action, expected, pooled, now, freshId)))
  {
    var o := ChangeTx(c, sid, action, expected, pooled, now, freshId);
    if o.Commit? {
      var current := CurrentOf(c, sid);
      if action.Cancel? {
        CancelObeys(c, sid, now);
      } else if o.value == freshId && (current.None? || current.value != freshId) {
        var operation := OperationFor(c.sessions[sid], c.sessions[sid].vtaDid).value;
        InsertObeys(c, sid, operation, now, freshId, current);
      }
    }
  }

  // ---- claim ----

  ghost function ClaimTx(c: Claims, handle: ConnId, value: string, replay: Replay, now: Time): Outcome<ConnId> {
    var did := DidKey.TrimSpace(value);
    if !IsAdminDid(did) then Abort(InvalidDid)
    else if handle !in c.conns || c.conns[handle].sessionId !in c.sessions then Abort(NotFound)
    else
      var r := c.conns[handle];
      var s := c.sessions[r.sessionId];
      if InClaim(r.status) || r.status.Released? then Abort(AlreadyClaimed)
      else if !r.status.Open? || now >= r.expiresAt then Abort(Error.Expired)
      else if OperationFor(s, r.vtaDid).None? then Abort(Conflict)
      else if replay.NotExecuting? then Abort(ReplayInactive)
      else Commit(Put(c, handle, ClaimedRow(r, OperationFor(s, r.vtaDid).value, did, now)).(clock := now), handle)
  }

  function ClaimedRow(r: Connection, operation: Operation, did: Did, now: Time): Connection {
    r.(status := Claimed, operation := operation, adminDid := Some(did), claimantDigest := Some(did),
       claimedAt := Some(now), confirmBy := Some(now + CONFIRMATION_LIFETIME), confirmedAt := None)
  }

  lemma ClaimObeys(c: Claims, handle: ConnId, value: string, replay: Replay, now: Time)
    requires Inv(c) && LockedReading(c, handle, now)
    ensures Rule(c, After(c, ClaimTx(c, handle, value, replay, now)))
  {
    var o := ClaimTx(c, handle, value, replay, now);
    if o.Commit? {
      RowObeys(c, o.claims, handle, o.claims.conns[handle]);
    }
  }

  // ---- confirm, reject ----

  function ConfirmTx(c: Claims, sid: SessionId, id: ConnId, now: Time): Outcome<ConnId> {
    if sid !in c.sessions || id !in c.conns || c.conns[id].sessionId != sid then Abort(NotFound)
    else
      var r := c.conns[id];
      if !r.status.Claimed? || r.confirmBy.None? || now >= r.confirmBy.value then Abort(Error.Expired)
      else Commit(Put(c, id, r.(status := Confirmed, confirmedAt := Some(now))).(clock := now), id)
  }

  lemma ConfirmObeys(c: Claims, sid: SessionId, id: ConnId, now: Time)
    requires Inv(c) && LockedReading(c, id, now)
    ensures Rule(c, After(c, ConfirmTx(c, sid, id, now)))
  {
    var o := ConfirmTx(c, sid, id, now);
    if o.Commit? {
      RowObeys(c, o.claims, id, o.claims.conns[id]);
    }
  }

  function RejectTx(c: Claims, sid: SessionId, id: ConnId, now: Time): Outcome<ConnId> {
    if sid !in c.sessions || id !in c.conns || c.conns[id].sessionId != sid then Abort(NotFound)
    else
      var r := c.conns[id];
      if !r.status.Claimed? then Abort(Conflict)
      else if r.confirmBy.None? || now >= r.confirmBy.value then Abort(Error.Expired)
      else Commit(Put(c, id, r.(status := Rejected, adminDid := None)).(clock := now), id)
  }

  lemma RejectObeys(c: Claims, sid: SessionId, id: ConnId, now: Time)
    requires Inv(c)
    ensures Rule(c, After(c, RejectTx(c, sid, id, now)))
  {
    var o := RejectTx(c, sid, id, now);
    if o.Commit? {
      RowObeys(c, o.claims, id, o.claims.conns[id]);
    }
  }

  // ---- provisioning ----

  function BeginProvision(s: Session, did: Option<Did>): Session {
    s.(adminDid := did, status := if s.fullStack then StepImportAdminDid else SessionStatus.Provisioning)
  }

  function StartTx(c: Claims, id: ConnId, now: Time): Outcome<ConnId> {
    if id !in c.conns || c.conns[id].sessionId !in c.sessions then Abort(NotFound)
    else
      var r := c.conns[id];
      var s := c.sessions[r.sessionId];
      if r.status.Provisioning? || r.status.Released? then Commit(c, id)
      else if !r.status.Confirmed? then Abort(Conflict)
      else
        match r.operation
        case ProvisionVta =>
          if s.status.PoolWaiting? && r.confirmedAt.None? then Abort(Conflict)
          else Commit(Put(PutSession(c, r.sessionId, BeginProvision(s, r.adminDid)), id,
                          r.(status := ConnStatus.Provisioning)).(clock := now), id)
        case GrantAcl =>
          if !s.status.Running? || s.vtaDid != r.vtaDid then Abort(Conflict)
          else Commit(Put(c, id, r.(status := ConnStatus.Provisioning)).(clock := now), id)
        case NoOperation => Abort(Conflict)
  }

  // Provisioning a confirmed reservation settles its session: nobody else is,
  // was or can be provisioned there.
  lemma StartSettles(c: Claims, id: ConnId, c': Claims)
    requires Inv(c) && id in c.conns && c.conns[id].status.Confirmed? && c.conns[id].operation.ProvisionVta?
    requires var r := c.conns[id]; var s := c.sessions[r.sessionId];
      c'.conns == c.conns[id := r.(status := ConnStatus.Provisioning)]
      && c'.sessions == c.sessions[r.sessionId := BeginProvision(s, r.adminDid)]
    ensures c.sessions[c.conns[id].sessionId].adminDid.None? && !c.sessions[c.conns[id].sessionId].status.Deleting?
    ensures Settled(c', c.conns[id].sessionId)
  {
    var sid := c.conns[id].sessionId;
    assert Of(c, id, sid) && RowOk(c.conns[id]);
    assert SettledRow(c.sessions[sid], c.conns[id]);
    forall b | Of(c', b, sid)
      ensures SettledRow(c'.sessions[sid], c'.conns[b])
    {
      if b != id {
        assert Of(c, b, sid) && RowOk(c.conns[b]);
        assert Of(c, b, c.conns[id].sessionId) && Of(c, id, c.conns[b].sessionId);
        assert SettledRow(c.sessions[sid], c.conns[b]);
      }
    }
  }

  lemma StartVtaObeys(c: Claims, id: ConnId, now: Time)
    requires Inv(c) && id in c.conns && c.conns[id].operation.ProvisionVta? && c.conns[id].status.Confirmed?
    ensures var r := c.conns[id]; var s := c.sessions[r.sessionId];
      Rule(c, Put(PutSession(c, r.sessionId, BeginProvision(s, r.adminDid)), id, r.(status := ConnStatus.Provisioning)).(clock := now))
  {
    var r := c.conns[id];
    var s := c.sessions[r.sessionId];
    var c' := Put(PutSession(c, r.sessionId, BeginProvision(s, r.adminDid)), id, r.(status := ConnStatus.Provisioning)).(clock := now);
    StartSettles(c, id, c');
    forall i | i in c.conns
      ensures RowUpdated(c, c', i)
    {
    }
    UpdateObeys(c, c');
  }

  lemma StartObeys(c: Claims, id: ConnId, now: Time)
    requires Inv(c)
    ensures Rule(c, After(c, StartTx(c, id, now)))
  {
    var o := StartTx(c, id, now);
    if o.Commit? && o.claims != c {
      assert RowOk(c.conns[id]);
      if c.conns[id].operation.ProvisionVta? {
        StartVtaObeys(c, id, now);
      } else {
        RowObeys(c, o.claims, id, o.claims.conns[id]);
      }
    }
  }

  function ReleaseTx(c: Claims, id: ConnId, now: Time): Outcome<()> {
    if id !in c.conns then Abort(NotFound)
    else if c.conns[id].status.Released? then Commit(c, ())
    else if !c.conns[id].status.Provisioning? then Abort(Conflict)
    else Commit(Put(c, id, c.conns[id].(status := Released, releasedAt := Some(now))).(clock := now), ())
  }

  lemma ReleaseObeys(c: Claims, id: ConnId, now: Time)
    requires Inv(c)
    ensures Rule(c, After(c, ReleaseTx(c, id, now)))
  {
    var o := ReleaseTx(c, id, now);
    if o.Commit? && o.claims != c {
      RowObeys(c, o.claims, id, o.claims.conns[id]);
    }
  }

  function FailTx(c: Claims, id: ConnId): Claims {
    if id in c.conns && c.conns[id].operation.GrantAcl? && (c.conns[id].status.Confirmed? || c.conns[id].status.Provisioning?)
    then Put(c, id, c.conns[id].(status := ConnStatus.Failed))
    else c
  }

  lemma FailObeys(c: Claims, id: ConnId)
    requires Inv(c)
    ensures Rule(c, FailTx(c, id))
  {
    var c' := FailTx(c, id);
    if c' != c {
      RowObeys(c, c', id, c'.conns[id]);
    }
  }

  // ---- reconcile ----

  // The two conditional updates of a reconciliation. `stale` is the copy of the
  // row its caller read, at any earlier moment.
  function ReconcileOpenTx(c: Claims, id: ConnId, stale: Connection, now: Time): Claims {
    if stale.status.Open? && now >= stale.expiresAt && id in c.conns && c.conns[id].status.Open?
    then Put(c, id, c.conns[id].(status := Lapsed)).(clock := now)
    else c
  }

  function ReconcileClaimedTx(c: Claims, id: ConnId, stale: Connection, now: Time): Claims {
    if stale.status.Claimed? && stale.confirmBy.Some? && now >= stale.confirmBy.value && id in c.conns && c.conns[id].status.Claimed?
    then Put(c, id, c.conns[id].(status := Lapsed, adminDid := None)).(clock := now)
    else c
  }

  // Initial provisioning is over: the pipeline runs the VTA for this administrator.
  predicate ReleaseDue(stale: Connection, s: Session) {
    && stale.status.Provisioning? && stale.operation.ProvisionVta? && s.status.Running?
    && s.adminDid == stale.adminDid && s.vtaDid == stale.vtaDid
  }

  // The copy is a value the row has had.
  predicate ReadBefore(c: Claims, id: ConnId, stale: Connection) { id in c.conns ==> RowLater(stale, c.conns[id]) }

  lemma ReconcileOpenObeys(c: Claims, id: ConnId, stale: Connection, now: Time)
    requires Inv(c)
    ensures Rule(c, ReconcileOpenTx(c, id, stale, now))
  {
    var c' := ReconcileOpenTx(c, id, stale, now);
    if c' != c {
      RowObeys(c, c', id, c'.conns[id]);
    }
  }

  lemma ReconcileClaimedObeys(c: Claims, id: ConnId, stale: Connection, now: Time)
    requires Inv(c) && ReadBefore(c, id, stale) && TimesOk(stale) && StatusOk(stale)
    ensures Rule(c, ReconcileClaimedTx(c, id, stale, now))
  {
    var c' := ReconcileClaimedTx(c, id, stale, now);
    if c' != c {
      RowObeys(c, c', id, c'.conns[id]);
    }
  }

  // However stale the copy, a reservation lapses only once its own deadline has
  // passed: nothing rewrites the deadline it was read with.
  lemma ReconcileIsNeverEarly(c: Claims, c': Claims, id: ConnId, now: Time)
    requires Inv(c) && Inv(c') && Later(c, c') && id in c.conns && id in c'.conns
    ensures ReconcileOpenTx(c', id, c.conns[id], now) != c' ==> now >= c'.conns[id].expiresAt
    ensures ReconcileClaimedTx(c', id, c.conns[id], now) != c' ==>
      c'.conns[id].confirmBy.Some? && now >= c'.conns[id].confirmBy.value
  {
    assert RowLater(c.conns[id], c'.conns[id]) && RowOk(c.conns[id]);
  }

  // ---- the owner's own administrator ----

  function LapseOpen(c: Claims, sid: SessionId): map<ConnId, Connection> {
    map id | id in c.conns ::
      if c.conns[id].sessionId == sid && c.conns[id].status.Open? then c.conns[id].(status := Lapsed) else c.conns[id]
  }

  lemma LapseOpenRows(c: Claims, c': Claims, sid: SessionId)
    requires c'.conns == LapseOpen(c, sid)
    ensures forall id :: id in c.conns ==> RowUpdated(c, c', id)
  {
  }

  ghost function AcceptTx(c: Claims, sid: SessionId, value: string, resume: bool, now: Time): Outcome<()> {
    var did := DidKey.TrimSpace(value);
    if !IsAdminDid(did) then Abort(InvalidDid)
    else if sid !in c.sessions then Abort(NotFound)
    else
      var s, current := c.sessions[sid], CurrentOf(c, sid);
      if s.status.PoolWaiting? then Abort(Conflict)
      else if current.Some? && InClaim(c.conns[current.value].status) then Abort(Conflict)
      else if s.adminDid.Some? then
        if s.adminDid.value == did && resume && ResumableProvisionStatus(s.status) then Commit(c, ()) else Abort(Conflict)
      else if !Ready(s) then Abort(Conflict)
      else Commit(PutSession(c, sid, BeginProvision(s, Some(did))).(conns := LapseOpen(c, sid), clock := now), ())
  }

  lemma AcceptSettles(c: Claims, sid: SessionId, c': Claims)
    requires Inv(c) && sid in c.sessions && c.sessions[sid].adminDid.None?
    requires var o := CurrentOf(c, sid); o.Some? ==> !InClaim(c.conns[o.value].status)
    requires sid in c'.sessions && c'.conns == LapseOpen(c, sid)
    ensures Settled(c', sid) && Quiet(c', sid)
  {
    forall b | Of(c', b, sid)
      ensures SettledRow(c'.sessions[sid], c'.conns[b]) && !Active(c'.conns[b].status)
    {
      assert Of(c, b, sid) && RowOk(c.conns[b]);
      assert SettledRow(c.sessions[sid], c.conns[b]);
      if Active(c.conns[b].status) {
        ActiveIsCurrent(c, b, CurrentOf(c, sid));
      }
    }
  }

  lemma AcceptObeys(c: Claims, sid: SessionId, value: string, resume: bool, now: Time)
    requires Inv(c)
    ensures Rule(c, After(c, AcceptTx(c, sid, value, resume, now)))
  {
    var o := AcceptTx(c, sid, value, resume, now);
    if o.Commit? && o.claims != c {
      AcceptSettles(c, sid, o.claims);
      LapseOpenRows(c, o.claims, sid);
      UpdateObeys(c, o.claims);
    }
  }

  // Accepting the same DID again resumes what accepting it began, or is refused
  // without resume; another DID is always refused.
  lemma AcceptResumes(c: Claims, sid: SessionId, value: string, resume: bool, now: Time, again: string, resumed: bool,
      later: Time)
    requires Inv(c)
    requires AcceptTx(c, sid, value, resume, now).Commit? && IsAdminDid(DidKey.TrimSpace(again))
    requires c.sessions[sid].adminDid.None?
    ensures var c' := AcceptTx(c, sid, value, resume, now).claims;
      AcceptTx(c', sid, again, resumed, later) ==
        if resumed && DidKey.TrimSpace(again) == DidKey.TrimSpace(value) then Commit(c', ()) else Abort(Conflict)
  {
    var c' := AcceptTx(c, sid, value, resume, now).claims;
    AcceptSettles(c, sid, c');
    var o := CurrentOf(c', sid);
    if o.Some? {
      assert Of(c', o.value, sid);
    }
  }

  function CancelPendingTx(c: Claims, sid: SessionId): Outcome<()> {
    if sid !in c.sessions then Abort(NotFound) else Commit(c.(conns := LapseOpen(c, sid)), ())
  }

  lemma CancelPendingObeys(c: Claims, sid: SessionId)
    requires Inv(c)
    ensures Rule(c, After(c, CancelPendingTx(c, sid)))
  {
    var o := CancelPendingTx(c, sid);
    if o.Commit? {
      LapseOpenRows(c, o.claims, sid);
      UpdateObeys(c, o.claims);
    }
  }

  // ---- teardown ----

  function StoppedRow(r: Connection): Connection {
    match r.status
    case Open => r.(status := Lapsed, adminDid := None)
    case Claimed => r.(status := Lapsed, adminDid := None)
    case Confirmed => r.(status := Cancelled, adminDid := None)
    case Provisioning => r.(status := Cancelled, adminDid := None)
    case _ => r
  }

  function StopTx(c: Claims, sid: SessionId): Outcome<()> {
    if sid !in c.sessions then Abort(NotFound)
    else Commit(c.(sessions := c.sessions[sid := c.sessions[sid].(status := Deleting)],
                   conns := map id | id in c.conns ::
                     if c.conns[id].sessionId == sid then StoppedRow(c.conns[id]) else c.conns[id]), ())
  }

  lemma StopRow(c: Claims, c': Claims, r: Connection)
    requires RowOk(r) && r.sessionId in c'.sessions && c'.sessions[r.sessionId].status.Deleting?
    ensures RowStep(c, c', r, StoppedRow(r)) && StoppedRow(r).accessDigest == r.accessDigest
    ensures !Active(StoppedRow(r).status) && StoppedRow(r).sessionId == r.sessionId
  {
  }

  lemma StopObeys(c: Claims, sid: SessionId)
    requires Inv(c)
    ensures Rule(c, After(c, StopTx(c, sid)))
  {
    var o := StopTx(c, sid);
    if o.Commit? {
      forall id | id in c.conns
        ensures RowUpdated(c, o.claims, id)
        ensures o.claims.conns[id].sessionId == c.conns[id].sessionId
        ensures c.conns[id].sessionId == sid ==> !Active(o.claims.conns[id].status)
      {
        if c.conns[id].sessionId == sid {
          StopRow(c, o.claims, c.conns[id]);
        }
      }
      assert Quiet(o.claims, sid);
      UpdateObeys(c, o.claims);
    }
  }
}
