// What each transaction on reservations leaves in the tables, and when it goes
// through: said of the rows, field by field, apart from the functions that
// compute it.
module Outcomes {
  import opened Rows
  import opened Protocol
  import opened Transactions
  import DidKey

  // ---- frames ----

  // Only this row differs, and the reading the step acted on.
  predicate OnlyRow(c: Claims, c': Claims, id: ConnId) {
    id in c.conns && id in c'.conns && c' == c.(conns := c.conns[id := c'.conns[id]], clock := c'.clock)
  }

  // The row is the same but for its status, and for whose it is if `forgotten`.
  predicate Moved(r: Connection, r': Connection, to: ConnStatus, forgotten: bool) {
    r' == r.(status := to, adminDid := if forgotten then None else r.adminDid)
  }

  predicate MovesOnly(c: Claims, c': Claims, id: ConnId, to: ConnStatus, forgotten: bool) {
    OnlyRow(c, c', id) && Moved(c.conns[id], c'.conns[id], to, forgotten)
  }

  // Nobody is the administrator yet, and the session has come to the point where
  // one can be accepted.
  predicate Awaits(s: Session) {
    if s.fullStack then s.status == AwaitingAdminDid else s.status in {VtaSetupComplete, PoolWaiting}
  }

  predicate Provisions(s: Session) { Awaits(s) && s.adminDid == None }

  predicate Grants(s: Session) { s.status == Running && !Provisions(s) }

  predicate Expectation(expected: Option<ConnId>, current: Option<ConnId>) { expected == None || expected == current }

  // ---- create, refresh, cancel ----

  // A cancel lapses an open reservation, and is refused without one.
  lemma CancelLapses(c: Claims, sid: SessionId, expected: Option<ConnId>, pooled: bool, now: Time, freshId: ConnId)
    requires sid in c.sessions
    ensures var o := ChangeTx(c, sid, Cancel, expected, pooled, now, freshId);
      var current := CurrentOf(c, sid);
      if current.Some? && Expectation(expected, current) && c.conns[current.value].status == Open
      then o.Commit? && o.value == current.value && MovesOnly(c, o.claims, current.value, Lapsed, true)
      else o == Abort(Conflict)
  {
    var current := CurrentOf(c, sid);
    assert current.Some? ==> Of(c, current.value, sid);
  }

  // A new reservation under the fresh id, made now for what the session offers;
  // the newest one before it lapses if it was open, and nothing else changes.
  ghost predicate Inserts(c: Claims, c': Claims, sid: SessionId, now: Time, freshId: ConnId)
    requires sid in c.sessions
  {
    var s := c.sessions[sid];
    && c'.sessions == c.sessions && c'.used == c.used + {freshId} && c'.conns.Keys == c.conns.Keys + {freshId}
    && var r := c'.conns[freshId];
    && r.sessionId == sid && r.vtaDid == s.vtaDid && r.status == Open && r.createdAt == now && r.expiresAt == now + 300_000_000_000
    && (if Provisions(s) then r.operation == ProvisionVta else Grants(s) && r.operation == GrantAcl)
    && Blank(r)
    && forall id :: id in c.conns && id != freshId ==>
      if CurrentOf(c, sid) == Some(id) && c.conns[id].status == Open then Moved(c.conns[id], c'.conns[id], Lapsed, false)
      else c'.conns[id] == c.conns[id]
  }

  // The session offers something, and to whom it is asked for.
  predicate OnOffer(s: Session, pooled: bool) {
    if s.status == PoolWaiting then pooled && Provisions(s) else !pooled && (Provisions(s) || Grants(s))
  }

  // The newest reservation stands in the way: it is in a claim, or younger than
  // the cooldown, or, for a create, still open.
  predicate InTheWay(r: Connection, action: Action, now: Time) {
    || r.status in {Claimed, Confirmed, ConnStatus.Provisioning}
    || now - r.createdAt < 5_000_000_000
    || StillOpen(r, action, now)
  }

  predicate StillOpen(r: Connection, action: Action, now: Time) { action == Create && r.status == Open && now < r.expiresAt }

  predicate Insertable(c: Claims, sid: SessionId, current: Option<ConnId>, action: Action, expected: Option<ConnId>, pooled: bool, now: Time)
    requires sid in c.sessions && (current.Some? ==> current.value in c.conns)
  {
    && Expectation(expected, current) && OnOffer(c.sessions[sid], pooled)
    && (current.Some? ==> !InTheWay(c.conns[current.value], action, now))
  }

  lemma ChangeIsInsert(c: Claims, sid: SessionId, current: Option<ConnId>, action: Action, expected: Option<ConnId>, pooled: bool,
      now: Time, freshId: ConnId)
    requires sid in c.sessions && !action.Cancel? && current == CurrentOf(c, sid)
    requires current.Some? ==> current.value in c.conns && RowOk(c.conns[current.value])
    requires Insertable(c, sid, current, action, expected, pooled, now)
    ensures var operation := if Provisions(c.sessions[sid]) then ProvisionVta else GrantAcl;
      ChangeTx(c, sid, action, expected, pooled, now, freshId)
      == Commit(InsertTx(LapseCurrent(c, current), sid, operation, now, freshId), freshId)
  {
  }

  lemma ChangeIsNone(c: Claims, sid: SessionId, current: Option<ConnId>, action: Action, expected: Option<ConnId>, pooled: bool,
      now: Time, freshId: ConnId)
    requires sid in c.sessions && !action.Cancel? && current == CurrentOf(c, sid)
    requires current.Some? ==> current.value in c.conns && RowOk(c.conns[current.value])
    requires !Insertable(c, sid, current, action, expected, pooled, now)
    ensures var o := ChangeTx(c, sid, action, expected, pooled, now, freshId);
      if !Expectation(expected, current) || !OnOffer(c.sessions[sid], pooled) then o == Abort(Conflict)
      else if StillOpen(c.conns[current.value], action, now) then o == Commit(c.(clock := now), current.value)
      else o == Abort(if c.conns[current.value].status in {Claimed, Confirmed, ConnStatus.Provisioning} then Conflict else Cooldown)
  {
  }

  // A create or a refresh inserts a reservation if and only if the session offers
  // something, the newest reservation is the expected one, and it is not in the
  // way; a refresh past the cooldown lapses an open one. A create finds an open
  // one again. Everything else is refused.
  lemma ChangeInserts(c: Claims, sid: SessionId, current: Option<ConnId>, action: Action, expected: Option<ConnId>, pooled: bool,
      now: Time, freshId: ConnId)
    requires Inv(c) && sid in c.sessions && !action.Cancel? && freshId !in c.used && current == CurrentOf(c, sid)
    ensures current.Some? ==> current.value in c.conns
    ensures var o := ChangeTx(c, sid, action, expected, pooled, now, freshId);
      if Insertable(c, sid, current, action, expected, pooled, now)
      then o.Commit? && o.value == freshId && Inserts(c, o.claims, sid, now, freshId)
      else if !Expectation(expected, current) || !OnOffer(c.sessions[sid], pooled) then o == Abort(Conflict)
      else if StillOpen(c.conns[current.value], action, now) then o == Commit(c.(clock := now), current.value)
      else o == Abort(if c.conns[current.value].status in {Claimed, Confirmed, ConnStatus.Provisioning} then Conflict else Cooldown)
  {
    assert current.Some? ==> Of(c, current.value, sid) && RowOk(c.conns[current.value]);
    if Insertable(c, sid, current, action, expected, pooled, now) {
      InsertTakes(c, sid, if Provisions(c.sessions[sid]) then ProvisionVta else GrantAcl, now, freshId);
      ChangeIsInsert(c, sid, current, action, expected, pooled, now, freshId);
    } else {
      ChangeIsNone(c, sid, current, action, expected, pooled, now, freshId);
    }
  }

  lemma InsertTakes(c: Claims, sid: SessionId, operation: Operation, now: Time, freshId: ConnId)
    requires Inv(c) && sid in c.sessions && freshId !in c.used
    requires operation == if Provisions(c.sessions[sid]) then ProvisionVta else GrantAcl
    requires Provisions(c.sessions[sid]) || Grants(c.sessions[sid])
    ensures CurrentOf(c, sid).Some? ==> CurrentOf(c, sid).value in c.conns
    ensures Inserts(c, InsertTx(LapseCurrent(c, CurrentOf(c, sid)), sid, operation, now, freshId), sid, now, freshId)
  {
    var current := CurrentOf(c, sid);
    assert current.Some? ==> Of(c, current.value, sid);
    assert freshId !in c.conns;
  }

  // ---- claim, confirm, reject ----

  // A claim takes effect if and only if the DID is valid, the reservation open and
  // unexpired, its session still offers that VTA, and the replay row executes.
  lemma ClaimTakes(c: Claims, handle: ConnId, value: string, replay: Replay, now: Time)
    requires handle in c.conns && c.conns[handle].sessionId in c.sessions
    ensures var o, r, s, did := ClaimTx(c, handle, value, replay, now), c.conns[handle], c.sessions[c.conns[handle].sessionId], DidKey.TrimSpace(value);
      && (o.Commit? <==>
          && IsAdminDid(did) && r.status == Open && now < r.expiresAt && s.vtaDid == r.vtaDid
          && (Provisions(s) || Grants(s)) && replay != NotExecuting)
      && (o.Commit? ==>
          && o.value == handle && OnlyRow(c, o.claims, handle)
          && o.claims.conns[handle] == r.(status := Claimed, operation := if Provisions(s) then ProvisionVta else GrantAcl,
               adminDid := Some(did), claimantDigest := Some(did), claimedAt := Some(now),
               confirmBy := Some(now + 300_000_000_000), confirmedAt := None))
      && (o.Abort? && IsAdminDid(did) ==> (o.error == AlreadyClaimed <==> r.status in {Claimed, Confirmed, ConnStatus.Provisioning, Released}))
  {
  }

  lemma ConfirmTakes(c: Claims, sid: SessionId, id: ConnId, now: Time)
    requires sid in c.sessions && Of(c, id, sid)
    ensures var o, r := ConfirmTx(c, sid, id, now), c.conns[id];
      if r.status == Claimed && r.confirmBy.Some? && now < r.confirmBy.value
      then o.Commit? && OnlyRow(c, o.claims, id) && o.claims.conns[id] == r.(status := Confirmed, confirmedAt := Some(now))
      else o == Abort(Error.Expired)
  {
  }

  lemma RejectTakes(c: Claims, sid: SessionId, id: ConnId, now: Time)
    requires sid in c.sessions && Of(c, id, sid)
    ensures var o, r := RejectTx(c, sid, id, now), c.conns[id];
      if r.status == Claimed && r.confirmBy.Some? && now < r.confirmBy.value then o.Commit? && MovesOnly(c, o.claims, id, Rejected, true)
      else o == Abort(if r.status == Claimed then Error.Expired else Conflict)
  {
  }

  // ---- provisioning ----

  // The session goes where its kind is provisioned, with this administrator:
  // a full stack imports the DID, a VTA of its own is provisioned with it.
  predicate Begun(s: Session, s': Session, did: Option<Did>) {
    && s'.status == (if s.fullStack then StepImportAdminDid else SessionStatus.Provisioning)
    && s'.adminDid == did
    && s'.userId == s.userId && s'.fullStack == s.fullStack && s'.vtaDid == s.vtaDid
    && s'.vtaName == s.vtaName && s'.vtaImage == s.vtaImage
  }

  // Only this session has begun.
  predicate OnlyBegun(c: Claims, c': Claims, sid: SessionId, did: Option<Did>) {
    && sid in c.sessions && sid in c'.sessions && c'.sessions == c.sessions[sid := c'.sessions[sid]]
    && Begun(c.sessions[sid], c'.sessions[sid], did)
  }

  // Starting a confirmed reservation goes through for every provision_vta, and for
  // a grant_acl while the same VTA runs. The first begins its session; the second
  // leaves it alone.
  lemma StartTakes(c: Claims, id: ConnId, now: Time)
    requires Inv(c) && id in c.conns && c.conns[id].status == Confirmed && c.conns[id].operation != NoOperation
    ensures var o, r, s := StartTx(c, id, now), c.conns[id], c.sessions[c.conns[id].sessionId];
      && (o.Commit? <==> r.operation == ProvisionVta || (s.status == Running && s.vtaDid == r.vtaDid))
      && (o.Abort? ==> o.error == Conflict)
      && (o.Commit? ==>
          && o.value == id && o.claims.conns == c.conns[id := o.claims.conns[id]] && id in o.claims.conns
          && Moved(r, o.claims.conns[id], ConnStatus.Provisioning, false)
          && o.claims.used == c.used && o.claims.nextSession == c.nextSession
          && if r.operation == ProvisionVta then OnlyBegun(c, o.claims, r.sessionId, r.adminDid) else o.claims.sessions == c.sessions)
  {
    assert RowOk(c.conns[id]);
  }

  // What was started or released stays as it is, what was not confirmed is refused.
  lemma StartElse(c: Claims, id: ConnId, now: Time)
    requires Inv(c) && id in c.conns && c.conns[id].status != Confirmed
    ensures StartTx(c, id, now) ==
      if c.conns[id].status in {ConnStatus.Provisioning, Released} then Commit(c, id) else Abort(Conflict)
  {
  }

  lemma ReleaseTakes(c: Claims, id: ConnId, now: Time)
    requires id in c.conns
    ensures var o, r := ReleaseTx(c, id, now), c.conns[id];
      if r.status == ConnStatus.Provisioning
      then o.Commit? && OnlyRow(c, o.claims, id) && o.claims.conns[id] == r.(status := Released, releasedAt := Some(now))
      else o == if r.status == Released then Commit(c, ()) else Abort(Conflict)
  {
  }

  lemma FailTakes(c: Claims, id: ConnId)
    requires id in c.conns
    ensures if c.conns[id].operation == GrantAcl && c.conns[id].status in {Confirmed, ConnStatus.Provisioning}
      then MovesOnly(c, FailTx(c, id), id, ConnStatus.Failed, false) else FailTx(c, id) == c
  {
  }

  // ---- reconcile ----

  // A row still open or claimed when its deadline is over lapses, by any copy read
  // since it was so; and by such a copy nothing else happens to it.
  lemma ReconcileLapses(c: Claims, id: ConnId, stale: Connection, now: Time)
    requires Inv(c) && id in c.conns && RowOk(stale) && RowLater(stale, c.conns[id])
    ensures var r := c.conns[id];
      && (stale.status == Open ==>
          if r.status == Open && now >= r.expiresAt then MovesOnly(c, ReconcileOpenTx(c, id, stale, now), id, Lapsed, false)
          else ReconcileOpenTx(c, id, stale, now) == c)
      && (stale.status == Claimed ==>
          if r.status == Claimed && r.confirmBy.Some? && now >= r.confirmBy.value
          then MovesOnly(c, ReconcileClaimedTx(c, id, stale, now), id, Lapsed, true)
          else ReconcileClaimedTx(c, id, stale, now) == c)
  {
    assert RowOk(c.conns[id]);
  }

  // A release is due while the VTA runs for the administrator it was provisioned for;
  // on copies of one moment the administrator is no question.
  lemma ReleaseDueIff(c: Claims, id: ConnId, stale: Connection, s: Session)
    requires Inv(c) && id in c.conns
    ensures ReleaseDue(stale, s) <==>
      && stale.status == ConnStatus.Provisioning && stale.operation == ProvisionVta && s.status == Running
      && s.adminDid == stale.adminDid && s.vtaDid == stale.vtaDid
    ensures var r := c.conns[id];
      ReleaseDue(r, c.sessions[r.sessionId]) <==>
        && r.status == ConnStatus.Provisioning && r.operation == ProvisionVta
        && c.sessions[r.sessionId].status == Running && c.sessions[r.sessionId].vtaDid == r.vtaDid
  {
    assert SettledRow(c.sessions[c.conns[id].sessionId], c.conns[id]);
  }

  // ---- the owner's own administrator ----

  // The open reservations of the session lapse, and no other row changes.
  ghost predicate OpenLapse(c: Claims, c': Claims, sid: SessionId) {
    && c'.conns.Keys == c.conns.Keys && c'.used == c.used && c'.nextSession == c.nextSession
    && forall id :: id in c.conns ==>
      if c.conns[id].sessionId == sid && c.conns[id].status == Open then Moved(c.conns[id], c'.conns[id], Lapsed, false)
      else c'.conns[id] == c.conns[id]
  }

  // The statuses a session with an administrator is on its way in.
  predicate OnItsWay(status: SessionStatus) {
    status in {SessionStatus.Provisioning, StepImportAdminDid, DeployVta, StepVtcSetupKey, StepVtcAclGrant, StepVtcSetup, DeployVtc}
  }

  predicate NoClaim(c: Claims, current: Option<ConnId>) {
    current.Some? && current.value in c.conns ==> c.conns[current.value].status !in {Claimed, Confirmed, ConnStatus.Provisioning}
  }

  // A valid DID is accepted if and only if no claim is in progress and the session
  // awaits an administrator, out of the pool; then it begins with this one. The
  // same DID resumes a session on its way.
  lemma AcceptTakes(c: Claims, sid: SessionId, value: string, resume: bool, now: Time)
    requires sid in c.sessions && IsAdminDid(DidKey.TrimSpace(value))
    ensures var o, s, did := AcceptTx(c, sid, value, resume, now), c.sessions[sid], Some(DidKey.TrimSpace(value));
      if s.status == PoolWaiting || !NoClaim(c, CurrentOf(c, sid)) then o == Abort(Conflict)
      else if Provisions(s) then o.Commit? && OnlyBegun(c, o.claims, sid, did) && OpenLapse(c, o.claims, sid)
      else o == if s.adminDid == did && resume && OnItsWay(s.status) then Commit(c, ()) else Abort(Conflict)
  {
    var current := CurrentOf(c, sid);
    assert current.Some? ==> Of(c, current.value, sid);
  }

  lemma CancelPendingTakes(c: Claims, sid: SessionId)
    ensures var o := CancelPendingTx(c, sid);
      if sid in c.sessions then o.Commit? && OpenLapse(c, o.claims, sid) && o.claims.sessions == c.sessions else o == Abort(NotFound)
  {
  }

  // ---- teardown ----

  // Where stopping takes a reservation of the session.
  predicate Stopped(r: Connection, r': Connection) {
    if r.status in {Open, Claimed} then Moved(r, r', Lapsed, true)
    else if r.status in {Confirmed, ConnStatus.Provisioning} then Moved(r, r', Cancelled, true)
    else r' == r
  }

  lemma StopTakes(c: Claims, sid: SessionId)
    requires sid in c.sessions
    ensures var o := StopTx(c, sid);
      && o.Commit? && o.claims.sessions == c.sessions[sid := c.sessions[sid].(status := Deleting)]
      && o.claims.conns.Keys == c.conns.Keys
      && forall id :: id in c.conns ==>
        if c.conns[id].sessionId == sid then Stopped(c.conns[id], o.claims.conns[id]) else o.claims.conns[id] == c.conns[id]
  {
  }
}
