// The rule every step of the claim protocol obeys, the invariant it keeps, and
// what follows for whole runs.
module Protocol {
  import opened Rows
  import DidKey

  // setup_sessions and mobile_connections. `used` holds every connection id
  // ever inserted, `nextSession` bounds every session id ever assigned, and
  // `clock` is the reading the last step that took one acted on: it may be
  // older than the one before.
  datatype Claims = Claims(
    sessions: map<SessionId, Session>, conns: map<ConnId, Connection>,
    used: set<ConnId>, nextSession: SessionId, clock: Time)

  predicate Final(status: ConnStatus) {
    status.Released? || status.Rejected? || status.Lapsed? || status.Cancelled? || status.Expired? || status.Failed?
  }

  predicate Active(status: ConnStatus) {
    status.Open? || status.Claimed? || status.Confirmed? || status.Provisioning?
  }

  // The life of one reservation.
  predicate Edge(a: ConnStatus, b: ConnStatus) {
    match a
    case Open => b.Claimed? || b.Lapsed?
    case Claimed => b.Confirmed? || b.Rejected? || b.Lapsed?
    case Confirmed => b.Provisioning? || b.Cancelled? || b.Failed?
    case Provisioning => b.Released? || b.Cancelled? || b.Failed?
    case _ => false
  }

  // A reservation that was confirmed for provisioning, whatever became of it.
  predicate HandedOver(r: Connection) { r.operation.ProvisionVta? && r.confirmedAt.Some? }

  // A reservation that could still hand the VTA over.
  predicate Contender(r: Connection) {
    r.operation.ProvisionVta? && (r.status.Open? || r.status.Claimed? || r.status.Confirmed?)
  }

  predicate Of(c: Claims, id: ConnId, sid: SessionId) { id in c.conns && c.conns[id].sessionId == sid }

  // ---- invariant ----

  ghost predicate IsAdminDid(did: Did) { exists key: DidKey.PublicKey :: did == DidKey.DidOf(key) }

  ghost predicate RowOk(r: Connection) {
    && StatusOk(r) && TimesOk(r)
    && (r.adminDid.Some? ==> IsAdminDid(r.adminDid.value) && r.claimantDigest == r.adminDid)
  }

  // What each status says about the terms.
  predicate StatusOk(r: Connection) {
    && !r.status.Pending? && !r.status.Accepted? && !r.status.Expired?
    && (r.status.Open? || r.status.Claimed? || r.status.Rejected? || r.status.Lapsed? ==> r.confirmedAt.None?)
    && (r.status.Confirmed? || r.status.Provisioning? || r.status.Released? || r.status.Cancelled? || r.status.Failed? ==> r.confirmedAt.Some?)
    && (r.status.Claimed? || r.status.Confirmed? || r.status.Provisioning? || r.status.Released? ==> r.adminDid.Some?)
    && (r.status.Claimed? ==> r.claimedAt.Some?)
    && (r.status.Open? ==> r.adminDid.None? && r.claimedAt.None?)
    && (r.status.Released? <==> r.releasedAt.Some?)
    && (r.status.Failed? ==> r.operation.GrantAcl?)
  }

  // A claim comes before the QR code expires, a confirmation before the claim does.
  predicate TimesOk(r: Connection) {
    && r.expiresAt == r.createdAt + QR_LIFETIME
    && (r.claimedAt.Some? ==> r.createdAt <= r.claimedAt.value < r.expiresAt && r.confirmBy == Some(r.claimedAt.value + CONFIRMATION_LIFETIME))
    && (r.confirmedAt.Some? ==> r.claimedAt.Some? && r.confirmBy.Some? && r.claimedAt.value <= r.confirmedAt.value < r.confirmBy.value)
  }

  ghost predicate RowsOk(c: Claims) {
    forall id :: id in c.conns ==> id in c.used && RowOk(c.conns[id])
  }

  // A reading taken under the lock of the row's session, under which the row's
  // own times were read before.
  predicate SinceRow(r: Connection, now: Time) {
    r.createdAt <= now && (r.claimedAt.Some? ==> r.claimedAt.value <= now)
  }

  predicate LockedReading(c: Claims, id: ConnId, now: Time) { id in c.conns ==> SinceRow(c.conns[id], now) }

  ghost predicate RowsOwned(c: Claims) {
    forall id :: id in c.conns ==> c.conns[id].sessionId in c.sessions
  }

  ghost predicate SessionsBounded(c: Claims) {
    forall sid :: sid in c.sessions ==> sid < c.nextSession
  }

  // An active reservation is newer than every other one of its session.
  ghost predicate ActiveIsNewest(c: Claims) {
    forall a, b :: a in c.conns && Of(c, b, c.conns[a].sessionId) && a != b && Active(c.conns[a].status) ==>
      c.conns[b].createdAt < c.conns[a].createdAt
  }

  // A deleting session has no active reservation; cancelled ones only occur there.
  ghost predicate DeletingIsQuiet(c: Claims) {
    forall id :: id in c.conns && c.conns[id].sessionId in c.sessions ==>
      var deleting := c.sessions[c.conns[id].sessionId].status.Deleting?;
      && (deleting ==> !Active(c.conns[id].status))
      && (c.conns[id].status.Cancelled? ==> deleting)
  }

  // Once there is an administrator nobody contends for the VTA any more, and
  // whoever was provisioned is that administrator.
  ghost predicate AdminIsSettled(c: Claims) {
    forall id :: id in c.conns && c.conns[id].sessionId in c.sessions ==>
      SettledRow(c.sessions[c.conns[id].sessionId], c.conns[id])
  }

  ghost predicate OneHandover(c: Claims) {
    forall a, b :: a in c.conns && Of(c, b, c.conns[a].sessionId) && a != b ==>
      !(HandedOver(c.conns[a]) && HandedOver(c.conns[b]))
  }

  ghost predicate DigestsUnique(c: Claims) {
    forall a, b :: a in c.conns && b in c.conns && a != b && c.conns[a].accessDigest.Some? ==>
      c.conns[a].accessDigest != c.conns[b].accessDigest
  }

  ghost predicate Inv(c: Claims) {
    && RowsOk(c) && RowsOwned(c) && SessionsBounded(c)
    && ActiveIsNewest(c) && DeletingIsQuiet(c) && AdminIsSettled(c)
    && OneHandover(c) && DigestsUnique(c)
  }

  // ---- rule ----

  predicate SameTerms(r: Connection, r': Connection) {
    && r'.operation == r.operation && r'.adminDid == r.adminDid && r'.confirmBy == r.confirmBy
    && r'.claimantDigest == r.claimantDigest && r'.claimedAt == r.claimedAt && r'.releasedAt == r.releasedAt
  }

  // What may change in an existing reservation.
  ghost predicate RowStep(c: Claims, c': Claims, r: Connection, r': Connection) {
    && r'.sessionId == r.sessionId && r'.vtaDid == r.vtaDid
    && r'.createdAt == r.createdAt && r'.expiresAt == r.expiresAt
    && (r.accessDigest.Some? ==> r'.accessDigest == r.accessDigest)
    && (r'.status == r.status ==> SameTerms(r, r') && r'.confirmedAt == r.confirmedAt)
    && (r'.status != r.status ==> Edge(r.status, r'.status))
    && (r.sessionId in c'.sessions && r'.status != r.status ==> TermsStep(c'.sessions[r.sessionId], r, r', c'.clock))
  }

  // A session as it must be for its VTA to be handed over or shared.
  predicate Ready(s: Session) {
    if s.fullStack then s.status.AwaitingAdminDid? else s.status.VtaSetupComplete? || s.status.PoolWaiting?
  }

  predicate Offers(s: Session, operation: Operation, vtaDid: Did) {
    match operation
    case ProvisionVta => Ready(s) && s.adminDid.None? && s.vtaDid == vtaDid
    case GrantAcl => s.status.Running? && s.vtaDid == vtaDid
    case NoOperation => false
  }

  // The terms a claim was made on stay.
  predicate KeepsClaim(r: Connection, r': Connection) {
    && r'.operation == r.operation && r'.claimantDigest == r.claimantDigest
    && r'.claimedAt == r.claimedAt && r'.confirmBy == r.confirmBy
  }

  // What a change of status does to the terms of the reservation; s' is its
  // session afterwards, now the time of the change.
  ghost predicate TermsStep(s': Session, r: Connection, r': Connection, now: Time) {
    match r'.status
    case Claimed =>
      && r.createdAt <= now < r.expiresAt && Offers(s', r'.operation, r.vtaDid)
      && r'.adminDid.Some? && IsAdminDid(r'.adminDid.value) && r'.claimantDigest == r'.adminDid
      && r'.claimedAt == Some(now) && r'.confirmBy == Some(now + CONFIRMATION_LIFETIME)
      && r'.confirmedAt.None? && r'.releasedAt == r.releasedAt
    case Confirmed =>
      && KeepsClaim(r, r') && r'.adminDid == r.adminDid && r'.releasedAt == r.releasedAt
      && r'.confirmedAt == Some(now) && r.confirmBy.Some? && now < r.confirmBy.value && SinceRow(r, now)
    case Provisioning =>
      && KeepsClaim(r, r') && r'.adminDid == r.adminDid && r'.confirmedAt == r.confirmedAt && r'.releasedAt == r.releasedAt
      && (r'.operation.ProvisionVta? ==> s'.adminDid == r'.adminDid)
      && (!r'.operation.ProvisionVta? ==> Offers(s', r'.operation, r.vtaDid))
    case Released =>
      && KeepsClaim(r, r') && r'.adminDid == r.adminDid && r'.confirmedAt == r.confirmedAt
      && r'.releasedAt == Some(now)
    case _ => EndStep(s', r, r', now)
  }

  // How a reservation ends without a release: what was claimed lapses only at
  // its deadline or with its session, and is rejected only before.
  predicate EndStep(s': Session, r: Connection, r': Connection, now: Time) {
    && KeepsClaim(r, r') && r'.confirmedAt == r.confirmedAt && r'.releasedAt == r.releasedAt
    && (r'.adminDid == r.adminDid || r'.adminDid.None?)
    && (r'.status.Cancelled? ==> s'.status.Deleting?)
    && (r'.status.Failed? ==> r'.operation.GrantAcl?)
    && (r.status.Claimed? && r'.status.Lapsed? ==> s'.status.Deleting? || (r.confirmBy.Some? && now >= r.confirmBy.value))
    && (r.status.Claimed? && r'.status.Rejected? ==> r.confirmBy.Some? && now < r.confirmBy.value)
  }

  ghost predicate RowsStep(c: Claims, c': Claims) {
    forall id :: id in c.conns && id in c'.conns ==> RowStep(c, c', c.conns[id], c'.conns[id])
  }

  // A digest is bound to a reservation only while nobody else has it.
  ghost predicate DigestsStep(c: Claims, c': Claims) {
    forall a, b :: a in c.conns && a in c'.conns && b in c'.conns && a != b ==>
      (c'.conns[a].accessDigest != c.conns[a].accessDigest ==> c'.conns[b].accessDigest != c'.conns[a].accessDigest)
  }

  predicate Blank(r: Connection) {
    && r.status.Open? && r.expiresAt == r.createdAt + QR_LIFETIME && r.adminDid.None? && r.claimantDigest.None?
    && r.confirmBy.None? && r.claimedAt.None? && r.confirmedAt.None? && r.releasedAt.None? && r.accessDigest.None?
  }

  // A new reservation is blank, made for what its session offers, and the only
  // active one of its session.
  ghost predicate InsertStep(c: Claims, c': Claims) {
    forall id :: id in c'.conns && id !in c.conns ==>
      var r := c'.conns[id];
      && id !in c.used
      && Blank(r) && r.createdAt == c'.clock
      && r.sessionId in c.sessions && r.sessionId in c'.sessions && Offers(c'.sessions[r.sessionId], r.operation, r.vtaDid)
      && forall b :: Of(c', b, r.sessionId) && b != id ==> !Active(c'.conns[b].status) && c'.conns[b].createdAt < r.createdAt
  }

  // Reservations disappear only with their session.
  ghost predicate DeleteStep(c: Claims, c': Claims) {
    && (forall id :: id in c.conns && id !in c'.conns ==> c.conns[id].sessionId !in c'.sessions)
    && (forall id :: id in c'.conns ==> c'.conns[id].sessionId in c'.sessions)
  }

  ghost predicate SessionStep(c: Claims, c': Claims) {
    forall sid :: sid in c.sessions && sid in c'.sessions ==>
      var s, s' := c.sessions[sid], c'.sessions[sid];
      && s'.userId == s.userId && s'.fullStack == s.fullStack && s'.vtaName == s.vtaName
      && (s.status.Deleting? ==> s'.status.Deleting? && s'.adminDid == s.adminDid)
      && (!s.status.Deleting? && s'.status.Deleting? ==> Quiet(c', sid))
      && (s.adminDid.Some? ==> s'.adminDid == s.adminDid)
      && (s'.adminDid != s.adminDid ==> Settled(c', sid))
  }

  ghost predicate Quiet(c: Claims, sid: SessionId) {
    forall id :: Of(c, id, sid) ==> !Active(c.conns[id].status)
  }

  ghost predicate Settled(c: Claims, sid: SessionId)
    requires sid in c.sessions
  {
    forall id :: Of(c, id, sid) ==> SettledRow(c.sessions[sid], c.conns[id])
  }

  // What an administrator means for one reservation of its session.
  predicate SettledRow(s: Session, r: Connection) {
    && (s.adminDid.Some? ==> !Contender(r))
    && (r.operation.ProvisionVta? && (r.status.Provisioning? || r.status.Released?) ==> s.adminDid == r.adminDid)
  }

  // New sessions have new ids; a session disappears only from deleting.
  ghost predicate SessionSetStep(c: Claims, c': Claims) {
    && (forall sid :: sid in c'.sessions && sid !in c.sessions ==>
        c.nextSession <= sid < c'.nextSession && !c'.sessions[sid].status.Deleting?)
    && (forall sid :: sid in c.sessions && sid !in c'.sessions ==> c.sessions[sid].status.Deleting?)
    && c.nextSession <= c'.nextSession
  }

  ghost predicate Rule(c: Claims, c': Claims) {
    && c.used <= c'.used && c'.conns.Keys <= c'.used
    && RowsStep(c, c') && DigestsStep(c, c') && InsertStep(c, c') && DeleteStep(c, c')
    && SessionStep(c, c') && SessionSetStep(c, c')
  }

  // ---- the rule keeps the invariant ----

  lemma StepKeepsStatus(c: Claims, c': Claims, r: Connection, r': Connection)
    requires RowOk(r) && RowStep(c, c', r, r') && r.sessionId in c'.sessions
    ensures StatusOk(r')
  {
  }

  lemma StepKeepsTimes(c: Claims, c': Claims, r: Connection, r': Connection)
    requires RowOk(r) && RowStep(c, c', r, r') && r.sessionId in c'.sessions
    ensures TimesOk(r') && (r'.adminDid.Some? ==> IsAdminDid(r'.adminDid.value) && r'.claimantDigest == r'.adminDid)
  {
  }

  lemma KeepsRowsOk(c: Claims, c': Claims)
    requires Inv(c) && Rule(c, c')
    ensures RowsOk(c')
  {
    forall id | id in c'.conns
      ensures RowOk(c'.conns[id])
    {
      if id in c.conns {
        StepKeepsStatus(c, c', c.conns[id], c'.conns[id]);
        StepKeepsTimes(c, c', c.conns[id], c'.conns[id]);
      }
    }
  }

  lemma KeepsRowsOwned(c: Claims, c': Claims)
    requires Inv(c) && Rule(c, c')
    ensures RowsOwned(c') && SessionsBounded(c')
  {
  }

  lemma KeepsActiveIsNewest(c: Claims, c': Claims)
    requires Inv(c) && Rule(c, c')
    ensures ActiveIsNewest(c')
  {
    forall a, b | a in c'.conns && Of(c', b, c'.conns[a].sessionId) && a != b && Active(c'.conns[a].status)
      ensures c'.conns[b].createdAt < c'.conns[a].createdAt
    {
      if a in c.conns && b in c.conns {
        assert RowStep(c, c', c.conns[a], c'.conns[a]) && RowStep(c, c', c.conns[b], c'.conns[b]);
        assert Active(c.conns[a].status);
        assert Of(c, b, c.conns[a].sessionId);
      }
    }
  }

  lemma KeepsDeletingIsQuiet(c: Claims, c': Claims)
    requires Inv(c) && Rule(c, c')
    ensures DeletingIsQuiet(c')
  {
    forall id | id in c'.conns
      ensures var s := c'.sessions[c'.conns[id].sessionId];
        (s.status.Deleting? ==> !Active(c'.conns[id].status)) && (c'.conns[id].status.Cancelled? ==> s.status.Deleting?)
    {
      var sid := c'.conns[id].sessionId;
      assert Of(c', id, sid);
      if id in c.conns {
        assert RowStep(c, c', c.conns[id], c'.conns[id]);
        assert sid in c.sessions;
      }
    }
  }

  lemma KeepsAdminIsSettled(c: Claims, c': Claims)
    requires Inv(c) && Rule(c, c')
    ensures AdminIsSettled(c')
  {
    forall id | id in c'.conns
      ensures SettledRow(c'.sessions[c'.conns[id].sessionId], c'.conns[id])
    {
      if id in c.conns {
        OldRowStaysSettled(c, c', id);
      } else {
        NewRowIsSettled(c, c', id);
      }
    }
  }

  lemma OldRowStaysSettled(c: Claims, c': Claims, id: ConnId)
    requires Inv(c) && Rule(c, c') && id in c.conns && id in c'.conns
    ensures SettledRow(c'.sessions[c'.conns[id].sessionId], c'.conns[id])
  {
    var sid := c.conns[id].sessionId;
    assert RowStep(c, c', c.conns[id], c'.conns[id]);
    assert Of(c', id, sid);
    assert SettledRow(c.sessions[sid], c.conns[id]);
  }

  lemma NewRowIsSettled(c: Claims, c': Claims, id: ConnId)
    requires Inv(c) && Rule(c, c') && id !in c.conns && id in c'.conns
    ensures SettledRow(c'.sessions[c'.conns[id].sessionId], c'.conns[id])
  {
    assert Of(c', id, c'.conns[id].sessionId);
  }

  lemma KeepsDigestsUnique(c: Claims, c': Claims)
    requires Inv(c) && Rule(c, c')
    ensures DigestsUnique(c')
  {
    forall a, b | a in c'.conns && b in c'.conns && a != b && c'.conns[a].accessDigest.Some?
      ensures c'.conns[a].accessDigest != c'.conns[b].accessDigest
    {
      if a in c.conns && b in c.conns {
        assert RowStep(c, c', c.conns[a], c'.conns[a]) && RowStep(c, c', c.conns[b], c'.conns[b]);
      }
    }
  }

  // Only confirming makes a reservation a handover, and only from claimed.
  lemma BecomesHandedOver(c: Claims, c': Claims, id: ConnId)
    requires Inv(c) && Rule(c, c') && id in c'.conns && HandedOver(c'.conns[id])
    ensures id in c.conns && c'.conns[id].sessionId == c.conns[id].sessionId
    ensures HandedOver(c.conns[id]) || (Contender(c.conns[id]) && Active(c.conns[id].status))
  {
    assert id in c.conns;
    assert RowStep(c, c', c.conns[id], c'.conns[id]);
  }

  // Nothing contends in a session that was handed over.
  lemma HandoverExcludes(c: Claims, a: ConnId, b: ConnId)
    requires Inv(c) && a in c.conns && Of(c, b, c.conns[a].sessionId) && a != b
    requires HandedOver(c.conns[a])
    ensures !(Contender(c.conns[b]) && Active(c.conns[b].status))
  {
    var s := c.sessions[c.conns[a].sessionId];
    assert RowOk(c.conns[a]);
    assert SettledRow(s, c.conns[a]) && SettledRow(s, c.conns[b]);
    assert Of(c, a, c.conns[b].sessionId);
  }

  lemma KeepsOneHandover(c: Claims, c': Claims)
    requires Inv(c) && Rule(c, c')
    ensures OneHandover(c')
  {
    forall a, b | a in c'.conns && Of(c', b, c'.conns[a].sessionId) && a != b
      ensures !(HandedOver(c'.conns[a]) && HandedOver(c'.conns[b]))
    {
      if HandedOver(c'.conns[a]) && HandedOver(c'.conns[b]) {
        BecomesHandedOver(c, c', a);
        BecomesHandedOver(c, c', b);
        assert Of(c, b, c.conns[a].sessionId) && Of(c, a, c.conns[b].sessionId);
        if HandedOver(c.conns[a]) {
          HandoverExcludes(c, a, b);
        } else if HandedOver(c.conns[b]) {
          HandoverExcludes(c, b, a);
        }
        assert false;
      }
    }
  }

  lemma RuleKeepsInv(c: Claims, c': Claims)
    requires Inv(c) && Rule(c, c')
    ensures Inv(c')
  {
    KeepsRowsOk(c, c');
    KeepsRowsOwned(c, c');
    KeepsActiveIsNewest(c, c');
    KeepsDeletingIsQuiet(c, c');
    KeepsAdminIsSettled(c, c');
    KeepsOneHandover(c, c');
    KeepsDigestsUnique(c, c');
  }

  // ---- what lasts over many steps ----

  predicate Reach(a: ConnStatus, b: ConnStatus) {
    match a
    case Open => !b.Pending? && !b.Accepted? && !b.Expired?
    case Claimed => b.Claimed? || b.Rejected? || b.Lapsed? || b.Confirmed? || b.Provisioning? || b.Released? || b.Cancelled? || b.Failed?
    case Confirmed => b.Confirmed? || b.Provisioning? || b.Released? || b.Cancelled? || b.Failed?
    case Provisioning => b.Provisioning? || b.Released? || b.Cancelled? || b.Failed?
    case _ => a == b
  }

  predicate RowLater(r: Connection, r': Connection) {
    && r'.sessionId == r.sessionId && r'.createdAt == r.createdAt && r'.expiresAt == r.expiresAt
    && (r.claimedAt.Some? ==> KeepsClaim(r, r'))
    && Reach(r.status, r'.status)
    && (Final(r.status) ==> SameTerms(r, r') && r'.confirmedAt == r.confirmedAt)
    && (r.confirmedAt.Some? ==> r'.confirmedAt == r.confirmedAt && r'.operation == r.operation)
    && (r.accessDigest.Some? ==> r'.accessDigest == r.accessDigest)
  }

  predicate SessionLater(s: Session, s': Session) {
    && s'.userId == s.userId && s'.fullStack == s.fullStack && s'.vtaName == s.vtaName
    && (s.status.Deleting? ==> s'.status.Deleting? && s'.adminDid == s.adminDid)
    && (s.adminDid.Some? ==> s'.adminDid == s.adminDid)
  }

  ghost predicate Later(c: Claims, c': Claims) {
    && c.used <= c'.used && c.nextSession <= c'.nextSession
    && (forall sid :: sid in c.sessions && sid in c'.sessions ==> SessionLater(c.sessions[sid], c'.sessions[sid]))
    && (forall sid :: sid in c'.sessions && sid !in c.sessions ==> c.nextSession <= sid)
    && (forall id :: id in c.conns && id in c'.conns ==> RowLater(c.conns[id], c'.conns[id]))
    && (forall id :: id in c'.conns && id !in c.conns ==> id !in c.used && !Doomed(c, c'.conns[id].sessionId))
    && (forall id :: id in c.conns && id !in c'.conns ==> c.conns[id].sessionId !in c'.sessions)
  }

  predicate Doomed(c: Claims, sid: SessionId) { sid in c.sessions && c.sessions[sid].status.Deleting? }

  lemma EdgeIsReach(x: ConnStatus, y: ConnStatus)
    requires x == y || Edge(x, y)
    ensures Reach(x, y)
    ensures Final(x) ==> x == y
  {
  }

  lemma RuleIsRowLater(c: Claims, c': Claims, r: Connection, r': Connection)
    requires RowOk(r) && RowStep(c, c', r, r') && r.sessionId in c'.sessions
    ensures RowLater(r, r')
  {
    EdgeIsReach(r.status, r'.status);
  }

  lemma RuleIsLater(c: Claims, c': Claims)
    requires Inv(c) && Rule(c, c')
    ensures Later(c, c')
  {
    forall id | id in c.conns && id in c'.conns
      ensures RowLater(c.conns[id], c'.conns[id])
    {
      RuleIsRowLater(c, c', c.conns[id], c'.conns[id]);
    }
    forall id | id in c'.conns && id !in c.conns
      ensures id !in c.used && !Doomed(c, c'.conns[id].sessionId)
    {
    }
  }

  lemma ReachTransitive(x: ConnStatus, y: ConnStatus, z: ConnStatus)
    requires Reach(x, y) && Reach(y, z)
    ensures Reach(x, z)
    ensures Final(x) ==> x == y == z
  {
  }

  lemma LaterTransitive(a: Claims, b: Claims, c: Claims)
    requires RowsOwned(a) && RowsOwned(c) && SessionsBounded(a) && Later(a, b) && Later(b, c)
    requires a.conns.Keys <= a.used
    ensures Later(a, c)
  {
    forall sid | sid in a.sessions && sid in c.sessions
      ensures SessionLater(a.sessions[sid], c.sessions[sid])
    {
      assert sid in b.sessions;
    }
    forall id | id in a.conns && id in c.conns
      ensures RowLater(a.conns[id], c.conns[id])
    {
      assert id in b.conns;
      ReachTransitive(a.conns[id].status, b.conns[id].status, c.conns[id].status);
    }
    forall id | id in c.conns && id !in a.conns
      ensures id !in a.used && !Doomed(a, c.conns[id].sessionId)
    {
      LaterNewRow(a, b, c, id);
    }
    forall id | id in a.conns && id !in c.conns
      ensures a.conns[id].sessionId !in c.sessions
    {
      LaterLostRow(a, b, c, id);
    }
  }

  lemma LaterReflexive(c: Claims)
    requires Inv(c)
    ensures Later(c, c)
  {
  }

  lemma LaterChain(a: Claims, b: Claims, c: Claims)
    requires Inv(a) && Inv(c) && Later(a, b) && Later(b, c)
    ensures Later(a, c)
  {
    LaterTransitive(a, b, c);
  }

  lemma LaterNewRow(a: Claims, b: Claims, c: Claims, id: ConnId)
    requires RowsOwned(c) && SessionsBounded(a) && Later(a, b) && Later(b, c)
    requires id in c.conns && id !in a.conns
    ensures id !in a.used && !Doomed(a, c.conns[id].sessionId)
  {
    var sid := c.conns[id].sessionId;
    assert sid in c.sessions;
    assert sid in a.sessions ==> sid in b.sessions;
  }

  lemma LaterLostRow(a: Claims, b: Claims, c: Claims, id: ConnId)
    requires RowsOwned(a) && SessionsBounded(a) && Later(a, b) && Later(b, c)
    requires id in a.conns && id !in c.conns
    ensures a.conns[id].sessionId !in c.sessions
  {
  }

  // ---- the newest reservation ----

  // The order created_at DESC, id DESC.
  predicate Newer(x: Connection, i: ConnId, y: Connection, j: ConnId) {
    x.createdAt > y.createdAt || (x.createdAt == y.createdAt && i >= j)
  }

  ghost predicate IsCurrent(c: Claims, sid: SessionId, o: Option<ConnId>) {
    match o
    case None => forall id :: id in c.conns ==> c.conns[id].sessionId != sid
    case Some(top) => Of(c, top, sid) && forall id :: Of(c, id, sid) ==> Newer(c.conns[top], top, c.conns[id], id)
  }

  lemma CurrentUnique(c: Claims, sid: SessionId, o: Option<ConnId>, o': Option<ConnId>)
    requires IsCurrent(c, sid, o) && IsCurrent(c, sid, o')
    ensures o == o'
  {
    if o.Some? {
      assert Of(c, o.value, sid);
    }
    if o'.Some? {
      assert Of(c, o'.value, sid);
    }
  }

  // At most one reservation of a session is active, and it is the newest.
  lemma ActiveIsCurrent(c: Claims, id: ConnId, o: Option<ConnId>)
    requires Inv(c) && id in c.conns && Active(c.conns[id].status)
    requires IsCurrent(c, c.conns[id].sessionId, o)
    ensures o == Some(id)
    ensures forall b :: Of(c, b, c.conns[id].sessionId) && Active(c.conns[b].status) ==> b == id
  {
    var sid := c.conns[id].sessionId;
    assert Of(c, id, sid);
    assert o.Some? ==> Of(c, o.value, sid);
    forall b | Of(c, b, sid) && Active(c.conns[b].status)
      ensures b == id
    {
      assert Of(c, id, c.conns[b].sessionId);
    }
  }

  // ---- what holds between any two states of a run ----

  // Exactly what the cleanup of a pool session demands before it destroys it.
  ghost predicate Cleanable(c: Claims, sid: SessionId) {
    && sid in c.sessions && c.sessions[sid].status.Deleting? && c.sessions[sid].adminDid.None?
    && forall id :: Of(c, id, sid) ==> c.conns[id].confirmedAt.None?
  }

  lemma CleanableStays(c: Claims, c': Claims, sid: SessionId)
    requires Inv(c) && Inv(c') && Later(c, c') && Cleanable(c, sid) && sid in c'.sessions
    ensures Cleanable(c', sid)
  {
    assert SessionLater(c.sessions[sid], c'.sessions[sid]);
    forall id | Of(c', id, sid)
      ensures c'.conns[id].confirmedAt.None?
    {
      assert id in c.conns by {
        assert Doomed(c, sid);
      }
      assert RowLater(c.conns[id], c'.conns[id]);
      assert Of(c, id, sid);
      assert RowOk(c.conns[id]);
    }
  }

  // The reservation through which a VTA was handed over.
  predicate Provisioned(c: Claims, id: ConnId, sid: SessionId) {
    Of(c, id, sid) && c.conns[id].operation.ProvisionVta? && (c.conns[id].status.Provisioning? || c.conns[id].status.Released?)
  }

  // Write-once handover: whoever was provisioned at any moment is, then and
  // ever after, the administrator, and no other reservation is ever provisioned.
  lemma HandoverIsWriteOnce(c: Claims, c': Claims, sid: SessionId, a: ConnId, b: ConnId)
    requires Inv(c) && Inv(c') && Later(c, c') && sid in c'.sessions
    requires Provisioned(c, a, sid)
    ensures sid in c.sessions && c.sessions[sid].adminDid.Some?
    ensures c.conns[a].adminDid == c.sessions[sid].adminDid == c'.sessions[sid].adminDid
    ensures Provisioned(c', b, sid) ==> b == a && c'.conns[b].adminDid == c.sessions[sid].adminDid
  {
    var s := c.sessions[sid];
    assert RowOk(c.conns[a]) && SettledRow(s, c.conns[a]);
    assert SessionLater(s, c'.sessions[sid]);
    assert a in c'.conns;
    assert RowLater(c.conns[a], c'.conns[a]);
    if Provisioned(c', b, sid) {
      assert RowOk(c'.conns[b]) && SettledRow(c'.sessions[sid], c'.conns[b]);
      assert HandedOver(c'.conns[a]) && HandedOver(c'.conns[b]) && Of(c', b, c'.conns[a].sessionId);
    }
  }

  // No step ever leaves a final status or rewrites a final reservation.
  lemma FinalIsAbsorbing(c: Claims, c': Claims, id: ConnId)
    requires Later(c, c') && id in c.conns && id in c'.conns && Final(c.conns[id].status)
    ensures c'.conns[id].status == c.conns[id].status
    ensures SameTerms(c.conns[id], c'.conns[id]) && c'.conns[id].confirmedAt == c.conns[id].confirmedAt
  {
    assert RowLater(c.conns[id], c'.conns[id]);
  }

  // A handed-over VTA is never cleanable: not then, not before, not after.
  lemma HandedOverIsNotCleanable(c: Claims, c': Claims, sid: SessionId, a: ConnId)
    requires Inv(c) && Inv(c') && Later(c, c') && sid in c.sessions && sid in c'.sessions
    requires Of(c, a, sid) && c.conns[a].confirmedAt.Some?
    ensures !Cleanable(c, sid) && !Cleanable(c', sid)
  {
    assert a in c'.conns;
    assert RowLater(c.conns[a], c'.conns[a]);
    assert Of(c', a, sid);
  }

  lemma CleanableWasNeverHandedOver(c: Claims, c': Claims, sid: SessionId, a: ConnId)
    requires Inv(c) && Inv(c') && Later(c, c') && sid in c.sessions && Cleanable(c', sid)
    ensures c.sessions[sid].adminDid.None?
    ensures Of(c, a, sid) ==> c.conns[a].confirmedAt.None?
  {
    assert SessionLater(c.sessions[sid], c'.sessions[sid]);
    if Of(c, a, sid) {
      assert a in c'.conns;
      assert RowLater(c.conns[a], c'.conns[a]);
      assert Of(c', a, sid);
    }
  }

  // Every confirmation came in time: the claim before its QR code expired, the
  // confirmation before the claim did. Whoever still holds the reservation is a
  // valid did:key, and the one that claimed it.
  lemma HandoverInTime(c: Claims, id: ConnId)
    requires Inv(c) && id in c.conns && c.conns[id].confirmedAt.Some?
    ensures var r := c.conns[id];
      && r.claimedAt.Some? && r.createdAt <= r.claimedAt.value < r.createdAt + QR_LIFETIME
      && r.claimedAt.value <= r.confirmedAt.value < r.claimedAt.value + CONFIRMATION_LIFETIME
      && (r.adminDid.Some? ==> IsAdminDid(r.adminDid.value) && r.claimantDigest == r.adminDid)
      && (r.status.Released? ==> r.adminDid.Some?)
  {
    assert RowOk(c.conns[id]);
  }
}
