// The pool's transactions over reservations and sessions: what they do to the
// tables, and what they guarantee.
module PoolTransactions {
  import opened Rows
  import opened Protocol
  import opened Transactions

  const DIGEST_LENGTH := 32

  // Everything the pool reads and writes. `members` is pool_sessions.
  datatype Db = Db(
    claims: Claims, members: map<SessionId, BatchId>, batches: map<BatchId, Batch>,
    additions: map<AdditionId, Addition>, users: map<UserId, User>, passkeys: set<UserId>,
    nextUser: UserId, nextBatch: BatchId, nextAddition: AdditionId)

  // ---- reserve ----

  // The clock readings of one transaction, in order.
  ghost predicate Readings(times: nat -> Time) { forall i: nat, j: nat :: i <= j ==> times(i) <= times(j) }

  predicate LiveClaim(r: Connection, now: Time) {
    || (r.status.Open? && r.expiresAt > now)
    || (r.status.Claimed? && r.confirmBy.Some? && r.confirmBy.value > now)
    || r.status.Confirmed? || r.status.Provisioning?
  }

  predicate Waiting(s: Session) { s.status.PoolWaiting? && s.adminDid.None? }

  ghost predicate Unclaimed(c: Claims, sid: SessionId, now: Time) {
    && sid in c.sessions && Waiting(c.sessions[sid])
    && forall id :: Of(c, id, sid) ==> !LiveClaim(c.conns[id], now)
  }

  // The rows the candidate query returns for an eligible set of batches.
  ghost predicate AreCandidates(d: Db, eligible: set<BatchId>, now: Time, candidates: seq<SessionId>) {
    && (forall sid :: sid in candidates <==> sid in d.members && d.members[sid] in eligible && Unclaimed(d.claims, sid, now))
    && (forall i, j :: 0 <= i < j < |candidates| ==> candidates[i] != candidates[j])
  }

  // The candidates are the query's answer at d0, some time before the sessions
  // are tried at d: whatever commits in between, they may no longer be free.
  ghost predicate Answered(d0: Db, d: Db, eligible: set<BatchId>, asked: Time, candidates: seq<SessionId>) {
    Inv(d0.claims) && Later(d0.claims, d.claims) && AreCandidates(d0, eligible, asked, candidates)
  }

  // Tries the candidates from the i-th on. `skipped` are those another
  // transaction holds, or that could not be reserved when their turn came.
  ghost function ReserveFrom(c: Claims, candidates: seq<SessionId>, skipped: set<SessionId>, times: nat -> Time,
      i: nat, freshId: ConnId): Outcome<ConnId>
    requires i <= |candidates|
    decreases |candidates| - i
  {
    if i == |candidates| then Abort(Empty)
    else
      var sid := candidates[i];
      if sid in skipped || sid !in c.sessions || !Waiting(c.sessions[sid]) then ReserveFrom(c, candidates, skipped, times, i + 1, freshId)
      else
        var o := ChangeTx(c, sid, Create, None, true, times(i + 1), freshId);
        if o.Abort? && (o.error.Conflict? || o.error.Cooldown?) then ReserveFrom(c, candidates, skipped, times, i + 1, freshId) else o
  }

  // Why a waiting session cannot be reserved: it is a full stack, or its newest
  // reservation is claimed and not yet reconciled, or over too recently.
  ghost predicate Blocked(c: Claims, sid: SessionId, now: Time) {
    var current := CurrentOf(c, sid);
    || (sid in c.sessions && c.sessions[sid].fullStack)
    || (current.Some? && Engaged(c.conns[current.value], now))
  }

  predicate Engaged(r: Connection, now: Time) { InClaim(r.status) || (Final(r.status) && now - r.createdAt < COOLDOWN) }

  ghost predicate Available(c: Claims, candidates: seq<SessionId>, skipped: set<SessionId>, times: nat -> Time, i: nat)
    requires i < |candidates|
  {
    var sid := candidates[i];
    sid !in skipped && sid in c.sessions && Waiting(c.sessions[sid]) && !Blocked(c, sid, times(i + 1))
  }

  // The new reservation o of a transaction at c.
  ghost predicate Reserved(c: Claims, o: Outcome<ConnId>, sid: SessionId, now: Time, freshId: ConnId) {
    && o.Commit? && o.value == freshId && freshId in o.claims.conns && sid in c.sessions && Waiting(c.sessions[sid])
    && o.claims.conns[freshId] == NewConnection(c.sessions[sid], sid, ProvisionVta, now)
    && o.claims.sessions == c.sessions
    && (forall id :: Of(o.claims, id, sid) && id != freshId ==>
        id in c.conns && !LiveClaim(c.conns[id], now) && !Active(o.claims.conns[id].status))
    && (forall id :: id in c.conns && c.conns[id].sessionId != sid ==> id in o.claims.conns && o.claims.conns[id] == c.conns[id])
  }

  // An open reservation somebody made since the query, returned as it is.
  ghost predicate MadeSince(c0: Claims, c: Claims, o: Outcome<ConnId>, sid: SessionId, now: Time) {
    && o.Commit? && Of(c, o.value, sid) && o.value !in c0.conns && o.claims == c.(clock := now)
    && c.conns[o.value].status.Open? && now < c.conns[o.value].expiresAt
  }

  lemma ReservedInsert(c: Claims, sid: SessionId, current: Option<ConnId>, now: Time, freshId: ConnId)
    requires Inv(c) && freshId !in c.used && sid in c.sessions && Waiting(c.sessions[sid]) && Replaceable(c, sid, current, now)
    requires current.Some? && c.conns[current.value].status.Open? ==> c.conns[current.value].expiresAt <= now
    ensures Reserved(c, Commit(InsertTx(LapseCurrent(c, current), sid, ProvisionVta, now, freshId), freshId), sid, now, freshId)
  {
    var d := LapseCurrent(c, current);
    var c' := InsertTx(d, sid, ProvisionVta, now, freshId);
    forall id | Of(c', id, sid) && id != freshId
      ensures id in c.conns && !LiveClaim(c.conns[id], now) && !Active(c'.conns[id].status)
    {
      assert Of(c, id, sid);
      OthersAreOver(c, sid, current, now, id);
    }
    assert current.Some? ==> Of(c, current.value, sid);
  }

  // Trying a waiting session: a block refuses it, an open unexpired reservation
  // is returned, and otherwise a new one is inserted.
  lemma ChangeReserves(c: Claims, sid: SessionId, now: Time, freshId: ConnId)
    requires Inv(c) && freshId !in c.used && sid in c.sessions && Waiting(c.sessions[sid])
    ensures var o := ChangeTx(c, sid, Create, None, true, now, freshId);
      var current := CurrentOf(c, sid);
      if Blocked(c, sid, now) then o.Abort? && (o.error.Conflict? || o.error.Cooldown?)
      else if current.Some? && c.conns[current.value].status.Open? && now < c.conns[current.value].expiresAt
      then o == Commit(c.(clock := now), current.value)
      else Reserved(c, o, sid, now, freshId)
  {
    var current := CurrentOf(c, sid);
    var s := c.sessions[sid];
    assert !s.fullStack ==> OperationFor(s, s.vtaDid) == Some(ProvisionVta);
    if current.Some? {
      assert Of(c, current.value, sid) && RowOk(c.conns[current.value]);
    }
    if !Blocked(c, sid, now) && !(current.Some? && c.conns[current.value].status.Open? && now < c.conns[current.value].expiresAt) {
      var o := ChangeTx(c, sid, Create, None, true, now, freshId);
      assert o == Commit(InsertTx(LapseCurrent(c, current), sid, ProvisionVta, now, freshId), freshId);
      ReservedInsert(c, sid, current, now, freshId);
    }
  }

  // A row the query saw unclaimed is not open and unexpired later.
  lemma OpenIsMadeSince(c0: Claims, c: Claims, sid: SessionId, asked: Time, now: Time, id: ConnId)
    requires Later(c0, c) && asked <= now && Unclaimed(c0, sid, asked) && Of(c, id, sid)
    requires c.conns[id].status.Open? && now < c.conns[id].expiresAt
    ensures id !in c0.conns
  {
    assert id in c0.conns ==> RowLater(c0.conns[id], c.conns[id]) && Of(c0, id, sid);
  }

  lemma CandidateReserves(d0: Db, d: Db, eligible: set<BatchId>, candidates: seq<SessionId>, skipped: set<SessionId>,
      times: nat -> Time, i: nat, freshId: ConnId)
    requires Inv(d.claims) && Readings(times) && freshId !in d.claims.used && i < |candidates|
    requires Answered(d0, d, eligible, times(0), candidates) && Available(d.claims, candidates, skipped, times, i)
    ensures var o := ReserveFrom(d.claims, candidates, skipped, times, i, freshId);
      Reserved(d.claims, o, candidates[i], times(i + 1), freshId) || MadeSince(d0.claims, d.claims, o, candidates[i], times(i + 1))
  {
    var sid, now := candidates[i], times(i + 1);
    assert sid in candidates;
    ChangeReserves(d.claims, sid, now, freshId);
    var current := CurrentOf(d.claims, sid);
    if current.Some? && d.claims.conns[current.value].status.Open? && now < d.claims.conns[current.value].expiresAt {
      assert Of(d.claims, current.value, sid);
      OpenIsMadeSince(d0.claims, d.claims, sid, times(0), now, current.value);
    }
  }

  lemma PassedOver(c: Claims, candidates: seq<SessionId>, skipped: set<SessionId>, times: nat -> Time, i: nat, freshId: ConnId)
    requires Inv(c) && freshId !in c.used && i < |candidates| && !Available(c, candidates, skipped, times, i)
    ensures ReserveFrom(c, candidates, skipped, times, i, freshId) == ReserveFrom(c, candidates, skipped, times, i + 1, freshId)
  {
    if candidates[i] in c.sessions && Waiting(c.sessions[candidates[i]]) {
      ChangeReserves(c, candidates[i], times(i + 1), freshId);
    }
  }

  ghost predicate AnyAvailable(c: Claims, candidates: seq<SessionId>, skipped: set<SessionId>, times: nat -> Time, i: nat) {
    exists k :: i <= k < |candidates| && Available(c, candidates, skipped, times, k)
  }

  lemma NextAvailable(c: Claims, candidates: seq<SessionId>, skipped: set<SessionId>, times: nat -> Time, i: nat)
    requires i < |candidates| && !Available(c, candidates, skipped, times, i)
    ensures AnyAvailable(c, candidates, skipped, times, i) <==> AnyAvailable(c, candidates, skipped, times, i + 1)
  {
  }

  ghost predicate Reserves(d0: Db, d: Db, o: Outcome<ConnId>, candidates: seq<SessionId>, skipped: set<SessionId>,
      times: nat -> Time, i: nat, freshId: ConnId)
  {
    exists k :: i <= k < |candidates| && Available(d.claims, candidates, skipped, times, k)
      && (Reserved(d.claims, o, candidates[k], times(k + 1), freshId)
          || MadeSince(d0.claims, d.claims, o, candidates[k], times(k + 1)))
  }

  // Reservation is exclusive and complete. Whatever committed since the query,
  // it inserts one new open reservation for a session without a live claim, or
  // returns an open one made since; it comes back empty exactly when every
  // candidate is skipped, no longer waiting, or blocked.
  lemma {:induction false} ReserveIsExclusive(d0: Db, d: Db, eligible: set<BatchId>, candidates: seq<SessionId>,
      skipped: set<SessionId>, times: nat -> Time, i: nat, freshId: ConnId)
    requires Inv(d.claims) && Readings(times) && freshId !in d.claims.used
    requires Answered(d0, d, eligible, times(0), candidates) && i <= |candidates|
    ensures var o := ReserveFrom(d.claims, candidates, skipped, times, i, freshId);
      if AnyAvailable(d.claims, candidates, skipped, times, i)
      then Reserves(d0, d, o, candidates, skipped, times, i, freshId) else o == Abort(Empty)
    decreases |candidates| - i
  {
    if i < |candidates| {
      if Available(d.claims, candidates, skipped, times, i) {
        CandidateReserves(d0, d, eligible, candidates, skipped, times, i, freshId);
      } else {
        PassedOver(d.claims, candidates, skipped, times, i, freshId);
        NextAvailable(d.claims, candidates, skipped, times, i);
        ReserveIsExclusive(d0, d, eligible, candidates, skipped, times, i + 1, freshId);
      }
    }
  }

  // No reservation of a candidate was made since the query.
  ghost predicate NoneMade(d0: Db, d: Db, candidates: seq<SessionId>) {
    forall id :: id in d.claims.conns && d.claims.conns[id].sessionId in candidates ==> id in d0.claims.conns
  }

  // Nothing binds a digest while the pool's lock is held.
  ghost predicate NoneBound(d0: Db, d: Db) {
    forall id :: id in d.claims.conns && id !in d0.claims.conns ==> d.claims.conns[id].accessDigest.None?
  }

  lemma {:induction false} ReserveObeys(c: Claims, candidates: seq<SessionId>, skipped: set<SessionId>,
      times: nat -> Time, i: nat, freshId: ConnId)
    requires Inv(c) && freshId !in c.used && i <= |candidates|
    ensures Rule(c, After(c, ReserveFrom(c, candidates, skipped, times, i, freshId)))
    decreases |candidates| - i
  {
    if i < |candidates| {
      ChangeObeys(c, candidates[i], Create, None, true, times(i + 1), freshId);
      ReserveObeys(c, candidates, skipped, times, i + 1, freshId);
    } else {
      assert Rule(c, c);
    }
  }

  // ---- public reservations ----

  ghost predicate Bound(c: Claims, digest: string, id: ConnId) { id in c.conns && c.conns[id].accessDigest == Some(digest) }

  ghost predicate PublicEnabled(batches: map<BatchId, Batch>, b: BatchId) {
    b in batches && batches[b].purpose.PublicSignup? && batches[b].publicSince.Some?
  }

  ghost function PublicBatches(batches: map<BatchId, Batch>): set<BatchId> {
    set b | b in batches && PublicEnabled(batches, b)
  }

  ghost function ReservePublicTx(d: Db, digest: string, candidates: seq<SessionId>, skipped: set<SessionId>,
      times: nat -> Time, freshId: ConnId): Outcome<(ConnId, bool)> {
    if |digest| != DIGEST_LENGTH then Abort(Invalid)
    else if exists id :: Bound(d.claims, digest, id) then
      var id :| Bound(d.claims, digest, id);
      Commit(d.claims, (id, false))
    else if !exists b :: PublicEnabled(d.batches, b) then Abort(PublicDisabled)
    else
      match ReserveFrom(d.claims, candidates, skipped, times, 0, freshId)
      case Abort(e) => Abort(e)
      case Commit(c, id) => if id in c.conns then Commit(BindDigest(c, id, digest), (id, true)) else Abort(NotFound)
  }

  function BindDigest(c: Claims, id: ConnId, digest: string): Claims
    requires id in c.conns
  {
    Put(c, id, c.conns[id].(accessDigest := Some(digest)))
  }

  lemma BindRows(c: Claims, id: ConnId, digest: string)
    requires id in c.conns && c.conns[id].accessDigest.None?
    ensures RowsStep(c, BindDigest(c, id, digest))
  {
    var c' := BindDigest(c, id, digest);
    forall i | i in c.conns
      ensures RowStep(c, c', c.conns[i], c'.conns[i])
    {
    }
  }

  lemma BindDigests(c: Claims, id: ConnId, digest: string)
    requires id in c.conns && forall i :: !Bound(c, digest, i)
    ensures DigestsStep(c, BindDigest(c, id, digest))
  {
    var c' := BindDigest(c, id, digest);
    forall a, b | a in c.conns && b in c.conns && a != b && c'.conns[a].accessDigest != c.conns[a].accessDigest
      ensures c'.conns[b].accessDigest != c'.conns[a].accessDigest
    {
      assert !Bound(c, digest, b);
    }
  }

  lemma BindObeys(c: Claims, id: ConnId, digest: string)
    requires Inv(c) && id in c.conns && c.conns[id].accessDigest.None?
    requires forall i :: !Bound(c, digest, i)
    ensures Rule(c, BindDigest(c, id, digest))
  {
    BindRows(c, id, digest);
    BindDigests(c, id, digest);
    SameTablesObey(c, BindDigest(c, id, digest));
  }

  // A committed public reservation is bound to its digest, and repeating the
  // request returns that same reservation at any later moment.
  lemma PublicIsIdempotent(d: Db, d': Db, digest: string, id: ConnId, candidates: seq<SessionId>,
      skipped: set<SessionId>, times: nat -> Time, freshId: ConnId)
    requires Inv(d.claims) && Inv(d'.claims) && Later(d.claims, d'.claims)
    requires Bound(d.claims, digest, id) && id in d'.claims.conns && |digest| == DIGEST_LENGTH
    ensures ReservePublicTx(d', digest, candidates, skipped, times, freshId) == Commit(d'.claims, (id, false))
    ensures forall i :: Bound(d'.claims, digest, i) ==> i == id
  {
    assert RowLater(d.claims.conns[id], d'.claims.conns[id]);
    assert Bound(d'.claims, digest, id);
  }

  // ---- confirm, reject ----

  function PoolConfirmTx(d: Db, id: ConnId, confirmed: Time, started: Time): Outcome<ConnId> {
    var c := d.claims;
    if id !in c.conns then Abort(NotFound)
    else if c.conns[id].sessionId !in d.members then Abort(Conflict)
    else
      match ConfirmTx(c, c.conns[id].sessionId, id, confirmed)
      case Commit(c1, _) => StartTx(c1, id, started)
      case Abort(e) =>
        if c.conns[id].status.Confirmed? || c.conns[id].status.Provisioning? || c.conns[id].status.Released? then Commit(c, id)
        else Abort(e)
  }

  ghost function PoolRejectTx(d: Db, id: ConnId, now: Time): Outcome<ConnId> {
    var c := d.claims;
    if id !in c.conns then Abort(NotFound)
    else if c.conns[id].sessionId !in d.members then Abort(Conflict)
    else
      match c.conns[id].status
      case Open => ChangeTx(c, c.conns[id].sessionId, Action.Cancel, Some(id), false, now, 0)
      case Claimed => RejectTx(c, c.conns[id].sessionId, id, now)
      case _ => Abort(Conflict)
  }

  // Confirming hands the VTA over in the same transaction, and confirming
  // again changes nothing.
  lemma PoolConfirmHandsOver(d: Db, id: ConnId, confirmed: Time, started: Time, again: Time, later: Time)
    requires Inv(d.claims)
    requires PoolConfirmTx(d, id, confirmed, started).Commit?
    requires d.claims.conns[id].status.Claimed? && d.claims.conns[id].operation.ProvisionVta?
    ensures var c := PoolConfirmTx(d, id, confirmed, started).claims;
      && c.conns[id].status.Provisioning? && c.conns[id].confirmedAt == Some(confirmed)
      && c.sessions[c.conns[id].sessionId].adminDid == d.claims.conns[id].adminDid
      && PoolConfirmTx(d.(claims := c), id, again, later) == Commit(c, id)
  {
  }

  lemma PoolConfirmIsLater(d: Db, id: ConnId, confirmed: Time, started: Time)
    requires Inv(d.claims) && LockedReading(d.claims, id, confirmed)
    ensures var c := After(d.claims, PoolConfirmTx(d, id, confirmed, started)); Inv(c) && Later(d.claims, c)
  {
    var c := d.claims;
    RuleIsLaterInv(c, c);
    if id in c.conns && c.conns[id].sessionId in d.members && ConfirmTx(c, c.conns[id].sessionId, id, confirmed).Commit? {
      var c1 := ConfirmTx(c, c.conns[id].sessionId, id, confirmed).claims;
      ConfirmObeys(c, c.conns[id].sessionId, id, confirmed);
      RuleIsLaterInv(c, c1);
      StartObeys(c1, id, started);
      var c2 := After(c1, StartTx(c1, id, started));
      RuleIsLaterInv(c1, c2);
      LaterTransitive(c, c1, c2);
    }
  }

  lemma RuleIsLaterInv(c: Claims, c': Claims)
    requires Inv(c) && (c == c' || Rule(c, c'))
    ensures Inv(c') && Later(c, c')
  {
    if c != c' {
      RuleKeepsInv(c, c');
      RuleIsLater(c, c');
    }
  }

  // ---- retries ----

  // The reservation through which the administrator of this session was confirmed.
  predicate RetryRow(s: Session, sid: SessionId, r: Connection) {
    && r.sessionId == sid && r.operation.ProvisionVta? && r.adminDid == s.adminDid
    && r.confirmedAt.Some? && (r.status.Confirmed? || r.status.Provisioning?)
  }

  predicate Retryable(c: Claims, sid: SessionId, id: ConnId)
    requires sid in c.sessions
  {
    id in c.conns && RetryRow(c.sessions[sid], sid, c.conns[id])
  }

  ghost function RetryActivationTx(d: Db, sid: SessionId): Outcome<()> {
    var c := d.claims;
    if sid !in d.members then Abort(Conflict)
    else if sid !in c.sessions then Abort(NotFound)
    else if !c.sessions[sid].status.Failed? || c.sessions[sid].adminDid.None? then Abort(Conflict)
    else if !exists id :: Retryable(c, sid, id) then Abort(Conflict)
    else Commit(PutSession(c, sid, c.sessions[sid].(status := SessionStatus.Provisioning)), ())
  }

  ghost function RetryBuildTx(d: Db, sid: SessionId): Outcome<()> {
    var c := d.claims;
    if sid !in d.members then Abort(Conflict)
    else if sid !in c.sessions then Abort(NotFound)
    else if !c.sessions[sid].status.Failed? || c.sessions[sid].adminDid.Some? then Abort(Conflict)
    else if exists id :: Of(c, id, sid) && c.conns[id].confirmedAt.Some? then Abort(Conflict)
    else Commit(PutSession(c, sid, c.sessions[sid].(status := PoolCreating)), ())
  }

  // Recorded only while the session is not being deleted.
  function BuildErrorTx(c: Claims, sid: SessionId): Claims {
    if sid in c.sessions && !c.sessions[sid].status.Deleting? then PutSession(c, sid, c.sessions[sid].(status := SessionStatus.Failed)) else c
  }

  // The orchestrator moves a session on, but neither into deleting nor out of it.
  function OrchestrateTx(c: Claims, sid: SessionId, status: SessionStatus, vtaDid: Did): Claims {
    if sid in c.sessions && !c.sessions[sid].status.Deleting? && !status.Deleting?
    then PutSession(c, sid, c.sessions[sid].(status := status, vtaDid := vtaDid)) else c
  }

  lemma StatusObeys(c: Claims, sid: SessionId, status: SessionStatus)
    requires Inv(c) && sid in c.sessions && !c.sessions[sid].status.Deleting? && !status.Deleting?
    ensures Rule(c, PutSession(c, sid, c.sessions[sid].(status := status)))
  {
    var c' := PutSession(c, sid, c.sessions[sid].(status := status));
    forall id | id in c.conns
      ensures RowUpdated(c, c', id)
    {
    }
    UpdateObeys(c, c');
  }

  // A retried activation keeps its reservation and its administrator, and it is
  // the one reservation of the session that is provisioned.
  lemma RetryKeepsHandover(d: Db, sid: SessionId, id: ConnId, b: ConnId)
    requires Inv(d.claims) && RetryActivationTx(d, sid).Commit? && Retryable(d.claims, sid, id)
    ensures RetryActivationTx(d, sid).claims.conns == d.claims.conns
    ensures Provisioned(d.claims, id, sid) && (Provisioned(d.claims, b, sid) ==> b == id)
  {
    assert SettledRow(d.claims.sessions[sid], d.claims.conns[id]);
    if Provisioned(d.claims, b, sid) {
      assert RowOk(d.claims.conns[b]) && Of(d.claims, b, d.claims.conns[id].sessionId);
      assert HandedOver(d.claims.conns[b]) && HandedOver(d.claims.conns[id]);
    }
  }

  // ---- cleanup ----

  predicate ExpiredOrOver(r: Connection, now: Time) {
    match r.status
    case Open => r.expiresAt <= now
    case Claimed => r.confirmBy.Some? && r.confirmBy.value <= now
    case Confirmed => false
    case Provisioning => false
    case Released => false
    case _ => true
  }

  // The condition under which a set of members may be destroyed.
  ghost predicate Disposable(d: Db, ids: set<SessionId>, now: Time) {
    && ids <= d.members.Keys && ids <= d.claims.sessions.Keys
    && (forall sid :: sid in ids ==> DisposableSession(d, sid))
    && (forall a, b :: a in ids && b in ids && a != b ==> d.claims.sessions[a].userId != d.claims.sessions[b].userId)
    && (forall id :: id in d.claims.conns && d.claims.conns[id].sessionId in ids ==>
        d.claims.conns[id].confirmedAt.None? && ExpiredOrOver(d.claims.conns[id], now))
  }

  ghost predicate DisposableSession(d: Db, sid: SessionId)
    requires sid in d.claims.sessions
  {
    var s := d.claims.sessions[sid];
    && s.adminDid.None? && (s.status.PoolWaiting? || s.status.Failed?)
    && s.userId in d.users && !d.users[s.userId].hasEmail && !d.users[s.userId].fullstackAccess && s.userId !in d.passkeys
  }

  // The sessions a list names.
  function Named(ids: seq<SessionId>): set<SessionId> { set sid | sid in ids }

  function Doom(c: Claims, ids: set<SessionId>, now: Time): Claims {
    c.(sessions := DeletingAll(c.sessions, ids), conns := LapseExpiredOf(c.conns, ids, now), clock := now)
  }

  function DeletingAll(sessions: map<SessionId, Session>, ids: set<SessionId>): map<SessionId, Session> {
    map sid | sid in sessions :: if sid in ids then sessions[sid].(status := Deleting) else sessions[sid]
  }

  function LapseExpiredOf(conns: map<ConnId, Connection>, ids: set<SessionId>, now: Time): map<ConnId, Connection> {
    map id | id in conns :: if conns[id].sessionId in ids then LapsedRow(conns[id], now) else conns[id]
  }

  function LapsedRow(r: Connection, now: Time): Connection {
    if r.status.Open? && r.expiresAt <= now then r.(status := Lapsed)
    else if r.status.Claimed? && r.confirmBy.Some? && r.confirmBy.value <= now then r.(status := Lapsed, adminDid := None)
    else r
  }

  ghost function CleanupTx(d: Db, ids: set<SessionId>, now: Time): Outcome<()> {
    if Disposable(d, ids, now) then Commit(Doom(d.claims, ids, now), ()) else Abort(Conflict)
  }

  ghost function QueueCleanupTx(d: Db, ids: seq<SessionId>, now: Time): Outcome<()> {
    if |ids| < 1 || exists i, j :: 0 <= i < j < |ids| && ids[i] == ids[j] then Abort(Conflict)
    else CleanupTx(d, Named(ids), now)
  }

  lemma DoomRow(c: Claims, c': Claims, r: Connection, now: Time)
    requires RowOk(r) && ExpiredOrOver(r, now) && r.sessionId in c'.sessions && c'.clock == now
    ensures RowStep(c, c', r, LapsedRow(r, now)) && LapsedRow(r, now).accessDigest == r.accessDigest
    ensures !Active(LapsedRow(r, now).status) && LapsedRow(r, now).confirmedAt == r.confirmedAt
    ensures LapsedRow(r, now).sessionId == r.sessionId
  {
  }

  lemma DoomRows(d: Db, ids: set<SessionId>, now: Time, id: ConnId)
    requires Inv(d.claims) && Disposable(d, ids, now) && id in d.claims.conns
    ensures var c, c' := d.claims, Doom(d.claims, ids, now);
      && RowUpdated(c, c', id) && c'.conns[id].sessionId == c.conns[id].sessionId
      && (c.conns[id].sessionId in ids ==> !Active(c'.conns[id].status) && c'.conns[id].confirmedAt.None?)
  {
    var c, c' := d.claims, Doom(d.claims, ids, now);
    if c.conns[id].sessionId in ids {
      DoomRow(c, c', c.conns[id], now);
    }
  }

  lemma DoomObeys(d: Db, ids: set<SessionId>, now: Time)
    requires Inv(d.claims) && Disposable(d, ids, now)
    ensures Rule(d.claims, Doom(d.claims, ids, now))
    ensures forall sid :: sid in ids ==> Cleanable(Doom(d.claims, ids, now), sid)
  {
    var c, c' := d.claims, Doom(d.claims, ids, now);
    forall id | id in c.conns
      ensures RowUpdated(c, c', id) && c'.conns[id].sessionId == c.conns[id].sessionId
      ensures c.conns[id].sessionId in ids ==> !Active(c'.conns[id].status) && c'.conns[id].confirmedAt.None?
    {
      DoomRows(d, ids, now, id);
    }
    DoomSessions(d, ids, now);
    UpdateObeys(c, c');
  }

  lemma DoomSessions(d: Db, ids: set<SessionId>, now: Time)
    requires Disposable(d, ids, now)
    requires var c, c' := d.claims, Doom(d.claims, ids, now);
      && (forall id :: id in c.conns ==> c'.conns[id].sessionId == c.conns[id].sessionId)
      && (forall id :: id in c.conns && c.conns[id].sessionId in ids ==> !Active(c'.conns[id].status))
    ensures SessionStep(d.claims, Doom(d.claims, ids, now))
  {
    var c, c' := d.claims, Doom(d.claims, ids, now);
    forall sid | sid in ids
      ensures DisposableSession(d, sid) && Quiet(c', sid)
    {
    }
  }

  // Queueing for cleanup, if it commits, leaves every session exactly as its
  // destruction will demand it, and touches no other session or reservation.
  lemma CleanupProtects(d: Db, ids: seq<SessionId>, now: Time)
    requires Inv(d.claims) && QueueCleanupTx(d, ids, now).Commit?
    ensures var c := QueueCleanupTx(d, ids, now).claims;
      && (forall sid :: sid in ids ==> Cleanable(c, sid) && sid in d.members)
      && (forall sid :: sid in d.claims.sessions && sid !in ids ==> c.sessions[sid] == d.claims.sessions[sid])
      && (forall id :: id in d.claims.conns && d.claims.conns[id].sessionId !in ids ==> c.conns[id] == d.claims.conns[id])
  {
    DoomObeys(d, Named(ids), now);
  }

  // A session whose VTA was handed over, or whose owner registered, is refused,
  // and the refusal covers the whole request.
  lemma CleanupRefusesHandedOver(d: Db, ids: seq<SessionId>, now: Time, sid: SessionId)
    requires Inv(d.claims) && sid in ids && sid in d.claims.sessions
    requires d.claims.sessions[sid].adminDid.Some? || (exists id :: Of(d.claims, id, sid) && d.claims.conns[id].confirmedAt.Some?)
      || d.claims.sessions[sid].userId in d.passkeys
    ensures QueueCleanupTx(d, ids, now) == Abort(Conflict)
  {
    assert Disposable(d, Named(ids), now) ==> DisposableSession(d, sid);
  }

  // What the cleanup of a session checks, one read after another: the session
  // first, its reservations later. Whatever happens between the reads and after
  // them, what it then destroys was never handed over.
  lemma CleanupDestroysOnlyUnused(before: Claims, read: Claims, counted: Claims, closing: Claims, sid: SessionId, a: ConnId)
    requires Inv(before) && Inv(read) && Inv(counted) && Inv(closing)
    requires Later(before, read) && Later(read, counted) && Later(counted, closing)
    requires sid in before.sessions && sid in read.sessions && sid in counted.sessions && sid in closing.sessions
    requires read.sessions[sid].status.Deleting? && read.sessions[sid].adminDid.None?
    requires forall id :: Of(counted, id, sid) ==> counted.conns[id].confirmedAt.None?
    ensures Cleanable(closing, sid)
    ensures before.sessions[sid].adminDid.None? && !Provisioned(before, a, sid)
    ensures Of(before, a, sid) ==> before.conns[a].confirmedAt.None?
  {
    assert SessionLater(read.sessions[sid], counted.sessions[sid]);
    assert Cleanable(counted, sid);
    CleanableStays(counted, closing, sid);
    LaterTransitive(before, read, counted);
    CleanableWasNeverHandedOver(before, counted, sid, a);
    if Of(before, a, sid) {
      assert RowOk(before.conns[a]);
    }
  }

  // ---- the closing transaction of a teardown ----

  // The reservations of a session go with it.
  function DeleteSession(c: Claims, sid: SessionId): Claims {
    c.(sessions := c.sessions - {sid}, conns := map id | id in c.conns && c.conns[id].sessionId != sid :: c.conns[id])
  }

  lemma DeleteRows(c: Claims, sid: SessionId)
    requires Inv(c)
    ensures var c' := DeleteSession(c, sid);
      RowsStep(c, c') && DigestsStep(c, c') && InsertStep(c, c') && DeleteStep(c, c')
  {
  }

  lemma DeleteObeys(c: Claims, sid: SessionId)
    requires Inv(c) && (sid in c.sessions ==> c.sessions[sid].status.Deleting?)
    ensures Rule(c, DeleteSession(c, sid))
  {
    DeleteRows(c, sid);
  }

  predicate OwnsNone(sessions: map<SessionId, Session>, userId: UserId) {
    forall s :: s in sessions ==> sessions[s].userId != userId
  }

  predicate Emptied(members: map<SessionId, BatchId>, batchId: BatchId) {
    forall s :: s in members ==> members[s] != batchId
  }

  // Deletes the session and its reservations; then its user and its
  // batch when nothing keeps them. `batchId` is the membership read before; a
  // membership that was not read holds the session back.
  ghost function CloseTx(d: Db, sid: SessionId, userId: UserId, batchId: Option<BatchId>): Db {
    if batchId.Some? then CloseMemberTx(d, sid, userId, batchId.value)
    else if sid in d.members then d
    else d.(claims := DeleteSession(d.claims, sid))
  }

  ghost function CloseMemberTx(d: Db, sid: SessionId, userId: UserId, batchId: BatchId): Db {
    var c := DeleteSession(d.claims, sid);
    var idle := OwnsNone(c.sessions, userId);
    if idle && userId !in d.users then d
    else
      var goes := idle && !d.users[userId].hasEmail && userId !in d.passkeys && !d.users[userId].fullstackAccess;
      var members := d.members - {sid};
      var over := Emptied(members, batchId) && batchId in d.batches && d.batches[batchId].cleanupAt.Some?;
      d.(claims := c, members := members, users := if goes then d.users - {userId} else d.users,
         batches := if over then d.batches - {batchId} else d.batches,
         additions := if over then WithoutBatch(d.additions, batchId) else d.additions)
  }

  function WithoutBatch(additions: map<AdditionId, Addition>, batchId: BatchId): map<AdditionId, Addition> {
    map a | a in additions && additions[a].batchId != batchId :: additions[a]
  }

  lemma CloseObeys(d: Db, sid: SessionId, userId: UserId, batchId: Option<BatchId>)
    requires Inv(d.claims) && (sid in d.claims.sessions ==> d.claims.sessions[sid].status.Deleting?)
    ensures var c := CloseTx(d, sid, userId, batchId).claims; c == d.claims || Rule(d.claims, c)
  {
    DeleteObeys(d.claims, sid);
  }

  // Nothing keeps this user: no address, no passkey, no access, no session left.
  ghost predicate Orphan(d: Db, d': Db, u: UserId)
    requires u in d.users
  {
    && !d.users[u].hasEmail && !d.users[u].fullstackAccess && u !in d.passkeys
    && OwnsNone(d'.claims.sessions, u)
  }

  // Only the named session goes, and an owner who kept anything stays.
  lemma CloseSpares(d: Db, sid: SessionId, userId: UserId, batchId: Option<BatchId>)
    ensures var d' := CloseTx(d, sid, userId, batchId);
      && (forall s :: s in d.claims.sessions && s != sid ==> s in d'.claims.sessions && d'.claims.sessions[s] == d.claims.sessions[s])
      && (forall u :: u in d.users && u !in d'.users ==> u == userId && Orphan(d, d', u))
      && (forall b :: b in d.batches && b !in d'.batches ==>
          d.batches[b].cleanupAt.Some? && Emptied(d'.members, b))
  {
  }

  // ---- whole batches ----

  ghost function MembersOf(d: Db, batchId: BatchId): set<SessionId> {
    set sid | sid in d.members && d.members[sid] == batchId
  }

  // The members to clean up, or the error; the second component is the batch
  // table afterwards.
  ghost function BatchCleanupTx(d: Db, batchId: BatchId, now: Time, stamped: Time): Result<Db> {
    if batchId !in d.batches then Fail(NotFound)
    else if d.batches[batchId].cleanupAt.Some? then Ok(d)
    else if MembersOf(d, batchId) == {} then
      Ok(d.(batches := d.batches - {batchId}, additions := WithoutBatch(d.additions, batchId)))
    else BatchOutcome(d, batchId, CleanupTx(d, MembersOf(d, batchId), now), stamped)
  }

  // A batch whose members are queued is stamped.
  function BatchOutcome(d: Db, batchId: BatchId, o: Outcome<()>, stamped: Time): Result<Db>
    requires batchId in d.batches
  {
    match o
    case Abort(e) => Fail(e)
    case Commit(c, _) => Ok(d.(claims := c, batches := d.batches[batchId := d.batches[batchId].(cleanupAt := Some(stamped))]))
  }

  ghost function FinalizeTx(d: Db, batchId: BatchId): Db {
    if batchId in d.batches && d.batches[batchId].cleanupAt.Some? && Emptied(d.members, batchId)
    then d.(batches := d.batches - {batchId}, additions := WithoutBatch(d.additions, batchId))
    else d
  }

  // A batch accepted for cleanup is protected as a whole, or refused as a whole.
  lemma BatchCleanupProtects(d: Db, batchId: BatchId, now: Time, stamped: Time)
    requires Inv(d.claims) && batchId in d.batches && d.batches[batchId].cleanupAt.None?
    ensures match BatchCleanupTx(d, batchId, now, stamped)
      case Fail(e) => e.Conflict? && !Disposable(d, MembersOf(d, batchId), now)
      case Ok(d') => forall sid :: sid in d.members && d.members[sid] == batchId ==> Cleanable(d'.claims, sid)
  {
    if MembersOf(d, batchId) != {} && Disposable(d, MembersOf(d, batchId), now) {
      DoomObeys(d, MembersOf(d, batchId), now);
    } else {
      assert forall sid :: sid in d.members && d.members[sid] == batchId ==> sid in MembersOf(d, batchId);
    }
  }

  function SetPublicTx(d: Db, batchId: BatchId, enabled: bool, now: Time): Result<Db> {
    if batchId !in d.batches then Fail(NotFound)
    else
      var b := d.batches[batchId];
      if !b.purpose.PublicSignup? || b.cleanupAt.Some? then Fail(Conflict)
      else if enabled && b.publicSince.Some? then Ok(d)
      else Ok(d.(batches := d.batches[batchId := b.(publicSince := if enabled then Some(now) else None)]))
  }
}
