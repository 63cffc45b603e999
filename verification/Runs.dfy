// Whole runs: every interleaving of owner, wallet, pool, reconciliation,
// teardown and orchestrator steps.
module Runs {
  import opened Rows
  import opened Protocol
  import opened Transactions
  import opened PoolTransactions
  import opened Admissions
  import DidKey

  datatype Event =
    | OwnerChange(sid: SessionId, action: Action, expected: Option<ConnId>, now: Time, freshId: ConnId)
    | OwnerConfirm(sid: SessionId, id: ConnId, now: Time)
    | OwnerReject(sid: SessionId, id: ConnId, now: Time)
    | OwnerAccept(sid: SessionId, value: string, resume: bool, now: Time)
    | OwnerCancelPending(sid: SessionId)
    | WalletClaim(handle: ConnId, value: string, replay: Replay, now: Time)
    | StartProvision(id: ConnId, now: Time)
    | Release(id: ConnId, now: Time)
    | MarkFailed(id: ConnId)
    | LapseOpenRow(id: ConnId, stale: Connection, now: Time)
    | LapseClaimedRow(id: ConnId, stale: Connection, now: Time)
    | Stop(sid: SessionId)
    | Reserve(batchId: BatchId, answered: Db, candidates: seq<SessionId>, skipped: set<SessionId>, times: nat -> Time, freshId: ConnId)
    | ReservePublic(digest: string, answered: Db, candidates: seq<SessionId>, skipped: set<SessionId>, times: nat -> Time, freshId: ConnId)
    | PoolConfirm(id: ConnId, now: Time, started: Time)
    | PoolReject(id: ConnId, now: Time)
    | RetryActivation(sid: SessionId)
    | RetryBuild(sid: SessionId)
    | BuildError(sid: SessionId)
    | QueueCleanup(ids: seq<SessionId>, now: Time)
    | QueueBatchCleanup(batchId: BatchId, now: Time, stamped: Time)
    | FinalizeBatch(batchId: BatchId)
    | SetPublic(batchId: BatchId, enabled: bool, now: Time)
    | Admit(admission: Admission, now: Time, admitted: Result<Admitted>)
    | AddInventory(addition: AdditionRequest, admitted: Result<Admitted>)
    | CloseTeardown(sid: SessionId, userId: UserId, membership: Option<BatchId>)
    | Orchestrate(sid: SessionId, status: SessionStatus, vtaDid: Did)
    | CreateSession(sid: SessionId, s: Session)
    | Register(userId: UserId, user: User, passkey: bool)

  // The transactions on reservations alone, as pool-independent steps.
  ghost function ClaimsAfter(d: Db, e: Event): Claims
    requires ClaimsEvent(e)
  {
    var c := d.claims;
    match e
    case OwnerChange(sid, action, expected, now, freshId) => After(c, ChangeTx(c, sid, action, expected, false, now, freshId))
    case OwnerConfirm(sid, id, now) => After(c, ConfirmTx(c, sid, id, now))
    case OwnerReject(sid, id, now) => After(c, RejectTx(c, sid, id, now))
    case OwnerAccept(sid, value, resume, now) => After(c, AcceptTx(c, sid, value, resume, now))
    case OwnerCancelPending(sid) => After(c, CancelPendingTx(c, sid))
    case WalletClaim(handle, value, replay, now) => After(c, ClaimTx(c, handle, value, replay, now))
    case StartProvision(id, now) => After(c, StartTx(c, id, now))
    case Release(id, now) => After(c, ReleaseTx(c, id, now))
    case MarkFailed(id) => FailTx(c, id)
    case LapseOpenRow(id, stale, now) => ReconcileOpenTx(c, id, stale, now)
    case LapseClaimedRow(id, stale, now) => ReconcileClaimedTx(c, id, stale, now)
    case Stop(sid) => After(c, StopTx(c, sid))
    case Reserve(_, _, candidates, skipped, times, freshId) => After(c, ReserveFrom(c, candidates, skipped, times, 0, freshId))
    case ReservePublic(digest, _, candidates, skipped, times, freshId) => After(c, ReservePublicTx(d, digest, candidates, skipped, times, freshId))
    case PoolConfirm(id, now, started) => After(c, PoolConfirmTx(d, id, now, started))
    case PoolReject(id, now) => After(c, PoolRejectTx(d, id, now))
    case RetryActivation(sid) => After(c, RetryActivationTx(d, sid))
    case RetryBuild(sid) => After(c, RetryBuildTx(d, sid))
    case BuildError(sid) => BuildErrorTx(c, sid)
    case QueueCleanup(ids, now) => After(c, QueueCleanupTx(d, ids, now))
  }

  predicate ClaimsEvent(e: Event) {
    || e.OwnerChange? || e.OwnerConfirm? || e.OwnerReject? || e.OwnerAccept? || e.OwnerCancelPending? || e.WalletClaim?
    || e.StartProvision? || e.Release? || e.MarkFailed? || e.LapseOpenRow? || e.LapseClaimedRow? || e.Stop?
    || e.Reserve? || e.ReservePublic? || e.PoolConfirm? || e.PoolReject? || e.RetryActivation? || e.RetryBuild?
    || e.BuildError? || e.QueueCleanup?
  }

  // The copy is a value the row has had; every value really read is one, by
  // RunReadsAreEarlier.
  ghost predicate ReadEarlier(c: Claims, id: ConnId, stale: Connection) { ReadBefore(c, id, stale) && RowOk(stale) }

  // New ids are new, candidates are an earlier answer of their query, a copy is
  // an earlier value of its row, and a reading taken under the lock of a session
  // is no earlier than those its reservation was written with. Nothing else is
  // asked of the clocks: a step may act on a reading older than the step before.
  ghost predicate Timely(d: Db, e: Event) {
    var c := d.claims;
    match e
    case OwnerChange(_, _, _, _, freshId) => freshId !in c.used
    case OwnerConfirm(_, id, now) => LockedReading(c, id, now)
    case WalletClaim(handle, _, _, now) => LockedReading(c, handle, now)
    case LapseOpenRow(id, stale, _) => ReadEarlier(c, id, stale)
    case LapseClaimedRow(id, stale, _) => ReadEarlier(c, id, stale)
    case Reserve(b, d0, candidates, _, times, freshId) =>
      Readings(times) && freshId !in c.used && Answered(d0, d, {b}, times(0), candidates)
    case ReservePublic(_, d0, candidates, _, times, freshId) =>
      && Readings(times) && freshId !in c.used && Answered(d0, d, PublicBatches(d0.batches), times(0), candidates)
      && NoneBound(d0, d)
    case PoolConfirm(id, now, _) => LockedReading(c, id, now)
    case _ => true
  }

  // One step of the system.
  ghost predicate Next(d: Db, e: Event, d': Db) {
    Timely(d, e) &&
    if ClaimsEvent(e) then d' == d.(claims := ClaimsAfter(d, e))
    else match e
      case QueueBatchCleanup(b, now, stamped) => d' == var r := BatchCleanupTx(d, b, now, stamped); if r.Ok? then r.value else d
      case FinalizeBatch(b) => d' == FinalizeTx(d, b)
      case SetPublic(b, enabled, now) => d' == var r := SetPublicTx(d, b, enabled, now); if r.Ok? then r.value else d
      case Admit(i, now, r) => AdmitSpec(d, i, now, d', r)
      case AddInventory(i, r) => AddSpec(d, i, d', r)
      case CloseTeardown(sid, u, b) => (sid in d.claims.sessions ==> d.claims.sessions[sid].status.Deleting?) && d' == CloseTx(d, sid, u, b)
      case Orchestrate(sid, status, vtaDid) => d' == d.(claims := OrchestrateTx(d.claims, sid, status, vtaDid))
      case CreateSession(sid, s) => NewSession(d, sid, s) && d' == d.(claims := d.claims.(sessions := d.claims.sessions[sid := s], nextSession := sid + 1))
      case Register(u, user, passkey) =>
        u in d.users && user.uniqueId == d.users[u].uniqueId
        && d' == d.(users := d.users[u := user], passkeys := if passkey then d.passkeys + {u} else d.passkeys)
      case _ => false
  }

  // A session somebody sets up for themselves.
  ghost predicate NewSession(d: Db, sid: SessionId, s: Session) {
    && sid >= d.claims.nextSession && !s.status.Deleting? && s.userId < d.nextUser
    && forall t :: t in d.claims.sessions ==> d.claims.sessions[t].vtaName != s.vtaName
  }

  ghost predicate StepAt(states: seq<Db>, events: seq<Event>, k: nat)
    requires k < |events| < |states|
  {
    Next(states[k], events[k], states[k + 1])
  }

  ghost predicate Run(states: seq<Db>, events: seq<Event>) {
    && |states| == |events| + 1 && Inv(states[0].claims) && Tidy(states[0])
    && forall k :: 0 <= k < |events| ==> StepAt(states, events, k)
  }

  lemma EmptyTablesStartRuns(d: Db)
    requires d.claims.sessions == map[] && d.claims.conns == map[] && d.members == map[]
    requires d.batches == map[] && d.additions == map[] && d.users == map[]
    ensures Run([d], [])
  {
  }

  // Runs exist in which a VTA is handed over: one session, ready, and its only
  // reservation, stage by stage.
  function ReadySession(): Session { Session(0, false, VtaSetupComplete, "did:webvh:vta", None, "vta", "image") }

  ghost function SoloRow(did: Did, stage: nat): Connection {
    var open := NewConnection(ReadySession(), 0, ProvisionVta, 0);
    var claimed := ClaimedRow(open, ProvisionVta, did, 0);
    var confirmed := claimed.(status := Confirmed, confirmedAt := Some(0));
    if stage <= 2 then open else if stage == 3 then claimed else if stage == 4 then confirmed
    else confirmed.(status := ConnStatus.Provisioning)
  }

  ghost function SoloClaims(did: Did, stage: nat): Claims {
    if stage == 0 then Claims(map[], map[], {}, 0, 0)
    else if stage == 1 then Claims(map[0 := ReadySession()], map[], {}, 1, 0)
    else
      var s := if stage <= 4 then ReadySession() else BeginProvision(ReadySession(), Some(did));
      Claims(map[0 := s], map[1 := SoloRow(did, stage)], {1}, 1, 0)
  }

  ghost function SoloDb(did: Did, stage: nat): Db {
    Db(SoloClaims(did, stage), map[], map[], map[], map[], {}, 1, 0, 0)
  }

  ghost function SoloEvent(did: Did, stage: nat): Event {
    match stage
    case 0 => CreateSession(0, ReadySession())
    case 1 => OwnerChange(0, Create, None, 0, 1)
    case 2 => WalletClaim(1, did, Executing, 0)
    case 3 => OwnerConfirm(0, 1, 0)
    case _ => StartProvision(1, 0)
  }

  lemma SoloOpens(did: Did)
    ensures ChangeTx(SoloClaims(did, 1), 0, Create, None, false, 0, 1) == Commit(SoloClaims(did, 2), 1)
  {
    assert CurrentOf(SoloClaims(did, 1), 0) == None;
  }

  lemma SoloIsClaimed(did: Did)
    requires IsAdminDid(did) && DidKey.TrimSpace(did) == did
    ensures ClaimTx(SoloClaims(did, 2), 1, did, Executing, 0) == Commit(SoloClaims(did, 3), 1)
  {
  }

  lemma SoloIsConfirmed(did: Did)
    ensures ConfirmTx(SoloClaims(did, 3), 0, 1, 0) == Commit(SoloClaims(did, 4), 1)
  {
  }

  lemma SoloIsHanded(did: Did)
    ensures StartTx(SoloClaims(did, 4), 1, 0) == Commit(SoloClaims(did, 5), 1)
  {
  }

  lemma SoloNext(did: Did, stage: nat)
    requires stage < 5 && IsAdminDid(did) && DidKey.TrimSpace(did) == did
    ensures Next(SoloDb(did, stage), SoloEvent(did, stage), SoloDb(did, stage + 1))
  {
    match stage
    case 0 =>
    case 1 => SoloOpens(did);
    case 2 => SoloIsClaimed(did);
    case 3 => SoloIsConfirmed(did);
    case _ => SoloIsHanded(did);
  }

  lemma DidIsTrimmed(key: DidKey.PublicKey)
    ensures IsAdminDid(DidKey.DidOf(key)) && DidKey.TrimSpace(DidKey.DidOf(key)) == DidKey.DidOf(key)
  {
    DidKey.DidSurvivesPadding(key, "", "");
    assert "" + DidKey.DidOf(key) + "" == DidKey.DidOf(key);
  }

  lemma SoloEnds(did: Did)
    ensures var c := SoloClaims(did, 5); Provisioned(c, 1, 0) && 0 in c.sessions && c.sessions[0].adminDid == Some(did)
  {
  }

  lemma SoloRuns(did: Did, states: seq<Db>, events: seq<Event>)
    requires IsAdminDid(did) && DidKey.TrimSpace(did) == did && |states| == 6 && |events| == 5
    requires forall k :: 0 <= k < 6 ==> states[k] == SoloDb(did, k)
    requires forall k :: 0 <= k < 5 ==> events[k] == SoloEvent(did, k)
    ensures Run(states, events)
  {
    EmptyTablesStartRuns(states[0]);
    forall k | 0 <= k < |events|
      ensures StepAt(states, events, k)
    {
      SoloNext(did, k);
    }
  }

  // From empty tables, for any key.
  lemma HandoverHappens(key: DidKey.PublicKey) returns (states: seq<Db>, events: seq<Event>)
    ensures Run(states, events) && |states| == 6
    ensures var c := states[5].claims; Provisioned(c, 1, 0) && 0 in c.sessions && c.sessions[0].adminDid == Some(DidKey.DidOf(key))
  {
    var did := DidKey.DidOf(key);
    DidIsTrimmed(key);
    states, events := seq(6, k requires 0 <= k => SoloDb(did, k)), seq(5, k requires 0 <= k => SoloEvent(did, k));
    SoloRuns(did, states, events);
    SoloEnds(did);
  }

  // ---- every step keeps the invariant and what lasts ----

  // The reservation to be bound has no digest yet.
  lemma ReserveIsUnbound(d0: Db, d: Db, eligible: set<BatchId>, candidates: seq<SessionId>, skipped: set<SessionId>,
      times: nat -> Time, freshId: ConnId)
    requires Inv(d.claims) && Readings(times) && freshId !in d.claims.used
    requires Answered(d0, d, eligible, times(0), candidates) && NoneBound(d0, d)
    ensures var o := ReserveFrom(d.claims, candidates, skipped, times, 0, freshId);
      o.Commit? ==> o.value in o.claims.conns && o.claims.conns[o.value].accessDigest.None?
  {
    ReserveIsExclusive(d0, d, eligible, candidates, skipped, times, 0, freshId);
  }

  lemma PublicReserveIsLater(d0: Db, d: Db, digest: string, candidates: seq<SessionId>, skipped: set<SessionId>,
      times: nat -> Time, freshId: ConnId)
    requires Inv(d.claims) && Readings(times) && freshId !in d.claims.used
    requires Answered(d0, d, PublicBatches(d0.batches), times(0), candidates) && NoneBound(d0, d)
    ensures var c := After(d.claims, ReservePublicTx(d, digest, candidates, skipped, times, freshId)); Inv(c) && Later(d.claims, c)
  {
    ReserveIsUnbound(d0, d, PublicBatches(d0.batches), candidates, skipped, times, freshId);
    PublicReserveIs(d, digest, candidates, skipped, times, freshId);
    if (forall id :: !Bound(d.claims, digest, id)) && ReserveFrom(d.claims, candidates, skipped, times, 0, freshId).Commit? {
      NewPublicReserveIsLater(d.claims, digest, candidates, skipped, times, freshId);
    }
    LaterReflexive(d.claims);
  }

  // A public reservation changes nothing, or binds what the loop reserved.
  lemma PublicReserveIs(d: Db, digest: string, candidates: seq<SessionId>, skipped: set<SessionId>, times: nat -> Time,
      freshId: ConnId)
    ensures var c := After(d.claims, ReservePublicTx(d, digest, candidates, skipped, times, freshId));
      var o := ReserveFrom(d.claims, candidates, skipped, times, 0, freshId);
      || c == d.claims
      || ((forall id :: !Bound(d.claims, digest, id)) && o.Commit? && o.value in o.claims.conns && c == BindDigest(o.claims, o.value, digest))
  {
  }

  lemma NewPublicReserveIsLater(c: Claims, digest: string, candidates: seq<SessionId>, skipped: set<SessionId>,
      times: nat -> Time, freshId: ConnId)
    requires Inv(c) && freshId !in c.used && forall id :: !Bound(c, digest, id)
    requires var o := ReserveFrom(c, candidates, skipped, times, 0, freshId);
      o.Commit? && o.value in o.claims.conns && o.claims.conns[o.value].accessDigest.None?
    ensures var o := ReserveFrom(c, candidates, skipped, times, 0, freshId);
      Inv(BindDigest(o.claims, o.value, digest)) && Later(c, BindDigest(o.claims, o.value, digest))
  {
    var o := ReserveFrom(c, candidates, skipped, times, 0, freshId);
    ReserveObeys(c, candidates, skipped, times, 0, freshId);
    ReserveReturnsUnbound(c, candidates, skipped, times, 0, freshId, digest);
    BoundReserveIsLater(c, o.claims, o.value, digest);
  }

  lemma BoundReserveIsLater(c: Claims, c1: Claims, id: ConnId, digest: string)
    requires Inv(c) && Rule(c, c1) && id in c1.conns && c1.conns[id].accessDigest.None?
    requires forall i :: !Bound(c1, digest, i)
    ensures Inv(BindDigest(c1, id, digest)) && Later(c, BindDigest(c1, id, digest))
  {
    RuleIsLaterInv(c, c1);
    BindObeys(c1, id, digest);
    RuleIsLaterInv(c1, BindDigest(c1, id, digest));
    LaterTransitive(c, c1, BindDigest(c1, id, digest));
  }

  // A reservation loop binds no digest.
  lemma {:induction false} ReserveReturnsUnbound(c: Claims, candidates: seq<SessionId>, skipped: set<SessionId>,
      times: nat -> Time, i: nat, freshId: ConnId, digest: string)
    requires Inv(c) && freshId !in c.used && i <= |candidates|
    requires forall id :: !Bound(c, digest, id)
    ensures forall id :: !Bound(After(c, ReserveFrom(c, candidates, skipped, times, i, freshId)), digest, id)
    decreases |candidates| - i
  {
    if i < |candidates| {
      ReserveReturnsUnbound(c, candidates, skipped, times, i + 1, freshId, digest);
      ChangeBindsNothing(c, candidates[i], times(i + 1), freshId, digest);
    }
  }

  lemma ChangeBindsNothing(c: Claims, sid: SessionId, now: Time, freshId: ConnId, digest: string)
    requires Inv(c) && forall id :: !Bound(c, digest, id)
    ensures forall id :: !Bound(After(c, ChangeTx(c, sid, Create, None, true, now, freshId)), digest, id)
  {
    var c' := After(c, ChangeTx(c, sid, Create, None, true, now, freshId));
    forall id
      ensures !Bound(c', digest, id)
    {
      assert !Bound(c, digest, id);
    }
  }

  lemma ClaimsStepIsLater(d: Db, e: Event)
    requires Inv(d.claims) && Timely(d, e) && ClaimsEvent(e)
    ensures Inv(ClaimsAfter(d, e)) && Later(d.claims, ClaimsAfter(d, e))
  {
    if e.ReservePublic? {
      PublicReserveIsLater(e.answered, d, e.digest, e.candidates, e.skipped, e.times, e.freshId);
    } else if e.PoolConfirm? {
      PoolConfirmIsLater(d, e.id, e.now, e.started);
    } else {
      ClaimsStepObeys(d, e);
      RuleIsLaterInv(d.claims, ClaimsAfter(d, e));
    }
  }

  predicate OwnerEvent(e: Event) {
    || e.OwnerChange? || e.OwnerConfirm? || e.OwnerReject? || e.OwnerAccept? || e.OwnerCancelPending? || e.WalletClaim?
    || e.StartProvision? || e.Release? || e.MarkFailed? || e.LapseOpenRow? || e.LapseClaimedRow? || e.Stop?
  }

  // All but two transactions are one step under the rule.
  lemma ClaimsStepObeys(d: Db, e: Event)
    requires Inv(d.claims) && Timely(d, e) && ClaimsEvent(e) && !e.ReservePublic? && !e.PoolConfirm?
    ensures d.claims == ClaimsAfter(d, e) || Rule(d.claims, ClaimsAfter(d, e))
  {
    if OwnerEvent(e) {
      OwnerStepObeys(d, e);
    } else if e.Reserve? {
      ReserveObeys(d.claims, e.candidates, e.skipped, e.times, 0, e.freshId);
    } else if e.PoolReject? {
      PoolRejectObeys(d, e.id, e.now);
    } else if e.RetryActivation? || e.RetryBuild? || e.BuildError? {
      RetryObeys(d, e.sid);
    } else if e.QueueCleanup? && QueueCleanupTx(d, e.ids, e.now).Commit? {
      DoomObeys(d, Named(e.ids), e.now);
    }
  }

  lemma OwnerStepObeys(d: Db, e: Event)
    requires Inv(d.claims) && Timely(d, e) && OwnerEvent(e)
    ensures Rule(d.claims, ClaimsAfter(d, e))
  {
    var c := d.claims;
    match e
    case OwnerChange(sid, action, expected, now, freshId) => ChangeObeys(c, sid, action, expected, false, now, freshId);
    case OwnerConfirm(sid, id, now) => ConfirmObeys(c, sid, id, now);
    case OwnerReject(sid, id, now) => RejectObeys(c, sid, id, now);
    case OwnerAccept(sid, value, resume, now) => AcceptObeys(c, sid, value, resume, now);
    case OwnerCancelPending(sid) => CancelPendingObeys(c, sid);
    case WalletClaim(handle, value, replay, now) => ClaimObeys(c, handle, value, replay, now);
    case StartProvision(id, now) => StartObeys(c, id, now);
    case Release(id, now) => ReleaseObeys(c, id, now);
    case MarkFailed(id) => FailObeys(c, id);
    case LapseOpenRow(id, stale, now) => ReconcileOpenObeys(c, id, stale, now);
    case LapseClaimedRow(id, stale, now) => ReconcileClaimedObeys(c, id, stale, now);
    case Stop(sid) => StopObeys(c, sid);
  }

  lemma PoolRejectObeys(d: Db, id: ConnId, now: Time)
    requires Inv(d.claims)
    ensures d.claims == After(d.claims, PoolRejectTx(d, id, now)) || Rule(d.claims, After(d.claims, PoolRejectTx(d, id, now)))
  {
    if id in d.claims.conns {
      var sid := d.claims.conns[id].sessionId;
      CancelObeys(d.claims, sid, now);
      RejectObeys(d.claims, sid, id, now);
    }
  }

  lemma RetryObeys(d: Db, sid: SessionId)
    requires Inv(d.claims)
    ensures var c := d.claims;
      && (c == After(c, RetryActivationTx(d, sid)) || Rule(c, After(c, RetryActivationTx(d, sid))))
      && (c == After(c, RetryBuildTx(d, sid)) || Rule(c, After(c, RetryBuildTx(d, sid))))
      && (c == BuildErrorTx(c, sid) || Rule(c, BuildErrorTx(c, sid)))
  {
    if Doomed(d.claims, sid) || sid !in d.claims.sessions {
    } else {
      StatusObeys(d.claims, sid, SessionStatus.Provisioning);
      StatusObeys(d.claims, sid, PoolCreating);
      StatusObeys(d.claims, sid, SessionStatus.Failed);
    }
  }

  // New sessions and a moved sequence disturb no reservation.
  lemma NewSessionsObey(c: Claims, sessions: map<SessionId, Session>, nextSession: SessionId)
    requires Inv(c) && c.nextSession <= nextSession
    requires forall sid :: sid in c.sessions ==> sid in sessions && sessions[sid] == c.sessions[sid]
    requires forall sid :: sid in sessions && sid !in c.sessions ==> c.nextSession <= sid < nextSession && !sessions[sid].status.Deleting?
    ensures Rule(c, c.(sessions := sessions, nextSession := nextSession))
  {
    var c' := c.(sessions := sessions, nextSession := nextSession);
    assert RowsStep(c, c') by {
      forall id | id in c.conns
        ensures RowStep(c, c', c.conns[id], c'.conns[id])
      {
      }
    }
  }

  lemma OrchestrateObeys(c: Claims, sid: SessionId, status: SessionStatus, vtaDid: Did)
    requires Inv(c)
    ensures c == OrchestrateTx(c, sid, status, vtaDid) || Rule(c, OrchestrateTx(c, sid, status, vtaDid))
  {
    var c' := OrchestrateTx(c, sid, status, vtaDid);
    if c' != c {
      forall id | id in c.conns
        ensures RowUpdated(c, c', id)
      {
      }
      UpdateObeys(c, c');
    }
  }

  lemma PopulatedObeys(d: Db, d': Db, batchId: BatchId, count: nat, template: Session, users: seq<UserId>,
      sids: seq<SessionId>)
    requires Inv(d.claims) && Populated(d, d', batchId, count, template, users, sids)
    ensures Rule(d.claims, d'.claims)
  {
    forall sid | sid in sids
      ensures FromTemplate(d'.claims.sessions[sid], template)
    {
    }
    NewSessionsObey(d.claims, d'.claims.sessions, d'.claims.nextSession);
  }

  lemma AdmissionObeys(d: Db, e: Event, d': Db)
    requires Inv(d.claims) && Next(d, e, d') && (e.Admit? || e.AddInventory?)
    ensures d'.claims == d.claims || Rule(d.claims, d'.claims)
  {
    if Untouched(d, d') {
      NewSessionsObey(d.claims, d.claims.sessions, d'.claims.nextSession);
    } else if e.Admit? && ValidAdmission(e.admission) {
      var users :| AdmitCreates(d, e.admission, e.now, d', e.admitted.value, users);
      PopulatedObeys(WithBatch(d, e.admission, e.now, e.admitted.value.batchId), d', e.admitted.value.batchId, e.admission.count, e.admission.template, users, e.admitted.value.sessions);
    } else if e.AddInventory? && ValidAddition(e.addition) {
      var addition, users :| AddCreates(d, e.addition, d', e.admitted.value, addition, users);
      PopulatedObeys(Recorded(d, e.addition, addition), d', e.addition.batchId, e.addition.count, e.addition.template, users, e.admitted.value.sessions);
    }
  }

  // Every step keeps the invariant, and everything that was to last, lasts.
  lemma NextIsLater(d: Db, e: Event, d': Db)
    requires Inv(d.claims) && Next(d, e, d')
    ensures Inv(d'.claims) && Later(d.claims, d'.claims)
  {
    if ClaimsEvent(e) {
      ClaimsStepIsLater(d, e);
    } else {
      OtherStepObeys(d, e, d');
      RuleIsLaterInv(d.claims, d'.claims);
    }
  }

  lemma OtherStepObeys(d: Db, e: Event, d': Db)
    requires Inv(d.claims) && Next(d, e, d') && !ClaimsEvent(e)
    ensures d'.claims == d.claims || Rule(d.claims, d'.claims)
  {
    if e.QueueBatchCleanup? && d' != d {
      BatchCleanupObeys(d, e.batchId, e.now, e.stamped);
    } else if e.CloseTeardown? {
      CloseObeys(d, e.sid, e.userId, e.membership);
    } else if e.Orchestrate? {
      OrchestrateObeys(d.claims, e.sid, e.status, e.vtaDid);
    } else if e.CreateSession? {
      NewSessionsObey(d.claims, d.claims.sessions[e.sid := e.s], e.sid + 1);
    } else if e.Admit? || e.AddInventory? {
      AdmissionObeys(d, e, d');
    }
  }

  lemma BatchCleanupObeys(d: Db, batchId: BatchId, now: Time, stamped: Time)
    requires Inv(d.claims) && BatchCleanupTx(d, batchId, now, stamped).Ok?
    ensures var c := BatchCleanupTx(d, batchId, now, stamped).value.claims; c == d.claims || Rule(d.claims, c)
  {
    if Disposable(d, MembersOf(d, batchId), now) {
      DoomObeys(d, MembersOf(d, batchId), now);
    }
  }

  // ---- every step keeps the keys and references of the schema ----

  lemma {:induction false} ReserveKeepsSessions(c: Claims, candidates: seq<SessionId>, skipped: set<SessionId>,
      times: nat -> Time, i: nat, freshId: ConnId)
    requires i <= |candidates|
    ensures var c' := After(c, ReserveFrom(c, candidates, skipped, times, i, freshId)); c'.sessions == c.sessions && c'.nextSession == c.nextSession
    decreases |candidates| - i
  {
    if i < |candidates| {
      ReserveKeepsSessions(c, candidates, skipped, times, i + 1, freshId);
    }
  }

  // Transactions on reservations neither add nor remove sessions.
  lemma ClaimsStepKeepsSessions(d: Db, e: Event)
    requires ClaimsEvent(e)
    ensures ClaimsAfter(d, e).sessions.Keys == d.claims.sessions.Keys && ClaimsAfter(d, e).nextSession == d.claims.nextSession
  {
    if e.Reserve? || e.ReservePublic? {
      ReserveKeepsSessions(d.claims, e.candidates, e.skipped, e.times, 0, e.freshId);
    } else if OwnerEvent(e) {
      OwnerStepKeepsSessions(d, e);
    }
  }

  lemma OwnerStepKeepsSessions(d: Db, e: Event)
    requires OwnerEvent(e)
    ensures ClaimsAfter(d, e).sessions.Keys == d.claims.sessions.Keys && ClaimsAfter(d, e).nextSession == d.claims.nextSession
  {
  }

  lemma SameSessionsTidy(d: Db, c': Claims)
    requires Tidy(d) && c'.sessions.Keys == d.claims.sessions.Keys && c'.nextSession == d.claims.nextSession
    requires forall sid :: sid in c'.sessions ==> SessionLater(d.claims.sessions[sid], c'.sessions[sid])
    ensures Tidy(d.(claims := c'))
  {
  }

  lemma NextKeepsTidy(d: Db, e: Event, d': Db)
    requires Inv(d.claims) && Tidy(d) && Next(d, e, d')
    ensures Tidy(d')
  {
    if ClaimsEvent(e) {
      ClaimsStepKeepsTidy(d, e);
    } else if e.Admit? || e.AddInventory? {
      AdmissionKeepsTidy(d, e, d');
    } else if e.QueueBatchCleanup? || e.FinalizeBatch? || e.SetPublic? {
      NextIsLater(d, e, d');
      BatchStepKeepsTidy(d, e, d');
    } else if e.CloseTeardown? {
      CloseKeepsTidy(d, e.sid, e.userId, e.membership);
    } else if e.Orchestrate? {
      OrchestrateKeepsTidy(d, e.sid, e.status, e.vtaDid);
    } else if e.CreateSession? {
      CreateKeepsTidy(d, e.sid, e.s);
    } else {
      RegisterKeepsTidy(d, e.userId, e.user, e.passkey);
    }
  }

  lemma ClaimsStepKeepsTidy(d: Db, e: Event)
    requires Inv(d.claims) && Tidy(d) && Timely(d, e) && ClaimsEvent(e)
    ensures Tidy(d.(claims := ClaimsAfter(d, e)))
  {
    ClaimsStepIsLater(d, e);
    ClaimsStepKeepsSessions(d, e);
    SameSessionsTidy(d, ClaimsAfter(d, e));
  }

  lemma OrchestrateKeepsTidy(d: Db, sid: SessionId, status: SessionStatus, vtaDid: Did)
    requires Tidy(d)
    ensures Tidy(d.(claims := OrchestrateTx(d.claims, sid, status, vtaDid)))
  {
  }

  lemma CreateKeepsTidy(d: Db, sid: SessionId, s: Session)
    requires Tidy(d) && NewSession(d, sid, s)
    ensures Tidy(d.(claims := d.claims.(sessions := d.claims.sessions[sid := s], nextSession := sid + 1)))
  {
  }

  lemma RegisterKeepsTidy(d: Db, u: UserId, user: User, passkey: bool)
    requires Tidy(d) && u in d.users && user.uniqueId == d.users[u].uniqueId
    ensures Tidy(d.(users := d.users[u := user], passkeys := if passkey then d.passkeys + {u} else d.passkeys))
  {
  }

  lemma WithoutBatchIsTidy(d: Db, b: BatchId)
    requires Tidy(d) && Emptied(d.members, b)
    ensures Tidy(d.(batches := d.batches - {b}, additions := WithoutBatch(d.additions, b)))
  {
    var batches, additions := d.batches - {b}, WithoutBatch(d.additions, b);
    assert TidyBatches(batches, d.nextBatch, additions, d.nextAddition);
    assert TidyMembers(d.members, d.claims.sessions, batches);
  }

  // Changing what a batch says keeps its key.
  lemma BatchChangeIsTidy(d: Db, b: BatchId, batch: Batch)
    requires Tidy(d) && b in d.batches && batch.createdBy == d.batches[b].createdBy && batch.key == d.batches[b].key && PublicOk(batch)
    ensures Tidy(d.(batches := d.batches[b := batch]))
  {
  }

  lemma BatchCleanupKeepsTidy(d: Db, b: BatchId, now: Time, stamped: Time)
    requires Tidy(d) && BatchCleanupTx(d, b, now, stamped).Ok?
    ensures Tidy(BatchCleanupTx(d, b, now, stamped).value)
  {
    var d' := BatchCleanupTx(d, b, now, stamped).value;
    if d.batches[b].cleanupAt.Some? {
    } else if MembersOf(d, b) == {} {
      assert forall sid :: sid in d.members ==> sid !in MembersOf(d, b);
      WithoutBatchIsTidy(d, b);
    } else {
      assert d'.claims == Doom(d.claims, MembersOf(d, b), now);
      SameSessionsTidy(d, d'.claims);
      BatchChangeIsTidy(d.(claims := d'.claims), b, d'.batches[b]);
    }
  }

  lemma BatchStepKeepsTidy(d: Db, e: Event, d': Db)
    requires Tidy(d) && Next(d, e, d') && Later(d.claims, d'.claims) && (e.QueueBatchCleanup? || e.FinalizeBatch? || e.SetPublic?)
    ensures Tidy(d')
  {
    if d' == d {
    } else if e.QueueBatchCleanup? {
      BatchCleanupKeepsTidy(d, e.batchId, e.now, e.stamped);
    } else if e.FinalizeBatch? {
      WithoutBatchIsTidy(d, e.batchId);
    } else {
      BatchChangeIsTidy(d, e.batchId, d'.batches[e.batchId]);
    }
  }

  lemma CloseKeepsTidy(d: Db, sid: SessionId, userId: UserId, batchId: Option<BatchId>)
    requires Tidy(d)
    ensures Tidy(CloseTx(d, sid, userId, batchId))
  {
    var d' := CloseTx(d, sid, userId, batchId);
    if d' != d {
      assert TidyMembers(d'.members, d'.claims.sessions, d.batches);
      if d'.batches != d.batches {
        WithoutBatchIsTidy(d.(claims := d'.claims, members := d'.members, users := d'.users), batchId.value);
      }
    }
  }

  lemma PopulatedIsTidy(d: Db, d': Db, batchId: BatchId, count: nat, template: Session, users: seq<UserId>,
      sids: seq<SessionId>)
    requires Tidy(d) && batchId in d.batches && Populated(d, d', batchId, count, template, users, sids)
    ensures Tidy(d')
  {
    forall sid | sid in d'.claims.sessions
      ensures sid < d'.claims.nextSession && d'.claims.sessions[sid].userId < d'.nextUser
    {
      assert sid in sids || sid in d.claims.sessions;
    }
    forall sid | sid in d'.members
      ensures sid in d'.claims.sessions && d'.members[sid] in d'.batches
    {
      EnrolledKeys(d.members, sids, batchId, sid);
    }
  }

  lemma AdmissionKeepsTidy(d: Db, e: Event, d': Db)
    requires Tidy(d) && Next(d, e, d') && (e.Admit? || e.AddInventory?)
    ensures Tidy(d')
  {
    if Untouched(d, d') {
    } else if e.Admit? && ValidAdmission(e.admission) {
      AdmitKeepsTidy(d, e.admission, e.now, d', e.admitted);
    } else if e.AddInventory? && ValidAddition(e.addition) {
      AddKeepsTidy(d, e.addition, d', e.admitted);
    }
  }

  lemma AdmitKeepsTidy(d: Db, i: Admission, now: Time, d': Db, r: Result<Admitted>)
    requires Tidy(d) && AdmitSpec(d, i, now, d', r) && !Untouched(d, d') && ValidAdmission(i)
    ensures Tidy(d')
  {
    var users :| AdmitCreates(d, i, now, d', r.value, users);
    WithBatchIsTidy(d, i, now, r.value.batchId);
    PopulatedIsTidy(WithBatch(d, i, now, r.value.batchId), d', r.value.batchId, i.count, i.template, users, r.value.sessions);
  }

  lemma AddKeepsTidy(d: Db, i: AdditionRequest, d': Db, r: Result<Admitted>)
    requires Tidy(d) && AddSpec(d, i, d', r) && !Untouched(d, d') && ValidAddition(i)
    ensures Tidy(d')
  {
    var addition, users :| AddCreates(d, i, d', r.value, addition, users);
    RecordedIsTidy(d, i, addition);
    PopulatedIsTidy(Recorded(d, i, addition), d', i.batchId, i.count, i.template, users, r.value.sessions);
  }

  lemma WithBatchIsTidy(d: Db, i: Admission, now: Time, b: BatchId)
    requires Tidy(d) && ValidAdmission(i) && b >= d.nextBatch && !KeyUsed(d.batches, i.adminId, i.key)
    ensures Tidy(WithBatch(d, i, now, b))
  {
    forall x | x in d.batches
      ensures d.batches[x].createdBy != i.adminId || d.batches[x].key != i.key
    {
      assert !HasKey(d.batches, x, i.adminId, i.key);
    }
  }

  lemma RecordedIsTidy(d: Db, i: AdditionRequest, addition: AdditionId)
    requires Tidy(d) && ValidAddition(i) && i.batchId in d.batches && addition >= d.nextAddition
    requires !AdditionKeyUsed(d, i.adminId, i.key)
    ensures Tidy(Recorded(d, i, addition))
  {
    forall a | a in d.additions
      ensures d.additions[a].createdBy != i.adminId || d.additions[a].key != i.key
    {
      assert !HasAddition(d, a, i.adminId, i.key);
    }
  }

  // ---- theorems about whole runs ----

  lemma StepOf(states: seq<Db>, events: seq<Event>, k: nat)
    requires Run(states, events) && k + 1 < |states| && Inv(states[k].claims) && Tidy(states[k])
    ensures Inv(states[k + 1].claims) && Tidy(states[k + 1]) && Later(states[k].claims, states[k + 1].claims)
  {
    assert StepAt(states, events, k);
    NextIsLater(states[k], events[k], states[k + 1]);
    NextKeepsTidy(states[k], events[k], states[k + 1]);
  }

  lemma {:induction false} RunKeeps(states: seq<Db>, events: seq<Event>, i: nat)
    requires Run(states, events) && i < |states|
    ensures Inv(states[i].claims) && Tidy(states[i])
  {
    if i > 0 {
      RunKeeps(states, events, i - 1);
      StepOf(states, events, i - 1);
    }
  }

  lemma {:induction false} RunIsLater(states: seq<Db>, events: seq<Event>, i: nat, j: nat)
    requires Run(states, events) && i <= j < |states|
    ensures Later(states[i].claims, states[j].claims)
  {
    if i == j {
      RunKeeps(states, events, i);
      LaterReflexive(states[i].claims);
    } else {
      RunIsLater(states, events, i, j - 1);
      LaterByStep(states, events, i, j);
    }
  }

  lemma LaterByStep(states: seq<Db>, events: seq<Event>, i: nat, j: nat)
    requires Run(states, events) && i < j < |states| && Later(states[i].claims, states[j - 1].claims)
    ensures Later(states[i].claims, states[j].claims)
  {
    RunKeepsInv(states, events, i);
    RunKeepsInv(states, events, j);
    StepIsLater(states, events, j - 1);
    LaterChain(states[i].claims, states[j - 1].claims, states[j].claims);
  }

  lemma RunKeepsInv(states: seq<Db>, events: seq<Event>, i: nat)
    requires Run(states, events) && i < |states|
    ensures Inv(states[i].claims)
  {
    RunKeeps(states, events, i);
  }

  lemma StepIsLater(states: seq<Db>, events: seq<Event>, k: nat)
    requires Run(states, events) && k + 1 < |states|
    ensures Later(states[k].claims, states[k + 1].claims)
  {
    RunKeeps(states, events, k);
    StepOf(states, events, k);
  }

  // At every moment at most one reservation of a session is active, and it is
  // the one Current returns.
  lemma RunHasOneActive(states: seq<Db>, events: seq<Event>, i: nat, a: ConnId, b: ConnId)
    requires Run(states, events) && i < |states|
    requires var c := states[i].claims;
      a in c.conns && Active(c.conns[a].status) && Of(c, b, c.conns[a].sessionId) && Active(c.conns[b].status)
    ensures a == b && CurrentOf(states[i].claims, states[i].claims.conns[a].sessionId) == Some(a)
  {
    RunKeeps(states, events, i);
    var c := states[i].claims;
    ActiveIsCurrent(c, a, CurrentOf(c, c.conns[a].sessionId));
  }

  // A final status is never left.
  lemma RunKeepsFinal(states: seq<Db>, events: seq<Event>, i: nat, j: nat, id: ConnId)
    requires Run(states, events) && i <= j < |states|
    requires id in states[i].claims.conns && Final(states[i].claims.conns[id].status) && id in states[j].claims.conns
    ensures states[j].claims.conns[id].status == states[i].claims.conns[id].status
  {
    RunIsLater(states, events, i, j);
    FinalIsAbsorbing(states[i].claims, states[j].claims, id);
  }

  // Write-once handover: an administrator never changes; whenever two
  // provision_vta reservations of a session are ever provisioned, at whatever
  // moments, they are one; and its DID is the administrator from then on.
  lemma RunHandsOverOnce(states: seq<Db>, events: seq<Event>, i: nat, j: nat, sid: SessionId, a: ConnId, b: ConnId)
    requires Run(states, events) && i < |states| && j < |states|
    requires Provisioned(states[i].claims, a, sid) && Provisioned(states[j].claims, b, sid)
    ensures a == b
    ensures sid in states[i].claims.sessions && sid in states[j].claims.sessions
    ensures states[i].claims.sessions[sid].adminDid.Some?
    ensures states[i].claims.conns[a].adminDid == states[i].claims.sessions[sid].adminDid == states[j].claims.sessions[sid].adminDid
  {
    RunKeeps(states, events, i);
    RunKeeps(states, events, j);
    if i <= j {
      RunIsLater(states, events, i, j);
      HandoverIsWriteOnce(states[i].claims, states[j].claims, sid, a, b);
    } else {
      RunIsLater(states, events, j, i);
      HandoverIsWriteOnce(states[j].claims, states[i].claims, sid, b, a);
    }
  }

  lemma RunKeepsAdministrator(states: seq<Db>, events: seq<Event>, i: nat, j: nat, sid: SessionId)
    requires Run(states, events) && i <= j < |states|
    requires sid in states[i].claims.sessions && sid in states[j].claims.sessions && states[i].claims.sessions[sid].adminDid.Some?
    ensures states[j].claims.sessions[sid].adminDid == states[i].claims.sessions[sid].adminDid
  {
    RunIsLater(states, events, i, j);
    assert SessionLater(states[i].claims.sessions[sid], states[j].claims.sessions[sid]);
  }

  lemma CleanupAt(states: seq<Db>, events: seq<Event>, i: nat, sid: SessionId)
    requires Run(states, events) && i < |events| && events[i].QueueCleanup? && sid in events[i].ids
    requires QueueCleanupTx(states[i], events[i].ids, events[i].now).Commit?
    ensures Cleanable(states[i + 1].claims, sid)
  {
    RunKeeps(states, events, i);
    assert StepAt(states, events, i);
    CleanupProtects(states[i], events[i].ids, events[i].now);
  }

  lemma CleanableLasts(states: seq<Db>, events: seq<Event>, i: nat, j: nat, sid: SessionId)
    requires Run(states, events) && i <= j < |states| && Cleanable(states[i].claims, sid) && sid in states[j].claims.sessions
    ensures Cleanable(states[j].claims, sid)
  {
    RunKeeps(states, events, i);
    RunKeeps(states, events, j);
    RunIsLater(states, events, i, j);
    CleanableStays(states[i].claims, states[j].claims, sid);
  }

  lemma CleanableWasUnused(states: seq<Db>, events: seq<Event>, i: nat, j: nat, sid: SessionId, a: ConnId)
    requires Run(states, events) && j <= i < |states| && Cleanable(states[i].claims, sid) && Of(states[j].claims, a, sid)
    ensures states[j].claims.conns[a].confirmedAt.None?
  {
    RunKeeps(states, events, i);
    RunKeeps(states, events, j);
    RunIsLater(states, events, j, i);
    CleanableWasNeverHandedOver(states[j].claims, states[i].claims, sid, a);
  }

  lemma CleanableIsUnused(states: seq<Db>, events: seq<Event>, i: nat, j: nat, sid: SessionId, a: ConnId)
    requires Run(states, events) && i < |states| && j < |states| && Cleanable(states[i].claims, sid)
    ensures j >= i && sid in states[j].claims.sessions ==> Cleanable(states[j].claims, sid)
    ensures Of(states[j].claims, a, sid) ==> states[j].claims.conns[a].confirmedAt.None?
  {
    RunKeepsInv(states, events, j);
    if j >= i && sid in states[j].claims.sessions {
      CleanableLasts(states, events, i, j, sid);
    } else if j < i && Of(states[j].claims, a, sid) {
      CleanableWasUnused(states, events, i, j, sid, a);
    }
  }

  // Pool cleanup never destroys a handed-over VTA: once queueing a session for
  // cleanup has committed, the session stays what its destruction demands until
  // it is gone, and at no moment of the run, before or after, was one of its
  // reservations confirmed.
  lemma RunCleansOnlyUnused(states: seq<Db>, events: seq<Event>, i: nat, j: nat, sid: SessionId, a: ConnId)
    requires Run(states, events) && i < |events| && j < |states|
    requires events[i].QueueCleanup? && sid in events[i].ids && QueueCleanupTx(states[i], events[i].ids, events[i].now).Commit?
    ensures j > i && sid in states[j].claims.sessions ==> Cleanable(states[j].claims, sid)
    ensures Of(states[j].claims, a, sid) ==> states[j].claims.conns[a].confirmedAt.None?
  {
    CleanupAt(states, events, i, sid);
    CleanableIsUnused(states, events, i + 1, j, sid, a);
  }

  lemma BatchCleanupAt(states: seq<Db>, events: seq<Event>, i: nat, sid: SessionId)
    requires Run(states, events) && i < |events| && events[i].QueueBatchCleanup?
    requires sid in states[i].members && states[i].members[sid] == events[i].batchId
    requires events[i].batchId in states[i].batches && states[i].batches[events[i].batchId].cleanupAt.None?
    requires BatchCleanupTx(states[i], events[i].batchId, events[i].now, events[i].stamped).Ok?
    ensures Cleanable(states[i + 1].claims, sid)
  {
    RunKeepsInv(states, events, i);
    assert StepAt(states, events, i);
    BatchCleanupProtects(states[i], events[i].batchId, events[i].now, events[i].stamped);
  }

  // The same for every member of a batch queued as a whole.
  lemma RunCleansBatchesOnlyUnused(states: seq<Db>, events: seq<Event>, i: nat, j: nat, sid: SessionId, a: ConnId)
    requires Run(states, events) && i < |events| && j < |states| && events[i].QueueBatchCleanup?
    requires sid in states[i].members && states[i].members[sid] == events[i].batchId
    requires events[i].batchId in states[i].batches && states[i].batches[events[i].batchId].cleanupAt.None?
    requires BatchCleanupTx(states[i], events[i].batchId, events[i].now, events[i].stamped).Ok?
    ensures j > i && sid in states[j].claims.sessions ==> Cleanable(states[j].claims, sid)
    ensures Of(states[j].claims, a, sid) ==> states[j].claims.conns[a].confirmedAt.None?
  {
    BatchCleanupAt(states, events, i, sid);
    CleanableIsUnused(states, events, i + 1, j, sid, a);
  }

  // What a teardown read before it closed: a deleting session without an
  // administrator, later none of its reservations confirmed. Whatever ran in
  // between, the session it removes was never handed over.
  lemma RunClosesOnlyUnused(states: seq<Db>, events: seq<Event>, read: nat, counted: nat, closing: nat, early: nat,
      sid: SessionId, a: ConnId)
    requires Run(states, events) && early <= read <= counted <= closing < |states|
    requires sid in states[read].claims.sessions && sid in states[counted].claims.sessions && sid in states[closing].claims.sessions
    requires states[read].claims.sessions[sid].status.Deleting? && states[read].claims.sessions[sid].adminDid.None?
    requires forall id :: Of(states[counted].claims, id, sid) ==> states[counted].claims.conns[id].confirmedAt.None?
    ensures Cleanable(states[closing].claims, sid)
    ensures Of(states[early].claims, a, sid) ==> states[early].claims.conns[a].confirmedAt.None?
  {
    RunKeeps(states, events, early);
    RunKeeps(states, events, read);
    RunKeeps(states, events, counted);
    RunKeeps(states, events, closing);
    RunIsLater(states, events, early, read);
    RunIsLater(states, events, read, counted);
    RunIsLater(states, events, counted, closing);
    if sid in states[early].claims.sessions {
      CleanupDestroysOnlyUnused(states[early].claims, states[read].claims, states[counted].claims, states[closing].claims, sid, a);
    } else {
      assert SessionLater(states[read].claims.sessions[sid], states[counted].claims.sessions[sid]);
      CleanableStays(states[counted].claims, states[closing].claims, sid);
    }
  }

  // A public capability is bound to one reservation for as long as that exists.
  lemma RunBindsOnce(states: seq<Db>, events: seq<Event>, i: nat, j: nat, digest: string, a: ConnId, b: ConnId)
    requires Run(states, events) && i <= j < |states|
    requires Bound(states[i].claims, digest, a) && Bound(states[j].claims, digest, b) && a in states[j].claims.conns
    ensures a == b
  {
    RunKeeps(states, events, j);
    RunIsLater(states, events, i, j);
    assert RowLater(states[i].claims.conns[a], states[j].claims.conns[a]);
  }

  // Whatever was read of a row earlier in the run is a copy a reconciliation
  // may act on.
  lemma RunReadsAreEarlier(states: seq<Db>, events: seq<Event>, i: nat, j: nat, id: ConnId)
    requires Run(states, events) && i <= j < |states| && id in states[i].claims.conns
    ensures ReadEarlier(states[j].claims, id, states[i].claims.conns[id])
  {
    RunKeepsInv(states, events, i);
    RunIsLater(states, events, i, j);
    assert RowOk(states[i].claims.conns[id]);
  }

  // ---- digests are bound only by public reservations ----

  // No digest appears from c to c'.
  ghost predicate BindsNothing(c: Claims, c': Claims) {
    forall id :: id in c'.conns ==> (if id in c.conns then c'.conns[id].accessDigest == c.conns[id].accessDigest else c'.conns[id].accessDigest.None?)
  }

  lemma {:induction false} ReserveBindsNothing(c: Claims, candidates: seq<SessionId>, skipped: set<SessionId>,
      times: nat -> Time, i: nat, freshId: ConnId)
    requires freshId !in c.conns && i <= |candidates|
    ensures BindsNothing(c, After(c, ReserveFrom(c, candidates, skipped, times, i, freshId)))
    decreases |candidates| - i
  {
    if i < |candidates| {
      ReserveBindsNothing(c, candidates, skipped, times, i + 1, freshId);
    }
  }

  // Whatever rows appear are of these sessions.
  ghost predicate AddsOnly(c: Claims, c': Claims, sids: set<SessionId>) {
    forall id :: id in c'.conns && id !in c.conns ==> c'.conns[id].sessionId in sids
  }

  // Outside the pool only a session that does not wait there gets a reservation.
  lemma ChangeAddsOnly(c: Claims, sid: SessionId, action: Action, expected: Option<ConnId>, now: Time, freshId: ConnId)
    requires freshId !in c.conns
    ensures var c' := After(c, ChangeTx(c, sid, action, expected, false, now, freshId));
      && BindsNothing(c, c') && AddsOnly(c, c', {sid})
      && (sid in c.sessions && c.sessions[sid].status.PoolWaiting? ==> AddsOnly(c, c', {}))
  {
  }

  lemma OwnerBindsNothing(d: Db, e: Event)
    requires e.OwnerConfirm? || e.OwnerReject? || e.OwnerAccept?
    ensures BindsNothing(d.claims, ClaimsAfter(d, e)) && AddsOnly(d.claims, ClaimsAfter(d, e), {})
  {
  }

  lemma CancelBindsNothing(d: Db, e: Event)
    requires e.OwnerCancelPending? || e.WalletClaim? || e.Stop?
    ensures BindsNothing(d.claims, ClaimsAfter(d, e)) && AddsOnly(d.claims, ClaimsAfter(d, e), {})
  {
  }

  lemma ProvisionBindsNothing(d: Db, e: Event)
    requires e.StartProvision? || e.Release? || e.MarkFailed? || e.LapseOpenRow? || e.LapseClaimedRow?
    ensures BindsNothing(d.claims, ClaimsAfter(d, e)) && AddsOnly(d.claims, ClaimsAfter(d, e), {})
  {
  }

  lemma PoolConfirmBindsNothing(d: Db, id: ConnId, now: Time, started: Time)
    ensures var c' := After(d.claims, PoolConfirmTx(d, id, now, started)); BindsNothing(d.claims, c') && AddsOnly(d.claims, c', {})
  {
  }

  lemma PoolRejectBindsNothing(d: Db, id: ConnId, now: Time)
    ensures var c' := After(d.claims, PoolRejectTx(d, id, now)); BindsNothing(d.claims, c') && AddsOnly(d.claims, c', {})
  {
  }

  lemma RetryBindsNothing(d: Db, sid: SessionId)
    ensures After(d.claims, RetryActivationTx(d, sid)).conns == d.claims.conns
    ensures After(d.claims, RetryBuildTx(d, sid)).conns == d.claims.conns
    ensures BuildErrorTx(d.claims, sid).conns == d.claims.conns
  {
  }

  lemma QueueBindsNothing(d: Db, ids: seq<SessionId>, now: Time)
    ensures var c' := After(d.claims, QueueCleanupTx(d, ids, now)); BindsNothing(d.claims, c') && AddsOnly(d.claims, c', {})
  {
  }

  lemma CleanupBindsNothing(d: Db, batchId: BatchId, now: Time, stamped: Time)
    requires BatchCleanupTx(d, batchId, now, stamped).Ok?
    ensures var c' := BatchCleanupTx(d, batchId, now, stamped).value.claims; BindsNothing(d.claims, c') && AddsOnly(d.claims, c', {})
  {
  }

  lemma CloseBindsNothing(d: Db, sid: SessionId, userId: UserId, membership: Option<BatchId>)
    ensures var c' := CloseTx(d, sid, userId, membership).claims; BindsNothing(d.claims, c') && AddsOnly(d.claims, c', {})
  {
  }

  // The steps of the store and the orchestrator that are no reservation.
  lemma ClaimsStepBindsNothing(d: Db, e: Event)
    requires ClaimsEvent(e) && !e.Reserve? && !e.ReservePublic? && !e.OwnerChange?
    ensures BindsNothing(d.claims, ClaimsAfter(d, e)) && AddsOnly(d.claims, ClaimsAfter(d, e), {})
  {
    if e.OwnerConfirm? || e.OwnerReject? || e.OwnerAccept? {
      OwnerBindsNothing(d, e);
    } else if e.OwnerCancelPending? || e.WalletClaim? || e.Stop? {
      CancelBindsNothing(d, e);
    } else if e.StartProvision? || e.Release? || e.MarkFailed? || e.LapseOpenRow? || e.LapseClaimedRow? {
      ProvisionBindsNothing(d, e);
    } else if e.PoolConfirm? {
      PoolConfirmBindsNothing(d, e.id, e.now, e.started);
    } else if e.PoolReject? {
      PoolRejectBindsNothing(d, e.id, e.now);
    } else if e.QueueCleanup? {
      QueueBindsNothing(d, e.ids, e.now);
    } else {
      RetryBindsNothing(d, e.sid);
    }
  }

  lemma BatchStepBindsNothing(d: Db, e: Event, d': Db)
    requires Inv(d.claims) && Next(d, e, d') && !ClaimsEvent(e)
    ensures BindsNothing(d.claims, d'.claims) && AddsOnly(d.claims, d'.claims, {})
  {
    if e.Admit? || e.AddInventory? {
      AdmissionBindsNothing(d, e, d');
    } else if e.CloseTeardown? {
      CloseBindsNothing(d, e.sid, e.userId, e.membership);
    } else if e.QueueBatchCleanup? {
      if BatchCleanupTx(d, e.batchId, e.now, e.stamped).Ok? {
        CleanupBindsNothing(d, e.batchId, e.now, e.stamped);
      }
    } else {
      assert d'.claims.conns == d.claims.conns;
    }
  }

  lemma StepBindsNothing(states: seq<Db>, events: seq<Event>, k: nat)
    requires Run(states, events) && k < |events| && Inv(states[k].claims) && !events[k].ReservePublic?
    ensures BindsNothing(states[k].claims, states[k + 1].claims)
  {
    var d, e := states[k], events[k];
    assert StepAt(states, events, k);
    if e.Reserve? {
      ReserveBindsNothing(d.claims, e.candidates, e.skipped, e.times, 0, e.freshId);
    } else if e.OwnerChange? {
      ChangeAddsOnly(d.claims, e.sid, e.action, e.expected, e.now, e.freshId);
    } else if ClaimsEvent(e) {
      ClaimsStepBindsNothing(d, e);
    } else {
      BatchStepBindsNothing(d, e, states[k + 1]);
    }
  }

  // The steps that can make a reservation for one of these sessions: those the
  // pool's lock keeps out, and an owner's while the session does not wait in the
  // pool.
  ghost predicate Makes(d: Db, e: Event, candidates: seq<SessionId>) {
    || e.Reserve? || e.ReservePublic?
    || (e.OwnerChange? && e.sid in candidates && !(e.sid in d.claims.sessions && d.claims.sessions[e.sid].status.PoolWaiting?))
  }

  lemma StepMakesNone(states: seq<Db>, events: seq<Event>, k: nat, candidates: seq<SessionId>)
    requires Run(states, events) && k < |events| && Inv(states[k].claims) && !Makes(states[k], events[k], candidates)
    ensures NoneMade(states[k], states[k + 1], candidates)
  {
    var d, e := states[k], events[k];
    assert StepAt(states, events, k);
    if e.OwnerChange? {
      ChangeAddsOnly(d.claims, e.sid, e.action, e.expected, e.now, e.freshId);
    } else if ClaimsEvent(e) {
      ClaimsStepBindsNothing(d, e);
    } else {
      BatchStepBindsNothing(d, e, states[k + 1]);
    }
  }

  lemma NoneMadeChain(a: Db, b: Db, c: Db, candidates: seq<SessionId>)
    requires NoneMade(a, b, candidates) && NoneMade(b, c, candidates) && Later(b.claims, c.claims)
    ensures NoneMade(a, c, candidates)
  {
    forall id | id in c.claims.conns && c.claims.conns[id].sessionId in candidates
      ensures id in a.claims.conns
    {
      assert RowLater(b.claims.conns[id], c.claims.conns[id]);
    }
  }

  lemma NextMakesNone(states: seq<Db>, events: seq<Event>, d0: Db, k: nat, candidates: seq<SessionId>)
    requires Run(states, events) && k < |events| && NoneMade(d0, states[k], candidates) && !Makes(states[k], events[k], candidates)
    ensures NoneMade(d0, states[k + 1], candidates)
  {
    RunKeepsInv(states, events, k);
    StepMakesNone(states, events, k, candidates);
    StepIsLater(states, events, k);
    NoneMadeChain(d0, states[k], states[k + 1], candidates);
  }

  // Without such a step between the query and the reservation, none was made.
  lemma {:induction false} RunMakesNone(states: seq<Db>, events: seq<Event>, i: nat, j: nat, candidates: seq<SessionId>)
    requires Run(states, events) && i <= j < |states|
    requires forall k :: i <= k < j ==> !Makes(states[k], events[k], candidates)
    ensures NoneMade(states[i], states[j], candidates)
  {
    if i < j {
      RunMakesNone(states, events, i, j - 1, candidates);
      NextMakesNone(states, events, states[i], j - 1, candidates);
    }
  }

  // So a reservation that acts on the answer of that query inserts a new row, or
  // comes back empty.
  lemma RunReservesNew(states: seq<Db>, events: seq<Event>, i: nat, j: nat)
    requires Run(states, events) && i <= j < |events| && events[j].Reserve? && events[j].answered == states[i]
    requires forall k :: i <= k < j ==> !Makes(states[k], events[k], events[j].candidates)
    ensures var e := events[j];
      var o := ReserveFrom(states[j].claims, e.candidates, e.skipped, e.times, 0, e.freshId);
      if o.Commit? then o.value == e.freshId && e.freshId in states[j + 1].claims.conns && e.freshId !in states[j].claims.conns
      else o == Abort(Empty)
  {
    var e := events[j];
    RunMakesNone(states, events, i, j, e.candidates);
    RunKeepsInv(states, events, j);
    assert StepAt(states, events, j);
    NewIfNoneMade(states[i], states[j], {e.batchId}, e.candidates, e.skipped, e.times, e.freshId);
  }

  lemma NewIfNoneMade(d0: Db, d: Db, eligible: set<BatchId>, candidates: seq<SessionId>, skipped: set<SessionId>,
      times: nat -> Time, freshId: ConnId)
    requires Inv(d.claims) && Readings(times) && freshId !in d.claims.used && NoneMade(d0, d, candidates)
    requires Answered(d0, d, eligible, times(0), candidates)
    ensures var o := ReserveFrom(d.claims, candidates, skipped, times, 0, freshId);
      if o.Commit? then o.value == freshId && freshId in o.claims.conns && freshId !in d.claims.conns else o == Abort(Empty)
  {
    ReserveIsExclusive(d0, d, eligible, candidates, skipped, times, 0, freshId);
  }

  // While the pool's lock keeps other public reservations out, no digest appears.
  lemma {:induction false} RunBindsUnderLock(states: seq<Db>, events: seq<Event>, i: nat, j: nat)
    requires Run(states, events) && i <= j < |states|
    requires forall k :: i <= k < j ==> !events[k].ReservePublic?
    ensures NoneBound(states[i], states[j])
  {
    if i < j {
      RunBindsUnderLock(states, events, i, j - 1);
      RunKeepsInv(states, events, j - 1);
      StepBindsNothing(states, events, j - 1);
    }
  }

  // Whatever the candidate query returned earlier in the run is an answer a
  // reservation may act on.
  lemma RunAnswersAreEarlier(states: seq<Db>, events: seq<Event>, i: nat, j: nat, eligible: set<BatchId>,
      asked: Time, candidates: seq<SessionId>)
    requires Run(states, events) && i <= j < |states| && AreCandidates(states[i], eligible, asked, candidates)
    ensures Answered(states[i], states[j], eligible, asked, candidates)
  {
    RunKeepsInv(states, events, i);
    RunIsLater(states, events, i, j);
  }

  lemma AdmissionBindsNothing(d: Db, e: Event, d': Db)
    requires Inv(d.claims) && Next(d, e, d') && (e.Admit? || e.AddInventory?)
    ensures d'.claims.conns == d.claims.conns
  {
    if Untouched(d, d') {
    } else if e.Admit? && ValidAdmission(e.admission) {
      var users :| AdmitCreates(d, e.admission, e.now, d', e.admitted.value, users);
    } else if e.AddInventory? && ValidAddition(e.addition) {
      var addition, users :| AddCreates(d, e.addition, d', e.admitted.value, addition, users);
    }
  }

  // Every handover of a run is timely: claimed while the QR code was valid,
  // confirmed while the claim was, by a valid administrator DID.
  lemma RunHandsOverInTime(states: seq<Db>, events: seq<Event>, i: nat, sid: SessionId, a: ConnId)
    requires Run(states, events) && i < |states| && Provisioned(states[i].claims, a, sid)
    ensures var r := states[i].claims.conns[a];
      && r.claimedAt.Some? && r.confirmedAt.Some?
      && r.createdAt <= r.claimedAt.value < r.createdAt + QR_LIFETIME
      && r.claimedAt.value <= r.confirmedAt.value < r.claimedAt.value + CONFIRMATION_LIFETIME
      && r.adminDid.Some? && IsAdminDid(r.adminDid.value) && r.claimantDigest == r.adminDid
  {
    RunKeepsInv(states, events, i);
    assert RowOk(states[i].claims.conns[a]);
    HandoverInTime(states[i].claims, a);
  }

  // A build is retried only for a member never handed over.
  lemma RunRetriesOnlyUnused(states: seq<Db>, events: seq<Event>, i: nat, j: nat, sid: SessionId, a: ConnId)
    requires Run(states, events) && i <= j < |events| && events[j] == RetryBuild(sid)
    requires RetryBuildTx(states[j], sid).Commit? && Of(states[i].claims, a, sid)
    ensures states[i].claims.conns[a].confirmedAt.None? && !Provisioned(states[i].claims, a, sid)
  {
    RunKeepsInv(states, events, i);
    RunIsLater(states, events, i, j);
    var r := states[i].claims.conns[a];
    assert RowOk(r);
    assert a in states[j].claims.conns ==> RowLater(r, states[j].claims.conns[a]) && Of(states[j].claims, a, sid);
  }

  // ---- the running total over whole runs ----

  lemma NextKeepsFirstCount(d: Db, e: Event, d': Db, b: BatchId)
    requires Inv(d.claims) && Tidy(d) && Next(d, e, d') && b in d'.batches
    ensures d.nextBatch <= d'.nextBatch
    ensures b in d.batches ==> FirstCount(d', b) == FirstCount(d, b)
    ensures b !in d.batches ==> b >= d.nextBatch
  {
    if e.AddInventory? {
      if b in d.batches {
        AddKeepsFirstCount(d, e.addition, d', e.admitted, b);
      }
    } else {
      OtherBatchesSame(d, e, d', b);
      if b in d.batches {
        SameFirstCount(d, d', b);
      }
    }
  }

  // The batch's total and its additions are what they were.
  ghost predicate SameTotal(d: Db, d': Db, b: BatchId)
    requires b in d.batches && b in d'.batches
  {
    && d'.batches[b].requested == d.batches[b].requested && d.nextAddition <= d'.nextAddition
    && (forall a :: a in d.additions && d.additions[a].batchId == b ==> a in d'.additions && d'.additions[a] == d.additions[a])
    && (forall a :: a in d'.additions && d'.additions[a].batchId == b ==> a in d.additions && d.additions[a] == d'.additions[a])
  }

  lemma OtherBatchesSame(d: Db, e: Event, d': Db, b: BatchId)
    requires Next(d, e, d') && !e.AddInventory? && b in d'.batches
    requires Tidy(d)
    ensures d.nextBatch <= d'.nextBatch && (b !in d.batches ==> b >= d.nextBatch)
    ensures b in d.batches ==> SameTotal(d, d', b)
  {
    if ClaimsEvent(e) || d' == d {
    } else if e.Admit? {
      AdmitKeepsTotals(d, e.admission, e.now, d', e.admitted, b);
    } else if e.CloseTeardown? {
      CloseKeepsTotals(d, e.sid, e.userId, e.membership, b);
    } else if e.QueueBatchCleanup? {
      BatchCleanupKeepsTotals(d, e.batchId, e.now, e.stamped, b);
    } else if e.FinalizeBatch? {
      FinalizeKeepsTotals(d, e.batchId, b);
    } else if e.SetPublic? {
      SetPublicKeepsTotals(d, e.batchId, e.enabled, e.now, b);
    }
  }

  lemma SetPublicKeepsTotals(d: Db, batchId: BatchId, enabled: bool, now: Time, b: BatchId)
    requires SetPublicTx(d, batchId, enabled, now).Ok? && b in SetPublicTx(d, batchId, enabled, now).value.batches
    ensures var d' := SetPublicTx(d, batchId, enabled, now).value;
      b in d.batches && SameTotal(d, d', b) && d'.nextBatch == d.nextBatch
  {
  }

  lemma FinalizeKeepsTotals(d: Db, batchId: BatchId, b: BatchId)
    requires b in FinalizeTx(d, batchId).batches
    ensures b in d.batches && SameTotal(d, FinalizeTx(d, batchId), b) && FinalizeTx(d, batchId).nextBatch == d.nextBatch
  {
  }

  lemma AdmitKeepsTotals(d: Db, i: Admission, now: Time, d': Db, r: Result<Admitted>, b: BatchId)
    requires Tidy(d) && AdmitSpec(d, i, now, d', r) && b in d'.batches
    ensures d.nextBatch <= d'.nextBatch && (b !in d.batches ==> b >= d.nextBatch)
    ensures b in d.batches ==> SameTotal(d, d', b)
  {
    if !Untouched(d, d') && ValidAdmission(i) {
      var users :| AdmitCreates(d, i, now, d', r.value, users);
    }
  }

  lemma CloseKeepsTotals(d: Db, sid: SessionId, userId: UserId, batchId: Option<BatchId>, b: BatchId)
    requires var d' := CloseTx(d, sid, userId, batchId); b in d'.batches
    ensures var d' := CloseTx(d, sid, userId, batchId);
      b in d.batches && SameTotal(d, d', b) && d'.nextBatch == d.nextBatch
  {
  }

  lemma BatchCleanupKeepsTotals(d: Db, batchId: BatchId, now: Time, stamped: Time, b: BatchId)
    requires BatchCleanupTx(d, batchId, now, stamped).Ok? && b in BatchCleanupTx(d, batchId, now, stamped).value.batches
    ensures var d' := BatchCleanupTx(d, batchId, now, stamped).value;
      b in d.batches && SameTotal(d, d', b) && d'.nextBatch == d.nextBatch
  {
  }

  // requested_count less the batch's additions is the count it was admitted
  // with, at every moment the batch exists.
  lemma {:induction false} RunKeepsFirstCount(states: seq<Db>, events: seq<Event>, i: nat, j: nat, b: BatchId)
    requires Run(states, events) && i <= j < |states| && b in states[i].batches && b in states[j].batches
    ensures FirstCount(states[j], b) == FirstCount(states[i], b)
  {
    if i < j {
      RunKeeps(states, events, i);
      RunKeeps(states, events, j - 1);
      StepFirstCount(states, events, j - 1, b);
      RunGrowsBatches(states, events, i, j - 1);
      RunKeepsFirstCount(states, events, i, j - 1, b);
    }
  }

  lemma StepFirstCount(states: seq<Db>, events: seq<Event>, k: nat, b: BatchId)
    requires Run(states, events) && k + 1 < |states| && b in states[k + 1].batches
    requires Inv(states[k].claims) && Tidy(states[k])
    ensures b !in states[k].batches ==> b >= states[k].nextBatch
    ensures b in states[k].batches ==> FirstCount(states[k + 1], b) == FirstCount(states[k], b)
  {
    assert StepAt(states, events, k);
    NextKeepsFirstCount(states[k], events[k], states[k + 1], b);
  }

  lemma {:induction false} RunGrowsBatches(states: seq<Db>, events: seq<Event>, i: nat, j: nat)
    requires Run(states, events) && i <= j < |states|
    ensures states[i].nextBatch <= states[j].nextBatch
  {
    if i < j {
      RunGrowsBatches(states, events, i, j - 1);
      StepGrowsBatches(states, events, j - 1);
    }
  }

  lemma StepGrowsBatches(states: seq<Db>, events: seq<Event>, k: nat)
    requires Run(states, events) && k + 1 < |states|
    ensures states[k].nextBatch <= states[k + 1].nextBatch
  {
    assert StepAt(states, events, k);
  }
}
