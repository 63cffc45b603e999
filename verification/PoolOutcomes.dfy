// What each transaction of the pool leaves in the tables, and when it goes
// through, apart from the functions that compute it.
module PoolOutcomes {
  import opened Rows
  import opened Protocol
  import opened Transactions
  import opened PoolTransactions
  import opened Outcomes

  // Only the status of this session differs.
  predicate OnlyStatus(c: Claims, c': Claims, sid: SessionId, status: SessionStatus) {
    sid in c.sessions && c' == c.(sessions := c.sessions[sid := c.sessions[sid].(status := status)])
  }

  // ---- reserve ----

  // A claim nobody may come between.
  predicate Occupies(r: Connection, now: Time) {
    || (r.status == Open && now < r.expiresAt) || (r.status == Claimed && r.confirmBy.Some? && now < r.confirmBy.value)
    || r.status in {Confirmed, ConnStatus.Provisioning}
  }

  // Whom the candidate query finds: every member of an eligible batch that waits,
  // is nobody's, and has no claim in progress.
  lemma CandidateIff(d: Db, eligible: set<BatchId>, now: Time, candidates: seq<SessionId>, sid: SessionId)
    requires AreCandidates(d, eligible, now, candidates)
    ensures sid in candidates <==>
      && sid in d.members && d.members[sid] in eligible && sid in d.claims.sessions
      && d.claims.sessions[sid].status == PoolWaiting && d.claims.sessions[sid].adminDid == None
      && forall id :: Of(d.claims, id, sid) ==> !Occupies(d.claims.conns[id], now)
  {
    if sid in d.claims.sessions {
      assert Unclaimed(d.claims, sid, now) <==>
        && d.claims.sessions[sid].status == PoolWaiting && d.claims.sessions[sid].adminDid == None
        && forall id :: Of(d.claims, id, sid) ==> !LiveClaim(d.claims.conns[id], now);
      assert forall id :: Of(d.claims, id, sid) ==> (LiveClaim(d.claims.conns[id], now) <==> Occupies(d.claims.conns[id], now));
    }
  }

  // The batches open to the public.
  predicate OpenToPublic(b: Batch) { b.purpose == PublicSignup && b.publicSince != None }

  lemma PublicBatchesAre(batches: map<BatchId, Batch>, b: BatchId)
    ensures b in PublicBatches(batches) <==> b in batches && OpenToPublic(batches[b])
  {
  }

  // A public reservation needs a digest of 32 bytes, finds what is bound to it, and
  // otherwise is refused exactly while no batch is open to the public; if one is, it
  // is what the loop reserves.
  lemma ReservePublicDecides(d: Db, digest: string, candidates: seq<SessionId>, skipped: set<SessionId>, times: nat -> Time,
      freshId: ConnId)
    ensures var o, reserved := ReservePublicTx(d, digest, candidates, skipped, times, freshId),
        ReserveFrom(d.claims, candidates, skipped, times, 0, freshId);
      if |digest| != 32 then o == Abort(Invalid)
      else if exists id :: Bound(d.claims, digest, id) then
        o.Commit? && o.claims == d.claims && Bound(d.claims, digest, o.value.0) && !o.value.1
      else if forall b :: b in d.batches ==> !OpenToPublic(d.batches[b]) then o == Abort(PublicDisabled)
      else if reserved.Abort? then o == Abort(reserved.error)
      else reserved.value in reserved.claims.conns ==> o.Commit? && o.value == (reserved.value, true) && Binds(reserved.claims, o.claims, reserved.value, digest)
  {
    if b :| b in d.batches && OpenToPublic(d.batches[b]) {
      assert PublicEnabled(d.batches, b);
    }
  }

  // Only this row has got the digest.
  predicate Binds(c: Claims, c': Claims, id: ConnId, digest: string) {
    OnlyRow(c, c', id) && c'.conns[id] == c.conns[id].(accessDigest := Some(digest))
  }

  // ---- confirm, reject ----

  // Confirming a claim in time also begins its session, in the same commit.
  lemma PoolConfirmTakes(d: Db, id: ConnId, confirmed: Time, started: Time)
    requires Inv(d.claims) && id in d.claims.conns && d.claims.conns[id].sessionId in d.members
    requires d.claims.conns[id].status == Claimed && d.claims.conns[id].operation == ProvisionVta
    ensures var o, r := PoolConfirmTx(d, id, confirmed, started), d.claims.conns[id];
      if r.confirmBy.Some? && confirmed < r.confirmBy.value
      then
        && o.Commit? && o.value == id && id in o.claims.conns
        && o.claims.conns == d.claims.conns[id := r.(status := ConnStatus.Provisioning, confirmedAt := Some(confirmed))]
        && OnlyBegun(d.claims, o.claims, r.sessionId, r.adminDid)
      else o == Abort(Error.Expired)
  {
    assert RowOk(d.claims.conns[id]);
  }

  // Rejecting lapses an open reservation that is its session's newest, and ends a
  // claim before its deadline; whose it was is forgotten either way.
  lemma PoolRejectTakes(d: Db, id: ConnId, now: Time)
    requires Inv(d.claims) && id in d.claims.conns && d.claims.conns[id].sessionId in d.members
    ensures var o, r := PoolRejectTx(d, id, now), d.claims.conns[id];
      if r.status == Open then o.Commit? && MovesOnly(d.claims, o.claims, id, Lapsed, true)
      else if r.status == Claimed && r.confirmBy.Some? && now < r.confirmBy.value then o.Commit? && MovesOnly(d.claims, o.claims, id, Rejected, true)
      else o == Abort(if r.status == Claimed then Error.Expired else Conflict)
  {
    var c, sid := d.claims, d.claims.conns[id].sessionId;
    if c.conns[id].status == Open {
      ActiveIsCurrent(c, id, CurrentOf(c, sid));
      CancelLapses(c, sid, Some(id), false, now, 0);
    } else if c.conns[id].status == Claimed {
      RejectTakes(c, sid, id, now);
    }
  }

  // ---- retries and the runner's record ----

  // The administrator of the session is the one this reservation was confirmed for.
  predicate ConfirmedFor(s: Session, r: Connection, sid: SessionId) {
    && r.sessionId == sid && r.operation == ProvisionVta && r.confirmedAt != None
    && r.adminDid == s.adminDid && r.status in {Confirmed, ConnStatus.Provisioning}
  }

  // A failed activation is provisioned again if and only if its administrator was
  // confirmed and is not released yet.
  lemma RetryActivationTakes(d: Db, sid: SessionId)
    requires sid in d.members && sid in d.claims.sessions
    ensures var o, c, s := RetryActivationTx(d, sid), d.claims, d.claims.sessions[sid];
      if s.status == SessionStatus.Failed && s.adminDid != None && exists id :: id in c.conns && ConfirmedFor(s, c.conns[id], sid)
      then o.Commit? && OnlyStatus(c, o.claims, sid, SessionStatus.Provisioning)
      else o == Abort(Conflict)
  {
    var c, s := d.claims, d.claims.sessions[sid];
    if id :| id in c.conns && ConfirmedFor(s, c.conns[id], sid) {
      assert Retryable(c, sid, id);
    }
    if id :| Retryable(c, sid, id) {
      assert ConfirmedFor(s, c.conns[id], sid);
    }
  }

  // A failed build starts from the beginning if and only if nobody ever got the VTA.
  lemma RetryBuildTakes(d: Db, sid: SessionId)
    requires sid in d.members && sid in d.claims.sessions
    ensures var o, c, s := RetryBuildTx(d, sid), d.claims, d.claims.sessions[sid];
      if s.status == SessionStatus.Failed && s.adminDid == None && forall id :: Of(c, id, sid) ==> c.conns[id].confirmedAt == None
      then o.Commit? && OnlyStatus(c, o.claims, sid, PoolCreating)
      else o == Abort(Conflict)
  {
    if id :| Of(d.claims, id, sid) && d.claims.conns[id].confirmedAt.Some? {
      assert !(forall id :: Of(d.claims, id, sid) ==> d.claims.conns[id].confirmedAt == None);
    }
  }

  // Not one that is not a member, nor one that is gone.
  lemma RetriesRefuseOthers(d: Db, sid: SessionId)
    requires sid !in d.members || sid !in d.claims.sessions
    ensures RetryActivationTx(d, sid) == Abort(if sid in d.members then NotFound else Conflict) == RetryBuildTx(d, sid)
  {
  }

  // A build error fails whatever is not being deleted.
  lemma BuildErrorTakes(c: Claims, sid: SessionId)
    requires sid in c.sessions
    ensures if c.sessions[sid].status == Deleting then BuildErrorTx(c, sid) == c
      else OnlyStatus(c, BuildErrorTx(c, sid), sid, SessionStatus.Failed)
  {
  }

  // ---- cleanup ----

  // A claim of the VTA, made or still possible.
  predicate LiveRow(r: Connection, now: Time) {
    || r.confirmedAt != None || r.status in {Confirmed, ConnStatus.Provisioning, Released}
    || (r.status == Open && now < r.expiresAt)
    || (r.status == Claimed && (r.confirmBy == None || now < r.confirmBy.value))
  }

  // Somebody with an account of their own.
  predicate Known(d: Db, u: UserId) {
    u !in d.users || d.users[u].hasEmail || d.users[u].fullstackAccess || u in d.passkeys
  }

  // Whatever keeps a named session from being destroyed.
  ghost predicate Kept(d: Db, ids: seq<SessionId>, sid: SessionId, now: Time) {
    || sid !in d.members || sid !in d.claims.sessions
    || var s := d.claims.sessions[sid];
    || s.adminDid != None || s.status !in {PoolWaiting, SessionStatus.Failed} || Known(d, s.userId)
    || (exists t :: t in ids && t != sid && t in d.claims.sessions && d.claims.sessions[t].userId == s.userId)
    || exists id :: Of(d.claims, id, sid) && LiveRow(d.claims.conns[id], now)
  }

  // What a committed cleanup does to one row of a named session.
  predicate Cleaned(r: Connection, r': Connection) {
    if r.status == Open then Moved(r, r', Lapsed, false)
    else if r.status == Claimed then Moved(r, r', Lapsed, true)
    else r' == r
  }

  lemma DisposableIff(d: Db, ids: seq<SessionId>, now: Time)
    ensures Disposable(d, Named(ids), now) <==> forall sid :: sid in ids ==> !Kept(d, ids, sid, now)
  {
    if Disposable(d, Named(ids), now) {
      forall sid | sid in ids
        ensures !Kept(d, ids, sid, now)
      {
        assert sid in Named(ids) && DisposableSession(d, sid);
      }
    } else if forall sid :: sid in ids ==> !Kept(d, ids, sid, now) {
      NoneKept(d, ids, now);
    }
  }

  lemma NoneKept(d: Db, ids: seq<SessionId>, now: Time)
    requires forall sid :: sid in ids ==> !Kept(d, ids, sid, now)
    ensures Disposable(d, Named(ids), now)
  {
    forall sid | sid in Named(ids)
      ensures sid in d.members && sid in d.claims.sessions && DisposableSession(d, sid)
    {
      assert !Kept(d, ids, sid, now);
    }
    forall a, b | a in Named(ids) && b in Named(ids) && a != b
      ensures d.claims.sessions[a].userId != d.claims.sessions[b].userId
    {
      assert !Kept(d, ids, a, now);
    }
    forall id | id in d.claims.conns && d.claims.conns[id].sessionId in Named(ids)
      ensures d.claims.conns[id].confirmedAt.None? && ExpiredOrOver(d.claims.conns[id], now)
    {
      assert !Kept(d, ids, d.claims.conns[id].sessionId, now);
    }
  }

  // A list goes through if and only if it names somebody, nobody twice, and
  // nothing keeps any of them; then each is deleting, what had expired lapses,
  // and nothing else changes.
  lemma QueueCleanupTakes(d: Db, ids: seq<SessionId>, now: Time)
    ensures var o, c := QueueCleanupTx(d, ids, now), d.claims;
      && (o.Commit? <==> ids != [] && (forall i, j :: 0 <= i < j < |ids| ==> ids[i] != ids[j]) && forall sid :: sid in ids ==> !Kept(d, ids, sid, now))
      && (o.Abort? ==> o.error == Conflict)
      && (o.Commit? ==>
          && o.claims.sessions.Keys == c.sessions.Keys && o.claims.conns.Keys == c.conns.Keys
          && (forall sid :: sid in c.sessions ==>
              o.claims.sessions[sid] == if sid in ids then c.sessions[sid].(status := Deleting) else c.sessions[sid])
          && forall id :: id in c.conns ==>
            if c.conns[id].sessionId in ids then Cleaned(c.conns[id], o.claims.conns[id]) else o.claims.conns[id] == c.conns[id])
  {
    DisposableIff(d, ids, now);
  }

  // ---- batches ----

  // A batch goes, and its additions with it.
  ghost predicate BatchGone(d: Db, d': Db, batchId: BatchId) {
    && d' == d.(batches := d'.batches, additions := d'.additions)
    && d'.batches == d.batches - {batchId}
    && (forall a :: a in d'.additions <==> a in d.additions && d.additions[a].batchId != batchId)
    && forall a :: a in d'.additions ==> d'.additions[a] == d.additions[a]
  }

  predicate NoMember(members: map<SessionId, BatchId>, batchId: BatchId) { batchId !in members.Values }

  // The first cleanup of a batch without members removes it; one with members is
  // stamped if the list of them goes through, and refused if it does not.
  lemma QueueBatchCleanupTakes(d: Db, batchId: BatchId, ids: seq<SessionId>, now: Time, stamped: Time)
    requires batchId in d.batches && d.batches[batchId].cleanupAt == None
    requires forall sid :: sid in ids <==> sid in d.members && d.members[sid] == batchId
    requires forall i, j :: 0 <= i < j < |ids| ==> ids[i] != ids[j]
    ensures var r, o := BatchCleanupTx(d, batchId, now, stamped), QueueCleanupTx(d, ids, now);
      if ids == [] then r.Ok? && BatchGone(d, r.value, batchId)
      else if o.Commit? then r == Ok(d.(claims := o.claims, batches := d.batches[batchId := d.batches[batchId].(cleanupAt := Some(stamped))]))
      else r == Fail(Conflict)
  {
    assert Named(ids) == MembersOf(d, batchId);
    assert ids != [] ==> ids[0] in MembersOf(d, batchId);
  }

  lemma QueuedBatchStays(d: Db, batchId: BatchId, now: Time, stamped: Time)
    ensures batchId !in d.batches ==> BatchCleanupTx(d, batchId, now, stamped) == Fail(NotFound)
    ensures batchId in d.batches && d.batches[batchId].cleanupAt != None ==> BatchCleanupTx(d, batchId, now, stamped) == Ok(d)
  {
  }

  lemma FinalizeTakes(d: Db, batchId: BatchId)
    requires batchId in d.batches
    ensures if d.batches[batchId].cleanupAt != None && NoMember(d.members, batchId)
      then BatchGone(d, FinalizeTx(d, batchId), batchId) else FinalizeTx(d, batchId) == d
  {
    if s :| s in d.members && d.members[s] == batchId {
      assert d.members[s] in d.members.Values;
    }
  }

  // Only a public signup batch not queued for cleanup is switched; switching one
  // on again keeps the moment it was switched on at.
  lemma SetPublicTakes(d: Db, batchId: BatchId, enabled: bool, now: Time)
    requires batchId in d.batches
    ensures var r, b := SetPublicTx(d, batchId, enabled, now), d.batches[batchId];
      if b.purpose == PublicSignup && b.cleanupAt == None
      then r == Ok(d.(batches := d.batches[batchId := b.(publicSince :=
        if !enabled then None else if b.publicSince.Some? then b.publicSince else Some(now))]))
      else r == Fail(Conflict)
  {
    assert d.batches[batchId := d.batches[batchId]] == d.batches;
  }

  // ---- the closing transaction of a teardown ----

  // Nobody is left to keep this user.
  ghost predicate Unkept(d: Db, sid: SessionId, u: UserId) {
    forall t :: t in d.claims.sessions && t != sid ==> d.claims.sessions[t].userId != u
  }

  ghost predicate UserGoes(d: Db, sid: SessionId, u: UserId) {
    u in d.users && Unkept(d, sid, u) && !d.users[u].hasEmail && !d.users[u].fullstackAccess && u !in d.passkeys
  }

  ghost predicate BatchGoes(d: Db, sid: SessionId, b: BatchId) {
    b in d.batches && d.batches[b].cleanupAt != None && forall t :: t in d.members && t != sid ==> d.members[t] != b
  }

  // The session goes with its reservations.
  ghost predicate SessionGone(c: Claims, c': Claims, sid: SessionId) {
    && c'.sessions == c.sessions - {sid} && c'.used == c.used && c'.nextSession == c.nextSession
    && (forall id :: id in c'.conns <==> id in c.conns && c.conns[id].sessionId != sid)
    && forall id :: id in c'.conns ==> c'.conns[id] == c.conns[id]
  }

  // Unless it is held back, a close takes away the session and its reservations;
  // of a member also the membership, the owner if nothing keeps them, and its
  // batch if that waits for it only, with the additions. Nothing else goes.
  lemma CloseTakes(d: Db, sid: SessionId, userId: UserId, membership: Option<BatchId>)
    ensures var d' := CloseTx(d, sid, userId, membership);
      if HeldBack(d, sid, userId, membership) then d' == d
      else if membership.None? then d' == d.(claims := d'.claims) && SessionGone(d.claims, d'.claims, sid)
      else
        && SessionGone(d.claims, d'.claims, sid) && d'.members == d.members - {sid}
        && d'.users == (if UserGoes(d, sid, userId) then d.users - {userId} else d.users)
        && d'.passkeys == d.passkeys && d'.nextUser == d.nextUser && d'.nextBatch == d.nextBatch && d'.nextAddition == d.nextAddition
        && if BatchGoes(d, sid, membership.value) then BatchGone(d'.(batches := d.batches, additions := d.additions), d', membership.value)
           else d'.batches == d.batches && d'.additions == d.additions
  {
    var c := DeleteSession(d.claims, sid);
    UnkeptOwnsNone(d, sid, userId);
    if membership.Some? {
      assert Emptied(d.members - {sid}, membership.value) <==> forall t :: t in d.members && t != sid ==> d.members[t] != membership.value by {
        assert forall t :: t in d.members - {sid} <==> t in d.members && t != sid;
      }
    }
  }

  lemma UnkeptOwnsNone(d: Db, sid: SessionId, userId: UserId)
    ensures OwnsNone(DeleteSession(d.claims, sid).sessions, userId) <==> Unkept(d, sid, userId)
  {
    var c := DeleteSession(d.claims, sid);
    assert forall t :: t in c.sessions <==> t in d.claims.sessions && t != sid;
    assert forall t :: t in c.sessions ==> c.sessions[t] == d.claims.sessions[t];
  }

  // A missing owner, or a membership that was not read.
  ghost predicate HeldBack(d: Db, sid: SessionId, userId: UserId, membership: Option<BatchId>) {
    if membership.None? then sid in d.members else Unkept(d, sid, userId) && userId !in d.users
  }
}
