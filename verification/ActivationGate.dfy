// The gate a prewarmed container polls: it reads the session, its newest claim
// and the Deployment, one after the other, and changes none of them.
module ActivationGate {
  import opened Rows
  import opened Protocol
  import opened Transactions
  import opened PoolTransactions
  import opened Runs
  import opened Deployments

  datatype Reply = LetGo | Wait | Gone | Missing | Unavailable

  // PoolActivationID: a digest of session and reservation.
  type Identity = (SessionId, ConnId) -> string

  function Gate(validPath: bool, session: Option<Session>, member: bool, claim: Option<(ConnId, Connection)>, now: Time,
                authorized: Result<bool>, sid: SessionId, id: string, identity: Identity): Reply
  {
    if !validPath || session.None? || !member then Missing
    else if claim.None? || identity(sid, claim.value.0) != id then Gone
    else
      var r := claim.value.1;
      match r.status
      case Claimed => if r.confirmBy.None? || now >= r.confirmBy.value then Gone else Wait
      case Failed => Wait
      case Confirmed => AfterClaim(session.value, r, authorized)
      case Provisioning => AfterClaim(session.value, r, authorized)
      case Released => AfterClaim(session.value, r, authorized)
      case _ => Gone
  }

  function AfterClaim(session: Session, r: Connection, authorized: Result<bool>): Reply {
    if r.confirmedAt.None? || r.adminDid.None? || session.adminDid != r.adminDid then Wait
    else
      match authorized
      case Fail(_) => Unavailable
      case Ok(yes) => if yes then LetGo else Wait
  }

  // This activation's own claim is the newest.
  predicate Own(claim: Option<(ConnId, Connection)>, sid: SessionId, id: string, identity: Identity) {
    claim.Some? && identity(sid, claim.value.0) == id
  }

  // Nothing more can come of the claim.
  predicate Ended(r: Connection, now: Time) {
    || r.status in {Open, Rejected, Lapsed, Cancelled, ConnStatus.Expired, Pending, Accepted}
    || (r.status == Claimed && (r.confirmBy == None || now >= r.confirmBy.value))
  }

  // The VTA went to whoever claimed it.
  predicate HandedTo(r: Connection, s: Session) {
    && r.status in {Confirmed, ConnStatus.Provisioning, Released} && r.confirmedAt != None
    && r.adminDid != None && s.adminDid == r.adminDid
  }

  // Each answer: 404 for what is no member, 410 when the newest claim is another
  // one or has ended, and for a live claim 202 until it is handed over and the
  // Deployment authorized, then 200; 503 only if that cannot be read.
  lemma GateAnswers(validPath: bool, session: Option<Session>, member: bool, claim: Option<(ConnId, Connection)>, now: Time,
      authorized: Result<bool>, sid: SessionId, id: string, identity: Identity)
    ensures var reply := Gate(validPath, session, member, claim, now, authorized, sid, id, identity);
      if !validPath || session == None || !member then reply == Missing
      else if !Own(claim, sid, id, identity) || Ended(claim.value.1, now) then reply == Gone
      else if !HandedTo(claim.value.1, session.value) then reply == Wait
      else if authorized.Fail? then reply == Unavailable
      else reply == if authorized.value then LetGo else Wait
  {
  }

  // A claim that ended without a release is over for good: whatever the gate reads
  // later, it does not let go for it.
  lemma GoneIsFinal(states: seq<Db>, events: seq<Event>, j: nat, i: nat, j': nat, ds: seq<Manifest>, k: nat, sid: SessionId,
      a: ConnId, now: Time, identity: Identity)
    requires Run(states, events) && j <= j' < |states| && i < |states| && k < |ds|
    requires a in states[j].claims.conns && Final(states[j].claims.conns[a].status) && !states[j].claims.conns[a].status.Released?
    requires forall s, x, t, y :: identity(s, x) == identity(t, y) ==> s == t && x == y
    ensures !Releases(states, i, j', ds, k, sid, identity(sid, a), now, identity)
  {
    var current := CurrentOf(states[j'].claims, sid);
    if current.Some? && identity(sid, current.value) == identity(sid, a) {
      assert current.value == a;
      assert Of(states[j'].claims, a, sid);
      RunKeepsFinal(states, events, j, j', a);
    }
  }

  // The row the Current query returns.
  ghost function CurrentRow(c: Claims, sid: SessionId): Option<(ConnId, Connection)> {
    var o := CurrentOf(c, sid);
    if o.Some? then Some((o.value, c.conns[o.value])) else None
  }

  // The gate lets go at this instant: session read at states[i], claim at
  // states[j], Deployment at ds[k].
  ghost predicate Releases(states: seq<Db>, i: nat, j: nat, ds: seq<Manifest>, k: nat, sid: SessionId, id: string,
      now: Time, identity: Identity)
    requires i < |states| && j < |states| && k < |ds|
  {
    && sid in states[i].claims.sessions
    && Gate(true, Some(states[i].claims.sessions[sid]), true, CurrentRow(states[j].claims, sid), now,
            Ok(Authorized(ds[k]) == id), sid, id, identity) == LetGo
  }

  // A 200 means: the newest claim has this activation ID and was confirmed, its
  // DID is the session's administrator, then and ever after, and the Deployment
  // is authorized for this very ID, then and ever after.
  lemma ReleaseMeansConfirmed(states: seq<Db>, events: seq<Event>, i: nat, j: nat, l: nat, ds: seq<Manifest>,
      cs: seq<Change>, k: nat, n: nat,
                              sid: SessionId, id: string, now: Time, identity: Identity)
    requires Run(states, events) && i <= j <= l < |states|
    requires History(ds, cs) && k <= n < |ds| && id != ""
    requires Releases(states, i, j, ds, k, sid, id, now, identity)
    ensures var current := CurrentOf(states[j].claims, sid);
      && current.Some? && identity(sid, current.value) == id
      && states[j].claims.conns[current.value].confirmedAt.Some?
      && states[j].claims.conns[current.value].adminDid.Some?
      && states[j].claims.conns[current.value].adminDid == states[i].claims.sessions[sid].adminDid
      && (sid in states[l].claims.sessions ==> states[l].claims.sessions[sid].adminDid == states[j].claims.conns[current.value].adminDid)
    ensures Authorized(ds[k]) == id && Authorized(ds[n]) == id
  {
    var current := CurrentOf(states[j].claims, sid);
    assert current.Some?;
    if sid in states[l].claims.sessions {
      RunKeepsAdministrator(states, events, i, l, sid);
    }
    AuthorizationLasts(ds, cs, k, n);
  }

  // Whenever and however often the gate of a session lets go, it is for one
  // activation, and for one claim when identities are injective.
  lemma OneActivationPerSession(states: seq<Db>, events: seq<Event>, ds: seq<Manifest>, cs: seq<Change>,
      sid: SessionId, identity: Identity,
                                i: nat, j: nat, k: nat, id: string, now: Time, i': nat, j': nat, k': nat, id': string, now': Time)
    requires Run(states, events) && i <= j < |states| && i' <= j' < |states|
    requires History(ds, cs) && k < |ds| && k' < |ds| && id != "" && id' != ""
    requires Releases(states, i, j, ds, k, sid, id, now, identity) && Releases(states, i', j', ds, k', sid, id', now', identity)
    requires forall s, a, t, b :: identity(s, a) == identity(t, b) ==> s == t && a == b
    ensures id == id' && CurrentOf(states[j].claims, sid) == CurrentOf(states[j'].claims, sid)
  {
    ReleaseMeansConfirmed(states, events, i, j, j, ds, cs, k, k, sid, id, now, identity);
    ReleaseMeansConfirmed(states, events, i', j', j', ds, cs, k', k', sid, id', now', identity);
    if k <= k' {
      AuthorizationLasts(ds, cs, k, k');
    } else {
      AuthorizationLasts(ds, cs, k', k);
    }
  }

  // For a claim never confirmed, or cancelled since, the gate does not let go,
  // whatever the Deployment says.
  lemma UnconfirmedNeverReleases(states: seq<Db>, events: seq<Event>, i: nat, j: nat, ds: seq<Manifest>, k: nat,
                                 sid: SessionId, id: string, now: Time, identity: Identity)
    requires Run(states, events) && i <= j < |states| && k < |ds| && sid in states[i].claims.sessions
    requires var current := CurrentOf(states[j].claims, sid);
      current.Some? ==> var r := states[j].claims.conns[current.value]; r.confirmedAt.None? || r.status.Cancelled?
    ensures !Releases(states, i, j, ds, k, sid, id, now, identity)
  {
  }
}
