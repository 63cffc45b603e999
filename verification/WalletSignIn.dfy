// One wallet sign-in request: handlers that decide on a copy of the row read
// earlier and write only where the state is still what they expect.
module WalletSignIn {
  import opened Rows

  const CLAIM_WINDOW: Time := 120 * SECOND
  const DECISION_WINDOW: Time := 120 * SECOND
  const SESSION_LIMIT: Time := 86_400 * SECOND

  type BindingId = nat
  type WalletSessionId = nat

  datatype RequestState = Pending | Claimed | Identified | Approved | Declined | Cancelled | Expired | Consumed

  // The digest of the second response: what the wallet was shown.
  datatype Shown = Shown(starter: Did, identifiedAs: Did, decisionClosesAt: Time)

  datatype Record = Record(
    state: RequestState, starter: Did, approver: Option<Did>, matchNumber: Option<nat>, delivered: bool,
    identified: Option<Did>, step2: Option<Shown>, binding: Option<BindingId>, user: Option<UserId>,
    sessionEndsAt: Option<Time>, walletSession: Option<WalletSessionId>,
    claimClosesAt: Time, decisionClosesAt: Option<Time>)

  datatype Binding = Binding(loginDid: Did, userId: UserId, revoked: bool)

  datatype WalletSession = WalletSession(binding: BindingId, userId: UserId, expiresAt: Time, createdAt: Time, revoked: bool)

  // The carried identification: whether its envelope and proof hold, who signed
  // it, and the number entered.
  datatype Identification = Identification(valid: bool, issuer: Did, entered: nat)

  // The signed grant.
  datatype Grant = Grant(valid: bool, issuer: Did, sessionKey: Did, context: Shown, rest: bool, approve: bool, ends: Time)

  type Bindings = map<BindingId, Binding>

  // What happened to the request, in order, with what the wallet sent and when.
  datatype Entry =
    | ClaimedBy(approver: Did, number: nat, at: Time)
    | Proved(approver: Did, identify: Identification, at: Time)
    | Granted(approver: Did, grant: Grant, backing: BindingId, at: Time)
    | SessionCreated(id: WalletSessionId, at: Time)

  // The row, every value it ever had, the sessions created for it, the login
  // bindings and the log.
  datatype World = World(row: Record, past: seq<Record>, sessions: map<WalletSessionId, WalletSession>,
                         bindings: Bindings, log: seq<Entry>)

  function NewRequest(starter: Did, now: Time): Record {
    Record(RequestState.Pending, starter, None, None, false, None, None, None, None, None, None, now + CLAIM_WINDOW, None)
  }

  function Start(starter: Did, now: Time, bindings: Bindings): World {
    World(NewRequest(starter, now), [NewRequest(starter, now)], map[], bindings, [])
  }

  function Write(w: World, row: Record): World { w.(row := row, past := w.past + [row]) }

  predicate Over(state: RequestState) { state.Declined? || state.Cancelled? || state.Expired? || state.Consumed? }

  // ---- the steps ----

  // In one transaction, on the locked row; a request found expired here stays
  // pending, because the refusal rolls the expiry back.
  function ClaimStep(w: World, issuer: Did, number: nat, now: Time): World {
    if !w.row.state.Pending? || now >= w.row.claimClosesAt then w
    else Write(w, w.row.(state := RequestState.Claimed, approver := Some(issuer), matchNumber := Some(number),
                         decisionClosesAt := Some(now + DECISION_WINDOW))).(log := w.log + [ClaimedBy(issuer, number, now)])
  }

  function DeclineStep(w: World, from: RequestState): World {
    if w.row.state == from then Write(w, w.row.(state := Declined)) else w
  }

  predicate Owns(bindings: Bindings, b: BindingId, did: Did) { b in bindings && bindings[b].loginDid == did }

  function ActiveOf(found: Bindings, did: Did): set<BindingId> {
    set b | b in found && found[b].loginDid == did && !found[b].revoked
  }

  ghost function Only(s: set<BindingId>): (b: BindingId)
    requires |s| == 1
    ensures b in s
  {
    var b :| b in s; b
  }

  lemma OnlyIs(s: set<BindingId>, b: BindingId)
    requires |s| == 1 && b in s
    ensures b == Only(s)
  {
    assert |s - {b}| == 0;
    assert s - {b} == {};
  }

  // An active binding of the DID; the request's own, once it has one.
  predicate Backs(found: Bindings, copy: Record, did: Did, b: BindingId) {
    && b in ActiveOf(found, did)
    && (copy.binding.Some? && copy.user.Some? ==> b == copy.binding.value && found[b].userId == copy.user.value)
  }

  ghost function Backer(found: Bindings, copy: Record, did: Did): (b: BindingId)
    requires exists b :: Backs(found, copy, did, b)
    ensures Backs(found, copy, did, b)
  {
    var b :| Backs(found, copy, did, b); b
  }

  // `copy` was read earlier; the bindings are as they were found.
  ghost function ProveStep(w: World, copy: Record, issuer: Did, identify: Identification, found: Bindings,
      now: Time): World {
    var active := ActiveOf(found, identify.issuer);
    if copy.approver != Some(issuer) || !copy.state.Claimed? || copy.decisionClosesAt.None? || now >= copy.decisionClosesAt.value then w
    else if !identify.valid || active == {} then DeclineStep(w, RequestState.Claimed)
    else if copy.matchNumber != Some(identify.entered) then DeclineStep(w, RequestState.Claimed)
    else if !w.row.state.Claimed? || w.row.approver != Some(issuer) then w
    else
      var shown := Shown(copy.starter, identify.issuer, copy.decisionClosesAt.value);
      var row := w.row.(state := Identified, identified := Some(identify.issuer), step2 := Some(shown));
      var known := if |active| == 1 then row.(binding := Some(Only(active)), user := Some(found[Only(active)].userId)) else row;
      Write(w, known).(log := w.log + [Proved(issuer, identify, now)])
  }

  ghost function RespondStep(w: World, copy: Record, issuer: Did, grant: Grant, found: Bindings, now: Time): World {
    if copy.approver != Some(issuer) || copy.identified != Some(grant.issuer) || !copy.state.Identified?
       || copy.decisionClosesAt.None? || now >= copy.decisionClosesAt.value then w
    else if !grant.valid || !grant.rest || grant.sessionKey != copy.starter || copy.step2 != Some(grant.context) || grant.ends <= now
    then DeclineStep(w, Identified)
    else if !grant.approve then DeclineStep(w, Identified)
    else if !exists b :: Backs(found, copy, grant.issuer, b) then DeclineStep(w, Identified)
    else if !w.row.state.Identified? then w
    else Write(w, w.row.(state := Approved, sessionEndsAt := Some(grant.ends)))
           .(log := w.log + [Granted(issuer, grant, Backer(found, copy, grant.issuer), now)])
  }

  // The starter picks one of the accounts of the identified DID.
  function SelectStep(w: World, copy: Record, b: BindingId): World {
    if copy.identified.None? || (!copy.state.Identified? && !copy.state.Approved?) then w
    else if b !in w.bindings || w.bindings[b].revoked || w.bindings[b].loginDid != copy.identified.value then w
    else if !w.row.state.Identified? && !w.row.state.Approved? then w
    else Write(w, w.row.(binding := Some(b), user := Some(w.bindings[b].userId)))
  }

  function ExpireStep(w: World, copy: Record, now: Time): World {
    var due := (copy.state.Pending? && now >= copy.claimClosesAt)
      || ((copy.state.Claimed? || copy.state.Identified?) && (copy.decisionClosesAt.None? || now >= copy.decisionClosesAt.value));
    if due && (w.row.state.Pending? || w.row.state.Claimed? || w.row.state.Identified?) then Write(w, w.row.(state := RequestState.Expired)) else w
  }

  function DeliverStep(w: World): World { Write(w, w.row.(delivered := true)) }

  function Earlier(a: Time, b: Time): Time { if a <= b then a else b }

  // The end of the session is the grant's, at most a day away.
  function RedeemStep(w: World, copy: Record, id: WalletSessionId, now: Time): World {
    if copy.binding.None? || copy.user.None? || copy.identified.None? || copy.sessionEndsAt.None? then w
    else
      var b := copy.binding.value;
      if b !in w.bindings || w.bindings[b].userId != copy.user.value || w.bindings[b].loginDid != copy.identified.value || w.bindings[b].revoked then w
      else
        var ends := Earlier(copy.sessionEndsAt.value, now + SESSION_LIMIT);
        if ends <= now || !w.row.state.Approved? then w
        else Write(w, w.row.(state := Consumed, walletSession := Some(id)))
               .(sessions := w.sessions[id := WalletSession(b, w.bindings[b].userId, ends, now, false)], log := w.log + [SessionCreated(id, now)])
  }

  // The token a redeem hands out: for the session created now, or for the one
  // created before; but for the user of the copy's account either way.
  function TokenFor(w: World, copy: Record, id: WalletSessionId, now: Time): Option<(WalletSessionId, UserId)> {
    if copy.binding.None? || copy.user.None? || copy.identified.None? || copy.sessionEndsAt.None? then None
    else
      var b := copy.binding.value;
      if b !in w.bindings || w.bindings[b].userId != copy.user.value || w.bindings[b].loginDid != copy.identified.value || w.bindings[b].revoked then None
      else if Earlier(copy.sessionEndsAt.value, now + SESSION_LIMIT) <= now then None
      else if w.row.state.Approved? then Some((id, w.bindings[b].userId))
      else if w.row.state.Consumed? && w.row.walletSession.Some? && w.row.walletSession.value in w.sessions
              && !w.sessions[w.row.walletSession.value].revoked && w.sessions[w.row.walletSession.value].expiresAt > now
      then Some((w.row.walletSession.value, w.bindings[b].userId))
      else None
  }

  // What the middleware looks up for a token.
  predicate Honoured(w: World, token: (WalletSessionId, UserId), now: Time) {
    && token.0 in w.sessions && w.sessions[token.0].userId == token.1 && !w.sessions[token.0].revoked
    && w.sessions[token.0].binding in w.bindings && !w.bindings[w.sessions[token.0].binding].revoked
    && w.sessions[token.0].expiresAt > now
  }

  function CancelStep(w: World, copy: Record, issuer: Did): World {
    if copy.starter != issuer && copy.approver != Some(issuer) then w
    else if copy.state.Cancelled? || Over(w.row.state) then w
    else Write(w, w.row.(state := RequestState.Cancelled))
  }

  datatype Event =
    | Claim(issuer: Did, number: nat, now: Time)
    | Prove(read: nat, issuer: Did, identify: Identification, found: Bindings, now: Time)
    | Respond(read: nat, issuer: Did, grant: Grant, found: Bindings, now: Time)
    | Select(read: nat, b: BindingId)
    | Expire(read: nat, now: Time)
    | Deliver
    | Redeem(read: nat, binding: Option<BindingId>, user: Option<UserId>, id: WalletSessionId, now: Time)
    | Cancel(read: nat, issuer: Did)
    | Bind(b: BindingId, account: Binding)
    | RevokeSession(id: WalletSessionId)

  // Bindings as somebody may have found them before: each is still whose it was.
  predicate FoundBefore(w: World, found: Bindings) {
    forall b :: b in found ==> b in w.bindings && SameOwner(found[b], w.bindings[b])
  }

  // A copy is any value the row has had; a redeeming copy may carry the account
  // its own request has just selected. Bindings may come and be revoked, but
  // never change whose they are.
  predicate Possible(w: World, e: Event) {
    match e
    case Prove(read, _, _, found, _) => read < |w.past| && FoundBefore(w, found)
    case Respond(read, _, _, found, _) => read < |w.past| && FoundBefore(w, found)
    case Select(read, _) => read < |w.past|
    case Expire(read, _) => read < |w.past|
    case Redeem(read, _, _, id, _) => read < |w.past| && id !in w.sessions
    case Cancel(read, _) => read < |w.past|
    case Bind(b, account) => b in w.bindings ==> SameOwner(w.bindings[b], account)
    case RevokeSession(id) => id in w.sessions
    case _ => true
  }

  ghost function Next(w: World, e: Event): World
    requires Possible(w, e)
  {
    match e
    case Claim(issuer, number, now) => ClaimStep(w, issuer, number, now)
    case Prove(read, issuer, identify, found, now) => ProveStep(w, w.past[read], issuer, identify, found, now)
    case Respond(read, issuer, grant, found, now) => RespondStep(w, w.past[read], issuer, grant, found, now)
    case Select(read, b) => SelectStep(w, w.past[read], b)
    case Expire(read, now) => ExpireStep(w, w.past[read], now)
    case Deliver => DeliverStep(w)
    case Redeem(read, binding, user, id, now) => RedeemStep(w, w.past[read].(binding := binding, user := user), id, now)
    case Cancel(read, issuer) => CancelStep(w, w.past[read], issuer)
    case Bind(b, account) => w.(bindings := w.bindings[b := account])
    case RevokeSession(id) => w.(sessions := w.sessions[id := w.sessions[id].(revoked := true)])
  }

  // ---- written once ----

  // r' is r or a later value of the same row.
  predicate Follows(r: Record, r': Record) {
    && r'.starter == r.starter && r'.claimClosesAt == r.claimClosesAt
    && (r.approver.Some? ==> r'.approver == r.approver && r'.matchNumber == r.matchNumber && r'.decisionClosesAt == r.decisionClosesAt)
    && (r.identified.Some? ==> r'.identified == r.identified && r'.step2 == r.step2)
    && (r.sessionEndsAt.Some? ==> r'.sessionEndsAt == r.sessionEndsAt)
    && (r.walletSession.Some? ==> r'.walletSession == r.walletSession)
    && (Over(r.state) ==> r'.state == r.state && r'.binding == r.binding && r'.user == r.user)
  }

  // Which fields a row in each state has.
  predicate RowOk(r: Record) {
    && (r.approver.Some? <==> r.matchNumber.Some?) && (r.approver.Some? <==> r.decisionClosesAt.Some?)
    && (r.identified.Some? <==> r.step2.Some?)
    && (r.identified.Some? ==> r.approver.Some?) && (r.sessionEndsAt.Some? ==> r.identified.Some?)
    && (r.walletSession.Some? <==> r.state.Consumed?)
    && (r.state.Pending? ==> r.approver.None?)
    && (r.state.Claimed? ==> r.approver.Some? && r.identified.None?)
    && (r.state.Identified? ==> r.identified.Some? && r.sessionEndsAt.None?)
    && (r.state.Approved? || r.state.Consumed? ==> r.sessionEndsAt.Some?)
    && (r.step2.Some? ==> r.step2 == Some(Shown(r.starter, r.identified.value, r.decisionClosesAt.value)))
  }

  function Stages(r: Record): nat {
    if r.walletSession.Some? then 4
    else if r.sessionEndsAt.Some? then 3
    else if r.identified.Some? then 2
    else if r.approver.Some? then 1
    else 0
  }

  predicate ClaimFits(r: Record, e: Entry) {
    && e.ClaimedBy? && r.approver == Some(e.approver) && r.matchNumber == Some(e.number)
    && e.at < r.claimClosesAt && r.decisionClosesAt == Some(e.at + DECISION_WINDOW)
  }

  predicate InTime(r: Record, at: Time) { r.decisionClosesAt.Some? && at < r.decisionClosesAt.value }

  predicate ProofFits(r: Record, e: Entry) {
    && e.Proved? && r.approver == Some(e.approver) && InTime(r, e.at)
    && e.identify.valid && r.identified == Some(e.identify.issuer) && r.matchNumber == Some(e.identify.entered)
  }

  predicate GrantFits(r: Record, e: Entry) {
    && e.Granted? && r.approver == Some(e.approver) && InTime(r, e.at)
    && e.grant.valid && e.grant.rest && e.grant.approve && e.grant.sessionKey == r.starter
    && r.identified == Some(e.grant.issuer) && r.step2 == Some(e.grant.context)
    && r.sessionEndsAt == Some(e.grant.ends) && e.at < e.grant.ends
  }

  // The log is what the row says happened, in this order and nothing else.
  predicate IsTrail(log: seq<Entry>, r: Record) {
    && |log| == Stages(r)
    && (|log| > 0 ==> ClaimFits(r, log[0]))
    && (|log| > 1 ==> ProofFits(r, log[1]))
    && (|log| > 2 ==> GrantFits(r, log[2]))
    && (|log| > 3 ==> log[3].SessionCreated? && r.walletSession == Some(log[3].id))
  }

  predicate SessionOk(w: World, s: WalletSession) {
    && s.binding in w.bindings && w.bindings[s.binding].userId == s.userId
    && w.row.identified == Some(w.bindings[s.binding].loginDid)
    && w.row.sessionEndsAt.Some? && s.createdAt < s.expiresAt <= w.row.sessionEndsAt.value && s.expiresAt <= s.createdAt + SESSION_LIMIT
  }

  // The account of the request is one of the DID it identified.
  predicate AccountFits(w: World) {
    w.row.binding.Some? ==>
      && w.row.user.Some? && w.row.identified.Some? && Owns(w.bindings, w.row.binding.value, w.row.identified.value)
      && w.bindings[w.row.binding.value].userId == w.row.user.value
  }

  // So is the one that backed the grant.
  predicate BackingFits(w: World) {
    |w.log| > 2 ==> w.log[2].Granted? && w.row.identified.Some? && Owns(w.bindings, w.log[2].backing, w.row.identified.value)
  }

  predicate PastOk(w: World, i: nat)
    requires i < |w.past|
  {
    Follows(w.past[i], w.row) && RowOk(w.past[i])
  }

  ghost predicate Inv(w: World) {
    && RowOk(w.row) && IsTrail(w.log, w.row) && AccountFits(w) && BackingFits(w)
    && (forall i :: 0 <= i < |w.past| ==> PastOk(w, i))
    && (forall id :: id in w.sessions <==> w.row.walletSession == Some(id))
    && (forall id :: id in w.sessions ==> SessionOk(w, w.sessions[id]))
  }

  lemma StartInv(starter: Did, now: Time, bindings: Bindings)
    ensures Inv(Start(starter, now, bindings))
  {
    var w := Start(starter, now, bindings);
    assert w.past[0] == w.row;
  }

  lemma FollowsTransitive(a: Record, b: Record, c: Record)
    requires Follows(a, b) && Follows(b, c)
    ensures Follows(a, c)
  {
  }

  // ---- every step keeps the invariant ----

  // A step writes nothing, or one later value of the row.
  ghost predicate Wrote(w: World, w': World) {
    && Follows(w.row, w'.row) && RowOk(w'.row) && IsTrail(w'.log, w'.row) && AccountFits(w') && BackingFits(w')
    && (w'.past == w.past + [w'.row] || (w'.past == w.past && w'.row == w.row))
    && (forall b :: b in w.bindings ==> b in w'.bindings && SameOwner(w.bindings[b], w'.bindings[b]))
    && (forall id :: id in w.sessions ==> id in w'.sessions && SameSession(w.sessions[id], w'.sessions[id]))
    && (forall id :: id in w'.sessions && id !in w.sessions ==> w'.row.walletSession == Some(id) && SessionOk(w', w'.sessions[id]))
    && (w'.row.walletSession != w.row.walletSession ==> w'.row.walletSession.Some? && w'.row.walletSession.value in w'.sessions)
  }

  predicate SameOwner(b: Binding, b': Binding) { b'.loginDid == b.loginDid && b'.userId == b.userId }

  predicate SameSession(s: WalletSession, s': WalletSession) { s'.(revoked := s.revoked) == s }

  lemma WroteKeeps(w: World, w': World)
    requires Inv(w) && Wrote(w, w')
    ensures Inv(w')
  {
    forall i | 0 <= i < |w'.past|
      ensures PastOk(w', i)
    {
      if i < |w.past| {
        assert PastOk(w, i) && w'.past[i] == w.past[i];
        FollowsTransitive(w.past[i], w.row, w'.row);
      }
    }
    forall id | id in w'.sessions
      ensures w'.row.walletSession == Some(id) && SessionOk(w', w'.sessions[id])
    {
      if id in w.sessions {
        assert SessionOk(w, w.sessions[id]);
      }
    }
  }

  lemma ClaimWrites(w: World, issuer: Did, number: nat, now: Time)
    requires Inv(w)
    ensures Wrote(w, ClaimStep(w, issuer, number, now))
  {
  }

  lemma DeclineWrites(w: World, from: RequestState)
    requires Inv(w) && (from.Claimed? || from.Identified?)
    ensures Wrote(w, DeclineStep(w, from))
  {
  }

  lemma ProveWrites(w: World, read: nat, issuer: Did, identify: Identification, found: Bindings, now: Time)
    requires Inv(w) && read < |w.past| && FoundBefore(w, found)
    ensures Wrote(w, ProveStep(w, w.past[read], issuer, identify, found, now))
  {
    assert PastOk(w, read);
    DeclineWrites(w, RequestState.Claimed);
  }

  lemma RespondWrites(w: World, read: nat, issuer: Did, grant: Grant, found: Bindings, now: Time)
    requires Inv(w) && read < |w.past| && FoundBefore(w, found)
    ensures Wrote(w, RespondStep(w, w.past[read], issuer, grant, found, now))
  {
    assert PastOk(w, read);
    DeclineWrites(w, Identified);
  }

  lemma RedeemWrites(w: World, read: nat, binding: Option<BindingId>, user: Option<UserId>, id: WalletSessionId, now: Time)
    requires Inv(w) && read < |w.past| && id !in w.sessions
    ensures Wrote(w, RedeemStep(w, w.past[read].(binding := binding, user := user), id, now))
  {
    assert PastOk(w, read);
  }

  lemma SelectWrites(w: World, read: nat, b: BindingId)
    requires Inv(w) && read < |w.past|
    ensures Wrote(w, SelectStep(w, w.past[read], b))
  {
    assert PastOk(w, read);
  }

  lemma ExpireWrites(w: World, copy: Record, now: Time)
    requires Inv(w)
    ensures Wrote(w, ExpireStep(w, copy, now))
  {
  }

  lemma CancelWrites(w: World, copy: Record, issuer: Did)
    requires Inv(w)
    ensures Wrote(w, CancelStep(w, copy, issuer))
  {
  }

  lemma OthersWrite(w: World, e: Event)
    requires Inv(w) && Possible(w, e) && (e.Deliver? || e.Bind? || e.RevokeSession?)
    ensures Wrote(w, Next(w, e))
  {
  }

  lemma NextWrites(w: World, e: Event)
    requires Inv(w) && Possible(w, e)
    ensures Wrote(w, Next(w, e))
  {
    match e
    case Claim(issuer, number, now) => ClaimWrites(w, issuer, number, now);
    case Prove(read, issuer, identify, found, now) => ProveWrites(w, read, issuer, identify, found, now);
    case Respond(read, issuer, grant, found, now) => RespondWrites(w, read, issuer, grant, found, now);
    case Redeem(read, binding, user, id, now) => RedeemWrites(w, read, binding, user, id, now);
    case Select(read, b) => SelectWrites(w, read, b);
    case Expire(read, now) => ExpireWrites(w, w.past[read], now);
    case Cancel(read, issuer) => CancelWrites(w, w.past[read], issuer);
    case Deliver => OthersWrite(w, e);
    case Bind(_, _) => OthersWrite(w, e);
    case RevokeSession(_) => OthersWrite(w, e);
  }

  // ---- when each step takes effect, and what it leaves ----

  // One more value of the row, and nothing else.
  predicate Rewrites(w: World, w': World, row: Record) { w' == w.(row := row, past := w.past + [row], log := w'.log) }

  predicate Silent(w: World, w': World, row: Record) { Rewrites(w, w', row) && w'.log == w.log }

  // By the approver, before the decision closes.
  predicate OnTime(copy: Record, issuer: Did, now: Time) {
    copy.approver == Some(issuer) && copy.decisionClosesAt.Some? && now < copy.decisionClosesAt.value
  }

  predicate ActiveAccount(found: Bindings, did: Did, b: BindingId) { b in found && found[b].loginDid == did && !found[b].revoked }

  ghost predicate OnlyAccount(found: Bindings, did: Did, b: BindingId) {
    ActiveAccount(found, did, b) && forall c :: ActiveAccount(found, did, c) ==> c == b
  }

  // Why a proof is bad: its envelope, no active account of the DID, or the number.
  ghost predicate BadProof(copy: Record, identify: Identification, found: Bindings) {
    !identify.valid || (forall b :: !ActiveAccount(found, identify.issuer, b)) || copy.matchNumber != Some(identify.entered)
  }

  lemma ActiveOfIs(found: Bindings, did: Did, b: BindingId)
    ensures b in ActiveOf(found, did) <==> ActiveAccount(found, did, b)
    ensures |ActiveOf(found, did)| == 1 && ActiveAccount(found, did, b) ==> b == Only(ActiveOf(found, did)) && OnlyAccount(found, did, b)
    ensures OnlyAccount(found, did, b) ==> |ActiveOf(found, did)| == 1
  {
    var active := ActiveOf(found, did);
    if |active| == 1 && b in active {
      OnlyIs(active, b);
      forall c | ActiveAccount(found, did, c)
        ensures c == b
      {
        OnlyIs(active, c);
      }
    }
    if OnlyAccount(found, did, b) {
      assert forall c :: c in active ==> ActiveAccount(found, did, c);
      assert active == {b};
    }
  }

  // What a good proof writes: whom it identified, what the wallet was shown, and
  // the account if the DID has one only.
  ghost predicate IdentifiedAs(r: Record, r': Record, copy: Record, did: Did, found: Bindings) {
    && copy.decisionClosesAt.Some?
    && r' == r.(state := Identified, identified := Some(did), step2 := Some(Shown(copy.starter, did, copy.decisionClosesAt.value)),
         binding := r'.binding, user := r'.user)
    && if exists b :: OnlyAccount(found, did, b)
       then exists b :: OnlyAccount(found, did, b) && r'.binding == Some(b) && r'.user == Some(found[b].userId)
       else r'.binding == r.binding && r'.user == r.user
  }

  // A proof on time declines a request still claimed if it is bad, a wrong number
  // included, and identifies one that is the approver's if it is good. Nothing else
  // has any effect.
  lemma ProveDecides(w: World, copy: Record, issuer: Did, identify: Identification, found: Bindings, now: Time)
    ensures var w' := ProveStep(w, copy, issuer, identify, found, now);
      if !OnTime(copy, issuer, now) || copy.state != RequestState.Claimed || w.row.state != RequestState.Claimed then w' == w
      else if BadProof(copy, identify, found) then Silent(w, w', w.row.(state := Declined))
      else if w.row.approver != Some(issuer) then w' == w
      else
        && Rewrites(w, w', w'.row) && IdentifiedAs(w.row, w'.row, copy, identify.issuer, found)
        && w'.log == w.log + [Proved(issuer, identify, now)]
  {
    var active := ActiveOf(found, identify.issuer);
    forall b
      ensures b in active <==> ActiveAccount(found, identify.issuer, b)
    {
    }
    if |active| == 1 {
      ActiveOfIs(found, identify.issuer, Only(active));
      assert OnlyAccount(found, identify.issuer, Only(active));
    }
    if b :| OnlyAccount(found, identify.issuer, b) {
      ActiveOfIs(found, identify.issuer, b);
    }
  }

  // Why a grant is no approval: its envelope, another key, another context, its
  // end, the answer itself, or no account behind it.
  ghost predicate BadGrant(copy: Record, grant: Grant, found: Bindings, now: Time) {
    || !grant.valid || !grant.rest || grant.sessionKey != copy.starter || copy.step2 != Some(grant.context) || grant.ends <= now
    || !grant.approve || forall b :: !(ActiveAccount(found, grant.issuer, b) && Chosen(copy, found, b))
  }

  // The request's own account, once it has one.
  predicate Chosen(copy: Record, found: Bindings, b: BindingId) {
    b in found && (copy.binding.Some? && copy.user.Some? ==> copy.binding == Some(b) && copy.user == Some(found[b].userId))
  }

  // A grant good in everything, whose answer is no.
  predicate Refuses(copy: Record, grant: Grant, now: Time) {
    && grant.valid && grant.rest && grant.sessionKey == copy.starter && copy.step2 == Some(grant.context) && grant.ends > now
    && !grant.approve
  }

  // A grant on time by the DID identified declines a request still identified if it
  // is no approval, and approves it until the grant's end if it is one.
  lemma RespondDecides(w: World, copy: Record, issuer: Did, grant: Grant, found: Bindings, now: Time)
    ensures var w' := RespondStep(w, copy, issuer, grant, found, now);
      if !OnTime(copy, issuer, now) || copy.identified != Some(grant.issuer) || copy.state != Identified || w.row.state != Identified then w' == w
      else if BadGrant(copy, grant, found, now) then Silent(w, w', w.row.(state := Declined))
      else
        && Rewrites(w, w', w.row.(state := Approved, sessionEndsAt := Some(grant.ends)))
        && exists b :: ActiveAccount(found, grant.issuer, b) && Chosen(copy, found, b) && w'.log == w.log + [Granted(issuer, grant, b, now)]
  {
    forall b
      ensures Backs(found, copy, grant.issuer, b) <==> ActiveAccount(found, grant.issuer, b) && Chosen(copy, found, b)
    {
    }
  }

  // A request is claimed while it is pending and its two minutes last.
  lemma ClaimDecides(w: World, issuer: Did, number: nat, now: Time)
    ensures var w' := ClaimStep(w, issuer, number, now);
      if w.row.state == RequestState.Pending && now < w.row.claimClosesAt
      then
        && Rewrites(w, w', w.row.(state := RequestState.Claimed, approver := Some(issuer), matchNumber := Some(number),
             decisionClosesAt := Some(now + 120_000_000_000)))
        && w'.log == w.log + [ClaimedBy(issuer, number, now)]
      else w' == w
  {
  }

  lemma RequestIsPending(starter: Did, now: Time, bindings: Bindings)
    ensures var w := Start(starter, now, bindings);
      && w.row == Record(RequestState.Pending, starter, None, None, false, None, None, None, None, None, None, now + 120_000_000_000, None)
      && w.past == [w.row] && w.sessions == map[] && w.bindings == bindings && w.log == []
  {
  }

  // An account goes in if and only if it is an active one of the identified DID, and
  // copy and row are both still open to a choice.
  lemma SelectDecides(w: World, copy: Record, b: BindingId)
    ensures var w' := SelectStep(w, copy, b);
      if copy.state in {Identified, Approved} && w.row.state in {Identified, Approved}
         && copy.identified.Some? && ActiveAccount(w.bindings, copy.identified.value, b)
      then Silent(w, w', w.row.(binding := Some(b), user := Some(w.bindings[b].userId)))
      else w' == w
  {
  }

  // The copy is past the deadline of its state.
  predicate PastDeadline(copy: Record, now: Time) {
    || (copy.state == RequestState.Pending && now >= copy.claimClosesAt)
    || (copy.state in {RequestState.Claimed, Identified} && (copy.decisionClosesAt == None || now >= copy.decisionClosesAt.value))
  }

  lemma ExpireDecides(w: World, copy: Record, now: Time)
    ensures var w' := ExpireStep(w, copy, now);
      if PastDeadline(copy, now) && w.row.state in {RequestState.Pending, RequestState.Claimed, Identified}
      then Silent(w, w', w.row.(state := RequestState.Expired)) else w' == w
  {
  }

  // The copy's account is an active one of its identified DID, and its session
  // would not be over yet.
  predicate Redeemable(w: World, copy: Record, now: Time) {
    && copy.binding.Some? && copy.identified.Some? && ActiveAccount(w.bindings, copy.identified.value, copy.binding.value)
    && copy.user == Some(w.bindings[copy.binding.value].userId) && copy.sessionEndsAt.Some? && now < copy.sessionEndsAt.value
  }

  // A redeem creates the session if and only if the row is still approved and the
  // copy redeemable: until the grant's end, but not for more than a day.
  lemma RedeemDecides(w: World, copy: Record, id: WalletSessionId, now: Time)
    ensures var w' := RedeemStep(w, copy, id, now);
      if Redeemable(w, copy, now) && w.row.state == Approved
      then
        && w'.row == w.row.(state := Consumed, walletSession := Some(id)) && w'.past == w.past + [w'.row]
        && w'.bindings == w.bindings && w'.log == w.log + [SessionCreated(id, now)]
        && id in w'.sessions && w'.sessions == w.sessions[id := w'.sessions[id]]
        && var s := w'.sessions[id];
        && s.binding == copy.binding.value && s.userId == copy.user.value && s.createdAt == now && !s.revoked
        && s.expiresAt <= copy.sessionEndsAt.value && s.expiresAt <= now + 86_400_000_000_000
        && s.expiresAt in {copy.sessionEndsAt.value, now + 86_400_000_000_000}
      else w' == w
  {
  }

  // And whatever it does, it hands out a token if and only if there is then a
  // session of this request that lasts.
  lemma TokenIff(w: World, copy: Record, id: WalletSessionId, now: Time)
    ensures TokenFor(w, copy, id, now) ==
      if !Redeemable(w, copy, now) then None
      else if w.row.state == Approved then Some((id, copy.user.value))
      else if w.row.state == Consumed && w.row.walletSession.Some? && Lasts(w, w.row.walletSession.value, now)
      then Some((w.row.walletSession.value, copy.user.value)) else None
  {
  }

  predicate Lasts(w: World, id: WalletSessionId, now: Time) { id in w.sessions && !w.sessions[id].revoked && now < w.sessions[id].expiresAt }

  // Starter and approver cancel whatever is not over.
  lemma CancelDecides(w: World, copy: Record, issuer: Did)
    ensures var w' := CancelStep(w, copy, issuer);
      if (copy.starter == issuer || copy.approver == Some(issuer)) && copy.state != RequestState.Cancelled
         && w.row.state in {RequestState.Pending, RequestState.Claimed, Identified, Approved}
      then Silent(w, w', w.row.(state := RequestState.Cancelled)) else w' == w
  {
  }

  // ---- whole runs ----

  ghost predicate StepAt(ws: seq<World>, events: seq<Event>, k: nat)
    requires k < |events| < |ws|
  {
    Possible(ws[k], events[k]) && ws[k + 1] == Next(ws[k], events[k])
  }

  ghost predicate Run(ws: seq<World>, events: seq<Event>) {
    && |ws| == |events| + 1 && (exists starter, now, bindings :: ws[0] == Start(starter, now, bindings))
    && forall k :: 0 <= k < |events| ==> StepAt(ws, events, k)
  }

  lemma {:induction false} RunKeeps(ws: seq<World>, events: seq<Event>, i: nat)
    requires Run(ws, events) && i < |ws|
    ensures Inv(ws[i])
  {
    if i == 0 {
      var starter, now, bindings :| ws[0] == Start(starter, now, bindings);
      StartInv(starter, now, bindings);
    } else {
      RunKeeps(ws, events, i - 1);
      assert StepAt(ws, events, i - 1);
      NextWrites(ws[i - 1], events[i - 1]);
      WroteKeeps(ws[i - 1], ws[i]);
    }
  }

  lemma {:induction false} RunFollows(ws: seq<World>, events: seq<Event>, i: nat, j: nat)
    requires Run(ws, events) && i <= j < |ws|
    ensures Follows(ws[i].row, ws[j].row)
  {
    if i < j {
      RunFollows(ws, events, i, j - 1);
      RunKeeps(ws, events, j - 1);
      assert StepAt(ws, events, j - 1);
      NextWrites(ws[j - 1], events[j - 1]);
      FollowsTransitive(ws[i].row, ws[j - 1].row, ws[j].row);
    }
  }

  // Declined, cancelled, expired and consumed are left by no step.
  lemma OverIsFinal(ws: seq<World>, events: seq<Event>, i: nat, j: nat)
    requires Run(ws, events) && i <= j < |ws| && Over(ws[i].row.state)
    ensures ws[j].row.state == ws[i].row.state
  {
    RunFollows(ws, events, i, j);
  }

  // The approver's proof, on time but with another number than the copy's, meets a
  // request still claimed.
  ghost predicate WrongNumber(w: World, e: Event) {
    && e.Prove? && e.read < |w.past| && w.row.state == RequestState.Claimed
    && var copy := w.past[e.read];
    && OnTime(copy, e.issuer, e.now) && copy.state == RequestState.Claimed && copy.matchNumber != Some(e.identify.entered)
  }

  // One wrong number ends the request: over every run there is at most one, the
  // request stays declined, and no session is ever created for it.
  lemma OneWrongNumber(ws: seq<World>, events: seq<Event>, i: nat, j: nat)
    requires Run(ws, events) && i < j < |ws| && i < |events| && WrongNumber(ws[i], events[i])
    ensures ws[j].row.state == Declined && ws[j].sessions == map[]
    ensures j < |events| ==> !WrongNumber(ws[j], events[j])
  {
    assert StepAt(ws, events, i);
    var e := events[i];
    ProveDecides(ws[i], ws[i].past[e.read], e.issuer, e.identify, e.found, e.now);
    OverIsFinal(ws, events, i + 1, j);
    RunKeeps(ws, events, j);
  }

  // At most one wallet session is ever created for the request.
  lemma OneSession(ws: seq<World>, events: seq<Event>, i: nat, j: nat, a: WalletSessionId, b: WalletSessionId)
    requires Run(ws, events) && i < |ws| && j < |ws| && a in ws[i].sessions && b in ws[j].sessions
    ensures a == b
  {
    RunKeeps(ws, events, i);
    RunKeeps(ws, events, j);
    if i <= j {
      RunFollows(ws, events, i, j);
    } else {
      RunFollows(ws, events, j, i);
    }
  }

  // At every moment the account a request has taken, by its proof or by the
  // starter's choice, belongs to the DID it identified.
  lemma AccountIsOwn(ws: seq<World>, events: seq<Event>, i: nat)
    requires Run(ws, events) && i < |ws| && ws[i].row.binding.Some?
    ensures var w := ws[i];
      && w.row.identified.Some? && Owns(w.bindings, w.row.binding.value, w.row.identified.value)
      && w.row.user == Some(w.bindings[w.row.binding.value].userId)
  {
    RunKeeps(ws, events, i);
  }

  // And it came about in order and in time: the request was claimed before it
  // closed; before the decision closed, the same wallet proved a DID with the
  // number that claim drew, and that DID signed an approval of the very context
  // it was shown, backed by an account of that DID; only then was the session
  // created. Its account belongs to the identified DID, and it ends neither after
  // the grant nor after a day.
  lemma SessionIsEarned(ws: seq<World>, events: seq<Event>, i: nat, id: WalletSessionId)
    requires Run(ws, events) && i < |ws| && id in ws[i].sessions
    ensures var w := ws[i]; var r, s := w.row, w.sessions[id];
      && r.state.Consumed? && |w.log| == 4
      && ClaimFits(r, w.log[0]) && ProofFits(r, w.log[1]) && GrantFits(r, w.log[2])
      && r.step2 == Some(Shown(r.starter, r.identified.value, r.decisionClosesAt.value))
      && Owns(w.bindings, w.log[2].backing, r.identified.value)
      && w.log[3].SessionCreated? && w.log[3].id == id
      && s.binding in w.bindings && r.identified == Some(w.bindings[s.binding].loginDid) && w.bindings[s.binding].userId == s.userId
      && s.createdAt < s.expiresAt <= r.sessionEndsAt.value && s.expiresAt <= s.createdAt + SESSION_LIMIT
  {
    RunKeeps(ws, events, i);
    assert SessionOk(ws[i], ws[i].sessions[id]);
  }

  // ---- whose account a token is for ----

  predicate SameUser(bindings: Bindings, a: BindingId, b: BindingId)
    requires a in bindings && b in bindings
  {
    bindings[a].userId == bindings[b].userId
  }

  // A token is for the account of its session if and only if the copy's binding
  // has the same user as the session's, and unless that binding was revoked the
  // middleware honours exactly such a token. For the redeem that creates the
  // session they are one binding.
  lemma TokenIsOwnIff(w: World, copy: Record, id: WalletSessionId, now: Time)
    requires Inv(w) && id !in w.sessions && TokenFor(w, copy, id, now).Some?
    ensures var w', token := RedeemStep(w, copy, id, now), TokenFor(w, copy, id, now).value;
      && token.0 in w'.sessions && copy.binding.Some? && copy.binding.value in w'.bindings && w'.sessions[token.0].binding in w'.bindings
      && (w'.sessions[token.0].userId == token.1 <==> SameUser(w'.bindings, copy.binding.value, w'.sessions[token.0].binding))
      && (Honoured(w', token, now) <==>
          SameUser(w'.bindings, copy.binding.value, w'.sessions[token.0].binding) && !w'.bindings[w'.sessions[token.0].binding].revoked)
      && (w.row.state.Approved? ==> token.0 == id && w'.sessions[id].binding == copy.binding.value && Honoured(w', token, now))
  {
    if !w.row.state.Approved? {
      assert SessionOk(w, w.sessions[w.row.walletSession.value]);
    }
  }

  // Over every run, the account the row shows is the account of its session if
  // and only if the redeem that created the session read the account the row had
  // by then: later neither changes.
  lemma RowShowsSessionIff(ws: seq<World>, events: seq<Event>, k: nat, i: nat, id: WalletSessionId)
    requires Run(ws, events) && k < |events| && k < i < |ws|
    requires id !in ws[k].sessions && id in ws[k + 1].sessions && id in ws[i].sessions
    ensures events[k].Redeem?
    ensures ws[i].row.binding == Some(ws[i].sessions[id].binding) <==> ws[k].row.binding == events[k].binding
  {
    RunKeeps(ws, events, k);
    assert StepAt(ws, events, k);
    CreatedByRedeem(ws[k], events[k], id);
    RunKeeps(ws, events, k + 1);
    assert ws[k + 1].row.walletSession == Some(id);
    RunFollows(ws, events, k + 1, i);
    RunKeepsSession(ws, events, k + 1, i, id);
  }

  lemma CreatedByRedeem(w: World, e: Event, id: WalletSessionId)
    requires Possible(w, e) && id !in w.sessions && id in Next(w, e).sessions
    ensures e.Redeem? && e.id == id && Next(w, e).row.binding == w.row.binding && e.binding == Some(Next(w, e).sessions[id].binding)
  {
  }

  lemma {:induction false} RunKeepsSession(ws: seq<World>, events: seq<Event>, i: nat, j: nat, id: WalletSessionId)
    requires Run(ws, events) && i <= j < |ws| && id in ws[i].sessions
    ensures id in ws[j].sessions && SameSession(ws[i].sessions[id], ws[j].sessions[id])
  {
    if i < j {
      RunKeepsSession(ws, events, i, j - 1, id);
      RunKeeps(ws, events, j - 1);
      assert StepAt(ws, events, j - 1);
      NextWrites(ws[j - 1], events[j - 1]);
    }
  }

  lemma Do(ws: seq<World>, events: seq<Event>, e: Event) returns (ws': seq<World>, events': seq<Event>)
    requires Run(ws, events) && Possible(ws[|events|], e)
    ensures Run(ws', events') && |ws'| == |ws| + 1 && ws'[|events'|] == Next(ws[|events|], e)
  {
    ws', events' := ws + [Next(ws[|events|], e)], events + [e];
    assert ws'[0] == ws[0];
    forall k | 0 <= k < |events'|
      ensures StepAt(ws', events', k)
    {
      assert k < |events| ==> StepAt(ws, events, k);
    }
  }

  // Two accounts of one DID, of users 1 and 2.
  function TwoAccounts(did: Did): Bindings { map[1 := Binding(did, 1, false), 2 := Binding(did, 2, false)] }

  // The request once that DID approved it.
  function ApprovedRow(starter: Did, approver: Did, did: Did): Record {
    Record(Approved, starter, Some(approver), Some(7), false, Some(did), Some(Shown(starter, did, DECISION_WINDOW)), None, None,
           Some(DECISION_WINDOW), None, CLAIM_WINDOW, Some(DECISION_WINDOW))
  }

  lemma ApprovedRun(starter: Did, approver: Did, did: Did) returns (ws: seq<World>, events: seq<Event>)
    ensures Run(ws, events)
    ensures var w := ws[|events|];
      && w.row == ApprovedRow(starter, approver, did) && w.sessions == map[] && w.bindings == TwoAccounts(did)
      && |w.past| == 4 && w.past[3] == w.row
  {
    var found := TwoAccounts(did);
    ws, events := [Start(starter, 0, found)], [];
    var w0 := ws[0];
    ws, events := Do(ws, events, Claim(approver, 7, 0));
    var w1 := ws[|events|];
    assert w1.past == w0.past + [w1.row];
    assert ActiveOf(found, did) == {1, 2} && |ActiveOf(found, did)| == 2;
    ws, events := Do(ws, events, Prove(1, approver, Identification(true, did, 7), found, 0));
    var w2 := ws[|events|];
    assert w2.past == w1.past + [w2.row];
    assert Backs(found, w2.row, did, 1);
    ws, events := Do(ws, events, Respond(2, approver, Grant(true, did, starter, Shown(starter, did, DECISION_WINDOW), true, true, DECISION_WINDOW), found, 0));
    var w3 := ws[|events|];
    assert w3.past == w2.past + [w3.row];
  }

  // And it happens that a token is for another account than its session, and the
  // row shows that other account too: two redeems that read the request approved
  // select an account each, then the first to have selected redeems, then the other.
  lemma TokenOfAnotherAccount(starter: Did, approver: Did, did: Did) returns (ws: seq<World>, events: seq<Event>)
    ensures Run(ws, events) && |ws[|events|].past| > 3
    ensures var w := ws[|events|]; var copy := w.past[3].(binding := Some(2), user := Some(2));
      && copy.state.Approved? && 9 in w.sessions && w.sessions[9].userId == 1
      && TokenFor(w, copy, 8, 0) == Some((9, 2)) && !Honoured(w, (9, 2), 0)
      && w.row.binding == Some(2) && w.sessions[9].binding == 1
  {
    ws, events := ApprovedRun(starter, approver, did);
    var w3 := ws[|events|];
    ws, events := Do(ws, events, Select(3, 1));
    var w4 := ws[|events|];
    assert w4.past == w3.past + [w4.row];
    ws, events := Do(ws, events, Select(3, 2));
    var w5 := ws[|events|];
    assert w5.past == w4.past + [w5.row];
    ws, events := Do(ws, events, Redeem(3, Some(1), Some(1), 9, 0));
    var w6 := ws[|events|];
    assert w6.past == w5.past + [w6.row];
  }

  // ---- expiry and its deadline ----

  // The deadline of the state the row is in.
  predicate Overdue(r: Record, now: Time) {
    match r.state
    case Pending => now >= r.claimClosesAt
    case Claimed => r.decisionClosesAt.None? || now >= r.decisionClosesAt.value
    case Identified => r.decisionClosesAt.None? || now >= r.decisionClosesAt.value
    case _ => true
  }

  // An expiry comes before the row's own deadline exactly when the redeeming
  // copy is still pending, its claim window is over, and the row was claimed
  // meanwhile with its decision window still open.
  lemma ExpiresEarlyIff(w: World, read: nat, now: Time)
    requires Inv(w) && read < |w.past|
    ensures ExpireStep(w, w.past[read], now) != w && !Overdue(w.row, now) <==>
      && w.past[read].state.Pending? && now >= w.past[read].claimClosesAt
      && (w.row.state.Claimed? || w.row.state.Identified?)
      && w.row.decisionClosesAt.Some? && now < w.row.decisionClosesAt.value
  {
    assert PastOk(w, read);
    if ExpireStep(w, w.past[read], now) != w {
      assert ExpireStep(w, w.past[read], now).row.state.Expired?;
    } else {
      assert w.row.state.Claimed? || w.row.state.Identified? ==> Write(w, w.row.(state := RequestState.Expired)).row.state != w.row.state;
    }
  }

  // It happens: claimed a moment before the window closed, expired a moment later.
  lemma EarlyExpiryHappens(starter: Did, approver: Did, number: nat, now: Time, bindings: Bindings)
    ensures var w0 := Start(starter, now, bindings);
      var w1 := Next(w0, Claim(approver, number, now + CLAIM_WINDOW - 1));
      && Possible(w1, Expire(0, now + CLAIM_WINDOW))
      && w1.row.state.Claimed? && !Overdue(w1.row, now + CLAIM_WINDOW)
      && Next(w1, Expire(0, now + CLAIM_WINDOW)).row.state.Expired?
  {
    var w0 := Start(starter, now, bindings);
    var w1 := Next(w0, Claim(approver, number, now + CLAIM_WINDOW - 1));
    assert w1.past[0] == w0.row;
  }

  // ---- the handlers ----

  class WalletLogin {
    var row: Record
    var sessions: map<WalletSessionId, WalletSession>
    var bindings: Bindings
    ghost var past: seq<Record>
    ghost var log: seq<Entry>

    ghost function Value(): World
      reads this
    {
      World(row, past, sessions, bindings, log)
    }

    constructor OobRequest(starter: Did, now: Time, accounts: Bindings)
      ensures Value() == Start(starter, now, accounts)
    {
      row := NewRequest(starter, now);
      sessions, bindings := map[], accounts;
      past, log := [NewRequest(starter, now)], [];
    }

    method Store(value: Record)
      modifies this`row, this`past
      ensures Value() == Write(old(Value()), value)
    {
      row := value;
      past := past + [value];
    }

    method OobClaim(issuer: Did, number: nat, now: Time) returns (ok: bool)
      modifies this
      ensures Value() == ClaimStep(old(Value()), issuer, number, now)
      ensures ok <==> old(row).state.Pending? && now < old(row).claimClosesAt
    {
      if !row.state.Pending? {
        return false;
      }
      if now >= row.claimClosesAt {
        var before := row;
        row := row.(state := RequestState.Expired);
        row := before; // rolled back with the refusal
        return false;
      }
      Store(row.(state := RequestState.Claimed, approver := Some(issuer), matchNumber := Some(number),
                 decisionClosesAt := Some(now + DECISION_WINDOW)));
      log := log + [ClaimedBy(issuer, number, now)];
      ok := true;
    }

    method DeclineWalletRequest(from: RequestState)
      modifies this
      ensures Value() == DeclineStep(old(Value()), from)
    {
      if row.state == from {
        Store(row.(state := Declined));
      }
    }

    // The bindings are read before, as `found`.
    method OobProve(copy: Record, issuer: Did, identify: Identification, found: Bindings,
        now: Time) returns (ok: bool)
      modifies this
      ensures Value() == ProveStep(old(Value()), copy, issuer, identify, found, now)
      ensures ok <==> old(row).state.Claimed? && row.state.Identified?
      ensures ok ==> copy.matchNumber == Some(identify.entered)
    {
      if copy.approver != Some(issuer) || !copy.state.Claimed? || copy.decisionClosesAt.None? || now >= copy.decisionClosesAt.value {
        return false;
      }
      if !identify.valid {
        DeclineWalletRequest(RequestState.Claimed);
        return false;
      }
      var active := ActiveOf(found, identify.issuer);
      if |active| == 0 {
        DeclineWalletRequest(RequestState.Claimed);
        return false;
      }
      if copy.matchNumber != Some(identify.entered) {
        DeclineWalletRequest(RequestState.Claimed);
        return false;
      }
      var shown := Shown(copy.starter, identify.issuer, copy.decisionClosesAt.value);
      if !row.state.Claimed? || row.approver != Some(issuer) {
        return false;
      }
      var identified := row.(state := Identified, identified := Some(identify.issuer), step2 := Some(shown));
      if |active| == 1 {
        var b :| b in active;
        OnlyIs(active, b);
        identified := identified.(binding := Some(b), user := Some(found[b].userId));
      }
      Store(identified);
      log := log + [Proved(issuer, identify, now)];
      ok := true;
    }

    method OobRespond(copy: Record, issuer: Did, grant: Grant, found: Bindings, now: Time) returns (ok: bool)
      modifies this
      ensures Value() == RespondStep(old(Value()), copy, issuer, grant, found, now)
      ensures ok <==> old(row).state.Identified? && (row.state.Approved? || (row.state.Declined? && Refuses(copy, grant, now)))
    {
      if copy.approver != Some(issuer) || copy.identified != Some(grant.issuer) || !copy.state.Identified?
         || copy.decisionClosesAt.None? || now >= copy.decisionClosesAt.value {
        return false;
      }
      if !grant.valid {
        DeclineWalletRequest(Identified);
        return false;
      }
      if !grant.rest || grant.sessionKey != copy.starter || copy.step2 != Some(grant.context) {
        DeclineWalletRequest(Identified);
        return false;
      }
      if grant.ends <= now {
        DeclineWalletRequest(Identified);
        return false;
      }
      if !grant.approve {
        ok := row.state.Identified?;
        DeclineWalletRequest(Identified);
        return;
      }
      if !exists b :: b in found && Backs(found, copy, grant.issuer, b) {
        DeclineWalletRequest(Identified);
        return false;
      }
      if !row.state.Identified? {
        return false;
      }
      Store(row.(state := Approved, sessionEndsAt := Some(grant.ends)));
      log := log + [Granted(issuer, grant, Backer(found, copy, grant.issuer), now)];
      ok := true;
    }

    // The redeeming copy after the account selection, if it went through.
    method SelectAccount(copy: Record, b: BindingId) returns (r: Option<Record>)
      modifies this
      ensures Value() == SelectStep(old(Value()), copy, b)
      ensures r.Some? <==> |past| == |old(past)| + 1
      ensures r.Some? ==> b in bindings && r.value == copy.(binding := Some(b), user := Some(bindings[b].userId))
    {
      if copy.identified.None? || (!copy.state.Identified? && !copy.state.Approved?) {
        return None;
      }
      if b !in bindings || bindings[b].revoked || bindings[b].loginDid != copy.identified.value {
        return None;
      }
      if !row.state.Identified? && !row.state.Approved? {
        return None;
      }
      Store(row.(binding := Some(b), user := Some(bindings[b].userId)));
      r := Some(copy.(binding := Some(b), user := Some(bindings[b].userId)));
    }

    // The copy follows: it reads expired whether or not the update took.
    method ExpireIfDue(copy: Record, now: Time) returns (copy': Record)
      modifies this
      ensures Value() == ExpireStep(old(Value()), copy, now)
      ensures copy' == if PastDeadline(copy, now) then copy.(state := RequestState.Expired) else copy
    {
      copy' := copy;
      if (copy.state.Pending? && now >= copy.claimClosesAt)
         || ((copy.state.Claimed? || copy.state.Identified?) && (copy.decisionClosesAt.None? || now >= copy.decisionClosesAt.value)) {
        if row.state.Pending? || row.state.Claimed? || row.state.Identified? {
          Store(row.(state := RequestState.Expired));
        }
        copy' := copy.(state := RequestState.Expired);
      }
    }

    // The session the redeemer gets, created now or before, and the user the
    // token names.
    method RedeemApproved(copy: Record, id: WalletSessionId, now: Time) returns (r: Option<(WalletSessionId, UserId)>)
      modifies this
      ensures Value() == RedeemStep(old(Value()), copy, id, now)
      ensures r == TokenFor(old(Value()), copy, id, now)
      ensures r.Some? ==>
        && row.state.Consumed? && row.walletSession == Some(r.value.0) && r.value.0 in sessions
        && !sessions[r.value.0].revoked && sessions[r.value.0].expiresAt > now
        && copy.user == Some(r.value.1) && copy.binding.Some? && copy.binding.value in bindings && bindings[copy.binding.value].userId == r.value.1
    {
      if copy.binding.None? || copy.user.None? || copy.identified.None? || copy.sessionEndsAt.None? {
        return None;
      }
      var b := copy.binding.value;
      if b !in bindings || bindings[b].userId != copy.user.value || bindings[b].loginDid != copy.identified.value || bindings[b].revoked {
        return None;
      }
      var user := bindings[b].userId;
      var ends := copy.sessionEndsAt.value;
      if ends > now + SESSION_LIMIT {
        ends := now + SESSION_LIMIT;
      }
      if ends <= now {
        return None;
      }
      if row.state.Approved? {
        sessions := sessions[id := WalletSession(b, user, ends, now, false)];
        Store(row.(state := Consumed, walletSession := Some(id)));
        log := log + [SessionCreated(id, now)];
        return Some((id, user));
      }
      if row.state.Consumed? && row.walletSession.Some? {
        var created := row.walletSession.value;
        if created in sessions && !sessions[created].revoked && sessions[created].expiresAt > now {
          return Some((created, user));
        }
      }
      r := None;
    }

    method OobCancel(copy: Record, issuer: Did) returns (ok: bool)
      modifies this
      ensures Value() == CancelStep(old(Value()), copy, issuer)
      ensures ok <==> (copy.starter == issuer || copy.approver == Some(issuer)) && (copy.state.Cancelled? || !Over(old(row).state))
    {
      if copy.starter != issuer && copy.approver != Some(issuer) {
        return false;
      }
      if !copy.state.Cancelled? {
        if row.state.Pending? || row.state.Claimed? || row.state.Identified? || row.state.Approved? {
          Store(row.(state := RequestState.Cancelled));
        } else {
          return false;
        }
      }
      ok := true;
    }
  }
}
