// The hand-off as a whole: the database, the Deployment whose activation specs
// are built from claims, and the pods that run its script behind the gate.
module HandOff {
  import opened Rows
  import opened Protocol
  import opened Transactions
  import opened PoolTransactions
  import opened Deployments
  import opened ActivationGate
  import Runs
  import Script

  // A run of the database and a history of one session's Deployment; the
  // identity of an activation and the URL of its gate.
  datatype World = World(
    states: seq<Db>, events: seq<Runs.Event>, ds: seq<Manifest>, cs: seq<Change>, sid: SessionId,
    identity: Identity, endpoint: (SessionId, string) -> string)

  ghost predicate Sane(w: World) {
    && Runs.Run(w.states, w.events) && History(w.ds, w.cs)
    && !HasActivation(w.ds[0].initContainers) && Authorized(w.ds[0]) == ""
    && (forall s, a :: w.identity(s, a) != "")
    && (forall s, a, t, b :: w.identity(s, a) == w.identity(t, b) ==> s == t && a == b)
    && (forall s, a, t, b :: w.endpoint(s, a) == w.endpoint(t, b) ==> s == t && a == b)
  }

  // A process of the activation container, on the volume all of them share.
  datatype Process = Process(program: Script.Program, pc: nat, pid: nat)

  // How far the database and the Deployment are, and what runs.
  datatype System = System(db: nat, deployment: nat, pods: map<nat, Process>, volume: Script.Volume)

  datatype Act =
    | DbMoves
    | DeploymentMoves
    | StartPod(pod: nat, from: nat, container: nat, pid: nat)
    | PodRuns(pod: nat, event: Script.Event)
    | PodGoes(pod: nat)
    | OthersWrite(volume: Script.Volume)

  // ---- where specs come from ----

  ghost predicate Claimed(w: World, i: nat, s: Script.Spec)
    requires i < |w.states|
  {
    var o := CurrentRow(w.states[i].claims, w.sid);
    && o.Some? && o.value.1.status.Claimed? && o.value.1.operation.ProvisionVta? && o.value.1.adminDid == Some(s.adminDid)
    && s.activationId == w.identity(w.sid, o.value.0)
    && s.gate == Script.Gate(w.endpoint(w.sid, s.activationId), true)
  }

  // Built for a prewarm from the newest claim, read at or before this moment.
  ghost predicate PrewarmSpec(w: World, n: nat, s: Script.Spec)
    requires n < |w.states|
  {
    exists i :: 0 <= i <= n && Claimed(w, i, s)
  }

  ghost predicate Loaded(w: World, read: nat, i: nat, id: ConnId, s: Script.Spec)
    requires read < |w.states| && i < |w.states|
  {
    && w.sid in w.states[read].claims.sessions && w.states[read].claims.sessions[w.sid].adminDid == Some(s.adminDid)
    && Of(w.states[i].claims, id, w.sid)
    && var r := w.states[i].claims.conns[id];
    && r.operation.ProvisionVta? && r.adminDid == Some(s.adminDid) && r.confirmedAt.Some?
    && (r.status.Confirmed? || r.status.Provisioning? || r.status.Released?)
    && s.activationId == w.identity(w.sid, id)
    && (s.gate.Gate? ==> s.gate == Script.Gate(w.endpoint(w.sid, s.activationId), true))
  }

  // Built for an activation: the administrator read first, their confirmed
  // claim later.
  ghost predicate ActivateSpec(w: World, n: nat, s: Script.Spec)
    requires n < |w.states|
  {
    exists read, i, id :: 0 <= read <= i <= n && Loaded(w, read, i, id, s)
  }

  ghost predicate Sound(w: World, n: nat, s: Script.Spec)
    requires n < |w.states|
  {
    PrewarmSpec(w, n, s) || ActivateSpec(w, n, s)
  }

  // Other writers copy activation containers, defaults filled in, or drop them.
  ghost predicate Copied(after: seq<Container>, before: seq<Container>) {
    forall i :: 0 <= i < |after| && after[i].name == ACTIVATION_CONTAINER ==>
      exists j :: 0 <= j < |before| && before[j].name == ACTIVATION_CONTAINER && SameActivation(after[i], before[j])
  }

  ghost predicate Justified(w: World, n: nat, k: nat)
    requires n < |w.states| && k < |w.cs| && k < |w.ds|
  {
    match w.cs[k]
    case Prewarm(s) => PrewarmSpec(w, n, s)
    case Activate(s) => ActivateSpec(w, n, s)
    case Cancel(_) => true
    case Other(after) => Copied(after.initContainers, w.ds[k].initContainers)
  }

  // ---- the product ----

  // The gate that answers this URL opens on reads of states up to now, the
  // session before the claim before the Deployment, each as stale as it may be.
  ghost predicate Opened(w: World, n: nat, d: nat, id: string)
    requires n < |w.states| && d < |w.ds|
  {
    exists i, j, k, now :: 0 <= i <= j <= n && 0 <= k <= d && Releases(w.states, i, j, w.ds, k, w.sid, id, now, w.identity)
  }

  ghost predicate OpensFor(w: World, n: nat, d: nat, url: string)
    requires n < |w.states| && d < |w.ds|
  {
    exists sid, id :: w.endpoint(sid, id) == url && (sid == w.sid ==> Opened(w, n, d, id))
  }

  // A poll that opens was answered by the gate.
  ghost predicate Answered(w: World, sys: System, p: Process, e: Script.Event)
    requires sys.db < |w.states| && sys.deployment < |w.ds|
  {
    p.pc < |p.program| && p.program[p.pc].PollGate? && e.Run? && e.reply.Opens? ==>
      OpensFor(w, sys.db, sys.deployment, p.program[p.pc].url)
  }

  function Ran(p: Process, v: Script.Volume, e: Script.Event): Script.Machine {
    Script.Step(p.program, Script.Machine(p.pc, p.pid, v), e)
  }

  ghost predicate Does(w: World, sys: System, act: Act, sys': System) {
    && sys.db < |w.states| && sys.deployment < |w.ds|
    && match act
      case DbMoves => sys.db + 1 < |w.states| && sys' == sys.(db := sys.db + 1)
      case DeploymentMoves =>
        && sys.deployment + 1 < |w.ds| && sys.deployment < |w.cs| && Justified(w, sys.db, sys.deployment)
        && sys' == sys.(deployment := sys.deployment + 1)
      case StartPod(pod, from, container, pid) =>
        && from <= sys.deployment && container < |w.ds[from].initContainers|
        && var c := w.ds[from].initContainers[container];
        && c.name == ACTIVATION_CONTAINER && c.command.Shell?
        && sys' == sys.(pods := sys.pods[pod := Process(c.command.program, 0, pid)])
      case PodRuns(pod, e) =>
        && pod in sys.pods && Answered(w, sys, sys.pods[pod], e)
        && var p := sys.pods[pod]; var m := Ran(p, sys.volume, e);
        && sys' == sys.(pods := sys.pods[pod := Process(p.program, m.pc, m.pid)], volume := m.volume)
      case PodGoes(pod) => sys' == sys.(pods := sys.pods - {pod})
      case OthersWrite(volume) => sys' == sys.(volume := volume)
  }

  ghost predicate DoesAt(w: World, run: seq<System>, acts: seq<Act>, k: nat)
    requires k < |acts| < |run|
  {
    Does(w, run[k], acts[k], run[k + 1])
  }

  ghost predicate HandOffRun(w: World, run: seq<System>, acts: seq<Act>) {
    && Sane(w) && |run| == |acts| + 1
    && run[0].db < |w.states| && run[0].deployment == 0 && run[0].pods == map[]
    && forall k :: 0 <= k < |acts| ==> DoesAt(w, run, acts, k)
  }

  // ---- what every run keeps ----

  ghost predicate CommandSound(w: World, n: nat, c: Command)
    requires n < |w.states|
  {
    c.Shell? && exists s :: Sound(w, n, s) && c.program == Script.ActivationProgram(s)
  }

  ghost predicate ContainersSound(w: World, n: nat, containers: seq<Container>)
    requires n < |w.states|
  {
    forall i :: 0 <= i < |containers| && containers[i].name == ACTIVATION_CONTAINER ==> CommandSound(w, n, containers[i].command)
  }

  // The claim with this row was confirmed and its DID is the administrator.
  ghost predicate Confirmed(w: World, i: nat, id: ConnId, did: Did)
    requires i < |w.states|
  {
    && Of(w.states[i].claims, id, w.sid)
    && var r := w.states[i].claims.conns[id];
    && r.operation.ProvisionVta? && r.confirmedAt.Some? && r.adminDid == Some(did)
    && w.sid in w.states[i].claims.sessions && w.states[i].claims.sessions[w.sid].adminDid == Some(did)
  }

  ghost predicate ConfirmedBy(w: World, n: nat, id: string)
    requires n < |w.states|
  {
    exists i, claim, did :: 0 <= i <= n && Confirmed(w, i, claim, did) && w.identity(w.sid, claim) == id
  }

  ghost predicate ProcessSound(w: World, n: nat, d: nat, p: Process)
    requires n < |w.states| && d < |w.ds|
  {
    exists s :: SpecOf(w, n, d, p, s)
  }

  // This is the spec the process runs, and it has passed the gate if there is one.
  ghost predicate SpecOf(w: World, n: nat, d: nat, p: Process, s: Script.Spec)
    requires n < |w.states| && d < |w.ds|
  {
    Sound(w, n, s) && p.program == Script.ActivationProgram(s) && (s.gate.Gate? && p.pc > 0 ==> Opened(w, n, d, s.activationId))
  }

  ghost predicate DeploymentSound(w: World, n: nat, k: nat)
    requires n < |w.states| && k < |w.ds|
  {
    && ContainersSound(w, n, w.ds[k].initContainers)
    && (Authorized(w.ds[k]) != "" ==> ConfirmedBy(w, n, Authorized(w.ds[k])))
  }

  ghost predicate AllSound(w: World, sys: System) {
    && sys.db < |w.states| && sys.deployment < |w.ds|
    && (forall k :: 0 <= k <= sys.deployment ==> DeploymentSound(w, sys.db, k))
    && (forall pod :: pod in sys.pods ==> ProcessSound(w, sys.db, sys.deployment, sys.pods[pod]))
  }

  // ---- an opened activation is the administrator's ----

  lemma LoadedIsConfirmed(w: World, read: nat, i: nat, id: ConnId, s: Script.Spec)
    requires Sane(w) && read <= i < |w.states| && Loaded(w, read, i, id, s)
    ensures Confirmed(w, i, id, s.adminDid)
  {
    Runs.RunKeepsInv(w.states, w.events, i);
    Runs.RunKeepsAdministrator(w.states, w.events, read, i, w.sid);
  }

  // Whoever claimed is who was confirmed.
  lemma SameClaimant(w: World, h: nat, j: nat, id: ConnId)
    requires Sane(w) && h < |w.states| && j < |w.states|
    requires Of(w.states[h].claims, id, w.sid) && w.states[h].claims.conns[id].status.Claimed?
    requires Of(w.states[j].claims, id, w.sid) && w.states[j].claims.conns[id].confirmedAt.Some? && w.states[j].claims.conns[id].adminDid.Some?
    ensures w.states[j].claims.conns[id].adminDid == w.states[h].claims.conns[id].adminDid
    ensures w.states[j].claims.conns[id].operation == w.states[h].claims.conns[id].operation
  {
    Runs.RunKeepsInv(w.states, w.events, h);
    Runs.RunKeepsInv(w.states, w.events, j);
    var r, r' := w.states[h].claims.conns[id], w.states[j].claims.conns[id];
    assert RowOk(r) && RowOk(r');
    if h <= j {
      Runs.RunIsLater(w.states, w.events, h, j);
      assert RowLater(r, r');
    } else {
      Runs.RunIsLater(w.states, w.events, j, h);
      assert false; // a confirmed row is never claimed again
    }
  }

  lemma SameIdentity(w: World, a: ConnId, b: ConnId)
    requires Sane(w) && w.identity(w.sid, a) == w.identity(w.sid, b)
    ensures a == b
  {
  }

  lemma ReleaseConfirms(w: World, h: nat, read: nat, j: nat, k: nat, now: Time, s: Script.Spec)
    requires Sane(w) && h < |w.states| && read <= j < |w.states| && k < |w.ds| && Claimed(w, h, s)
    requires Releases(w.states, read, j, w.ds, k, w.sid, s.activationId, now, w.identity)
    ensures var id := CurrentRow(w.states[h].claims, w.sid).value.0;
      Confirmed(w, j, id, s.adminDid) && w.identity(w.sid, id) == s.activationId
  {
    var id := CurrentRow(w.states[h].claims, w.sid).value.0;
    ReleaseMeansConfirmed(w.states, w.events, read, j, j, w.ds, w.cs, k, k, w.sid, s.activationId, now, w.identity);
    SameIdentity(w, CurrentOf(w.states[j].claims, w.sid).value, id);
    assert Of(w.states[j].claims, id, w.sid);
    SameClaimant(w, h, j, id);
    Runs.RunKeepsInv(w.states, w.events, j);
  }

  lemma OpenedIsConfirmed(w: World, h: nat, n: nat, d: nat, s: Script.Spec) returns (i: nat, id: ConnId)
    requires Sane(w) && h <= n < |w.states| && d < |w.ds| && Claimed(w, h, s) && Opened(w, n, d, s.activationId)
    ensures i <= n && Confirmed(w, i, id, s.adminDid) && w.identity(w.sid, id) == s.activationId
  {
    var read, j, k, now :| 0 <= read <= j <= n && 0 <= k <= d
      && Releases(w.states, read, j, w.ds, k, w.sid, s.activationId, now, w.identity);
    i, id := j, CurrentRow(w.states[h].claims, w.sid).value.0;
    ReleaseConfirms(w, h, read, j, k, now, s);
  }

  lemma ReleasedIsConfirmed(w: World, n: nat, d: nat, s: Script.Spec) returns (i: nat, id: ConnId)
    requires Sane(w) && n < |w.states| && d < |w.ds| && Sound(w, n, s)
    requires s.gate.Gate? ==> Opened(w, n, d, s.activationId)
    ensures i <= n && Confirmed(w, i, id, s.adminDid) && w.identity(w.sid, id) == s.activationId
  {
    if ActivateSpec(w, n, s) {
      var read, at, claim :| 0 <= read <= at <= n && Loaded(w, read, at, claim, s);
      LoadedIsConfirmed(w, read, at, claim, s);
      i, id := at, claim;
    } else {
      var h :| 0 <= h <= n && Claimed(w, h, s);
      i, id := OpenedIsConfirmed(w, h, n, d, s);
    }
  }

  // ---- every act keeps it ----

  lemma SoundLater(w: World, n: nat, n': nat, s: Script.Spec)
    requires n <= n' < |w.states| && Sound(w, n, s)
    ensures Sound(w, n', s)
  {
  }

  lemma DeploymentSoundLater(w: World, n: nat, n': nat, k: nat)
    requires n <= n' < |w.states| && k < |w.ds| && DeploymentSound(w, n, k)
    ensures DeploymentSound(w, n', k)
  {
    var containers := w.ds[k].initContainers;
    forall i | 0 <= i < |containers| && containers[i].name == ACTIVATION_CONTAINER
      ensures CommandSound(w, n', containers[i].command)
    {
      assert CommandSound(w, n, containers[i].command);
      var s :| Sound(w, n, s) && containers[i].command.program == Script.ActivationProgram(s);
      SoundLater(w, n, n', s);
    }
  }

  lemma ProcessSoundLater(w: World, n: nat, d: nat, n': nat, d': nat, p: Process)
    requires n <= n' < |w.states| && d <= d' < |w.ds| && ProcessSound(w, n, d, p)
    ensures ProcessSound(w, n', d', p)
  {
    var s :| SpecOf(w, n, d, p, s);
    SoundLater(w, n, n', s);
    assert SpecOf(w, n', d', p, s);
  }

  lemma InstallKeepsContainers(w: World, n: nat, d: Manifest, s: Script.Spec, authorize: bool)
    requires n < |w.states| && ContainersSound(w, n, d.initContainers) && Sound(w, n, s) && UpdateTx(d, s, authorize).Ok?
    ensures ContainersSound(w, n, UpdateTx(d, s, authorize).value.initContainers)
  {
    var activation := ActivationContainer(s, Script.ActivationProgram(s));
    assert CommandSound(w, n, activation.command);
  }

  lemma {:induction false} OthersAmong(containers: seq<Container>)
    ensures !HasActivation(OtherContainers(containers))
    decreases |containers|
  {
    if containers != [] {
      OthersAmong(containers[1..]);
    }
  }

  lemma CopiesAreSound(w: World, n: nat, after: seq<Container>, before: seq<Container>)
    requires n < |w.states| && ContainersSound(w, n, before) && Copied(after, before)
    ensures ContainersSound(w, n, after)
  {
    forall i | 0 <= i < |after| && after[i].name == ACTIVATION_CONTAINER
      ensures CommandSound(w, n, after[i].command)
    {
      var j :| 0 <= j < |before| && before[j].name == ACTIVATION_CONTAINER && SameActivation(after[i], before[j]);
      assert after[i].command == after[i].(defaulted := "").command == before[j].command;
    }
  }

  lemma ChangeKeepsContainers(w: World, n: nat, k: nat)
    requires Sane(w) && n < |w.states| && k < |w.cs| && ContainersSound(w, n, w.ds[k].initContainers) && Justified(w, n, k)
    ensures ContainersSound(w, n, w.ds[k + 1].initContainers)
  {
    assert ChangesAt(w.ds, w.cs, k);
    var d := w.ds[k];
    match w.cs[k]
    case Prewarm(s) =>
      if PrewarmTx(d, s).Ok? {
        InstallKeepsContainers(w, n, d, s, false);
      }
    case Activate(s) =>
      if ActivateTx(d, s).Ok? {
        InstallKeepsContainers(w, n, d, s, true);
      }
    case Cancel(id) => OthersAmong(d.initContainers);
    case Other(after) => CopiesAreSound(w, n, after.initContainers, d.initContainers);
  }

  lemma ActivateIsConfirmed(w: World, n: nat, s: Script.Spec)
    requires Sane(w) && n < |w.states| && ActivateSpec(w, n, s)
    ensures ConfirmedBy(w, n, s.activationId)
  {
    var read, i, id :| 0 <= read <= i <= n && Loaded(w, read, i, id, s);
    LoadedIsConfirmed(w, read, i, id, s);
  }

  lemma DeploymentMovesSoundly(w: World, n: nat, k: nat)
    requires Sane(w) && n < |w.states| && k < |w.cs| && DeploymentSound(w, n, k) && Justified(w, n, k)
    ensures DeploymentSound(w, n, k + 1)
  {
    ChangeKeepsContainers(w, n, k);
    assert ChangesAt(w.ds, w.cs, k);
    AuthorizationLasts(w.ds, w.cs, k, k);
    ChangeKeepsAuthorization(w.ds[k], w.cs[k], w.ds[k + 1]);
    if Authorized(w.ds[k + 1]) != Authorized(w.ds[k]) {
      ActivateIsConfirmed(w, n, w.cs[k].spec);
    }
  }

  lemma OwnGateOpened(w: World, n: nat, d: nat, id: string)
    requires Sane(w) && n < |w.states| && d < |w.ds| && OpensFor(w, n, d, w.endpoint(w.sid, id))
    ensures Opened(w, n, d, id)
  {
    var sid, other :| w.endpoint(sid, other) == w.endpoint(w.sid, id) && (sid == w.sid ==> Opened(w, n, d, other));
  }

  lemma PodRunsSoundly(w: World, sys: System, pod: nat, e: Script.Event)
    requires Sane(w) && AllSound(w, sys) && pod in sys.pods && Answered(w, sys, sys.pods[pod], e)
    ensures var p := sys.pods[pod]; var m := Ran(p, sys.volume, e);
      ProcessSound(w, sys.db, sys.deployment, Process(p.program, m.pc, m.pid))
  {
    var p, n, d := sys.pods[pod], sys.db, sys.deployment;
    var m := Ran(p, sys.volume, e);
    assert ProcessSound(w, n, d, p);
    var s :| SpecOf(w, n, d, p, s);
    if s.gate.Gate? && m.pc > 0 && p.pc == 0 {
      Script.PassesOnlyOpened(s, Script.Machine(0, p.pid, sys.volume), e);
      assert s.gate.url == w.endpoint(w.sid, s.activationId);
      OwnGateOpened(w, n, d, s.activationId);
    }
    assert SpecOf(w, n, d, Process(p.program, m.pc, m.pid), s);
  }

  lemma ActKeepsDeployments(w: World, sys: System, act: Act, sys': System, k: nat)
    requires Sane(w) && AllSound(w, sys) && Does(w, sys, act, sys') && k <= sys'.deployment
    ensures sys'.db < |w.states| && sys'.deployment < |w.ds| && DeploymentSound(w, sys'.db, k)
  {
    if k > sys.deployment {
      DeploymentMovesSoundly(w, sys.db, sys.deployment);
    } else {
      DeploymentSoundLater(w, sys.db, sys'.db, k);
    }
  }

  lemma ActKeepsProcesses(w: World, sys: System, act: Act, sys': System, pod: nat)
    requires Sane(w) && AllSound(w, sys) && Does(w, sys, act, sys') && pod in sys'.pods
    ensures sys'.db < |w.states| && sys'.deployment < |w.ds| && ProcessSound(w, sys'.db, sys'.deployment, sys'.pods[pod])
  {
    if act.StartPod? && pod == act.pod {
      StartsSoundly(w, sys, act);
    } else if act.PodRuns? && pod == act.pod {
      PodRunsSoundly(w, sys, pod, act.event);
    } else {
      ProcessSoundLater(w, sys.db, sys.deployment, sys'.db, sys'.deployment, sys.pods[pod]);
    }
  }

  lemma ActKeepsSound(w: World, sys: System, act: Act, sys': System)
    requires Sane(w) && AllSound(w, sys) && Does(w, sys, act, sys')
    ensures AllSound(w, sys')
  {
    forall k | 0 <= k <= sys'.deployment
      ensures DeploymentSound(w, sys'.db, k)
    {
      ActKeepsDeployments(w, sys, act, sys', k);
    }
    forall pod | pod in sys'.pods
      ensures ProcessSound(w, sys'.db, sys'.deployment, sys'.pods[pod])
    {
      ActKeepsProcesses(w, sys, act, sys', pod);
    }
  }

  lemma StartsSoundly(w: World, sys: System, act: Act)
    requires AllSound(w, sys) && act.StartPod? && act.from <= sys.deployment && act.container < |w.ds[act.from].initContainers|
    requires var c := w.ds[act.from].initContainers[act.container]; c.name == ACTIVATION_CONTAINER && c.command.Shell?
    ensures ProcessSound(w, sys.db, sys.deployment, Process(w.ds[act.from].initContainers[act.container].command.program, 0, act.pid))
  {
    var c := w.ds[act.from].initContainers[act.container];
    assert DeploymentSound(w, sys.db, act.from) && CommandSound(w, sys.db, c.command);
    var s :| Sound(w, sys.db, s) && c.command.program == Script.ActivationProgram(s);
    assert SpecOf(w, sys.db, sys.deployment, Process(c.command.program, 0, act.pid), s);
  }

  lemma {:induction false} RunIsSound(w: World, run: seq<System>, acts: seq<Act>, k: nat)
    requires HandOffRun(w, run, acts) && k < |run|
    ensures AllSound(w, run[k])
  {
    if k > 0 {
      RunIsSound(w, run, acts, k - 1);
      assert DoesAt(w, run, acts, k - 1);
      ActKeepsSound(w, run[k - 1], acts[k - 1], run[k]);
    }
  }

  // ---- the hand-off ----

  // The pod's next instruction is import-did of this DID.
  predicate ImportsNext(sys: System, act: Act, did: Did) {
    act.PodRuns? && act.pod in sys.pods && act.event.Run?
    && var p := sys.pods[act.pod]; p.pc < |p.program| && p.program[p.pc].ImportDid? && p.program[p.pc].did == did
  }

  // Over every run of the whole, import-did is only ever invoked with the
  // session's administrator, whose claim was confirmed before, and who is the
  // administrator from then on.
  lemma ImportsOnlyTheAdministrator(w: World, run: seq<System>, acts: seq<Act>, k: nat, did: Did) returns (i: nat, id: ConnId)
    requires HandOffRun(w, run, acts) && k < |acts| && ImportsNext(run[k], acts[k], did)
    ensures run[k].db < |w.states| && i <= run[k].db && Confirmed(w, i, id, did) && IsAdminDid(did)
    ensures forall l :: i <= l < |w.states| && w.sid in w.states[l].claims.sessions ==> w.states[l].claims.sessions[w.sid].adminDid == Some(did)
  {
    RunIsSound(w, run, acts, k);
    var sys := run[k];
    var p := sys.pods[acts[k].pod];
    var s :| SpecOf(w, sys.db, sys.deployment, p, s);
    Script.InstrAt(s, p.pc);
    assert did == s.adminDid && (s.gate.Gate? ==> p.pc > 0);
    i, id := ReleasedIsConfirmed(w, sys.db, sys.deployment, s);
    Runs.RunKeepsInv(w.states, w.events, i);
    assert RowOk(w.states[i].claims.conns[id]);
    forall l | i <= l < |w.states| && w.sid in w.states[l].claims.sessions
      ensures w.states[l].claims.sessions[w.sid].adminDid == Some(did)
    {
      Runs.RunKeepsAdministrator(w.states, w.events, i, l, w.sid);
    }
  }

  // So an entry the pods add to the ACL is the administrator's.
  lemma AclGrowsByTheAdministrator(w: World, run: seq<System>, acts: seq<Act>, k: nat, did: Did) returns (i: nat, id: ConnId)
    requires HandOffRun(w, run, acts) && k < |acts| && !acts[k].OthersWrite?
    requires did in run[k + 1].volume.acl && did !in run[k].volume.acl
    ensures run[k].db < |w.states| && i <= run[k].db && Confirmed(w, i, id, did) && IsAdminDid(did)
    ensures forall l :: i <= l < |w.states| && w.sid in w.states[l].claims.sessions ==> w.states[l].claims.sessions[w.sid].adminDid == Some(did)
  {
    assert DoesAt(w, run, acts, k);
    assert ImportsNext(run[k], acts[k], did);
    i, id := ImportsOnlyTheAdministrator(w, run, acts, k, did);
  }

  // All imports of a run, by however many pods and specs, are of one DID.
  lemma OneDidIsImported(w: World, run: seq<System>, acts: seq<Act>, k: nat, did: Did, k': nat, did': Did)
    requires HandOffRun(w, run, acts) && k < |acts| && k' < |acts|
    requires ImportsNext(run[k], acts[k], did) && ImportsNext(run[k'], acts[k'], did')
    ensures did == did'
  {
    var i, id := ImportsOnlyTheAdministrator(w, run, acts, k, did);
    var i', id' := ImportsOnlyTheAdministrator(w, run, acts, k', did');
    assert i <= i' || i' <= i;
  }

  // A Deployment is authorized only for a confirmed claim, whose DID is the
  // administrator.
  lemma AuthorizedIsConfirmed(w: World, run: seq<System>, acts: seq<Act>, k: nat) returns (i: nat, id: ConnId, did: Did)
    requires HandOffRun(w, run, acts) && k < |run|
    requires run[k].deployment < |w.ds| && Authorized(w.ds[run[k].deployment]) != ""
    ensures run[k].db < |w.states| && i <= run[k].db && Confirmed(w, i, id, did)
    ensures w.identity(w.sid, id) == Authorized(w.ds[run[k].deployment])
  {
    RunIsSound(w, run, acts, k);
    assert DeploymentSound(w, run[k].db, run[k].deployment);
    i, id, did :| 0 <= i <= run[k].db && Confirmed(w, i, id, did) && w.identity(w.sid, id) == Authorized(w.ds[run[k].deployment]);
  }
}
