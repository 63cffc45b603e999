// The Deployment of a pooled VTA: parked, prewarmed behind the gate,
// authorized; and back to parked when the claim falls through.
module Deployments {
  import opened Rows
  import opened Script

  const ACTIVATION_ANNOTATION := "vtafarm.ic3software.com/pool-activation-id"
  const PREWARM_ANNOTATION := "vtafarm.ic3software.com/pool-prewarm-id"
  const PREWARM_LABEL := "vtafarm.ic3software.com/pool-prewarm"
  const ACTIVATION_CONTAINER := "vta-activate"

  datatype Command = Words(words: seq<string>) | Shell(program: Program)

  // `defaulted` stands for the fields the API server fills in and nobody compares.
  datatype Container = Container(
    name: string, image: string, command: Command, args: seq<string>, workingDir: string,
    env: seq<(string, string)>, mounts: seq<(string, string)>, defaulted: string)

  // A Go map: nil reads as empty.
  type Entries = Option<map<string, string>>

  function Lookup(e: Entries, key: string): string { if e.Some? && key in e.value then e.value[key] else "" }

  function With(e: Entries, key: string, value: string): Entries {
    Some((if e.Some? then e.value else map[])[key := value])
  }

  function Without(e: Entries, key: string): Entries { if e.Some? then Some(e.value - {key}) else None }

  function Content(e: Entries): map<string, string> { if e.Some? then e.value else map[] }

  // The stored object.
  datatype Manifest = Manifest(
    annotations: Entries, labels: Entries, podAnnotations: Entries,
    initContainers: seq<Container>, containers: seq<Container>, replicas: Option<int>)

  // Equal up to nil maps.
  predicate Same(a: Manifest, b: Manifest) {
    && Content(a.annotations) == Content(b.annotations) && Content(a.labels) == Content(b.labels)
    && Content(a.podAnnotations) == Content(b.podAnnotations)
    && a.initContainers == b.initContainers && a.containers == b.containers && a.replicas == b.replicas
  }

  predicate SameTemplate(a: Manifest, b: Manifest) {
    && Content(a.podAnnotations) == Content(b.podAnnotations)
    && a.initContainers == b.initContainers && a.containers == b.containers
  }

  function Installed(d: Manifest): string { Lookup(d.podAnnotations, ACTIVATION_ANNOTATION) }

  function Authorized(d: Manifest): string { Lookup(d.annotations, ACTIVATION_ANNOTATION) }

  function Replicas(d: Manifest): int { if d.replicas.Some? then d.replicas.value else 0 }

  function ActivationContainer(s: Spec, program: Program): Container {
    Container(ACTIVATION_CONTAINER, s.image, Shell(program), [], "/work/vta",
              [("NO_COLOR", "1"), ("CLICOLOR", "0")], [("data", "/work/vta")], "")
  }

  predicate SameActivation(a: Container, b: Container) { a.(defaulted := "") == b.(defaulted := "") }

  predicate HasActivation(containers: seq<Container>) {
    exists i :: 0 <= i < |containers| && containers[i].name == ACTIVATION_CONTAINER
  }

  // Every activation container there is, is the one wanted.
  predicate Matches(containers: seq<Container>, activation: Container) {
    forall i :: 0 <= i < |containers| && containers[i].name == ACTIVATION_CONTAINER ==> SameActivation(containers[i], activation)
  }

  predicate Compatible(d: Manifest, s: Spec) {
    |d.containers| == 1 && d.containers[0].name == "vta" && d.containers[0].image == s.image
  }

  // Why an update is refused.
  predicate Refused(d: Manifest, s: Spec, activation: Container, authorize: bool) {
    || (Installed(d) != "" && Installed(d) != s.activationId)
    || !Compatible(d, s)
    || (Installed(d) == "" && (HasActivation(d.initContainers) || Replicas(d) != 0))
    || (Installed(d) != "" && Authorized(d) != s.activationId && !Matches(d.initContainers, activation))
    || (Installed(d) != "" && !HasActivation(d.initContainers))
    || (!authorize && Authorized(d) != "" && !Done(d, s, authorize))
  }

  // Nothing is left to write.
  predicate Done(d: Manifest, s: Spec, authorize: bool) {
    && Installed(d) == s.activationId && HasActivation(d.initContainers) && d.replicas == Some(1)
    && (authorize ==> Authorized(d) == s.activationId)
  }

  function Updated(d: Manifest, s: Spec, activation: Container, authorize: bool): Manifest {
    d.(initContainers := if HasActivation(d.initContainers) then d.initContainers else d.initContainers + [activation],
       podAnnotations := With(d.podAnnotations, ACTIVATION_ANNOTATION, s.activationId),
       replicas := Some(1),
       annotations := if authorize then Without(With(d.annotations, ACTIVATION_ANNOTATION, s.activationId), PREWARM_ANNOTATION)
                      else With(d.annotations, PREWARM_ANNOTATION, s.activationId),
       labels := if authorize then Without(d.labels, PREWARM_LABEL) else With(d.labels, PREWARM_LABEL, "true"))
  }

  function UpdateTx(d: Manifest, s: Spec, authorize: bool): Result<Manifest> {
    var activation := ActivationContainer(s, ActivationProgram(s));
    if !ValidSpec(s) then Fail(Invalid)
    else if Refused(d, s, activation, authorize) then Fail(Conflict)
    else if Done(d, s, authorize) then Ok(d)
    else Ok(Updated(d, s, activation, authorize))
  }

  // The gate URL is what makes a prewarm one.
  function PrewarmTx(d: Manifest, s: Spec): Result<Manifest> {
    if s.gate.NoGate? then Fail(Invalid) else UpdateTx(d, s, false)
  }

  function ActivateTx(d: Manifest, s: Spec): Result<Manifest> { UpdateTx(d, s, true) }

  // The attempts the client makes before it gives up.
  const RETRIES := 5

  // The stored object and the answer after all attempts; each rival writes
  // between the reading and the writing of one of them.
  function Attempts(d: Manifest, rivals: seq<Manifest>, s: Spec, authorize: bool, left: nat): (Manifest, Result<()>)
    requires left > 0
    decreases left
  {
    var u := UpdateTx(d, s, authorize);
    if u.Fail? then (d, Fail(u.error))
    else if Done(d, s, authorize) then (d, Ok(()))
    else if rivals == [] then (u.value, Ok(()))
    else if left == 1 then (rivals[0], Fail(Conflict))
    else Attempts(rivals[0], rivals[1..], s, authorize, left - 1)
  }

  function OtherContainers(containers: seq<Container>): seq<Container> {
    if containers == [] then []
    else (if containers[0].name == ACTIVATION_CONTAINER then [] else [containers[0]]) + OtherContainers(containers[1..])
  }

  function CancelTx(d: Manifest, id: string): Manifest {
    if Authorized(d) != "" || Lookup(d.annotations, PREWARM_ANNOTATION) != id || Installed(d) != id then d
    else d.(initContainers := OtherContainers(d.initContainers),
            podAnnotations := Without(d.podAnnotations, ACTIVATION_ANNOTATION),
            annotations := Without(d.annotations, PREWARM_ANNOTATION),
            labels := Without(d.labels, PREWARM_LABEL),
            replicas := Some(0))
  }

  // Only an unauthorized Deployment that carries this very prewarm is cancelled.
  predicate Cancellable(d: Manifest, id: string) {
    Authorized(d) == "" && Lookup(d.annotations, PREWARM_ANNOTATION) == id && Installed(d) == id
  }

  // The same for a cancellation, whose write may lose to rivals too.
  function CancelAttempts(d: Manifest, rivals: seq<Manifest>, id: string, left: nat): (Manifest, Result<()>)
    requires left > 0
    decreases left
  {
    if !Cancellable(d, id) then (d, Ok(()))
    else if rivals == [] then (CancelTx(d, id), Ok(()))
    else if left == 1 then (rivals[0], Fail(Conflict))
    else CancelAttempts(rivals[0], rivals[1..], id, left - 1)
  }

  // ---- prewarm, cancel, activate ----

  lemma {:induction false} OthersAppend(containers: seq<Container>, activation: Container)
    requires !HasActivation(containers) && activation.name == ACTIVATION_CONTAINER
    ensures OtherContainers(containers + [activation]) == containers
  {
    if containers == [] {
      assert (containers + [activation])[1..] == [];
    } else {
      assert containers[0].name != ACTIVATION_CONTAINER;
      assert (containers + [activation])[1..] == containers[1..] + [activation];
      forall i | 0 <= i < |containers[1..]|
        ensures containers[1..][i].name != ACTIVATION_CONTAINER
      {
        assert containers[1..][i] == containers[i + 1];
      }
      OthersAppend(containers[1..], activation);
    }
  }

  predicate Neutral(d: Manifest) {
    && d.replicas == Some(0)
    && PREWARM_ANNOTATION !in Content(d.annotations) && PREWARM_LABEL !in Content(d.labels)
    && ACTIVATION_ANNOTATION !in Content(d.podAnnotations)
  }

  // Cancelling a prewarm restores the Deployment it prewarmed exactly, if that
  // Deployment carried none of the marks the prewarm leaves, and only then.
  lemma PrewarmThenCancel(d: Manifest, s: Spec)
    requires Installed(d) == "" && PrewarmTx(d, s).Ok?
    ensures Same(CancelTx(PrewarmTx(d, s).value, s.activationId), d) <==> Neutral(d)
    ensures Installed(CancelTx(PrewarmTx(d, s).value, s.activationId)) == ""
  {
    var activation := ActivationContainer(s, ActivationProgram(s));
    var d1 := PrewarmTx(d, s).value;
    assert !HasActivation(d.initContainers) && Authorized(d) == "";
    OthersAppend(d.initContainers, activation);
    assert d1 == Updated(d, s, activation, false);
    var d2 := CancelTx(d1, s.activationId);
    assert d2.initContainers == d.initContainers;
    assert Content(d2.annotations) == Content(d.annotations) - {PREWARM_ANNOTATION};
    assert Content(d2.labels) == Content(d.labels) - {PREWARM_LABEL};
    assert Content(d2.podAnnotations) == Content(d.podAnnotations) - {ACTIVATION_ANNOTATION};
    MinusIsSame(Content(d.annotations), PREWARM_ANNOTATION);
    MinusIsSame(Content(d.labels), PREWARM_LABEL);
    MinusIsSame(Content(d.podAnnotations), ACTIVATION_ANNOTATION);
  }

  lemma MinusIsSame(m: map<string, string>, key: string)
    ensures m - {key} == m <==> key !in m
  {
    if key in m {
      assert key !in m - {key};
    }
  }

  lemma UpdatedHasActivation(d: Manifest, s: Spec, authorize: bool)
    requires UpdateTx(d, s, authorize).Ok?
    ensures HasActivation(UpdateTx(d, s, authorize).value.initContainers)
    ensures Installed(UpdateTx(d, s, authorize).value) == s.activationId
    ensures Matches(d.initContainers, ActivationContainer(s, ActivationProgram(s))) ==>
      Matches(UpdateTx(d, s, authorize).value.initContainers, ActivationContainer(s, ActivationProgram(s)))
  {
    var activation := ActivationContainer(s, ActivationProgram(s));
    if !HasActivation(d.initContainers) {
      assert (d.initContainers + [activation])[|d.initContainers|] == activation;
    }
  }

  ghost predicate Updates(found: Manifest, s: Spec, authorize: bool, after: Manifest) { UpdateTx(found, s, authorize) == Ok(after) }

  // However many rivals there were: success means that the object now carries
  // this activation, and is the update of what was found last; a failure leaves
  // the object as somebody else wrote it.
  lemma {:induction false} AttemptsMean(d: Manifest, rivals: seq<Manifest>, s: Spec, authorize: bool, left: nat)
    requires left > 0
    ensures var (after, r) := Attempts(d, rivals, s, authorize, left);
      if r.Ok? then
        && Done(after, s, authorize)
        && exists found :: (found == d || found in rivals) && Updates(found, s, authorize, after)
      else after == d || after in rivals
    decreases left
  {
    var u := UpdateTx(d, s, authorize);
    if u.Fail? {
    } else if Done(d, s, authorize) || rivals == [] {
      UpdateIsDone(d, s, authorize);
      assert Updates(d, s, authorize, Attempts(d, rivals, s, authorize, left).0);
    } else if left > 1 {
      AttemptsMean(rivals[0], rivals[1..], s, authorize, left - 1);
      assert forall found :: found in rivals[1..] ==> found in rivals;
    }
  }

  // A cancellation that succeeds leaves no such prewarm, and touched only what
  // was found last; it never touches an authorized object, whoever authorized it.
  lemma {:induction false} CancelMeans(d: Manifest, rivals: seq<Manifest>, id: string, left: nat)
    requires left > 0 && id != ""
    ensures var (after, r) := CancelAttempts(d, rivals, id, left);
      if r.Ok? then !Cancellable(after, id) && exists found :: (found == d || found in rivals) && Cancels(found, id, after)
      else r == Fail(Conflict) && after in rivals
    decreases left
  {
    if !Cancellable(d, id) || rivals == [] {
      assert Cancels(d, id, CancelAttempts(d, rivals, id, left).0);
    } else if left > 1 {
      CancelMeans(rivals[0], rivals[1..], id, left - 1);
      assert forall found :: found in rivals[1..] ==> found in rivals;
    }
  }

  // With more attempts than rivals the update fails only where the object it found
  // last refuses it, and a cancellation not at all.
  lemma {:induction false} FewRivalsLose(d: Manifest, rivals: seq<Manifest>, s: Spec, authorize: bool, left: nat)
    requires |rivals| < left
    ensures var (after, r) := Attempts(d, rivals, s, authorize, left);
      r.Fail? ==> UpdateTx(after, s, authorize) == Fail(r.error)
    ensures CancelAttempts(d, rivals, s.activationId, left).1 == Ok(())
    decreases left
  {
    if rivals != [] {
      FewRivalsLose(rivals[0], rivals[1..], s, authorize, left - 1);
    }
  }

  // Four rivals are few: it takes five lost writes to give up.
  lemma FourRivalsLose(d: Manifest, rivals: seq<Manifest>, s: Spec, authorize: bool)
    requires |rivals| <= 4
    ensures var (after, r) := Attempts(d, rivals, s, authorize, RETRIES);
      r.Fail? ==> UpdateTx(after, s, authorize) == Fail(r.error)
    ensures CancelAttempts(d, rivals, s.activationId, RETRIES).1 == Ok(())
  {
    FewRivalsLose(d, rivals, s, authorize, RETRIES);
  }

  ghost predicate Cancels(found: Manifest, id: string, after: Manifest) {
    after == CancelTx(found, id) && (Authorized(found) != "" ==> after == found)
  }

  lemma UpdateIsDone(d: Manifest, s: Spec, authorize: bool)
    requires UpdateTx(d, s, authorize).Ok?
    ensures Done(UpdateTx(d, s, authorize).value, s, authorize)
  {
    UpdatedHasActivation(d, s, authorize);
  }

  // ---- what is written, entry by entry ----

  // The container an activation installs.
  predicate Wanted(c: Container, s: Spec) {
    && c.name == "vta-activate" && c.image == s.image && c.command == Shell(ActivationProgram(s)) && c.args == []
    && c.workingDir == "/work/vta" && c.env == [("NO_COLOR", "1"), ("CLICOLOR", "0")] && c.mounts == [("data", "/work/vta")]
  }

  // Apart from these keys the entries are the same.
  predicate SameBut(e: Entries, e': Entries, keys: set<string>) { Content(e') - keys == Content(e) - keys }

  predicate Unmarked(d: Manifest) {
    PREWARM_ANNOTATION !in Content(d.annotations) && PREWARM_LABEL !in Content(d.labels)
  }

  predicate MarkedFor(d: Manifest, id: string) {
    Lookup(d.annotations, PREWARM_ANNOTATION) == id && Lookup(d.labels, PREWARM_LABEL) == "true"
  }

  predicate NoActivation(containers: seq<Container>) {
    forall i :: 0 <= i < |containers| ==> containers[i].name != "vta-activate"
  }

  predicate AllWanted(containers: seq<Container>, s: Spec) {
    forall i :: 0 <= i < |containers| && containers[i].name == "vta-activate" ==> Wanted(containers[i], s)
  }

  // An update goes through if and only if the one container runs this image and
  // either nothing is installed, the Deployment is parked and, for a prewarm, not
  // authorized; or this very activation is, all its containers are as wanted or it
  // is authorized, and a prewarm of an authorized one finds it running.
  lemma UpdateGoesThroughIff(d: Manifest, s: Spec, authorize: bool)
    requires ValidSpec(s)
    ensures UpdateTx(d, s, authorize).Ok? <==>
      && |d.containers| == 1 && d.containers[0].name == "vta" && d.containers[0].image == s.image
      && if Installed(d) == "" then NoActivation(d.initContainers) && d.replicas in {None, Some(0)} && (authorize || Authorized(d) == "")
         else
           && Installed(d) == s.activationId && !NoActivation(d.initContainers)
           && (AllWanted(d.initContainers, s) || Authorized(d) == s.activationId)
           && (authorize || Authorized(d) == "" || d.replicas == Some(1))
  {
    var activation := ActivationContainer(s, ActivationProgram(s));
    assert AllWanted(d.initContainers, s) <==> Matches(d.initContainers, activation) by {
      assert forall i :: 0 <= i < |d.initContainers| && d.initContainers[i].name == "vta-activate" ==>
        (SameActivation(d.initContainers[i], activation) <==> Wanted(d.initContainers[i], s));
    }
  }

  // What is not done yet is written: the activation is installed with its own
  // container and runs. Authorizing takes both prewarm marks away, prewarming puts
  // both there; every other entry, and every container there was, stays.
  lemma UpdateWrites(d: Manifest, s: Spec, authorize: bool)
    requires UpdateTx(d, s, authorize).Ok? && !Done(d, s, authorize)
    ensures var d' := UpdateTx(d, s, authorize).value;
      && Installed(d') == s.activationId && d'.replicas == Some(1) && d'.containers == d.containers
      && SameBut(d.annotations, d'.annotations, {ACTIVATION_ANNOTATION, PREWARM_ANNOTATION})
      && SameBut(d.labels, d'.labels, {PREWARM_LABEL}) && SameBut(d.podAnnotations, d'.podAnnotations, {ACTIVATION_ANNOTATION})
      && (if authorize then Authorized(d') == s.activationId && Unmarked(d')
          else Authorized(d') == Authorized(d) == "" && MarkedFor(d', s.activationId))
      && (if NoActivation(d.initContainers)
          then |d'.initContainers| == |d.initContainers| + 1 && d'.initContainers[..|d.initContainers|] == d.initContainers
               && Wanted(d'.initContainers[|d.initContainers|], s)
          else d'.initContainers == d.initContainers)
  {
    var d' := UpdateTx(d, s, authorize).value;
    assert Content(d'.annotations) - {ACTIVATION_ANNOTATION, PREWARM_ANNOTATION} == Content(d.annotations) - {ACTIVATION_ANNOTATION, PREWARM_ANNOTATION};
  }

  // Done is what runs this activation already, and it stays as it is.
  lemma DoneStays(d: Manifest, s: Spec, authorize: bool)
    requires UpdateTx(d, s, authorize).Ok?
    ensures Done(d, s, authorize) <==>
      Installed(d) == s.activationId && d.replicas == Some(1) && (authorize ==> Authorized(d) == s.activationId)
    ensures Done(d, s, authorize) ==> UpdateTx(d, s, authorize).value == d
  {
  }

  // A cancellation takes the activation off a prewarmed and not authorized
  // Deployment and parks it, and leaves every other one alone.
  lemma CancelTakes(d: Manifest, id: string)
    requires id != ""
    ensures var d' := CancelTx(d, id);
      if Authorized(d) == "" && Lookup(d.annotations, PREWARM_ANNOTATION) == id && Installed(d) == id
      then
        && Unmarked(d') && ACTIVATION_ANNOTATION !in Content(d'.podAnnotations) && d'.replicas == Some(0) && d'.containers == d.containers
        && SameBut(d.annotations, d'.annotations, {PREWARM_ANNOTATION}) && SameBut(d.labels, d'.labels, {PREWARM_LABEL})
        && SameBut(d.podAnnotations, d'.podAnnotations, {ACTIVATION_ANNOTATION})
        && d'.initContainers == OtherContainers(d.initContainers)
      else d' == d
  {
  }

  // The filter goes container by container, and drops exactly the activation's.
  lemma {:induction false} OthersConcat(a: seq<Container>, b: seq<Container>)
    ensures OtherContainers(a + b) == OtherContainers(a) + OtherContainers(b)
  {
    if a == [] {
      assert a + b == b;
    } else {
      assert (a + b)[1..] == a[1..] + b;
      OthersConcat(a[1..], b);
    }
  }

  lemma OthersOfOne(c: Container)
    ensures OtherContainers([c]) == if c.name == "vta-activate" then [] else [c]
  {
    assert OtherContainers([c][1..]) == [];
  }

  // ---- prewarm, then activate ----

  // After a prewarm, the activation with the same spec always goes through, and
  // does not touch the pod: only the Deployment's own metadata changes. It ends
  // without either prewarm mark, unless it was authorized so before.
  lemma PrewarmThenActivate(d: Manifest, s: Spec)
    requires PrewarmTx(d, s).Ok?
    ensures ActivateTx(PrewarmTx(d, s).value, s).Ok?
    ensures var d1 := PrewarmTx(d, s).value; var d2 := ActivateTx(d1, s).value;
      && SameTemplate(d1, d2) && d2.replicas == d1.replicas == Some(1) && Authorized(d2) == s.activationId
      && (Unmarked(d2) <==> Authorized(d) != s.activationId || Unmarked(d))
  {
    var activation := ActivationContainer(s, ActivationProgram(s));
    UpdatedHasActivation(d, s, false);
    var d1 := PrewarmTx(d, s).value;
    if Installed(d) == "" {
      assert Matches(d.initContainers, activation);
    }
  }

  // Each operation done twice is done once.
  lemma UpdateIsIdempotent(d: Manifest, s: Spec, authorize: bool)
    requires UpdateTx(d, s, authorize).Ok?
    ensures UpdateTx(UpdateTx(d, s, authorize).value, s, authorize) == UpdateTx(d, s, authorize)
  {
    UpdatedHasActivation(d, s, authorize);
    if Installed(d) == "" {
      assert Matches(d.initContainers, ActivationContainer(s, ActivationProgram(s)));
    }
  }

  lemma CancelIsIdempotent(d: Manifest, id: string)
    requires id != ""
    ensures CancelTx(CancelTx(d, id), id) == CancelTx(d, id)
  {
  }

  // Once an activation is installed, a different one is always refused.
  lemma OtherActivationRefused(d: Manifest, s: Spec, authorize: bool, s': Spec, authorize': bool)
    requires UpdateTx(d, s, authorize).Ok? && ValidSpec(s') && s'.activationId != s.activationId
    ensures UpdateTx(UpdateTx(d, s, authorize).value, s', authorize') == Fail(Conflict)
  {
    UpdatedHasActivation(d, s, authorize);
  }

  // ---- authorization lasts ----

  // What is authorized is installed.
  predicate Coherent(d: Manifest) { Authorized(d) != "" ==> Authorized(d) == Installed(d) }

  datatype Change = Prewarm(spec: Spec) | Activate(spec: Spec) | Cancel(id: string) | Other(after: Manifest)

  // One change to the stored object. Other writers, the rollouts among them,
  // leave both activation annotations alone.
  predicate Changes(d: Manifest, c: Change, d': Manifest) {
    match c
    case Prewarm(s) => d' == if PrewarmTx(d, s).Ok? then PrewarmTx(d, s).value else d
    case Activate(s) => d' == if ActivateTx(d, s).Ok? then ActivateTx(d, s).value else d
    case Cancel(id) => d' == CancelTx(d, id)
    case Other(after) => d' == after && Installed(after) == Installed(d) && Authorized(after) == Authorized(d)
  }

  lemma ChangeKeepsAuthorization(d: Manifest, c: Change, d': Manifest)
    requires Coherent(d) && Changes(d, c, d')
    ensures Coherent(d')
    ensures Authorized(d) != "" ==> Authorized(d') == Authorized(d)
    ensures Authorized(d') != Authorized(d) ==> c.Activate? && Authorized(d') == c.spec.activationId
  {
    if c.Prewarm? && PrewarmTx(d, c.spec).Ok? {
      UpdatedHasActivation(d, c.spec, false);
    } else if c.Activate? && ActivateTx(d, c.spec).Ok? {
      UpdatedHasActivation(d, c.spec, true);
    }
  }

  ghost predicate ChangesAt(ds: seq<Manifest>, cs: seq<Change>, k: nat)
    requires k < |cs| < |ds|
  {
    Changes(ds[k], cs[k], ds[k + 1])
  }

  ghost predicate History(ds: seq<Manifest>, cs: seq<Change>) {
    |ds| == |cs| + 1 && Coherent(ds[0]) && forall k :: 0 <= k < |cs| ==> ChangesAt(ds, cs, k)
  }

  // Authorization is never undone, and never moves to another activation.
  lemma {:induction false} AuthorizationLasts(ds: seq<Manifest>, cs: seq<Change>, i: nat, j: nat)
    requires History(ds, cs) && i <= j < |ds|
    ensures Coherent(ds[j])
    ensures Authorized(ds[i]) != "" ==> Authorized(ds[j]) == Authorized(ds[i])
    decreases j
  {
    if i < j {
      AuthorizationLasts(ds, cs, i, j - 1);
      assert ChangesAt(ds, cs, j - 1);
      ChangeKeepsAuthorization(ds[j - 1], cs[j - 1], ds[j]);
    } else if j > 0 {
      AuthorizationLasts(ds, cs, j - 1, j - 1);
      assert ChangesAt(ds, cs, j - 1);
      ChangeKeepsAuthorization(ds[j - 1], cs[j - 1], ds[j]);
    }
  }

  // What the pool lists as a prewarm, to be looked after.
  predicate Listed(d: Manifest) { Lookup(d.labels, PREWARM_LABEL) == "true" && Lookup(d.annotations, PREWARM_ANNOTATION) != "" }

  predicate Marks(d: Manifest) { Authorized(d) != "" ==> Unmarked(d) }

  // Other writers put no prewarm mark on an authorized Deployment.
  predicate MarksKept(d: Manifest, c: Change) { c.Other? && Marks(d) ==> Marks(c.after) }

  lemma ChangeKeepsMarks(d: Manifest, c: Change, d': Manifest)
    requires Coherent(d) && Changes(d, c, d') && Marks(d) && MarksKept(d, c)
    ensures Marks(d')
  {
    match c
    case Prewarm(s) =>
      if PrewarmTx(d, s).Ok? && !Done(d, s, false) {
        UpdateWrites(d, s, false);
      }
    case Activate(s) =>
      if ActivateTx(d, s).Ok? && !Done(d, s, true) {
        UpdateWrites(d, s, true);
      }
    case _ =>
  }

  // So once a Deployment is authorized it is never listed again, over every history.
  lemma {:induction false} AuthorizedIsNotListed(ds: seq<Manifest>, cs: seq<Change>, i: nat)
    requires History(ds, cs) && i < |ds| && Marks(ds[0]) && forall k :: 0 <= k < |cs| ==> MarksKept(ds[k], cs[k])
    ensures Marks(ds[i])
    ensures Authorized(ds[i]) != "" ==> !Listed(ds[i])
  {
    if i > 0 {
      AuthorizedIsNotListed(ds, cs, i - 1);
      AuthorizationLasts(ds, cs, i - 1, i - 1);
      assert ChangesAt(ds, cs, i - 1);
      ChangeKeepsMarks(ds[i - 1], cs[i - 1], ds[i]);
    }
  }

  // ---- the object as the client edits it ----

  class Deployment {
    var annotations: Entries
    var labels: Entries
    var podAnnotations: Entries
    var initContainers: seq<Container>
    var containers: seq<Container>
    var replicas: Option<int>

    ghost function Value(): Manifest
      reads this
    {
      Manifest(annotations, labels, podAnnotations, initContainers, containers, replicas)
    }

    constructor (m: Manifest)
      ensures Value() == m
    {
      annotations, labels, podAnnotations := m.annotations, m.labels, m.podAnnotations;
      initContainers, containers, replicas := m.initContainers, m.containers, m.replicas;
    }

    // Edits the copy; an error leaves it half edited, and unsent.
    method Install(s: Spec, activation: Container, found: bool, authorize: bool) returns (r: Result<()>)
      requires found == HasActivation(initContainers)
      modifies this
      ensures r.Ok? <==> authorize || Authorized(old(Value())) == ""
      ensures r.Ok? ==> Value() == Updated(old(Value()), s, activation, authorize)
      ensures r.Fail? ==> r == Fail(Conflict)
    {
      var authorizedId := Lookup(annotations, ACTIVATION_ANNOTATION);
      if !found {
        initContainers := initContainers + [activation];
      }
      if annotations.None? {
        annotations := Some(map[]);
      }
      if podAnnotations.None? {
        podAnnotations := Some(map[]);
      }
      podAnnotations := Some(podAnnotations.value[ACTIVATION_ANNOTATION := s.activationId]);
      replicas := Some(1);
      if authorize {
        annotations := Some(annotations.value[ACTIVATION_ANNOTATION := s.activationId]);
        annotations := Without(annotations, PREWARM_ANNOTATION);
        labels := Without(labels, PREWARM_LABEL);
      } else {
        if authorizedId != "" {
          return Fail(Conflict);
        }
        annotations := Some(annotations.value[PREWARM_ANNOTATION := s.activationId]);
        if labels.None? {
          labels := Some(map[]);
        }
        labels := Some(labels.value[PREWARM_LABEL := "true"]);
      }
      r := Ok(());
    }

    // Filters the init containers in place, in order.
    method DropActivation()
      modifies this`initContainers
      ensures initContainers == OtherContainers(old(initContainers))
    {
      var filtered: seq<Container> := [];
      var i := 0;
      while i < |initContainers|
        invariant i <= |initContainers|
        invariant filtered + OtherContainers(initContainers[i..]) == OtherContainers(initContainers)
      {
        assert initContainers[i..][1..] == initContainers[i + 1..];
        if initContainers[i].name != ACTIVATION_CONTAINER {
          filtered := filtered + [initContainers[i]];
        }
        i := i + 1;
      }
      assert initContainers[i..] == [] && filtered + [] == filtered;
      initContainers := filtered;
    }
  }

  // The API server's copy. It refuses a write when somebody else wrote first:
  // `rivals` are the objects others write, one between the reading and the writing
  // of each attempt.
  class Cluster {
    var stored: Option<Manifest>

    // The activation containers found, or a mismatch.
    method FindActivation(d: Deployment, s: Spec, activation: Container, currentId: string,
        authorizedId: string) returns (found: bool, ok: bool)
      requires s.activationId != ""
      ensures found == HasActivation(d.initContainers) || !ok
      ensures ok <==> (HasActivation(d.initContainers) ==>
        (currentId != "" && Matches(d.initContainers, activation)) || (currentId == s.activationId && authorizedId == s.activationId))
    {
      found, ok := false, true;
      var i := 0;
      while i < |d.initContainers|
        invariant i <= |d.initContainers| && ok
        invariant found == HasActivation(d.initContainers[..i])
        invariant found ==> (currentId != "" && Matches(d.initContainers[..i], activation)) || (currentId == s.activationId && authorizedId == s.activationId)
      {
        var c := d.initContainers[i];
        ghost var before := d.initContainers[..i];
        assert d.initContainers[..i + 1] == before + [c];
        i := i + 1;
        if c.name != ACTIVATION_CONTAINER {
          continue;
        }
        found := true;
        assert d.initContainers[..i][i - 1] == c;
        if currentId == "" || !SameActivation(c, activation) {
          if currentId == s.activationId && authorizedId == s.activationId {
            continue;
          }
          ok := false;
          assert d.initContainers[i - 1] == c;
          return;
        }
      }
      assert d.initContainers[..i] == d.initContainers;
    }

    // Repeats an attempt that lost to a rival's write, on what the rival wrote.
    method UpdateParkedVtaDeployment(s: Spec, authorize: bool, rivals: seq<Manifest>) returns (r: Result<()>)
      modifies this
      ensures match old(stored)
        case None => stored == None && r == Fail(if ValidSpec(s) then NotFound else Invalid)
        case Some(d) => stored.Some? && (stored.value, r) == Attempts(d, rivals, s, authorize, RETRIES)
    {
      var command := VtaActivationCommand(s);
      if command.Fail? {
        return Fail(Invalid);
      }
      if stored.None? {
        return Fail(NotFound);
      }
      var left, i := RETRIES, 0;
      while true
        invariant stored.Some? && 0 < left && i <= |rivals|
        invariant Attempts(old(stored).value, rivals, s, authorize, RETRIES) == Attempts(stored.value, rivals[i..], s, authorize, left)
        decreases left
      {
        assert i == |rivals| ==> rivals[i..] == [];
        var again;
        r, again := TryUpdate(s, command.value, authorize, i == |rivals|);
        if !again {
          return;
        }
        stored := Some(rivals[i]);
        assert rivals[i..][1..] == rivals[i + 1..];
        i, left := i + 1, left - 1;
        if left == 0 {
          return;
        }
      }
    }

    // One attempt. A write the server does not accept is worth another.
    method TryUpdate(s: Spec, program: Program, authorize: bool, accepted: bool) returns (r: Result<()>, again: bool)
      requires stored.Some? && ValidSpec(s) && program == ActivationProgram(s)
      modifies this
      ensures var d := old(stored).value; var u := UpdateTx(d, s, authorize);
        && again == (u.Ok? && !Done(d, s, authorize) && !accepted)
        && stored == Some(if u.Ok? && !again then u.value else d)
        && r == (if u.Fail? then Fail(u.error) else if again then Fail(Conflict) else Ok(()))
    {
      again := false;
      var d := new Deployment(stored.value);
      var currentId, authorizedId := Lookup(d.podAnnotations, ACTIVATION_ANNOTATION), Lookup(d.annotations, ACTIVATION_ANNOTATION);
      if currentId != "" && currentId != s.activationId {
        return Fail(Conflict), false;
      }
      if |d.containers| != 1 || d.containers[0].name != "vta" || d.containers[0].image != s.image {
        return Fail(Conflict), false;
      }
      var activation := ActivationContainer(s, program);
      var found, ok := FindActivation(d, s, activation, currentId, authorizedId);
      if !ok || (currentId != "" && !found) {
        return Fail(Conflict), false;
      }
      var replicas := if d.replicas.Some? then d.replicas.value else 0;
      if currentId == "" && replicas != 0 {
        return Fail(Conflict), false;
      }
      if currentId == s.activationId && found && replicas == 1 && (!authorize || authorizedId == s.activationId) {
        return Ok(()), false;
      }
      r := d.Install(s, activation, found, authorize);
      if r.Fail? {
        return;
      }
      if !accepted {
        return Fail(Conflict), true;
      }
      stored := Some(Manifest(d.annotations, d.labels, d.podAnnotations, d.initContainers, d.containers, d.replicas));
      r := Ok(());
    }

    method CancelPoolPrewarm(id: string, rivals: seq<Manifest>) returns (r: Result<()>)
      modifies this
      ensures match old(stored)
        case None => stored == None && r == Fail(NotFound)
        case Some(d) => stored.Some? && (stored.value, r) == CancelAttempts(d, rivals, id, RETRIES)
    {
      if stored.None? {
        return Fail(NotFound);
      }
      var left, i := RETRIES, 0;
      while true
        invariant stored.Some? && 0 < left && i <= |rivals|
        invariant CancelAttempts(old(stored).value, rivals, id, RETRIES) == CancelAttempts(stored.value, rivals[i..], id, left)
        decreases left
      {
        assert i == |rivals| ==> rivals[i..] == [];
        var again := TryCancel(id, i == |rivals|);
        if !again {
          return Ok(());
        }
        stored := Some(rivals[i]);
        assert rivals[i..][1..] == rivals[i + 1..];
        i, left := i + 1, left - 1;
        if left == 0 {
          return Fail(Conflict);
        }
      }
    }

    method TryCancel(id: string, accepted: bool) returns (again: bool)
      requires stored.Some?
      modifies this
      ensures again == (Cancellable(old(stored).value, id) && !accepted)
      ensures stored == if again then old(stored) else Some(CancelTx(old(stored).value, id))
    {
      var d := new Deployment(stored.value);
      if Lookup(d.annotations, ACTIVATION_ANNOTATION) != "" {
        return false;
      }
      if Lookup(d.annotations, PREWARM_ANNOTATION) != id || Lookup(d.podAnnotations, ACTIVATION_ANNOTATION) != id {
        return false;
      }
      d.DropActivation();
      d.podAnnotations := Without(d.podAnnotations, ACTIVATION_ANNOTATION);
      d.annotations := Without(d.annotations, PREWARM_ANNOTATION);
      d.labels := Without(d.labels, PREWARM_LABEL);
      d.replicas := Some(0);
      if !accepted {
        return true;
      }
      stored := Some(Manifest(d.annotations, d.labels, d.podAnnotations, d.initContainers, d.containers, d.replicas));
      again := false;
    }

    method PoolActivationAuthorized(id: string) returns (r: Result<bool>)
      ensures r == if stored.Some? then Ok(Authorized(stored.value) == id) else Fail(NotFound)
    {
      if stored.None? {
        return Fail(NotFound);
      }
      r := Ok(Lookup(stored.value.annotations, ACTIVATION_ANNOTATION) == id);
    }
  }
}
