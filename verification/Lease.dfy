// The maintenance lease of one stack: an in-process lock per replica, a
// timestamp in the database, a registry state that outlives its request, and a
// registry worker that clears the timestamp.
module Lease {
  import opened Rows

  const STALE: Time := 900 * SECOND

  type OpId = nat
  type Replica = nat

  // A start time; the serial number says that no two are the same.
  datatype Stamp = Stamp(at: Time, serial: nat)

  datatype Registry = Disabled | Enabling | Active | Broken

  // Maintenance stops components; Enable asks for the registry; Worker sets it up.
  datatype Kind = Maintenance | Enable | Worker

  // A registry worker is still at work when it has written how its work ended:
  // after a failure it cleans up its jobs.
  datatype Phase =
    | Checked
    | Cleared
    | Locked
    | Leased(stamp: Stamp)
    | Working(stamp: Stamp)
    | Cleaning(stamp: Stamp)
    | Finishing(stamp: Stamp)
    | Unlocking

  datatype Op = Op(kind: Kind, replica: Replica, phase: Phase)

  datatype State = State(registry: Registry, lease: Option<Stamp>, held: set<Replica>, advisory: Option<OpId>,
                         ops: map<OpId, Op>, now: Time, serial: nat)

  // What an operation does at its next statement when it has a choice: give up
  // or go on, and how the work of a registry worker ends.
  datatype Choice = GiveUp | GoOn | Succeed | Fail

  datatype Event = Begin(id: OpId, kind: Kind, replica: Replica) | Advance(id: OpId, choice: Choice) | Crash(replica: Replica) | Tick

  // ---- the statements on the lease ----

  predicate Acquirable(lease: Option<Stamp>, now: Time) { lease.None? || lease.value.at <= now - STALE }

  // A release names its own timestamp.
  function LeaseReleased(lease: Option<Stamp>, stamp: Stamp): Option<Stamp> { if lease == Some(stamp) then None else lease }

  predicate Startable(registry: Registry) { registry.Disabled? || registry.Broken? }

  // ---- the steps ----

  function Move(s: State, id: OpId, phase: Phase): State
    requires id in s.ops
  {
    s.(ops := s.ops[id := s.ops[id].(phase := phase)])
  }

  // An operation that ends drops the advisory lock it may hold.
  function Gone(s: State, id: OpId): State {
    s.(ops := s.ops - {id}, advisory := if s.advisory == Some(id) then None else s.advisory)
  }

  function BeginStep(s: State, id: OpId, kind: Kind, replica: Replica): State {
    if id in s.ops then s
    else
      match kind
      case Maintenance => if s.registry.Enabling? then s else s.(ops := s.ops[id := Op(kind, replica, Checked)])
      case Enable => if Startable(s.registry) then s.(ops := s.ops[id := Op(kind, replica, Checked)]) else s
      case Worker =>
        if s.advisory.Some? || !s.registry.Enabling? then s
        else s.(ops := s.ops[id := Op(kind, replica, Checked)], advisory := Some(id))
  }

  function TryLockStep(s: State, id: OpId): State
    requires id in s.ops
  {
    if s.ops[id].replica in s.held then Gone(s, id) else Move(s, id, Locked).(held := s.held + {s.ops[id].replica})
  }

  function AcquireStep(s: State, id: OpId): State
    requires id in s.ops
  {
    if !Acquirable(s.lease, s.now) then Move(s, id, Unlocking)
    else
      var stamp := Stamp(s.now, s.serial);
      Move(s, id, if s.ops[id].kind.Worker? then Working(stamp) else Leased(stamp)).(lease := Some(stamp), serial := s.serial + 1)
  }

  // The recheck of a maintenance operation, and the compare-and-set of a
  // request to enable the registry.
  function LeasedStep(s: State, id: OpId, choice: Choice): State
    requires id in s.ops && s.ops[id].phase.Leased?
  {
    var stamp := s.ops[id].phase.stamp;
    if s.ops[id].kind.Maintenance? then Move(s, id, if s.registry.Enabling? then Finishing(stamp) else Working(stamp))
    else if choice.GoOn? && Startable(s.registry) then Move(s, id, Finishing(stamp)).(registry := Enabling)
    else Move(s, id, Finishing(stamp))
  }

  function FinishStep(s: State, id: OpId, choice: Choice): State
    requires id in s.ops && s.ops[id].phase.Working?
  {
    var stamp := s.ops[id].phase.stamp;
    if !s.ops[id].kind.Worker? then Move(s, id, Finishing(stamp))
    else
      match choice
      case Succeed => Move(s, id, Cleaning(stamp)).(registry := Active)
      case Fail => Move(s, id, Cleaning(stamp)).(registry := Broken)
      case _ => Move(s, id, Finishing(stamp))
  }

  function AdvanceStep(s: State, id: OpId, choice: Choice): State {
    if id !in s.ops then s
    else
      match s.ops[id].phase
      case Checked => if s.ops[id].kind.Worker? then Move(s, id, Cleared).(lease := None) else TryLockStep(s, id)
      case Cleared => TryLockStep(s, id)
      case Locked => AcquireStep(s, id)
      case Leased(_) => LeasedStep(s, id, choice)
      case Working(_) => FinishStep(s, id, choice)
      case Cleaning(stamp) => Move(s, id, Finishing(stamp))
      case Finishing(stamp) => Move(s, id, Unlocking).(lease := LeaseReleased(s.lease, stamp))
      case Unlocking => Gone(s, id).(held := s.held - {s.ops[id].replica})
  }

  // A replica takes its operations, its locks and its connections with it.
  function CrashStep(s: State, replica: Replica): State {
    s.(ops := map id | id in s.ops && s.ops[id].replica != replica :: s.ops[id],
       held := s.held - {replica},
       advisory := if s.advisory.Some? && s.advisory.value in s.ops && s.ops[s.advisory.value].replica == replica then None else s.advisory)
  }

  function Next(s: State, e: Event): State {
    match e
    case Begin(id, kind, replica) => BeginStep(s, id, kind, replica)
    case Advance(id, choice) => AdvanceStep(s, id, choice)
    case Crash(replica) => CrashStep(s, replica)
    case Tick => s.(now := s.now + 1)
  }

  function RunAll(s: State, events: seq<Event>): State
    decreases |events|
  {
    if events == [] then s else RunAll(Next(s, events[0]), events[1..])
  }

  // The next statement of an operation that has the lock takes the lease if there
  // is none, or one fifteen minutes old or older; by a younger one it ends.
  lemma LeaseTakenIff(s: State, id: OpId, choice: Choice)
    requires id in s.ops && s.ops[id].phase.Locked?
    ensures var s' := Next(s, Advance(id, choice));
      if s.lease == None || s.now - s.lease.value.at >= 900_000_000_000
      then
        && s'.lease == Some(Stamp(s.now, s.serial)) && s'.serial == s.serial + 1
        && id in s'.ops && s'.ops[id].phase == if s.ops[id].kind.Worker? then Working(s'.lease.value) else Leased(s'.lease.value)
      else s'.lease == s.lease && id in s'.ops && s'.ops[id].phase == Unlocking
  {
  }

  // A maintenance begins unless the registry is enabling, a request to enable only
  // while it is disabled or broken, and one worker at a time while it is enabling.
  lemma BeginsIff(s: State, id: OpId, kind: Kind, replica: Replica)
    requires id !in s.ops
    ensures var s' := Next(s, Begin(id, kind, replica));
      var begins :=
        if kind == Maintenance then s.registry != Enabling
        else if kind == Enable then s.registry in {Disabled, Broken}
        else s.registry == Enabling && s.advisory == None;
      s' == if begins then s.(ops := s.ops[id := Op(kind, replica, Checked)], advisory := if kind == Worker then Some(id) else s.advisory) else s
  {
  }

  // With its lease, a maintenance works unless the registry has come to be enabling,
  // and a request that goes on sets it to enabling only if it is still disabled or broken.
  lemma LeasedDecides(s: State, id: OpId, choice: Choice)
    requires id in s.ops && s.ops[id].phase.Leased?
    ensures var s', stamp := Next(s, Advance(id, choice)), s.ops[id].phase.stamp;
      var works := s.ops[id].kind == Maintenance && s.registry != Enabling;
      var enables := s.ops[id].kind != Maintenance && choice == GoOn && s.registry in {Disabled, Broken};
      && s'.lease == s.lease && s'.held == s.held && id in s'.ops
      && s'.ops[id].phase == (if works then Working(stamp) else Finishing(stamp))
      && s'.registry == (if enables then Enabling else s.registry)
  {
  }

  // The first statement of a registry worker clears any lease, and its last drops
  // only its own.
  lemma LeaseDropped(s: State, id: OpId, choice: Choice)
    requires id in s.ops
    ensures var s' := Next(s, Advance(id, choice));
      && (s.ops[id].phase.Checked? && s.ops[id].kind.Worker? ==> s'.lease == None)
      && (s.ops[id].phase.Finishing? ==> s'.lease == if s.lease == Some(s.ops[id].phase.stamp) then None else s.lease)
  {
  }

  // ---- what exclusion means ----

  predicate AtWork(s: State, id: OpId) { id in s.ops && (s.ops[id].phase.Working? || s.ops[id].phase.Cleaning?) }

  // No two operations are past their guard together.
  ghost predicate Exclusive(s: State) { forall a, b :: AtWork(s, a) && AtWork(s, b) ==> a == b }

  predicate MaintenanceAtWork(s: State, id: OpId) { AtWork(s, id) && s.ops[id].kind.Maintenance? }

  predicate Stamped(o: Op) { o.phase.Leased? || o.phase.Working? || o.phase.Cleaning? || o.phase.Finishing? }

  // Holders finish before their lease goes stale.
  ghost predicate Prompt(s: State) {
    forall id :: id in s.ops && Stamped(s.ops[id]) ==> s.now - STALE < s.ops[id].phase.stamp.at
  }

  // What the protocol leaves to luck: the recheck passes only while the lease
  // is still the operation's own, and the compare-and-set succeeds only while
  // no maintenance is past its recheck.
  ghost predicate Careful(s: State, e: Event) {
    e.Advance? && e.id in s.ops && s.ops[e.id].phase.Leased? ==>
      if s.ops[e.id].kind.Maintenance? then s.registry.Enabling? || s.lease == Some(s.ops[e.id].phase.stamp)
      else e.choice.GoOn? && Startable(s.registry) ==> forall m :: !MaintenanceAtWork(s, m)
  }

  // ---- the invariant of careful runs ----

  ghost predicate StampsOk(s: State) {
    && (s.lease.Some? ==> s.lease.value.serial < s.serial)
    && (forall id :: id in s.ops && Stamped(s.ops[id]) ==> s.ops[id].phase.stamp.serial < s.serial && s.ops[id].phase.stamp.at <= s.now)
    && (forall a, b :: a in s.ops && b in s.ops && a != b && Stamped(s.ops[a]) && Stamped(s.ops[b]) ==>
        s.ops[a].phase.stamp != s.ops[b].phase.stamp)
  }

  // One registry worker, and until it has written its outcome the registry is enabling.
  ghost predicate WorkersOk(s: State) {
    && (s.advisory.Some? ==> s.advisory.value in s.ops && s.ops[s.advisory.value].kind.Worker?)
    && forall id :: id in s.ops ==> WorkerOk(s, id, s.ops[id])
  }

  predicate WorkerOk(s: State, id: OpId, o: Op) {
    if o.kind.Worker?
    then
      && s.advisory == Some(id) && !o.phase.Leased?
      && (o.phase.Cleaning? || o.phase.Finishing? || o.phase.Unlocking? || s.registry.Enabling?)
    else !o.phase.Cleared? && !o.phase.Cleaning? && (o.kind.Enable? ==> !o.phase.Working?)
  }

  // Who is at work owns the lease; while it is a maintenance, nobody enables the registry.
  predicate OwnerOk(s: State, id: OpId)
    requires AtWork(s, id)
  {
    s.lease == Some(s.ops[id].phase.stamp) && (s.ops[id].kind.Maintenance? ==> !s.registry.Enabling?)
  }

  ghost predicate OwnersOk(s: State) { forall id :: AtWork(s, id) ==> OwnerOk(s, id) }

  predicate Locks(o: Op) { !o.phase.Checked? && !o.phase.Cleared? }

  // An in-process lock is held by one operation.
  ghost predicate LocksOk(s: State) {
    && (forall id :: id in s.ops && Locks(s.ops[id]) ==> s.ops[id].replica in s.held)
    && (forall a, b :: a in s.ops && b in s.ops && a != b && Locks(s.ops[a]) && Locks(s.ops[b]) ==> s.ops[a].replica != s.ops[b].replica)
  }

  ghost predicate Inv(s: State) { StampsOk(s) && WorkersOk(s) && OwnersOk(s) && LocksOk(s) }

  // A stamp in use in s or the one about to be drawn.
  predicate StampKept(s: State, s': State, id: OpId)
    requires id in s'.ops && Stamped(s'.ops[id])
  {
    || (id in s.ops && Stamped(s.ops[id]) && s'.ops[id].phase.stamp == s.ops[id].phase.stamp)
    || (id in s.ops && s.ops[id].phase.Locked? && s'.ops[id].phase.stamp == Stamp(s.now,
        s.serial) && s'.serial == s.serial + 1
        && forall b :: b in s'.ops && b != id ==> b in s.ops && s'.ops[b] == s.ops[b])
  }

  lemma StampsKept(s: State, e: Event)
    ensures var s' := Next(s, e);
      && s.serial <= s'.serial && s.now <= s'.now
      && (s'.lease.Some? ==> s'.lease == s.lease || (s'.lease.value == Stamp(s.now, s.serial) && s'.serial == s.serial + 1))
      && forall id :: id in s'.ops && Stamped(s'.ops[id]) ==> StampKept(s, s', id)
  {
  }

  lemma KeepsStamps(s: State, e: Event)
    requires StampsOk(s)
    ensures StampsOk(Next(s, e))
  {
    StampsKept(s, e);
    var s' := Next(s, e);
    forall a, b | a in s'.ops && b in s'.ops && a != b && Stamped(s'.ops[a]) && Stamped(s'.ops[b])
      ensures s'.ops[a].phase.stamp != s'.ops[b].phase.stamp
    {
      assert StampKept(s, s', a) && StampKept(s, s', b);
    }
    forall id | id in s'.ops && Stamped(s'.ops[id])
      ensures s'.ops[id].phase.stamp.serial < s'.serial && s'.ops[id].phase.stamp.at <= s'.now
    {
      assert StampKept(s, s', id);
    }
  }

  lemma KeepsWorkers(s: State, e: Event)
    requires WorkersOk(s)
    ensures WorkersOk(Next(s, e))
  {
  }

  lemma KeepsLocks(s: State, e: Event)
    requires LocksOk(s)
    ensures LocksOk(Next(s, e))
  {
  }

  // What a step of one operation does to one at work.
  lemma AdvanceKeepsOwner(s: State, e: Event, m: OpId)
    requires Inv(s) && Prompt(s) && Careful(s, e) && e.Advance? && e.id in s.ops && AtWork(Next(s, e), m)
    ensures OwnerOk(Next(s, e), m)
  {
    var o := s.ops[e.id];
    assert WorkerOk(s, e.id, o);
    if e.id != m {
      assert AtWork(s, m) && Next(s, e).ops[m] == s.ops[m] && OwnerOk(s, m) && WorkerOk(s, m, s.ops[m]);
      match o.phase
      case Checked => assert !o.kind.Worker?;
      case Locked => assert !Acquirable(s.lease, s.now);
      case Leased(_) => assert o.kind.Enable? && e.choice.GoOn? && Startable(s.registry) ==> !MaintenanceAtWork(s, m);
      case Finishing(stamp) => assert stamp != s.ops[m].phase.stamp;
      case _ =>
    } else {
      assert AtWork(s, m) ==> OwnerOk(s, m);
    }
  }

  lemma KeepsOwners(s: State, e: Event)
    requires Inv(s) && Prompt(s) && Careful(s, e)
    ensures OwnersOk(Next(s, e))
  {
    forall id | AtWork(Next(s, e), id)
      ensures OwnerOk(Next(s, e), id)
    {
      if e.Advance? && e.id in s.ops {
        AdvanceKeepsOwner(s, e, id);
      } else {
        assert AtWork(s, id) && OwnerOk(s, id);
      }
    }
  }

  lemma CarefulKeepsInv(s: State, e: Event)
    requires Inv(s) && Prompt(s) && Careful(s, e)
    ensures Inv(Next(s, e))
  {
    KeepsStamps(s, e);
    KeepsWorkers(s, e);
    KeepsOwners(s, e);
    KeepsLocks(s, e);
  }

  // The invariant is exclusion: two at work would own one lease.
  lemma InvIsExclusive(s: State)
    requires Inv(s)
    ensures Exclusive(s)
  {
    forall a, b | AtWork(s, a) && AtWork(s, b)
      ensures a == b
    {
      assert OwnerOk(s, a) && OwnerOk(s, b);
    }
  }

  // ---- careful runs ----

  ghost predicate StepAt(states: seq<State>, events: seq<Event>, k: nat)
    requires k < |events| < |states|
  {
    Prompt(states[k]) && Careful(states[k], events[k]) && states[k + 1] == Next(states[k], events[k])
  }

  ghost predicate CarefulRun(states: seq<State>, events: seq<Event>) {
    |states| == |events| + 1 && Inv(states[0]) && forall k :: 0 <= k < |events| ==> StepAt(states, events, k)
  }

  // Exclusion, over every careful run: the registry worker's clearing of the
  // lease, takeovers of stale leases, crashes and late releases included.
  lemma {:induction false} CarefulRunIsExclusive(states: seq<State>, events: seq<Event>, i: nat)
    requires CarefulRun(states, events) && i < |states|
    ensures Inv(states[i]) && Exclusive(states[i])
  {
    if i > 0 {
      CarefulRunIsExclusive(states, events, i - 1);
      assert StepAt(states, events, i - 1);
      CarefulKeepsInv(states[i - 1], events[i - 1]);
    }
    InvIsExclusive(states[i]);
  }

  // An operation that goes on only while the lease still carries its own
  // timestamp is careful: this is what it could check.
  lemma OwnLeaseIsCareful(s: State, id: OpId, choice: Choice)
    requires Inv(s) && id in s.ops && s.ops[id].phase.Leased? && s.lease == Some(s.ops[id].phase.stamp)
    ensures Careful(s, Advance(id, choice))
  {
    forall m | MaintenanceAtWork(s, m)
      ensures m == id
    {
      assert OwnerOk(s, m);
    }
  }

  lemma {:induction false} RunKeepsStamps(s: State, events: seq<Event>)
    requires StampsOk(s)
    ensures StampsOk(RunAll(s, events))
    decreases |events|
  {
    if events != [] {
      KeepsStamps(s, events[0]);
      RunKeepsStamps(Next(s, events[0]), events[1..]);
    }
  }

  // Over every run, careful or not, a late release frees nobody else's lease.
  lemma LateReleaseFreesNobody(s: State, events: seq<Event>, id: OpId, choice: Choice, other: OpId)
    requires StampsOk(s)
    requires var t := RunAll(s, events); id in t.ops && t.ops[id].phase.Finishing? && other in t.ops && other != id
    requires var t := RunAll(s, events); Stamped(t.ops[other]) && t.lease == Some(t.ops[other].phase.stamp)
    ensures RunAll(s, events + [Advance(id, choice)]).lease == RunAll(s, events).lease
  {
    RunKeepsStamps(s, events);
    RunSnoc(s, events, Advance(id, choice));
    var t := RunAll(s, events);
    assert t.ops[id].phase.stamp != t.ops[other].phase.stamp;
  }

  // ---- without that care exclusion fails ----

  lemma {:induction false} RunSnoc(s: State, events: seq<Event>, e: Event)
    ensures RunAll(s, events + [e]) == Next(RunAll(s, events), e)
    decreases |events|
  {
    if events == [] {
      assert events + [e] == [e];
    } else {
      assert (events + [e])[1..] == events[1..] + [e];
      RunSnoc(Next(s, events[0]), events[1..], e);
    }
  }

  // Time stands still and nobody crashes.
  predicate Calm(e: Event) { !e.Tick? && !e.Crash? }

  // A run from s that starts with e and is careful ever after.
  ghost predicate Continues(s: State, e: Event, events: seq<Event>) {
    && |events| > 0 && events[0] == e
    && (forall k :: 0 <= k < |events| ==> Calm(events[k]))
    && forall k :: 1 <= k < |events| ==> CarefulAt(s, events, k)
  }

  ghost predicate CarefulAt(s: State, events: seq<Event>, k: nat)
    requires k < |events|
  {
    Careful(RunAll(s, events[..k]), events[k])
  }

  lemma First(s: State, e: Event) returns (events: seq<Event>)
    requires Calm(e)
    ensures events == [e] && Continues(s, e, events) && RunAll(s, events) == Next(s, e)
  {
    events := [e];
    assert events[1..] == [];
  }

  // One more careful step.
  lemma Do(s: State, e0: Event, events: seq<Event>, e: Event) returns (events': seq<Event>)
    requires Continues(s, e0, events) && Calm(e) && Careful(RunAll(s, events), e)
    ensures events' == events + [e] && Continues(s, e0, events') && RunAll(s, events') == Next(RunAll(s, events), e)
  {
    RunSnoc(s, events, e);
    events' := events + [e];
    forall k | 1 <= k < |events'|
      ensures CarefulAt(s, events', k)
    {
      if k < |events| {
        assert events'[..k] == events[..k] && CarefulAt(s, events, k);
      } else {
        assert events'[..k] == events;
      }
    }
  }

  lemma {:induction false} FreshNat(s: set<nat>) returns (n: nat)
    ensures forall x :: x in s ==> x < n
    decreases |s|
  {
    if s == {} {
      return 0;
    }
    var x :| x in s;
    n := FreshNat(s - {x});
    n := if x < n then n else x + 1;
    assert forall y :: y in s ==> y == x || y in s - {x};
  }

  // With the lease free and the registry quiet, another maintenance starts
  // beside the one at work.
  lemma AnotherMaintenanceStarts(s: State, e: Event, events: seq<Event>, id: OpId) returns (events': seq<Event>)
    requires Continues(s, e, events)
    requires var r := RunAll(s, events); AtWork(r, id) && r.lease.None? && !r.registry.Enabling?
    ensures Continues(s, e, events') && !Exclusive(RunAll(s, events'))
  {
    var r := RunAll(s, events);
    var x := FreshNat(r.ops.Keys);
    var replica := FreshNat(r.held);
    events' := Do(s, e, events, Begin(x, Maintenance, replica));
    events' := Do(s, e, events', Advance(x, GoOn));
    events' := Do(s, e, events', Advance(x, GoOn));
    events' := Do(s, e, events', Advance(x, GoOn));
    var last := RunAll(s, events');
    assert AtWork(last, x) && AtWork(last, id) && x != id;
  }

  // With the registry enabling and no worker about, one starts, whatever else
  // is at work: it clears the lease first.
  lemma WorkerStarts(s: State, e: Event, events: seq<Event>, id: OpId) returns (events': seq<Event>)
    requires Continues(s, e, events)
    requires var r := RunAll(s, events); AtWork(r, id) && r.advisory.None? && r.registry.Enabling?
    ensures Continues(s, e, events') && !Exclusive(RunAll(s, events'))
  {
    var r := RunAll(s, events);
    var x := FreshNat(r.ops.Keys);
    var replica := FreshNat(r.held);
    events' := Do(s, e, events, Begin(x, Worker, replica));
    events' := Do(s, e, events', Advance(x, GoOn));
    events' := Do(s, e, events', Advance(x, GoOn));
    events' := Do(s, e, events', Advance(x, GoOn));
    var last := RunAll(s, events');
    assert AtWork(last, x) && AtWork(last, id) && x != id;
  }

  ghost predicate HolderAlive(s: State) {
    s.lease.Some? ==> exists y :: y in s.ops && Stamped(s.ops[y]) && s.ops[y].phase.stamp == s.lease.value
  }

  // A recheck that passes although the lease is no longer the operation's own
  // lets two operations work together.
  lemma CarelessRecheckBreaks(s: State, id: OpId) returns (events: seq<Event>)
    requires Inv(s) && HolderAlive(s)
    requires id in s.ops && s.ops[id].kind.Maintenance? && s.ops[id].phase.Leased? && !s.registry.Enabling?
    requires s.lease != Some(s.ops[id].phase.stamp)
    ensures Continues(s, Advance(id, GoOn), events) && !Exclusive(RunAll(s, events))
  {
    var e := Advance(id, GoOn);
    events := First(s, e);
    assert AtWork(RunAll(s, events), id);
    if s.lease.Some? {
      var y :| y in s.ops && Stamped(s.ops[y]) && s.ops[y].phase.stamp == s.lease.value;
      assert WorkerOk(s, y, s.ops[y]) && y != id;
      if AtWork(s, y) || (s.ops[y].kind.Maintenance? && s.ops[y].phase.Leased?) {
        if s.ops[y].phase.Leased? {
          events := Do(s, e, events, Advance(y, GoOn));
        }
        assert AtWork(RunAll(s, events), y) && AtWork(RunAll(s, events), id);
        return;
      }
      if s.ops[y].phase.Leased? {
        events := Do(s, e, events, Advance(y, GiveUp));
      }
      events := Do(s, e, events, Advance(y, GoOn));
    }
    events := AnotherMaintenanceStarts(s, e, events, id);
  }

  // A compare-and-set beside a maintenance at work does the same, through the
  // registry worker that clears the lease.
  lemma CarelessEnableBreaks(s: State, id: OpId, m: OpId) returns (events: seq<Event>)
    requires Inv(s) && id in s.ops && s.ops[id].kind.Enable? && s.ops[id].phase.Leased? && Startable(s.registry)
    requires MaintenanceAtWork(s, m)
    ensures s.lease != Some(s.ops[id].phase.stamp)
    ensures Continues(s, Advance(id, GoOn), events) && !Exclusive(RunAll(s, events))
  {
    var e := Advance(id, GoOn);
    assert s.ops[id].phase.stamp != s.ops[m].phase.stamp && OwnerOk(s, m);
    InvIsExclusive(s);
    events := First(s, e);
    if s.advisory.Some? {
      var w := s.advisory.value;
      assert WorkerOk(s, w, s.ops[w]) && !AtWork(s, w);
      if s.ops[w].phase.Finishing? {
        events := Do(s, e, events, Advance(w, GoOn));
      }
      events := Do(s, e, events, Advance(w, GoOn));
    }
    events := WorkerStarts(s, e, events, m);
  }

  lemma CalmKeepsPrompt(s: State, e: Event)
    requires Prompt(s) && Calm(e)
    ensures Prompt(Next(s, e))
  {
    StampsKept(s, e);
    var s' := Next(s, e);
    forall id | id in s'.ops && Stamped(s'.ops[id])
      ensures s'.now - STALE < s'.ops[id].phase.stamp.at
    {
      assert StampKept(s, s', id);
    }
  }

  lemma {:induction false} ContinuationKeeps(s: State, e: Event, events: seq<Event>, k: nat)
    requires Inv(s) && Prompt(s) && Careful(s, e) && Continues(s, e, events) && k <= |events|
    ensures var r := RunAll(s, events[..k]); Inv(r) && Prompt(r)
  {
    if k > 0 {
      ContinuationKeeps(s, e, events, k - 1);
      RunSnoc(s, events[..k - 1], events[k - 1]);
      assert events[..k] == events[..k - 1] + [events[k - 1]];
      assert k - 1 > 0 ==> CarefulAt(s, events, k - 1);
      assert k == 1 ==> events[..k - 1] == [];
      CarefulKeepsInv(RunAll(s, events[..k - 1]), events[k - 1]);
      CalmKeepsPrompt(RunAll(s, events[..k - 1]), events[k - 1]);
    }
  }

  lemma CarefulStartIsSafe(s: State, e: Event, events: seq<Event>)
    requires Inv(s) && Prompt(s) && Careful(s, e) && Continues(s, e, events)
    ensures Exclusive(RunAll(s, events))
  {
    ContinuationKeeps(s, e, events, |events|);
    assert events[..|events|] == events;
    InvIsExclusive(RunAll(s, events));
  }

  ghost predicate LeadsToTwo(s: State, e: Event, events: seq<Event>) { Continues(s, e, events) && !Exclusive(RunAll(s,
      events)) }

  // The exact condition, for the recheck: letting it pass can lead to two
  // operations at work, with every later step careful, if and only if the lease
  // no longer carries the operation's timestamp. The recheck as written looks
  // at the registry state only.
  lemma RecheckIsSafeIff(s: State, id: OpId)
    requires Inv(s) && Prompt(s) && HolderAlive(s)
    requires id in s.ops && s.ops[id].kind.Maintenance? && s.ops[id].phase.Leased? && !s.registry.Enabling?
    ensures (exists events :: LeadsToTwo(s, Advance(id, GoOn), events)) <==> s.lease != Some(s.ops[id].phase.stamp)
  {
    var e := Advance(id, GoOn);
    if s.lease != Some(s.ops[id].phase.stamp) {
      var events := CarelessRecheckBreaks(s, id);
      assert LeadsToTwo(s, e, events);
    } else {
      forall events | Continues(s, e, events)
        ensures !LeadsToTwo(s, e, events)
      {
        CarefulStartIsSafe(s, e, events);
      }
    }
  }

  // And for the compare-and-set: if and only if a maintenance is at work, which
  // is never so while the request still owns the lease.
  lemma EnableIsSafeIff(s: State, id: OpId)
    requires Inv(s) && Prompt(s)
    requires id in s.ops && s.ops[id].kind.Enable? && s.ops[id].phase.Leased? && Startable(s.registry)
    ensures (exists events :: LeadsToTwo(s, Advance(id, GoOn), events)) <==> exists m :: MaintenanceAtWork(s, m)
    ensures s.lease == Some(s.ops[id].phase.stamp) ==> !exists events :: LeadsToTwo(s, Advance(id, GoOn), events)
  {
    var e := Advance(id, GoOn);
    if m :| MaintenanceAtWork(s, m) {
      var events := CarelessEnableBreaks(s, id, m);
      assert LeadsToTwo(s, e, events);
    } else {
      forall events | Continues(s, e, events)
        ensures !LeadsToTwo(s, e, events)
      {
        CarefulStartIsSafe(s, e, events);
      }
    }
  }

  // ---- both weak points can be reached ----

  const START: State := State(Disabled, None, {}, None, map[], 0, 0)

  // A request on replica `id` goes all the way; x has only passed its check.
  lemma RequestEnables(e: Event, events: seq<Event>, id: OpId, x: OpId, o: Op) returns (events': seq<Event>)
    requires Continues(START, e, events) && id != x && o.phase.Checked?
    requires RunAll(START, events) == State(Disabled, None, {}, None, map[id := Op(Enable, id, Checked), x := o], 0, 0)
    ensures Continues(START, e, events')
    ensures RunAll(START, events') == State(Enabling, None, {}, None, map[x := o], 0, 1)
  {
    events' := RequestLeases(e, events, id, x, o);
    var stamp := Stamp(0, 0);
    events' := Do(START, e, events', Advance(id, GoOn));
    assert RunAll(START, events') == State(Enabling, Some(stamp), {id}, None, map[id := Op(Enable, id, Finishing(stamp)), x := o], 0, 1);
    events' := Do(START, e, events', Advance(id, GoOn));
    events' := Do(START, e, events', Advance(id, GoOn));
    assert RunAll(START, events').ops == map[x := o] && RunAll(START, events').held == {};
  }

  lemma RequestLeases(e: Event, events: seq<Event>, id: OpId, x: OpId, o: Op) returns (events': seq<Event>)
    requires Continues(START, e, events) && id != x && o.phase.Checked?
    requires RunAll(START, events) == State(Disabled, None, {}, None, map[id := Op(Enable, id, Checked), x := o], 0, 0)
    ensures Continues(START, e, events')
    ensures RunAll(START, events') == State(Disabled, Some(Stamp(0, 0)), {id}, None, map[id := Op(Enable, id, Leased(Stamp(0, 0))), x := o], 0, 1)
  {
    events' := Do(START, e, events, Advance(id, GoOn));
    assert RunAll(START, events') == State(Disabled, None, {id}, None, map[id := Op(Enable, id, Locked), x := o], 0, 0);
    events' := Do(START, e, events', Advance(id, GoOn));
  }

  // x takes lock and lease.
  lemma TakesLease(e: Event, events: seq<Event>, x: OpId, kind: Kind) returns (events': seq<Event>)
    requires Continues(START, e, events) && !kind.Worker?
    requires RunAll(START, events) == State(Enabling, None, {}, None, map[x := Op(kind, x, Checked)], 0, 1)
    ensures Continues(START, e, events')
    ensures RunAll(START, events') == State(Enabling, Some(Stamp(0, 1)), {x}, None, map[x := Op(kind, x, Leased(Stamp(0, 1)))], 0, 2)
  {
    events' := Do(START, e, events, Advance(x, GoOn));
    assert RunAll(START, events') == State(Enabling, None, {x}, None, map[x := Op(kind, x, Locked)], 0, 1);
    events' := Do(START, e, events', Advance(x, GoOn));
  }

  // A worker comes and clears the lease of x,
  lemma WorkerComes(e: Event, events: seq<Event>, x: OpId, o: Op) returns (events': seq<Event>)
    requires Continues(START, e, events) && x != 3
    requires RunAll(START, events) == State(Enabling, Some(Stamp(0, 1)), {x}, None, map[x := o], 0, 2)
    ensures Continues(START, e, events')
    ensures RunAll(START, events') == State(Enabling, None, {x, 3}, Some(3), map[x := o, 3 := Op(Worker, 3, Locked)], 0, 2)
  {
    events' := Do(START, e, events, Begin(3, Worker, 3));
    events' := Do(START, e, events', Advance(3, GoOn));
    assert RunAll(START, events') == State(Enabling, None, {x}, Some(3), map[x := o, 3 := Op(Worker, 3, Cleared)], 0, 2);
    events' := Do(START, e, events', Advance(3, GoOn));
  }

  // works, fails, cleans up,
  lemma WorkerFails(e: Event, events: seq<Event>, x: OpId, o: Op) returns (events': seq<Event>)
    requires Continues(START, e, events) && x != 3
    requires RunAll(START, events) == State(Enabling, None, {x, 3}, Some(3), map[x := o, 3 := Op(Worker, 3, Locked)], 0, 2)
    ensures Continues(START, e, events')
    ensures RunAll(START, events') == State(Broken, Some(Stamp(0, 2)), {x, 3}, Some(3), map[x := o, 3 := Op(Worker, 3, Finishing(Stamp(0, 2)))], 0, 3)
  {
    events' := Do(START, e, events, Advance(3, GoOn));
    assert RunAll(START, events') == State(Enabling, Some(Stamp(0, 2)), {x, 3}, Some(3), map[x := o, 3 := Op(Worker, 3, Working(Stamp(0, 2)))], 0, 3);
    events' := Do(START, e, events', Advance(3, Choice.Fail));
    assert RunAll(START, events') == State(Broken, Some(Stamp(0, 2)), {x, 3}, Some(3), map[x := o, 3 := Op(Worker, 3, Cleaning(Stamp(0, 2)))], 0, 3);
    events' := Do(START, e, events', Advance(3, GoOn));
  }

  // and leaves.
  lemma WorkerComesAndGoes(e: Event, events: seq<Event>, x: OpId, o: Op) returns (events': seq<Event>)
    requires Continues(START, e, events) && x != 3
    requires RunAll(START, events) == State(Enabling, Some(Stamp(0, 1)), {x}, None, map[x := o], 0, 2)
    ensures Continues(START, e, events')
    ensures RunAll(START, events') == State(Broken, None, {x}, None, map[x := o], 0, 3)
  {
    events' := WorkerComes(e, events, x, o);
    events' := WorkerFails(e, events', x, o);
    events' := Do(START, e, events', Advance(3, GoOn));
    events' := Do(START, e, events', Advance(3, GoOn));
    assert RunAll(START, events').ops == map[x := o] && RunAll(START, events').held == {x};
  }

  lemma StartKeeps(e: Event, events: seq<Event>)
    requires Continues(START, e, events) && Careful(START, e)
    ensures Inv(RunAll(START, events)) && Prompt(RunAll(START, events))
  {
    ContinuationKeeps(START, e, events, |events|);
    assert events[..|events|] == events;
  }

  // A request enables the registry while a maintenance waits between its first
  // check and its lease; the worker clears that lease, fails and leaves, all
  // before the maintenance rechecks: nothing tells it that the lease is gone.
  lemma RecheckExposed() returns (events: seq<Event>)
    ensures Continues(START, Begin(1, Maintenance, 1), events)
    ensures var s := RunAll(START, events);
      && Inv(s) && Prompt(s) && HolderAlive(s)
      && 1 in s.ops && s.ops[1].kind.Maintenance? && s.ops[1].phase.Leased? && !s.registry.Enabling?
      && s.lease != Some(s.ops[1].phase.stamp)
  {
    var e := Begin(1, Maintenance, 1);
    events := First(START, e);
    events := Do(START, e, events, Begin(2, Enable, 2));
    assert RunAll(START, events) == State(Disabled, None, {}, None, map[2 := Op(Enable, 2, Checked), 1 := Op(Maintenance, 1, Checked)], 0, 0);
    events := RequestEnables(e, events, 2, 1, Op(Maintenance, 1, Checked));
    events := TakesLease(e, events, 1, Maintenance);
    events := WorkerComesAndGoes(e, events, 1, Op(Maintenance, 1, Leased(Stamp(0, 1))));
    StartKeeps(e, events);
  }

  // Two requests pass their check together. The second takes the lease after
  // the first let it go, loses it to the worker, and sets the registry to
  // enabling when a maintenance is already at work.
  lemma EnableExposed() returns (events: seq<Event>)
    ensures Continues(START, Begin(1, Enable, 1), events)
    ensures var s := RunAll(START, events);
      && Inv(s) && Prompt(s) && MaintenanceAtWork(s, 4)
      && 2 in s.ops && s.ops[2].kind.Enable? && s.ops[2].phase.Leased? && Startable(s.registry)
  {
    var e := Begin(1, Enable, 1);
    events := First(START, e);
    events := Do(START, e, events, Begin(2, Enable, 2));
    assert RunAll(START, events) == State(Disabled, None, {}, None, map[1 := Op(Enable, 1, Checked), 2 := Op(Enable, 2, Checked)], 0, 0);
    events := RequestEnables(e, events, 1, 2, Op(Enable, 2, Checked));
    events := TakesLease(e, events, 2, Enable);
    var second := Op(Enable, 2, Leased(Stamp(0, 1)));
    events := WorkerComesAndGoes(e, events, 2, second);
    events := Do(START, e, events, Begin(4, Maintenance, 4));
    events := Do(START, e, events, Advance(4, GoOn));
    assert RunAll(START, events) == State(Broken, None, {2, 4}, None, map[2 := second, 4 := Op(Maintenance, 4, Locked)], 0, 3);
    events := Do(START, e, events, Advance(4, GoOn));
    var stamp := Stamp(0, 3);
    assert RunAll(START, events) == State(Broken, Some(stamp), {2, 4}, None, map[2 := second, 4 := Op(Maintenance, 4, Leased(stamp))], 0, 4);
    events := Do(START, e, events, Advance(4, GoOn));
    StartKeeps(e, events);
  }

  // So mutual exclusion, as the code stands, fails.
  lemma ExclusionFails() returns (s: State, recheck: seq<Event>, s': State, enable: seq<Event>)
    ensures LeadsToTwo(s, Advance(1, GoOn), recheck) && LeadsToTwo(s', Advance(2, GoOn), enable)
    ensures exists events :: Continues(START, Begin(1, Maintenance, 1), events) && RunAll(START, events) == s
    ensures exists events :: Continues(START, Begin(1, Enable, 1), events) && RunAll(START, events) == s'
  {
    var events := RecheckExposed();
    s := RunAll(START, events);
    recheck := CarelessRecheckBreaks(s, 1);
    var others := EnableExposed();
    s' := RunAll(START, others);
    enable := CarelessEnableBreaks(s', 2, 4);
  }

  // ---- the lock, the lease and their compositions ----

  // The in-process lock: the sessions under maintenance in this replica.
  class AclJobLockSet {
    var held: set<SessionId>

    constructor ()
      ensures held == {}
    {
      held := {};
    }

    method TryLock(sid: SessionId) returns (ok: bool)
      modifies this
      ensures ok <==> sid !in old(held)
      ensures held == old(held) + {sid}
    {
      if sid in held {
        return false;
      }
      held := held + {sid};
      ok := true;
    }

    method Unlock(sid: SessionId)
      modifies this
      ensures held == old(held) - {sid}
    {
      held := held - {sid};
    }
  }

  // vta_acl_snapshots.maintenance_started_at and setup_sessions.trust_registry_state.
  class Stacks {
    var leases: map<SessionId, Option<Stamp>>
    var registries: map<SessionId, Registry>

    function LeaseOf(sid: SessionId): Option<Stamp>
      reads this
    {
      if sid in leases then leases[sid] else None
    }

    method AcquireVtaAclMaintenance(sid: SessionId, stamp: Stamp) returns (ok: bool)
      modifies this`leases
      ensures ok <==> old(LeaseOf(sid)).None? || stamp.at - old(LeaseOf(sid)).value.at >= 900_000_000_000
      ensures leases == if ok then old(leases)[sid := Some(stamp)] else old(leases)
    {
      if sid in leases && leases[sid].Some? && leases[sid].value.at > stamp.at - STALE {
        return false;
      }
      leases := leases[sid := Some(stamp)];
      ok := true;
    }

    method ReleaseVtaAclMaintenance(sid: SessionId, stamp: Stamp)
      modifies this`leases
      ensures LeaseOf(sid) == LeaseReleased(old(LeaseOf(sid)), stamp)
      ensures forall t :: t != sid ==> LeaseOf(t) == old(LeaseOf(t))
    {
      if sid in leases && leases[sid] == Some(stamp) {
        leases := leases[sid := None];
      }
    }

    // All or nothing: the lock and the lease, or neither.
    method AcquireStackMaintenance(locks: AclJobLockSet, sid: SessionId, stamp: Stamp) returns (ok: bool)
      modifies this`leases, locks
      ensures ok <==> sid !in old(locks.held) && Acquirable(old(LeaseOf(sid)), stamp.at)
      ensures ok ==> LeaseOf(sid) == Some(stamp) && locks.held == old(locks.held) + {sid}
      ensures !ok ==> leases == old(leases) && locks.held == old(locks.held)
    {
      var locked := locks.TryLock(sid);
      if !locked {
        return false;
      }
      var leased := AcquireVtaAclMaintenance(sid, stamp);
      if !leased {
        locks.Unlock(sid);
        return false;
      }
      ok := true;
    }

    method ReleaseStackMaintenance(locks: AclJobLockSet, sid: SessionId, stamp: Stamp)
      modifies this`leases, locks
      ensures LeaseOf(sid) == LeaseReleased(old(LeaseOf(sid)), stamp) && locks.held == old(locks.held) - {sid}
    {
      ReleaseVtaAclMaintenance(sid, stamp);
      locks.Unlock(sid);
    }

    // `again` is what the second read of the registry state finds.
    method AcquireSessionMaintenance(locks: AclJobLockSet, sid: SessionId, stamp: Stamp,
        again: Registry) returns (r: Result<Stamp>)
      modifies this`leases, locks
      ensures r.Ok? <==> sid in registries && !registries[sid].Enabling? && !again.Enabling?
                         && sid !in old(locks.held) && Acquirable(old(LeaseOf(sid)), stamp.at)
      ensures r.Ok? ==> r.value == stamp && LeaseOf(sid) == Some(stamp) && locks.held == old(locks.held) + {sid}
      ensures r.Fail? ==> locks.held == old(locks.held) && r.error == if sid in registries then Conflict else NotFound
      ensures r.Fail? ==>
        var taken := sid in registries && !registries[sid].Enabling? && sid !in old(locks.held) && Acquirable(old(LeaseOf(sid)), stamp.at);
        LeaseOf(sid) == if taken then None else old(LeaseOf(sid))
    {
      if sid !in registries {
        return Result.Fail(NotFound);
      }
      if registries[sid].Enabling? {
        return Result.Fail(Conflict);
      }
      var ok := AcquireStackMaintenance(locks, sid, stamp);
      if !ok {
        return Result.Fail(Conflict);
      }
      if again.Enabling? {
        ReleaseStackMaintenance(locks, sid, stamp);
        return Result.Fail(Conflict);
      }
      r := Ok(stamp);
    }
  }
}
