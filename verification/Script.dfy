// The activation script as a program over the data volume, and its behaviour
// under crashes and restarts at any point.
module Script {
  import opened Rows

  // The gate URL and whether it is an absolute HTTPS URL without user or fragment.
  datatype Gate = NoGate | Gate(url: string, absoluteHttps: bool)

  datatype Spec = Spec(sessionId: SessionId, image: string, adminDid: Did, adminLabel: string,
                       controlDid: Did, activationId: string, gate: Gate)

  datatype Kind = AdminImported | ControlServerAdded

  // The file of a receipt, in the directory of its activation.
  datatype Receipt = Receipt(activationId: string, kind: Kind)

  datatype Instr =
    | PollGate(url: string)
    | MakeDir
    | SkipIfReceipt(file: Receipt, target: nat)
    | SkipIfAcl(did: Did, target: nat)
    | ImportDid(did: Did, name: string)
    | WriteTmp(file: Receipt, text: string)
    | MoveTmp(file: Receipt)
    | AddServer(did: Did)

  type Program = seq<Instr>

  predicate IsHex(c: char) { '0' <= c <= '9' || 'a' <= c <= 'f' || 'A' <= c <= 'F' }

  predicate IsActivationId(id: string) { |id| == 32 && forall i :: 0 <= i < |id| ==> IsHex(id[i]) }

  predicate ValidSpec(s: Spec) {
    && IsActivationId(s.activationId) && s.sessionId != 0 && s.image != "" && s.adminDid != ""
    && (s.gate.Gate? ==> s.gate.absoluteHttps)
  }

  lemma HexDigits(c: char)
    ensures IsHex(c) <==> c in "0123456789abcdefABCDEF"
  {
    var digits := "0123456789abcdefABCDEF";
    assert digits[0] == '0' && digits[1] == '1' && digits[2] == '2' && digits[3] == '3' && digits[4] == '4';
    assert digits[5] == '5' && digits[6] == '6' && digits[7] == '7' && digits[8] == '8' && digits[9] == '9';
    assert digits[10] == 'a' && digits[11] == 'b' && digits[12] == 'c' && digits[13] == 'd' && digits[14] == 'e' && digits[15] == 'f';
    assert digits[16] == 'A' && digits[17] == 'B' && digits[18] == 'C' && digits[19] == 'D' && digits[20] == 'E' && digits[21] == 'F';
  }

  // What a specification must be: sixteen bytes in hexadecimal, a session, an image,
  // an administrator, and an absolute HTTPS URL if there is a gate.
  lemma ValidSpecIff(s: Spec)
    ensures ValidSpec(s) <==>
      && |s.activationId| == 2 * 16 && (forall c :: c in s.activationId ==> c in "0123456789abcdefABCDEF")
      && s.sessionId != 0 && s.image != "" && s.adminDid != "" && (s.gate == NoGate || s.gate.absoluteHttps)
  {
    forall c
      ensures IsHex(c) <==> c in "0123456789abcdefABCDEF"
    {
      HexDigits(c);
    }
  }

  // ---- the program ----

  function AdminFile(s: Spec): Receipt { Receipt(s.activationId, AdminImported) }

  function ControlFile(s: Spec): Receipt { Receipt(s.activationId, ControlServerAdded) }

  function AdminPart(s: Spec, at: nat): Program {
    [SkipIfReceipt(AdminFile(s), at + 5), SkipIfAcl(s.adminDid, at + 3), ImportDid(s.adminDid, s.adminLabel),
     WriteTmp(AdminFile(s), s.activationId), MoveTmp(AdminFile(s))]
  }

  function ControlPart(s: Spec, at: nat): Program {
    if s.controlDid == "" then []
    else [SkipIfReceipt(ControlFile(s), at + 4), AddServer(s.controlDid),
          WriteTmp(ControlFile(s), s.activationId), MoveTmp(ControlFile(s))]
  }

  function GatePart(s: Spec): Program { if s.gate.Gate? then [PollGate(s.gate.url)] else [] }

  function ActivationProgram(s: Spec): Program {
    var g := |GatePart(s)|;
    GatePart(s) + [MakeDir] + AdminPart(s, g + 1) + ControlPart(s, g + 6)
  }

  method VtaActivationCommand(s: Spec) returns (r: Result<Program>)
    ensures r == if ValidSpec(s) then Ok(ActivationProgram(s)) else Fail(Invalid)
  {
    if |s.activationId| != 32 || !forall i :: 0 <= i < |s.activationId| ==> IsHex(s.activationId[i]) {
      return Fail(Invalid);
    }
    if s.sessionId == 0 || s.image == "" || s.adminDid == "" {
      return Fail(Invalid);
    }
    if s.gate.Gate? && !s.gate.absoluteHttps {
      return Fail(Invalid);
    }
    var command: Program := [];
    if s.gate.Gate? {
      command := command + [PollGate(s.gate.url)];
    }
    command := command + [MakeDir];
    var at := |command|;
    var admin, control := Receipt(s.activationId, AdminImported), Receipt(s.activationId, ControlServerAdded);
    command := command + [SkipIfReceipt(admin, at + 5)];
    command := command + [SkipIfAcl(s.adminDid, at + 3)];
    command := command + [ImportDid(s.adminDid, s.adminLabel)];
    command := command + [WriteTmp(admin, s.activationId), MoveTmp(admin)];
    if s.controlDid != "" {
      at := |command|;
      command := command + [SkipIfReceipt(control, at + 4)];
      command := command + [AddServer(s.controlDid)];
      command := command + [WriteTmp(control, s.activationId), MoveTmp(control)];
    }
    assert command == ActivationProgram(s);
    r := Ok(command);
  }

  // ---- the volume and the machine ----

  // What the volume keeps over restarts: the ACL (administrator entries by
  // DID, with their labels), the registered control server, the receipts, and
  // temporary files by receipt and process id.
  datatype Volume = Volume(acl: map<Did, string>, control: Option<Did>, receipts: map<Receipt, string>, tmp: map<(Receipt, nat), string>)

  // One container process: where it is, its process id, its volume.
  datatype Machine = Machine(pc: nat, pid: nat, volume: Volume)

  datatype GateReply = Opens | Waits | Ends

  // Whether reading the ACL works: a probe that breaks reads as absence.
  datatype Probe = Answers | Breaks

  // How import-did takes its own prompt about an entry that exists.
  datatype Prompt = Dies | Overwrites

  // The process runs on, or dies: then a new process starts over, and a
  // temporary file being written may hold anything.
  datatype Event = Run(reply: GateReply, probe: Probe, prompt: Prompt) | Crash(torn: string, pid: nat)

  function Execute(i: Instr, m: Machine, reply: GateReply, probe: Probe, prompt: Prompt): Machine {
    var v := m.volume;
    match i
    case PollGate(_) =>
      (match reply case Opens => m.(pc := m.pc + 1) case Waits => m case Ends => m.(pc := 0))
    case MakeDir => m.(pc := m.pc + 1)
    case SkipIfReceipt(file, target) => m.(pc := if file in v.receipts then target else m.pc + 1)
    case SkipIfAcl(did, target) => m.(pc := if did in v.acl && probe.Answers? then target else m.pc + 1)
    case ImportDid(did, name) =>
      if did in v.acl && prompt.Dies? then m.(pc := 0) else m.(pc := m.pc + 1, volume := v.(acl := v.acl[did := name]))
    case WriteTmp(file, text) => m.(pc := m.pc + 1, volume := v.(tmp := v.tmp[(file, m.pid) := text]))
    case MoveTmp(file) =>
      if (file, m.pid) in v.tmp
      then m.(pc := m.pc + 1, volume := v.(receipts := v.receipts[file := v.tmp[(file, m.pid)]], tmp := v.tmp - {(file, m.pid)}))
      else m.(pc := 0)
    case AddServer(did) => m.(pc := m.pc + 1, volume := v.(control := Some(did)))
  }

  function Restart(p: Program, m: Machine, torn: string, pid: nat): Machine {
    var tearing := m.pc < |p| && p[m.pc].WriteTmp?;
    var tmp := if tearing then m.volume.tmp[(p[m.pc].file, m.pid) := torn] else m.volume.tmp;
    Machine(0, pid, m.volume.(tmp := tmp))
  }

  function Step(p: Program, m: Machine, e: Event): Machine {
    match e
    case Run(reply, probe, prompt) => if m.pc < |p| then Execute(p[m.pc], m, reply, probe, prompt) else m
    case Crash(torn, pid) => Restart(p, m, torn, pid)
  }

  function RunAll(p: Program, m: Machine, events: seq<Event>): Machine
    decreases |events|
  {
    if events == [] then m else RunAll(p, Step(p, m, events[0]), events[1..])
  }

  predicate Completed(p: Program, m: Machine) { m.pc >= |p| }

  // ---- what a completed activation leaves behind ----

  // The state that matters: everything but temporary files.
  datatype Durable = Durable(acl: map<Did, string>, control: Option<Did>, receipts: map<Receipt, string>)

  function Kept(v: Volume): Durable { Durable(v.acl, v.control, v.receipts) }

  function Imported(s: Spec, d: Durable): Durable {
    if AdminFile(s) in d.receipts || s.adminDid in d.acl then d else d.(acl := d.acl[s.adminDid := s.adminLabel])
  }

  function AdminDone(s: Spec, d: Durable): Durable {
    if AdminFile(s) in d.receipts then d else Imported(s, d).(receipts := d.receipts[AdminFile(s) := s.activationId])
  }

  function ServerAdded(s: Spec, d: Durable): Durable {
    var a := AdminDone(s, d);
    if s.controlDid == "" || ControlFile(s) in d.receipts then a else a.(control := Some(s.controlDid))
  }

  function Activated(s: Spec, d: Durable): Durable {
    var a := ServerAdded(s, d);
    if s.controlDid == "" || ControlFile(s) in d.receipts then a else a.(receipts := a.receipts[ControlFile(s) := s.activationId])
  }

  // It leaves the administrator in the ACL, with the script's label if there was no
  // entry, the control server if there is to be one, and the receipts; a receipt
  // that was there keeps everything it stands for as it was.
  lemma ActivatedLeaves(s: Spec, d: Durable)
    ensures var a := Activated(s, d);
      var admin, control := Receipt(s.activationId, AdminImported), Receipt(s.activationId, ControlServerAdded);
      && a.acl == (if admin in d.receipts || s.adminDid in d.acl then d.acl else d.acl[s.adminDid := s.adminLabel])
      && a.control == (if s.controlDid == "" || control in d.receipts then d.control else Some(s.controlDid))
      && a.receipts.Keys == d.receipts.Keys + {admin} + (if s.controlDid == "" then {} else {control})
      && (forall file :: file in a.receipts ==> a.receipts[file] == if file in d.receipts then d.receipts[file] else s.activationId)
  {
  }

  // ---- the invariant of every execution ----

  // Between the start d0 and its activation, how far the volume is, given
  // where the process is. Positions count from the receipt directory on.
  ghost predicate Consistent(s: Spec, d0: Durable, m: Machine) {
    var k, at := Kept(m.volume), m.pc - |GatePart(s)|;
    var early := k == d0 || k == Imported(s, d0);
    var late := k == AdminDone(s, d0) || k == ServerAdded(s, d0) || k == Activated(s, d0);
    && m.pc <= |ActivationProgram(s)|
    && (early || late)
    && (2 <= at <= 5 ==> AdminFile(s) !in k.receipts && early)
    && (4 <= at <= 5 ==> k == Imported(s, d0))
    && (at == 5 ==> (AdminFile(s), m.pid) in m.volume.tmp && m.volume.tmp[(AdminFile(s), m.pid)] == s.activationId)
    && (6 <= at ==> late)
    && (s.controlDid != "" && 7 <= at <= 9 ==> ControlFile(s) !in k.receipts)
    && (s.controlDid != "" && 8 <= at <= 9 ==> k == ServerAdded(s, d0))
    && (s.controlDid != "" && at == 9 ==> (ControlFile(s), m.pid) in m.volume.tmp && m.volume.tmp[(ControlFile(s), m.pid)] == s.activationId)
    && (s.controlDid != "" && at == 10 ==> k == Activated(s, d0))
  }

  // The instruction at each position.
  lemma InstrAt(s: Spec, pc: nat)
    requires pc < |ActivationProgram(s)|
    ensures var g, p := |GatePart(s)|, ActivationProgram(s); var at := pc - g;
      && (at < 0 ==> p[pc] == PollGate(s.gate.url) && pc == 0)
      && (at == 0 ==> p[pc] == MakeDir)
      && (at == 1 ==> p[pc] == SkipIfReceipt(AdminFile(s), g + 6))
      && (at == 2 ==> p[pc] == SkipIfAcl(s.adminDid, g + 4))
      && (at == 3 ==> p[pc] == ImportDid(s.adminDid, s.adminLabel))
      && (at == 4 ==> p[pc] == WriteTmp(AdminFile(s), s.activationId))
      && (at == 5 ==> p[pc] == MoveTmp(AdminFile(s)))
      && (at >= 6 ==> s.controlDid != "")
      && (at == 6 ==> p[pc] == SkipIfReceipt(ControlFile(s), g + 10))
      && (at == 7 ==> p[pc] == AddServer(s.controlDid))
      && (at == 8 ==> p[pc] == WriteTmp(ControlFile(s), s.activationId))
      && (at == 9 ==> p[pc] == MoveTmp(ControlFile(s)))
    ensures |ActivationProgram(s)| == |GatePart(s)| + if s.controlDid == "" then 6 else 10
  {
    var g := |GatePart(s)|;
    var p := ActivationProgram(s);
    assert p == GatePart(s) + ([MakeDir] + AdminPart(s, g + 1) + ControlPart(s, g + 6));
    if pc >= g + 6 {
      assert p == (GatePart(s) + [MakeDir] + AdminPart(s, g + 1)) + ControlPart(s, g + 6);
      assert p[pc] == ControlPart(s, g + 6)[pc - g - 6];
    } else if pc >= g + 1 {
      assert p[pc] == AdminPart(s, g + 1)[pc - g - 1];
    }
  }

  predicate AtProbe(s: Spec, m: Machine) { m.pc == |GatePart(s)| + 2 }

  predicate AtImport(s: Spec, m: Machine) { m.pc == |GatePart(s)| + 3 }

  // import-did meets an entry and writes over it: the script's label goes on an
  // entry that may have had another.
  predicate Overwriting(s: Spec, m: Machine, e: Event) {
    AtImport(s, m) && s.adminDid in m.volume.acl && e.Run? && e.prompt.Overwrites?
  }

  predicate Overwritten(s: Spec, m: Machine, events: seq<Event>)
    decreases |events|
  {
    events != [] && (Overwriting(s, m, events[0]) || Overwritten(s, Step(ActivationProgram(s), m, events[0]), events[1..]))
  }

  function Relabelled(s: Spec, d: Durable): Durable {
    if s.adminDid in d.acl then d.(acl := d.acl[s.adminDid := s.adminLabel]) else d
  }

  lemma AdminStepConsistent(s: Spec, d0: Durable, m: Machine, e: Event)
    requires Consistent(s, d0, m) && m.pc < |GatePart(s)| + 6 && m.pc < |ActivationProgram(s)| && e.Run?
    ensures Consistent(s, if Overwriting(s, m, e) then Relabelled(s, d0) else d0, Step(ActivationProgram(s), m, e))
  {
    InstrAt(s, m.pc);
  }

  lemma ControlStepConsistent(s: Spec, d0: Durable, m: Machine, e: Event)
    requires Consistent(s, d0, m) && |GatePart(s)| + 6 <= m.pc < |ActivationProgram(s)| && e.Run?
    ensures Consistent(s, d0, Step(ActivationProgram(s), m, e))
  {
    InstrAt(s, m.pc);
  }

  lemma CrashConsistent(s: Spec, d0: Durable, m: Machine, e: Event)
    requires Consistent(s, d0, m) && e.Crash?
    ensures Consistent(s, d0, Step(ActivationProgram(s), m, e))
  {
  }

  lemma StepConsistent(s: Spec, d0: Durable, m: Machine, e: Event)
    requires Consistent(s, d0, m)
    ensures Consistent(s, if Overwriting(s, m, e) then Relabelled(s, d0) else d0, Step(ActivationProgram(s), m, e))
  {
    if e.Crash? {
      CrashConsistent(s, d0, m, e);
    } else if m.pc < |ActivationProgram(s)| {
      if m.pc < |GatePart(s)| + 6 {
        AdminStepConsistent(s, d0, m, e);
      } else {
        ControlStepConsistent(s, d0, m, e);
      }
    }
  }

  lemma {:induction false} RunConsistent(s: Spec, d0: Durable, m: Machine, events: seq<Event>)
    requires Consistent(s, d0, m)
    ensures Consistent(s, if Overwritten(s, m, events) then Relabelled(s, d0) else d0, RunAll(ActivationProgram(s), m, events))
    decreases |events|
  {
    if events != [] {
      StepConsistent(s, d0, m, events[0]);
      RunConsistent(s, if Overwriting(s, m, events[0]) then Relabelled(s, d0) else d0, Step(ActivationProgram(s), m, events[0]), events[1..]);
    }
  }

  // ---- crash safety ----

  // Whatever crashes and restarts a completed execution went through, it left
  // exactly the activation of the volume it started on, but for the label if
  // import-did was let to write over the entry.
  lemma CompletedIsActivated(s: Spec, pid: nat, v0: Volume, events: seq<Event>)
    ensures var p := ActivationProgram(s);
      var m := RunAll(p, Machine(0, pid, v0), events);
      var d0 := if Overwritten(s, Machine(0, pid, v0), events) then Relabelled(s, Kept(v0)) else Kept(v0);
      Completed(p, m) ==> Kept(m.volume) == Activated(s, d0)
  {
    var p := ActivationProgram(s);
    RunConsistent(s, Kept(v0), Machine(0, pid, v0), events);
    assert |p| == |GatePart(s)| + if s.controlDid == "" then 6 else 10;
  }

  function Straight(n: nat): seq<Event> { seq(n, _ => Run(Opens, Answers, Dies)) }

  lemma {:induction false} StraightRunCompletes(s: Spec, d0: Durable, m: Machine, n: nat)
    requires Consistent(s, d0, m) && Honestly(s, m) && n >= |ActivationProgram(s)| - m.pc
    ensures Completed(ActivationProgram(s), RunAll(ActivationProgram(s), m, Straight(n)))
    decreases n
  {
    var p := ActivationProgram(s);
    if n > 0 {
      var e := Run(Opens, Answers, Dies);
      var next := Step(p, m, e);
      StepConsistent(s, d0, m, e);
      StepHonestly(s, m, e);
      if m.pc < |p| {
        InstrAt(s, m.pc);
        assert next.pc > m.pc;
      }
      assert Straight(n)[1..] == Straight(n - 1);
      StraightRunCompletes(s, d0, next, n - 1);
    }
  }

  // An uninterrupted run completes once the gate releases it, and any completed
  // execution, crashes, broken probes and all, ends in the same ACL, server and
  // receipts unless import-did wrote over an entry.
  lemma CrashSafe(s: Spec, pid: nat, v0: Volume, events: seq<Event>)
    requires !Overwritten(s, Machine(0, pid, v0), events)
    ensures var p := ActivationProgram(s);
      var straight := RunAll(p, Machine(0, pid, v0), Straight(|p|));
      var crashed := RunAll(p, Machine(0, pid, v0), events);
      Completed(p, straight) && (Completed(p, crashed) ==> Kept(crashed.volume) == Kept(straight.volume))
  {
    var p := ActivationProgram(s);
    StraightRunCompletes(s, Kept(v0), Machine(0, pid, v0), |p|);
    HonestNeverOverwrites(s, Machine(0, pid, v0), Straight(|p|));
    CompletedIsActivated(s, pid, v0, Straight(|p|));
    CompletedIsActivated(s, pid, v0, events);
  }

  // ---- import-did and the probe ----

  predicate Imports(p: Program, m: Machine, e: Event) { e.Run? && m.pc < |p| && p[m.pc].ImportDid? }

  function ImportCount(p: Program, m: Machine, events: seq<Event>): nat
    decreases |events|
  {
    if events == [] then 0
    else (if Imports(p, m, events[0]) then 1 else 0) + ImportCount(p, Step(p, m, events[0]), events[1..])
  }

  // The probe reads an entry that is there as absent.
  predicate ProbeMisses(s: Spec, m: Machine, e: Event) {
    AtProbe(s, m) && s.adminDid in m.volume.acl && e.Run? && e.probe.Breaks?
  }

  // import-did is invoked on an entry that exists if and only if the step
  // before it was a probe that broke on that entry.
  lemma ImportsExistingIff(s: Spec, m: Machine, e: Event, f: Event)
    requires m.pc <= |ActivationProgram(s)|
    ensures var p := ActivationProgram(s);
      var next := Step(p, m, e);
      Imports(p, next, f) && s.adminDid in next.volume.acl <==> ProbeMisses(s, m, e) && f.Run?
  {
    if m.pc < |ActivationProgram(s)| {
      InstrAt(s, m.pc);
    }
    if Step(ActivationProgram(s), m, e).pc < |ActivationProgram(s)| {
      InstrAt(s, Step(ActivationProgram(s), m, e).pc);
    }
  }

  predicate Honest(events: seq<Event>) { forall i :: 0 <= i < |events| ==> HonestEvent(events[i]) }

  predicate HonestEvent(e: Event) { e.Run? ==> e.probe.Answers? }

  // Where probes that answer lead.
  predicate Honestly(s: Spec, m: Machine) { AtImport(s, m) ==> s.adminDid !in m.volume.acl }

  lemma StepHonestly(s: Spec, m: Machine, e: Event)
    requires Honestly(s, m) && HonestEvent(e)
    ensures Honestly(s, Step(ActivationProgram(s), m, e))
  {
    if m.pc < |ActivationProgram(s)| {
      InstrAt(s, m.pc);
    }
  }

  lemma {:induction false} HonestNeverOverwrites(s: Spec, m: Machine, events: seq<Event>)
    requires Honestly(s, m) && Honest(events)
    ensures !Overwritten(s, m, events)
    decreases |events|
  {
    if events != [] {
      StepHonestly(s, m, events[0]);
      HonestNeverOverwrites(s, Step(ActivationProgram(s), m, events[0]), events[1..]);
    }
  }

  lemma StepImports(s: Spec, m: Machine, e: Event)
    requires Honestly(s, m)
    ensures var p := ActivationProgram(s);
      && (Imports(p, m, e) ==> s.adminDid !in m.volume.acl && s.adminDid in Step(p, m, e).volume.acl)
      && (s.adminDid in m.volume.acl ==> s.adminDid in Step(p, m, e).volume.acl)
  {
    if m.pc < |ActivationProgram(s)| {
      InstrAt(s, m.pc);
    }
  }

  // While every probe answers, over all restarts import-did is invoked at most
  // once, and not at all for an entry that was there before.
  lemma {:induction false} ImportsAtMostOnce(s: Spec, m: Machine, events: seq<Event>)
    requires Honestly(s, m) && Honest(events)
    ensures ImportCount(ActivationProgram(s), m, events) <= if s.adminDid in m.volume.acl then 0 else 1
    decreases |events|
  {
    if events != [] {
      StepImports(s, m, events[0]);
      StepHonestly(s, m, events[0]);
      ImportsAtMostOnce(s, Step(ActivationProgram(s), m, events[0]), events[1..]);
    }
  }

  lemma {:induction false} RunHonestly(s: Spec, m: Machine, events: seq<Event>)
    requires Honestly(s, m) && Honest(events)
    ensures Honestly(s, RunAll(ActivationProgram(s), m, events))
    decreases |events|
  {
    if events != [] {
      StepHonestly(s, m, events[0]);
      RunHonestly(s, Step(ActivationProgram(s), m, events[0]), events[1..]);
    }
  }

  // While every probe answers, whenever import-did is next the entry is absent.
  lemma ImportsOnlyAbsentEntries(s: Spec, pid: nat, v0: Volume, events: seq<Event>, e: Event)
    requires Honest(events)
    ensures var p := ActivationProgram(s);
      var m := RunAll(p, Machine(0, pid, v0), events);
      Imports(p, m, e) ==> p[m.pc] == ImportDid(s.adminDid, s.adminLabel) && s.adminDid !in m.volume.acl
  {
    RunHonestly(s, Machine(0, pid, v0), events);
    var m := RunAll(ActivationProgram(s), Machine(0, pid, v0), events);
    if m.pc < |ActivationProgram(s)| {
      InstrAt(s, m.pc);
    }
  }

  lemma ImportCons(p: Program, m: Machine, e: Event, rest: seq<Event>)
    ensures ImportCount(p, m, [e] + rest) == (if Imports(p, m, e) then 1 else 0) + ImportCount(p, Step(p, m, e), rest)
  {
    assert ([e] + rest)[1..] == rest;
  }

  // Four steps, the last of which follows the probe, from a volume without receipt.
  lemma FourSteps(s: Spec, m: Machine, probe: Probe, prompt: Prompt, rest: seq<Event>)
    requires s.gate.NoGate? && m.pc == 0 && AdminFile(s) !in m.volume.receipts
    requires s.adminDid in m.volume.acl ==> probe.Breaks?
    ensures var p, run := ActivationProgram(s), Run(Opens, Answers, prompt);
      var imported := Step(p, m.(pc := 3), run);
      && ImportCount(p, m, [run] + ([run] + ([Run(Opens, probe, prompt)] + ([run] + rest)))) == 1 + ImportCount(p, imported, rest)
      && (s.adminDid !in m.volume.acl ==>
          imported == Machine(4, m.pid, m.volume.(acl := m.volume.acl[s.adminDid := s.adminLabel])))
  {
    var p, run, probing := ActivationProgram(s), Run(Opens, Answers, prompt), Run(Opens, probe, prompt);
    InstrAt(s, 0);
    InstrAt(s, 1);
    InstrAt(s, 2);
    InstrAt(s, 3);
    ImportCons(p, m, run, [run] + ([probing] + ([run] + rest)));
    ImportCons(p, m.(pc := 1), run, [probing] + ([run] + rest));
    ImportCons(p, m.(pc := 2), probing, [run] + rest);
    ImportCons(p, m.(pc := 3), run, rest);
  }

  // A run in which it is not so: the import succeeds, the process dies before
  // its receipt, the next one's probe breaks, and import-did is invoked again.
  lemma BrokenProbeImportsTwice(s: Spec, pid: nat, prompt: Prompt)
    requires s.gate.NoGate?
    ensures var run, broken := Run(Opens, Answers, prompt), Run(Opens, Breaks, prompt);
      ImportCount(ActivationProgram(s), Machine(0, pid, Volume(map[], None, map[], map[])),
                  [run, run, run, run, Crash("", pid + 1), run, run, broken, run]) == 2
  {
    var p, run, broken := ActivationProgram(s), Run(Opens, Answers, prompt), Run(Opens, Breaks, prompt);
    var v, crash := Volume(map[], None, map[], map[]), Crash("", pid + 1);
    var again := [run] + ([run] + ([broken] + ([run] + [])));
    var m := Machine(4, pid, v.(acl := map[s.adminDid := s.adminLabel]));
    FourSteps(s, Machine(0, pid, v), Answers, prompt, [crash] + again);
    assert v.acl[s.adminDid := s.adminLabel] == map[s.adminDid := s.adminLabel];
    ImportCons(p, m, crash, again);
    FourSteps(s, Step(p, m, crash), Breaks, prompt, []);
    assert [run] + ([run] + ([run] + ([run] + ([crash] + again)))) == [run, run, run, run, crash, run, run, broken, run];
  }

  // Only an opening reply takes a gated process past its first instruction.
  lemma PassesOnlyOpened(s: Spec, m: Machine, e: Event)
    requires s.gate.Gate? && m.pc == 0
    ensures ActivationProgram(s)[0] == PollGate(s.gate.url)
    ensures Step(ActivationProgram(s), m, e).pc > 0 ==> e.Run? && e.reply.Opens?
  {
    InstrAt(s, 0);
  }

  // Until the gate releases it, a gated container changes nothing that lasts.
  lemma {:induction false} GateHolds(s: Spec, m: Machine, events: seq<Event>)
    requires s.gate.Gate? && m.pc == 0
    requires forall i :: 0 <= i < |events| ==> events[i].Run? ==> !events[i].reply.Opens?
    ensures var m' := RunAll(ActivationProgram(s), m, events); m'.pc == 0 && m'.volume == m.volume
    decreases |events|
  {
    if events != [] {
      InstrAt(s, 0);
      assert forall i :: 0 <= i < |events[1..]| ==> events[1..][i] == events[i + 1];
      GateHolds(s, Step(ActivationProgram(s), m, events[0]), events[1..]);
    }
  }
}
