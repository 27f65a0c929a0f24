/** The supervisor's registry: isolated specs, reservations and reaping. `Registry` is the state
    under the supervisor lock, with one function per locked section. */
module Supervision {
  import opened Prelude
  import Decimal

  datatype ProcessSpec = ProcessSpec(generation: nat, port: int, spoolDir: string)

  datatype StartError = PortExhausted | PortInUse | SpoolInUse | InvalidSpec | LaunchFailed

  datatype ReapError = UnknownProcess | NotRunning

  predicate ValidSpec(spec: ProcessSpec) {
    spec.generation != 0 && 0 < spec.port <= 65535 && spec.spoolDir != ""
  }

  function ProcId(g: nat): string { "proc-" + Decimal.Print(g) }

  function SpoolOf(root: string, g: nat): string { root + "/gen-" + Decimal.Print(g) }

  datatype Registry<!P(==)> = Registry(
    nextGeneration: nat, basePort: int, spoolRoot: string,
    processes: map<string, Option<P>>, usedPorts: set<int>, usedSpools: set<string>) {

    function SpecFor(g: nat): ProcessSpec {
      ProcessSpec(g, basePort + g - 1, SpoolOf(spoolRoot, g))
    }

    /** allocateSpecLocked. The generation is consumed before the later checks run. */
    function Reserve(): (Registry<P>, Result<ProcessSpec, StartError>) {
      var g := nextGeneration;
      var spec := SpecFor(g);
      if spec.port > 65535 then (this, Err(PortExhausted))
      else
        var consumed := this.(nextGeneration := g + 1);
        if spec.port in usedPorts then (consumed, Err(PortInUse))
        else if spec.spoolDir in usedSpools then (consumed, Err(SpoolInUse))
        else if !ValidSpec(spec) then (consumed, Err(InvalidSpec))
        else (consumed.(processes := processes[ProcId(g) := None],
                        usedPorts := usedPorts + {spec.port},
                        usedSpools := usedSpools + {spec.spoolDir}), Ok(spec))
    }

    function Release(spec: ProcessSpec): Registry<P> {
      this.(processes := processes - {ProcId(spec.generation)},
            usedPorts := usedPorts - {spec.port}, usedSpools := usedSpools - {spec.spoolDir})
    }

    function Register(g: nat, p: P): Registry<P> {
      this.(processes := processes[ProcId(g) := Some(p)])
    }

    predicate Holds(p: P, spec: ProcessSpec) {
      ProcId(spec.generation) in processes && processes[ProcId(spec.generation)] == Some(p)
    }

    function Reap(p: P, spec: ProcessSpec, terminal: bool): (Registry<P>, Result<(), ReapError>) {
      if !Holds(p, spec) then (this, Err(UnknownProcess))
      else if !terminal then (this, Err(NotRunning))
      else (Release(spec), Ok(()))
    }
  }

  // ----- interleaved reservations, launches, rollbacks and reaps -----

  /** A launched process: its identity and the spec it was launched with. */
  datatype Handle = Handle(id: nat, spec: ProcessSpec)

  /** inflight: specs reserved by a Start whose launch has not returned. */
  datatype Sys = Sys(reg: Registry<Handle>, inflight: map<nat, ProcessSpec>)

  datatype Step =
    | Reserve
    | LaunchFailed(generation: nat)
    | Launched(generation: nat, id: nat)
    | Reap(handle: Handle, terminal: bool)

  function Next(s: Sys, step: Step): Option<Sys> {
    match step
    case Reserve =>
      var (reg, r) := s.reg.Reserve();
      Some(Sys(reg, if r.Ok? then s.inflight[r.value.generation := r.value] else s.inflight))
    case LaunchFailed(g) =>
      if g !in s.inflight then None
      else Some(Sys(s.reg.Release(s.inflight[g]), s.inflight - {g}))
    case Launched(g, id) =>
      if g !in s.inflight then None
      else Some(Sys(s.reg.Register(g, Handle(id, s.inflight[g])), s.inflight - {g}))
    case Reap(h, terminal) => Some(s.(reg := s.reg.Reap(h, h.spec, terminal).0))
  }

  predicate Init(s: Sys) {
    0 < s.reg.basePort <= 65535 && s.reg.spoolRoot != "" && s.reg.nextGeneration == 1
    && s.reg.processes == map[] && s.reg.usedPorts == {} && s.reg.usedSpools == {} && s.inflight == map[]
  }

  function PortFn(base: int): nat -> int { (g: nat) => base + g - 1 }
  function SpoolFn(root: string): nat -> string { (g: nat) => SpoolOf(root, g) }
  function IdFn(): nat -> string { (g: nat) => ProcId(g) }

  lemma FnsInjective(base: int, root: string)
    ensures Injective(PortFn(base)) && Injective(SpoolFn(root)) && Injective(IdFn())
  {
    forall g: nat, h: nat | SpoolFn(root)(g) == SpoolFn(root)(h) ensures g == h {
      assert SpoolOf(root, g)[|root + "/gen-"|..] == Decimal.Print(g);
      assert SpoolOf(root, h)[|root + "/gen-"|..] == Decimal.Print(h);
      Decimal.PrintInjective(g, h);
    }
    forall g: nat, h: nat | IdFn()(g) == IdFn()(h) ensures g == h {
      assert ProcId(g)[5..] == Decimal.Print(g) && ProcId(h)[5..] == Decimal.Print(h);
      Decimal.PrintInjective(g, h);
    }
  }

  /** The generations whose ID is in the registry. */
  ghost function Live(reg: Registry<Handle>): set<nat> {
    set g | 0 <= g < reg.nextGeneration && ProcId(g) in reg.processes
  }

  /** Exactly the registered generations hold a port and a spool, each its own. */
  ghost predicate Isolated(reg: Registry<Handle>) {
    && reg.processes.Keys == Image(IdFn(), Live(reg))
    && reg.usedPorts == Image(PortFn(reg.basePort), Live(reg))
    && reg.usedSpools == Image(SpoolFn(reg.spoolRoot), Live(reg))
  }

  ghost predicate Inv(s: Sys) {
    var reg := s.reg;
    && 0 < reg.basePort <= 65535 && reg.spoolRoot != ""
    && 1 <= reg.nextGeneration <= 65537 - reg.basePort
    && 0 !in Live(reg)
    && Isolated(reg)
    && Accounted(s)
  }

  /** A generation whose launch is pending holds an empty slot; any other holds its own process. */
  ghost predicate Accounted(s: Sys) {
    && (forall g :: g in s.inflight ==> g in Live(s.reg) && s.inflight[g] == s.reg.SpecFor(g))
    && (forall g :: g in Live(s.reg) ==> SlotOk(s, g))
  }

  ghost predicate SlotOk(s: Sys, g: nat)
    requires ProcId(g) in s.reg.processes
  {
    if g in s.inflight then s.reg.processes[ProcId(g)].None?
    else s.reg.processes[ProcId(g)].Some? && s.reg.processes[ProcId(g)].value.spec == s.reg.SpecFor(g)
  }

  lemma InitInv(s: Sys)
    requires Init(s)
    ensures Inv(s)
  {
  }

  lemma LiveHas(s: Sys, g: nat)
    requires Inv(s)
    ensures ProcId(g) in s.reg.processes <==> g in Live(s.reg)
  {
    FnsInjective(s.reg.basePort, s.reg.spoolRoot);
    if ProcId(g) in s.reg.processes {
      var h :| h in Live(s.reg) && IdFn()(h) == ProcId(g);
      assert IdFn()(g) == IdFn()(h);
    }
  }

  /** The next generation's port, spool and ID are always free and its spec valid. */
  lemma ReserveFresh(s: Sys)
    requires Inv(s)
    ensures s.reg.nextGeneration !in Live(s.reg) && ProcId(s.reg.nextGeneration) !in s.reg.processes
    ensures var spec := s.reg.SpecFor(s.reg.nextGeneration);
            spec.port !in s.reg.usedPorts && spec.spoolDir !in s.reg.usedSpools
            && (spec.port <= 65535 ==> ValidSpec(spec))
  {
    var g := s.reg.nextGeneration;
    FnsInjective(s.reg.basePort, s.reg.spoolRoot);
    LiveHas(s, g);
    forall h | h in Live(s.reg) ensures PortFn(s.reg.basePort)(h) != PortFn(s.reg.basePort)(g) {}
    forall h | h in Live(s.reg) ensures SpoolFn(s.reg.spoolRoot)(h) != SpoolFn(s.reg.spoolRoot)(g) {}
    assert s.reg.SpecFor(g).spoolDir == SpoolFn(s.reg.spoolRoot)(g);
    assert s.reg.SpecFor(g).port == PortFn(s.reg.basePort)(g);
  }

  /** A reservation fails only because the port range is exhausted: the port-in-use, spool-in-use
      and invalid-spec refusals are unreachable. It is exhausted exactly at generation
      65537 - basePort, and then no generation is consumed. */
  lemma ReserveOutcome(s: Sys)
    requires Inv(s)
    ensures var (reg, r) := s.reg.Reserve();
            && (r.Ok? <==> s.reg.nextGeneration < 65537 - s.reg.basePort)
            && (r.Ok? ==> r.value == s.reg.SpecFor(s.reg.nextGeneration) && ValidSpec(r.value))
            && (r.Err? ==> r.error == PortExhausted && reg == s.reg)
  {
    ReserveFresh(s);
  }

  /** On a fresh registry at port 27015 and "/spool", for one, the first generation gets that port, its
      own directory and its own ID. */
  lemma FirstReservation(reg: Registry<Handle>)
    requires reg == Registry(1, 27015, "/spool", map[], {}, {})
    ensures reg.Reserve().1 == Ok(ProcessSpec(1, 27015, "/spool/gen-1"))
    ensures reg.Reserve().0.processes == map["proc-1" := None]
  {
    assert Decimal.Print(1) == "1";
    assert SpoolOf("/spool", 1) == "/spool/gen-1" && ProcId(1) == "proc-1";
  }

  lemma OtherId(g: nat, h: nat)
    requires g != h
    ensures ProcId(g) != ProcId(h)
  {
    FnsInjective(0, "");
    assert IdFn()(g) != IdFn()(h);
  }

  /** A successful reservation adds exactly the new generation, with its own port and spool. */
  lemma ReserveIsolated(s: Sys)
    requires Inv(s) && s.reg.Reserve().1.Ok?
    ensures var reg := s.reg.Reserve().0;
            Live(reg) == Live(s.reg) + {s.reg.nextGeneration} && Isolated(reg)
  {
    var reg, g := s.reg.Reserve().0, s.reg.nextGeneration;
    forall h: nat ensures h in Live(reg) <==> h in Live(s.reg) + {g} {
      if h != g { OtherId(h, g); }
    }
    assert Live(reg) == Live(s.reg) + {g};
    assert IdFn()(g) == ProcId(g);
    assert PortFn(reg.basePort)(g) == s.reg.SpecFor(g).port;
    assert SpoolFn(reg.spoolRoot)(g) == s.reg.SpecFor(g).spoolDir;
    assert reg.processes.Keys == Image(IdFn(), Live(s.reg)) + {ProcId(g)} == Image(IdFn(), Live(reg));
    assert reg.usedPorts == Image(PortFn(reg.basePort), Live(reg));
    assert reg.usedSpools == Image(SpoolFn(reg.spoolRoot), Live(reg));
  }

  lemma ReserveAccounted(s: Sys, reg: Registry<Handle>)
    requires Accounted(s)
    requires var g := s.reg.nextGeneration;
             reg.processes == s.reg.processes[ProcId(g) := None] && Live(reg) == Live(s.reg) + {g}
             && g !in Live(s.reg)
             && reg.basePort == s.reg.basePort && reg.spoolRoot == s.reg.spoolRoot
    ensures Accounted(Sys(reg, s.inflight[s.reg.nextGeneration := s.reg.SpecFor(s.reg.nextGeneration)]))
  {
    var g := s.reg.nextGeneration;
    var t := Sys(reg, s.inflight[g := s.reg.SpecFor(g)]);
    forall h | h in Live(t.reg) ensures SlotOk(t, h) {
      if h != g {
        OtherId(h, g);
        assert SlotOk(s, h);
      }
    }
  }

  lemma ReserveInv(s: Sys)
    requires Inv(s)
    ensures Inv(Next(s, Reserve).value)
  {
    ReserveOutcome(s);
    ReserveFresh(s);
    if s.reg.Reserve().1.Ok? {
      ReserveIsolated(s);
      ReserveAccounted(s, s.reg.Reserve().0);
    }
  }

  /** Releasing one registered generation frees its ID, port and spool and nothing else. */
  lemma ReleaseIsolated(s: Sys, g: nat)
    requires Inv(s) && g in Live(s.reg)
    ensures var reg := s.reg.Release(s.reg.SpecFor(g));
            Isolated(reg) && Live(reg) == Live(s.reg) - {g}
  {
    var reg := s.reg.Release(s.reg.SpecFor(g));
    FnsInjective(reg.basePort, reg.spoolRoot);
    forall h: nat ensures h in Live(reg) <==> h in Live(s.reg) - {g} {
      if h != g { assert IdFn()(h) != IdFn()(g); }
    }
    assert Live(reg) == Live(s.reg) - {g};
    ImageRemove(IdFn(), Live(s.reg), g);
    ImageRemove(PortFn(reg.basePort), Live(s.reg), g);
    ImageRemove(SpoolFn(reg.spoolRoot), Live(s.reg), g);
    assert IdFn()(g) == ProcId(g);
    assert PortFn(reg.basePort)(g) == s.reg.SpecFor(g).port;
    assert SpoolFn(reg.spoolRoot)(g) == s.reg.SpecFor(g).spoolDir;
  }

  lemma ReleaseAccounted(s: Sys, g: nat, reg: Registry<Handle>)
    requires Accounted(s) && Live(reg) == Live(s.reg) - {g}
    requires reg.processes == s.reg.processes - {ProcId(g)}
    requires reg.basePort == s.reg.basePort && reg.spoolRoot == s.reg.spoolRoot
    ensures Accounted(Sys(reg, s.inflight - {g}))
  {
    var t := Sys(reg, s.inflight - {g});
    forall h | h in Live(t.reg) ensures SlotOk(t, h) {
      assert SlotOk(s, h);
      OtherId(h, g);
    }
  }

  lemma ReleaseInv(s: Sys, g: nat)
    requires Inv(s) && g in Live(s.reg)
    ensures Inv(Sys(s.reg.Release(s.reg.SpecFor(g)), s.inflight - {g}))
  {
    ReleaseIsolated(s, g);
    ReleaseAccounted(s, g, s.reg.Release(s.reg.SpecFor(g)));
  }

  lemma RegisterAccounted(s: Sys, g: nat, id: nat)
    requires Accounted(s) && g in s.inflight
    ensures Accounted(Next(s, Launched(g, id)).value)
    ensures Live(Next(s, Launched(g, id)).value.reg) == Live(s.reg)
    ensures Next(s, Launched(g, id)).value.reg.processes.Keys == s.reg.processes.Keys
  {
    var t := Next(s, Launched(g, id)).value;
    assert ProcId(g) in s.reg.processes;
    assert t.reg.processes.Keys == s.reg.processes.Keys;
    forall h | h in Live(t.reg) ensures SlotOk(t, h) {
      assert SlotOk(s, h);
      if h != g {
        OtherId(h, g);
      }
    }
  }

  /** Only the spec a handle was launched with can be registered under its generation. */
  lemma HeldSpec(s: Sys, h: Handle)
    requires Inv(s) && s.reg.Holds(h, h.spec)
    ensures h.spec.generation in Live(s.reg) && h.spec.generation !in s.inflight
    ensures h.spec == s.reg.SpecFor(h.spec.generation)
  {
    LiveHas(s, h.spec.generation);
  }

  lemma StepInv(s: Sys, step: Step)
    requires Inv(s) && Next(s, step).Some?
    ensures Inv(Next(s, step).value)
  {
    match step
    case Reserve => ReserveInv(s);
    case LaunchFailed(g) => ReleaseInv(s, g);
    case Launched(g, id) => RegisterAccounted(s, g, id);
    case Reap(h, terminal) =>
      if s.reg.Holds(h, h.spec) && terminal {
        HeldSpec(s, h);
        ReleaseInv(s, h.spec.generation);
        assert s.inflight - {h.spec.generation} == s.inflight;
      }
  }

  ghost predicate IsRun(states: seq<Sys>, steps: seq<Step>) {
    |states| == |steps| + 1 && Init(states[0])
    && forall i :: 0 <= i < |steps| ==> Next(states[i], steps[i]) == Some(states[i + 1])
  }

  /** Along every run the registry stays isolated. */
  lemma RunInv(states: seq<Sys>, steps: seq<Step>)
    requires IsRun(states, steps)
    ensures forall i :: 0 <= i < |states| ==> Inv(states[i])
  {
    InitInv(states[0]);
    for i := 0 to |steps|
      invariant forall j :: 0 <= j <= i ==> Inv(states[j])
    {
      assert Next(states[i], steps[i]) == Some(states[i + 1]);
      StepInv(states[i], steps[i]);
    }
  }

  /** Along every run a registered ID holds its own port and spool, nothing else does, no two
      registered IDs share either, and the next generation stays within 65537 minus the base port. */
  lemma RegistryIsolated(states: seq<Sys>, steps: seq<Step>, i: nat, g: nat, h: nat)
    requires IsRun(states, steps) && i < |states|
    ensures var reg := states[i].reg;
            && 1 <= reg.nextGeneration <= 65537 - reg.basePort
            && (ProcId(g) in reg.processes ==>
                  reg.SpecFor(g).port in reg.usedPorts && reg.SpecFor(g).spoolDir in reg.usedSpools)
            && (ProcId(g) in reg.processes && ProcId(h) in reg.processes && g != h
                ==> reg.SpecFor(g).port != reg.SpecFor(h).port && reg.SpecFor(g).spoolDir != reg.SpecFor(h).spoolDir)
    ensures var reg := states[i].reg;
            && (forall p :: p in reg.usedPorts ==>
                  exists k: nat :: ProcId(k) in reg.processes && reg.SpecFor(k).port == p)
            && (forall d :: d in reg.usedSpools ==>
                  exists k: nat :: ProcId(k) in reg.processes && reg.SpecFor(k).spoolDir == d)
  {
    RunInv(states, steps);
    RegistryExact(states[i], g, h);
  }

  lemma RegistryExact(s: Sys, g: nat, h: nat)
    requires Inv(s)
    ensures var reg := s.reg;
            && (ProcId(g) in reg.processes ==>
                  reg.SpecFor(g).port in reg.usedPorts && reg.SpecFor(g).spoolDir in reg.usedSpools)
            && (ProcId(g) in reg.processes && ProcId(h) in reg.processes && g != h
                ==> reg.SpecFor(g).port != reg.SpecFor(h).port && reg.SpecFor(g).spoolDir != reg.SpecFor(h).spoolDir)
    ensures var reg := s.reg;
            && (forall p :: p in reg.usedPorts ==>
                  exists k: nat :: ProcId(k) in reg.processes && reg.SpecFor(k).port == p)
            && (forall d :: d in reg.usedSpools ==>
                  exists k: nat :: ProcId(k) in reg.processes && reg.SpecFor(k).spoolDir == d)
  {
    var reg := s.reg;
    LiveHas(s, g);
    FnsInjective(reg.basePort, reg.spoolRoot);
    assert reg.SpecFor(g).port == PortFn(reg.basePort)(g) && reg.SpecFor(g).spoolDir == SpoolFn(reg.spoolRoot)(g);
    assert reg.SpecFor(h).spoolDir == SpoolFn(reg.spoolRoot)(h);
    forall p | p in reg.usedPorts ensures exists k: nat :: ProcId(k) in reg.processes && reg.SpecFor(k).port == p {
      var k :| k in Live(reg) && PortFn(reg.basePort)(k) == p;
      assert ProcId(k) in reg.processes && reg.SpecFor(k).port == p;
    }
    forall d | d in reg.usedSpools ensures exists k: nat :: ProcId(k) in reg.processes && reg.SpecFor(k).spoolDir == d {
      var k :| k in Live(reg) && SpoolFn(reg.spoolRoot)(k) == d;
      assert ProcId(k) in reg.processes && reg.SpecFor(k).spoolDir == d;
    }
  }

  lemma StepMonotone(s: Sys, step: Step)
    requires Next(s, step).Some?
    ensures s.reg.nextGeneration <= Next(s, step).value.reg.nextGeneration
    ensures step == Reserve && s.reg.Reserve().1.Ok? ==>
              s.reg.Reserve().1.value.generation == s.reg.nextGeneration < Next(s, step).value.reg.nextGeneration
  {
  }

  lemma {:induction false} RunMonotone(states: seq<Sys>, steps: seq<Step>, j: nat, i: nat)
    requires IsRun(states, steps) && j <= i < |states|
    ensures states[j].reg.nextGeneration <= states[i].reg.nextGeneration
  {
    if j < i {
      RunMonotone(states, steps, j, i - 1);
      assert Next(states[i - 1], steps[i - 1]) == Some(states[i]);
      StepMonotone(states[i - 1], steps[i - 1]);
    }
  }

  /** A failed launch consumes its generation: reservations of one run take strictly increasing
      generations, so no generation, port or spool is ever handed out twice. */
  lemma GenerationsUnique(states: seq<Sys>, steps: seq<Step>, i: nat, j: nat)
    requires IsRun(states, steps) && i < j < |steps| && steps[i] == Reserve && steps[j] == Reserve
    requires states[i].reg.Reserve().1.Ok? && states[j].reg.Reserve().1.Ok?
    ensures states[i].reg.Reserve().1.value.generation < states[j].reg.Reserve().1.value.generation
  {
    assert Next(states[i], steps[i]) == Some(states[i + 1]);
    StepMonotone(states[i], steps[i]);
    RunMonotone(states, steps, i + 1, j);
    assert states[j].reg.Reserve().1.value.generation == states[j].reg.nextGeneration;
  }

  // ----- the supervisor object -----

  /** proven: the launcher recorded readiness evidence. History: how often Stop was called, and what
      the last wait for readiness answered. */
  class Process {
    const spec: ProcessSpec
    var terminal: bool
    var proven: bool
    var stopCalls: nat
    var waited: Option<bool>

    constructor (spec: ProcessSpec)
      ensures this.spec == spec && !terminal && !proven && stopCalls == 0 && waited.None?
    {
      this.spec := spec;
      terminal, proven, stopCalls, waited := false, false, 0, None;
    }

    /** Stop asks for a teardown. It may fail, and the process may or may not become terminal. */
    method Stop() returns (ok: bool)
      modifies this`terminal, this`stopCalls
      ensures old(terminal) ==> terminal
      ensures stopCalls == old(stopCalls) + 1
    {
      stopCalls := stopCalls + 1;
      ok := *;
      if * { terminal := true; }
    }

    /** The wait for readiness evidence. Meanwhile the process may prove ready, die, or both; the wait
        succeeds on evidence alone, and may give up even then. */
    method WaitReadiness() returns (ready: bool)
      modifies this`terminal, this`proven, this`waited
      ensures old(terminal) ==> terminal
      ensures old(proven) ==> proven
      ensures ready ==> proven
      ensures waited == Some(ready)
    {
      if * { proven := true; }
      if * { terminal := true; }
      ready := *;
      ready := ready && proven;
      waited := Some(ready);
    }
  }

  /** The injected launcher: it starts a process for the spec, or fails. last is history: what the
      last launch gave. */
  class ProcessLauncher {
    var last: Option<Process>

    constructor ()
      ensures last.None?
    {
      last := None;
    }

    method Launch(spec: ProcessSpec) returns (r: Option<Process>)
      modifies this
      ensures last == r
      ensures r.Some? ==> fresh(r.value) && r.value.spec == spec
    {
      if * {
        r := None;
      } else {
        var p := new Process(spec);
        r := Some(p);
      }
      last := r;
    }
  }

  class Supervisor {
    const launcher: ProcessLauncher
    const basePort: int
    const spoolRoot: string
    var nextGeneration: nat
    var processes: map<string, Option<Process>>
    var usedPorts: set<int>
    var usedSpools: set<string>

    ghost function View(): Registry<Process>
      reads this
    {
      Registry(nextGeneration, basePort, spoolRoot, processes, usedPorts, usedSpools)
    }

    constructor (launcher: ProcessLauncher, basePort: int, spoolRoot: string)
      ensures View() == Registry(1, basePort, spoolRoot, map[], {}, {})
    {
      this.launcher, this.basePort, this.spoolRoot := launcher, basePort, spoolRoot;
      nextGeneration, processes, usedPorts, usedSpools := 1, map[], {}, {};
    }

    method AllocateSpecLocked() returns (r: Result<ProcessSpec, StartError>)
      modifies this
      ensures (View(), r) == old(View()).Reserve()
    {
      var gen := nextGeneration;
      var port := basePort + gen - 1;
      if port > 65535 { return Err(PortExhausted); }
      nextGeneration := nextGeneration + 1;
      if port in usedPorts { return Err(PortInUse); }
      var spool := SpoolOf(spoolRoot, gen);
      if spool in usedSpools { return Err(SpoolInUse); }
      var spec := ProcessSpec(gen, port, spool);
      if !ValidSpec(spec) { return Err(InvalidSpec); }
      processes := processes[ProcId(gen) := None];
      usedPorts := usedPorts + {port};
      usedSpools := usedSpools + {spool};
      return Ok(spec);
    }

    method ReleaseLocked(spec: ProcessSpec)
      modifies this
      ensures View() == old(View()).Release(spec)
    {
      usedPorts := usedPorts - {spec.port};
      usedSpools := usedSpools - {spec.spoolDir};
      processes := processes - {ProcId(spec.generation)};
    }

    /** Start: reserve, launch outside the lock, then register or roll back. A refused Start leaves
        its generation for the next one exactly when the ports are exhausted. */
    method Start() returns (r: Result<Process, StartError>)
      modifies this, launcher
      ensures var (reserved, spec) := old(View()).Reserve();
              match r
              case Ok(p) => spec == Ok(p.spec) && fresh(p) && View() == reserved.Register(p.spec.generation, p)
              case Err(LaunchFailed) => spec.Ok? && View() == reserved.Release(spec.value)
              case Err(e) => spec == Err(e) && View() == reserved
      ensures old(View()).Reserve().1.Ok? ==>
                r == if launcher.last.Some? then Ok(launcher.last.value) else Err(StartError.LaunchFailed)
      ensures r.Err? ==> (nextGeneration == old(nextGeneration) <==> basePort + old(nextGeneration) - 1 > 65535)
    {
      var spec := AllocateSpecLocked();
      if spec.Err? { return Err(spec.error); }
      var launched := launcher.Launch(spec.value);
      if launched.None? {
        ReleaseLocked(spec.value);
        return Err(StartError.LaunchFailed);
      }
      processes := processes[ProcId(spec.value.generation) := launched];
      return Ok(launched.value);
    }

    method Reap(proc: Process) returns (r: Result<(), ReapError>)
      modifies this
      ensures (View(), r) == old(View()).Reap(proc, proc.spec, proc.terminal)
    {
      var id := ProcId(proc.spec.generation);
      if id !in processes || processes[id] != Some(proc) { return Err(UnknownProcess); }
      if !proc.terminal { return Err(NotRunning); }
      processes := processes - {id};
      usedPorts := usedPorts - {proc.spec.port};
      usedSpools := usedSpools - {proc.spec.spoolDir};
      return Ok(());
    }
  }
}
