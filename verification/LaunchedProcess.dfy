/** One launched child process: the state under its lock, and its actors - the readiness watcher,
    the reaper, Stop callers and readiness waiters - interleaved step by step. */
module LaunchedProcesses {
  import opened Prelude

  datatype ProcessState = Launching | Running | Ready | Crashed | Stopped {
    predicate Terminal() { Crashed? || Stopped? }
  }

  datatype CrashCode = ExitNonZero | ExitUnexpected | Signaled | ReadinessTimeout

  /** How the child's wait ended. */
  datatype Exit = Code(code: nat) | Signal | WaitFailed | Clean

  datatype Artifact = Artifact(name: string, data: string)

  /** A close guarded by a look at the channel. */
  function CloseOnce(closes: nat): nat { if closes == 0 then 1 else closes }

  function ExitReason(e: Exit): CrashCode {
    match e
    case Code(_) => ExitNonZero
    case Signal => Signaled
    case WaitFailed => ExitUnexpected
    case Clean => ExitUnexpected
  }

  /** The fields under the process lock; the last three count how often each channel was closed.
      Closing a closed channel panics, so none may ever exceed one. */
  datatype Core = Core(
    state: ProcessState, fact: Option<string>, reason: Option<CrashCode>, artifacts: seq<Artifact>,
    stopRequested: bool, pendingCrash: Option<CrashCode>, stopOnce: bool,
    waitCloses: nat, readyCloses: nat, doneCloses: nat) {

    function MarkRunning(): Core {
      if state == Launching then this.(state := Running) else this
    }

    /** markReady, called by the readiness watcher. */
    function MarkReady(line: string): Core {
      if fact.Some? || state.Terminal() then this
      else
        var running := MarkRunning();
        if running.state != Running then running
        else running.(fact := Some(line), state := Ready, readyCloses := CloseOnce(readyCloses))
    }

    /** readinessTimeout, called by the readiness watcher. */
    function TimeOut(): Core {
      if state.Terminal() then this
      else this.(pendingCrash := Some(CrashCode.ReadinessTimeout), stopRequested := true)
    }

    function Deliver(a: Artifact): Core {
      if state == Running || state == Ready then this.(artifacts := artifacts + [a]) else this
    }

    function Terminate(next: ProcessState, why: Option<CrashCode>): Core {
      this.(state := next, reason := why, waitCloses := CloseOnce(waitCloses),
            readyCloses := CloseOnce(readyCloses))
    }

    /** The reaper's last section. It looks neither at the state it overwrites nor at the channel. */
    function Record(e: Exit): Core {
      var ended :=
        if pendingCrash.Some? then Terminate(Crashed, pendingCrash)
        else if stopRequested then Terminate(Stopped, None)
        else Terminate(Crashed, Some(ExitReason(e)));
      ended.(doneCloses := doneCloses + 1)
    }

    /** Stop's first section on a live process. */
    function RequestStop(): Core {
      if stopOnce then this else this.(stopOnce := true, stopRequested := true)
    }
  }

  const LAUNCHED := Core(Launching, None, None, [], false, None, false, 0, 0, 0)

  datatype Watcher = Selecting | HasLine(line: string) | HasTimeout | WatcherDone

  datatype Reaper =
    | AwaitingExit | Exited(exit: Exit) | DeliveringOut(exit: Exit) | DeliveringErr(exit: Exit)
    | Recording(exit: Exit) | ReaperDone(exit: Exit)

  datatype Stopper = First | Second | StopOk | StopCrashed(code: CrashCode) | StopContext | NilDereference

  datatype Waiter = WaitingReady | GotFact(fact: string) | GotNotReady | WaitContext

  /** stdout and stderr are the captured streams once complete; stopCalled and endings are history. */
  datatype Sys = Sys(
    core: Core, line: Option<string>, watcher: Watcher, reaper: Reaper, stdout: string, stderr: string,
    stoppers: map<nat, Stopper>, waiters: map<nat, Waiter>, stopCalled: bool, endings: nat)

  datatype Step =
    | ReadyLine(line: string)                          // capture reports an exact match
    | WatchLine | WatchTimeout | WatchDone             // the watcher's select
    | WatcherActs
    | ChildExits(exit: Exit, stdout: string, stderr: string)
    | ReaperActs
    | StopBegins(n: nat) | StopEnds(n: nat) | StopGivesUp(n: nat)
    | WaitBegins(n: nat) | WaitEnds(n: nat) | WaitGivesUp(n: nat)

  /** What Stop returns once it reads a state it takes for terminal. */
  function StopOutcome(c: Core): Stopper {
    if c.state == Stopped then StopOk
    else if c.reason.Some? then StopCrashed(c.reason.value) else NilDereference
  }

  /** What WaitReadiness returns once it saw the readiness channel closed. */
  function WaiterOutcome(c: Core): Waiter {
    if c.fact.Some? then GotFact(c.fact.value) else GotNotReady
  }

  function DeliverStream(c: Core, name: string, data: string): Core {
    if |data| > 0 then c.Deliver(Artifact(name, data)) else c
  }

  function Next(s: Sys, step: Step): Option<Sys> {
    match step
    case ReadyLine(line) => Some(if s.line.Some? then s else s.(line := Some(line)))
    case WatchLine =>
      if s.watcher != Selecting || s.line.None? then None
      else Some(s.(watcher := HasLine(s.line.value), line := None))
    case WatchTimeout => if s.watcher != Selecting then None else Some(s.(watcher := HasTimeout))
    case WatchDone =>
      if s.watcher != Selecting || s.core.doneCloses == 0 then None else Some(s.(watcher := WatcherDone))
    case WatcherActs =>
      if s.watcher.HasLine? then Some(s.(core := s.core.MarkReady(s.watcher.line), watcher := WatcherDone))
      else if s.watcher.HasTimeout? then Some(s.(core := s.core.TimeOut(), watcher := WatcherDone))
      else None
    case ChildExits(e, o, r) =>
      if s.reaper != AwaitingExit then None else Some(s.(reaper := Exited(e), stdout := o, stderr := r))
    case ReaperActs =>
      (match s.reaper
       case Exited(e) => Some(s.(core := s.core.MarkRunning(), reaper := DeliveringOut(e)))
       case DeliveringOut(e) =>
         Some(s.(core := DeliverStream(s.core, "stdout.log", s.stdout), reaper := DeliveringErr(e)))
       case DeliveringErr(e) =>
         Some(s.(core := DeliverStream(s.core, "stderr.log", s.stderr), reaper := Recording(e)))
       case Recording(e) => Some(s.(core := s.core.Record(e), reaper := ReaperDone(e), endings := s.endings + 1))
       case _ => None)
    case StopBegins(n) =>
      if n in s.stoppers then None
      else if s.core.state.Terminal() then Some(s.(stoppers := s.stoppers[n := StopOutcome(s.core)]))
      else Some(s.(core := s.core.RequestStop(), stopCalled := true,
                   stoppers := s.stoppers[n := if s.core.stopOnce then Second else First]))
    case StopEnds(n) =>
      if n !in s.stoppers || !(s.stoppers[n].First? || s.stoppers[n].Second?) || s.core.doneCloses == 0 then None
      else Some(s.(stoppers := s.stoppers[n := StopOutcome(s.core)]))
    case StopGivesUp(n) =>
      if n !in s.stoppers || !(s.stoppers[n].First? || s.stoppers[n].Second?) then None
      else Some(s.(stoppers := s.stoppers[n := StopContext]))
    case WaitBegins(n) =>
      if n in s.waiters then None else Some(s.(waiters := s.waiters[n := WaitingReady]))
    case WaitEnds(n) =>
      if n !in s.waiters || !s.waiters[n].WaitingReady? || s.core.readyCloses == 0 then None
      else Some(s.(waiters := s.waiters[n := WaiterOutcome(s.core)]))
    case WaitGivesUp(n) =>
      if n !in s.waiters || !s.waiters[n].WaitingReady? then None
      else Some(s.(waiters := s.waiters[n := WaitContext]))
  }

  predicate Init(s: Sys) {
    s.core == LAUNCHED && s.line.None? && s.watcher == Selecting && s.reaper == AwaitingExit
    && s.stoppers == map[] && s.waiters == map[] && !s.stopCalled && s.endings == 0
  }

  // ----- the invariant -----

  /** Each channel was closed exactly as often as it should be, once or not at all. */
  ghost predicate Channels(c: Core) {
    && c.waitCloses == (if c.state.Terminal() then 1 else 0)
    && c.doneCloses == (if c.state.Terminal() then 1 else 0)
    && c.readyCloses == (if c.fact.Some? || c.state.Terminal() then 1 else 0)
  }

  function Expected(s: Sys): seq<Artifact> {
    var out := if |s.stdout| > 0 then [Artifact("stdout.log", s.stdout)] else [];
    var err := if |s.stderr| > 0 then [Artifact("stderr.log", s.stderr)] else [];
    match s.reaper
    case DeliveringErr(_) => out
    case Recording(_) => out + err
    case ReaperDone(_) => out + err
    case _ => []
  }

  ghost predicate CoreOk(s: Sys) {
    var c := s.core;
    && Channels(c)
    && (c.state == Crashed <==> c.reason.Some?)
    && (c.state.Terminal() <==> s.reaper.ReaperDone?)
    && s.endings == (if c.state.Terminal() then 1 else 0)
    && (s.reaper.DeliveringOut? || s.reaper.DeliveringErr? || s.reaper.Recording? ==> c.state != Launching)
    && (c.state == Ready ==> c.fact.Some?)
    && (c.fact.Some? ==> c.state == Ready || c.state.Terminal())
    && (c.fact.Some? || c.pendingCrash.Some? ==> s.watcher == WatcherDone)
    && (c.pendingCrash.Some? ==> c.fact.None? && c.pendingCrash == Some(CrashCode.ReadinessTimeout))
    && (c.stopOnce <==> s.stopCalled)
    && (c.stopRequested <==> s.stopCalled || c.pendingCrash.Some?)
    && (s.reaper.ReaperDone? ==>
          c.reason == (if c.pendingCrash.Some? then c.pendingCrash
                       else if s.stopCalled then None else Some(ExitReason(s.reaper.exit))))
    && c.artifacts == Expected(s)
  }

  ghost predicate StopperOk(s: Sys, p: Stopper) {
    match p
    case First => s.stopCalled
    case Second => s.stopCalled
    case StopOk => s.core.state == Stopped
    case StopCrashed(code) => s.core.reason == Some(code)
    case StopContext => true
    case NilDereference => false
  }

  ghost predicate WaiterOk(s: Sys, w: Waiter) {
    match w
    case GotFact(f) => s.core.fact == Some(f)
    case GotNotReady => s.core.state.Terminal() && s.core.fact.None?
    case _ => true
  }

  ghost predicate Inv(s: Sys) {
    && CoreOk(s)
    && (forall n :: n in s.stoppers ==> StopperOk(s, s.stoppers[n]))
    && (forall n :: n in s.waiters ==> WaiterOk(s, s.waiters[n]))
  }

  lemma InitInv(s: Sys)
    requires Init(s)
    ensures Inv(s)
  {
  }

  /** What no step undoes: a terminal state and its reason stand, a fact stands, a stop stands. */
  ghost predicate Later(s: Sys, t: Sys) {
    && (s.core.state.Terminal() ==> t.core.state == s.core.state && t.core.reason == s.core.reason
                                    && t.core.fact == s.core.fact)
    && (s.core.fact.Some? ==> t.core.fact == s.core.fact)
    && (s.stopCalled ==> t.stopCalled)
    && s.endings <= t.endings <= 1
  }

  /** What the watcher received before it acts changes no record. */
  lemma WatcherReceives(s: Sys, step: Step)
    requires CoreOk(s) && Next(s, step).Some?
    requires step.ReadyLine? || step.WatchLine? || step.WatchTimeout? || step.WatchDone?
    ensures CoreOk(Next(s, step).value) && Later(s, Next(s, step).value)
  {
    assert Next(s, step).value.core == s.core;
  }

  lemma WatcherSeesLine(s: Sys)
    requires CoreOk(s) && s.watcher.HasLine?
    ensures CoreOk(Next(s, WatcherActs).value) && Later(s, Next(s, WatcherActs).value)
  {
  }

  lemma WatcherActsStep(s: Sys)
    requires CoreOk(s) && Next(s, WatcherActs).Some?
    ensures CoreOk(Next(s, WatcherActs).value) && Later(s, Next(s, WatcherActs).value)
  {
    if s.watcher.HasLine? { WatcherSeesLine(s); }
  }

  lemma WatcherStep(s: Sys, step: Step)
    requires CoreOk(s) && Next(s, step).Some?
    requires step.ReadyLine? || step.WatchLine? || step.WatchTimeout? || step.WatchDone? || step.WatcherActs?
    ensures CoreOk(Next(s, step).value) && Later(s, Next(s, step).value)
  {
    if step.WatcherActs? { WatcherActsStep(s); } else { WatcherReceives(s, step); }
  }

  /** The first section marks the process running. */
  lemma ReaperMarks(s: Sys)
    requires CoreOk(s) && Next(s, ReaperActs).Some? && s.reaper.Exited?
    ensures CoreOk(Next(s, ReaperActs).value) && Later(s, Next(s, ReaperActs).value)
  {
  }

  lemma ReaperProceeds(s: Sys)
    requires CoreOk(s) && Next(s, ReaperActs).Some? && (s.reaper.DeliveringOut? || s.reaper.DeliveringErr?)
    ensures CoreOk(Next(s, ReaperActs).value) && Later(s, Next(s, ReaperActs).value)
  {
  }

  /** The reaper's sections before the last leave the record alone but for the artifacts. */
  lemma ReaperDelivers(s: Sys, step: Step)
    requires CoreOk(s) && Next(s, step).Some? && (step.ChildExits? || step.ReaperActs?) && !s.reaper.Recording?
    ensures CoreOk(Next(s, step).value) && Later(s, Next(s, step).value)
  {
    if s.reaper.Exited? { ReaperMarks(s); } else if step.ReaperActs? { ReaperProceeds(s); }
  }

  /** The last one records the ending. */
  lemma ReaperRecords(s: Sys)
    requires CoreOk(s) && s.reaper.Recording? && Next(s, ReaperActs).Some?
    ensures CoreOk(Next(s, ReaperActs).value) && Later(s, Next(s, ReaperActs).value)
  {
  }

  lemma ReaperStep(s: Sys, step: Step)
    requires CoreOk(s) && Next(s, step).Some? && (step.ChildExits? || step.ReaperActs?)
    ensures CoreOk(Next(s, step).value) && Later(s, Next(s, step).value)
  {
    if s.reaper.Recording? { ReaperRecords(s); } else { ReaperDelivers(s, step); }
  }

  lemma CallerStep(s: Sys, step: Step)
    requires CoreOk(s) && Next(s, step).Some?
    requires step.StopBegins? || step.StopEnds? || step.StopGivesUp?
             || step.WaitBegins? || step.WaitEnds? || step.WaitGivesUp?
    ensures CoreOk(Next(s, step).value) && Later(s, Next(s, step).value)
  {
  }

  lemma CoreStep(s: Sys, step: Step)
    requires CoreOk(s) && Next(s, step).Some?
    ensures CoreOk(Next(s, step).value) && Later(s, Next(s, step).value)
  {
    match step
    case ReadyLine(_) => WatcherStep(s, step);
    case WatchLine => WatcherStep(s, step);
    case WatchTimeout => WatcherStep(s, step);
    case WatchDone => WatcherStep(s, step);
    case WatcherActs => WatcherStep(s, step);
    case ChildExits(_, _, _) => ReaperStep(s, step);
    case ReaperActs => ReaperStep(s, step);
    case _ => CallerStep(s, step);
  }

  lemma StoppersStep(s: Sys, step: Step, n: nat)
    requires Inv(s) && Next(s, step).Some? && n in Next(s, step).value.stoppers
    requires Later(s, Next(s, step).value)
    ensures StopperOk(Next(s, step).value, Next(s, step).value.stoppers[n])
  {
    if n in s.stoppers { assert StopperOk(s, s.stoppers[n]); }
  }

  lemma WaitersStep(s: Sys, step: Step, n: nat)
    requires Inv(s) && Next(s, step).Some? && n in Next(s, step).value.waiters
    requires Later(s, Next(s, step).value)
    ensures WaiterOk(Next(s, step).value, Next(s, step).value.waiters[n])
  {
    if n in s.waiters { assert WaiterOk(s, s.waiters[n]); }
  }

  lemma StepInv(s: Sys, step: Step)
    requires Inv(s) && Next(s, step).Some?
    ensures Inv(Next(s, step).value) && Later(s, Next(s, step).value)
  {
    CoreStep(s, step);
    forall n | n in Next(s, step).value.stoppers
      ensures StopperOk(Next(s, step).value, Next(s, step).value.stoppers[n])
    {
      StoppersStep(s, step, n);
    }
    forall n | n in Next(s, step).value.waiters
      ensures WaiterOk(Next(s, step).value, Next(s, step).value.waiters[n])
    {
      WaitersStep(s, step, n);
    }
  }

  ghost predicate IsRun(states: seq<Sys>, steps: seq<Step>) {
    |states| == |steps| + 1 && Init(states[0])
    && forall i :: 0 <= i < |steps| ==> Next(states[i], steps[i]) == Some(states[i + 1])
  }

  lemma RunInv(states: seq<Sys>, steps: seq<Step>)
    requires IsRun(states, steps)
    ensures forall i :: 0 <= i < |states| ==> Inv(states[i])
  {
    InitInv(states[0]);
    for i := 0 to |steps|
      invariant forall j :: 0 <= j <= i ==> Inv(states[j])
    {
      assert Next(states[i], steps[i]) == Some(states[i + 1]);
      StepInv(states[i], steps[i]);
    }
  }

  /** Over every interleaving: the wait and done channels were closed exactly once if the state is
      terminal, the ready channel exactly once if a fact is recorded or the state is terminal, and
      otherwise never; the process is crashed exactly when it has a reason, and the terminal state
      is entered at most once. */
  lemma LifecycleExact(states: seq<Sys>, steps: seq<Step>, i: nat)
    requires IsRun(states, steps) && i < |states|
    ensures var s := states[i];
            && Channels(s.core)
            && (s.core.state == Crashed <==> s.core.reason.Some?)
            && s.endings == (if s.core.state.Terminal() then 1 else 0)
  {
    RunInv(states, steps);
  }

  /** How it ended: stopped exactly when Stop was called and readiness did not time out; crashed for
      the readiness timeout exactly when it did, and then no readiness fact exists; otherwise
      crashed for the exit. The captured output was delivered in every case. */
  lemma EndingExact(states: seq<Sys>, steps: seq<Step>, i: nat)
    requires IsRun(states, steps) && i < |states| && states[i].core.state.Terminal()
    ensures var s := states[i];
            && s.reaper.ReaperDone?
            && (s.core.state == Stopped <==> s.stopCalled && s.core.pendingCrash.None?)
            && (s.core.reason == Some(CrashCode.ReadinessTimeout) <==> s.core.pendingCrash.Some?)
            && (s.core.reason == Some(CrashCode.ReadinessTimeout) ==> s.core.fact.None?)
            && (!s.stopCalled && s.core.pendingCrash.None? ==>
                  && (s.core.reason == Some(ExitNonZero) <==> s.reaper.exit.Code?)
                  && (s.core.reason == Some(Signaled) <==> s.reaper.exit.Signal?)
                  && (s.core.reason == Some(ExitUnexpected) <==> s.reaper.exit.WaitFailed? || s.reaper.exit.Clean?))
            && s.core.artifacts == Expected(s)
  {
    RunInv(states, steps);
    assert CoreOk(states[i]);
  }

  /** One of the first n steps is the child's exit, in this way and with this output. */
  ghost predicate ExitedAs(steps: seq<Step>, n: nat, exit: Exit, stdout: string, stderr: string)
    requires n <= |steps|
  {
    exists i :: 0 <= i < n && steps[i] == ChildExits(exit, stdout, stderr)
  }

  ghost predicate ExitKnown(s: Sys, steps: seq<Step>, n: nat)
    requires n <= |steps|
  {
    !s.reaper.AwaitingExit? ==> ExitedAs(steps, n, s.reaper.exit, s.stdout, s.stderr)
  }

  lemma ExitMoves(s: Sys, step: Step)
    requires Next(s, step).Some? && !Next(s, step).value.reaper.AwaitingExit?
    ensures var t := Next(s, step).value;
            step == ChildExits(t.reaper.exit, t.stdout, t.stderr)
            || (!s.reaper.AwaitingExit? && (t.reaper.exit, t.stdout, t.stderr) == (s.reaper.exit, s.stdout, s.stderr))
  {
  }

  lemma ExitStep(states: seq<Sys>, steps: seq<Step>, n: nat)
    requires IsRun(states, steps) && n < |steps| && ExitKnown(states[n], steps, n)
    ensures ExitKnown(states[n + 1], steps, n + 1)
  {
    var s, t := states[n], states[n + 1];
    assert Next(s, steps[n]) == Some(t);
    if !t.reaper.AwaitingExit? {
      ExitMoves(s, steps[n]);
      if steps[n] != ChildExits(t.reaper.exit, t.stdout, t.stderr) {
        var i :| 0 <= i < n && steps[i] == ChildExits(s.reaper.exit, s.stdout, s.stderr);
      }
    }
  }

  /** Over every run the artifacts of a process that has ended are what its child printed before it
      exited, its standard output first, and the reaper knows how it exited. */
  lemma OutputDelivered(states: seq<Sys>, steps: seq<Step>, n: nat) returns (i: nat)
    requires IsRun(states, steps) && n < |states| && states[n].core.state.Terminal()
    ensures i < n && steps[i].ChildExits? && states[n].reaper == ReaperDone(steps[i].exit)
    ensures states[n].core.artifacts
            == (if steps[i].stdout == "" then [] else [Artifact("stdout.log", steps[i].stdout)])
               + (if steps[i].stderr == "" then [] else [Artifact("stderr.log", steps[i].stderr)])
  {
    for m := 0 to n
      invariant ExitKnown(states[m], steps, m)
    {
      ExitStep(states, steps, m);
    }
    EndingExact(states, steps, n);
    i :| 0 <= i < n && steps[i] == ChildExits(states[n].reaper.exit, states[n].stdout, states[n].stderr);
  }

  /** A terminal state is never left or changed, and neither is a readiness fact. */
  lemma {:induction false} TerminalForever(states: seq<Sys>, steps: seq<Step>, i: nat, j: nat)
    requires IsRun(states, steps) && i <= j < |states|
    ensures Later(states[i], states[j])
  {
    RunInv(states, steps);
    assert CoreOk(states[i]);
    if i < j {
      TerminalForever(states, steps, i, j - 1);
      StepInv(states[j - 1], steps[j - 1]);
      assert Next(states[j - 1], steps[j - 1]) == Some(states[j]);
    }
  }

  /** No Stop caller ever dereferences a missing reason; nil means stopped and an error names the
      recorded crash. No readiness waiter misses its fact. */
  lemma CallersExact(states: seq<Sys>, steps: seq<Step>, i: nat, n: nat)
    requires IsRun(states, steps) && i < |states|
    ensures var s := states[i];
            && (n in s.stoppers ==>
                  s.stoppers[n] != NilDereference
                  && (s.stoppers[n] == StopOk ==> s.core.state == Stopped)
                  && (s.stoppers[n].StopCrashed? ==>
                        s.core.state == Crashed && s.core.reason == Some(s.stoppers[n].code)))
            && (n in s.waiters ==>
                  (s.waiters[n].GotFact? ==> s.core.fact == Some(s.waiters[n].fact))
                  && (s.waiters[n] == GotNotReady ==> s.core.state.Terminal() && s.core.fact.None?))
  {
    RunInv(states, steps);
    assert Inv(states[i]);
    if n in states[i].stoppers { assert StopperOk(states[i], states[i].stoppers[n]); }
    if n in states[i].waiters { assert WaiterOk(states[i], states[i].waiters[n]); }
  }

  // ----- readiness: what is printed is recorded, and nothing else -----

  lemma WatcherOutcome(s: Sys)
    requires CoreOk(s) && Next(s, WatcherActs).Some?
    ensures var t := Next(s, WatcherActs).value;
            && t.watcher == WatcherDone
            && (s.core.state.Terminal() ==> t.core == s.core)
            && (s.watcher.HasLine? && !s.core.state.Terminal() ==>
                  t.core == s.core.(fact := Some(s.watcher.line), state := Ready, readyCloses := 1))
            && (s.watcher.HasTimeout? && !s.core.state.Terminal() ==>
                  t.core == s.core.(pendingCrash := Some(CrashCode.ReadinessTimeout), stopRequested := true))
  {
  }

  /** Over every run: when the watcher acts on a line and the process has not ended, the line is
      recorded, the process becomes ready, launching or running, and the ready channel is closed;
      when it acts on the timeout, a crash is pending and a stop requested. A process that has ended
      is left alone. */
  lemma ReadinessExact(states: seq<Sys>, steps: seq<Step>, i: nat)
    requires IsRun(states, steps) && i < |steps| && steps[i] == WatcherActs
    ensures var s, t := states[i], states[i + 1];
            && (s.watcher.HasLine? || s.watcher.HasTimeout?) && t.watcher == WatcherDone
            && (s.core.state.Terminal() ==> t.core == s.core)
            && (s.watcher.HasLine? && !s.core.state.Terminal() ==>
                  t.core.fact == Some(s.watcher.line) && t.core.state == Ready && t.core.readyCloses == 1
                  && t.core == s.core.(fact := t.core.fact, state := t.core.state, readyCloses := t.core.readyCloses))
            && (s.watcher.HasTimeout? && !s.core.state.Terminal() ==>
                  t.core.pendingCrash == Some(CrashCode.ReadinessTimeout) && t.core.stopRequested
                  && t.core == s.core.(pendingCrash := t.core.pendingCrash, stopRequested := true))
  {
    RunInv(states, steps);
    assert Inv(states[i]) && Next(states[i], steps[i]) == Some(states[i + 1]);
    WatcherOutcome(states[i]);
  }

  /** The step is the watcher taking the reported line, or acting on what it took. */
  predicate Hears(step: Step) { step.WatchLine? || step.WatcherActs? }

  lemma LineWaits(s: Sys, step: Step)
    requires Next(s, step).Some? && !Hears(step)
    ensures s.line.Some? ==> Next(s, step).value.line == s.line
    ensures !s.watcher.Selecting? ==> Next(s, step).value.watcher == s.watcher
  {
  }

  lemma LineTaken(s: Sys, line: string)
    requires Next(s, ReadyLine(line)).Some?
    ensures Next(s, ReadyLine(line)).value.line == Some(if s.line.Some? then s.line.value else line)
    ensures Next(s, WatchLine).Some? <==> s.watcher.Selecting? && s.line.Some?
    ensures Next(s, WatchLine).Some? ==> Next(s, WatchLine).value.watcher == HasLine(s.line.value)
  {
  }

  /** Over every run: the first ready line the child prints is the one the watcher takes, however
      many follow, and unless the process has ended by then it is recorded and the process becomes
      ready. */
  lemma PrintedIsRecorded(states: seq<Sys>, steps: seq<Step>, i: nat, j: nat, k: nat, line: string)
    requires IsRun(states, steps) && i < j < k < |steps| && states[i].line.None?
    requires steps[i] == ReadyLine(line) && steps[j] == WatchLine && steps[k] == WatcherActs
    requires forall m :: i < m < k && m != j ==> !Hears(steps[m])
    ensures states[k].watcher == HasLine(line)
    ensures !states[k].core.state.Terminal() ==>
              states[k + 1].core.fact == Some(line) && states[k + 1].core.state == Ready
  {
    assert Next(states[i], steps[i]) == Some(states[i + 1]);
    LineTaken(states[i], line);
    for m := i + 1 to j
      invariant states[m].line == Some(line)
    {
      assert Next(states[m], steps[m]) == Some(states[m + 1]);
      LineWaits(states[m], steps[m]);
    }
    assert Next(states[j], steps[j]) == Some(states[j + 1]);
    LineTaken(states[j], line);
    for m := j + 1 to k
      invariant states[m].watcher == HasLine(line)
    {
      assert Next(states[m], steps[m]) == Some(states[m + 1]);
      LineWaits(states[m], steps[m]);
    }
    ReadinessExact(states, steps, k);
  }

  /** The child printed this line in one of the first n steps. */
  ghost predicate Printed(steps: seq<Step>, n: nat, line: string)
    requires n <= |steps|
  {
    exists i :: 0 <= i < n && steps[i] == ReadyLine(line)
  }

  ghost predicate LinesPrinted(s: Sys, steps: seq<Step>, n: nat)
    requires n <= |steps|
  {
    && (s.line.Some? ==> Printed(steps, n, s.line.value))
    && (s.watcher.HasLine? ==> Printed(steps, n, s.watcher.line))
    && (s.core.fact.Some? ==> Printed(steps, n, s.core.fact.value))
  }

  lemma LinesMove(s: Sys, step: Step)
    requires Next(s, step).Some?
    ensures var t := Next(s, step).value;
            && (t.line.Some? ==> t.line == s.line || step == ReadyLine(t.line.value))
            && (t.watcher.HasLine? ==> t.watcher == s.watcher || s.line == Some(t.watcher.line))
  {
  }

  /** Only the watcher touches the fact. */
  lemma FactStands(s: Sys, step: Step)
    requires Next(s, step).Some? && step != WatcherActs
    ensures Next(s, step).value.core.fact == s.core.fact
  {
    if step.ReaperActs? && s.reaper.Recording? { assert s.core.Record(s.reaper.exit).fact == s.core.fact; }
  }

  lemma FactMoves(s: Sys, step: Step)
    requires Next(s, step).Some?
    ensures var t := Next(s, step).value;
            t.core.fact.Some? ==> t.core.fact == s.core.fact || s.watcher == HasLine(t.core.fact.value)
  {
    if step != WatcherActs { FactStands(s, step); }
  }

  lemma PrintedLater(steps: seq<Step>, n: nat, line: string)
    requires n < |steps|
    ensures Printed(steps, n, line) ==> Printed(steps, n + 1, line)
    ensures steps[n] == ReadyLine(line) ==> Printed(steps, n + 1, line)
  {
    if Printed(steps, n, line) {
      var i :| 0 <= i < n && steps[i] == ReadyLine(line);
    }
  }

  lemma LinesStep(states: seq<Sys>, steps: seq<Step>, n: nat)
    requires IsRun(states, steps) && n < |steps| && LinesPrinted(states[n], steps, n)
    ensures LinesPrinted(states[n + 1], steps, n + 1)
  {
    var s, t := states[n], states[n + 1];
    assert Next(s, steps[n]) == Some(t);
    LinesMove(s, steps[n]);
    FactMoves(s, steps[n]);
    if t.line.Some? { PrintedLater(steps, n, t.line.value); }
    if t.watcher.HasLine? { PrintedLater(steps, n, t.watcher.line); }
    if t.core.fact.Some? { PrintedLater(steps, n, t.core.fact.value); }
  }

  /** Over every run a recorded readiness fact is a line the child printed before. */
  lemma FactWasPrinted(states: seq<Sys>, steps: seq<Step>, n: nat) returns (i: nat)
    requires IsRun(states, steps) && n < |states| && states[n].core.fact.Some?
    ensures i < n && steps[i] == ReadyLine(states[n].core.fact.value)
  {
    for m := 0 to n
      invariant LinesPrinted(states[m], steps, m)
    {
      LinesStep(states, steps, m);
    }
    i :| 0 <= i < n && steps[i] == ReadyLine(states[n].core.fact.value);
  }

  // ----- nobody waits in vain -----

  /** The reaper can go on until it is done, and it is done exactly when the process has ended. */
  predicate ReaperProceedsTo(s: Sys) {
    && (s.reaper.ReaperDone? <==> s.core.state.Terminal())
    && (s.reaper.AwaitingExit? || s.reaper.ReaperDone? || Next(s, ReaperActs).Some?)
  }

  /** The watcher takes a reported line, the timeout or the end of the process as they come, and then
      acts; until then nothing is lost. */
  predicate WatcherServed(s: Sys) {
    && (Next(s, WatchLine).Some? <==> s.watcher.Selecting? && s.line.Some?)
    && (Next(s, WatchTimeout).Some? <==> s.watcher.Selecting?)
    && (Next(s, WatchDone).Some? <==> s.watcher.Selecting? && s.core.state.Terminal())
    && (Next(s, WatcherActs).Some? <==> s.watcher.HasLine? || s.watcher.HasTimeout?)
    && (Next(s, WatchTimeout).Some? ==> Next(s, WatchTimeout).value == s.(watcher := HasTimeout))
  }

  /** A waiting Stop caller returns exactly once the process has ended, with how it ended. */
  predicate StopServed(s: Sys, n: nat) {
    var waiting := n in s.stoppers && (s.stoppers[n].First? || s.stoppers[n].Second?);
    var t := Next(s, StopEnds(n));
    && (t.Some? <==> waiting && s.core.state.Terminal())
    && (t.Some? && s.core.state == Stopped ==> t.value.stoppers[n] == StopOk)
    && (t.Some? && s.core.state == Crashed ==>
          s.core.reason.Some? && t.value.stoppers[n] == StopCrashed(s.core.reason.value))
  }

  /** A readiness waiter returns exactly once there is a fact or an end, with the fact if there is one. */
  predicate WaitServed(s: Sys, n: nat) {
    var waiting := n in s.waiters && s.waiters[n].WaitingReady?;
    var t := Next(s, WaitEnds(n));
    && (t.Some? <==> waiting && (s.core.fact.Some? || s.core.state.Terminal()))
    && (t.Some? && s.core.fact.Some? ==> t.value.waiters[n] == GotFact(s.core.fact.value))
    && (t.Some? && s.core.fact.None? ==> t.value.waiters[n] == GotNotReady)
  }

  /** Over every run a Stop call waits exactly if the process has not ended, and a stop is then
      requested; on one that has ended it returns at once, with how it ended. */
  lemma StopBeginsExact(states: seq<Sys>, steps: seq<Step>, i: nat, n: nat)
    requires IsRun(states, steps) && i < |steps| && steps[i] == StopBegins(n)
    ensures n in states[i + 1].stoppers
    ensures var s, t, p := states[i], states[i + 1], states[i + 1].stoppers[n];
            && (!s.core.state.Terminal() ==>
                  (p == First || p == Second) && t.stopCalled && t.core.stopRequested
                  && t.core == s.core.(stopRequested := true, stopOnce := true))
            && (s.core.state.Terminal() ==> t.core == s.core)
            && (s.core.state == Stopped ==> p == StopOk)
            && (s.core.state == Crashed ==> s.core.reason.Some? && p == StopCrashed(s.core.reason.value))
  {
    RunInv(states, steps);
    assert Inv(states[i]) && Next(states[i], steps[i]) == Some(states[i + 1]);
    StopBeginsAt(states[i], n);
  }

  lemma StopBeginsAt(s: Sys, n: nat)
    requires CoreOk(s) && Next(s, StopBegins(n)).Some?
    ensures var t := Next(s, StopBegins(n)).value;
            && n in t.stoppers
            && (!s.core.state.Terminal() ==>
                  (t.stoppers[n] == First || t.stoppers[n] == Second) && t.stopCalled
                  && t.core == s.core.(stopRequested := true, stopOnce := true))
            && (s.core.state.Terminal() ==> t.core == s.core)
            && (s.core.state == Stopped ==> t.stoppers[n] == StopOk)
            && (s.core.state == Crashed ==> s.core.reason.Some? && t.stoppers[n] == StopCrashed(s.core.reason.value))
  {
  }

  lemma ServedAt(s: Sys, n: nat)
    requires CoreOk(s)
    ensures ReaperProceedsTo(s) && WatcherServed(s) && StopServed(s, n) && WaitServed(s, n)
  {
  }

  /** Over every run neither the reaper nor the watcher is ever stuck, and no Stop caller or readiness
      waiter waits in vain or returns too early. */
  lemma CallersServed(states: seq<Sys>, steps: seq<Step>, i: nat, n: nat)
    requires IsRun(states, steps) && i < |states|
    ensures ReaperProceedsTo(states[i]) && WatcherServed(states[i])
    ensures StopServed(states[i], n) && WaitServed(states[i], n)
  {
    RunInv(states, steps);
    assert Inv(states[i]);
    ServedAt(states[i], n);
  }

  // ----- the process object -----

  /** The fields under the lock and the locked sections of its actors. */
  class LaunchedProcess {
    var state: ProcessState
    var fact: Option<string>
    var reason: Option<CrashCode>
    var artifacts: seq<Artifact>
    var stopRequested: bool
    var pendingCrash: Option<CrashCode>
    var stopOnce: bool
    var waitCloses: nat
    var readyCloses: nat
    var doneCloses: nat

    ghost function View(): Core
      reads this
    {
      Core(state, fact, reason, artifacts, stopRequested, pendingCrash, stopOnce, waitCloses, readyCloses, doneCloses)
    }

    constructor ()
      ensures View() == LAUNCHED
    {
      state, fact, reason, artifacts := Launching, None, None, [];
      stopRequested, pendingCrash, stopOnce := false, None, false;
      waitCloses, readyCloses, doneCloses := 0, 0, 0;
    }

    method MarkRunning() returns (ok: bool)
      modifies this
      ensures View() == old(View()).MarkRunning() && ok == (old(state) == Launching)
    {
      if state != Launching { return false; }
      state := Running;
      return true;
    }

    method MarkReady(line: string)
      modifies this
      ensures View() == old(View()).MarkReady(line)
    {
      if fact.Some? || state.Terminal() { return; }
      if state == Launching { state := Running; }
      if state != Running { return; }
      fact := Some(line);
      state := Ready;
      CloseReadyChLocked();
    }

    method ReadinessTimeout()
      modifies this
      ensures View() == old(View()).TimeOut()
    {
      if state.Terminal() { return; }
      pendingCrash := Some(CrashCode.ReadinessTimeout);
      stopRequested := true;
    }

    method DeliverArtifact(a: Artifact) returns (ok: bool)
      modifies this
      ensures View() == old(View()).Deliver(a) && ok == (old(state) == Running || old(state) == Ready)
    {
      if state != Running && state != Ready { return false; }
      artifacts := artifacts + [a];
      return true;
    }

    method TerminalLocked(next: ProcessState, why: Option<CrashCode>)
      modifies this
      ensures View() == old(View()).Terminate(next, why)
    {
      state := next;
      reason := why;
      if waitCloses == 0 { waitCloses := waitCloses + 1; }
      CloseReadyChLocked();
    }

    /** A channel not closed yet is closed, once; a closed one is not closed again. */
    method CloseReadyChLocked()
      modifies this
      ensures View() == old(View()).(readyCloses := readyCloses)
      ensures readyCloses >= 1 && (old(readyCloses) <= 1 ==> readyCloses == 1)
      ensures old(readyCloses) > 0 ==> readyCloses == old(readyCloses)
    {
      if readyCloses == 0 { readyCloses := readyCloses + 1; }
    }

    /** The reaper from the child's exit on, run alone. */
    method Reap(exit: Exit, stdout: string, stderr: string)
      modifies this
      ensures var running := old(View()).MarkRunning();
              View() == DeliverStream(DeliverStream(running, "stdout.log", stdout), "stderr.log", stderr).Record(exit)
    {
      var _ := MarkRunning();
      if |stdout| > 0 { var _ := DeliverArtifact(Artifact("stdout.log", stdout)); }
      if |stderr| > 0 { var _ := DeliverArtifact(Artifact("stderr.log", stderr)); }
      if pendingCrash.Some? {
        TerminalLocked(Crashed, pendingCrash);
      } else if stopRequested {
        TerminalLocked(Stopped, None);
      } else {
        TerminalLocked(Crashed, Some(ExitReason(exit)));
      }
      doneCloses := doneCloses + 1;
    }

    /** Stop's first section: refuse on a terminal process, else request the teardown once. */
    method BeginStop() returns (r: Stopper)
      modifies this
      ensures r == (if old(state).Terminal() then StopOutcome(old(View()))
                    else if old(stopOnce) then Second else First)
      ensures View() == if old(state).Terminal() then old(View()) else old(View()).RequestStop()
    {
      if state == Stopped { return StopOk; }
      if state == Crashed { return if reason.Some? then StopCrashed(reason.value) else NilDereference; }
      if stopOnce { return Second; }
      stopOnce := true;
      stopRequested := true;
      return First;
    }

    /** The fact read by a readiness waiter that saw the channel closed, on a record every run keeps:
        it gets the fact exactly when one was recorded, and else the process has ended without. */
    method ReadFact() returns (w: Waiter)
      requires Channels(View()) && readyCloses > 0
      ensures w == WaiterOutcome(View())
      ensures w.GotFact? ==> fact == Some(w.fact)
      ensures !w.GotFact? ==> w == GotNotReady && state.Terminal() && fact.None?
    {
      return if fact.Some? then GotFact(fact.value) else GotNotReady;
    }
  }
}
