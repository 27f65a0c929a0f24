/** What the allocator's calls come to: when a launch, a cleanup or a recovery may fail, what a
    returned call says about the registry, and that no call is ever stuck. */
module CustodyOutcomes {
  import opened Prelude
  import opened Custody
  import S = Supervision

  // ----- cleanup -----

  /** A process under cleanup is registered until it is swept. */
  lemma CleaningRegistered(s: State, a: Actor)
    requires Threads(s) && a in s.threads && s.threads[a].Cleaning? && s.threads[a].stage != Swept
    ensures s.Registered(s.threads[a].handle)
  {
    var h := s.threads[a].handle;
    assert ActorOk(s, a, s.threads[a]);
    if s.threads[a].recovering {
      assert RetainedOk(s, h.spec.generation);
      assert ActorOk(s, s.holder[h.spec.generation], GaveUp(h));
    }
  }

  /** What a stage of cleanup does: a process known to be dead is not stopped; it fails only for a
      process that still lives; it sweeps exactly a dead one, which leaves the registry with that. */
  ghost predicate StageOk(s: State, t: State, a: Actor, outcome: bool)
    requires a in s.threads && s.threads[a].Cleaning?
  {
    var Cleaning(h, stage, recovering) := s.threads[a];
    && a in t.threads && t.threads[a].Cleaning? && t.threads[a].handle == h && t.threads[a].recovering == recovering
    && (stage == Checking && h in s.terminal ==> t.threads[a].stage == Reaping)
    && (stage == Stopping ==> t.threads[a].stage == if outcome then Reaping else Rechecking)
    && (t.threads[a].stage == Failed ==> h !in s.terminal)
    && (stage == Reaping ==> (t.threads[a].stage == Swept <==> h in s.terminal))
    && (t.threads[a].stage == Swept ==> t.reaps == s.reaps + [h] && !t.Registered(h))
    && (t.threads[a].stage != Swept ==> t.reaps == s.reaps && t.sys == s.sys)
    && t.retained == s.retained && t.owner == s.owner
  }

  lemma StageExact(s: State, a: Actor, outcome: bool)
    requires Next(s, Clean(a, outcome)).Some?
    requires a in s.threads && s.threads[a].Cleaning? && s.threads[a].stage != Swept
             ==> s.Registered(s.threads[a].handle)
    ensures a in s.threads && s.threads[a].Cleaning? && StageOk(s, Next(s, Clean(a, outcome)).value, a, outcome)
  {
  }

  /** Over every run each stage of each cleanup is of this kind. */
  lemma CleanupExact(states: seq<State>, steps: seq<Step>, i: nat, a: Actor, outcome: bool)
    requires IsRun(states, steps) && i < |steps| && steps[i] == Clean(a, outcome)
    ensures a in states[i].threads && states[i].threads[a].Cleaning? && StageOk(states[i], states[i + 1], a, outcome)
  {
    RunInv(states, steps);
    assert Next(states[i], steps[i]) == Some(states[i + 1]);
    if states[i].threads[a].stage != Swept { CleaningRegistered(states[i], a); }
    StageExact(states[i], a, outcome);
  }

  // ----- Allocate -----

  /** The sections of an Allocate call before any cleanup: it launches the next generation unless the
      ports are exhausted; a failed launch leaves no registration behind; a launched process is
      registered under its own spec; with readiness evidence it is handed out, and without it cleaned
      up. */
  ghost predicate AllocateOk(s: State, step: Step, t: State, n: nat) {
    var a, reg := Allocation(n), s.sys.reg;
    && a in t.threads
    && (step.Begin? ==>
          if reg.nextGeneration < 65537 - reg.basePort
          then t.threads[a] == Launching(reg.nextGeneration) && t.sys.reg.nextGeneration == reg.nextGeneration + 1
          else t.threads[a] == StartFailed && t.sys == s.sys)
    && (!step.Begin? ==> a in s.threads)
    && (step.LaunchFails? ==>
          s.threads[a].Launching? && t.threads[a] == StartFailed
          && S.ProcId(s.threads[a].generation) !in t.sys.reg.processes)
    && (step.LaunchReturns? ==>
          s.threads[a].Launching? && t.threads[a].Waiting? && t.threads[a].handle in t.launched
          && t.Registered(t.threads[a].handle)
          && t.threads[a].handle == S.Handle(step.id, reg.SpecFor(s.threads[a].generation)))
    && (step.ReadinessProven? ==> s.threads[a].Waiting? && t.threads[a] == Ready(s.threads[a].handle) && t.sys == s.sys)
    && (step.ReadinessFails? ==>
          s.threads[a].Waiting? && t.threads[a] == Cleaning(s.threads[a].handle, Checking, false) && t.sys == s.sys)
  }

  predicate Allocates(step: Step, n: nat) {
    (step.Begin? || step.LaunchFails? || step.LaunchReturns? || step.ReadinessProven? || step.ReadinessFails?)
    && step.n == n
  }

  lemma BeginSection(s: State, n: nat)
    requires S.Inv(s.sys) && Next(s, Begin(n)).Some?
    ensures AllocateOk(s, Begin(n), Next(s, Begin(n)).value, n)
  {
    S.ReserveOutcome(s.sys);
  }

  lemma FailsSection(s: State, n: nat)
    requires Inv(s) && Next(s, LaunchFails(n)).Some?
    ensures AllocateOk(s, LaunchFails(n), Next(s, LaunchFails(n)).value, n)
  {
    assert ActorOk(s, Allocation(n), s.threads[Allocation(n)]);
  }

  lemma ReturnsSection(s: State, n: nat, id: nat)
    requires Inv(s) && Next(s, LaunchReturns(n, id)).Some?
    ensures AllocateOk(s, LaunchReturns(n, id), Next(s, LaunchReturns(n, id)).value, n)
  {
    assert ActorOk(s, Allocation(n), s.threads[Allocation(n)]);
  }

  lemma ReadinessSection(s: State, step: Step, n: nat)
    requires Next(s, step).Some? && (step.ReadinessProven? || step.ReadinessFails?) && step.n == n
    ensures AllocateOk(s, step, Next(s, step).value, n)
  {
  }

  lemma AllocateSection(s: State, step: Step, n: nat)
    requires Inv(s) && Next(s, step).Some? && Allocates(step, n)
    ensures AllocateOk(s, step, Next(s, step).value, n)
  {
    if step.Begin? {
      BeginSection(s, n);
    } else if step.LaunchFails? {
      FailsSection(s, n);
    } else if step.LaunchReturns? {
      ReturnsSection(s, n, step.id);
    } else {
      ReadinessSection(s, step, n);
    }
  }

  /** Over every run the sections of every Allocate call are of this kind. */
  lemma AllocateExact(states: seq<State>, steps: seq<Step>, i: nat, n: nat)
    requires IsRun(states, steps) && i < |steps| && Allocates(steps[i], n)
    ensures AllocateOk(states[i], steps[i], states[i + 1], n)
  {
    RunInv(states, steps);
    assert Next(states[i], steps[i]) == Some(states[i + 1]);
    AllocateSection(states[i], steps[i], n);
  }

  /** How a failed allocation ends: without its process, which was dead and is swept, or with its
      process retained and still registered. */
  lemma AllocateSettles(s: State, a: Actor)
    requires Inv(s) && Next(s, Settle(a)).Some? && a.Allocation?
    ensures var t, h := Next(s, Settle(a)).value, s.threads[a].handle;
            (t.threads[a] == Reclaimed(h) && h in t.reaps && h.spec.generation !in t.retained)
            || (t.threads[a] == GaveUp(h) && t.retained == s.retained[h.spec.generation := h] && t.Registered(h))
    ensures var t := Next(s, Settle(a)).value;
            t.threads[a].Reclaimed? <==> s.threads[a].stage == Swept
  {
    assert ActorOk(s, a, s.threads[a]);
  }

  // ----- Recover -----

  /** The generation a Recover call is about, until it returns. */
  function Wanted(th: Thread): Option<nat> {
    match th
    case Wanting(g) => Some(g)
    case Owning(g) => Some(g)
    case Cleaning(h, _, _) => Some(h.spec.generation)
    case _ => None
  }

  /** Call n, asked to recover generation g, returns in this step. */
  ghost predicate RecoverReturns(s: State, step: Step, t: State, n: nat, g: nat) {
    var a := Recovery(n);
    && a in t.threads && t.threads[a].Returned?
    && if a in s.threads then Wanted(s.threads[a]) == Some(g) else step == RecoverBegin(n, g)
  }

  /** The Recover call a step moves, if any. */
  function Mover(step: Step): Option<Actor> {
    match step
    case RecoverBegin(n, _) => Some(Recovery(n))
    case RecoverLock(n) => Some(Recovery(n))
    case RecoverRecheck(n) => Some(Recovery(n))
    case Clean(a, _) => Some(a)
    case Settle(a) => Some(a)
    case _ => None
  }

  lemma OthersStay(s: State, step: Step, n: nat)
    requires Next(s, step).Some? && Mover(step) != Some(Recovery(n)) && Recovery(n) in s.threads
    ensures Recovery(n) in Next(s, step).value.threads
    ensures Next(s, step).value.threads[Recovery(n)] == s.threads[Recovery(n)]
  {
  }

  /** A Recover call's own section, if it ends the call. */
  lemma OwnAnswer(s: State, step: Step, n: nat, g: nat)
    requires Threads(s) && Next(s, step).Some? && Mover(step) == Some(Recovery(n)) && Recovery(n) in s.threads
    requires Wanted(s.threads[Recovery(n)]) == Some(g) && Next(s, step).value.threads[Recovery(n)].Returned?
    ensures var t := Next(s, step).value;
            t.threads[Recovery(n)] == Returned(g !in t.retained) && t.owner.None?
            && t.sys == s.sys && (t.retained == s.retained || g !in t.retained)
  {
    assert ActorOk(s, Recovery(n), s.threads[Recovery(n)]);
  }

  lemma FirstAnswer(s: State, n: nat, g: nat)
    requires Books(s) && Next(s, RecoverBegin(n, g)).Some?
    ensures var t := Next(s, RecoverBegin(n, g)).value;
            t.threads[Recovery(n)] == (if g in s.retained then Wanting(g) else Returned(true))
            && t.owner == s.owner != Some(Recovery(n)) && t.retained == s.retained
  {
  }

  lemma RecoverAnswers(s: State, step: Step, n: nat, g: nat)
    requires Inv(s) && Next(s, step).Some? && RecoverReturns(s, step, Next(s, step).value, n, g)
    requires Recovery(n) in s.threads && s.threads[Recovery(n)].Cleaning? && s.threads[Recovery(n)].stage != Swept
             ==> s.Registered(s.threads[Recovery(n)].handle)
    ensures Answered(Next(s, step).value, n, g)
  {
    var a := Recovery(n);
    if a in s.threads {
      if Mover(step) != Some(a) { OthersStay(s, step, n); }
      OwnAnswer(s, step, n, g);
      assert ActorOk(s, a, s.threads[a]);
    } else {
      FirstAnswer(s, n, g);
    }
  }

  /** The call's answer is honest, and it does not keep the recovery lock. */
  ghost predicate Answered(t: State, n: nat, g: nat) {
    && t.Is(Recovery(n), Returned(g !in t.retained)) && t.owner != Some(Recovery(n))
    && (g in t.retained ==> t.Registered(t.retained[g]))
  }

  /** Over every run a Recover call answers with success exactly when its generation is not retained
      any more; otherwise its process still is, and still registered. It gives up the recovery lock
      in the same section. */
  lemma RecoverExact(states: seq<State>, steps: seq<Step>, i: nat, n: nat, g: nat)
    requires IsRun(states, steps) && i < |steps| && RecoverReturns(states[i], steps[i], states[i + 1], n, g)
    ensures Answered(states[i + 1], n, g)
  {
    RunInv(states, steps);
    assert Next(states[i], steps[i]) == Some(states[i + 1]);
    var s, a := states[i], Recovery(n);
    if a in s.threads && s.threads[a].Cleaning? && s.threads[a].stage != Swept { CleaningRegistered(s, a); }
    RecoverAnswers(states[i], steps[i], n, g);
  }

  // ----- nothing outside is held up -----

  /** What may happen at any time does: a process dies; a new call begins; a pending launch succeeds or
      fails; a pending wait is answered; a process handed out is asked to be reaped by the shutdown
      path, which takes it out of the registry exactly if it is dead and registered. */
  ghost predicate Open(s: State, step: Step) {
    match step
    case Dies(h) => Next(s, step) == Some(s.(terminal := s.terminal + {h}))
    case Begin(n) => Next(s, step).Some? <==> Allocation(n) !in s.threads
    case RecoverBegin(n, _) => Next(s, step).Some? <==> Recovery(n) !in s.threads
    case LaunchReturns(n, _) =>
      Next(s, step).Some? <==> Allocation(n) in s.threads && s.threads[Allocation(n)].Launching?
                               && s.threads[Allocation(n)].generation in s.sys.inflight
    case ReadinessProven(n) => Next(s, step).Some? <==> Allocation(n) in s.threads && s.threads[Allocation(n)].Waiting?
    case ReadinessFails(n) => Next(s, step).Some? <==> Allocation(n) in s.threads && s.threads[Allocation(n)].Waiting?
    case Shutdown(n) =>
      (Next(s, step).Some? <==> Allocation(n) in s.threads && s.threads[Allocation(n)].Ready?)
      && (Next(s, step).Some? ==>
            var h, t := s.threads[Allocation(n)].handle, Next(s, step).value;
            && t.threads == s.threads && t.retained == s.retained && t.reaps == s.reaps
            && t.released == (if s.Registered(h) && h in s.terminal then s.released + {h} else s.released)
            && (s.Registered(h) && h !in s.terminal ==> t.Registered(h)))
    case _ => true
  }

  lemma NothingHeldUp(s: State, step: Step)
    ensures Open(s, step)
  {
  }

  // ----- no call is stuck -----

  /** A step of this call. */
  function NextStep(s: State, a: Actor): Step
    requires a in s.threads && !Finished(s.threads[a])
  {
    match s.threads[a]
    case Launching(_) => LaunchFails(a.n)
    case Waiting(_) => ReadinessFails(a.n)
    case Wanting(_) => RecoverLock(a.n)
    case Owning(_) => RecoverRecheck(a.n)
    case Cleaning(_, stage, _) => if stage == Swept || stage == Failed then Settle(a) else Clean(a, true)
    case _ => Shutdown(a.n)
  }

  lemma StepEnabled(s: State, a: Actor)
    requires Threads(s) && a in s.threads && !Finished(s.threads[a]) && (s.threads[a].Wanting? ==> s.owner.None?)
    ensures Next(s, NextStep(s, a)).Some?
  {
    assert ActorOk(s, a, s.threads[a]);
  }

  /** In every reachable state an unfinished call can take a step, unless it is a Recover call that
      waits for the recovery lock, and then the owner of the lock can. */
  lemma NeverStuck(states: seq<State>, steps: seq<Step>, i: nat, a: Actor) returns (b: Actor)
    requires IsRun(states, steps) && i < |states| && a in states[i].threads && !Finished(states[i].threads[a])
    ensures b == a || (states[i].threads[a].Wanting? && states[i].owner == Some(b))
    ensures b in states[i].threads && !Finished(states[i].threads[b])
    ensures Next(states[i], NextStep(states[i], b)).Some?
  {
    RunInv(states, steps);
    var s := states[i];
    assert Inv(s);
    b := if s.threads[a].Wanting? && s.owner.Some? then s.owner.value else a;
    StepEnabled(s, b);
  }
}
