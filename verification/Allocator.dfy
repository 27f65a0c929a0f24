/** The allocator object: allocation with cleanup, retention and recovery. Concurrency is the
    subject of module Custody; here each call runs alone. */
module Allocation {
  import opened Prelude
  import S = Supervision

  datatype AllocateError = NoRevision | Cancelled | LaunchFailed | Reclaimed | CleanupError(generation: nat)

  datatype CleanupFailure = StopFailed | NotReaped(error: S.ReapError)

  lemma {:induction false} Least(s: set<nat>) returns (m: nat)
    requires s != {}
    ensures m in s && forall k :: k in s ==> m <= k
  {
    var x :| x in s;
    var rest := s - {x};
    if rest == {} {
      assert s == {x};
      m := x;
    } else {
      m := Least(rest);
      assert s == rest + {x};
      if x < m { m := x; }
    }
  }

  /** The registry without the reservations of these processes. */
  ghost function Without(reg: S.Registry<S.Process>, gone: set<S.ProcessSpec>): S.Registry<S.Process> {
    reg.(processes := reg.processes - (set s | s in gone :: S.ProcId(s.generation)),
         usedPorts := reg.usedPorts - (set s | s in gone :: s.port),
         usedSpools := reg.usedSpools - (set s | s in gone :: s.spoolDir))
  }

  lemma WithoutMore(reg: S.Registry<S.Process>, gone: set<S.ProcessSpec>, spec: S.ProcessSpec)
    ensures Without(reg, gone).Release(spec) == Without(reg, gone + {spec})
  {
    var more := gone + {spec};
    assert (set s | s in more :: S.ProcId(s.generation))
        == (set s | s in gone :: S.ProcId(s.generation)) + {S.ProcId(spec.generation)};
    assert (set s | s in more :: s.port) == (set s | s in gone :: s.port) + {spec.port};
    assert (set s | s in more :: s.spoolDir) == (set s | s in gone :: s.spoolDir) + {spec.spoolDir};
  }

  /** The specs of these retained generations. */
  ghost function Specs(held: map<nat, S.Process>, gs: set<nat>): set<S.ProcessSpec>
    requires gs <= held.Keys
  {
    set g | g in gs :: held[g].spec
  }

  lemma NothingGone(reg: S.Registry<S.Process>, held: map<nat, S.Process>)
    ensures Without(reg, Specs(held, held.Keys - held.Keys)) == reg
  {
    assert Specs(held, held.Keys - held.Keys) == {};
  }

  /** One more of the held processes is reclaimed. */
  lemma OneMoreGone(reg: S.Registry<S.Process>, held: map<nat, S.Process>, kept: map<nat, S.Process>, g: nat)
    requires kept.Keys <= held.Keys && g in kept
    ensures Without(reg, Specs(held, held.Keys - kept.Keys)).Release(held[g].spec)
            == Without(reg, Specs(held, held.Keys - (kept - {g}).Keys))
  {
    var gone := Specs(held, held.Keys - kept.Keys);
    WithoutMore(reg, gone, held[g].spec);
    assert held.Keys - (kept - {g}).Keys == held.Keys - kept.Keys + {g};
    assert Specs(held, held.Keys - kept.Keys + {g}) == gone + {held[g].spec};
  }

  lemma SpecsOfGone(held: map<nat, S.Process>, kept: set<nat>)
    ensures Specs(held, held.Keys - kept) == set g | g in held && g !in kept :: held[g].spec
  {
  }

  class Allocator {
    const supervisor: S.Supervisor
    var retained: map<nat, S.Process>

    /** Every retained handle is filed under its own generation. */
    ghost predicate Valid()
      reads this
    {
      forall g :: g in retained ==> retained[g].spec.generation == g
    }

    constructor (supervisor: S.Supervisor)
      ensures Valid() && retained == map[] && this.supervisor == supervisor
    {
      this.supervisor := supervisor;
      retained := map[];
    }

    /** cleanup: stop the process, once and only if it lives, then reap it. Success means it was registered, is
        terminal and its reservation is released; failure leaves the registry alone. */
    method Cleanup(proc: S.Process) returns (r: Result<(), CleanupFailure>)
      modifies proc`terminal, proc`stopCalls, supervisor
      ensures old(proc.terminal) ==> proc.terminal
      ensures proc.stopCalls == old(proc.stopCalls) + (if old(proc.terminal) then 0 else 1)
      ensures r.Ok? ==> proc.terminal && old(supervisor.View()).Holds(proc, proc.spec)
                        && supervisor.View() == old(supervisor.View()).Release(proc.spec)
      ensures r.Err? ==> supervisor.View() == old(supervisor.View())
      ensures r == Err(StopFailed) ==> !proc.terminal
      ensures r == Err(NotReaped(S.UnknownProcess)) ==> !old(supervisor.View()).Holds(proc, proc.spec)
      ensures r == Err(NotReaped(S.NotRunning)) ==> !proc.terminal
      ensures old(proc.terminal) && old(supervisor.View()).Holds(proc, proc.spec) ==> r.Ok?
    {
      if !proc.terminal {
        var stopped := proc.Stop();
        if !stopped && !proc.terminal { return Err(StopFailed); }
      }
      var reaped := supervisor.Reap(proc);
      return if reaped.Ok? then Ok(()) else Err(NotReaped(reaped.error));
    }

    /** failWithCleanup: tear the process down, or retain its handle and say so. */
    method FailWithCleanup(proc: S.Process) returns (error: AllocateError)
      modifies this`retained, proc`terminal, proc`stopCalls, supervisor
      ensures proc.stopCalls == old(proc.stopCalls) + (if old(proc.terminal) then 0 else 1)
      ensures error == Reclaimed || error == CleanupError(proc.spec.generation)
      ensures if error == Reclaimed
              then retained == old(retained) && old(supervisor.View()).Holds(proc, proc.spec)
                   && supervisor.View() == old(supervisor.View()).Release(proc.spec)
              else retained == old(retained)[proc.spec.generation := proc]
                   && supervisor.View() == old(supervisor.View())
    {
      var cleaned := Cleanup(proc);
      if cleaned.Err? {
        retained := retained[proc.spec.generation := proc];
        return CleanupError(proc.spec.generation);
      }
      return Reclaimed;
    }

    /** The readiness wait of a process just started and registered, and its cleanup on failure. */
    method AwaitReadiness(proc: S.Process) returns (r: Result<(), AllocateError>)
      requires Valid()
      modifies this`retained, proc`terminal, proc`proven, proc`waited, proc`stopCalls, supervisor
      ensures Valid()
      ensures proc.waited == Some(r.Ok?)
      ensures r.Ok? ==> proc.stopCalls == old(proc.stopCalls)
      ensures r.Ok? ==> proc.proven
      ensures r == Ok(()) || r == Err(Reclaimed) || r == Err(CleanupError(proc.spec.generation))
      ensures retained == if r == Err(CleanupError(proc.spec.generation))
                          then old(retained)[proc.spec.generation := proc] else old(retained)
      ensures supervisor.View() ==
                if r == Err(Reclaimed) then old(supervisor.View()).Release(proc.spec) else old(supervisor.View())
    {
      var ready := proc.WaitReadiness();
      if ready { return Ok(()); }
      var error := FailWithCleanup(proc);
      return Err(error);
    }

    /** Allocate: a process comes back ready and registered; or none was registered; or it was
        reaped again; or it is retained, named by the error, and still registered. */
    method Allocate(hasRevision: bool, cancelled: bool) returns (r: Result<S.Process, AllocateError>)
      requires Valid()
      modifies this`retained, supervisor, supervisor.launcher
      ensures Valid()
      ensures hasRevision && !cancelled ==>
                var spec, p := old(supervisor.View()).Reserve().1, supervisor.launcher.last;
                && (r == Err(AllocateError.LaunchFailed) <==> spec.Err? || p.None?)
                && (spec.Ok? && p.Some? ==>
                      (r.Ok? <==> p.value.waited == Some(true)) && (r.Ok? ==> r.value == p.value)
                      && (r.Err? ==> r.error == Reclaimed || r.error == CleanupError(p.value.spec.generation)))
      ensures !hasRevision ==> r == Err(NoRevision)
      ensures hasRevision && cancelled ==> r == Err(Cancelled)
      ensures !hasRevision || cancelled ==> supervisor.View() == old(supervisor.View()) && retained == old(retained)
      ensures hasRevision && !cancelled ==>
                r.Ok? || r.error == AllocateError.LaunchFailed || r.error == Reclaimed || r.error.CleanupError?
      ensures r.Ok? ==>
                var (reserved, spec) := old(supervisor.View()).Reserve();
                spec == Ok(r.value.spec) && r.value.proven && retained == old(retained)
                && supervisor.View() == reserved.Register(r.value.spec.generation, r.value)
      ensures r.Err? && r.error.CleanupError? ==>
                var (reserved, spec) := old(supervisor.View()).Reserve();
                var g := r.error.generation;
                spec.Ok? && g == spec.value.generation && g in retained && retained[g].spec == spec.value
                && retained == old(retained)[g := retained[g]]
                && supervisor.View() == reserved.Register(g, retained[g])
      ensures r == Err(Reclaimed) || r == Err(AllocateError.LaunchFailed) ==>
                var (reserved, spec) := old(supervisor.View()).Reserve();
                retained == old(retained)
                && supervisor.View() == if spec.Ok? then reserved.Release(spec.value) else reserved
    {
      if !hasRevision { return Err(NoRevision); }
      if cancelled { return Err(Cancelled); }
      ghost var (reserved, spec) := supervisor.View().Reserve();
      var started := supervisor.Start();
      if started.Err? { return Err(AllocateError.LaunchFailed); }
      var proc := started.value;
      var ready := AwaitReadiness(proc);
      if ready.Ok? { return Ok(proc); }
      assert reserved.Register(proc.spec.generation, proc).Release(proc.spec) == reserved.Release(proc.spec);
      return Err(ready.error);
    }

    /** The retained generations in increasing order. */
    method FailedCleanupGenerations() returns (generations: seq<nat>)
      ensures forall g :: g in generations <==> g in retained
      ensures forall i, j :: 0 <= i < j < |generations| ==> generations[i] < generations[j]
    {
      generations := [];
      var rest := retained.Keys;
      while rest != {}
        invariant forall g :: g in retained <==> g in generations || g in rest
        invariant forall i, j :: 0 <= i < j < |generations| ==> generations[i] < generations[j]
        invariant forall i, k :: 0 <= i < |generations| && k in rest ==> generations[i] < k
      {
        ghost var least := Least(rest);
        var g :| g in rest && forall k :: k in rest ==> g <= k;
        generations := generations + [g];
        rest := rest - {g};
      }
    }

    /** Recover: retry the teardown of one retained process, and forget it only once reaped. */
    method Recover(generation: nat) returns (r: Result<(), CleanupFailure>)
      requires Valid()
      modifies this`retained, supervisor, retained.Values
      ensures Valid()
      ensures generation !in old(retained) ==> r == Ok(()) && retained == old(retained)
                                               && supervisor.View() == old(supervisor.View())
      ensures generation in old(retained) ==>
                var proc := old(retained)[generation];
                proc.stopCalls == old(proc.stopCalls) + (if old(proc.terminal) then 0 else 1)
      ensures generation in old(retained) ==>
                if r.Ok? then retained == old(retained) - {generation}
                              && supervisor.View() == old(supervisor.View()).Release(old(retained)[generation].spec)
                else retained == old(retained) && supervisor.View() == old(supervisor.View())
    {
      if generation !in retained { return Ok(()); }
      var proc := retained[generation];
      var cleaned := Cleanup(proc);
      if cleaned.Err? { return cleaned; }
      retained := retained - {generation};
      return Ok(());
    }

    /** Some of the handles held before are retained still, and the registry lacks exactly the
        reservations of the others. */
    ghost predicate Partly(before: S.Registry<S.Process>, held: map<nat, S.Process>)
      reads this, supervisor
    {
      && (forall g :: g in retained ==> g in held && retained[g] == held[g])
      && supervisor.View() == Without(before, Specs(held, held.Keys - retained.Keys))
    }

    /** One turn of RecoverAll. */
    method RecoverOne(generation: nat, ghost before: S.Registry<S.Process>, ghost held: map<nat, S.Process>)
      returns (r: Result<(), CleanupFailure>)
      requires Valid() && Partly(before, held)
      modifies this`retained, supervisor, retained.Values
      ensures Valid() && Partly(before, held)
      ensures retained == if r.Ok? then old(retained) - {generation} else old(retained)
      ensures r.Err? ==> generation in retained
    {
      ghost var kept := retained;
      r := Recover(generation);
      if r.Ok? && generation in kept {
        OneMoreGone(before, held, kept, generation);
      } else {
        assert retained == kept;
      }
    }

    /** RecoverAll (and Close): exactly the processes that could not be reclaimed stay retained, and
        exactly those are reported. */
    method RecoverAll() returns (failures: map<nat, CleanupFailure>)
      requires Valid()
      modifies this`retained, supervisor, retained.Values
      ensures Valid()
      ensures failures.Keys == retained.Keys
      ensures forall g :: g in retained ==> g in old(retained) && retained[g] == old(retained)[g]
      ensures supervisor.View()
              == Without(old(supervisor.View()), set g | g in old(retained) && g !in retained :: old(retained)[g].spec)
    {
      failures := map[];
      ghost var before, held := supervisor.View(), retained;
      NothingGone(before, held);
      var generations := FailedCleanupGenerations();
      for i := 0 to |generations|
        invariant Valid() && Partly(before, held)
        invariant failures.Keys <= retained.Keys
        invariant forall j :: 0 <= j < i && generations[j] in retained ==> generations[j] in failures
        invariant forall j :: i <= j < |generations| ==> generations[j] !in failures
        invariant forall g :: g in retained ==> g in generations
      {
        var recovered := RecoverOne(generations[i], before, held);
        if recovered.Err? { failures := failures[generations[i] := recovered.error]; }
      }
      SpecsOfGone(held, retained.Keys);
    }
  }
}
