/** Custody of server processes under concurrent Allocate, Recover and RecoverAll calls. Every
    locked section of the allocator and of the supervisor is one step; RecoverAll and Close are
    sequences of Recover calls. */
module Custody {
  import opened Prelude
  import S = Supervision

  /** One call of Allocate or of Recover. */
  datatype Actor = Allocation(n: nat) | Recovery(n: nat)

  /** Where a call stands inside cleanup. */
  datatype Stage = Checking | Stopping | Rechecking | Reaping | Swept | Failed

  datatype Thread =
    | Launching(generation: nat)                 // Start reserved a spec, the launch is pending
    | Waiting(handle: S.Handle)                  // waiting for readiness evidence
    | Ready(handle: S.Handle)                    // Allocate returned the process
    | StartFailed                                // Allocate returned an error, no process existed
    | Reclaimed(handle: S.Handle)                // Allocate returned an AllocationError
    | GaveUp(handle: S.Handle)                   // Allocate returned a CleanupError
    | Cleaning(handle: S.Handle, stage: Stage, recovering: bool)
    | Wanting(generation: nat)                   // Recover saw the handle retained
    | Owning(generation: nat)                    // Recover holds the recovery lock
    | Returned(ok: bool)                         // Recover returned

  /** The last four fields are history: which call reserved each generation, every process that
      came up, the reaps performed by the allocator in order, and the handed-out processes reaped
      by the shutdown path. */
  datatype State = State(
    sys: S.Sys, threads: map<Actor, Thread>, terminal: set<S.Handle>,
    retained: map<nat, S.Handle>, owner: Option<Actor>,
    holder: map<nat, Actor>, launched: set<S.Handle>, reaps: seq<S.Handle>, released: set<S.Handle>) {

    function With(a: Actor, th: Thread): State { this.(threads := threads[a := th]) }

    predicate Registered(h: S.Handle) { sys.reg.Holds(h, h.spec) }

    predicate Is(a: Actor, th: Thread) { a in threads && threads[a] == th }
  }

  datatype Step =
    | Begin(n: nat)
    | LaunchFails(n: nat)
    | LaunchReturns(n: nat, id: nat)
    | ReadinessProven(n: nat)
    | ReadinessFails(n: nat)
    | Dies(handle: S.Handle)
    | Clean(actor: Actor, outcome: bool)
    | Settle(actor: Actor)
    | RecoverBegin(n: nat, generation: nat)
    | RecoverLock(n: nat)
    | RecoverRecheck(n: nat)
    | Shutdown(n: nat)

  /** cleanup, one stage: a terminal process is not stopped; a failed stop is accepted when the
      process became terminal all the same; the reap needs a registered terminal process. */
  function CleanStep(s: State, a: Actor, outcome: bool): Option<State>
    requires a in s.threads && s.threads[a].Cleaning?
  {
    var Cleaning(h, stage, recovering) := s.threads[a];
    match stage
    case Checking =>
      var next := if h in s.terminal then Reaping else if outcome then Stopping else Failed;
      Some(s.With(a, Cleaning(h, next, recovering)))
    case Stopping =>
      Some(s.With(a, Cleaning(h, if outcome then Reaping else Rechecking, recovering)))
    case Rechecking =>
      Some(s.With(a, Cleaning(h, if h in s.terminal then Reaping else Failed, recovering)))
    case Reaping =>
      var (reg, r) := s.sys.reg.Reap(h, h.spec, h in s.terminal);
      if r.Ok? then
        Some(s.With(a, Cleaning(h, Swept, recovering)).(sys := s.sys.(reg := reg), reaps := s.reaps + [h]))
      else Some(s.With(a, Cleaning(h, Failed, recovering)))
    case _ => None
  }

  /** After cleanup: failWithCleanup retains on failure; Recover forgets only on success. */
  function SettleStep(s: State, a: Actor): Option<State>
    requires a in s.threads && s.threads[a].Cleaning?
  {
    var Cleaning(h, stage, recovering) := s.threads[a];
    var g := h.spec.generation;
    match stage
    case Swept =>
      if recovering then Some(s.With(a, Returned(true)).(retained := s.retained - {g}, owner := None))
      else Some(s.With(a, Reclaimed(h)))
    case Failed =>
      if recovering then Some(s.With(a, Returned(false)).(owner := None))
      else Some(s.With(a, GaveUp(h)).(retained := s.retained[g := h]))
    case _ => None
  }

  function Next(s: State, step: Step): Option<State> {
    match step
    case Begin(n) =>
      if Allocation(n) in s.threads then None
      else
        var r := s.sys.reg.Reserve().1;
        var t := s.With(Allocation(n), if r.Ok? then Launching(r.value.generation) else StartFailed)
                  .(sys := S.Next(s.sys, S.Reserve).value);
        Some(if r.Ok? then t.(holder := s.holder[r.value.generation := Allocation(n)]) else t)
    case LaunchFails(n) =>
      var a := Allocation(n);
      if a !in s.threads || !s.threads[a].Launching? then None
      else
        var sys := S.Next(s.sys, S.Step.LaunchFailed(s.threads[a].generation));
        if sys.None? then None else Some(s.With(a, StartFailed).(sys := sys.value))
    case LaunchReturns(n, id) =>
      var a := Allocation(n);
      if a !in s.threads || !s.threads[a].Launching? || s.threads[a].generation !in s.sys.inflight then None
      else
        var g := s.threads[a].generation;
        var h := S.Handle(id, s.sys.inflight[g]);
        Some(s.With(a, Waiting(h)).(sys := S.Next(s.sys, S.Launched(g, id)).value, launched := s.launched + {h}))
    case ReadinessProven(n) =>
      var a := Allocation(n);
      if a !in s.threads || !s.threads[a].Waiting? then None
      else Some(s.With(a, Ready(s.threads[a].handle)))
    case ReadinessFails(n) =>
      var a := Allocation(n);
      if a !in s.threads || !s.threads[a].Waiting? then None
      else Some(s.With(a, Cleaning(s.threads[a].handle, Checking, false)))
    case Dies(h) => Some(s.(terminal := s.terminal + {h}))
    case Clean(a, outcome) =>
      if a !in s.threads || !s.threads[a].Cleaning? then None else CleanStep(s, a, outcome)
    case Settle(a) =>
      if a !in s.threads || !s.threads[a].Cleaning? then None else SettleStep(s, a)
    case RecoverBegin(n, g) =>
      if Recovery(n) in s.threads then None
      else Some(s.With(Recovery(n), if g in s.retained then Wanting(g) else Returned(true)))
    case RecoverLock(n) =>
      var a := Recovery(n);
      if a !in s.threads || !s.threads[a].Wanting? || s.owner.Some? then None
      else Some(s.With(a, Owning(s.threads[a].generation)).(owner := Some(a)))
    case RecoverRecheck(n) =>
      var a := Recovery(n);
      if a !in s.threads || !s.threads[a].Owning? then None
      else
        var g := s.threads[a].generation;
        if g in s.retained then Some(s.With(a, Cleaning(s.retained[g], Checking, true)))
        else Some(s.With(a, Returned(true)).(owner := None))
    case Shutdown(n) =>
      var a := Allocation(n);
      if a !in s.threads || !s.threads[a].Ready? then None
      else
        var h := s.threads[a].handle;
        var (reg, r) := s.sys.reg.Reap(h, h.spec, h in s.terminal);
        Some(s.(sys := s.sys.(reg := reg), released := if r.Ok? then s.released + {h} else s.released))
  }

  predicate Init(s: State) {
    S.Init(s.sys) && s.threads == map[] && s.retained == map[] && s.owner.None?
    && s.holder == map[] && s.launched == {} && s.reaps == [] && s.released == {}
  }

  // ----- the invariant -----

  /** The process an Allocate call brought up, wherever the call stands now. */
  function Brought(th: Thread): Option<S.Handle> {
    match th
    case Waiting(h) => Some(h)
    case Ready(h) => Some(h)
    case Reclaimed(h) => Some(h)
    case GaveUp(h) => Some(h)
    case Cleaning(h, _, recovering) => if recovering then None else Some(h)
    case _ => None
  }

  function Generation(th: Thread): Option<nat> {
    if th.Launching? then Some(th.generation)
    else if Brought(th).Some? then Some(Brought(th).value.spec.generation)
    else None
  }

  /** In custody of the call itself: registered, not reaped, not retained. */
  ghost predicate Kept(s: State, h: S.Handle) {
    h in s.launched && s.Registered(h) && h !in s.reaps && h.spec.generation !in s.retained
  }

  ghost predicate Gone(s: State, h: S.Handle) {
    h in s.launched && h in s.reaps && h.spec.generation !in s.retained
  }

  /** Retained: registered under the same handle, except between the reap by the one recovery
      owner and its forgetting of the handle. */
  ghost predicate KeptAside(s: State, h: S.Handle) {
    if h in s.reaps then s.owner.Some? && s.Is(s.owner.value, Cleaning(h, Swept, true))
    else s.Registered(h)
  }

  /** The generation was reserved by this call. */
  ghost predicate HeldBy(s: State, g: nat, a: Actor) {
    a.Allocation? && g in s.holder && s.holder[g] == a
  }

  ghost predicate ActorOk(s: State, a: Actor, th: Thread) {
    match th
    case Launching(g) => HeldBy(s, g, a) && g in s.sys.inflight && s.sys.inflight[g].generation == g
                         && g !in s.retained
    case Waiting(h) => HeldBy(s, h.spec.generation, a) && Kept(s, h)
    case Ready(h) => HeldBy(s, h.spec.generation, a)
                     && h in s.launched && h !in s.reaps && h.spec.generation !in s.retained
                     && (h !in s.released ==> s.Registered(h))
    case StartFailed => a.Allocation?
    case Reclaimed(h) => HeldBy(s, h.spec.generation, a) && Gone(s, h)
    case GaveUp(h) => HeldBy(s, h.spec.generation, a) && h in s.launched
                      && (if h.spec.generation in s.retained
                          then s.retained[h.spec.generation] == h && KeptAside(s, h)
                          else h in s.reaps)
    case Cleaning(h, stage, recovering) =>
      if recovering then a.Recovery? && s.owner == Some(a)
                         && h.spec.generation in s.retained && s.retained[h.spec.generation] == h
                         && (stage == Swept <==> h in s.reaps)
      else HeldBy(s, h.spec.generation, a) && (if stage == Swept then Gone(s, h) else Kept(s, h))
    case Wanting(g) => a.Recovery?
    case Owning(g) => a.Recovery? && s.owner == Some(a)
    case Returned(ok) => a.Recovery?
  }

  ghost predicate ActorsOk(s: State) {
    forall a :: a in s.threads ==> ActorOk(s, a, s.threads[a])
  }

  ghost predicate RetainedOk(s: State, g: nat)
    requires g in s.retained
  {
    s.retained[g].spec.generation == g && g in s.holder && s.Is(s.holder[g], GaveUp(s.retained[g]))
  }

  ghost predicate LaunchedOk(s: State, h: S.Handle) {
    h.spec.generation in s.holder && s.holder[h.spec.generation] in s.threads
    && Brought(s.threads[s.holder[h.spec.generation]]) == Some(h)
  }

  ghost predicate Owns(th: Thread) {
    th.Owning? || (th.Cleaning? && th.recovering)
  }

  /** What the invariant says besides each actor's own part. */
  ghost predicate Books(s: State) {
    && (forall g :: g in s.holder ==> g < s.sys.reg.nextGeneration)
    && (forall g :: g in s.retained ==> RetainedOk(s, g))
    && (forall h :: h in s.launched ==> LaunchedOk(s, h))
    && (s.owner.Some? ==> s.owner.value in s.threads && Owns(s.threads[s.owner.value]))
    && Distinct(s.reaps)
    && (forall h :: h in s.reaps || h in s.released ==> h in s.launched)
  }

  ghost predicate Threads(s: State) {
    ActorsOk(s) && Books(s)
  }

  ghost predicate Inv(s: State) {
    S.Inv(s.sys) && Threads(s)
  }

  // ----- preservation -----

  /** Only actor a moved, and nothing changed about generations other than g. */
  ghost predicate OnlyTouches(s: State, t: State, a: Actor, g: nat) {
    && a in t.threads && t.threads == s.threads[a := t.threads[a]]
    && s.launched <= t.launched
    && (forall k :: k != g && k in s.sys.inflight ==> k in t.sys.inflight && t.sys.inflight[k] == s.sys.inflight[k])
    && t.retained - {g} == s.retained - {g}
    && t.holder - {g} == s.holder - {g}
    && (forall h: S.Handle :: h.spec.generation != g ==>
          (s.Registered(h) <==> t.Registered(h)) && (h in s.reaps <==> h in t.reaps)
          && (h in s.released <==> h in t.released))
    && (s.owner.Some? && s.owner != Some(a) ==> t.owner == s.owner)
  }

  /** The generation an actor's part of the invariant speaks about. */
  function About(th: Thread): Option<nat> {
    if th.Cleaning? then Some(th.handle.spec.generation) else Generation(th)
  }

  lemma OtherOk(s: State, t: State, a: Actor, g: nat, b: Actor)
    requires ActorsOk(s) && OnlyTouches(s, t, a, g)
    requires s.owner.Some? ==> s.owner.value in s.threads
    requires a in s.threads && About(s.threads[a]).Some? ==> About(s.threads[a]).value == g
    requires b in s.threads && b != a && About(s.threads[b]) != Some(g)
    ensures ActorOk(t, b, s.threads[b])
  {
    var th := s.threads[b];
    assert ActorOk(s, b, th);
    if About(th).Some? {
      var k := About(th).value;
      assert k in s.retained <==> k in s.retained - {g};
      assert k in t.retained <==> k in t.retained - {g};
      assert k in s.holder <==> k in s.holder - {g};
      assert k in t.holder <==> k in t.holder - {g};
    }
  }

  /** Of the generation an Allocate call holds and has not given up, no other call speaks. */
  lemma Apart(s: State, a: Actor, b: Actor, g: nat)
    requires Threads(s) && a in s.threads && b in s.threads && a != b
    requires HeldBy(s, g, a) && !s.threads[a].GaveUp?
    ensures About(s.threads[b]) != Some(g)
  {
    assert ActorOk(s, b, s.threads[b]);
  }

  /** An Allocate call that has its generation in hand may move without affecting any other. */
  lemma OthersApart(s: State, t: State, a: Actor, g: nat)
    requires Threads(s) && a in s.threads && HeldBy(s, g, a) && !s.threads[a].GaveUp?
    requires About(s.threads[a]).Some? ==> About(s.threads[a]).value == g
    requires OnlyTouches(s, t, a, g)
    ensures forall b :: b in s.threads && b != a ==> ActorOk(t, b, t.threads[b])
  {
    forall b | b in s.threads && b != a ensures ActorOk(t, b, t.threads[b]) {
      Apart(s, a, b, g);
      OtherOk(s, t, a, g, b);
    }
  }

  /** Moving one actor that keeps its process keeps the books, if nothing new is retained. */
  lemma BooksKept(s: State, t: State, a: Actor)
    requires Books(s) && a in t.threads && t.threads == s.threads[a := t.threads[a]]
    requires a in s.threads ==> !s.threads[a].GaveUp?
    requires a in s.threads && Brought(s.threads[a]).Some? ==> Brought(t.threads[a]) == Brought(s.threads[a])
    requires s.sys.reg.nextGeneration <= t.sys.reg.nextGeneration
    requires t.retained == s.retained && t.launched == s.launched
    requires forall g :: g in s.holder ==> g in t.holder && t.holder[g] == s.holder[g]
    requires forall g :: g in t.holder ==> g in s.holder || g < t.sys.reg.nextGeneration
    requires t.owner.Some? ==> t.owner.value in t.threads && Owns(t.threads[t.owner.value])
    requires Distinct(t.reaps)
    requires forall h :: h in t.reaps || h in t.released ==> h in t.launched
    ensures Books(t)
  {
    forall g | g in t.retained ensures RetainedOk(t, g) {
      assert RetainedOk(s, g);
    }
    forall h | h in t.launched ensures LaunchedOk(t, h) {
      assert LaunchedOk(s, h);
    }
  }

  /** Releasing or registering generation g does not affect handles of other generations. */
  lemma RegistryFrame(s: S.Registry<S.Handle>, t: S.Registry<S.Handle>, g: nat)
    requires t.processes - {S.ProcId(g)} == s.processes - {S.ProcId(g)}
    ensures forall h: S.Handle :: h.spec.generation != g ==> (s.Holds(h, h.spec) <==> t.Holds(h, h.spec))
  {
    forall h: S.Handle | h.spec.generation != g ensures s.Holds(h, h.spec) <==> t.Holds(h, h.spec) {
      S.OtherId(h.spec.generation, g);
      var id := S.ProcId(h.spec.generation);
      assert id in s.processes <==> id in s.processes - {S.ProcId(g)};
      assert id in t.processes <==> id in t.processes - {S.ProcId(g)};
    }
  }

  /** Allocate calls never hold the recovery lock. */
  lemma OwnerElsewhere(s: State, a: Actor)
    requires Threads(s) && a.Allocation?
    ensures s.owner != Some(a)
  {
    if s.owner.Some? {
      assert ActorOk(s, s.owner.value, s.threads[s.owner.value]);
    }
  }

  // Starting: reserve, launch, roll back or register.

  lemma BeginTouches(s: State, n: nat)
    requires Next(s, Begin(n)).Some?
    ensures OnlyTouches(s, Next(s, Begin(n)).value, Allocation(n), s.sys.reg.nextGeneration)
  {
    RegistryFrame(s.sys.reg, Next(s, Begin(n)).value.sys.reg, s.sys.reg.nextGeneration);
  }

  lemma LaunchTouches(s: State, step: Step)
    requires Next(s, step).Some? && (step.LaunchFails? || step.LaunchReturns?)
    requires var g := s.threads[Allocation(step.n)].generation;
             g in s.sys.inflight && s.sys.inflight[g].generation == g
    ensures var a := Allocation(step.n);
            OnlyTouches(s, Next(s, step).value, a, s.threads[a].generation)
  {
    var a, t := Allocation(step.n), Next(s, step).value;
    RegistryFrame(s.sys.reg, t.sys.reg, s.threads[a].generation);
  }

  lemma BeginActors(s: State, n: nat)
    requires Threads(s) && Next(s, Begin(n)).Some?
    ensures forall b :: b in s.threads ==> ActorOk(Next(s, Begin(n)).value, b, Next(s, Begin(n)).value.threads[b])
  {
    var a, t, g := Allocation(n), Next(s, Begin(n)).value, s.sys.reg.nextGeneration;
    BeginTouches(s, n);
    forall b | b in s.threads ensures ActorOk(t, b, t.threads[b]) {
      BeginOther(s, b);
      OtherOk(s, t, a, g, b);
    }
  }

  lemma BeginBooks(s: State, n: nat)
    requires Books(s) && Next(s, Begin(n)).Some? && s.owner != Some(Allocation(n))
    ensures Books(Next(s, Begin(n)).value)
  {
    BooksKept(s, Next(s, Begin(n)).value, Allocation(n));
  }

  lemma BeginOwn(s: State, n: nat)
    requires Books(s) && Next(s, Begin(n)).Some?
    ensures ActorOk(Next(s, Begin(n)).value, Allocation(n), Next(s, Begin(n)).value.threads[Allocation(n)])
  {
    var g := s.sys.reg.nextGeneration;
    assert g in s.retained ==> RetainedOk(s, g);
  }

  lemma BeginThreads(s: State, n: nat)
    requires Threads(s) && Next(s, Begin(n)).Some?
    ensures Threads(Next(s, Begin(n)).value)
  {
    OwnerElsewhere(s, Allocation(n));
    BeginActors(s, n);
    BeginOwn(s, n);
    BeginBooks(s, n);
  }

  lemma BeginOther(s: State, b: Actor)
    requires Threads(s) && b in s.threads
    ensures About(s.threads[b]) != Some(s.sys.reg.nextGeneration)
  {
    assert ActorOk(s, b, s.threads[b]);
    var g := s.sys.reg.nextGeneration;
    assert g in s.retained ==> RetainedOk(s, g);
  }

  lemma LaunchFailsThreads(s: State, n: nat)
    requires Threads(s) && Next(s, LaunchFails(n)).Some?
    ensures Threads(Next(s, LaunchFails(n)).value)
  {
    var a, t := Allocation(n), Next(s, LaunchFails(n)).value;
    assert ActorOk(s, a, s.threads[a]);
    LaunchTouches(s, LaunchFails(n));
    OthersApart(s, t, a, s.threads[a].generation);
    OwnerElsewhere(s, a);
    BooksKept(s, t, a);
  }

  lemma LaunchReturnsThreads(s: State, n: nat, id: nat)
    requires Threads(s) && Next(s, LaunchReturns(n, id)).Some?
    ensures Threads(Next(s, LaunchReturns(n, id)).value)
  {
    var a, t := Allocation(n), Next(s, LaunchReturns(n, id)).value;
    var g, h := s.threads[a].generation, t.threads[a].handle;
    assert ActorOk(s, a, s.threads[a]);
    LaunchTouches(s, LaunchReturns(n, id));
    OthersApart(s, t, a, g);
    assert h !in s.launched by {
      assert h in s.launched ==> LaunchedOk(s, h);
    }
    assert ActorOk(t, a, t.threads[a]);
    OwnerElsewhere(s, a);
    LaunchReturnsBooks(s, t, a, h);
  }

  lemma LaunchReturnsBooks(s: State, t: State, a: Actor, h: S.Handle)
    requires Books(s) && s.Is(a, Launching(h.spec.generation)) && HeldBy(s, h.spec.generation, a)
    requires s.owner != Some(a)
    requires t == s.With(a, Waiting(h)).(sys := t.sys, launched := s.launched + {h})
    requires t.sys.reg.nextGeneration == s.sys.reg.nextGeneration
    ensures Books(t)
  {
    forall g | g in t.retained ensures RetainedOk(t, g) {
      assert RetainedOk(s, g);
    }
    forall k | k in t.launched ensures LaunchedOk(t, k) {
      if k != h { assert LaunchedOk(s, k); }
    }
  }

  // Cleanup.

  /** What one stage does: it moves the call on, and reaps its own process or nothing. */
  lemma CleanShape(s: State, t: State, a: Actor, outcome: bool)
    requires a in s.threads && s.threads[a].Cleaning? && CleanStep(s, a, outcome) == Some(t)
    ensures t == s.With(a, s.threads[a].(stage := t.threads[a].stage)).(sys := t.sys, reaps := t.reaps)
    ensures s.threads[a].stage != Swept && s.threads[a].stage != Failed
    ensures var h := s.threads[a].handle;
            if t.threads[a].stage == Swept
            then t.reaps == s.reaps + [h] && t.sys == s.sys.(reg := s.sys.reg.Release(h.spec))
            else t.reaps == s.reaps && t.sys == s.sys
  {
  }

  /** A cleanup stage concerns only its own process. */
  lemma CleanTouches(s: State, t: State, a: Actor, outcome: bool)
    requires a in s.threads && s.threads[a].Cleaning? && CleanStep(s, a, outcome) == Some(t)
    ensures OnlyTouches(s, t, a, s.threads[a].handle.spec.generation)
  {
    CleanShape(s, t, a, outcome);
    if t.threads[a].stage == Swept {
      ReapTouches(s, t, a, s.threads[a].handle);
    }
  }

  lemma ReapTouches(s: State, t: State, a: Actor, h: S.Handle)
    requires a in s.threads && a in t.threads
    requires t.sys.reg == s.sys.reg.Release(h.spec) && t.sys.inflight == s.sys.inflight
    requires t == s.With(a, t.threads[a]).(sys := t.sys, reaps := s.reaps + [h])
    ensures OnlyTouches(s, t, a, h.spec.generation)
  {
    RegistryFrame(s.sys.reg, t.sys.reg, h.spec.generation);
  }

  /** A stage of the cleanup run by the Allocate call itself. */
  lemma OwnCleanThreads(s: State, t: State, a: Actor, outcome: bool)
    requires Threads(s) && a in s.threads && s.threads[a].Cleaning? && !s.threads[a].recovering
    requires CleanStep(s, a, outcome) == Some(t)
    ensures Threads(t)
  {
    var h := s.threads[a].handle;
    CleanShape(s, t, a, outcome);
    CleanTouches(s, t, a, outcome);
    assert ActorOk(s, a, s.threads[a]);
    OthersApart(s, t, a, h.spec.generation);
    OwnerElsewhere(s, a);
    BooksKept(s, t, a);
  }

  /** The call that gave a retained process up is unaffected while the recovery owner works on it. */
  lemma GiverOk(s: State, t: State, g: nat)
    requires Threads(s) && g in s.retained && t.retained == s.retained && s.launched <= t.launched
    requires t.holder == s.holder && KeptAside(t, s.retained[g])
    ensures ActorOk(t, s.holder[g], GaveUp(s.retained[g]))
  {
    assert RetainedOk(s, g) && ActorOk(s, s.holder[g], s.threads[s.holder[g]]);
  }

  /** A stage of the cleanup run by the recovery owner: what it is about, and what it changes. */
  ghost predicate RecoveryStage(s: State, t: State, a: Actor, h: S.Handle, stage: Stage) {
    && a in s.threads && s.owner == Some(a) && Owns(s.threads[a])
    && (About(s.threads[a]).Some? ==> About(s.threads[a]).value == h.spec.generation)
    && h.spec.generation in s.retained && s.retained[h.spec.generation] == h
    && s.threads[a] != Cleaning(h, Swept, true)
    && t == s.With(a, Cleaning(h, stage, true)).(sys := t.sys, reaps := t.reaps)
    && t.sys.reg.nextGeneration == s.sys.reg.nextGeneration
    && (if stage == Swept then t.reaps == s.reaps + [h] else t.reaps == s.reaps && t.sys == s.sys)
    && OnlyTouches(s, t, a, h.spec.generation)
  }

  lemma RecoveryOthers(s: State, t: State, a: Actor, h: S.Handle, stage: Stage)
    requires Threads(s) && RecoveryStage(s, t, a, h, stage) && KeptAside(t, h)
    ensures forall b :: b in s.threads && b != a ==> ActorOk(t, b, t.threads[b])
  {
    var g := h.spec.generation;
    assert ActorOk(s, a, s.threads[a]) && RetainedOk(s, g);
    GiverOk(s, t, g);
    forall b | b in s.threads && b != a ensures ActorOk(t, b, t.threads[b]) {
      if b != s.holder[g] {
        assert ActorOk(s, b, s.threads[b]);
        OtherOk(s, t, a, g, b);
      }
    }
  }

  lemma RecoveryMoves(s: State, t: State, a: Actor, h: S.Handle, stage: Stage)
    requires Threads(s) && RecoveryStage(s, t, a, h, stage)
    ensures Threads(t)
  {
    var g := h.spec.generation;
    assert ActorOk(s, a, s.threads[a]) && RetainedOk(s, g) && ActorOk(s, s.holder[g], GaveUp(h));
    RecoveryOthers(s, t, a, h, stage);
    BooksKept(s, t, a);
  }

  // Settling.

  lemma ReclaimedThreads(s: State, a: Actor, h: S.Handle)
    requires Threads(s) && s.Is(a, Cleaning(h, Swept, false))
    ensures Threads(s.With(a, Reclaimed(h)))
  {
    var t := s.With(a, Reclaimed(h));
    assert ActorOk(s, a, s.threads[a]);
    OthersApart(s, t, a, h.spec.generation);
    OwnerElsewhere(s, a);
    BooksKept(s, t, a);
  }

  lemma RetainsBooks(s: State, a: Actor, h: S.Handle)
    requires Threads(s) && s.Is(a, Cleaning(h, Failed, false)) && s.owner != Some(a)
    ensures Books(s.With(a, GaveUp(h)).(retained := s.retained[h.spec.generation := h]))
  {
    var t := s.With(a, GaveUp(h)).(retained := s.retained[h.spec.generation := h]);
    assert ActorOk(s, a, s.threads[a]);
    forall g | g in t.retained ensures RetainedOk(t, g) {
      if g != h.spec.generation { assert RetainedOk(s, g); }
    }
    forall k | k in t.launched ensures LaunchedOk(t, k) {
      assert LaunchedOk(s, k);
    }
  }

  /** failWithCleanup retains the handle of a process it could not reclaim. */
  lemma RetainsThreads(s: State, a: Actor, h: S.Handle)
    requires Threads(s) && s.Is(a, Cleaning(h, Failed, false))
    ensures Threads(s.With(a, GaveUp(h)).(retained := s.retained[h.spec.generation := h]))
  {
    var t := s.With(a, GaveUp(h)).(retained := s.retained[h.spec.generation := h]);
    assert ActorOk(s, a, s.threads[a]);
    OthersApart(s, t, a, h.spec.generation);
    OwnerElsewhere(s, a);
    RetainsBooks(s, a, h);
  }

  lemma SettledOk(s: State, t: State, a: Actor, h: S.Handle, b: Actor)
    requires Threads(s) && a in s.threads && b in s.threads && b != a
    requires s.threads[a] == Cleaning(h, Swept, true) || s.threads[a] == Cleaning(h, Failed, true)
    requires SettleStep(s, a) == Some(t)
    ensures ActorOk(t, b, t.threads[b])
  {
    var g := h.spec.generation;
    assert ActorOk(s, a, s.threads[a]) && RetainedOk(s, g) && ActorOk(s, b, s.threads[b]);
    if b != s.holder[g] {
      OtherOk(s, t, a, g, b);
    }
  }

  lemma SettledBooks(s: State, t: State, a: Actor, h: S.Handle)
    requires Threads(s) && a in s.threads
    requires s.threads[a] == Cleaning(h, Swept, true) || s.threads[a] == Cleaning(h, Failed, true)
    requires SettleStep(s, a) == Some(t)
    ensures Books(t)
  {
    var g := h.spec.generation;
    assert ActorOk(s, a, s.threads[a]) && RetainedOk(s, g);
    forall k | k in t.retained ensures RetainedOk(t, k) {
      assert RetainedOk(s, k);
    }
    forall k | k in t.launched ensures LaunchedOk(t, k) {
      assert LaunchedOk(s, k);
    }
  }

  /** Recover forgets a handle only after its reap, and returns the recovery lock either way. */
  lemma RecoverSettlesThreads(s: State, t: State, a: Actor, h: S.Handle)
    requires Threads(s) && a in s.threads
    requires s.threads[a] == Cleaning(h, Swept, true) || s.threads[a] == Cleaning(h, Failed, true)
    requires SettleStep(s, a) == Some(t)
    ensures Threads(t)
  {
    forall b | b in s.threads && b != a ensures ActorOk(t, b, t.threads[b]) {
      SettledOk(s, t, a, h, b);
    }
    SettledBooks(s, t, a, h);
  }

  // Recover without a teardown, readiness, shutdown, deaths.

  /** What a Recover call does to the recovery lock when it begins, takes the free lock, or returns
      without a teardown. */
  ghost predicate IdleMove(s: State, t: State, a: Actor, th: Thread) {
    && a.Recovery? && t == s.With(a, th).(owner := t.owner)
    && (th.Wanting? || th.Owning? || th.Returned?)
    && (a in s.threads ==> s.threads[a].Wanting? || s.threads[a].Owning?)
    && (if th.Owning? then s.owner.None? && t.owner == Some(a)
        else if s.owner == Some(a) then t.owner.None? && th.Returned? else t.owner == s.owner)
  }

  lemma RecoverIdleThreads(s: State, t: State, a: Actor, th: Thread)
    requires Threads(s) && IdleMove(s, t, a, th)
    ensures Threads(t)
  {
    forall b | b in s.threads && b != a ensures ActorOk(t, b, t.threads[b]) {
      assert ActorOk(s, b, s.threads[b]);
    }
    BooksKept(s, t, a);
  }

  lemma RecoverThreads(s: State, step: Step)
    requires Threads(s) && Next(s, step).Some?
    requires step.RecoverBegin? || step.RecoverLock? || step.RecoverRecheck?
    ensures Threads(Next(s, step).value)
  {
    var a, t := Recovery(step.n), Next(s, step).value;
    assert a in s.threads ==> ActorOk(s, a, s.threads[a]);
    if step.RecoverRecheck? && s.threads[a].generation in s.retained {
      var g := s.threads[a].generation;
      assert RetainedOk(s, g);
      RecoveryMoves(s, t, a, s.retained[g], Checking);
    } else {
      if step.RecoverLock? || step.RecoverBegin? { WantingIsNotOwner(s, a); }
      RecoverIdleThreads(s, t, a, t.threads[a]);
    }
  }

  lemma WantingIsNotOwner(s: State, a: Actor)
    requires Threads(s) && (a in s.threads ==> s.threads[a].Wanting?)
    ensures s.owner != Some(a)
  {
  }

  /** Readiness was proven, or it failed and cleanup begins. */
  lemma ReadinessThreads(s: State, a: Actor, th: Thread)
    requires Threads(s) && a in s.threads && s.threads[a].Waiting?
    requires th == Ready(s.threads[a].handle) || th == Cleaning(s.threads[a].handle, Checking, false)
    ensures Threads(s.With(a, th))
  {
    var t := s.With(a, th);
    assert ActorOk(s, a, s.threads[a]);
    OthersApart(s, t, a, s.threads[a].handle.spec.generation);
    OwnerElsewhere(s, a);
    BooksKept(s, t, a);
  }

  /** The shutdown path reaps a handed-out process. */
  lemma ShutdownThreads(s: State, n: nat)
    requires Threads(s) && Next(s, Shutdown(n)).Some?
    ensures Threads(Next(s, Shutdown(n)).value)
  {
    var a, t := Allocation(n), Next(s, Shutdown(n)).value;
    var h := s.threads[a].handle;
    if t != s {
      RegistryFrame(s.sys.reg, t.sys.reg, h.spec.generation);
      assert ActorOk(s, a, s.threads[a]);
      OthersApart(s, t, a, h.spec.generation);
      OwnerElsewhere(s, a);
      BooksKept(s, t, a);
    }
  }

  lemma DiesThreads(s: State, h: S.Handle)
    requires Threads(s)
    ensures Threads(s.(terminal := s.terminal + {h}))
  {
    var t := s.(terminal := s.terminal + {h});
    forall a | a in t.threads ensures ActorOk(t, a, t.threads[a]) {
      assert ActorOk(s, a, s.threads[a]);
    }
    forall g | g in t.retained ensures RetainedOk(t, g) {
      assert RetainedOk(s, g);
    }
    forall k | k in t.launched ensures LaunchedOk(t, k) {
      assert LaunchedOk(s, k);
    }
  }

  lemma CleanThreads(s: State, t: State, a: Actor, outcome: bool)
    requires Threads(s) && a in s.threads && s.threads[a].Cleaning? && CleanStep(s, a, outcome) == Some(t)
    ensures Threads(t)
  {
    if s.threads[a].recovering {
      CleanShape(s, t, a, outcome);
      CleanTouches(s, t, a, outcome);
      assert ActorOk(s, a, s.threads[a]);
      RecoveryMoves(s, t, a, s.threads[a].handle, t.threads[a].stage);
    } else {
      OwnCleanThreads(s, t, a, outcome);
    }
  }

  lemma SettleThreads(s: State, t: State, a: Actor)
    requires Threads(s) && a in s.threads && s.threads[a].Cleaning? && SettleStep(s, a) == Some(t)
    ensures Threads(t)
  {
    var h := s.threads[a].handle;
    if s.threads[a].recovering {
      RecoverSettlesThreads(s, t, a, h);
    } else if s.threads[a].stage == Swept {
      ReclaimedThreads(s, a, h);
    } else {
      RetainsThreads(s, a, h);
    }
  }

  lemma StepThreads(s: State, step: Step)
    requires Threads(s) && Next(s, step).Some?
    ensures Threads(Next(s, step).value)
  {
    match step
    case Begin(n) => BeginThreads(s, n);
    case LaunchFails(n) => LaunchFailsThreads(s, n);
    case LaunchReturns(n, id) => LaunchReturnsThreads(s, n, id);
    case ReadinessProven(n) => ReadinessThreads(s, Allocation(n), Ready(s.threads[Allocation(n)].handle));
    case ReadinessFails(n) =>
      ReadinessThreads(s, Allocation(n), Cleaning(s.threads[Allocation(n)].handle, Checking, false));
    case Dies(h) => DiesThreads(s, h);
    case Clean(a, outcome) => CleanThreads(s, Next(s, step).value, a, outcome);
    case Settle(a) => SettleThreads(s, Next(s, step).value, a);
    case RecoverBegin(n, g) => RecoverThreads(s, step);
    case RecoverLock(n) => RecoverThreads(s, step);
    case RecoverRecheck(n) => RecoverThreads(s, step);
    case Shutdown(n) => ShutdownThreads(s, n);
  }

  /** The supervisor's part of a step is one of its own steps. */
  lemma SupervisorStep(s: State, step: Step) returns (x: S.Step)
    requires Next(s, step).Some?
    ensures Next(s, step).value.sys == s.sys || S.Next(s.sys, x) == Some(Next(s, step).value.sys)
  {
    match step
    case LaunchFails(n) => x := S.Step.LaunchFailed(s.threads[Allocation(n)].generation);
    case LaunchReturns(n, id) => x := S.Launched(s.threads[Allocation(n)].generation, id);
    case Clean(a, outcome) => x := S.Reap(s.threads[a].handle, s.threads[a].handle in s.terminal);
    case Shutdown(n) =>
      var h := s.threads[Allocation(n)].handle;
      x := S.Reap(h, h in s.terminal);
    case _ => x := S.Reserve;
  }

  lemma SupervisorInv(s: S.Sys, t: S.Sys, x: S.Step)
    requires S.Inv(s) && (t == s || S.Next(s, x) == Some(t))
    ensures S.Inv(t)
  {
    if t != s { S.StepInv(s, x); }
  }

  lemma StepInv(s: State, step: Step)
    requires Inv(s) && Next(s, step).Some?
    ensures Inv(Next(s, step).value)
  {
    var x := SupervisorStep(s, step);
    SupervisorInv(s.sys, Next(s, step).value.sys, x);
    StepThreads(s, step);
  }

  lemma InitInv(s: State)
    requires Init(s)
    ensures Inv(s)
  {
    S.InitInv(s.sys);
  }

  ghost predicate IsRun(states: seq<State>, steps: seq<Step>) {
    |states| == |steps| + 1 && Init(states[0])
    && forall i :: 0 <= i < |steps| ==> Next(states[i], steps[i]) == Some(states[i + 1])
  }

  lemma StepToInv(s: State, step: Step, t: State)
    requires Inv(s) && Next(s, step) == Some(t)
    ensures Inv(t)
  {
    StepInv(s, step);
  }

  lemma RunInv(states: seq<State>, steps: seq<Step>)
    requires IsRun(states, steps)
    ensures forall i :: 0 <= i < |states| ==> Inv(states[i])
  {
    InitInv(states[0]);
    for i := 0 to |steps|
      invariant forall j :: 0 <= j <= i ==> Inv(states[j])
    {
      StepToInv(states[i], steps[i], states[i + 1]);
    }
  }

  // ----- custody -----

  predicate HasInHand(th: Thread, h: S.Handle) {
    th == Waiting(h) || (th.Cleaning? && !th.recovering && th.handle == h && th.stage != Swept)
  }

  /** An Allocate call still has the process in hand. */
  ghost predicate InFlight(s: State, h: S.Handle) {
    exists a :: a in s.threads && HasInHand(s.threads[a], h)
  }

  ghost predicate HandedOut(s: State, h: S.Handle) {
    exists a :: s.Is(a, Ready(h))
  }

  ghost predicate Retained(s: State, h: S.Handle) {
    h.spec.generation in s.retained && s.retained[h.spec.generation] == h && h !in s.reaps
  }

  predicate ExactlyOne(a: bool, b: bool, c: bool, d: bool) {
    (if a then 1 else 0) + (if b then 1 else 0) + (if c then 1 else 0) + (if d then 1 else 0) == 1
  }

  lemma HolderOnly(s: State, h: S.Handle, a: Actor)
    requires Threads(s) && h in s.launched && a in s.threads && Brought(s.threads[a]) == Some(h)
    ensures a == s.holder[h.spec.generation]
  {
    assert LaunchedOk(s, h) && ActorOk(s, a, s.threads[a]);
  }

  /** Only the call that brought a process up can have it in hand or have handed it out. */
  lemma AtHolder(s: State, h: S.Handle)
    requires Threads(s) && h in s.launched
    ensures var a := s.holder[h.spec.generation];
            && (InFlight(s, h) <==> HasInHand(s.threads[a], h))
            && (HandedOut(s, h) <==> s.threads[a] == Ready(h))
  {
    assert LaunchedOk(s, h);
    forall b | b in s.threads && Brought(s.threads[b]) == Some(h) ensures b == s.holder[h.spec.generation] {
      HolderOnly(s, h, b);
    }
    assert s.Is(s.holder[h.spec.generation], Ready(h)) <==> s.threads[s.holder[h.spec.generation]] == Ready(h);
  }

  /** A process that came up is in flight, handed out, retained or reaped by the allocator, and only
      one of these. In flight or retained it is registered under the same handle; handed out, until
      the shutdown path reaps it. */
  lemma OneCustodian(s: State, h: S.Handle)
    requires Inv(s) && h in s.launched
    ensures ExactlyOne(InFlight(s, h), HandedOut(s, h), Retained(s, h), h in s.reaps)
    ensures InFlight(s, h) || Retained(s, h) ==> s.Registered(h)
    ensures HandedOut(s, h) ==> s.Registered(h) || h in s.released
  {
    assert LaunchedOk(s, h);
    var a := s.holder[h.spec.generation];
    assert ActorOk(s, a, s.threads[a]);
    AtHolder(s, h);
    if h.spec.generation in s.retained {
      assert RetainedOk(s, h.spec.generation);
    }
  }

  /** Along every run no process is reaped twice by the allocator, and a handed-out process is
      never reaped by it, then or later. */
  lemma ReapedOnce(states: seq<State>, steps: seq<Step>, i: nat)
    requires IsRun(states, steps) && i < |states|
    ensures Distinct(states[i].reaps)
    ensures forall h :: h in states[i].reaps ==> h in states[i].launched && !HandedOut(states[i], h)
  {
    RunInv(states, steps);
    forall h | h in states[i].reaps ensures h in states[i].launched && !HandedOut(states[i], h) {
      OneCustodian(states[i], h);
    }
  }

  /** A handed-out process stays handed out. */
  lemma HandedOutForever(s: State, step: Step, h: S.Handle)
    requires Next(s, step).Some? && HandedOut(s, h)
    ensures HandedOut(Next(s, step).value, h)
  {
    var a :| s.Is(a, Ready(h));
    ReadyStays(s, step, a);
  }

  lemma ReadyStays(s: State, step: Step, a: Actor)
    requires Next(s, step).Some? && a in s.threads && s.threads[a].Ready?
    ensures Next(s, step).value.Is(a, s.threads[a])
  {
  }

  ghost predicate Finished(th: Thread) {
    th.Ready? || th.StartFailed? || th.Reclaimed? || th.GaveUp? || th.Returned?
  }

  /** So it is at every moment of every run. */
  lemma CustodyExact(states: seq<State>, steps: seq<Step>, i: nat, h: S.Handle)
    requires IsRun(states, steps) && i < |states| && h in states[i].launched
    ensures ExactlyOne(InFlight(states[i], h), HandedOut(states[i], h), Retained(states[i], h), h in states[i].reaps)
    ensures InFlight(states[i], h) || Retained(states[i], h) ==> states[i].Registered(h)
    ensures HandedOut(states[i], h) ==> states[i].Registered(h) || h in states[i].released
  {
    RunInv(states, steps);
    OneCustodian(states[i], h);
  }

  /** Once every call has returned nothing is lost: each process that came up was handed out, or is
      retained and still registered for recovery, or was reaped. */
  lemma NothingLost(states: seq<State>, steps: seq<Step>, i: nat, h: S.Handle)
    requires IsRun(states, steps) && i < |states| && h in states[i].launched
    requires forall a :: a in states[i].threads ==> Finished(states[i].threads[a])
    ensures HandedOut(states[i], h) || (Retained(states[i], h) && states[i].Registered(h)) || h in states[i].reaps
  {
    RunInv(states, steps);
    OneCustodian(states[i], h);
  }
}
