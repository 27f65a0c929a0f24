/** What the interleaved preparation calls come to: each section's outcome, what a cancel achieves,
    when a process is recorded, and that a preparation cancelled in time is never fetched. */
module PreparationOutcomes {
  import opened Prelude
  import opened PreparationRuns
  import P = ScenarioPreparations
  import G = ReplayGrants
  import C = Custody

  // ----- a process is recorded exactly when the allocator handed one out -----

  /** An ended run has recorded what its Allocate call answered, if it made one. */
  ghost predicate AnswerTaken(s: State, n: nat)
    requires n in s.runs
  {
    s.runs[n].phase.Ended? && C.Allocation(n) in s.custody.threads ==> Answer(s, n) == Some(s.runs[n].process)
  }

  ghost predicate AnswersTaken(s: State) { forall n :: n in s.runs ==> AnswerTaken(s, n) }

  /** An Allocate call that returned has returned for good. */
  lemma FinishedStands(c: C.State, step: C.Step, a: C.Actor)
    requires a.Allocation? && a in c.threads && C.Finished(c.threads[a]) && C.Next(c, step).Some?
    ensures a in C.Next(c, step).value.threads && C.Next(c, step).value.threads[a] == c.threads[a]
  {
  }

  lemma BeginsOwn(c: C.State, m: nat, a: C.Actor)
    requires C.Next(c, C.Begin(m)).Some? && a != C.Allocation(m)
    ensures a in C.Next(c, C.Begin(m)).value.threads <==> a in c.threads
  {
  }

  lemma HostOfStep(s: State, step: Step, t: State)
    requires Next(s, step) == Some(t)
    ensures step.AllocatorSteps? ==> !step.c.Begin? && C.Next(s.custody, step.c) == Some(t.custody)
    ensures step.RunAllocates? && !step.cancelled ==> C.Next(s.custody, C.Begin(step.n)) == Some(t.custody)
    ensures !step.AllocatorSteps? && !(step.RunAllocates? && !step.cancelled) ==> t.custody == s.custody
  {
  }

  /** The run's own step: it ends without an Allocate call, or with what its call answered. */
  lemma EndsWith(s: State, step: Step, t: State, n: nat)
    requires Next(s, step) == Some(t) && Acted(s, step) == Some(n) && n in t.runs && t.runs[n].phase.Ended?
    requires n in s.runs ==> n <= s.seqno
    ensures n in s.runs && t.custody == s.custody
    ensures (s.runs[n].phase.Ended? && t.runs[n].process == s.runs[n].process)
            || s.runs[n].phase.Revoking? || s.runs[n].phase.Allocating?
            || (s.runs[n].phase.Launched? && Answer(s, n) == Some(t.runs[n].process))
  {
  }

  lemma TakenByOwn(s: State, step: Step, t: State, n: nat)
    requires Next(s, step) == Some(t) && Acted(s, step) == Some(n) && n in t.runs
    requires n in s.runs ==> n <= s.seqno && AnswerTaken(s, n) && HostOk(s.custody, n, s.runs[n])
    ensures AnswerTaken(t, n)
  {
    if t.runs[n].phase.Ended? { EndsWith(s, step, t, n); }
  }

  lemma TakenByOthers(s: State, step: Step, t: State, n: nat)
    requires Next(s, step) == Some(t) && Acted(s, step) != Some(n) && n in s.runs && n in t.runs
    requires t.runs[n] == s.runs[n] && AnswerTaken(s, n)
    ensures AnswerTaken(t, n)
  {
    var a := C.Allocation(n);
    HostOfStep(s, step, t);
    if step.AllocatorSteps? {
      if s.runs[n].phase.Ended? && a in s.custody.threads { FinishedStands(s.custody, step.c, a); }
      AllocatorFrame(s.custody, step.c);
    } else if step.RunAllocates? && !step.cancelled {
      if s.runs[n].phase.Ended? && a in s.custody.threads { FinishedStands(s.custody, C.Begin(step.n), a); }
      BeginsOwn(s.custody, step.n, a);
    }
  }

  lemma TakenStep(s: State, step: Step, t: State)
    requires Local(s) && AnswersTaken(s) && Next(s, step) == Some(t)
    ensures AnswersTaken(t)
  {
    forall n | n in t.runs ensures AnswerTaken(t, n) {
      if n in s.runs { assert RunOk(s, n, s.runs[n]) && AnswerTaken(s, n); }
      if Acted(s, step) == Some(n) {
        TakenByOwn(s, step, t, n);
      } else {
        ActedOnly(s, step, t, n);
        TakenByOthers(s, step, t, n);
      }
    }
  }

  lemma TakenNext(states: seq<State>, steps: seq<Step>, i: nat)
    requires IsRun(states, steps) && i < |steps| && AnswersTaken(states[i])
    ensures AnswersTaken(states[i + 1])
  {
    RunInv(states, steps);
    TakenStep(states[i], steps[i], states[i + 1]);
  }

  /** Over every run a preparation has this process recorded exactly when its run has ended and its
      Allocate call handed that process out. */
  lemma ProcessExact(states: seq<State>, steps: seq<Step>, i: nat, n: nat, g: nat)
    requires IsRun(states, steps) && i < |states| && n in states[i].runs
    ensures states[i].runs[n].process == Some(g) <==> states[i].runs[n].phase.Ended? && ProcessReady(states[i], n, g)
  {
    for j := 0 to i
      invariant AnswersTaken(states[j])
    {
      TakenNext(states, steps, j);
    }
    RunInv(states, steps);
    ProcessAt(states[i], n, g);
  }

  lemma ProcessAt(s: State, n: nat, g: nat)
    requires Local(s) && AnswersTaken(s) && n in s.runs
    ensures s.runs[n].process == Some(g) <==> s.runs[n].phase.Ended? && ProcessReady(s, n, g)
  {
    assert RunOk(s, n, s.runs[n]) && AnswerTaken(s, n);
  }

  // ----- the sections of a run -----

  /** The provider checks a live preparation and returns a terminal one; the store verifies exactly a
      usable grant; a queued preparation starts running; a running one becomes ready with the compiled
      revision or failed with the refusal; the provider's failure marks a live preparation only; a
      ready preparation goes on to the allocator and any other to its revocation. */
  ghost predicate SectionOk(s: State, step: Step, t: State, n: nat)
    requires n in s.runs && n in t.runs
  {
    var a, b := s.runs[n], t.runs[n];
    match step
    case RunChecks(_) => b == a.(phase := if a.record.state.Terminal() then Returned else Entering)
    case RunVerifies(_, now, code) =>
      b == a.(phase := if a.token != "" && s.grants.auth.Usable(RequestOf(s, n), now) then Verified else Refusing(code))
    case RunFetches(_, ok) => b == a.(phase := if ok then Extracting else Refusing("store_denied"))
    case RunMarksRunning(_) =>
      if a.record.state == P.Queued then b == a.(record := P.Preparation(P.Running, None, None), phase := Compiling)
      else b == a.(phase := Refusing("provider_failed"))
    case RunMarks(_, revision) =>
      if a.record.state != P.Running then b == a.(phase := Refusing("provider_failed"))
      else if revision.Some? then b == a.(record := P.Preparation(P.Ready, revision, None), phase := Returned)
      else
        b == a.(record := P.Preparation(P.Failed, None, Some("compile_refused")), phase := Refusing("provider_failed"))
    case RunFails(_) =>
      a.phase.Refusing?
      && b == a.(record := if a.record.state.Terminal() then a.record
                           else P.Preparation(P.Failed, None, Some(a.phase.code)), phase := Returned)
    case RunWaits(_) => b == a.(phase := if a.record.state == P.Ready then Allocating else Revoking)
    case RunAllocates(_, cancelled) =>
      if cancelled then b == a.(phase := Ended, allocationFailed := true)
      else b == a.(phase := Launched) && C.Allocation(n) in t.custody.threads
    case _ => true
  }

  predicate ProviderStep(step: Step) {
    step.RunChecks? || step.RunVerifies? || step.RunFetches? || step.RunMarksRunning? || step.RunMarks?
    || step.RunFails? || step.RunWaits? || step.RunAllocates?
  }

  lemma SectionAt(s: State, step: Step, t: State)
    requires Next(s, step) == Some(t) && ProviderStep(step) && !step.RunVerifies? && step.n in s.runs
    requires RecordOk(s.runs[step.n])
    ensures step.n in t.runs && SectionOk(s, step, t, step.n)
  {
  }

  lemma VerifiesAt(s: State, step: Step, t: State)
    requires Next(s, step) == Some(t) && step.RunVerifies? && step.n in s.runs && s.grants.auth.Inv()
    ensures step.n in t.runs && SectionOk(s, step, t, step.n)
  {
    VerifyShape(s, step.n, step.now, step.code);
    G.VerifyInv(s.grants.auth, RequestOf(s, step.n), step.now);
  }

  lemma ProviderActs(s: State, step: Step, t: State)
    requires Next(s, step) == Some(t) && ProviderStep(step)
    ensures step.n in s.runs
  {
  }

  /** Over every run each section of each run is of this kind. */
  lemma SectionExact(states: seq<State>, steps: seq<Step>, i: nat)
    requires IsRun(states, steps) && i < |steps| && ProviderStep(steps[i])
    ensures steps[i].n in states[i].runs && steps[i].n in states[i + 1].runs
    ensures SectionOk(states[i], steps[i], states[i + 1], steps[i].n)
  {
    RunInv(states, steps);
    ProviderActs(states[i], steps[i], states[i + 1]);
    assert RunOk(states[i], steps[i].n, states[i].runs[steps[i].n]);
    if steps[i].RunVerifies? {
      VerifiesAt(states[i], steps[i], states[i + 1]);
    } else {
      SectionAt(states[i], steps[i], states[i + 1]);
    }
  }

  /** Over every run minting files a grant for the preparation's own owner and replay, unused and good
      for the whole lifetime, and the run carries its token; or it fails and the run ends there. */
  lemma MintedExact(states: seq<State>, steps: seq<Step>, i: nat, n: nat, nonce: Option<string>, now: int, ttl: int)
    requires IsRun(states, steps) && i < |steps| && steps[i] == PrepareMints(n, nonce, now, ttl)
    ensures n in states[i].runs && n in states[i + 1].runs
    ensures var a, b, auth := states[i].runs[n], states[i + 1].runs[n], states[i + 1].grants.auth;
            if nonce.Some? && a.owner != "" && a.replay != ""
            then
              b == a.(phase := Minted, token := nonce.value)
              && auth.Of(PrepId(n)) == Some(G.GrantRecord(PrepId(n), a.owner, a.replay, now + ttl, false, false))
              && auth.byPreparation[PrepId(n)] == nonce.value
            else b == a.(phase := Aborted) && auth == states[i].grants.auth
  {
    RunInv(states, steps);
    MintedBy(states[i], n, nonce, now, ttl, states[i + 1]);
    assert RunOk(states[i], n, states[i].runs[n]);
    MintedAt(states[i], n, nonce, now, ttl, states[i + 1]);
  }

  lemma MintedBy(s: State, n: nat, nonce: Option<string>, now: int, ttl: int, t: State)
    requires Next(s, PrepareMints(n, nonce, now, ttl)) == Some(t)
    ensures s.Has(n, Minting) && n in t.runs
    ensures var (auth, r) := s.grants.auth.Mint(PrepId(n), s.runs[n].owner, s.runs[n].replay, nonce, now, ttl);
            t.grants.auth == auth && (nonce.Some? ==> nonce.value !in s.grants.auth.grants)
            && t.runs[n] == if r.Ok? then s.runs[n].(phase := Minted, token := r.value.token)
                            else s.runs[n].(phase := Aborted)
  {
  }

  lemma MintedAt(s: State, n: nat, nonce: Option<string>, now: int, ttl: int, t: State)
    requires s.Has(n, Minting) && n in t.runs && s.grants.auth.Inv() && GrantOk(s.grants.auth, n, s.runs[n])
    requires nonce.Some? ==> nonce.value !in s.grants.auth.grants
    requires var (auth, r) := s.grants.auth.Mint(PrepId(n), s.runs[n].owner, s.runs[n].replay, nonce, now, ttl);
             t.grants.auth == auth
             && t.runs[n] == if r.Ok? then s.runs[n].(phase := Minted, token := r.value.token)
                             else s.runs[n].(phase := Aborted)
    ensures var a, b, auth := s.runs[n], t.runs[n], t.grants.auth;
            if nonce.Some? && a.owner != "" && a.replay != ""
            then
              b == a.(phase := Minted, token := nonce.value)
              && auth.Of(PrepId(n)) == Some(G.GrantRecord(PrepId(n), a.owner, a.replay, now + ttl, false, false))
              && PrepId(n) in auth.byPreparation && auth.byPreparation[PrepId(n)] == nonce.value
            else b == a.(phase := Aborted) && auth == s.grants.auth
  {
    G.MintExact(s.grants.auth, PrepId(n), s.runs[n].owner, s.runs[n].replay, nonce, now, ttl);
    G.MintInv(s.grants.auth, PrepId(n), s.runs[n].owner, s.runs[n].replay, nonce, now, ttl);
  }

  // ----- cancelling -----

  /** The owner's cancel, and no one else's, goes on to mark the preparation. It cancels one that is
      not terminal, whatever its run is doing, then revokes its grant and succeeds; a terminal one it
      leaves alone, and is refused. */
  ghost predicate CancelOutcome(s: State, step: Step, t: State)
    requires (step.CancelBegins? || step.CancelMarks? || step.CancelRevokes?) && step.k in t.cancels
  {
    match step
    case CancelBegins(k, n, caller) =>
      n in s.runs && t == s.(cancels := t.cancels)
      && t.cancels[k] == if s.runs[n].owner == caller then CancelMarking(n) else CancelDone(n, false)
    case CancelMarks(k) =>
      && k in s.cancels && s.cancels[k].CancelMarking? && s.cancels[k].n in s.runs && s.cancels[k].n in t.runs
      && var n := s.cancels[k].n;
         if s.runs[n].record.state.Terminal()
         then t.runs == s.runs && t.cancels[k] == CancelDone(n, false)
         else t.runs[n] == s.runs[n].(record := P.Preparation(P.Cancelled, None, None))
              && t.cancels[k] == CancelRevoking(n)
    case CancelRevokes(k) =>
      k in s.cancels && s.cancels[k].CancelRevoking? && t.cancels[k] == CancelDone(s.cancels[k].n, true)
      && t.grants.auth.Spent(PrepId(s.cancels[k].n))
  }

  lemma CancelAt(s: State, step: Step, t: State)
    requires Next(s, step) == Some(t) && (step.CancelBegins? || step.CancelMarks?)
    ensures step.k in t.cancels && CancelOutcome(s, step, t)
  {
    if step.CancelMarks? { assert t.runs == s.runs[s.cancels[step.k].n := t.runs[s.cancels[step.k].n]]; }
  }

  lemma CancelRevokesAt(s: State, k: nat, t: State)
    requires Next(s, CancelRevokes(k)) == Some(t) && Local(t)
    ensures k in t.cancels && CancelOutcome(s, CancelRevokes(k), t)
  {
    CancelRevokeShape(s, k);
    assert CancelOk(t, t.cancels[k]);
  }

  /** Over every run each section of each cancel is of this kind. */
  lemma CancelExact(states: seq<State>, steps: seq<Step>, i: nat)
    requires IsRun(states, steps) && i < |steps|
    requires steps[i].CancelBegins? || steps[i].CancelMarks? || steps[i].CancelRevokes?
    ensures steps[i].k in states[i + 1].cancels && CancelOutcome(states[i], steps[i], states[i + 1])
  {
    RunInv(states, steps);
    if steps[i].CancelRevokes? {
      CancelRevokesAt(states[i], steps[i].k, states[i + 1]);
    } else {
      CancelAt(states[i], steps[i], states[i + 1]);
    }
  }

  // ----- a preparation cancelled in time is never fetched -----

  /** No request for this preparation has reached the store or is on its way. */
  ghost predicate Unasked(s: State, n: nat) {
    && n !in s.grants.pending
    && (forall c :: c in s.grants.pending ==> s.grants.pending[c].preparationID != PrepId(n))
    && (forall j :: 0 <= j < |s.grants.fetched| ==> s.grants.fetched[j].preparationID != PrepId(n))
  }

  predicate Early(p: Phase) { p.Minting? || p.Aborted? || p.Minted? || p.Spawned? || p.Entering? }

  ghost predicate EarlyUnasked(s: State) {
    && (forall n :: n in s.runs && Early(s.runs[n].phase) ==> Unasked(s, n))
    && (forall n :: n > s.seqno ==> Unasked(s, n))
  }

  lemma AskedBy(s: State, step: Step, t: State)
    requires Next(s, step) == Some(t)
    ensures step.RunVerifies? ==>
              t.grants.fetched == s.grants.fetched && step.n in s.runs
              && (t.grants.pending == s.grants.pending
                  || t.grants.pending == s.grants.pending[step.n := RequestOf(s, step.n)])
    ensures step.RunFetches? ==>
              step.n in s.grants.pending && t.grants.pending == s.grants.pending - {step.n}
              && t.grants.fetched == s.grants.fetched + [s.grants.pending[step.n]]
    ensures !step.RunVerifies? && !step.RunFetches? ==>
              t.grants.pending == s.grants.pending && t.grants.fetched == s.grants.fetched
  {
  }

  lemma UnaskedStays(s: State, step: Step, t: State, n: nat)
    requires Next(s, step) == Some(t) && Unasked(s, n) && !(step.RunVerifies? && step.n == n)
    ensures Unasked(t, n)
  {
    AskedBy(s, step, t);
    if step.RunVerifies? { PrepIdsDistinct(step.n, n); }
  }

  /** A run is never early again, and the one begun is. */
  lemma EarlyMoves(s: State, step: Step, t: State, n: nat)
    requires Next(s, step) == Some(t) && n in t.runs && Early(t.runs[n].phase)
    requires forall m :: m in s.runs ==> m <= s.seqno
    ensures if n in s.runs then Early(s.runs[n].phase) else n == s.seqno + 1
    ensures !(step.RunVerifies? && step.n == n)
  {
    if Acted(s, step) != Some(n) {
      ActedOnly(s, step, t, n);
    } else {
      EarlyOwn(s, step, t, n);
    }
  }

  lemma EarlyOwn(s: State, step: Step, t: State, n: nat)
    requires Next(s, step) == Some(t) && Acted(s, step) == Some(n) && n in t.runs && Early(t.runs[n].phase)
    requires forall m :: m in s.runs ==> m <= s.seqno
    ensures if n in s.runs then Early(s.runs[n].phase) else n == s.seqno + 1
    ensures !step.RunVerifies?
  {
  }

  lemma SeqnoGrows(s: State, step: Step, t: State)
    requires Next(s, step) == Some(t)
    ensures s.seqno <= t.seqno
    ensures step.RunVerifies? ==> step.n in s.runs
  {
  }

  lemma EarlyStep(s: State, step: Step, t: State)
    requires Local(s) && EarlyUnasked(s) && Next(s, step) == Some(t)
    ensures EarlyUnasked(t)
  {
    forall m | m in s.runs ensures m <= s.seqno { assert RunOk(s, m, s.runs[m]); }
    SeqnoGrows(s, step, t);
    forall n | n in t.runs && Early(t.runs[n].phase) ensures Unasked(t, n) {
      EarlyMoves(s, step, t, n);
      UnaskedStays(s, step, t, n);
    }
    forall n | n > t.seqno ensures Unasked(t, n) { UnaskedStays(s, step, t, n); }
  }

  lemma EarlyNext(states: seq<State>, steps: seq<Step>, i: nat)
    requires IsRun(states, steps) && i < |steps| && EarlyUnasked(states[i])
    ensures EarlyUnasked(states[i + 1])
  {
    RunInv(states, steps);
    EarlyStep(states[i], steps[i], states[i + 1]);
  }

  /** Cancelled before its run's first check; the run then only returns, revokes and ends. */
  ghost predicate Skips(s: State, n: nat) {
    && n in s.runs && s.runs[n].record.state == P.Cancelled && Unasked(s, n)
    && (s.runs[n].phase.Spawned? || s.runs[n].phase.Returned? || s.runs[n].phase.Revoking? || s.runs[n].phase.Ended?)
  }

  lemma SkipsOwn(s: State, step: Step, t: State, n: nat)
    requires Next(s, step) == Some(t) && Acted(s, step) == Some(n) && n <= s.seqno && Skips(s, n)
    ensures n in t.runs && t.runs[n].record.state == P.Cancelled && !(step.RunVerifies? && step.n == n)
    ensures t.runs[n].phase.Spawned? || t.runs[n].phase.Returned? || t.runs[n].phase.Revoking? || t.runs[n].phase.Ended?
  {
  }

  lemma SkipsStep(s: State, step: Step, t: State, n: nat)
    requires Next(s, step) == Some(t) && n <= s.seqno && Skips(s, n)
    ensures Skips(t, n)
  {
    if Acted(s, step) == Some(n) { SkipsOwn(s, step, t, n); } else { ActedOnly(s, step, t, n); }
    UnaskedStays(s, step, t, n);
  }

  lemma SkipsNext(states: seq<State>, steps: seq<Step>, i: nat, n: nat)
    requires IsRun(states, steps) && i < |steps| && Skips(states[i], n)
    ensures Skips(states[i + 1], n)
  {
    RunInv(states, steps);
    assert RunOk(states[i], n, states[i].runs[n]);
    SkipsStep(states[i], steps[i], states[i + 1], n);
  }

  /** Over every run: a preparation cancelled before its run's first check is never fetched. */
  lemma CancelledUnfetched(states: seq<State>, steps: seq<Step>, i: nat, j: nat, n: nat)
    requires IsRun(states, steps) && i <= j < |states| && n in states[i].runs
    requires states[i].runs[n].phase.Spawned? && states[i].runs[n].record.state == P.Cancelled
    ensures forall m :: 0 <= m < |states[j].grants.fetched| ==>
              states[j].grants.fetched[m].preparationID != PrepId(n)
  {
    for m := 0 to i
      invariant EarlyUnasked(states[m])
    {
      EarlyNext(states, steps, m);
    }
    for m := i to j
      invariant Skips(states[m], n)
    {
      SkipsNext(states, steps, m, n);
    }
  }

  // ----- no run is stuck, and nothing outside is held up -----

  /** What may happen at any time does: a preparation may begin; its checks and its bytes may be
      refused for any cause; a cancel may begin for any registered preparation and goes on; the
      allocator takes any step it could take by itself but the start of a call. */
  ghost predicate Open(s: State, step: Step) {
    match step
    case PrepareBegins(_, _) => Next(s, step).Some?
    case RunRefuses(n, code) =>
      (Next(s, step).Some? <==> s.Has(n, Entering) || s.Has(n, Extracting))
      && (Next(s, step).Some? ==> Next(s, step).value == s.Goto(n, Refusing(code)))
    case CancelBegins(k, n, _) => Next(s, step).Some? <==> k !in s.cancels && s.Registered(n)
    case CancelMarks(k) =>
      Next(s, step).Some? <==> k in s.cancels && s.cancels[k].CancelMarking? && s.cancels[k].n in s.runs
    case CancelRevokes(k) => Next(s, step).Some? <==> k in s.cancels && s.cancels[k].CancelRevoking?
    case AllocatorSteps(c) =>
      (Next(s, step).Some? <==> !c.Begin? && C.Next(s.custody, c).Some?)
      && (Next(s, step).Some? ==> Next(s, step).value == s.(custody := C.Next(s.custody, c).value))
    case _ => true
  }

  lemma NothingHeldUp(s: State, step: Step)
    ensures Open(s, step)
  {
  }

  /** A step of the run. */
  function NextStep(n: nat, p: Phase): Step {
    match p
    case Minting => PrepareMints(n, None, 0, 0)
    case Minted => PrepareRegisters(n)
    case Spawned => RunChecks(n)
    case Entering => RunVerifies(n, 0, "")
    case Verified => RunFetches(n, true)
    case Extracting => RunMarksRunning(n)
    case Compiling => RunMarks(n, None)
    case Refusing(_) => RunFails(n)
    case Returned => RunWaits(n)
    case Revoking => RunRevokes(n)
    case Allocating => RunAllocates(n, true)
    case _ => RunRecords(n)
  }

  /** The run's Allocate call is not waiting, cleaning up or launching any more. */
  ghost predicate CallReturned(s: State, n: nat) {
    C.Allocation(n) in s.custody.threads && C.Finished(s.custody.threads[C.Allocation(n)])
    && !s.custody.threads[C.Allocation(n)].Returned?
  }

  lemma RunEnabled(s: State, n: nat)
    requires n in s.runs && StoreOk(s, n) && (s.runs[n].phase.Entering? ==> Unasked(s, n))
    requires !s.runs[n].phase.Aborted? && !s.runs[n].phase.Ended? && !s.runs[n].phase.Abandoned?
    requires s.runs[n].phase.Launched? ==> CallReturned(s, n)
    ensures Next(s, NextStep(n, s.runs[n].phase)).Some?
  {
  }

  /** In every reachable state a run that has not ended can take its next section, unless it waits
      for its Allocate call to return. */
  lemma NeverStuck(states: seq<State>, steps: seq<Step>, i: nat, n: nat)
    requires IsRun(states, steps) && i < |states| && n in states[i].runs
    requires !states[i].runs[n].phase.Aborted? && !states[i].runs[n].phase.Ended?
    requires states[i].runs[n].phase.Launched? ==> CallReturned(states[i], n)
    ensures Next(states[i], NextStep(n, states[i].runs[n].phase)).Some?
  {
    for m := 0 to i
      invariant EarlyUnasked(states[m])
    {
      EarlyNext(states, steps, m);
    }
    LifecycleExact(states, steps, i, n);
    StoreRun(states, steps, i);
    assert StoreOk(states[i], n);
    RunEnabled(states[i], n);
  }
}
