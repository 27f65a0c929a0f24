/** Preparation runs: the orchestrator mints a grant, registers the preparation and runs the
    provider; the provider's effects interleave with CancelPreparation, with other runs and with
    the allocator. One step per locked section; extraction and compilation are arbitrary. */
module PreparationRuns {
  import opened Prelude
  import Decimal
  import P = ScenarioPreparations
  import G = ReplayGrants
  import C = Custody

  function PrepId(n: nat): string { "prep-" + Decimal.Print(n) }

  lemma PrepIdsDistinct(m: nat, n: nat)
    requires m != n
    ensures PrepId(m) != PrepId(n)
  {
    assert PrepId(m)[5..] == Decimal.Print(m) && PrepId(n)[5..] == Decimal.Print(n);
    if Decimal.Print(m) == Decimal.Print(n) { Decimal.PrintInjective(m, n); }
  }

  /** Where the goroutine of one preparation stands, from Prepare to the end of runPreparer. */
  datatype Phase =
    | Minting | Aborted | Minted       // Prepare reserved the ID; minting failed; minting succeeded
    | Spawned                          // registered; the provider checks for a terminal state next
    | Entering                         // local checks, then the store verifies the grant
    | Verified                         // the grant was consumed; the inner store is called next
    | Extracting                       // bytes in hand
    | Compiling                        // MarkRunning succeeded
    | Refusing(code: string)           // Provider.fail marks the preparation failed next
    | Returned                         // Provider.Prepare returned
    | Revoking | Allocating | Launched // runPreparer after WaitReady
    | Ended | Abandoned                // runPreparer returned; Abandoned: it saw a shutdown first

  datatype Run = Run(
    record: P.Preparation, owner: string, replay: string, token: string, phase: Phase,
    process: Option<nat>, allocationFailed: bool)

  datatype Cancel = CancelMarking(n: nat) | CancelRevoking(n: nat) | CancelDone(n: nat, ok: bool)

  datatype State = State(
    seqno: nat, runs: map<nat, Run>, cancels: map<nat, Cancel>, grants: G.Sys, custody: C.State) {

    function With(n: nat, run: Run): State { this.(runs := runs[n := run]) }

    function Goto(n: nat, phase: Phase): State
      requires n in runs
    {
      With(n, runs[n].(phase := phase))
    }

    predicate Has(n: nat, phase: Phase) { n in runs && runs[n].phase == phase }

    predicate Registered(n: nat) {
      n in runs && !runs[n].phase.Minting? && !runs[n].phase.Aborted? && !runs[n].phase.Minted?
    }
  }

  datatype Step =
    | PrepareBegins(owner: string, replay: string)
    | PrepareMints(n: nat, nonce: Option<string>, now: int, ttl: int)
    | PrepareRegisters(n: nat)
    | RunChecks(n: nat)
    | RunRefuses(n: nat, code: string)
    | RunVerifies(n: nat, now: int, code: string)
    | RunFetches(n: nat, ok: bool)
    | RunMarksRunning(n: nat)
    | RunMarks(n: nat, revision: Option<string>)
    | RunFails(n: nat)
    | RunWaits(n: nat)
    | RunRevokes(n: nat)
    | RunAllocates(n: nat, cancelled: bool)
    | RunRecords(n: nat)
    | CancelBegins(k: nat, n: nat, caller: string) | CancelMarks(k: nat) | CancelRevokes(k: nat)
    | AllocatorSteps(c: C.Step)

  function RequestOf(s: State, n: nat): G.ReplayRequest
    requires n in s.runs
  {
    G.ReplayRequest(PrepId(n), s.runs[n].replay, s.runs[n].token)
  }

  /** The allocator's answer for a run, once its Allocate call returned. */
  function Answer(s: State, n: nat): Option<Option<nat>> {
    var a := C.Allocation(n);
    if a !in s.custody.threads then None
    else match s.custody.threads[a]
      case Ready(h) => Some(Some(h.spec.generation))
      case StartFailed => Some(None)
      case Reclaimed(_) => Some(None)
      case GaveUp(_) => Some(None)
      case _ => None
  }

  function Next(s: State, step: Step): Option<State> {
    match step
    case PrepareBegins(owner, replay) =>
      var n := s.seqno + 1;
      Some(s.(seqno := n, runs := s.runs[n := Run(P.QUEUED, owner, replay, "", Minting, None, false)]))
    case PrepareMints(n, nonce, now, ttl) =>
      if !s.Has(n, Minting) then None
      else
        var run := s.runs[n];
        var g := G.Next(s.grants, G.Mint(PrepId(n), run.owner, run.replay, nonce, now, ttl));
        if g.None? then None
        else
          var r := s.grants.auth.Mint(PrepId(n), run.owner, run.replay, nonce, now, ttl).1;
          Some(s.With(n, if r.Ok? then run.(phase := Minted, token := r.value.token) else run.(phase := Aborted))
                .(grants := g.value))
    case PrepareRegisters(n) => if !s.Has(n, Minted) then None else Some(s.Goto(n, Spawned))
    case RunChecks(n) =>
      if !s.Has(n, Spawned) then None
      else Some(s.Goto(n, if s.runs[n].record.state.Terminal() then Returned else Entering))
    case RunRefuses(n, code) =>
      if s.Has(n, Entering) || s.Has(n, Extracting) then Some(s.Goto(n, Refusing(code))) else None
    case RunVerifies(n, now, code) =>
      if !s.Has(n, Entering) then None
      else
        var g := G.Next(s.grants, G.Verify(n, RequestOf(s, n), now));
        if g.None? then None
        else
          var r := s.grants.auth.Verify(RequestOf(s, n), now).1;
          Some(s.Goto(n, if r.Ok? then Verified else Refusing(code)).(grants := g.value))
    case RunFetches(n, ok) =>
      if !s.Has(n, Verified) then None
      else
        var g := G.Next(s.grants, G.Fetch(n));
        if g.None? then None
        else Some(s.Goto(n, if ok then Extracting else Refusing("store_denied")).(grants := g.value))
    case RunMarksRunning(n) =>
      if !s.Has(n, Extracting) then None
      else
        var (record, r) := s.runs[n].record.MarkRunning();
        Some(s.With(n, s.runs[n].(record := record, phase := if r.Ok? then Compiling else Refusing("provider_failed"))))
    case RunMarks(n, revision) =>
      if !s.Has(n, Compiling) then None
      else
        var (record, r) := if revision.Some? then s.runs[n].record.MarkReady(revision)
                           else s.runs[n].record.MarkFailed(Some(P.COMPILE_REFUSED));
        var phase := if revision.Some? && r.Ok? then Returned else Refusing("provider_failed");
        Some(s.With(n, s.runs[n].(record := record, phase := phase)))
    case RunFails(n) =>
      if n !in s.runs || !s.runs[n].phase.Refusing? then None
      else
        var record := s.runs[n].record.MarkFailed(Some(s.runs[n].phase.code)).0;
        Some(s.With(n, s.runs[n].(record := record, phase := Returned)))
    case RunWaits(n) =>
      if !s.Has(n, Returned) then None
      else
        var state := s.runs[n].record.state;
        Some(s.Goto(n, if !state.Terminal() then Abandoned else if state == P.Ready then Allocating else Revoking))
    case RunRevokes(n) =>
      if !s.Has(n, Revoking) then None
      else Some(s.Goto(n, Ended).(grants := s.grants.(auth := s.grants.auth.Revoke(PrepId(n)))))
    case RunAllocates(n, cancelled) =>
      if !s.Has(n, Allocating) then None
      else if cancelled then Some(s.With(n, s.runs[n].(phase := Ended, allocationFailed := true)))
      else
        var c := C.Next(s.custody, C.Begin(n));
        if c.None? then None else Some(s.Goto(n, Launched).(custody := c.value))
    case RunRecords(n) =>
      if !s.Has(n, Launched) || Answer(s, n).None? then None
      else
        var answer := Answer(s, n).value;
        Some(s.With(n, s.runs[n].(phase := Ended, process := answer, allocationFailed := answer.None?)))
    case CancelBegins(k, n, caller) =>
      if k in s.cancels || !s.Registered(n) then None
      else
        var c := if s.runs[n].owner == caller then CancelMarking(n) else CancelDone(n, false);
        Some(s.(cancels := s.cancels[k := c]))
    case CancelMarks(k) =>
      if k !in s.cancels || !s.cancels[k].CancelMarking? || s.cancels[k].n !in s.runs then None
      else
        var n := s.cancels[k].n;
        var (record, r) := s.runs[n].record.MarkCancelled();
        Some(s.With(n, s.runs[n].(record := record))
              .(cancels := s.cancels[k := if r.Ok? then CancelRevoking(n) else CancelDone(n, false)]))
    case CancelRevokes(k) =>
      if k !in s.cancels || !s.cancels[k].CancelRevoking? then None
      else
        var n := s.cancels[k].n;
        Some(s.(cancels := s.cancels[k := CancelDone(n, true)],
                grants := s.grants.(auth := s.grants.auth.Revoke(PrepId(n)))))
    case AllocatorSteps(c) =>
      if c.Begin? then None
      else
        var t := C.Next(s.custody, c);
        if t.None? then None else Some(s.(custody := t.value))
  }

  predicate Init(s: State) {
    s.seqno == 0 && s.runs == map[] && s.cancels == map[] && G.Init(s.grants) && C.Init(s.custody)
  }

  // ----- the invariant -----

  /** The run can only be here after the inner store gave it the bytes. */
  predicate PastFetch(run: Run) {
    run.phase.Extracting? || run.phase.Compiling? || run.record.state == P.Ready || run.record.state == P.Running
  }

  /** The run can only be here after its grant was consumed. */
  predicate PastVerify(run: Run) { run.phase.Verified? || PastFetch(run) }

  /** The part that concerns the grant of preparation n. */
  ghost predicate GrantOk(auth: G.Authority, n: nat, run: Run) {
    var id := PrepId(n);
    if run.phase.Minting? || run.phase.Aborted? then id !in auth.byPreparation
    else
      && id in auth.byPreparation && auth.byPreparation[id] == run.token
      && auth.Of(id).Some? && auth.Of(id).value.replayID == run.replay
      && (PastVerify(run) ==> auth.Of(id).value.used)
      && (run.phase.Ended? && run.record.state != P.Ready ==> auth.Spent(id))
  }

  ghost predicate RecordOk(run: Run) {
    && run.record.Sound()
    && (match run.phase
        case Minting => run.record == P.QUEUED
        case Aborted => run.record == P.QUEUED
        case Minted => run.record == P.QUEUED
        case Spawned => run.record.state == P.Queued || run.record.state == P.Cancelled
        case Entering => run.record.state == P.Queued || run.record.state == P.Cancelled
        case Verified => run.record.state == P.Queued || run.record.state == P.Cancelled
        case Extracting => run.record.state == P.Queued || run.record.state == P.Cancelled
        case Compiling => run.record.state == P.Running || run.record.state == P.Cancelled
        case Refusing(_) => run.record.state != P.Ready
        case Returned => run.record.state.Terminal()
        case Revoking => run.record.state.Terminal() && run.record.state != P.Ready
        case Allocating => run.record.state == P.Ready
        case Launched => run.record.state == P.Ready
        case Ended => run.record.state.Terminal()
        case Abandoned => false)
    && (run.process.Some? || run.allocationFailed <==> run.phase == Ended && run.record.state == P.Ready)
    && !(run.process.Some? && run.allocationFailed)
  }

  ghost predicate HostOk(c: C.State, n: nat, run: Run) {
    var a := C.Allocation(n);
    && (!run.phase.Launched? && !run.phase.Ended? ==> a !in c.threads)
    && (run.process.Some? ==> a in c.threads && c.threads[a].Ready?
                              && c.threads[a].handle.spec.generation == run.process.value)
  }

  ghost predicate RunOk(s: State, n: nat, run: Run) {
    n <= s.seqno && RecordOk(run) && GrantOk(s.grants.auth, n, run) && HostOk(s.custody, n, run)
  }

  ghost predicate CancelOk(s: State, c: Cancel) {
    match c
    case CancelMarking(n) => s.Registered(n)
    case CancelRevoking(n) => s.Registered(n) && s.runs[n].record.state == P.Cancelled
    case CancelDone(n, ok) => s.Registered(n)
                              && (ok ==> s.runs[n].record.state == P.Cancelled && s.grants.auth.Spent(PrepId(n)))
  }

  ghost predicate Local(s: State) {
    && (forall n :: n in s.runs ==> RunOk(s, n, s.runs[n]))
    && (forall n :: n > s.seqno ==> PrepId(n) !in s.grants.auth.byPreparation && C.Allocation(n) !in s.custody.threads)
    && (forall k :: k in s.cancels ==> CancelOk(s, s.cancels[k]))
  }

  ghost predicate Inv(s: State) {
    G.Inv(s.grants) && C.Inv(s.custody) && Local(s)
  }

  // ----- preservation -----

  /** The grant authority changed, if at all, only about preparation n, and undid nothing. */
  ghost predicate AuthMoved(a: G.Authority, b: G.Authority, n: nat) {
    && b.Inv() && G.Later(a, b)
    && (forall q :: q != PrepId(n) ==> b.Of(q) == a.Of(q) && (q in a.byPreparation <==> q in b.byPreparation))
  }

  /** Allocate calls of other runs neither appear nor lose a process they returned. */
  ghost predicate HostMoved(c: C.State, d: C.State, n: nat) {
    forall m: nat :: m != n ==>
      (C.Allocation(m) in c.threads <==> C.Allocation(m) in d.threads)
      && (C.Allocation(m) in c.threads && c.threads[C.Allocation(m)].Ready?
          ==> d.threads[C.Allocation(m)] == c.threads[C.Allocation(m)])
  }

  lemma OtherRunOk(s: State, t: State, n: nat, m: nat)
    requires m != n && m in s.runs && RunOk(s, m, s.runs[m]) && s.seqno <= t.seqno
    requires AuthMoved(s.grants.auth, t.grants.auth, n) && HostMoved(s.custody, t.custody, n)
    ensures RunOk(t, m, s.runs[m])
  {
    PrepIdsDistinct(m, n);
  }

  lemma CancelKept(s: State, t: State, n: nat, c: Cancel)
    requires Local(s) && CancelOk(s, c) && n in t.runs && t.runs == s.runs[n := t.runs[n]]
    requires G.Later(s.grants.auth, t.grants.auth)
    requires s.Registered(n) ==> t.Registered(n)
    requires s.Registered(n) && s.runs[n].record.state == P.Cancelled ==> t.runs[n].record.state == P.Cancelled
    ensures CancelOk(t, c)
  {
    assert RunOk(s, c.n, s.runs[c.n]);
  }

  /** A step of run n: the other runs keep their part; cancels keep theirs if n's record only moves
      forward and stays registered. */
  lemma Moved(s: State, t: State, n: nat)
    requires Local(s) && n in t.runs && t.runs == s.runs[n := t.runs[n]]
    requires forall k :: k in t.cancels ==>
               (k in s.cancels && t.cancels[k] == s.cancels[k]) || CancelOk(t, t.cancels[k])
    requires RunOk(t, n, t.runs[n]) && s.seqno <= t.seqno
    requires n in s.runs || (n == t.seqno == s.seqno + 1)
    requires n in s.runs ==> n <= s.seqno
    requires AuthMoved(s.grants.auth, t.grants.auth, n) && HostMoved(s.custody, t.custody, n)
    requires s.Registered(n) ==> t.Registered(n)
    requires s.Registered(n) && s.runs[n].record.state == P.Cancelled ==> t.runs[n].record.state == P.Cancelled
    ensures Local(t)
  {
    forall m | m in t.runs ensures RunOk(t, m, t.runs[m]) {
      if m != n { OtherRunOk(s, t, n, m); }
    }
    forall m | m > t.seqno ensures PrepId(m) !in t.grants.auth.byPreparation && C.Allocation(m) !in t.custody.threads {
      PrepIdsDistinct(m, n);
    }
    forall k | k in t.cancels ensures CancelOk(t, t.cancels[k]) {
      if k in s.cancels && t.cancels[k] == s.cancels[k] { CancelKept(s, t, n, t.cancels[k]); }
    }
  }

  lemma AuthSame(a: G.Authority, n: nat)
    requires a.Inv()
    ensures AuthMoved(a, a, n)
  {
  }

  predicate RecordStep(step: Step) {
    step.PrepareRegisters? || step.RunChecks? || step.RunRefuses? || step.RunMarksRunning?
    || step.RunMarks? || step.RunFails? || step.RunWaits? || step.RunRecords?
    || (step.RunAllocates? && step.cancelled) || step.RunFetches?
  }

  /** Steps that concern only the record and phase of one run leave the authority and the
      allocator alone. */
  lemma RecordShape(s: State, step: Step)
    requires Next(s, step).Some? && RecordStep(step)
    ensures var n, t := step.n, Next(s, step).value;
            n in s.runs && n in t.runs && t.grants.auth == s.grants.auth
            && t == s.With(n, t.runs[n]).(grants := t.grants)
            && t.runs[n].token == s.runs[n].token && t.runs[n].replay == s.runs[n].replay
  {
  }

  /** A step that marks the record keeps the run's record part. */
  lemma MarkRun(s: State, step: Step)
    requires Next(s, step).Some? && (step.RunMarksRunning? || step.RunMarks? || step.RunFails?)
    requires step.n in s.runs && RecordOk(s.runs[step.n])
    ensures var n, t := step.n, Next(s, step).value;
            n in t.runs && RecordOk(t.runs[n])
            && (s.runs[n].record.state == P.Cancelled ==> t.runs[n].record.state == P.Cancelled)
  {
  }

  /** So does one that moves the phase alone. */
  lemma PhaseRun(s: State, step: Step)
    requires Next(s, step).Some? && RecordStep(step) && !step.RunMarksRunning? && !step.RunMarks? && !step.RunFails?
    requires step.n in s.runs && RecordOk(s.runs[step.n])
    ensures var n, t := step.n, Next(s, step).value;
            n in t.runs && RecordOk(t.runs[n]) && t.runs[n].record == s.runs[n].record
  {
  }

  /** They keep the run's record part. */
  lemma RecordRun(s: State, step: Step)
    requires Next(s, step).Some? && RecordStep(step) && step.n in s.runs && RecordOk(s.runs[step.n])
    ensures var n, t := step.n, Next(s, step).value;
            n in t.runs && RecordOk(t.runs[n])
            && (s.runs[n].record.state == P.Cancelled ==> t.runs[n].record.state == P.Cancelled)
  {
    if step.RunMarksRunning? || step.RunMarks? || step.RunFails? { MarkRun(s, step); } else { PhaseRun(s, step); }
  }

  /** And the host part. */
  lemma RecordHost(s: State, step: Step)
    requires Next(s, step).Some? && RecordStep(step) && step.n in s.runs
    requires RecordOk(s.runs[step.n]) && HostOk(s.custody, step.n, s.runs[step.n])
    ensures var n, t := step.n, Next(s, step).value; n in t.runs && HostOk(s.custody, n, t.runs[n])
  {
  }

  /** And they ask of the grant no more than before. */
  lemma RecordGrant(s: State, step: Step)
    requires Next(s, step).Some? && RecordStep(step) && step.n in s.runs && RecordOk(s.runs[step.n])
    ensures var n, t := step.n, Next(s, step).value;
            n in t.runs
            && !t.runs[n].phase.Minting? && !t.runs[n].phase.Aborted? && !t.runs[n].phase.Minted?
            && !s.runs[n].phase.Minting? && !s.runs[n].phase.Aborted?
            && (PastVerify(t.runs[n]) ==> PastVerify(s.runs[n]))
            && (t.runs[n].phase.Ended? ==> t.runs[n].record.state == P.Ready)
  {
  }

  lemma RecordSteps(s: State, step: Step)
    requires Local(s) && s.grants.auth.Inv() && Next(s, step).Some? && RecordStep(step)
    ensures Local(Next(s, step).value)
  {
    AuthSame(s.grants.auth, step.n);
    RecordShape(s, step);
    assert RunOk(s, step.n, s.runs[step.n]);
    RecordRun(s, step);
    RecordHost(s, step);
    RecordGrant(s, step);
    Moved(s, Next(s, step).value, step.n);
  }

  lemma BeginStep(s: State, owner: string, replay: string)
    requires Local(s) && s.grants.auth.Inv()
    ensures Local(Next(s, PrepareBegins(owner, replay)).value)
  {
    var t, n := Next(s, PrepareBegins(owner, replay)).value, s.seqno + 1;
    AuthSame(s.grants.auth, n);
    Moved(s, t, n);
  }

  lemma MintMoves(g: G.Sys, n: nat, owner: string, replay: string, nonce: Option<string>, now: int, ttl: int)
    requires g.auth.Inv() && G.Next(g, G.Mint(PrepId(n), owner, replay, nonce, now, ttl)).Some?
    ensures var (b, r) := g.auth.Mint(PrepId(n), owner, replay, nonce, now, ttl);
            AuthMoved(g.auth, b, n)
            && (r.Ok? ==> b.Of(PrepId(n)) == Some(G.GrantRecord(PrepId(n), owner, replay, now + ttl, false, false))
                          && b.byPreparation[PrepId(n)] == r.value.token)
            && (r.Err? ==> b == g.auth)
  {
    G.AuthStep(g, G.Mint(PrepId(n), owner, replay, nonce, now, ttl));
    G.MintInv(g.auth, PrepId(n), owner, replay, nonce, now, ttl);
  }

  lemma MintRun(s: State, n: nat, nonce: Option<string>, now: int, ttl: int)
    requires Next(s, PrepareMints(n, nonce, now, ttl)).Some? && RunOk(s, n, s.runs[n]) && s.grants.auth.Inv()
    ensures var t := Next(s, PrepareMints(n, nonce, now, ttl)).value;
            n in t.runs && t == s.With(n, t.runs[n]).(grants := t.grants) && RunOk(t, n, t.runs[n])
            && !s.Registered(n) && AuthMoved(s.grants.auth, t.grants.auth, n)
  {
    MintMoves(s.grants, n, s.runs[n].owner, s.runs[n].replay, nonce, now, ttl);
  }

  lemma MintStep(s: State, n: nat, nonce: Option<string>, now: int, ttl: int)
    requires Local(s) && s.grants.auth.Inv() && Next(s, PrepareMints(n, nonce, now, ttl)).Some?
    ensures Local(Next(s, PrepareMints(n, nonce, now, ttl)).value)
  {
    assert RunOk(s, n, s.runs[n]);
    MintRun(s, n, nonce, now, ttl);
    Moved(s, Next(s, PrepareMints(n, nonce, now, ttl)).value, n);
  }

  lemma VerifyMoves(g: G.Sys, n: nat, req: G.ReplayRequest, now: int)
    requires g.auth.Inv() && req.preparationID == PrepId(n) && G.Next(g, G.Verify(n, req, now)).Some?
    ensures var (b, r) := g.auth.Verify(req, now);
            AuthMoved(g.auth, b, n) && b.byPreparation == g.auth.byPreparation
            && (r.Ok? ==> b.Of(PrepId(n)) == Some(g.auth.Of(PrepId(n)).value.(used := true)))
            && (r.Err? ==> b == g.auth)
  {
    G.AuthStep(g, G.Verify(n, req, now));
    G.VerifyInv(g.auth, req, now);
  }

  /** The run's part after its request was verified, or refused. */
  lemma VerifiedRun(g: G.Sys, n: nat, run: Run, now: int, code: string)
    requires run.phase.Entering? && RecordOk(run) && GrantOk(g.auth, n, run) && g.auth.Inv()
    requires G.Next(g, G.Verify(n, G.ReplayRequest(PrepId(n), run.replay, run.token), now)).Some?
    ensures var (b, r) := g.auth.Verify(G.ReplayRequest(PrepId(n), run.replay, run.token), now);
            var after := run.(phase := if r.Ok? then Verified else Refusing(code));
            RecordOk(after) && GrantOk(b, n, after) && AuthMoved(g.auth, b, n)
  {
    VerifyMoves(g, n, G.ReplayRequest(PrepId(n), run.replay, run.token), now);
  }

  lemma VerifyShape(s: State, n: nat, now: int, code: string)
    requires Next(s, RunVerifies(n, now, code)).Some?
    ensures s.Has(n, Entering) && G.Next(s.grants, G.Verify(n, RequestOf(s, n), now)).Some?
    ensures var t, (auth, r) := Next(s, RunVerifies(n, now, code)).value, s.grants.auth.Verify(RequestOf(s, n), now);
            && t == s.Goto(n, if r.Ok? then Verified else Refusing(code)).(grants := t.grants)
            && t.grants.auth == auth
  {
  }

  lemma VerifyStep(s: State, n: nat, now: int, code: string)
    requires Local(s) && s.grants.auth.Inv() && Next(s, RunVerifies(n, now, code)).Some?
    ensures Local(Next(s, RunVerifies(n, now, code)).value)
  {
    VerifyShape(s, n, now, code);
    assert RunOk(s, n, s.runs[n]);
    VerifiedRun(s.grants, n, s.runs[n], now, code);
    Moved(s, Next(s, RunVerifies(n, now, code)).value, n);
  }

  lemma RevokeMoves(a: G.Authority, n: nat)
    requires a.Inv()
    ensures AuthMoved(a, a.Revoke(PrepId(n)), n) && a.Revoke(PrepId(n)).byPreparation == a.byPreparation
    ensures PrepId(n) in a.byPreparation ==> a.Revoke(PrepId(n)).Spent(PrepId(n))
  {
    G.RevokeInv(a, PrepId(n));
    G.LaterAt(a, a.Revoke(PrepId(n)), PrepId(n));
  }

  /** A run that ends without being ready, its grant revoked, keeps its part. */
  lemma RevokedEnds(auth: G.Authority, n: nat, run: Run)
    requires run.phase.Revoking? && RecordOk(run) && GrantOk(auth, n, run) && auth.Inv()
    ensures RecordOk(run.(phase := Ended)) && GrantOk(auth.Revoke(PrepId(n)), n, run.(phase := Ended))
  {
    RevokeMoves(auth, n);
  }

  lemma RevokeRun(s: State, n: nat)
    requires Next(s, RunRevokes(n)).Some? && RunOk(s, n, s.runs[n]) && s.grants.auth.Inv()
    ensures var t := Next(s, RunRevokes(n)).value;
            n in t.runs && t == s.With(n, t.runs[n]).(grants := t.grants) && RunOk(t, n, t.runs[n])
            && t.Registered(n) && t.runs[n].record == s.runs[n].record && AuthMoved(s.grants.auth, t.grants.auth, n)
  {
    RevokeMoves(s.grants.auth, n);
    RevokedEnds(s.grants.auth, n, s.runs[n]);
  }

  lemma RevokeStep(s: State, n: nat)
    requires Local(s) && s.grants.auth.Inv() && Next(s, RunRevokes(n)).Some?
    ensures Local(Next(s, RunRevokes(n)).value)
  {
    assert RunOk(s, n, s.runs[n]);
    RevokeRun(s, n);
    Moved(s, Next(s, RunRevokes(n)).value, n);
  }

  lemma AllocateRun(s: State, n: nat)
    requires Next(s, RunAllocates(n, false)).Some? && RunOk(s, n, s.runs[n])
    ensures var t := Next(s, RunAllocates(n, false)).value;
            n in t.runs && t == s.With(n, t.runs[n]).(custody := t.custody) && RunOk(t, n, t.runs[n])
            && t.Registered(n) && t.runs[n].record == s.runs[n].record && HostMoved(s.custody, t.custody, n)
  {
  }

  lemma AllocateStep(s: State, n: nat)
    requires Local(s) && s.grants.auth.Inv() && Next(s, RunAllocates(n, false)).Some?
    ensures Local(Next(s, RunAllocates(n, false)).value)
  {
    assert RunOk(s, n, s.runs[n]);
    AllocateRun(s, n);
    AuthSame(s.grants.auth, n);
    Moved(s, Next(s, RunAllocates(n, false)).value, n);
  }

  /** Steps other than Begin start no Allocate call, and a returned process stays returned. */
  lemma AllocationStands(c: C.State, step: C.Step, a: C.Actor)
    requires !step.Begin? && C.Next(c, step).Some? && a.Allocation?
    ensures a in c.threads <==> a in C.Next(c, step).value.threads
    ensures a in c.threads && c.threads[a].Ready? ==> C.Next(c, step).value.threads[a] == c.threads[a]
  {
  }

  lemma AllocatorFrame(c: C.State, step: C.Step)
    requires !step.Begin? && C.Next(c, step).Some?
    ensures var d := C.Next(c, step).value;
            forall m: nat :: (C.Allocation(m) in c.threads <==> C.Allocation(m) in d.threads)
              && (C.Allocation(m) in c.threads && c.threads[C.Allocation(m)].Ready?
                  ==> d.threads[C.Allocation(m)] == c.threads[C.Allocation(m)])
  {
    var d := C.Next(c, step).value;
    forall m: nat
      ensures (C.Allocation(m) in c.threads <==> C.Allocation(m) in d.threads)
              && (C.Allocation(m) in c.threads && c.threads[C.Allocation(m)].Ready?
                  ==> d.threads[C.Allocation(m)] == c.threads[C.Allocation(m)])
    {
      AllocationStands(c, step, C.Allocation(m));
    }
  }

  lemma AllocatorStep(s: State, c: C.Step)
    requires Local(s) && s.grants.auth.Inv() && Next(s, AllocatorSteps(c)).Some?
    ensures Local(Next(s, AllocatorSteps(c)).value)
  {
    var t := Next(s, AllocatorSteps(c)).value;
    AllocatorFrame(s.custody, c);
    forall m | m in t.runs ensures RunOk(t, m, t.runs[m]) {
      assert RunOk(s, m, s.runs[m]);
    }
    forall k | k in t.cancels ensures CancelOk(t, t.cancels[k]) {
      assert CancelOk(s, s.cancels[k]);
    }
  }

  /** Cancelling keeps a run's record part wherever the run stands; it takes effect exactly on a
      live record. */
  lemma CancelledRun(run: Run)
    requires RecordOk(run) && !run.phase.Minting? && !run.phase.Aborted? && !run.phase.Minted?
    ensures var (record, r) := run.record.MarkCancelled();
            RecordOk(run.(record := record))
            && (r.Ok? ==> record.state == P.Cancelled && !run.phase.Ended?) && (r.Err? ==> record == run.record)
            && (PastVerify(run.(record := record)) ==> PastVerify(run))
  {
  }

  /** A cancel marks the record of a run that may be anywhere. */
  lemma CancelMarkRun(s: State, k: nat)
    requires Next(s, CancelMarks(k)).Some? && CancelOk(s, s.cancels[k])
    requires RunOk(s, s.cancels[k].n, s.runs[s.cancels[k].n])
    ensures var t, n := Next(s, CancelMarks(k)).value, s.cancels[k].n;
            n in t.runs && k in t.cancels
            && t == s.With(n, t.runs[n]).(cancels := s.cancels[k := t.cancels[k]])
            && RunOk(t, n, t.runs[n]) && CancelOk(t, t.cancels[k]) && t.Registered(n)
            && (s.runs[n].record.state == P.Cancelled ==> t.runs[n].record.state == P.Cancelled)
  {
    CancelledRun(s.runs[s.cancels[k].n]);
  }

  lemma CancelMarkStep(s: State, k: nat)
    requires Local(s) && s.grants.auth.Inv() && Next(s, CancelMarks(k)).Some?
    ensures Local(Next(s, CancelMarks(k)).value)
  {
    assert CancelOk(s, s.cancels[k]) && RunOk(s, s.cancels[k].n, s.runs[s.cancels[k].n]);
    CancelMarkRun(s, k);
    AuthSame(s.grants.auth, s.cancels[k].n);
    Moved(s, Next(s, CancelMarks(k)).value, s.cancels[k].n);
  }

  lemma CancelRevokeShape(s: State, k: nat)
    requires Next(s, CancelRevokes(k)).Some?
    ensures k in s.cancels && s.cancels[k].CancelRevoking?
    ensures var t, n := Next(s, CancelRevokes(k)).value, s.cancels[k].n;
            t == s.(cancels := s.cancels[k := CancelDone(n, true)], grants := t.grants)
            && t.grants.auth == s.grants.auth.Revoke(PrepId(n))
  {
  }

  /** Revoking keeps the part of a run whose grant is filed. */
  lemma RevokedRun(s: State, t: State, n: nat)
    requires n in s.runs && RunOk(s, n, s.runs[n]) && s.Registered(n) && s.grants.auth.Inv()
    requires t == s.(cancels := t.cancels, grants := t.grants) && t.grants.auth == s.grants.auth.Revoke(PrepId(n))
    ensures RunOk(t, n, s.runs[n]) && AuthMoved(s.grants.auth, t.grants.auth, n) && t.grants.auth.Spent(PrepId(n))
  {
    RevokeMoves(s.grants.auth, n);
  }

  lemma CancelRevokeStep(s: State, k: nat)
    requires Local(s) && s.grants.auth.Inv() && Next(s, CancelRevokes(k)).Some?
    ensures Local(Next(s, CancelRevokes(k)).value)
  {
    CancelRevokeShape(s, k);
    var t, n := Next(s, CancelRevokes(k)).value, s.cancels[k].n;
    assert CancelOk(s, s.cancels[k]) && RunOk(s, n, s.runs[n]);
    RevokedRun(s, t, n);
    Moved(s, t, n);
  }

  lemma CancelBeginStep(s: State, k: nat, n: nat, caller: string)
    requires Local(s) && Next(s, CancelBegins(k, n, caller)).Some?
    ensures Local(Next(s, CancelBegins(k, n, caller)).value)
  {
    var t := Next(s, CancelBegins(k, n, caller)).value;
    forall m | m in t.runs ensures RunOk(t, m, t.runs[m]) {
      assert RunOk(s, m, s.runs[m]);
    }
    forall j | j in t.cancels ensures CancelOk(t, t.cancels[j]) {
      if j != k { assert CancelOk(s, s.cancels[j]); }
    }
  }

  lemma LocalStep(s: State, step: Step)
    requires Local(s) && s.grants.auth.Inv() && Next(s, step).Some?
    ensures Local(Next(s, step).value)
  {
    match step
    case PrepareBegins(owner, replay) => BeginStep(s, owner, replay);
    case PrepareMints(n, nonce, now, ttl) => MintStep(s, n, nonce, now, ttl);
    case RunVerifies(n, now, code) => VerifyStep(s, n, now, code);
    case RunRevokes(n) => RevokeStep(s, n);
    case RunAllocates(n, cancelled) => if cancelled { RecordSteps(s, step); } else { AllocateStep(s, n); }
    case CancelBegins(k, n, caller) => CancelBeginStep(s, k, n, caller);
    case CancelMarks(k) => CancelMarkStep(s, k);
    case CancelRevokes(k) => CancelRevokeStep(s, k);
    case AllocatorSteps(c) => AllocatorStep(s, c);
    case _ => RecordSteps(s, step);
  }

  /** The authority's part of a step is one of its own steps. */
  lemma GrantStep(s: State, step: Step) returns (x: G.Step)
    requires Next(s, step).Some?
    ensures Next(s, step).value.grants == s.grants || G.Next(s.grants, x) == Some(Next(s, step).value.grants)
  {
    match step
    case PrepareMints(n, nonce, now, ttl) =>
      x := G.Mint(PrepId(n), s.runs[n].owner, s.runs[n].replay, nonce, now, ttl);
    case RunVerifies(n, now, code) => x := G.Verify(n, RequestOf(s, n), now);
    case RunFetches(n, ok) => x := G.Fetch(n);
    case RunRevokes(n) => x := G.Revoke(PrepId(n));
    case CancelRevokes(k) => x := G.Revoke(PrepId(s.cancels[k].n));
    case _ => x := G.Revoke("");
  }

  lemma GrantInv(s: G.Sys, t: G.Sys, x: G.Step)
    requires G.Inv(s) && (t == s || G.Next(s, x) == Some(t))
    ensures G.Inv(t)
  {
    if t != s { G.StepInv(s, x); }
  }

  /** The allocator's part of a step is one of its own steps. */
  lemma HostStep(s: State, step: Step) returns (x: C.Step)
    requires Next(s, step).Some?
    ensures Next(s, step).value.custody == s.custody || C.Next(s.custody, x) == Some(Next(s, step).value.custody)
  {
    x := if step.AllocatorSteps? then step.c else if step.RunAllocates? then C.Begin(step.n) else C.Begin(0);
  }

  lemma HostInv(s: C.State, t: C.State, x: C.Step)
    requires C.Inv(s) && (t == s || C.Next(s, x) == Some(t))
    ensures C.Inv(t)
  {
    if t != s { C.StepInv(s, x); }
  }

  lemma StepInv(s: State, step: Step, t: State)
    requires Inv(s) && Next(s, step) == Some(t)
    ensures Inv(t)
  {
    LocalStep(s, step);
    var x := GrantStep(s, step);
    GrantInv(s.grants, t.grants, x);
    var y := HostStep(s, step);
    HostInv(s.custody, t.custody, y);
  }

  lemma InitInv(s: State)
    requires Init(s)
    ensures Inv(s)
  {
    G.InitInv(s.grants);
    C.InitInv(s.custody);
  }

  ghost predicate IsRun(states: seq<State>, steps: seq<Step>) {
    |states| == |steps| + 1 && Init(states[0])
    && forall i :: 0 <= i < |steps| ==> Next(states[i], steps[i]) == Some(states[i + 1])
  }

  lemma RunInv(states: seq<State>, steps: seq<Step>)
    requires IsRun(states, steps)
    ensures forall i :: 0 <= i < |states| ==> Inv(states[i])
  {
    InitInv(states[0]);
    for i := 0 to |steps|
      invariant forall j :: 0 <= j <= i ==> Inv(states[j])
    {
      StepInv(states[i], steps[i], states[i + 1]);
    }
  }

  // ----- what holds of every preparation at every moment -----

  predicate PrepareReturned(phase: Phase) {
    phase.Returned? || phase.Revoking? || phase.Allocating? || phase.Launched? || phase.Ended?
  }

  /** Under any interleaving with cancellation: a revision exactly when ready, a failure exactly
      when failed; Provider.Prepare returned only with the preparation terminal, so the shutdown
      branch of runPreparer is never taken; a process or an allocation failure is recorded exactly
      when a ready preparation's run has ended, and never both. */
  lemma LifecycleExact(states: seq<State>, steps: seq<Step>, i: nat, n: nat)
    requires IsRun(states, steps) && i < |states| && n in states[i].runs
    ensures var run := states[i].runs[n];
            && (run.record.state == P.Ready <==> run.record.revision.Some?)
            && (run.record.state == P.Failed <==> run.record.failure.Some?)
            && (PrepareReturned(run.phase) ==> run.record.state.Terminal())
            && !run.phase.Abandoned?
            && (run.process.Some? || run.allocationFailed <==> run.phase.Ended? && run.record.state == P.Ready)
            && !(run.process.Some? && run.allocationFailed)
  {
    RunInv(states, steps);
    assert RunOk(states[i], n, states[i].runs[n]);
    RecordLifecycle(states[i].runs[n]);
  }

  lemma RecordLifecycle(run: Run)
    requires RecordOk(run)
    ensures PrepareReturned(run.phase) ==> run.record.state.Terminal()
    ensures !run.phase.Abandoned?
  {
  }

  /** A preparation is ready only with its grant used, and never for another replay. */
  lemma ReadyUsedItsGrant(states: seq<State>, steps: seq<Step>, i: nat, n: nat)
    requires IsRun(states, steps) && i < |states| && n in states[i].runs && states[i].runs[n].record.state == P.Ready
    ensures var g := states[i].grants.auth.Of(PrepId(n));
            g.Some? && g.value.used && !g.value.revoked && g.value.replayID == states[i].runs[n].replay
  {
    RunInv(states, steps);
    assert RunOk(states[i], n, states[i].runs[n]);
  }

  /** The run of preparation n has ended without making it ready, or cancel k of it succeeded. */
  predicate Denied(s: State, n: nat, k: nat) {
    n in s.runs
    && ((s.runs[n].phase.Ended? && s.runs[n].record.state != P.Ready)
        || (k in s.cancels && s.cancels[k] == CancelDone(n, true)))
  }

  lemma DeniedRefused(s: State, n: nat, k: nat, req: G.ReplayRequest, now: int)
    requires Inv(s) && Denied(s, n, k) && (req.preparationID == PrepId(n) || req.grant == s.runs[n].token)
    ensures s.runs[n].record.state != P.Ready && s.grants.auth.Verify(req, now).1.Err?
  {
    assert RunOk(s, n, s.runs[n]);
    if k in s.cancels && s.cancels[k] == CancelDone(n, true) { assert CancelOk(s, s.cancels[k]); }
    G.SpentRefused(s.grants.auth, PrepId(n), req, now);
  }

  /** What no step undoes about one preparation: its owner, a terminal record, a recorded
      process or allocation failure. */
  ghost predicate LaterRun(a: Run, b: Run) {
    b.owner == a.owner && b.replay == a.replay
    && (a.record.state.Terminal() ==> b.record == a.record)
    && (a.process.Some? ==> b.process == a.process)
    && (a.allocationFailed ==> b.allocationFailed && b.process == a.process)
    && (a.phase.Ended? ==> b.phase.Ended?)
    && (!a.phase.Minting? && !a.phase.Aborted? && !a.phase.Minted?
        ==> !b.phase.Minting? && !b.phase.Aborted? && !b.phase.Minted?)
  }

  /** The run a step acts on, if any. */
  function Acted(s: State, step: Step): Option<nat> {
    match step
    case PrepareBegins(_, _) => Some(s.seqno + 1)
    case PrepareMints(n, _, _, _) => Some(n)
    case PrepareRegisters(n) => Some(n)
    case RunChecks(n) => Some(n)
    case RunRefuses(n, _) => Some(n)
    case RunVerifies(n, _, _) => Some(n)
    case RunFetches(n, _) => Some(n)
    case RunMarksRunning(n) => Some(n)
    case RunMarks(n, _) => Some(n)
    case RunFails(n) => Some(n)
    case RunWaits(n) => Some(n)
    case RunRevokes(n) => Some(n)
    case RunAllocates(n, _) => Some(n)
    case RunRecords(n) => Some(n)
    case CancelBegins(_, _, _) => None
    case CancelMarks(k) => if k in s.cancels then Some(s.cancels[k].n) else None
    case CancelRevokes(_) => None
    case AllocatorSteps(_) => None
  }

  lemma ActedOnly(s: State, step: Step, t: State, n: nat)
    requires Next(s, step) == Some(t) && Acted(s, step) != Some(n)
    ensures n in t.runs <==> n in s.runs
    ensures n in t.runs ==> t.runs[n] == s.runs[n]
  {
  }

  lemma ActedLater(s: State, step: Step, t: State, n: nat)
    requires n in s.runs && n <= s.seqno && Next(s, step) == Some(t) && Acted(s, step) == Some(n)
    requires RecordOk(s.runs[n])
    ensures n in t.runs && LaterRun(s.runs[n], t.runs[n])
  {
  }

  lemma StepLater(s: State, step: Step, t: State, n: nat)
    requires Local(s) && n in s.runs && Next(s, step) == Some(t)
    ensures n in t.runs && LaterRun(s.runs[n], t.runs[n])
  {
    assert RunOk(s, n, s.runs[n]);
    if Acted(s, step) == Some(n) {
      ActedLater(s, step, t, n);
    } else {
      ActedOnly(s, step, t, n);
    }
  }

  lemma DeniedStep(s: State, step: Step, t: State, n: nat, k: nat)
    requires Local(s) && Next(s, step) == Some(t) && Denied(s, n, k)
    ensures Denied(t, n, k)
  {
    StepLater(s, step, t, n);
    assert RunOk(s, n, s.runs[n]);
    if k in s.cancels && s.cancels[k] == CancelDone(n, true) { CancelStays(s, step, t, k); }
  }

  lemma CancelStays(s: State, step: Step, t: State, k: nat)
    requires Next(s, step) == Some(t) && k in s.cancels && s.cancels[k].CancelDone?
    ensures k in t.cancels && t.cancels[k] == s.cancels[k]
  {
  }

  lemma DeniedNext(states: seq<State>, steps: seq<Step>, i: nat, n: nat, k: nat)
    requires IsRun(states, steps) && i < |steps| && Denied(states[i], n, k)
    ensures Denied(states[i + 1], n, k)
  {
    RunInv(states, steps);
    DeniedStep(states[i], steps[i], states[i + 1], n, k);
  }

  lemma DeniedForever(states: seq<State>, steps: seq<Step>, i: nat, j: nat, n: nat, k: nat)
    requires IsRun(states, steps) && i <= j < |states| && Denied(states[i], n, k)
    ensures Denied(states[j], n, k)
  {
    for m := i to j
      invariant Denied(states[m], n, k)
    {
      DeniedNext(states, steps, m, n, k);
    }
  }

  /** Once the run of a preparation that is not ready has ended, or a cancel of it has returned
      without error, it never becomes ready, and no request for it or with its token verifies then
      or at any later moment. */
  lemma NotReadyIsDenied(states: seq<State>, steps: seq<Step>, i: nat, j: nat, n: nat, k: nat,
                         req: G.ReplayRequest, now: int)
    requires IsRun(states, steps) && i <= j < |states| && Denied(states[i], n, k)
    requires n in states[j].runs && (req.preparationID == PrepId(n) || req.grant == states[j].runs[n].token)
    ensures states[j].runs[n].record.state != P.Ready && states[j].grants.auth.Verify(req, now).1.Err?
  {
    DeniedForever(states, steps, i, j, n, k);
    RunInv(states, steps);
    DeniedRefused(states[j], n, k, req, now);
  }

  lemma LaterNext(states: seq<State>, steps: seq<Step>, i: nat, n: nat)
    requires IsRun(states, steps) && i < |steps| && n in states[i].runs
    ensures n in states[i + 1].runs && LaterRun(states[i].runs[n], states[i + 1].runs[n])
  {
    RunInv(states, steps);
    StepLater(states[i], steps[i], states[i + 1], n);
  }

  lemma LaterThrough(a: Run, b: Run, c: Run)
    requires LaterRun(a, b) && LaterRun(b, c)
    ensures LaterRun(a, c)
  {
  }

  /** Along every run a terminal record, a recorded process or allocation failure and an owner are
      never changed. */
  lemma TerminalForever(states: seq<State>, steps: seq<Step>, i: nat, j: nat, n: nat)
    requires IsRun(states, steps) && i <= j < |states| && n in states[i].runs
    ensures n in states[j].runs && LaterRun(states[i].runs[n], states[j].runs[n])
  {
    for m := i to j
      invariant n in states[m].runs && LaterRun(states[i].runs[n], states[m].runs[n])
    {
      LaterNext(states, steps, m, n);
      LaterThrough(states[i].runs[n], states[m].runs[n], states[m + 1].runs[n]);
    }
  }

  /** One of the first i steps is a cancel call of the owner. */
  ghost predicate BegunBy(steps: seq<Step>, i: nat, n: nat, owner: string)
    requires i <= |steps|
  {
    exists j, k :: 0 <= j < i && steps[j] == CancelBegins(k, n, owner)
  }

  ghost predicate OwnersBegan(s: State, steps: seq<Step>, i: nat)
    requires i <= |steps|
  {
    && (forall n :: n in s.runs && s.runs[n].record.state == P.Cancelled ==> BegunBy(steps, i, n, s.runs[n].owner))
    && (forall k :: k in s.cancels && s.cancels[k].CancelMarking? && s.cancels[k].n in s.runs
          ==> BegunBy(steps, i, s.cancels[k].n, s.runs[s.cancels[k].n].owner))
  }

  /** A record becomes cancelled only by a call marking it, and such a call only begins as its
      owner's. */
  lemma CancelsMove(s: State, step: Step, t: State, n: nat)
    requires n in t.runs && Next(s, step) == Some(t)
    requires n !in s.runs || s.runs[n].record.state != P.Cancelled
    ensures t.runs[n].record.state == P.Cancelled ==>
              step.CancelMarks? && step.k in s.cancels && s.cancels[step.k] == CancelMarking(n) && n in s.runs
  {
    if Acted(s, step) != Some(n) {
      ActedOnly(s, step, t, n);
    } else if !step.CancelMarks? {
      UncancelledStands(s, step, t, n);
    }
  }

  lemma UncancelledStands(s: State, step: Step, t: State, n: nat)
    requires n in t.runs && Next(s, step) == Some(t) && Acted(s, step) == Some(n) && !step.CancelMarks?
    requires n !in s.runs || s.runs[n].record.state != P.Cancelled
    ensures t.runs[n].record.state != P.Cancelled
  {
  }

  lemma MarkingMoves(s: State, step: Step, t: State, k: nat)
    requires Next(s, step) == Some(t) && k in t.cancels && t.cancels[k].CancelMarking?
    ensures (k in s.cancels && s.cancels[k] == t.cancels[k])
            || (t.cancels[k].n in s.runs && step == CancelBegins(k, t.cancels[k].n, s.runs[t.cancels[k].n].owner))
  {
  }

  lemma BegunLater(steps: seq<Step>, i: nat, n: nat, owner: string)
    requires i < |steps| && BegunBy(steps, i, n, owner)
    ensures BegunBy(steps, i + 1, n, owner)
  {
    var j, k :| 0 <= j < i && steps[j] == CancelBegins(k, n, owner);
  }

  lemma OwnersBeganStep(states: seq<State>, steps: seq<Step>, i: nat)
    requires IsRun(states, steps) && i < |steps| && OwnersBegan(states[i], steps, i)
    requires forall n :: n in states[i].runs ==>
               n in states[i + 1].runs && LaterRun(states[i].runs[n], states[i + 1].runs[n])
    requires forall k :: k in states[i].cancels ==> states[i].cancels[k].n in states[i].runs
    ensures OwnersBegan(states[i + 1], steps, i + 1)
  {
    var s, t := states[i], states[i + 1];
    forall n | n in t.runs && t.runs[n].record.state == P.Cancelled ensures BegunBy(steps, i + 1, n, t.runs[n].owner) {
      if n !in s.runs || s.runs[n].record.state != P.Cancelled { CancelsMove(s, steps[i], t, n); }
      BegunLater(steps, i, n, s.runs[n].owner);
    }
    forall k | k in t.cancels && t.cancels[k].CancelMarking? && t.cancels[k].n in t.runs
      ensures BegunBy(steps, i + 1, t.cancels[k].n, t.runs[t.cancels[k].n].owner)
    {
      MarkingMoves(s, steps[i], t, k);
      if k in s.cancels && s.cancels[k] == t.cancels[k] {
        BegunLater(steps, i, t.cancels[k].n, s.runs[t.cancels[k].n].owner);
      }
    }
  }

  lemma CancelsKnown(s: State)
    requires Local(s)
    ensures forall k :: k in s.cancels ==> s.cancels[k].n in s.runs
  {
    forall k | k in s.cancels ensures s.cancels[k].n in s.runs { assert CancelOk(s, s.cancels[k]); }
  }

  lemma OwnersBeganNext(states: seq<State>, steps: seq<Step>, i: nat)
    requires IsRun(states, steps) && i < |steps| && forall j :: 0 <= j <= i ==> OwnersBegan(states[j], steps, j)
    ensures OwnersBegan(states[i + 1], steps, i + 1)
  {
    RunInv(states, steps);
    CancelsKnown(states[i]);
    forall n | n in states[i].runs
      ensures n in states[i + 1].runs && LaterRun(states[i].runs[n], states[i + 1].runs[n])
    {
      LaterNext(states, steps, i, n);
    }
    OwnersBeganStep(states, steps, i);
  }

  /** Over every run only its owner's cancel call ever cancels a preparation. */
  lemma CancelledByOwner(states: seq<State>, steps: seq<Step>, i: nat, n: nat) returns (j: nat, k: nat)
    requires IsRun(states, steps) && i < |states|
    requires n in states[i].runs && states[i].runs[n].record.state == P.Cancelled
    ensures j < i && steps[j] == CancelBegins(k, n, states[i].runs[n].owner)
  {
    for m := 0 to |steps|
      invariant forall q :: 0 <= q <= m ==> OwnersBegan(states[q], steps, q)
    {
      OwnersBeganNext(states, steps, m);
    }
    assert OwnersBegan(states[i], steps, i);
    j, k :| 0 <= j < i && steps[j] == CancelBegins(k, n, states[i].runs[n].owner);
  }

  // ----- the request of a ready preparation reached the inner store -----

  /** A verified request is the run's own and waits for the inner store; later it has reached it. */
  ghost predicate StoreOk(s: State, n: nat)
    requires n in s.runs
  {
    && (s.runs[n].phase.Verified? ==> n in s.grants.pending && s.grants.pending[n] == RequestOf(s, n))
    && (PastFetch(s.runs[n]) ==> RequestOf(s, n) in s.grants.fetched)
  }

  ghost predicate StoresOk(s: State) { forall n :: n in s.runs ==> StoreOk(s, n) }

  /** A step on another run leaves a pending request waiting, and no fetched request is lost. */
  lemma StoreFrame(s: State, step: Step, t: State, n: nat)
    requires Next(s, step) == Some(t) && Acted(s, step) != Some(n)
    ensures n in s.grants.pending ==> n in t.grants.pending && t.grants.pending[n] == s.grants.pending[n]
    ensures s.grants.fetched <= t.grants.fetched
  {
  }

  /** The steps of a run that concern the store or start it. */
  predicate StoreStep(step: Step) {
    step.PrepareBegins? || step.PrepareMints? || step.RunVerifies? || step.RunFetches?
  }

  /** Any other step of the run leaves the store alone and asks no more of it than before. */
  lemma StoreStands(s: State, step: Step, t: State, n: nat)
    requires Next(s, step) == Some(t) && Acted(s, step) == Some(n) && n in s.runs && !StoreStep(step)
    ensures n in t.runs && RequestOf(t, n) == RequestOf(s, n)
    ensures t.grants.pending == s.grants.pending && t.grants.fetched == s.grants.fetched
    ensures t.runs[n].phase.Verified? ==> s.runs[n].phase.Verified?
    ensures PastFetch(t.runs[n]) ==> PastFetch(s.runs[n])
  {
  }

  lemma StoreMoves(s: State, step: Step, t: State, n: nat)
    requires Next(s, step) == Some(t) && Acted(s, step) == Some(n) && n in t.runs && StoreStep(step)
    requires n in s.runs ==> StoreOk(s, n) && RecordOk(s.runs[n]) && n <= s.seqno
    ensures StoreOk(t, n)
  {
  }

  lemma StoreRuns(s: State, step: Step, t: State, n: nat)
    requires Next(s, step) == Some(t) && Acted(s, step) == Some(n) && n in t.runs
    requires n in s.runs ==> StoreOk(s, n) && RecordOk(s.runs[n]) && n <= s.seqno
    ensures StoreOk(t, n)
  {
    if StoreStep(step) { StoreMoves(s, step, t, n); } else { StoreStands(s, step, t, n); }
  }

  lemma StoresStep(s: State, step: Step, t: State)
    requires Local(s) && StoresOk(s) && Next(s, step) == Some(t)
    ensures StoresOk(t)
  {
    forall n | n in t.runs ensures StoreOk(t, n) {
      if n in s.runs { assert RunOk(s, n, s.runs[n]) && StoreOk(s, n); }
      if Acted(s, step) == Some(n) {
        StoreRuns(s, step, t, n);
      } else {
        ActedOnly(s, step, t, n);
        StoreFrame(s, step, t, n);
      }
    }
  }

  lemma StoreNext(states: seq<State>, steps: seq<Step>, i: nat)
    requires IsRun(states, steps) && i < |steps| && StoresOk(states[i])
    ensures StoresOk(states[i + 1])
  {
    RunInv(states, steps);
    StoresStep(states[i], steps[i], states[i + 1]);
  }

  lemma StoreRun(states: seq<State>, steps: seq<Step>, i: nat)
    requires IsRun(states, steps) && i < |states|
    ensures StoresOk(states[i])
  {
    for j := 0 to i
      invariant StoresOk(states[j])
    {
      StoreNext(states, steps, j);
    }
  }

  /** Over every run, once a preparation's bytes are in hand, so for every running or ready one, the
      inner store was asked for its own replay with its own grant, and for no other request of that
      preparation. */
  lemma ReadyFetchedOnce(states: seq<State>, steps: seq<Step>, i: nat, n: nat) returns (k: nat)
    requires IsRun(states, steps) && i < |states| && n in states[i].runs && PastFetch(states[i].runs[n])
    ensures var f := states[i].grants.fetched;
            k < |f| && f[k] == RequestOf(states[i], n)
            && (forall j :: 0 <= j < |f| && f[j].preparationID == PrepId(n) ==> j == k)
  {
    StoreRun(states, steps, i);
    assert StoreOk(states[i], n);
    RunInv(states, steps);
    k :| 0 <= k < |states[i].grants.fetched| && states[i].grants.fetched[k] == RequestOf(states[i], n);
  }

  // ----- an error of PrepareScenario is not always a failed preparation -----

  /** A section of PrepareScenario for preparation n. */
  predicate Prepares(step: Step, n: nat) {
    step == RunMarksRunning(n) || (step.RunMarks? && step.n == n)
  }

  /** It returns an error: the provider marks the preparation failed next, if it still can. */
  predicate PrepareErrs(step: Step, t: State, n: nat) {
    Prepares(step, n) && n in t.runs && t.runs[n].phase.Refusing?
  }

  lemma PrepareSection(s: State, step: Step, t: State, n: nat)
    requires Next(s, step) == Some(t) && Prepares(step, n) && (n in s.runs ==> RecordOk(s.runs[n]))
    ensures n in s.runs && n in t.runs
    ensures var before, after := s.runs[n].record.state, t.runs[n].record.state;
            && (PrepareErrs(step, t, n) <==> before == P.Cancelled || (step.RunMarks? && step.revision.None?))
            && (PrepareErrs(step, t, n) ==>
                  (after == P.Failed || after == P.Cancelled)
                  && (after == P.Failed <==> before == P.Running) && (after == P.Cancelled <==> before == P.Cancelled))
  {
  }

  lemma SoundRecord(s: State, n: nat)
    requires Local(s)
    ensures n in s.runs ==> RecordOk(s.runs[n])
  {
    assert n in s.runs ==> RunOk(s, n, s.runs[n]);
  }

  /** Over every run PrepareScenario returns an error exactly when a cancel had already marked the
      preparation or the compiler refuses; the preparation is then failed exactly when it was still
      running just before, and otherwise it is the cancelled one it was. */
  lemma PrepareErrorExact(states: seq<State>, steps: seq<Step>, i: nat, n: nat)
    requires IsRun(states, steps) && i < |steps| && Prepares(steps[i], n)
    ensures n in states[i].runs && n in states[i + 1].runs
    ensures var before, after := states[i].runs[n].record.state, states[i + 1].runs[n].record.state;
            var errs := PrepareErrs(steps[i], states[i + 1], n);
            && (errs <==> before == P.Cancelled || (steps[i].RunMarks? && steps[i].revision.None?))
            && (errs ==> (after == P.Failed || after == P.Cancelled)
                         && (after == P.Failed <==> before == P.Running)
                         && (after == P.Cancelled <==> before == P.Cancelled))
  {
    RunInv(states, steps);
    SoundRecord(states[i], n);
    PrepareSection(states[i], steps[i], states[i + 1], n);
  }

  /** So an error without a failed preparation means that its owner had begun to cancel it. */
  lemma PrepareErrorUnfailed(states: seq<State>, steps: seq<Step>, i: nat, n: nat) returns (j: nat, k: nat)
    requires IsRun(states, steps) && i < |steps| && PrepareErrs(steps[i], states[i + 1], n)
    requires states[i + 1].runs[n].record.state != P.Failed
    ensures n in states[i].runs && j < i && steps[j] == CancelBegins(k, n, states[i].runs[n].owner)
  {
    PrepareErrorExact(states, steps, i, n);
    j, k := CancelledByOwner(states, steps, i, n);
  }

  /** The Allocate call for preparation n handed out its process, of generation g, as ready. */
  predicate ProcessReady(s: State, n: nat, g: nat) {
    var a := C.Allocation(n);
    a in s.custody.threads && s.custody.threads[a].Ready? && s.custody.threads[a].handle.spec.generation == g
  }

  lemma RecordedIsReady(s: State, n: nat)
    requires Local(s) && n in s.runs && s.runs[n].process.Some?
    ensures ProcessReady(s, n, s.runs[n].process.value)
  {
    assert RunOk(s, n, s.runs[n]);
  }

  /** Over every run no two preparations record the same process generation. */
  lemma NoSharedProcess(states: seq<State>, steps: seq<Step>, i: nat, m: nat, n: nat)
    requires IsRun(states, steps) && i < |states| && m in states[i].runs && n in states[i].runs && m != n
    requires states[i].runs[m].process.Some?
    ensures states[i].runs[m].process != states[i].runs[n].process
  {
    RunInv(states, steps);
    if states[i].runs[n].process.Some? { ProcessesDistinct(states[i], m, n); }
  }

  lemma ProcessesDistinct(s: State, m: nat, n: nat)
    requires Inv(s) && m in s.runs && n in s.runs && m != n
    requires s.runs[m].process.Some? && s.runs[n].process.Some?
    ensures s.runs[m].process != s.runs[n].process
  {
    assert RunOk(s, m, s.runs[m]) && RunOk(s, n, s.runs[n]);
    var a, b := C.Allocation(m), C.Allocation(n);
    assert C.ActorOk(s.custody, a, s.custody.threads[a]) && C.ActorOk(s.custody, b, s.custody.threads[b]);
  }
}
