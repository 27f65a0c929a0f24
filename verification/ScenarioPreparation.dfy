/** The preparation lifecycle record and the provider's run over it. */
module ScenarioPreparations {
  import opened Prelude
  import G = ReplayGrants

  datatype PreparationState = Queued | Running | Ready | Failed | Cancelled {
    predicate Terminal() { Ready? || Failed? || Cancelled? }
  }

  datatype TransitionError = AlreadyTerminal | IllegalTransition | ArgumentRequired

  /** revision is the immutable revision's ID, failure the typed reason code. */
  datatype Preparation = Preparation(state: PreparationState, revision: Option<string>, failure: Option<string>) {

    predicate Allows(next: PreparationState) {
      match next
      case Running => state == Queued
      case Ready => state == Running
      case Failed => true
      case Cancelled => true
      case Queued => false
    }

    function Transition(next: PreparationState, newRevision: Option<string>, newFailure: Option<string>)
      : (Preparation, Result<(), TransitionError>)
    {
      if state.Terminal() then (this, Err(AlreadyTerminal))
      else if !Allows(next) then (this, Err(IllegalTransition))
      else (Preparation(next, newRevision, newFailure), Ok(()))
    }

    function MarkRunning(): (Preparation, Result<(), TransitionError>) { Transition(Running, None, None) }

    function MarkReady(rev: Option<string>): (Preparation, Result<(), TransitionError>) {
      if rev.None? then (this, Err(ArgumentRequired)) else Transition(Ready, rev, None)
    }

    function MarkFailed(reason: Option<string>): (Preparation, Result<(), TransitionError>) {
      if reason.None? then (this, Err(ArgumentRequired)) else Transition(Failed, None, reason)
    }

    function MarkCancelled(): (Preparation, Result<(), TransitionError>) { Transition(Cancelled, None, None) }

    /** A revision exactly when ready, a failure reason exactly when failed. */
    predicate Sound() {
      (state == Ready <==> revision.Some?) && (state == Failed <==> failure.Some?)
    }
  }

  const QUEUED := Preparation(Queued, None, None)

  /** The Mark operations, as one alphabet. */
  datatype Mark = ToRunning | ToReady(rev: Option<string>) | ToFailed(reason: Option<string>) | ToCancelled

  function Apply(p: Preparation, m: Mark): (Preparation, Result<(), TransitionError>) {
    match m
    case ToRunning => p.MarkRunning()
    case ToReady(rev) => p.MarkReady(rev)
    case ToFailed(reason) => p.MarkFailed(reason)
    case ToCancelled => p.MarkCancelled()
  }

  /** Marks keep the record sound and never move a terminal one; failing and cancelling a live
      preparation always succeed, and a refused mark changes nothing. */
  lemma ApplySound(p: Preparation, m: Mark)
    requires p.Sound()
    ensures Apply(p, m).0.Sound()
    ensures p.state.Terminal() ==> Apply(p, m).0 == p && Apply(p, m).1.Err?
    ensures Apply(p, m).1.Err? ==> Apply(p, m).0 == p
    ensures !p.state.Terminal() && (m == ToCancelled || (m.ToFailed? && m.reason.Some?)) ==>
              Apply(p, m).1.Ok? && Apply(p, m).0.state.Terminal()
  {
  }

  /** Which marks succeed and what they leave, and the cause of each refusal. */
  lemma ApplyExact(p: Preparation, m: Mark)
    ensures var (q, r) := Apply(p, m);
            var lacking := m == ToReady(None) || m == ToFailed(None);
            && (r == Err(ArgumentRequired) <==> lacking)
            && (r == Err(AlreadyTerminal) <==>
                  !lacking && (p.state == Ready || p.state == Failed || p.state == Cancelled))
            && (m == ToRunning ==> (r.Ok? <==> p.state == Queued))
            && (m == ToRunning && r.Ok? ==> q == Preparation(Running, None, None))
            && (m.ToReady? && m.rev.Some? ==> (r.Ok? <==> p.state == Running))
            && (m.ToReady? && r.Ok? ==> q == Preparation(Ready, m.rev, None))
            && (m.ToFailed? && m.reason.Some? ==> (r.Ok? <==> p.state == Queued || p.state == Running))
            && (m.ToFailed? && r.Ok? ==> q == Preparation(Failed, None, m.reason))
            && (m == ToCancelled ==> (r.Ok? <==> p.state == Queued || p.state == Running))
            && (m == ToCancelled && r.Ok? ==> q == Preparation(Cancelled, None, None))
            && (r.Err? ==> q == p)
  {
  }

  function ApplyAll(p: Preparation, marks: seq<Mark>): Preparation {
    if marks == [] then p else Apply(ApplyAll(p, marks[..|marks| - 1]), marks[|marks| - 1]).0
  }

  /** Whatever marks are attempted, in any order, the record stays sound; and it never leaves the
      first terminal state it reaches. */
  lemma {:induction false} MarksSound(marks: seq<Mark>, k: nat)
    requires k <= |marks|
    ensures ApplyAll(QUEUED, marks).Sound()
    ensures ApplyAll(QUEUED, marks[..k]).state.Terminal() ==> ApplyAll(QUEUED, marks) == ApplyAll(QUEUED, marks[..k])
  {
    if k == |marks| {
      assert marks[..k] == marks;
      if marks != [] {
        MarksSound(marks[..|marks| - 1], 0);
        ApplySound(ApplyAll(QUEUED, marks[..|marks| - 1]), marks[|marks| - 1]);
      }
    } else {
      MarksSound(marks[..|marks| - 1], k);
      assert marks[..|marks| - 1][..k] == marks[..k];
      ApplySound(ApplyAll(QUEUED, marks[..|marks| - 1]), marks[|marks| - 1]);
    }
  }

  class ScenarioPreparation {
    const id: string
    const replayID: string
    const takeoverTick: nat
    const grant: Option<string>   // the private grant token
    var state: PreparationState
    var revision: Option<string>
    var failure: Option<string>

    ghost function View(): Preparation
      reads this
    {
      Preparation(state, revision, failure)
    }

    /** The request the preparation carries for its replay. */
    function Request(): G.ReplayRequest
      requires grant.Some?
    {
      G.ReplayRequest(id, replayID, grant.value)
    }

    constructor (id: string, replayID: string, takeoverTick: nat, grant: Option<string>)
      ensures View() == QUEUED && this.id == id && this.replayID == replayID
      ensures this.takeoverTick == takeoverTick && this.grant == grant
    {
      this.id, this.replayID, this.takeoverTick, this.grant := id, replayID, takeoverTick, grant;
      state, revision, failure := Queued, None, None;
    }

    method Transition(next: PreparationState, newRevision: Option<string>, newFailure: Option<string>)
      returns (r: Result<(), TransitionError>)
      modifies this
      ensures (View(), r) == old(View()).Transition(next, newRevision, newFailure)
    {
      if state.Terminal() { return Err(AlreadyTerminal); }
      match next {
        case Running => if state != Queued { return Err(IllegalTransition); }
        case Ready => if state != Running { return Err(IllegalTransition); }
        case Failed =>
        case Cancelled =>
        case Queued => return Err(IllegalTransition);
      }
      state := next;
      revision := newRevision;
      failure := newFailure;
      return Ok(());
    }

    method MarkRunning() returns (r: Result<(), TransitionError>)
      modifies this
      ensures (View(), r) == old(View()).MarkRunning()
    {
      r := Transition(Running, None, None);
    }

    method MarkReady(rev: Option<string>) returns (r: Result<(), TransitionError>)
      modifies this
      ensures (View(), r) == old(View()).MarkReady(rev)
    {
      if rev.None? { return Err(ArgumentRequired); }
      r := Transition(Ready, rev, None);
    }

    method MarkFailed(reason: Option<string>) returns (r: Result<(), TransitionError>)
      modifies this
      ensures (View(), r) == old(View()).MarkFailed(reason)
    {
      if reason.None? { return Err(ArgumentRequired); }
      r := Transition(Failed, None, reason);
    }

    method MarkCancelled() returns (r: Result<(), TransitionError>)
      modifies this
      ensures (View(), r) == old(View()).MarkCancelled()
    {
      r := Transition(Cancelled, None, None);
    }
  }

  /** Why the fetched bytes are unusable; the extraction itself is outside the model. */
  datatype Unusable = ReplayInvalid | TickIntervalNotProven | ExtractionFailed

  datatype PrepareError =
    | PreparationTerminal | TakeoverTickRequired | ContextEnded | GrantRequired
    | GrantRefused(e: G.GrantError) | StoreDenied | BytesUnusable(why: Unusable)
    | CompileRefused | MarkRefused

  /** What the bytes of a replay lead to: nothing usable, a compilation refusal, or a revision. */
  datatype Outcome = NotExtracted(why: Unusable) | NotCompiled | Compiled(revision: string)

  const COMPILE_REFUSED := "compile_refused"

  function GrantRefusalCode(e: G.GrantError): string {
    match e
    case GrantExpired => "grant_expired"
    case GrantRevoked => "grant_revoked"
    case GrantAlreadyUsed => "grant_already_used"
    case GrantMismatch => "grant_mismatch"
    case _ => "grant_unknown"
  }

  function FailureCode(e: PrepareError): string {
    match e
    case StoreDenied => "store_denied"
    case BytesUnusable(ReplayInvalid) => "replay_invalid"
    case BytesUnusable(TickIntervalNotProven) => "tick_interval_not_proven"
    case TakeoverTickRequired => "takeover_tick_required"
    case BytesUnusable(ExtractionFailed) => "extraction_failed"
    case PreparationTerminal => "preparation_terminal"
    case GrantRequired => "grant_required"
    case GrantRefused(g) => GrantRefusalCode(g)
    case _ => "provider_failed"
  }

  /** The stable reason code of each kind of failure. */
  lemma FailureCodes(e: PrepareError)
    ensures FailureCode(e) == "store_denied" <==> e == StoreDenied
    ensures FailureCode(e) == "replay_invalid" <==> e == BytesUnusable(ReplayInvalid)
    ensures FailureCode(e) == "tick_interval_not_proven" <==> e == BytesUnusable(TickIntervalNotProven)
    ensures FailureCode(e) == "extraction_failed" <==> e == BytesUnusable(ExtractionFailed)
    ensures FailureCode(e) == "takeover_tick_required" <==> e == TakeoverTickRequired
    ensures FailureCode(e) == "preparation_terminal" <==> e == PreparationTerminal
    ensures FailureCode(e) == "grant_required" <==> e == GrantRequired
    ensures FailureCode(e) == "grant_expired" <==> e == GrantRefused(G.GrantExpired)
    ensures FailureCode(e) == "grant_revoked" <==> e == GrantRefused(G.GrantRevoked)
    ensures FailureCode(e) == "grant_already_used" <==> e == GrantRefused(G.GrantAlreadyUsed)
    ensures FailureCode(e) == "grant_mismatch" <==> e == GrantRefused(G.GrantMismatch)
    ensures FailureCode(e) == "provider_failed" <==> e.ContextEnded? || e.CompileRefused? || e.MarkRefused?
  {
  }

  /** A queued preparation becomes ready with the revision, or failed with the refusal; any other is
      refused unchanged. */
  predicate Compiles(before: Preparation, after: Preparation, outcome: Outcome, r: Result<(), PrepareError>)
    requires !outcome.NotExtracted?
  {
    if before.state != Queued then r == Err(MarkRefused) && after == before
    else if outcome.Compiled? then r == Ok(()) && after == Preparation(Ready, Some(outcome.revision), None)
    else r == Err(CompileRefused) && after == Preparation(Failed, None, Some(COMPILE_REFUSED))
  }

  /** The request was authorized: its grant is spent on it, and the inner store saw it, once. */
  predicate Spends(before: (G.Authority, seq<G.ReplayRequest>), after: (G.Authority, seq<G.ReplayRequest>),
                   req: G.ReplayRequest, now: int)
  {
    before.0.Verify(req, now).1.Ok? && after == (before.0.Verify(req, now).0, before.1 + [req])
  }

  class Provider {
    const store: G.VerifyingStore

    constructor (store: G.VerifyingStore)
      ensures this.store == store
    {
      this.store := store;
    }

    /** core.PrepareScenario, run alone. */
    method PrepareScenario(prep: ScenarioPreparation, outcome: Outcome) returns (r: Result<(), PrepareError>)
      requires !outcome.NotExtracted?
      modifies prep
      ensures Compiles(old(prep.View()), prep.View(), outcome, r)
    {
      var running := prep.MarkRunning();
      if running.Err? { return Err(MarkRefused); }
      if outcome.NotCompiled? {
        var failed := prep.MarkFailed(Some(COMPILE_REFUSED));
        return Err(if failed.Err? then MarkRefused else CompileRefused);
      }
      var ready := prep.MarkReady(Some(outcome.revision));
      return if ready.Err? then Err(MarkRefused) else Ok(());
    }

    /** What the fetch saw: the grants and the requests that reached the inner store. */
    ghost function Fetches(): (G.Authority, seq<G.ReplayRequest>)
      reads store.grants, store.inner
    {
      (store.grants.View(), store.inner.reached)
    }

    /** The checks in order, each with its error; then the verified fetch, and what becomes of the
        bytes. The inner store may still deny them, and only the compiler's answer moves the record. */
    method DoPrepare(prep: ScenarioPreparation, contextEnded: bool, outcome: Outcome, now: int)
      returns (r: Result<(), PrepareError>)
      modifies prep, store.grants, store.inner
      ensures prep.takeoverTick == 0 ==> r == Err(TakeoverTickRequired)
      ensures prep.takeoverTick != 0 && contextEnded ==> r == Err(ContextEnded)
      ensures prep.takeoverTick != 0 && !contextEnded && prep.grant.None? ==> r == Err(GrantRequired)
      ensures prep.takeoverTick == 0 || contextEnded || prep.grant.None? ==>
                Fetches() == old(Fetches()) && prep.View() == old(prep.View())
      ensures prep.takeoverTick != 0 && !contextEnded && prep.grant.Some? ==>
                var req := prep.Request();
                var verified := old(store.grants.View()).Verify(req, now).1;
                if verified.Err?
                then
                  r == Err(GrantRefused(verified.error)) && Fetches() == old(Fetches())
                  && prep.View() == old(prep.View())
                else
                  && Spends(old(Fetches()), Fetches(), req, now)
                  && (r == Err(StoreDenied) <==> store.inner.last.None?)
                  && (r == Err(StoreDenied) ==> prep.View() == old(prep.View()))
                  && (r != Err(StoreDenied) && outcome.NotExtracted? ==>
                        r == Err(BytesUnusable(outcome.why)) && prep.View() == old(prep.View()))
                  && (r != Err(StoreDenied) && !outcome.NotExtracted? ==>
                        Compiles(old(prep.View()), prep.View(), outcome, r))
    {
      if prep.takeoverTick == 0 { return Err(TakeoverTickRequired); }
      if contextEnded { return Err(ContextEnded); }
      if prep.grant.None? { return Err(GrantRequired); }
      var bytes := store.Replay(prep.Request(), now);
      if bytes.Err? { return Err(GrantRefused(bytes.error)); }
      if bytes.value.None? { return Err(StoreDenied); }
      if outcome.NotExtracted? { return Err(BytesUnusable(outcome.why)); }
      r := PrepareScenario(prep, outcome);
    }

    /** Prepare, run alone on a sound record: it always ends terminal and sound. It succeeds only by
        making the preparation ready, with its grant spent on the one fetch; a preparation already
        terminal is refused without consulting the store. */
    method Prepare(prep: ScenarioPreparation, contextEnded: bool, outcome: Outcome, now: int)
      returns (r: Result<(), PrepareError>)
      requires prep.View().Sound()
      modifies prep, store.grants, store.inner
      ensures prep.View().state.Terminal() && prep.View().Sound()
      ensures old(prep.View()).state.Terminal() ==>
                r == Err(PreparationTerminal) && prep.View() == old(prep.View()) && Fetches() == old(Fetches())
      ensures !old(prep.View()).state.Terminal() && r.Err? ==>
                prep.View() == Preparation(Failed, None, Some(FailureCode(r.error)))
                || (r == Err(MarkRefused) && prep.View() == Preparation(Failed, None, Some(COMPILE_REFUSED)))
      ensures r.Ok? <==> !old(prep.View()).state.Terminal() && prep.View().state == Ready
      ensures r.Ok? <==> old(prep.state) == Queued && prep.takeoverTick != 0 && !contextEnded && prep.grant.Some?
                         && old(store.grants.View()).Verify(prep.Request(), now).1.Ok?
                         && store.inner.last.Some? && outcome.Compiled?
      ensures !old(prep.state).Terminal() && prep.takeoverTick == 0 ==> r == Err(TakeoverTickRequired)
      ensures !old(prep.state).Terminal() && prep.takeoverTick != 0 && contextEnded ==> r == Err(ContextEnded)
      ensures !old(prep.state).Terminal() && prep.takeoverTick != 0 && !contextEnded ==>
                (prep.grant.None? ==> r == Err(GrantRequired))
                && (prep.grant.Some? && old(store.grants.View()).Verify(prep.Request(), now).1.Err? ==>
                      r == Err(GrantRefused(old(store.grants.View()).Verify(prep.Request(), now).1.error)))
      ensures r.Ok? ==> outcome.Compiled? && prep.View().revision == Some(outcome.revision) && prep.grant.Some?
                        && Spends(old(Fetches()), Fetches(), prep.Request(), now)
      ensures Fetches() == old(Fetches())
              || (prep.grant.Some? && Spends(old(Fetches()), Fetches(), prep.Request(), now))
    {
      if prep.state.Terminal() { return Err(PreparationTerminal); }
      r := DoPrepare(prep, contextEnded, outcome, now);
      if r.Err? {
        var marked := prep.MarkFailed(Some(FailureCode(r.error)));
        if marked.Err? { return Err(MarkRefused); }
      }
    }
  }
}
