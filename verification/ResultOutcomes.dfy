/** What calls of the result path come to: when an interleaved ingestion or direct call may be
    refused, and what a stored result contains. */
module ResultOutcomes {
  import opened Prelude
  import opened Admissions
  import opened ResultPath
  import opened ResultProtocol
  import L = ServerLease
  import T = TerminalSummaries
  import N = ArtifactName
  import J = JoinProtocol

  // ----- a refusal of an interleaved call -----

  /** What an ingestion or direct call run alone at this moment finds; calls in flight do not count. */
  function Settled(w: World): Ideal { Ideal(w.leases, w.join.admissions, w.results, w.byGate.Keys) }

  /** Run alone the call is refused too: for the same cause, unless its credential or the attribution
      fails before that. */
  predicate RefusedToo(cause: Refusal, e: Option<Refusal>) {
    e.Some?
    && (e.value == cause
        || (e.value.Unauthenticated? && (cause.LeaseRefused? ==> e.value.lease == cause.lease))
        || (e.value.Unattributed? && (cause.InvalidAccount? || cause.AlreadyAccepted?)))
  }

  ghost predicate RefusedAlone(w: World, req: IngestRequest, cause: Refusal) {
    RefusedToo(cause, IngestAtomically(Settled(w), req).1)
  }

  /** A reservation in flight is for no accepted digest. */
  ghost predicate Fresh(w: World) { w.byGate.Keys <= w.seen && w.byGate.Keys !! w.reserver.Keys }

  lemma ExaminesAlone(w: World, k: nat, x: Ingest, cause: Refusal)
    requires k in w.ingests && IngestOk(w, k, w.ingests[k]) && w.byGate.Keys <= w.seen
    requires Answer(w, k, Examines) == Some(x) && x.phase == Refused(cause) && cause != Duplicate
    ensures RefusedAlone(w, x.req, cause)
  {
  }

  lemma LocksAlone(w: World, k: nat, x: Ingest, cause: Refusal)
    requires k in w.ingests && IngestOk(w, k, w.ingests[k])
    requires Answer(w, k, Locks) == Some(x) && x.phase == Failing(cause)
    ensures RefusedAlone(w, x.req, cause)
  {
  }

  /** Inside the lease lock an ingestion run alone gets as far as its own commit. */
  lemma HolderCommits(w: World, k: nat)
    requires k in w.ingests && IngestOk(w, k, w.ingests[k]) && w.ingests[k].InLease() && Fresh(w)
    ensures var x, s := w.ingests[k], Settled(w);
            IngestAtomically(s, x.req) == Commit(s, x.req, x.participant.generation, x.summary)
  {
    var x, s := w.ingests[k], Settled(w);
    assert w.leases.Authenticate(x.req.credential) == Ok(x.participant);
    assert Examine(s.leases, s.accepted, x.req) == Ok((x.participant, x.summary));
  }

  lemma AttributesAlone(w: World, k: nat, x: Ingest, cause: Refusal)
    requires k in w.ingests && IngestOk(w, k, w.ingests[k]) && Fresh(w)
    requires Answer(w, k, Attributes) == Some(x) && x.phase == Failing(cause)
    ensures IngestAtomically(Settled(w), x.req).1 == Some(cause)
  {
    HolderCommits(w, k);
  }

  /** Whoever is attributed now, the account read before is still admitted. */
  lemma StillAdmitted(w: World, x: Ingest, account: string)
    requires x.Named() && AdmittedFor(w.join.admissions, x.Outcome())
    requires Attribute(w.join.admissions, x.summary.serverProcessGeneration, x.summary.revision) == Ok(account)
    ensures account == x.phase.account
  {
    var t, g, r := w.join.admissions, x.summary.serverProcessGeneration, x.summary.revision;
    AttributeExact(t, g, r, account);
    assert AdmissionKey(x.phase.account, g) in Matching(t, g, r);
  }

  lemma CommitAlone(w: World, k: nat, m: Move, x: Ingest, cause: Refusal)
    requires k in w.ingests && IngestOk(w, k, w.ingests[k]) && Fresh(w) && (m.Checks? || m.Stores?)
    requires Answer(w, k, m) == Some(x) && x.phase == Failing(cause)
    ensures RefusedAlone(w, x.req, cause)
  {
    var y := w.ingests[k];
    HolderCommits(w, k);
    InspectExact(y.req, y.participant.generation);
    var a := Attribute(w.join.admissions, y.summary.serverProcessGeneration, y.summary.revision);
    if a.Ok? { StillAdmitted(w, y, a.value); }
  }

  lemma MoveAlone(w: World, k: nat, m: Move, x: Ingest, cause: Refusal)
    requires k in w.ingests && IngestOk(w, k, w.ingests[k]) && Fresh(w) && !w.ingests[k].phase.Failing?
    requires Answer(w, k, m) == Some(x) && (x.phase == Failing(cause) || x.phase == Refused(cause))
    ensures x.req == w.ingests[k].req && (cause == Duplicate || RefusedAlone(w, x.req, cause))
    ensures cause == Duplicate ==> x.phase.Refused?
  {
    match m
    case Examines => if cause != Duplicate { ExaminesAlone(w, k, x, cause); }
    case Reserves =>
    case Locks => LocksAlone(w, k, x, cause);
    case Attributes => AttributesAlone(w, k, x, cause);
    case _ => CommitAlone(w, k, m, x, cause);
  }

  lemma FreshHolds(w: World)
    requires Digests(w)
    ensures Fresh(w)
  {
  }

  /** The step is a section of call k that refuses it. */
  ghost predicate RefusedNow(w: World, step: Step, v: World, k: nat, cause: Refusal) {
    && step.Acts? && (step.a.IngestBegins? || step.a.IngestMoves?) && step.a.k == k
    && (k in w.ingests ==> !w.ingests[k].phase.Failing?)
    && k in v.ingests && (v.ingests[k].phase == Failing(cause) || v.ingests[k].phase == Refused(cause))
  }

  lemma MoveShape(w: World, step: Step, v: World, k: nat)
    requires Next(w, step) == Some(v) && step.Acts? && step.a.IngestMoves? && step.a.k == k
    ensures k in w.ingests && Answer(w, k, step.a.m).Some? && k in v.ingests
    ensures v.ingests[k] == Answer(w, k, step.a.m).value
  {
  }

  lemma BeginAlone(w: World, step: Step, v: World, k: nat, cause: Refusal)
    requires Next(w, step) == Some(v) && RefusedNow(w, step, v, k, cause) && step.a.IngestBegins?
    ensures cause != Duplicate && IngestAtomically(Settled(w), v.ingests[k].req).1 == Some(cause)
  {
  }

  ghost predicate HeldElsewhere(w: World, d: string, k: nat) { exists j :: HeldBy(w, d, j) && j != k }

  /** The refusal is lawful: as a duplicate of what another call holds or had accepted, or because
      the ingestion run alone at this moment is refused too. */
  ghost predicate Lawful(w: World, k: nat, x: Ingest, cause: Refusal) {
    if cause == Duplicate then HeldElsewhere(w, x.Digest(), k) else RefusedAlone(w, x.req, cause)
  }

  lemma MoveLawful(w: World, k: nat, m: Move, x: Ingest, cause: Refusal)
    requires Threads(w) && Digests(w) && k in w.ingests && !w.ingests[k].phase.Failing?
    requires Answer(w, k, m) == Some(x) && (x.phase == Failing(cause) || x.phase == Refused(cause))
    ensures Lawful(w, k, x, cause)
  {
    FreshHolds(w);
    assert IngestOk(w, k, w.ingests[k]);
    MoveAlone(w, k, m, x, cause);
    if cause == Duplicate { DuplicateHeld(w, k, m); }
  }

  lemma RefusedLawfully(w: World, step: Step, v: World, k: nat, cause: Refusal)
    requires Threads(w) && Digests(w) && Next(w, step) == Some(v) && RefusedNow(w, step, v, k, cause)
    ensures Lawful(w, k, v.ingests[k], cause)
  {
    if step.a.IngestBegins? {
      BeginAlone(w, step, v, k, cause);
    } else {
      MoveShape(w, step, v, k);
      MoveLawful(w, k, step.a.m, v.ingests[k], cause);
    }
  }

  /** Over every run a section refuses an ingestion only as a duplicate, of what another call holds
      or had accepted, or where the ingestion run alone at that moment would be refused too. */
  lemma RefusedOnlyAsAlone(worlds: seq<World>, steps: seq<Step>, i: nat, k: nat, cause: Refusal)
    requires IsRun(worlds, steps) && i < |steps| && RefusedNow(worlds[i], steps[i], worlds[i + 1], k, cause)
    ensures Lawful(worlds[i], k, worlds[i + 1].ingests[k], cause)
  {
    RunInv(worlds, steps);
    RefusedLawfully(worlds[i], steps[i], worlds[i + 1], k, cause);
  }

  predicate RefusedFor(w: World, k: nat, cause: Refusal) {
    k in w.ingests && (w.ingests[k].phase == Failing(cause) || w.ingests[k].phase == Refused(cause))
  }

  lemma OthersStand(w: World, a: Act, v: World, k: nat)
    requires ActNext(w, a) == Some(v) && !((a.IngestBegins? || a.IngestMoves?) && a.k == k)
    ensures (k in w.ingests <==> k in v.ingests) && (k in v.ingests ==> v.ingests[k] == w.ingests[k])
  {
  }

  lemma RollsBackFor(w: World, k: nat, m: Move, x: Ingest)
    requires k in w.ingests && w.ingests[k].phase.Failing? && Answer(w, k, m) == Some(x)
    ensures x.phase == Refused(w.ingests[k].phase.cause)
  {
  }

  lemma CauseStands(w: World, step: Step, v: World, k: nat, cause: Refusal)
    requires Next(w, step) == Some(v) && RefusedFor(v, k, cause)
    ensures RefusedNow(w, step, v, k, cause) || RefusedFor(w, k, cause)
  {
    if step.Acts? {
      if !((step.a.IngestBegins? || step.a.IngestMoves?) && step.a.k == k) {
        OthersStand(w, step.a, v, k);
      } else if k in w.ingests && w.ingests[k].phase.Failing? {
        assert step.a.IngestMoves?;
        MoveShape(w, step, v, k);
        RollsBackFor(w, k, step.a.m, v.ingests[k]);
      }
    }
  }

  lemma CauseNext(worlds: seq<World>, steps: seq<Step>, i: nat, k: nat, cause: Refusal)
    requires IsRun(worlds, steps) && i < |steps| && RefusedFor(worlds[i + 1], k, cause)
    ensures RefusedNow(worlds[i], steps[i], worlds[i + 1], k, cause) || RefusedFor(worlds[i], k, cause)
  {
    CauseStands(worlds[i], steps[i], worlds[i + 1], k, cause);
  }

  /** Whatever cause a refused ingestion reports, some section of it refused it for this cause, and
      lawfully. */
  lemma {:induction false} RefusedForCause(worlds: seq<World>, steps: seq<Step>, n: nat, k: nat, cause: Refusal)
    returns (i: nat)
    requires IsRun(worlds, steps) && n < |worlds| && RefusedFor(worlds[n], k, cause)
    ensures i < n && RefusedNow(worlds[i], steps[i], worlds[i + 1], k, cause)
    ensures Lawful(worlds[i], k, worlds[i + 1].ingests[k], cause)
  {
    i := n - 1;
    CauseNext(worlds, steps, i, k, cause);
    if RefusedNow(worlds[i], steps[i], worlds[i + 1], k, cause) {
      RefusedOnlyAsAlone(worlds, steps, i, k, cause);
    } else {
      i := RefusedForCause(worlds, steps, i, k, cause);
    }
  }

  // ----- every call ends -----

  /** How many sections an ingestion has left at most. */
  function Left(p: Phase): nat {
    match p
    case Authed => 7
    case Examined => 6
    case Reserved => 5
    case Locked => 4
    case Attributed(_) => 3
    case Checked(_) => 2
    case Failing(_) => 1
    case Accepted(_) => 0
    case Refused(_) => 0
  }

  lemma SectionAdvances(w: World, k: nat, m: Move, x: Ingest)
    requires k in w.ingests && Answer(w, k, m) == Some(x)
    ensures Left(x.phase) < Left(w.ingests[k].phase)
  {
  }

  /** The section a call takes next. */
  function NextMove(p: Phase): Move {
    match p
    case Authed => Examines
    case Examined => Reserves
    case Reserved => Locks
    case Locked => Attributes
    case Attributed(_) => Checks
    case Checked(_) => Stores
    case _ => RollsBack
  }

  lemma SectionEnabled(w: World, k: nat)
    requires k in w.ingests && Left(w.ingests[k].phase) > 0 && (w.ingests[k].phase.Reserved? ==> w.holder.None?)
    ensures Answer(w, k, NextMove(w.ingests[k].phase)).Some?
  {
  }

  /** In every reachable state an unfinished ingestion can take its next section, unless it waits
      for the lease lock, and then the holder of the lock can. */
  lemma NeverStuck(worlds: seq<World>, steps: seq<Step>, i: nat, k: nat) returns (j: nat)
    requires IsRun(worlds, steps) && i < |worlds| && k in worlds[i].ingests && Left(worlds[i].ingests[k].phase) > 0
    ensures j == k || worlds[i].holder == Some(j)
    ensures j in worlds[i].ingests && Answer(worlds[i], j, NextMove(worlds[i].ingests[j].phase)).Some?
  {
    RunInv(worlds, steps);
    j := HolderElse(worlds[i], k);
    SectionEnabled(worlds[i], j);
  }

  lemma HolderElse(w: World, k: nat) returns (j: nat)
    requires Threads(w) && k in w.ingests && Left(w.ingests[k].phase) > 0
    ensures (j == k || w.holder == Some(j)) && j in w.ingests && Left(w.ingests[j].phase) > 0
    ensures w.ingests[j].phase.Reserved? ==> w.holder.None?
  {
    j := if w.ingests[k].phase.Reserved? && w.holder.Some? then w.holder.value else k;
  }

  /** The sections call k took among the first n steps, after its first. */
  function Taken(steps: seq<Step>, n: nat, k: nat): nat
    requires n <= |steps|
  {
    if n == 0 then 0
    else
      Taken(steps, n - 1, k)
      + (if steps[n - 1].Acts? && steps[n - 1].a.IngestMoves? && steps[n - 1].a.k == k then 1 else 0)
  }

  lemma TakenStep(w: World, step: Step, v: World, k: nat)
    requires Next(w, step) == Some(v)
    ensures var moved := if step.Acts? && step.a.IngestMoves? && step.a.k == k then 1 else 0;
            k in v.ingests ==>
              if k in w.ingests then moved + Left(v.ingests[k].phase) <= Left(w.ingests[k].phase)
              else moved == 0 && Left(v.ingests[k].phase) <= 7
    ensures k !in v.ingests ==> k !in w.ingests && !(step.Acts? && step.a.IngestMoves? && step.a.k == k)
  {
    if step.Acts? {
      if step.a.IngestMoves? && step.a.k == k {
        MoveShape(w, step, v, k);
        SectionAdvances(w, k, step.a.m, v.ingests[k]);
      } else if !(step.a.IngestBegins? && step.a.k == k) {
        OthersStand(w, step.a, v, k);
      }
    }
  }

  lemma TakenNext(worlds: seq<World>, steps: seq<Step>, n: nat, k: nat)
    requires IsRun(worlds, steps) && n < |steps|
    ensures var moved := Taken(steps, n + 1, k) - Taken(steps, n, k);
            && (k in worlds[n + 1].ingests ==>
                  if k in worlds[n].ingests
                  then moved + Left(worlds[n + 1].ingests[k].phase) <= Left(worlds[n].ingests[k].phase)
                  else moved == 0 && Left(worlds[n + 1].ingests[k].phase) <= 7)
            && (k !in worlds[n + 1].ingests ==> k !in worlds[n].ingests && moved == 0)
  {
    TakenStep(worlds[n], steps[n], worlds[n + 1], k);
  }

  /** Over every run an ingestion takes at most seven sections after its first, and fewer by those it
      has left. */
  lemma SectionsBounded(worlds: seq<World>, steps: seq<Step>, n: nat, k: nat)
    requires IsRun(worlds, steps) && n <= |steps|
    ensures Taken(steps, n, k) + (if k in worlds[n].ingests then Left(worlds[n].ingests[k].phase) else 0) <= 7
    ensures k !in worlds[n].ingests ==> Taken(steps, n, k) == 0
  {
    for i := 0 to n
      invariant Taken(steps, i, k) + (if k in worlds[i].ingests then Left(worlds[i].ingests[k].phase) else 0) <= 7
      invariant k !in worlds[i].ingests ==> Taken(steps, i, k) == 0
    {
      TakenNext(worlds, steps, i, k);
    }
  }

  // ----- what waits for the lease lock -----

  /** Lease operations, authentications and direct commits wait for the holder of the lease lock, and
      for nothing else; the checks of direct calls and all join steps do not wait at all. */
  ghost predicate Waits(w: World, step: Step) {
    match step
    case Joins(j) => Next(w, step).Some? <==> J.Next(w.join, j).Some?
    case Acts(Leases(op)) => Next(w, step).Some? <==> w.holder.None? && L.Next(w.leases, op).Some?
    case Acts(IngestBegins(k, _)) => Next(w, step).Some? <==> k !in w.ingests && w.holder.None?
    case Acts(DirectBegins(k, _, _)) => Next(w, step).Some? <==> k !in w.directs
    case Acts(DirectCommits(k)) => Next(w, step).Some? <==> k in w.directs && w.directs[k].Ready? && w.holder.None?
    case Acts(IngestMoves(k, Locks)) =>
      Next(w, step).Some? <==> k in w.ingests && w.ingests[k].phase.Reserved? && w.holder.None?
    case _ => true
  }

  lemma LockExact(w: World, step: Step)
    ensures Waits(w, step)
  {
  }

  // ----- a direct call -----

  lemma DirectBeginsAlone(w: World, k: nat, generation: nat, r: AttemptResult, v: World)
    requires ActNext(w, DirectBegins(k, generation, r)) == Some(v)
    ensures k in v.directs
    ensures var e := AcceptAtomically(Settled(w), generation, r).1;
            match v.directs[k]
            case Ready(g, q) => g == generation && q == r && CheckResult(w.join.admissions, g, q).None?
            case Done(cause) => cause.Some? && cause == e
  {
  }

  lemma DirectCommitsAlone(w: World, k: nat, v: World)
    requires Threads(w) && ActNext(w, DirectCommits(k)) == Some(v)
    ensures k in w.directs && w.directs[k].Ready? && k in v.directs
    ensures v.directs[k] == Done(AcceptAtomically(Settled(w), w.directs[k].generation, w.directs[k].r).1)
  {
    assert DirectOk(w, w.directs[k]);
  }

  /** Over every run a direct call is answered, where it begins or where it commits, exactly as the
      whole call run alone at that moment would be. */
  lemma DirectAsAlone(worlds: seq<World>, steps: seq<Step>, i: nat, k: nat)
    requires IsRun(worlds, steps) && i < |steps| && steps[i].Acts?
    requires steps[i].a.DirectBegins? || steps[i].a.DirectCommits?
    requires steps[i].a.k == k && k in worlds[i + 1].directs && worlds[i + 1].directs[k].Done?
    ensures var (generation, r) := Handed(worlds[i], steps[i].a);
            worlds[i + 1].directs[k].cause == AcceptAtomically(Settled(worlds[i]), generation, r).1
  {
    RunInv(worlds, steps);
    DirectOnce(worlds[i], steps[i].a, worlds[i + 1], k);
  }

  /** What the direct call of this act hands in. */
  function Handed(w: World, a: Act): (nat, AttemptResult) {
    if a.DirectBegins? then (a.generation, a.r)
    else if a.DirectCommits? && a.k in w.directs && w.directs[a.k].Ready?
    then (w.directs[a.k].generation, w.directs[a.k].r)
    else (0, AttemptResult("", "", 0, 0, "", 0))
  }

  lemma DirectOnce(w: World, a: Act, v: World, k: nat)
    requires Threads(w) && ActNext(w, a) == Some(v) && (a.DirectBegins? || a.DirectCommits?)
    requires a.k == k && k in v.directs && v.directs[k].Done?
    ensures v.directs[k].cause == AcceptAtomically(Settled(w), Handed(w, a).0, Handed(w, a).1).1
  {
    if a.DirectBegins? { DirectBeginsAlone(w, k, a.generation, a.r, v); } else { DirectCommitsAlone(w, k, v); }
  }

  // ----- what a stored result contains -----

  /** An accepted call's result is stored, as the call stated it. */
  ghost predicate KeptOk(w: World, k: nat)
    requires k in w.ingests
  {
    var x := w.ingests[k];
    x.phase.Accepted? ==> KeyOf(x.Outcome()) in w.results && w.results[KeyOf(x.Outcome())] == x.Outcome()
  }

  ghost predicate Kept(w: World) { forall k :: k in w.ingests ==> KeptOk(w, k) }

  predicate ResultsGrow(w: World, v: World) {
    forall key :: key in w.results ==> key in v.results && v.results[key] == w.results[key]
  }

  lemma ActGrows(w: World, a: Act, v: World)
    requires ActNext(w, a) == Some(v)
    ensures ResultsGrow(w, v)
  {
    if v.results != w.results { ResultsMove(w, a, v); }
  }

  lemma MoveKept(w: World, k: nat, m: Move, x: Ingest)
    requires k in w.ingests && Answer(w, k, m) == Some(x)
    ensures KeptOk(Arrive(w, k, x), k)
  {
  }

  lemma KeptStep(w: World, a: Act, v: World)
    requires Kept(w) && ActNext(w, a) == Some(v)
    ensures Kept(v)
  {
    ActGrows(w, a, v);
    forall k | k in v.ingests ensures KeptOk(v, k) {
      if !((a.IngestBegins? || a.IngestMoves?) && a.k == k) {
        OthersStand(w, a, v, k);
        assert KeptOk(w, k);
      } else if a.IngestMoves? {
        MoveKept(w, k, a.m, Answer(w, k, a.m).value);
      }
    }
  }

  lemma KeptNext(worlds: seq<World>, steps: seq<Step>, i: nat)
    requires IsRun(worlds, steps) && i < |steps| && Kept(worlds[i])
    ensures Kept(worlds[i + 1])
  {
    if steps[i].Acts? {
      KeptStep(worlds[i], steps[i].a, worlds[i + 1]);
    } else {
      JoinKeeps(worlds[i], steps[i], worlds[i + 1]);
    }
  }

  lemma JoinKeeps(w: World, step: Step, v: World)
    requires Kept(w) && Next(w, step) == Some(v) && step.Joins?
    ensures Kept(v)
  {
    forall k | k in v.ingests ensures KeptOk(v, k) { assert KeptOk(w, k); }
  }

  lemma KeptRun(worlds: seq<World>, steps: seq<Step>, i: nat)
    requires IsRun(worlds, steps) && i < |worlds|
    ensures Kept(worlds[i])
  {
    for j := 0 to i
      invariant Kept(worlds[j])
    {
      KeptNext(worlds, steps, j);
    }
  }

  /** Over every run the result of an accepted artifact is stored under its account and generations,
      says field by field what that artifact decodes to, and names an account admitted on that
      process generation against that revision. */
  lemma StoredFields(worlds: seq<World>, steps: seq<Step>, i: nat, d: string) returns (k: nat)
    requires IsRun(worlds, steps) && i < |worlds| && d in worlds[i].byGate
    ensures k in worlds[i].ingests && worlds[i].byGate[d] in worlds[i].results
    ensures var key, data := worlds[i].byGate[d], worlds[i].ingests[k].req.data;
            var r, s := worlds[i].results[key], T.Decode(data);
            && data.bytes == d && s.Ok? && Tells(r, s.value)
            && worlds[i].ingests[k].req.name == N.NameOf(r.attemptGeneration)
            && key == ResultKey(r.account, s.value.serverProcessGeneration, s.value.attemptGeneration)
            && r.account != ""
            && var admitted := AdmissionKey(r.account, s.value.serverProcessGeneration);
               admitted in worlds[i].join.admissions && worlds[i].join.admissions[admitted] == s.value.revision
  {
    RunInv(worlds, steps);
    KeptRun(worlds, steps, i);
    k := AcceptedFields(worlds[i], d);
  }

  lemma AcceptedFields(w: World, d: string) returns (k: nat)
    requires Inv(w) && Kept(w) && d in w.byGate
    ensures k in w.ingests && w.byGate[d] in w.results
    ensures var key, data := w.byGate[d], w.ingests[k].req.data;
            var r, s := w.results[key], T.Decode(data);
            && data.bytes == d && s.Ok? && Tells(r, s.value)
            && w.ingests[k].req.name == N.NameOf(r.attemptGeneration)
            && key == ResultKey(r.account, s.value.serverProcessGeneration, s.value.attemptGeneration)
            && r.account != ""
            && var admitted := AdmissionKey(r.account, s.value.serverProcessGeneration);
               admitted in w.join.admissions && w.join.admissions[admitted] == s.value.revision
  {
    k := w.acceptor[d];
    assert AcceptedBy(w, d, k);
    assert IngestOk(w, k, w.ingests[k]) && KeptOk(w, k);
    InspectExact(w.ingests[k].req, w.ingests[k].participant.generation);
  }
}
