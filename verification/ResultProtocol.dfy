/** The result protocol under concurrency: ingestions through the gate and results handed in
    directly, against lease issues and revocations and every join, lobby and preparation step. One
    step per locked section. A commit runs inside the lease lock, so lease operations, other
    commits and authentications wait for it; joins do not. */
module ResultProtocol {
  import opened Prelude
  import opened Admissions
  import opened ResultPath
  import L = ServerLease
  import T = TerminalSummaries
  import A = LobbyAccess
  import R = PreparationRuns
  import J = JoinProtocol

  /** Where an Ingest call stands between its locked sections. */
  datatype Phase =
    | Authed                      // the credential resolved to a participant
    | Examined                    // not seen yet; decoded, name and identity bound
    | Reserved                    // its digest is reserved
    | Locked                      // inside CommitCredential, the lease checked
    | Attributed(account: string) // the admitted account was read
    | Checked(account: string)    // acceptResult's checks passed
    | Failing(cause: Refusal)     // refused after the reservation, which is still held
    | Accepted(account: string)
    | Refused(cause: Refusal)

  /** participant is known from Authed on, summary from Examined on. */
  datatype Ingest = Ingest(
    req: IngestRequest, participant: L.Participant, summary: T.TerminalSummary, phase: Phase) {

    function To(p: Phase): Ingest { this.(phase := p) }

    function Digest(): string { ResultPath.Digest(req.data) }

    predicate Holding() {
      phase.Reserved? || phase.Locked? || phase.Attributed? || phase.Checked? || phase.Failing?
    }

    predicate InLease() { phase.Locked? || phase.Attributed? || phase.Checked? }

    predicate Named() { phase.Attributed? || phase.Checked? || phase.Accepted? }

    /** The result this call stores, once it knows the account. */
    function Outcome(): AttemptResult
      requires Named()
    {
      ResultFor(phase.account, summary)
    }
  }

  /** An AcceptResult call between its admission check and its commit. */
  datatype Direct = Ready(generation: nat, r: AttemptResult) | Done(cause: Option<Refusal>)

  /** holder is the Ingest call inside the lease lock. History: reserver and acceptor map a reserved
      and an accepted digest to its call, byGate an accepted digest to the result it stored. */
  datatype World = World(
    leases: L.Leases, holder: Option<nat>, join: J.State,
    seen: set<string>, results: map<ResultKey, AttemptResult>,
    ingests: map<nat, Ingest>, directs: map<nat, Direct>,
    reserver: map<string, nat>, acceptor: map<string, nat>, byGate: map<string, ResultKey>)

  datatype Move = Examines | Reserves | Locks | Attributes | Checks | Stores | RollsBack

  /** The steps of the result path; every other step is a join step. */
  datatype Act =
    | Leases(op: L.LeaseOp)
    | IngestBegins(k: nat, req: IngestRequest)
    | IngestMoves(k: nat, m: Move)
    | DirectBegins(k: nat, generation: nat, r: AttemptResult)
    | DirectCommits(k: nat)

  datatype Step = Joins(j: J.Step) | Acts(a: Act)

  /** Where the next section takes the Ingest call k. */
  ghost function Answer(w: World, k: nat, m: Move): Option<Ingest>
    requires k in w.ingests
  {
    var x := w.ingests[k];
    match m
    case Examines =>
      if !x.phase.Authed? then None
      else if CheckArtifactSize(x.req.data).Some? then Some(x.To(Refused(CheckArtifactSize(x.req.data).value)))
      else if x.Digest() in w.seen then Some(x.To(Refused(Duplicate)))
      else
        var i := Inspect(x.req, x.participant.generation);
        Some(if i.Err? then x.To(Refused(i.error)) else x.(phase := Examined, summary := i.value))
    case Reserves =>
      if !x.phase.Examined? then None
      else Some(x.To(if x.Digest() in w.seen then Refused(Duplicate) else Reserved))
    case Locks =>
      if !x.phase.Reserved? || w.holder.Some? then None
      else
        var c := w.leases.CommitCredential(x.req.credential, x.participant.generation);
        Some(x.To(if c.Err? then Failing(LeaseRefused(c.error)) else Locked))
    case Attributes =>
      if !x.phase.Locked? then None
      else
        var a := Attribute(w.join.admissions, x.summary.serverProcessGeneration, x.summary.revision);
        Some(x.To(if a.Err? then Failing(Unattributed(a.error)) else Attributed(a.value)))
    case Checks =>
      if !x.phase.Attributed? then None
      else
        var e := CheckResult(w.join.admissions, x.participant.generation, x.Outcome());
        Some(x.To(if e.Some? then Failing(e.value) else Checked(x.phase.account)))
    case Stores =>
      if !x.phase.Checked? then None
      else Some(x.To(if KeyOf(x.Outcome()) in w.results then Failing(AlreadyAccepted) else Accepted(x.phase.account)))
    case RollsBack =>
      if !x.phase.Failing? then None else Some(x.To(Refused(x.phase.cause)))
  }

  /** The call k moves to x; what the section changes besides is fixed by where it arrives. */
  function Arrive(w: World, k: nat, x: Ingest): World {
    var released := k in w.ingests && w.ingests[k].phase.Failing? && x.phase.Refused?;
    w.(ingests := w.ingests[k := x],
       holder := if x.InLease() then Some(k) else if w.holder == Some(k) then None else w.holder,
       seen := if x.phase.Reserved? then w.seen + {x.Digest()} else if released then w.seen - {x.Digest()} else w.seen,
       reserver := if x.phase.Reserved? then w.reserver[x.Digest() := k]
                   else if released || x.phase.Accepted? then w.reserver - {x.Digest()} else w.reserver,
       results := if x.phase.Accepted? then w.results[KeyOf(x.Outcome()) := x.Outcome()] else w.results,
       acceptor := if x.phase.Accepted? then w.acceptor[x.Digest() := k] else w.acceptor,
       byGate := if x.phase.Accepted? then w.byGate[x.Digest() := KeyOf(x.Outcome())] else w.byGate)
  }

  /** AuthenticateServer, the first section of an Ingest call. */
  function Begin(w: World, req: IngestRequest): Ingest {
    var p := w.leases.Authenticate(req.credential);
    if p.Err? then Ingest(req, L.Participant("", 0), T.ZERO_SUMMARY, Refused(Unauthenticated(p.error)))
    else Ingest(req, p.value, T.ZERO_SUMMARY, Authed)
  }

  /** The outcome of a direct commit, under the lease lock. */
  function DirectAnswer(w: World, d: Direct): Option<Refusal>
    requires d.Ready?
  {
    var c := w.leases.CommitLease(d.generation);
    if c.Err? then Some(LeaseRefused(c.error)) else if KeyOf(d.r) in w.results then Some(AlreadyAccepted) else None
  }

  function DirectArrive(w: World, k: nat, r: AttemptResult, e: Option<Refusal>): World {
    w.(directs := w.directs[k := Done(e)], results := if e.None? then w.results[KeyOf(r) := r] else w.results)
  }

  ghost function ActNext(w: World, a: Act): Option<World> {
    match a
    case Leases(op) =>
      if w.holder.Some? || L.Next(w.leases, op).None? then None
      else Some(w.(leases := L.Next(w.leases, op).value))
    case IngestBegins(k, req) =>
      if k in w.ingests || w.holder.Some? then None else Some(Arrive(w, k, Begin(w, req)))
    case IngestMoves(k, m) =>
      if k !in w.ingests || Answer(w, k, m).None? then None else Some(Arrive(w, k, Answer(w, k, m).value))
    case DirectBegins(k, generation, r) =>
      if k in w.directs then None
      else
        var e := CheckResult(w.join.admissions, generation, r);
        Some(w.(directs := w.directs[k := if e.Some? then Done(e) else Ready(generation, r)]))
    case DirectCommits(k) =>
      if k !in w.directs || !w.directs[k].Ready? || w.holder.Some? then None
      else Some(DirectArrive(w, k, w.directs[k].r, DirectAnswer(w, w.directs[k])))
  }

  ghost function Next(w: World, step: Step): Option<World> {
    match step
    case Joins(j) => if J.Next(w.join, j).None? then None else Some(w.(join := J.Next(w.join, j).value))
    case Acts(a) => ActNext(w, a)
  }

  ghost predicate Init(w: World) {
    w.leases == L.EMPTY && w.holder == None && J.Init(w.join) && w.seen == {} && w.results == map[]
    && w.ingests == map[] && w.directs == map[] && w.reserver == map[] && w.acceptor == map[] && w.byGate == map[]
  }

  // ----- the invariant -----

  /** The summary is what the request's artifact says, under its own name, for this participant. */
  predicate WellBound(x: Ingest) {
    CheckArtifactSize(x.req.data).None? && Inspect(x.req, x.participant.generation) == Ok(x.summary)
  }

  predicate KnownParticipant(l: L.Leases, x: Ingest) {
    x.req.credential in l.records
    && l.records[x.req.credential].participant == x.participant.id
    && l.records[x.req.credential].generation == x.participant.generation
  }

  /** The account was admitted on this generation against this revision. */
  predicate AdmittedFor(t: AdmissionTable, r: AttemptResult) {
    var key := AdmissionKey(r.account, r.processGeneration);
    key in t && t[key] == r.revision
  }

  /** Every result the gate stored for this generation belongs to this account. */
  ghost predicate GateOwner(byGate: map<string, ResultKey>, generation: nat, account: string) {
    forall d :: d in byGate && byGate[d].processGeneration == generation ==> byGate[d].account == account
  }

  ghost predicate IngestOk(w: World, k: nat, x: Ingest) {
    && (!x.phase.Refused? ==> KnownParticipant(w.leases, x))
    && (!x.phase.Refused? && !x.phase.Authed? ==> WellBound(x))
    && (x.Holding() ==> x.Digest() in w.reserver && w.reserver[x.Digest()] == k)
    && (x.InLease() ==>
          w.holder == Some(k) && w.leases.CommitCredential(x.req.credential, x.participant.generation).Ok?)
    && (x.Named() ==> AdmittedFor(w.join.admissions, x.Outcome()))
    && (x.Named() && x.InLease() ==> GateOwner(w.byGate, x.summary.serverProcessGeneration, x.phase.account))
    && (x.phase.Checked? || x.phase.Accepted? ==> x.phase.account != "")
    && (x.phase.Accepted? ==> x.Digest() in w.byGate && w.byGate[x.Digest()] == KeyOf(x.Outcome())
                              && x.Digest() in w.acceptor && w.acceptor[x.Digest()] == k)
  }

  ghost predicate DirectOk(w: World, d: Direct) {
    d.Ready? ==> CheckResult(w.join.admissions, d.generation, d.r).None?
  }

  ghost predicate Threads(w: World) {
    && (forall k :: k in w.ingests ==> IngestOk(w, k, w.ingests[k]))
    && (forall k :: k in w.directs ==> DirectOk(w, w.directs[k]))
    && (w.holder.Some? ==> w.holder.value in w.ingests && w.ingests[w.holder.value].InLease())
  }

  /** The digests reserved by calls in flight, each held by one call. */
  ghost predicate Reservations(w: World) {
    forall d :: d in w.reserver ==>
      w.reserver[d] in w.ingests && w.ingests[w.reserver[d]].Holding() && w.ingests[w.reserver[d]].Digest() == d
  }

  /** The accepted digests, each accepted by one call. */
  ghost predicate Acceptances(w: World) {
    w.acceptor.Keys == w.byGate.Keys
    && forall d :: d in w.acceptor ==> AcceptedBy(w, d, w.acceptor[d])
  }

  predicate AcceptedBy(w: World, d: string, k: nat) {
    k in w.ingests && w.ingests[k].phase.Accepted? && w.ingests[k].Digest() == d
  }

  ghost predicate Digests(w: World) {
    && w.seen == w.byGate.Keys + w.reserver.Keys
    && w.byGate.Keys !! w.reserver.Keys
    && Reservations(w) && Acceptances(w)
  }

  ghost predicate ResultOk(w: World, key: ResultKey, r: AttemptResult) {
    KeyOf(r) == key && r.account != "" && AdmittedFor(w.join.admissions, r)
  }

  /** Accepted digests and the results stored for them are one-to-one, and all gate-stored results
      of one generation have one owner. */
  ghost predicate GateSound(byGate: map<string, ResultKey>, results: set<ResultKey>) {
    && (forall d :: d in byGate ==> byGate[d] in results)
    && (forall d, e :: d in byGate && e in byGate && d != e ==> byGate[d] != byGate[e])
    && (forall d :: d in byGate ==> GateOwner(byGate, byGate[d].processGeneration, byGate[d].account))
  }

  ghost predicate Stored(w: World) {
    (forall key :: key in w.results ==> ResultOk(w, key, w.results[key])) && GateSound(w.byGate, w.results.Keys)
  }

  ghost predicate Local(w: World) { Threads(w) && Digests(w) && Stored(w) }

  /** All admissions of one process generation carry one revision. */
  ghost predicate OneRevisionEach(t: AdmissionTable) {
    forall a, b :: a in t && b in t && a.generation == b.generation ==> t[a] == t[b]
  }

  /** The part of the result path; the joins keep their own invariant. */
  ghost predicate Inv(w: World) { w.leases.Inv() && OneRevisionEach(w.join.admissions) && Local(w) }

  // ----- what one section of an Ingest call does to its own call -----

  /** The admission read under the lease lock names the one account whose results the gate has
      ever stored for this generation. */
  lemma OwnerRead(w: World, generation: nat, revision: string, account: string)
    requires Stored(w) && OneRevisionEach(w.join.admissions)
    requires Attribute(w.join.admissions, generation, revision) == Ok(account)
    ensures var key := AdmissionKey(account, generation); key in w.join.admissions && w.join.admissions[key] == revision
    ensures GateOwner(w.byGate, generation, account)
  {
    var t, key := w.join.admissions, AdmissionKey(account, generation);
    AttributeExact(t, generation, revision, account);
    assert key in Matching(t, generation, revision);
    forall d | d in w.byGate && w.byGate[d].processGeneration == generation ensures w.byGate[d].account == account {
      assert ResultOk(w, w.byGate[d], w.results[w.byGate[d]]);
      var other := AdmissionKey(w.byGate[d].account, generation);
      assert t[key] == t[other];
      assert other in Matching(t, generation, revision);
    }
  }

  /** What the books need of a section: the call keeps its identity, takes the lease lock only when
      it is free, reserves only an unseen digest, and stores only a new result of the owner. */
  ghost predicate Sound(w: World, k: nat, x: Ingest) {
    && (k in w.ingests ==> x.req == w.ingests[k].req && x.participant == w.ingests[k].participant)
    && (k !in w.ingests ==> x.phase.Authed? || x.phase.Refused?)
    && (k in w.ingests && w.ingests[k].Holding() ==> x.Digest() in w.reserver && w.reserver[x.Digest()] == k)
    && (x.InLease() ==> w.holder == Some(k) || w.holder == None)
    && (k in w.ingests && w.ingests[k].InLease() ==> w.holder == Some(k))
    && (x.phase.Reserved? ==> x.Digest() !in w.seen && k in w.ingests && !w.ingests[k].Holding())
    && (k in w.ingests && w.ingests[k].Holding() ==> x.Holding() || x.phase.Accepted? || w.ingests[k].phase.Failing?)
    && (k in w.ingests && w.ingests[k].phase.Failing? ==> x.phase.Refused?)
    && (x.Holding() ==> k in w.ingests && (x.phase.Reserved? || w.ingests[k].Holding()))
    && (x.phase.Accepted? ==> Storable(w, k, x))
    && (k in w.ingests ==> !w.ingests[k].phase.Accepted?)
  }

  ghost predicate Storable(w: World, k: nat, x: Ingest)
    requires x.phase.Accepted?
  {
    && k in w.ingests && w.ingests[k].phase.Checked? && x.summary == w.ingests[k].summary
    && x.phase.account == w.ingests[k].phase.account && x.phase.account != ""
    && KeyOf(x.Outcome()) !in w.results && AdmittedFor(w.join.admissions, x.Outcome())
    && GateOwner(w.byGate, x.summary.serverProcessGeneration, x.phase.account)
  }

  lemma AnswerSound(w: World, k: nat, m: Move, x: Ingest)
    requires k in w.ingests && IngestOk(w, k, w.ingests[k]) && Answer(w, k, m) == Some(x)
    ensures Sound(w, k, x)
  {
  }

  lemma OutsideOk(w: World, k: nat, m: Move, x: Ingest)
    requires k in w.ingests && IngestOk(w, k, w.ingests[k]) && Answer(w, k, m) == Some(x)
    requires m.Examines? || m.Reserves? || m.RollsBack?
    ensures IngestOk(Arrive(w, k, x), k, x)
  {
  }

  lemma LeaseOk(w: World, k: nat, m: Move, x: Ingest)
    requires k in w.ingests && IngestOk(w, k, w.ingests[k]) && Answer(w, k, m) == Some(x) && OwnerKnown(w, x)
    requires m.Locks? || m.Attributes? || m.Checks?
    ensures IngestOk(Arrive(w, k, x), k, x)
  {
  }

  lemma StoreOk(w: World, k: nat, x: Ingest)
    requires k in w.ingests && IngestOk(w, k, w.ingests[k]) && Answer(w, k, Stores) == Some(x)
    ensures IngestOk(Arrive(w, k, x), k, x)
  {
  }

  /** The call's own part of the invariant after its section. */
  lemma AnswerOk(w: World, k: nat, m: Move, x: Ingest)
    requires k in w.ingests && IngestOk(w, k, w.ingests[k]) && Answer(w, k, m) == Some(x) && OwnerKnown(w, x)
    ensures IngestOk(Arrive(w, k, x), k, x)
  {
    match m
    case Stores => StoreOk(w, k, x);
    case Locks => LeaseOk(w, k, m, x);
    case Attributes => LeaseOk(w, k, m, x);
    case Checks => LeaseOk(w, k, m, x);
    case _ => OutsideOk(w, k, m, x);
  }

  // ----- and what it leaves to everybody else -----

  lemma OtherKept(w: World, k: nat, x: Ingest, j: nat)
    requires Sound(w, k, x) && j != k && j in w.ingests && IngestOk(w, j, w.ingests[j])
    requires w.byGate.Keys !! w.reserver.Keys && w.byGate.Keys + w.reserver.Keys == w.seen
    ensures IngestOk(Arrive(w, k, x), j, w.ingests[j])
  {
  }

  lemma AcceptancesKept(w: World, k: nat, x: Ingest)
    requires Sound(w, k, x) && Acceptances(w)
    ensures Acceptances(Arrive(w, k, x))
  {
    var v := Arrive(w, k, x);
    forall d | d in v.acceptor ensures AcceptedBy(v, d, v.acceptor[d]) {
      if d in w.acceptor && !(x.phase.Accepted? && d == x.Digest()) {
        assert AcceptedBy(w, d, w.acceptor[d]);
      }
    }
  }

  lemma ReservationsKept(w: World, k: nat, x: Ingest)
    requires Sound(w, k, x) && Reservations(w)
    ensures Reservations(Arrive(w, k, x))
  {
    var v := Arrive(w, k, x);
    forall d | d in v.reserver
      ensures v.reserver[d] in v.ingests && v.ingests[v.reserver[d]].Holding() && v.ingests[v.reserver[d]].Digest() == d
    {
      if d in w.reserver { assert w.reserver[d] in w.ingests && w.ingests[w.reserver[d]].Digest() == d; }
    }
  }

  lemma DigestsKept(w: World, k: nat, x: Ingest)
    requires Sound(w, k, x) && Digests(w)
    ensures Digests(Arrive(w, k, x))
  {
    ReservationsKept(w, k, x);
    AcceptancesKept(w, k, x);
    SeenKept(w, k, x);
  }

  lemma SeenKept(w: World, k: nat, x: Ingest)
    requires Sound(w, k, x) && w.seen == w.byGate.Keys + w.reserver.Keys && w.byGate.Keys !! w.reserver.Keys
    ensures var v := Arrive(w, k, x); v.seen == v.byGate.Keys + v.reserver.Keys && v.byGate.Keys !! v.reserver.Keys
  {
  }

  /** A newly accepted result joins those of its owner. */
  lemma GateKept(byGate: map<string, ResultKey>, results: set<ResultKey>, d: string, key: ResultKey)
    requires d !in byGate && key !in results && GateSound(byGate, results)
    requires GateOwner(byGate, key.processGeneration, key.account)
    ensures GateSound(byGate[d := key], results + {key})
  {
  }

  lemma StoredKept(w: World, k: nat, x: Ingest)
    requires Sound(w, k, x) && Stored(w) && (x.phase.Accepted? ==> x.Digest() !in w.byGate)
    ensures Stored(Arrive(w, k, x))
  {
    var v := Arrive(w, k, x);
    if x.phase.Accepted? {
      GateKept(w.byGate, w.results.Keys, x.Digest(), KeyOf(x.Outcome()));
      assert v.results.Keys == w.results.Keys + {KeyOf(x.Outcome())};
    }
    forall key | key in v.results ensures ResultOk(v, key, v.results[key]) {
      if key in w.results { assert ResultOk(w, key, w.results[key]); }
    }
  }

  lemma ThreadsKept(w: World, k: nat, x: Ingest)
    requires Sound(w, k, x) && Threads(w) && Digests(w) && IngestOk(Arrive(w, k, x), k, x)
    ensures Threads(Arrive(w, k, x))
  {
    var v := Arrive(w, k, x);
    forall j | j in v.ingests ensures IngestOk(v, j, v.ingests[j]) {
      if j != k { OtherKept(w, k, x, j); }
    }
    forall j | j in v.directs ensures DirectOk(v, v.directs[j]) {
      assert DirectOk(w, w.directs[j]);
    }
  }

  ghost predicate OwnerKnown(w: World, x: Ingest) {
    x.phase.Attributed? ==>
      AdmittedFor(w.join.admissions, x.Outcome())
      && GateOwner(w.byGate, x.summary.serverProcessGeneration, x.phase.account)
  }

  lemma MoveOwner(w: World, k: nat, m: Move, x: Ingest)
    requires Stored(w) && OneRevisionEach(w.join.admissions) && k in w.ingests && Answer(w, k, m) == Some(x)
    ensures OwnerKnown(w, x)
  {
    if x.phase.Attributed? {
      OwnerRead(w, x.summary.serverProcessGeneration, x.summary.revision, x.phase.account);
    }
  }

  lemma MoveStep(w: World, k: nat, m: Move, x: Ingest)
    requires Local(w) && OwnerKnown(w, x) && k in w.ingests && Answer(w, k, m) == Some(x)
    ensures Sound(w, k, x) && Local(Arrive(w, k, x))
  {
    assert IngestOk(w, k, w.ingests[k]);
    AnswerSound(w, k, m, x);
    AnswerOk(w, k, m, x);
    ArriveLocal(w, k, x);
  }

  lemma ArriveLocal(w: World, k: nat, x: Ingest)
    requires Local(w) && Sound(w, k, x) && IngestOk(Arrive(w, k, x), k, x)
    ensures Local(Arrive(w, k, x))
  {
    ThreadsKept(w, k, x);
    DigestsKept(w, k, x);
    StoredKept(w, k, x);
  }

  lemma BeginStep(w: World, k: nat, req: IngestRequest)
    requires Local(w) && k !in w.ingests && w.holder.None?
    ensures Local(Arrive(w, k, Begin(w, req)))
  {
    var x := Begin(w, req);
    ArriveLocal(w, k, x);
  }

  lemma LeaseStep(w: World, op: L.LeaseOp, v: World)
    requires Local(w) && w.leases.Inv() && w.holder.None? && L.Next(w.leases, op).Some?
    requires v == w.(leases := L.Next(w.leases, op).value)
    ensures Local(v) && v.leases.Inv() && L.Later(w.leases, v.leases)
  {
    L.StepInv(w.leases, op);
    L.StepLater(w.leases, op);
    LeasesMoved(w, v);
  }

  lemma ResultsKept(w: World, v: World)
    requires Stored(w) && J.AdmissionsGrow(w.join.admissions, v.join.admissions)
    requires v.results == w.results && v.byGate == w.byGate
    ensures Stored(v)
  {
    forall key | key in v.results ensures ResultOk(v, key, v.results[key]) {
      assert ResultOk(w, key, w.results[key]);
    }
  }

  lemma DirectsKept(w: World, v: World)
    requires Threads(w) && J.AdmissionsGrow(w.join.admissions, v.join.admissions)
    ensures forall k :: k in w.directs && k in v.directs && v.directs[k] == w.directs[k] ==> DirectOk(v, v.directs[k])
  {
    forall k | k in w.directs && k in v.directs && v.directs[k] == w.directs[k] ensures DirectOk(v, v.directs[k]) {
      assert DirectOk(w, w.directs[k]);
    }
  }

  /** Ingestions do not see a step that adds admissions, results or direct calls. */
  lemma IngestsKept(w: World, v: World)
    requires Threads(w) && J.AdmissionsGrow(w.join.admissions, v.join.admissions)
    requires v == w.(join := v.join, results := v.results, directs := v.directs)
    ensures forall k :: k in v.ingests ==> IngestOk(v, k, v.ingests[k])
  {
    forall k | k in v.ingests ensures IngestOk(v, k, v.ingests[k]) {
      assert IngestOk(w, k, w.ingests[k]);
    }
  }

  lemma LeasesMoved(w: World, v: World)
    requires Local(w) && w.holder.None? && L.Later(w.leases, v.leases) && v == w.(leases := v.leases)
    ensures Local(v)
  {
    forall k | k in v.ingests ensures IngestOk(v, k, v.ingests[k]) {
      assert IngestOk(w, k, w.ingests[k]);
    }
    DirectsKept(w, v);
    ResultsKept(w, v);
  }

  lemma JoinMoved(w: World, v: World)
    requires Local(w) && J.AdmissionsGrow(w.join.admissions, v.join.admissions) && v == w.(join := v.join)
    ensures Local(v)
  {
    IngestsKept(w, v);
    DirectsKept(w, v);
    ResultsKept(w, v);
  }

  lemma DirectBeginStep(w: World, k: nat, d: Direct, v: World)
    requires Local(w) && v == w.(directs := w.directs[k := d]) && DirectOk(w, d)
    ensures Local(v)
  {
    IngestsKept(w, v);
    DirectsKept(w, v);
    ResultsKept(w, v);
  }

  /** A direct commit of a checked result keeps the store sound; the gate's results stay. */
  lemma DirectSound(w: World, v: World, r: AttemptResult)
    requires Stored(w) && CheckResult(w.join.admissions, r.processGeneration, r).None? && KeyOf(r) !in w.results
    requires v.results == w.results[KeyOf(r) := r] && v.byGate == w.byGate && v.join == w.join
    ensures Stored(v)
  {
    forall key | key in v.results ensures ResultOk(v, key, v.results[key]) {
      if key in w.results { assert ResultOk(w, key, w.results[key]); }
    }
  }

  lemma DirectStep(w: World, k: nat, e: Option<Refusal>, v: World)
    requires Local(w) && k in w.directs && w.directs[k].Ready?
    requires e.None? ==> KeyOf(w.directs[k].r) !in w.results
    requires v == DirectArrive(w, k, w.directs[k].r, e)
    ensures Local(v)
  {
    assert DirectOk(w, w.directs[k]);
    IngestsKept(w, v);
    DirectsKept(w, v);
    if e.None? { DirectSound(w, v, w.directs[k].r); } else { ResultsKept(w, v); }
  }

  // ----- every step -----

  lemma IngestStep(w: World, k: nat, m: Move, x: Ingest)
    requires OneRevisionEach(w.join.admissions) && Local(w) && k in w.ingests && Answer(w, k, m) == Some(x)
    ensures Sound(w, k, x) && OwnerKnown(w, x) && Local(Arrive(w, k, x))
  {
    MoveOwner(w, k, m, x);
    MoveStep(w, k, m, x);
  }

  lemma ActStep(w: World, a: Act, v: World)
    requires OneRevisionEach(w.join.admissions) && w.leases.Inv() && Local(w) && ActNext(w, a) == Some(v)
    ensures Local(v) && v.leases.Inv() && v.join == w.join
  {
    match a
    case Leases(op) => LeaseStep(w, op, v);
    case IngestBegins(k, req) => BeginStep(w, k, req);
    case IngestMoves(k, m) => IngestStep(w, k, m, Answer(w, k, m).value);
    case DirectBegins(k, g, r) => DirectBeginStep(w, k, v.directs[k], v);
    case DirectCommits(k) => DirectStep(w, k, DirectAnswer(w, w.directs[k]), v);
  }

  lemma ActFrame(w: World, a: Act, v: World)
    requires ActNext(w, a) == Some(v)
    ensures v.join == w.join
  {
  }

  /** What a step finds of the joins: admissions only grew, and still agree. */
  ghost predicate JoinsFine(w: World, v: World) {
    J.AdmissionsGrow(w.join.admissions, v.join.admissions) && OneRevisionEach(v.join.admissions)
  }

  lemma StepInv(w: World, step: Step, v: World)
    requires Inv(w) && Next(w, step) == Some(v) && JoinsFine(w, v)
    ensures Inv(v)
  {
    if step.Joins? { JoinMoved(w, v); } else { ActStep(w, step.a, v); }
  }

  lemma InitInv(w: World)
    requires Init(w)
    ensures Inv(w)
  {
    L.InitInv();
  }

  ghost predicate IsRun(worlds: seq<World>, steps: seq<Step>) {
    |worlds| == |steps| + 1 && Init(worlds[0])
    && forall i :: 0 <= i < |steps| ==> Next(worlds[i], steps[i]) == Some(worlds[i + 1])
  }

  // ----- the joins inside a run -----

  function JoinsOf(worlds: seq<World>): seq<J.State> { seq(|worlds|, i requires 0 <= i < |worlds| => worlds[i].join) }

  function JoinStepsOf(steps: seq<Step>): seq<Option<J.Step>> {
    seq(|steps|, i requires 0 <= i < |steps| => if steps[i].Joins? then Some(steps[i].j) else None)
  }

  lemma JoinMove(w: World, step: Step, v: World)
    requires Next(w, step) == Some(v)
    ensures J.Moves(w.join, if step.Joins? then Some(step.j) else None, v.join)
  {
    if step.Acts? { ActFrame(w, step.a, v); }
  }

  /** Seen from the joins, a run of the result path is a run of theirs. */
  lemma JoinRun(worlds: seq<World>, steps: seq<Step>)
    requires IsRun(worlds, steps)
    ensures J.IsRun(JoinsOf(worlds), JoinStepsOf(steps))
  {
    forall i | 0 <= i < |steps|
      ensures J.Moves(JoinsOf(worlds)[i], JoinStepsOf(steps)[i], JoinsOf(worlds)[i + 1])
    {
      JoinMove(worlds[i], steps[i], worlds[i + 1]);
    }
  }

  lemma OneRevisionHolds(j: J.State)
    requires J.Inv(j)
    ensures OneRevisionEach(j.admissions)
  {
    J.FactsHold(j);
    forall a, b | a in j.admissions && b in j.admissions && a.generation == b.generation
      ensures j.admissions[a] == j.admissions[b]
    {
      J.AdmissionsAgree(j, a, b);
    }
  }

  lemma JoinsBehave(worlds: seq<World>, steps: seq<Step>, i: nat)
    requires IsRun(worlds, steps) && i < |steps|
    ensures JoinsFine(worlds[i], worlds[i + 1])
  {
    JoinRun(worlds, steps);
    var joins := JoinsOf(worlds);
    J.RunInv(joins, JoinStepsOf(steps));
    assert J.Inv(joins[i + 1]) && J.Moved(joins[i], joins[i + 1]);
    OneRevisionHolds(joins[i + 1]);
  }

  lemma RunStep(worlds: seq<World>, steps: seq<Step>, i: nat)
    requires IsRun(worlds, steps) && i < |steps| && forall j :: 0 <= j <= i ==> Inv(worlds[j])
    ensures Inv(worlds[i + 1])
  {
    JoinsBehave(worlds, steps, i);
    StepInv(worlds[i], steps[i], worlds[i + 1]);
  }

  lemma RunInv(worlds: seq<World>, steps: seq<Step>)
    requires IsRun(worlds, steps)
    ensures forall i :: 0 <= i < |worlds| ==> Inv(worlds[i])
  {
    InitInv(worlds[0]);
    for i := 0 to |steps|
      invariant forall j :: 0 <= j <= i ==> Inv(worlds[j])
    {
      RunStep(worlds, steps, i);
    }
  }

  // ----- the digest set -----

  ghost predicate HeldBy(w: World, d: string, k: nat) {
    k in w.ingests && w.ingests[k].Digest() == d && (w.ingests[k].Holding() || w.ingests[k].phase.Accepted?)
  }

  lemma DigestHolders(w: World, d: string)
    requires Threads(w) && Digests(w)
    ensures d in w.seen <==> exists k :: HeldBy(w, d, k)
    ensures forall j, k :: HeldBy(w, d, j) && HeldBy(w, d, k) ==> j == k
    ensures d in w.byGate <==> exists k :: HeldBy(w, d, k) && w.ingests[k].phase.Accepted?
  {
    if d in w.byGate { assert HeldBy(w, d, w.acceptor[d]); }
    if d in w.reserver { assert HeldBy(w, d, w.reserver[d]); }
    forall k | HeldBy(w, d, k)
      ensures d in w.seen && (w.ingests[k].phase.Accepted? <==> d in w.byGate)
      ensures k == if d in w.byGate then w.acceptor[d] else w.reserver[d]
    {
      assert IngestOk(w, k, w.ingests[k]);
    }
  }

  /** Over every run the digest set is exactly the accepted digests and those reserved by calls in
      flight; each has one holder, so it is never both. */
  lemma DigestSetExact(worlds: seq<World>, steps: seq<Step>, i: nat, d: string)
    requires IsRun(worlds, steps) && i < |worlds|
    ensures d in worlds[i].seen <==> exists k :: HeldBy(worlds[i], d, k)
    ensures forall j, k :: HeldBy(worlds[i], d, j) && HeldBy(worlds[i], d, k) ==> j == k
    ensures d in worlds[i].byGate <==> exists k :: HeldBy(worlds[i], d, k) && worlds[i].ingests[k].phase.Accepted?
  {
    RunInv(worlds, steps);
    DigestHolders(worlds[i], d);
  }

  /** The step refuses the call as a duplicate; it held no reservation. */
  ghost predicate RefusedDuplicate(w: World, step: Step, v: World, k: nat) {
    step.Acts? && step.a.IngestMoves? && step.a.k == k && k in w.ingests && !w.ingests[k].phase.Failing?
    && k in v.ingests && v.ingests[k].phase == Refused(Duplicate)
  }

  lemma DuplicateHeld(w: World, k: nat, m: Move)
    requires Threads(w) && Digests(w) && k in w.ingests && !w.ingests[k].phase.Failing?
    requires Answer(w, k, m).Some? && Answer(w, k, m).value.phase == Refused(Duplicate)
    ensures exists j :: j != k && HeldBy(w, w.ingests[k].Digest(), j)
  {
    var d := w.ingests[k].Digest();
    DigestHolders(w, d);
    var j :| HeldBy(w, d, j);
    assert j != k;
  }

  lemma DuplicateStep(w: World, step: Step, v: World, k: nat)
    requires Next(w, step) == Some(v) && RefusedDuplicate(w, step, v, k)
    ensures Answer(w, k, step.a.m).Some? && Answer(w, k, step.a.m).value.phase == Refused(Duplicate)
  {
  }

  /** A call is refused as a duplicate only while another call holds, or has had accepted, the very
      same artifact; the holder may still fail. */
  lemma DuplicateMeansHeld(worlds: seq<World>, steps: seq<Step>, i: nat, k: nat)
    requires IsRun(worlds, steps) && i < |steps| && RefusedDuplicate(worlds[i], steps[i], worlds[i + 1], k)
    ensures exists j :: j != k && HeldBy(worlds[i], worlds[i].ingests[k].Digest(), j)
  {
    RunInv(worlds, steps);
    DuplicateStep(worlds[i], steps[i], worlds[i + 1], k);
    DuplicateHeld(worlds[i], k, steps[i].a.m);
  }

  lemma RollbackShape(w: World, k: nat, v: World)
    requires Next(w, Acts(IngestMoves(k, RollsBack))) == Some(v)
    ensures k in w.ingests && w.ingests[k].phase.Failing? && v.seen == w.seen - {w.ingests[k].Digest()}
    ensures v.byGate == w.byGate && v.results == w.results
  {
  }

  lemma RollbackOwn(w: World, k: nat)
    requires Threads(w) && Digests(w) && k in w.ingests && w.ingests[k].Holding()
    ensures w.ingests[k].Digest() in w.seen && w.ingests[k].Digest() !in w.byGate
  {
    assert IngestOk(w, k, w.ingests[k]);
  }

  /** Over every run a rollback gives up the call's own reservation and nothing else: no accepted
      digest, and no result. */
  lemma RollbackExact(worlds: seq<World>, steps: seq<Step>, i: nat, k: nat)
    requires IsRun(worlds, steps) && i < |steps| && steps[i] == Acts(IngestMoves(k, RollsBack))
    ensures k in worlds[i].ingests
    ensures var w, v := worlds[i], worlds[i + 1];
            var d := w.ingests[k].Digest();
            d in w.seen && v.seen == w.seen - {d} && d !in w.byGate && v.byGate == w.byGate && v.results == w.results
  {
    RunInv(worlds, steps);
    RollbackShape(worlds[i], k, worlds[i + 1]);
    RollbackOwn(worlds[i], k);
  }

  lemma GatePairs(w: World, d: string, e: string)
    requires Stored(w) && d in w.byGate && e in w.byGate
    ensures w.byGate[d] in w.results && (w.byGate[d] == w.byGate[e] <==> d == e)
    ensures w.byGate[d].processGeneration == w.byGate[e].processGeneration
            ==> w.byGate[d].account == w.byGate[e].account
  {
    assert GateOwner(w.byGate, w.byGate[d].processGeneration, w.byGate[d].account);
  }

  /** Over every run accepted digests and gate-stored results are one-to-one: distinct artifacts
      stored distinct results. */
  lemma DigestsMatchResults(worlds: seq<World>, steps: seq<Step>, i: nat, d: string, e: string)
    requires IsRun(worlds, steps) && i < |worlds| && d in worlds[i].byGate && e in worlds[i].byGate
    ensures var a, b := worlds[i].byGate[d], worlds[i].byGate[e];
            && a in worlds[i].results && (a == b <==> d == e)
            && (a.processGeneration == b.processGeneration ==> a.account == b.account)
            && ((a.processGeneration == b.processGeneration && a.attemptGeneration == b.attemptGeneration) <==> d == e)
  {
    RunInv(worlds, steps);
    GatePairs(worlds[i], d, e);
  }

  // ----- where a result comes from -----

  /** In every run, every stored result belongs to an account that consumed a join intent for that
      process generation and revision, and the intent was issued at a moment when its preparation
      was ready with that revision, its Allocate call had handed out the process of that generation
      as ready, and the account held a slot it was entitled to. */
  lemma ResultsEarned(worlds: seq<World>, steps: seq<Step>, i: nat, key: ResultKey)
    returns (id: nat, u: nat, prep: nat)
    requires IsRun(worlds, steps) && i < |worlds| && key in worlds[i].results
    ensures var r := worlds[i].results[key];
            && KeyOf(r) == key && r.account != ""
            && J.Grants(worlds[i].join, id, AdmissionKey(r.account, r.processGeneration), r.revision)
            && u <= i && J.HeldSlot(worlds[u].join, prep, r.account, r.revision, r.processGeneration)
            && R.ProcessReady(worlds[u].join.runs, prep, r.processGeneration)
            && A.Entitled(worlds[u].join.access, prep, r.account)
  {
    RunInv(worlds, steps);
    var r := worlds[i].results[key];
    assert ResultOk(worlds[i], key, r);
    JoinRun(worlds, steps);
    var joins := JoinsOf(worlds);
    assert joins[i].admissions == worlds[i].join.admissions;
    id, u, prep := J.AdmissionsEarned(joins, JoinStepsOf(steps), i, AdmissionKey(r.account, r.processGeneration));
    assert joins[u] == worlds[u].join;
  }

  // ----- the lease behind a stored result -----

  /** The gate stores call k's result in this step. */
  predicate GateStores(w: World, step: Step, k: nat) {
    step == Acts(IngestMoves(k, Stores)) && k in w.ingests && w.ingests[k].phase.Checked?
    && KeyOf(w.ingests[k].Outcome()) !in w.results
  }

  lemma StoreShape(w: World, step: Step, v: World, k: nat)
    requires Next(w, step) == Some(v) && GateStores(w, step, k)
    ensures var r := w.ingests[k].Outcome(); v.results == w.results[KeyOf(r) := r] && v.leases == w.leases
  {
  }

  /** Over every run: at the step that stores a gate result, the presented credential authenticates
      the participant the result is bound to, however long ago it was first authenticated. */
  lemma StoredUnderLease(worlds: seq<World>, steps: seq<Step>, i: nat, k: nat)
    requires IsRun(worlds, steps) && i < |steps| && GateStores(worlds[i], steps[i], k)
    ensures var w, v, x := worlds[i], worlds[i + 1], worlds[i].ingests[k];
            && w.leases.Authenticate(x.req.credential) == Ok(x.participant)
            && x.participant.generation == x.Outcome().processGeneration
            && v.results == w.results[KeyOf(x.Outcome()) := x.Outcome()]
  {
    RunInv(worlds, steps);
    StoreShape(worlds[i], steps[i], worlds[i + 1], k);
    HolderAuthenticates(worlds[i], k);
  }

  lemma HolderAuthenticates(w: World, k: nat)
    requires Threads(w) && k in w.ingests && w.ingests[k].Named() && w.ingests[k].InLease()
    ensures var x := w.ingests[k];
            w.leases.Authenticate(x.req.credential) == Ok(x.participant)
            && x.participant.generation == x.Outcome().processGeneration
  {
    assert IngestOk(w, k, w.ingests[k]);
  }

  /** A step that adds a result of this generation. */
  predicate Adds(w: World, v: World, generation: nat) {
    exists key :: key in v.results && key !in w.results && key.processGeneration == generation
  }

  predicate IssuesFor(step: Step, generation: nat) {
    step.Acts? && step.a.Leases? && step.a.op.OpIssue? && step.a.op.generation == generation
  }

  /** The direct call k stores its result in this step. */
  predicate DirectStores(w: World, a: Act, k: nat) {
    a == DirectCommits(k) && k in w.directs && w.directs[k].Ready? && DirectAnswer(w, w.directs[k]).None?
  }

  lemma ArriveResults(w: World, k: nat, m: Move, x: Ingest)
    requires k in w.ingests && Answer(w, k, m) == Some(x)
    ensures Arrive(w, k, x).results == w.results
            || (GateStores(w, Acts(IngestMoves(k, m)), k)
                && Arrive(w, k, x).results == w.results[KeyOf(w.ingests[k].Outcome()) := w.ingests[k].Outcome()])
    ensures Arrive(w, k, x).leases == w.leases
  {
  }

  /** The acts that store a result, and what each stores. */
  lemma ResultsMove(w: World, a: Act, v: World)
    requires ActNext(w, a) == Some(v) && v.results != w.results
    ensures (a.IngestMoves? && GateStores(w, Acts(a), a.k)
             && v.results == w.results[KeyOf(w.ingests[a.k].Outcome()) := w.ingests[a.k].Outcome()])
            || (a.DirectCommits? && DirectStores(w, a, a.k)
                && v.results == w.results[KeyOf(w.directs[a.k].r) := w.directs[a.k].r])
  {
    if a.IngestMoves? { ArriveResults(w, a.k, a.m, Answer(w, a.k, a.m).value); }
  }

  lemma LeasesMove(w: World, a: Act, v: World)
    requires ActNext(w, a) == Some(v) && v.leases != w.leases
    ensures a.Leases? && L.Next(w.leases, a.op) == Some(v.leases)
  {
  }

  // ----- every stored result came through the gate or by a direct commit -----

  /** An accepted artifact stored this result. */
  ghost predicate FromGate(byGate: map<string, ResultKey>, key: ResultKey) {
    exists d :: d in byGate && byGate[d] == key
  }

  lemma GateGrows(byGate: map<string, ResultKey>, d: string, stored: ResultKey, key: ResultKey)
    requires d !in byGate
    ensures FromGate(byGate[d := stored], stored)
    ensures FromGate(byGate, key) ==> FromGate(byGate[d := stored], key)
  {
    assert byGate[d := stored][d] == stored;
    if FromGate(byGate, key) {
      var e :| e in byGate && byGate[e] == key;
      assert byGate[d := stored][e] == key;
    }
  }

  /** A direct commit stores this result in this step. */
  predicate DirectStored(w: World, step: Step, key: ResultKey) {
    step.Acts? && step.a.DirectCommits? && DirectStores(w, step.a, step.a.k) && KeyOf(w.directs[step.a.k].r) == key
  }

  lemma ArriveGate(w: World, k: nat, m: Move, x: Ingest)
    requires k in w.ingests && Answer(w, k, m) == Some(x)
    ensures var v := Arrive(w, k, x);
            if x.phase.Accepted?
            then v.byGate == w.byGate[x.Digest() := KeyOf(x.Outcome())]
                 && v.results.Keys == w.results.Keys + {KeyOf(x.Outcome())}
                 && w.ingests[k].Holding() && x.Digest() == w.ingests[k].Digest()
            else v.byGate == w.byGate && v.results == w.results
  {
  }

  /** A step of one ingestion: what it adds came through the gate, and nothing is forgotten. */
  lemma GateMoves(w: World, k: nat, m: Move, x: Ingest, key: ResultKey)
    requires Threads(w) && Digests(w) && k in w.ingests && Answer(w, k, m) == Some(x)
    ensures key in Arrive(w, k, x).results ==> key in w.results || FromGate(Arrive(w, k, x).byGate, key)
    ensures FromGate(w.byGate, key) ==> FromGate(Arrive(w, k, x).byGate, key)
  {
    ArriveGate(w, k, m, x);
    if x.phase.Accepted? {
      RollbackOwn(w, k);
      GateGrows(w.byGate, x.Digest(), KeyOf(x.Outcome()), key);
    }
  }

  lemma OthersGate(w: World, a: Act, v: World)
    requires ActNext(w, a) == Some(v) && !a.IngestMoves?
    ensures v.byGate == w.byGate
    ensures forall key :: key in v.results ==> key in w.results || DirectStored(w, Acts(a), key)
  {
  }

  lemma GateStep(w: World, step: Step, v: World, key: ResultKey)
    requires Threads(w) && Digests(w) && Next(w, step) == Some(v)
    ensures key in v.results ==> key in w.results || DirectStored(w, step, key) || FromGate(v.byGate, key)
    ensures FromGate(w.byGate, key) ==> FromGate(v.byGate, key)
  {
    if step.Acts? {
      if step.a.IngestMoves? {
        GateMoves(w, step.a.k, step.a.m, Answer(w, step.a.k, step.a.m).value, key);
      } else {
        OthersGate(w, step.a, v);
      }
    }
  }

  lemma GateNext(worlds: seq<World>, steps: seq<Step>, i: nat, key: ResultKey)
    requires IsRun(worlds, steps) && i < |steps| && !DirectStored(worlds[i], steps[i], key)
    requires key in worlds[i].results ==> FromGate(worlds[i].byGate, key)
    ensures key in worlds[i + 1].results ==> FromGate(worlds[i + 1].byGate, key)
  {
    RunInv(worlds, steps);
    GateStep(worlds[i], steps[i], worlds[i + 1], key);
  }

  /** Over every run a stored result that no direct commit stored came through the gate. */
  lemma StoredThroughGate(worlds: seq<World>, steps: seq<Step>, i: nat, key: ResultKey) returns (d: string)
    requires IsRun(worlds, steps) && i < |worlds| && key in worlds[i].results
    requires forall j :: 0 <= j < i ==> !DirectStored(worlds[j], steps[j], key)
    ensures d in worlds[i].byGate && worlds[i].byGate[d] == key
  {
    for j := 0 to i
      invariant key in worlds[j].results ==> FromGate(worlds[j].byGate, key)
    {
      GateNext(worlds, steps, j, key);
    }
    d :| d in worlds[i].byGate && worlds[i].byGate[d] == key;
  }

  /** Over every run the results of one process generation that no direct commit stored belong to one
      account, and there is at most one of them per attempt generation, across all accounts. */
  lemma OneResultPerAttempt(worlds: seq<World>, steps: seq<Step>, i: nat, a: ResultKey, b: ResultKey)
    requires IsRun(worlds, steps) && i < |worlds| && a in worlds[i].results && b in worlds[i].results
    requires forall j :: 0 <= j < i ==> !DirectStored(worlds[j], steps[j], a) && !DirectStored(worlds[j], steps[j], b)
    ensures a.processGeneration == b.processGeneration ==> a.account == b.account
    ensures a.processGeneration == b.processGeneration && a.attemptGeneration == b.attemptGeneration ==> a == b
  {
    var d := StoredThroughGate(worlds, steps, i, a);
    var e := StoredThroughGate(worlds, steps, i, b);
    DigestsMatchResults(worlds, steps, i, d, e);
  }

  /** So when every result enters through the gate, at most one is ever stored per process generation
      and attempt generation. */
  lemma OneResultThroughGate(worlds: seq<World>, steps: seq<Step>, i: nat, a: ResultKey, b: ResultKey)
    requires IsRun(worlds, steps) && i < |worlds| && a in worlds[i].results && b in worlds[i].results
    requires forall j :: 0 <= j < i ==> !(steps[j].Acts? && steps[j].a.DirectCommits?)
    requires a.processGeneration == b.processGeneration && a.attemptGeneration == b.attemptGeneration
    ensures a == b && worlds[i].results[a] == worlds[i].results[b]
  {
    OneResultPerAttempt(worlds, steps, i, a, b);
  }

  /** Only the gate's store and the direct commit add a result, and both need the lease of its
      generation to be active and unrevoked. */
  lemma AddNeedsLease(w: World, a: Act, v: World, generation: nat)
    requires Threads(w) && ActNext(w, a) == Some(v) && Adds(w, v, generation)
    ensures w.leases.CommitLease(generation).Ok?
  {
    ResultsMove(w, a, v);
    if a.IngestMoves? {
      HolderAuthenticates(w, a.k);
    } else {
      assert DirectOk(w, w.directs[a.k]);
    }
  }

  lemma AddStep(w: World, step: Step, v: World, generation: nat)
    requires Threads(w) && Next(w, step) == Some(v) && w.leases.CommitLease(generation).Err?
    ensures !Adds(w, v, generation)
  {
    if Adds(w, v, generation) && step.Acts? { AddNeedsLease(w, step.a, v, generation); }
  }

  lemma FencedUntilIssue(worlds: seq<World>, steps: seq<Step>, i: nat, j: nat, generation: nat)
    requires IsRun(worlds, steps) && i < j < |worlds| && steps[i] == Acts(Leases(L.OpRevoke(generation)))
    requires forall k :: i < k < j ==> !IssuesFor(steps[k], generation)
    ensures worlds[j].leases.CommitLease(generation).Err?
  {
    RevocationExact(worlds, steps, i, j, generation);
  }

  /** Between a revocation of a generation and the next lease issued for it, no result of that
      generation is stored, by the gate or directly, whatever was authenticated before. */
  lemma NothingStoredWhileRevoked(worlds: seq<World>, steps: seq<Step>, i: nat, j: nat, generation: nat)
    requires IsRun(worlds, steps) && i < j < |steps| && steps[i] == Acts(Leases(L.OpRevoke(generation)))
    requires forall k :: i < k < j ==> !IssuesFor(steps[k], generation)
    ensures !Adds(worlds[j], worlds[j + 1], generation)
  {
    RunInv(worlds, steps);
    FencedUntilIssue(worlds, steps, i, j, generation);
    AddStep(worlds[j], steps[j], worlds[j + 1], generation);
  }

  predicate RevokesFor(step: Step, generation: nat) { step == Acts(Leases(L.OpRevoke(generation))) }

  /** Some step after i and before j issues a lease for the generation, and no later one before j
      revokes it. */
  ghost predicate Reopened(steps: seq<Step>, i: nat, j: nat, generation: nat)
    requires j <= |steps|
  {
    exists m :: i < m < j && IssuesFor(steps[m], generation)
                && forall n :: m < n < j ==> !RevokesFor(steps[n], generation)
  }

  /** An issue opens the generation, a revocation closes it, anything else leaves it. */
  lemma FenceMoves(l: L.Leases, op: L.LeaseOp, generation: nat)
    requires L.Next(l, op).Some? && l.Filed()
    ensures L.Next(l, op).value.CommitLease(generation).Ok?
            <==> (op.OpIssue? && op.generation == generation)
                 || (op != L.OpRevoke(generation) && l.CommitLease(generation).Ok?)
  {
  }

  lemma FenceNext(w: World, step: Step, v: World, generation: nat)
    requires Next(w, step) == Some(v) && w.leases.Filed()
    ensures v.leases.CommitLease(generation).Ok?
            <==> IssuesFor(step, generation)
                 || (!RevokesFor(step, generation) && w.leases.CommitLease(generation).Ok?)
  {
    if step.Acts? {
      if step.a.Leases? {
        FenceMoves(w.leases, step.a.op, generation);
      } else if v.leases != w.leases {
        LeasesMove(w, step.a, v);
      }
    }
  }

  lemma ReopenedNext(steps: seq<Step>, i: nat, j: nat, generation: nat)
    requires i < j < |steps|
    ensures Reopened(steps, i, j + 1, generation)
            <==> IssuesFor(steps[j], generation)
                 || (!RevokesFor(steps[j], generation) && Reopened(steps, i, j, generation))
  {
    if !RevokesFor(steps[j], generation) && Reopened(steps, i, j, generation) {
      var m :| i < m < j && IssuesFor(steps[m], generation)
               && forall n :: m < n < j ==> !RevokesFor(steps[n], generation);
      assert forall n :: m < n < j + 1 ==> !RevokesFor(steps[n], generation);
    }
  }

  lemma FenceRun(worlds: seq<World>, steps: seq<Step>, j: nat, generation: nat)
    requires IsRun(worlds, steps) && j < |steps|
    ensures worlds[j + 1].leases.CommitLease(generation).Ok?
            <==> IssuesFor(steps[j], generation)
                 || (!RevokesFor(steps[j], generation) && worlds[j].leases.CommitLease(generation).Ok?)
  {
    RunInv(worlds, steps);
    FenceNext(worlds[j], steps[j], worlds[j + 1], generation);
  }

  /** A revocation fences its generation until the next lease issued for it, and no longer: at any
      later moment a commit may run exactly when a lease was issued since and not revoked since. */
  lemma RevocationExact(worlds: seq<World>, steps: seq<Step>, i: nat, j: nat, generation: nat)
    requires IsRun(worlds, steps) && i < j < |worlds| && RevokesFor(steps[i], generation)
    ensures worlds[j].leases.CommitLease(generation).Ok? <==> Reopened(steps, i, j, generation)
  {
    FenceRun(worlds, steps, i, generation);
    for m := i + 1 to j
      invariant worlds[m].leases.CommitLease(generation).Ok? <==> Reopened(steps, i, m, generation)
    {
      FenceRun(worlds, steps, m, generation);
      ReopenedNext(steps, i, m, generation);
    }
  }

  ghost predicate Stopped(w: World, credential: string) {
    credential in w.leases.records && !w.leases.Authenticates(credential)
  }

  lemma StoppedStep(w: World, step: Step, v: World, credential: string)
    requires w.leases.Inv() && Next(w, step) == Some(v) && Stopped(w, credential)
    ensures Stopped(v, credential)
  {
    if step.Acts? && v.leases != w.leases {
      LeasesMove(w, step.a, v);
      L.StepLater(w.leases, step.a.op);
    }
  }

  lemma StoppedStores(w: World, step: Step, v: World, k: nat)
    requires Threads(w) && GateStores(w, step, k)
    ensures !Stopped(w, w.ingests[k].req.credential)
  {
    HolderAuthenticates(w, k);
  }

  /** The gate never stores under a credential that has stopped authenticating. */
  lemma StoppedNeverStores(worlds: seq<World>, steps: seq<Step>, i: nat, j: nat, k: nat)
    requires IsRun(worlds, steps) && i <= j < |steps| && GateStores(worlds[j], steps[j], k)
    ensures !Stopped(worlds[i], worlds[j].ingests[k].req.credential)
  {
    RunInv(worlds, steps);
    var c := worlds[j].ingests[k].req.credential;
    if Stopped(worlds[i], c) {
      for n := i to j
        invariant Stopped(worlds[n], c)
      {
        StoppedStep(worlds[n], steps[n], worlds[n + 1], c);
      }
      StoppedStores(worlds[j], steps[j], worlds[j + 1], k);
    }
  }

  /** In particular never under one that a later issue for its generation superseded. */
  lemma SupersededNeverStores(worlds: seq<World>, steps: seq<Step>, i: nat, j: nat, k: nat, c: string)
    requires IsRun(worlds, steps) && i < j < |steps| && GateStores(worlds[j], steps[j], k)
    requires c in worlds[i].leases.records && IssuesFor(steps[i], worlds[i].leases.records[c].generation)
    ensures worlds[j].ingests[k].req.credential != c
  {
    RunInv(worlds, steps);
    Supersedes(worlds[i], steps[i], worlds[i + 1], c);
    StoppedNeverStores(worlds, steps, i + 1, j, k);
  }

  lemma Supersedes(w: World, step: Step, v: World, c: string)
    requires Next(w, step) == Some(v) && c in w.leases.records && IssuesFor(step, w.leases.records[c].generation)
    ensures Stopped(v, c)
  {
    SupersededBy(w.leases, step.a.op, c);
  }

  lemma SupersededBy(l: L.Leases, op: L.LeaseOp, c: string)
    requires L.Next(l, op).Some? && op.OpIssue? && c in l.records && l.records[c].generation == op.generation
    ensures c in L.Next(l, op).value.records && !L.Next(l, op).value.Authenticates(c)
  {
  }

  /** The direct path is fenced by the generation's lease, not by the credential its participant
      presented: a re-issue, which supersedes that credential, never makes it refuse the lease. */
  lemma DirectOutlivesCredential(w: World, op: L.LeaseOp, v: World, k: nat)
    requires w.leases.Inv() && ActNext(w, Leases(op)) == Some(v) && IssuesFor(Acts(Leases(op)), op.generation)
    requires k in w.directs && w.directs[k].Ready? && w.directs[k].generation == op.generation
    ensures DirectAnswer(v, v.directs[k]) == if KeyOf(w.directs[k].r) in w.results then Some(AlreadyAccepted) else None
  {
  }

  // ----- refinement: the interleaving against atomic ingestions -----

  /** The call inside the lease lock has read its account and will store: its result is new. */
  predicate Wins(w: World, k: nat) {
    k in w.ingests && w.ingests[k].InLease() && w.ingests[k].Named()
    && w.ingests[k].phase.account != "" && KeyOf(w.ingests[k].Outcome()) !in w.results
  }

  predicate Pending(w: World) { w.holder.Some? && Wins(w, w.holder.value) }

  /** The atomic state a world stands for: a result counts from the moment its commit read the
      admission. */
  function Abs(w: World): Ideal {
    if Pending(w) then
      var x := w.ingests[w.holder.value];
      Ideal(w.leases, w.join.admissions, w.results[KeyOf(x.Outcome()) := x.Outcome()], w.byGate.Keys + {x.Digest()})
    else Ideal(w.leases, w.join.admissions, w.results, w.byGate.Keys)
  }

  /** The atomic events: lease operations, admissions, whole ingestions and whole direct calls. */
  datatype Event =
    | EvLease(op: L.LeaseOp)
    | EvAdmit(key: AdmissionKey, revision: string)
    | EvIngest(k: nat, req: IngestRequest)
    | EvDirect(k: nat, generation: nat, r: AttemptResult)

  ghost function Do(s: Ideal, e: Event): Ideal {
    match e
    case EvLease(op) => if L.Next(s.leases, op).None? then s else s.(leases := L.Next(s.leases, op).value)
    case EvAdmit(key, revision) => s.(admissions := s.admissions[key := revision])
    case EvIngest(_, req) => IngestAtomically(s, req).0
    case EvDirect(_, generation, r) => AcceptAtomically(s, generation, r).0
  }

  /** The atomic run refuses nothing it is asked to do. */
  ghost predicate Succeeds(s: Ideal, e: Event) {
    match e
    case EvLease(op) => L.Next(s.leases, op).Some?
    case EvAdmit(_, _) => true
    case EvIngest(_, req) => IngestAtomically(s, req).1.None?
    case EvDirect(_, generation, r) => AcceptAtomically(s, generation, r).1.None?
  }

  function JoinEvent(j: J.State, step: J.Step): Option<Event> {
    if step.Consumes? && step.c.ConsumeAdmits? && step.k in j.consumes && j.consumes[step.k].Used?
       && j.consumes[step.k].id in j.intents
    then
      var i := j.intents[j.consumes[step.k].id];
      Some(EvAdmit(AdmissionKey(i.account, i.generation), i.revision))
    else None
  }

  /** The event of an act leading from w to v. */
  function ActEvent(w: World, a: Act, v: World): Option<Event> {
    match a
    case Leases(op) => Some(EvLease(op))
    case IngestMoves(k, m) =>
      if m.Attributes? && Wins(v, k) && k in w.ingests then Some(EvIngest(k, w.ingests[k].req)) else None
    case DirectCommits(k) =>
      if DirectStores(w, a, k) then Some(EvDirect(k, w.directs[k].generation, w.directs[k].r)) else None
    case _ => None
  }

  /** The event a step is, if it is one. An ingestion happens where its commit reads the admission
      and goes on to win. */
  function EventOf(w: World, step: Step, v: World): Option<Event> {
    match step
    case Joins(j) => JoinEvent(w.join, j)
    case Acts(a) => ActEvent(w, a, v)
  }

  ghost predicate Refines(w: World, e: Option<Event>, v: World) {
    Takes(Abs(w), e, Abs(v))
  }

  /** The event, if any, succeeds in s and leads to t; no event, no change. */
  ghost predicate Takes(s: Ideal, e: Option<Event>, t: Ideal) {
    if e.None? then t == s else Succeeds(s, e.value) && t == Do(s, e.value)
  }

  lemma AdmitsExactly(j: J.State, step: J.Step, t: J.State)
    requires J.Next(j, step) == Some(t)
    ensures var e := JoinEvent(j, step);
            if e.None? then t.admissions == j.admissions
            else e.value.EvAdmit? && t.admissions == j.admissions[e.value.key := e.value.revision]
  {
    if step.Issues? { J.SettleFrame(j, step.k, J.IssueAnswer(j, step.k, step.i).value); }
  }

  lemma JoinRefines(w: World, v: World, e: Option<Event>)
    requires v == w.(join := v.join)
    requires if e.None? then v.join.admissions == w.join.admissions
             else e.value.EvAdmit? && v.join.admissions == w.join.admissions[e.value.key := e.value.revision]
    ensures Refines(w, e, v)
  {
  }

  /** An ingestion whose commit has just read its account and will store it does exactly what the
      atomic ingestion does at this moment. */
  lemma WinnerIsAtomic(w: World, k: nat, account: string)
    requires k in w.ingests && IngestOk(w, k, w.ingests[k]) && w.ingests[k].phase.Locked?
    requires w.ingests[k].Digest() !in w.byGate
    requires var x := w.ingests[k];
             Attribute(w.join.admissions, x.summary.serverProcessGeneration, x.summary.revision) == Ok(account)
    requires account != "" && KeyOf(ResultFor(account, w.ingests[k].summary)) !in w.results
    requires AdmittedFor(w.join.admissions, ResultFor(account, w.ingests[k].summary))
    ensures var x, s := w.ingests[k], Ideal(w.leases, w.join.admissions, w.results, w.byGate.Keys);
            var r := ResultFor(account, x.summary);
            IngestAtomically(s, x.req)
            == (s.(results := s.results[KeyOf(r) := r], accepted := s.accepted + {x.Digest()}), None)
  {
    var x, s := w.ingests[k], Ideal(w.leases, w.join.admissions, w.results, w.byGate.Keys);
    assert w.leases.Authenticate(x.req.credential) == Ok(x.participant);
    InspectExact(x.req, x.participant.generation);
    assert Examine(s.leases, s.accepted, x.req) == Ok((x.participant, x.summary));
  }

  /** Sections outside the lease lock, and the one that enters it. */
  lemma OutsideRefines(w: World, k: nat, x: Ingest)
    requires Sound(w, k, x) && Threads(w) && !(k in w.ingests && w.ingests[k].InLease())
    requires !x.Named()
    ensures Abs(Arrive(w, k, x)) == Abs(w)
  {
  }

  lemma AttributesRefines(w: World, k: nat, x: Ingest)
    requires Threads(w) && w.byGate.Keys !! w.reserver.Keys
    requires OwnerKnown(w, x) && k in w.ingests && Answer(w, k, Attributes) == Some(x)
    ensures Refines(w, ActEvent(w, IngestMoves(k, Attributes), Arrive(w, k, x)), Arrive(w, k, x))
  {
    assert IngestOk(w, k, w.ingests[k]);
    if x.phase.Attributed? && Wins(Arrive(w, k, x), k) {
      WinnerIsAtomic(w, k, x.phase.account);
    }
  }

  lemma ChecksRefines(w: World, k: nat, x: Ingest)
    requires Threads(w) && k in w.ingests && Answer(w, k, Checks) == Some(x)
    ensures Abs(Arrive(w, k, x)) == Abs(w)
  {
    assert IngestOk(w, k, w.ingests[k]);
    InspectExact(x.req, x.participant.generation);
  }

  lemma StoresRefines(w: World, k: nat, x: Ingest)
    requires Threads(w) && k in w.ingests && Answer(w, k, Stores) == Some(x)
    ensures Abs(Arrive(w, k, x)) == Abs(w)
  {
    assert IngestOk(w, k, w.ingests[k]);
  }

  lemma MoveRefines(w: World, k: nat, m: Move, x: Ingest)
    requires Threads(w) && w.byGate.Keys !! w.reserver.Keys
    requires Sound(w, k, x) && OwnerKnown(w, x) && k in w.ingests && Answer(w, k, m) == Some(x)
    ensures Refines(w, ActEvent(w, IngestMoves(k, m), Arrive(w, k, x)), Arrive(w, k, x))
  {
    match m
    case Attributes => AttributesRefines(w, k, x);
    case Checks => ChecksRefines(w, k, x);
    case Stores => StoresRefines(w, k, x);
    case _ => OutsideRefines(w, k, x);
  }

  lemma DirectRefines(w: World, k: nat, v: World)
    requires Threads(w) && ActNext(w, DirectCommits(k)) == Some(v)
    ensures Refines(w, ActEvent(w, DirectCommits(k), v), v)
  {
    assert DirectOk(w, w.directs[k]);
  }

  lemma LeaseRefines(w: World, op: L.LeaseOp, v: World)
    requires ActNext(w, Leases(op)) == Some(v)
    ensures Refines(w, ActEvent(w, Leases(op), v), v)
  {
  }

  lemma ActRefines(w: World, a: Act, v: World)
    requires Inv(w) && ActNext(w, a) == Some(v)
    ensures Refines(w, ActEvent(w, a, v), v)
  {
    match a
    case Leases(op) => LeaseRefines(w, op, v);
    case IngestBegins(k, req) => OutsideRefines(w, k, Begin(w, req));
    case IngestMoves(k, m) =>
      IngestStep(w, k, m, Answer(w, k, m).value);
      MoveRefines(w, k, m, Answer(w, k, m).value);
    case DirectBegins(k, g, r) =>
    case DirectCommits(k) => DirectRefines(w, k, v);
  }

  lemma StepRefines(w: World, step: Step, v: World)
    requires Inv(w) && Next(w, step) == Some(v)
    ensures Refines(w, EventOf(w, step, v), v)
  {
    match step
    case Joins(j) =>
      AdmitsExactly(w.join, j, v.join);
      JoinRefines(w, v, JoinEvent(w.join, j));
    case Acts(a) => ActRefines(w, a, v);
  }

  // ----- refinement over runs -----

  const START := Ideal(L.EMPTY, map[], map[], {})

  /** The events of the first n steps, in order. */
  function Events(worlds: seq<World>, steps: seq<Step>, n: nat): seq<Event>
    requires n <= |steps| < |worlds|
  {
    if n == 0 then []
    else
      Append(Events(worlds, steps, n - 1), EventOf(worlds[n - 1], steps[n - 1], worlds[n]))
  }

  function Append(es: seq<Event>, e: Option<Event>): seq<Event> { if e.Some? then es + [e.value] else es }

  /** Do the events one at a time, each atomically. */
  ghost function DoAll(es: seq<Event>): Ideal {
    if es == [] then START else Do(DoAll(es[..|es| - 1]), es[|es| - 1])
  }

  ghost predicate AllSucceed(es: seq<Event>) {
    es == [] || (AllSucceed(es[..|es| - 1]) && Succeeds(DoAll(es[..|es| - 1]), es[|es| - 1]))
  }

  /** The events can be done one at a time from the empty state, and lead to s. */
  ghost predicate Yield(es: seq<Event>, s: Ideal) { AllSucceed(es) && DoAll(es) == s }

  lemma DoOne(es: seq<Event>, e: Option<Event>, s: Ideal, t: Ideal)
    requires Yield(es, s) && Takes(s, e, t)
    ensures Yield(Append(es, e), t)
  {
    if e.Some? { assert (es + [e.value])[..|es + [e.value]| - 1] == es; }
  }

  lemma InitAbs(w: World)
    requires Init(w)
    ensures Abs(w) == START
  {
  }

  lemma RunTakes(worlds: seq<World>, steps: seq<Step>, i: nat)
    requires IsRun(worlds, steps) && i < |steps|
    ensures Takes(Abs(worlds[i]), EventOf(worlds[i], steps[i], worlds[i + 1]), Abs(worlds[i + 1]))
  {
    RunInv(worlds, steps);
    StepRefines(worlds[i], steps[i], worlds[i + 1]);
  }

  ghost predicate Yields(worlds: seq<World>, steps: seq<Step>, n: nat)
    requires n <= |steps| < |worlds|
  {
    Yield(Events(worlds, steps, n), Abs(worlds[n]))
  }

  lemma YieldTakes(worlds: seq<World>, steps: seq<Step>, i: nat)
    requires i < |steps| < |worlds| && Yields(worlds, steps, i)
    requires Takes(Abs(worlds[i]), EventOf(worlds[i], steps[i], worlds[i + 1]), Abs(worlds[i + 1]))
    ensures Yields(worlds, steps, i + 1)
  {
    DoOne(Events(worlds, steps, i), EventOf(worlds[i], steps[i], worlds[i + 1]), Abs(worlds[i]), Abs(worlds[i + 1]));
  }

  ghost predicate AllTake(worlds: seq<World>, steps: seq<Step>)
    requires |worlds| == |steps| + 1
  {
    forall i :: 0 <= i < |steps| ==>
      Takes(Abs(worlds[i]), EventOf(worlds[i], steps[i], worlds[i + 1]), Abs(worlds[i + 1]))
  }

  lemma TakesYield(worlds: seq<World>, steps: seq<Step>)
    requires |worlds| == |steps| + 1 && AllTake(worlds, steps) && Abs(worlds[0]) == START
    ensures forall n :: 0 <= n <= |steps| ==> Yields(worlds, steps, n)
  {
    for i := 0 to |steps|
      invariant forall j :: 0 <= j <= i ==> Yields(worlds, steps, j)
    {
      YieldTakes(worlds, steps, i);
    }
  }

  /** Every interleaving of ingestions, direct calls, lease issues, revocations and join steps
      reaches the state that its events reach when done one at a time, each atomically and none
      refused. */
  lemma RunRefines(worlds: seq<World>, steps: seq<Step>)
    requires IsRun(worlds, steps)
    ensures forall n :: 0 <= n <= |steps| ==> Yields(worlds, steps, n)
  {
    InitAbs(worlds[0]);
    forall i | 0 <= i < |steps|
      ensures Takes(Abs(worlds[i]), EventOf(worlds[i], steps[i], worlds[i + 1]), Abs(worlds[i + 1]))
    {
      RunTakes(worlds, steps, i);
    }
    TakesYield(worlds, steps);
  }

  /** Whenever no commit is in progress the stored results are exactly those of the atomic run. */
  lemma StoredAsAtomically(worlds: seq<World>, steps: seq<Step>, n: nat)
    requires IsRun(worlds, steps) && n <= |steps| && worlds[n].holder.None?
    ensures worlds[n].results == DoAll(Events(worlds, steps, n)).results
  {
    RunRefines(worlds, steps);
    assert Yields(worlds, steps, n);
  }

  /** And when no call holds a reservation, so is the digest set. */
  lemma SeenAsAtomically(worlds: seq<World>, steps: seq<Step>, n: nat)
    requires IsRun(worlds, steps) && n <= |steps|
    requires forall k :: k in worlds[n].ingests ==> !worlds[n].ingests[k].Holding()
    ensures worlds[n].seen == DoAll(Events(worlds, steps, n)).accepted
  {
    RunRefines(worlds, steps);
    assert Yields(worlds, steps, n);
    RunInv(worlds, steps);
    NoReservation(worlds[n]);
  }

  lemma NoReservation(w: World)
    requires Threads(w) && Digests(w) && forall k :: k in w.ingests ==> !w.ingests[k].Holding()
    ensures w.seen == w.byGate.Keys && w.holder.None?
  {
    SeenAtRest(w);
  }

  lemma SeenAtRest(w: World)
    requires Digests(w)
    ensures (forall k :: k in w.ingests ==> !w.ingests[k].Holding()) ==> w.seen == w.byGate.Keys
  {
    assert forall d :: d in w.reserver ==> w.ingests[w.reserver[d]].Holding();
  }

  // ----- each accepted ingestion is one event, each refused one none -----

  function IngestCount(es: seq<Event>, k: nat): nat {
    if es == [] then 0
    else IngestCount(es[..|es| - 1], k) + (if es[|es| - 1].EvIngest? && es[|es| - 1].k == k then 1 else 0)
  }

  /** The call's result is stored, or is certain to be. */
  predicate Won(w: World, k: nat) { k in w.ingests && (w.ingests[k].phase.Accepted? || Wins(w, k)) }

  predicate IsIngestOf(e: Option<Event>, k: nat) { e.Some? && e.value.EvIngest? && e.value.k == k }

  /** Only reading the admission can win, and winning is the event. */
  lemma WonAttributing(w: World, k: nat, x: Ingest)
    requires k in w.ingests && Answer(w, k, Attributes) == Some(x)
    ensures var v := Arrive(w, k, x);
            !Won(w, k) && (Won(v, k) <==> IsIngestOf(ActEvent(w, IngestMoves(k, Attributes), v), k))
  {
  }

  lemma WonLater(w: World, k: nat, m: Move, x: Ingest)
    requires k in w.ingests && IngestOk(w, k, w.ingests[k]) && Answer(w, k, m) == Some(x) && !m.Attributes?
    ensures Won(Arrive(w, k, x), k) <==> Won(w, k)
  {
    InspectExact(w.ingests[k].req, w.ingests[k].participant.generation);
  }

  lemma WonOwn(w: World, k: nat, m: Move, x: Ingest)
    requires k in w.ingests && IngestOk(w, k, w.ingests[k]) && Answer(w, k, m) == Some(x)
    ensures var v := Arrive(w, k, x);
            var e := ActEvent(w, IngestMoves(k, m), v);
            (Won(v, k) <==> Won(w, k) || IsIngestOf(e, k)) && !(Won(w, k) && IsIngestOf(e, k))
  {
    if m.Attributes? { WonAttributing(w, k, x); } else { WonLater(w, k, m, x); }
  }

  lemma WonOther(w: World, a: Act, v: World, k: nat)
    requires Threads(w) && ActNext(w, a) == Some(v) && !(a.IngestMoves? && a.k == k)
    ensures (Won(v, k) <==> Won(w, k)) && !IsIngestOf(ActEvent(w, a, v), k)
  {
    if k in w.ingests { assert IngestOk(w, k, w.ingests[k]); }
    if v.results != w.results {
      ResultsMove(w, a, v);
      if a.IngestMoves? { assert IngestOk(w, a.k, w.ingests[a.k]); }
    }
  }

  lemma WonStep(w: World, step: Step, v: World, k: nat)
    requires Threads(w) && Next(w, step) == Some(v)
    ensures var e := EventOf(w, step, v);
            (Won(v, k) <==> Won(w, k) || IsIngestOf(e, k)) && !(Won(w, k) && IsIngestOf(e, k))
  {
    match step
    case Joins(j) =>
    case Acts(a) =>
      if a.IngestMoves? && a.k == k {
        assert IngestOk(w, k, w.ingests[k]);
        WonOwn(w, k, a.m, Answer(w, k, a.m).value);
      } else {
        WonOther(w, a, v, k);
      }
  }

  lemma CountOne(es: seq<Event>, e: Option<Event>, k: nat)
    ensures IngestCount(Append(es, e), k) == IngestCount(es, k) + (if IsIngestOf(e, k) then 1 else 0)
  {
    if e.Some? { assert (es + [e.value])[..|es + [e.value]| - 1] == es; }
  }

  lemma RunWon(worlds: seq<World>, steps: seq<Step>, i: nat, k: nat)
    requires IsRun(worlds, steps) && i < |steps|
    ensures var e := EventOf(worlds[i], steps[i], worlds[i + 1]);
            (Won(worlds[i + 1], k) <==> Won(worlds[i], k) || IsIngestOf(e, k))
            && !(Won(worlds[i], k) && IsIngestOf(e, k))
  {
    RunInv(worlds, steps);
    WonStep(worlds[i], steps[i], worlds[i + 1], k);
  }

  /** An accepted call is exactly one atomic ingestion, a refused or unfinished one that will not
      store is none. */
  lemma {:induction false} AcceptedOnce(worlds: seq<World>, steps: seq<Step>, n: nat, k: nat)
    requires IsRun(worlds, steps) && n <= |steps|
    ensures IngestCount(Events(worlds, steps, n), k) == if Won(worlds[n], k) then 1 else 0
  {
    if n > 0 {
      var i := n - 1;
      AcceptedOnce(worlds, steps, i, k);
      RunWon(worlds, steps, i, k);
      CountOne(Events(worlds, steps, i), EventOf(worlds[i], steps[i], worlds[n]), k);
    }
  }

  /** A refused call left no atomic ingestion behind and holds no reservation. */
  lemma RefusedLeavesNothing(worlds: seq<World>, steps: seq<Step>, n: nat, k: nat)
    requires IsRun(worlds, steps) && n <= |steps| && k in worlds[n].ingests && worlds[n].ingests[k].phase.Refused?
    ensures IngestCount(Events(worlds, steps, n), k) == 0
    ensures forall d :: d in worlds[n].reserver ==> worlds[n].reserver[d] != k
    ensures forall d :: d in worlds[n].acceptor ==> worlds[n].acceptor[d] != k
  {
    AcceptedOnce(worlds, steps, n, k);
    RunInv(worlds, steps);
    RefusedHolds(worlds[n], k);
  }

  lemma RefusedHolds(w: World, k: nat)
    requires Digests(w) && k in w.ingests && w.ingests[k].phase.Refused?
    ensures forall d :: d in w.reserver ==> w.reserver[d] != k
    ensures forall d :: d in w.acceptor ==> w.acceptor[d] != k
  {
  }
}
