/** The result path run one call at a time: authenticate, decode, bind, reserve, commit under the
    lease, attribute and store. `IngestAtomically` is the specification the gate object meets when it
    runs alone, and which ResultProtocol shows every interleaving of gate calls to follow. */
module ResultPath {
  import opened Prelude
  import opened Admissions
  import L = ServerLease
  import T = TerminalSummaries
  import N = ArtifactName

  /** expected is the owner-side process generation; zero means none is bound. */
  datatype IngestRequest = IngestRequest(credential: string, name: string, data: T.Artifact, expected: nat)

  datatype AttemptResult = AttemptResult(
    account: string, revision: string, processGeneration: nat, attemptGeneration: nat,
    replay: string, takeoverTick: nat)

  datatype ResultKey = ResultKey(account: string, processGeneration: nat, attemptGeneration: nat)

  function KeyOf(r: AttemptResult): ResultKey {
    ResultKey(r.account, r.processGeneration, r.attemptGeneration)
  }

  datatype Refusal =
    | Unauthenticated(lease: L.LeaseError)
    | BadArtifact(artifact: T.SummaryError)
    | Duplicate
    | BadName(name: N.NameRefusal)
    | IdentityMismatch
    | LeaseRefused(lease: L.LeaseError)
    | Unattributed(attribution: AttributionError)
    | InvalidAccount | WrongGeneration | UnadmittedAccount | RevisionMismatch
    | AlreadyAccepted

  /** The SHA-256 digest of an artifact's bytes; injective, so the bytes stand for it. */
  function Digest(a: T.Artifact): string { a.bytes }

  function CheckArtifactSize(a: T.Artifact): Option<Refusal> {
    if |a.bytes| > T.MAX_BYTES then Some(BadArtifact(T.Oversize)) else None
  }

  /** Decode the artifact and bind its name and generation to the request and the participant. */
  function Inspect(req: IngestRequest, generation: nat): Result<T.TerminalSummary, Refusal> {
    var d := T.Decode(req.data);
    if d.Err? then Err(BadArtifact(d.error))
    else
      var n := N.ValidateArtifactName(req.name, d.value.attemptGeneration);
      if n.Err? then Err(BadName(n.error))
      else if req.expected != 0 && d.value.serverProcessGeneration != req.expected then Err(IdentityMismatch)
      else if d.value.serverProcessGeneration != generation then Err(IdentityMismatch)
      else Ok(d.value)
  }

  /** The result a summary yields for the account it is attributed to. */
  function ResultFor(account: string, s: T.TerminalSummary): AttemptResult {
    AttemptResult(account, s.revision, s.serverProcessGeneration, s.attemptGeneration, s.replayIdentity, s.takeoverTick)
  }

  /** The admission checks of acceptResult. */
  function CheckResult(admissions: AdmissionTable, generation: nat, r: AttemptResult): Option<Refusal> {
    var key := AdmissionKey(r.account, generation);
    if r.account == "" then Some(InvalidAccount)
    else if generation != r.processGeneration then Some(WrongGeneration)
    else if key !in admissions then Some(UnadmittedAccount)
    else if admissions[key] != r.revision then Some(Refusal.RevisionMismatch)
    else None
  }

  /** leases, admissions and stored results, and the digests of the artifacts accepted so far. */
  datatype Ideal = Ideal(
    leases: L.Leases, admissions: AdmissionTable, results: map<ResultKey, AttemptResult>, accepted: set<string>)

  /** Attribute, check and store, inside the lease transaction. */
  ghost function Commit(s: Ideal, req: IngestRequest, generation: nat, summary: T.TerminalSummary)
    : (Ideal, Option<Refusal>)
  {
    var a := Attribute(s.admissions, summary.serverProcessGeneration, summary.revision);
    if a.Err? then (s, Some(Unattributed(a.error)))
    else
      var r := ResultFor(a.value, summary);
      var e := CheckResult(s.admissions, generation, r);
      if e.Some? then (s, e)
      else if KeyOf(r) in s.results then (s, Some(AlreadyAccepted))
      else (s.(results := s.results[KeyOf(r) := r], accepted := s.accepted + {Digest(req.data)}), None)
  }

  /** Everything before the reservation: who presents the artifact and what it says. */
  function Examine(leases: L.Leases, seen: set<string>, req: IngestRequest)
    : Result<(L.Participant, T.TerminalSummary), Refusal>
  {
    var p := leases.Authenticate(req.credential);
    if p.Err? then Err(Unauthenticated(p.error))
    else if CheckArtifactSize(req.data).Some? then Err(CheckArtifactSize(req.data).value)
    else if Digest(req.data) in seen then Err(Duplicate)
    else
      var i := Inspect(req, p.value.generation);
      if i.Err? then Err(i.error) else Ok((p.value, i.value))
  }

  /** A refused commit changes nothing; an accepted one stores and records, and does not depend
      on what else was recorded before. */
  lemma CommitEffect(s: Ideal, reserved: Ideal, req: IngestRequest, generation: nat, summary: T.TerminalSummary)
    requires reserved == s.(accepted := s.accepted + {Digest(req.data)})
    ensures var (t, e) := Commit(s, req, generation, summary);
            var (u, f) := Commit(reserved, req, generation, summary);
            e == f && t.results == u.results && (e.Some? ==> t == s)
            && (e.None? ==> t == s.(results := t.results, accepted := reserved.accepted))
  {
  }

  /** The commit, if this very credential still is the active unrevoked lease. */
  ghost function Deliver(s: Ideal, req: IngestRequest, generation: nat, summary: T.TerminalSummary)
    : (Ideal, Option<Refusal>)
  {
    var c := s.leases.CommitCredential(req.credential, generation);
    if c.Err? then (s, Some(LeaseRefused(c.error))) else Commit(s, req, generation, summary)
  }

  lemma DeliverEffect(s: Ideal, reserved: Ideal, req: IngestRequest, generation: nat, summary: T.TerminalSummary)
    requires reserved == s.(accepted := s.accepted + {Digest(req.data)})
    ensures var (t, e) := Deliver(s, req, generation, summary);
            var (u, f) := Deliver(reserved, req, generation, summary);
            e == f && t.results == u.results && (e.Some? ==> t == s)
            && (e.None? ==> t == s.(results := t.results, accepted := reserved.accepted))
  {
    CommitEffect(s, reserved, req, generation, summary);
  }

  /** One ingestion, run atomically: the new state and the refusal, if any. */
  ghost function IngestAtomically(s: Ideal, req: IngestRequest): (Ideal, Option<Refusal>) {
    var x := Examine(s.leases, s.accepted, req);
    if x.Err? then (s, Some(x.error)) else Deliver(s, req, x.value.0.generation, x.value.1)
  }

  /** A result handed in directly, without an artifact: fenced by the lease of the generation. */
  ghost function AcceptAtomically(s: Ideal, generation: nat, r: AttemptResult): (Ideal, Option<Refusal>) {
    var e := CheckResult(s.admissions, generation, r);
    var c := s.leases.CommitLease(generation);
    if e.Some? then (s, e)
    else if c.Err? then (s, Some(LeaseRefused(c.error)))
    else if KeyOf(r) in s.results then (s, Some(AlreadyAccepted))
    else (s.(results := s.results[KeyOf(r) := r]), None)
  }

  // ----- exactly when an ingestion stores a result, and what -----

  /** The artifact is a lawful summary under its own name, from the process the caller expects. */
  predicate WellFormed(req: IngestRequest, generation: nat) {
    var d := T.Decode(req.data);
    d.Ok? && req.name == N.NameOf(d.value.attemptGeneration)
    && d.value.serverProcessGeneration == generation && (req.expected == 0 || req.expected == generation)
  }

  lemma InspectExact(req: IngestRequest, generation: nat)
    ensures Inspect(req, generation).Ok? <==> WellFormed(req, generation)
    ensures Inspect(req, generation).Ok? ==> CheckArtifactSize(req.data).None?
  {
    if T.Decode(req.data).Ok? {
      N.ValidateExact(req.name, T.Decode(req.data).value.attemptGeneration);
    }
  }

  /** This account, and no other, was admitted on the summary's process against its revision. */
  ghost predicate SoleAdmission(s: Ideal, account: string, summary: T.TerminalSummary) {
    Matching(s.admissions, summary.serverProcessGeneration, summary.revision)
    == {AdmissionKey(account, summary.serverProcessGeneration)}
  }

  lemma SoleAdmissionKey(s: Ideal, account: string, summary: T.TerminalSummary)
    requires SoleAdmission(s, account, summary)
    ensures var key := AdmissionKey(account, summary.serverProcessGeneration);
            key in s.admissions && s.admissions[key] == summary.revision
  {
    assert AdmissionKey(account, summary.serverProcessGeneration)
        in Matching(s.admissions, summary.serverProcessGeneration, summary.revision);
  }

  /** An ingestion for this account succeeds exactly when the credential is the active unrevoked
      lease of its generation, the artifact is new and well formed for that generation, and the
      named account is the sole one admitted, without a result for this attempt; it then stores
      exactly one result, which names that account and says field by field what the artifact says,
      and records the digest. */
  lemma IngestExact(s: Ideal, req: IngestRequest, account: string)
    requires var d := T.Decode(req.data); d.Ok? ==> SoleAdmission(s, account, d.value)
    ensures var d, p := T.Decode(req.data), s.leases.Authenticate(req.credential);
            IngestAtomically(s, req).1.None? <==>
              p.Ok? && WellFormed(req, p.value.generation) && req.data.bytes !in s.accepted
              && account != ""
              && ResultKey(account, d.value.serverProcessGeneration, d.value.attemptGeneration) !in s.results
    ensures IngestAtomically(s, req).1.None? ==>
              var d, t := T.Decode(req.data).value, IngestAtomically(s, req).0;
              var key := ResultKey(account, d.serverProcessGeneration, d.attemptGeneration);
              && key in t.results
              && t == s.(results := s.results[key := t.results[key]], accepted := s.accepted + {req.data.bytes})
              && t.results[key].account == account && Tells(t.results[key], d)
  {
    var d, p := T.Decode(req.data), s.leases.Authenticate(req.credential);
    if p.Ok? {
      InspectExact(req, p.value.generation);
      if d.Ok? {
        AttributeExact(s.admissions, d.value.serverProcessGeneration, d.value.revision, account);
        SoleAdmissionKey(s, account, d.value);
      }
    }
  }

  /** The result says what the summary says. */
  predicate Tells(r: AttemptResult, s: T.TerminalSummary) {
    && r.revision == s.revision && r.processGeneration == s.serverProcessGeneration
    && r.attemptGeneration == s.attemptGeneration && r.replay == s.replayIdentity && r.takeoverTick == s.takeoverTick
  }

  /** A refused ingestion changes nothing; an accepted one had a sole admission. */
  lemma IngestRefused(s: Ideal, req: IngestRequest)
    ensures IngestAtomically(s, req).1.Some? ==> IngestAtomically(s, req).0 == s
    ensures IngestAtomically(s, req).1.None? ==>
              T.Decode(req.data).Ok? && exists account :: SoleAdmission(s, account, T.Decode(req.data).value)
  {
    var p := s.leases.Authenticate(req.credential);
    if IngestAtomically(s, req).1.None? {
      InspectExact(req, p.value.generation);
      var summary := T.Decode(req.data).value;
      var a := Attribute(s.admissions, summary.serverProcessGeneration, summary.revision);
      AttributeExact(s.admissions, summary.serverProcessGeneration, summary.revision, a.value);
      assert SoleAdmission(s, a.value, summary);
    }
  }

  lemma InspectCauses(req: IngestRequest, generation: nat)
    ensures var d, i := T.Decode(req.data), Inspect(req, generation);
            && (d.Err? ==> i == Err(BadArtifact(d.error)))
            && (i.Err? && i.error.BadArtifact? ==> d == Err(i.error.artifact))
            && (i.Err? && i.error.BadName? <==> d.Ok? && req.name != N.NameOf(d.value.attemptGeneration))
            && (i == Err(IdentityMismatch) <==>
                  d.Ok? && req.name == N.NameOf(d.value.attemptGeneration) && !WellFormed(req, generation))
            && (i.Err? ==> i.error.BadArtifact? || i.error.BadName? || i.error == IdentityMismatch)
            && (d == Err(T.Oversize) ==> |req.data.bytes| > T.MAX_BYTES)
  {
    if T.Decode(req.data).Ok? { N.ValidateExact(req.name, T.Decode(req.data).value.attemptGeneration); }
  }

  lemma DeliverCauses(s: Ideal, req: IngestRequest, generation: nat)
    requires Inspect(req, generation).Ok?
    ensures WellFormed(req, generation)
    ensures var e := Deliver(s, req, generation, Inspect(req, generation).value).1;
            e.Some? ==> !e.value.Unauthenticated? && !e.value.BadArtifact? && !e.value.BadName?
                        && e.value != Duplicate && e.value != IdentityMismatch
  {
    InspectExact(req, generation);
  }

  /** Which cause an ingestion is refused for: each check answers exactly when all before it pass. */
  lemma CauseExact(s: Ideal, req: IngestRequest)
    ensures var e, p, d := IngestAtomically(s, req).1, s.leases.Authenticate(req.credential), T.Decode(req.data);
            var unseen := p.Ok? && |req.data.bytes| <= T.MAX_BYTES && req.data.bytes !in s.accepted;
            var named := unseen && d.Ok? && req.name == N.NameOf(d.value.attemptGeneration);
            && (e.Some? && e.value.Unauthenticated? <==> p.Err?)
            && (p.Err? ==> e == Some(Unauthenticated(p.error)))
            && (p.Ok? && |req.data.bytes| > T.MAX_BYTES <==> e == Some(BadArtifact(T.Oversize)))
            && (e == Some(Duplicate) <==>
                  p.Ok? && |req.data.bytes| <= T.MAX_BYTES && req.data.bytes in s.accepted)
            && (unseen && d.Err? ==> e == Some(BadArtifact(d.error)))
            && (e.Some? && e.value.BadName? <==> unseen && d.Ok? && !named)
            && (e == Some(IdentityMismatch) <==> named && !WellFormed(req, p.value.generation))
  {
    var p := s.leases.Authenticate(req.credential);
    if p.Ok? && |req.data.bytes| <= T.MAX_BYTES && req.data.bytes !in s.accepted {
      InspectCauses(req, p.value.generation);
      if Inspect(req, p.value.generation).Ok? { DeliverCauses(s, req, p.value.generation); }
    }
  }

  /** A direct call succeeds exactly when its account is admitted on that process generation against
      that revision, the generation's lease stands, and the account has no result for the attempt; it
      then stores the result as handed in, and otherwise nothing. */
  lemma AcceptExact(s: Ideal, generation: nat, r: AttemptResult)
    ensures var (t, e) := AcceptAtomically(s, generation, r);
            var admitted := AdmissionKey(r.account, r.processGeneration);
            var key := ResultKey(r.account, r.processGeneration, r.attemptGeneration);
            && (e.None? <==>
                  r.account != "" && generation == r.processGeneration
                  && admitted in s.admissions && s.admissions[admitted] == r.revision
                  && generation in s.leases.active && s.leases.active[generation] in s.leases.records
                  && !s.leases.records[s.leases.active[generation]].revoked
                  && key !in s.results)
            && t == (if e.None? then s.(results := s.results[key := r]) else s)
  {
  }

  // ----- the objects -----

  class ResultStore {
    var results: map<ResultKey, AttemptResult>

    constructor ()
      ensures results == map[]
    {
      results := map[];
    }

    /** Accept: a second result for the same account and attempt is refused, the first stands. */
    method Accept(r: AttemptResult) returns (e: Option<Refusal>)
      modifies this
      ensures e == (if KeyOf(r) in old(results) then Some(AlreadyAccepted) else None)
      ensures results == if e.None? then old(results)[KeyOf(r) := r] else old(results)
    {
      if KeyOf(r) in results { return Some(AlreadyAccepted); }
      results := results[KeyOf(r) := r];
      return None;
    }

    method Lookup(account: string, processGeneration: nat, attemptGeneration: nat) returns (r: Option<AttemptResult>)
      ensures var key := ResultKey(account, processGeneration, attemptGeneration);
              r == if key in results then Some(results[key]) else None
    {
      var key := ResultKey(account, processGeneration, attemptGeneration);
      if key !in results { return None; }
      return Some(results[key]);
    }
  }

  /** The orchestrator's part of the result path, with the lease authority wired in. */
  class ResultOrchestrator {
    const servers: L.ServerLeaseAuthority
    const store: ResultStore
    var admissions: AdmissionTable

    constructor (servers: L.ServerLeaseAuthority)
      ensures this.servers == servers && fresh(store) && store.results == map[] && admissions == map[]
    {
      this.servers, admissions := servers, map[];
      store := new ResultStore();
    }

    /** acceptResult; with the fence the commit runs under the generation's lease. */
    method AcceptResult(generation: nat, r: AttemptResult, fence: bool) returns (e: Option<Refusal>)
      requires servers.Valid()
      modifies store
      ensures var s := Ideal(servers.View(), admissions, old(store.results), {});
              var (t, x) := if fence then AcceptAtomically(s, generation, r) else
                              (var c := CheckResult(admissions, generation, r);
                               if c.Some? then (s, c)
                               else if KeyOf(r) in s.results then (s, Some(AlreadyAccepted))
                               else (s.(results := s.results[KeyOf(r) := r]), None));
              e == x && store.results == t.results
    {
      if r.account == "" { return Some(InvalidAccount); }
      if generation != r.processGeneration { return Some(WrongGeneration); }
      var key := AdmissionKey(r.account, generation);
      if key !in admissions { return Some(UnadmittedAccount); }
      if admissions[key] != r.revision { return Some(Refusal.RevisionMismatch); }
      if fence {
        var c := servers.CheckLease(generation);
        if c.Err? { return Some(LeaseRefused(c.error)); }
      }
      e := store.Accept(r);
    }
  }

  /** seenArtifacts holds the accepted digests and, during a call, the one it reserved. */
  class SummaryIngestionGate {
    const orch: ResultOrchestrator
    var seenArtifacts: set<string>

    ghost predicate Valid()
      reads this, orch, orch.servers, orch.servers.Cells()
    {
      orch.servers.Valid() && this !in orch.servers.Cells() && orch.store !in orch.servers.Cells()
    }

    ghost function View(): Ideal
      reads this, orch, orch.servers, orch.servers.Cells(), orch.store
    {
      Ideal(orch.servers.View(), orch.admissions, orch.store.results, seenArtifacts)
    }

    constructor (orch: ResultOrchestrator)
      ensures this.orch == orch && seenArtifacts == {}
    {
      this.orch, seenArtifacts := orch, {};
    }

    /** The commit closure of the composed gate, already inside the lease transaction. */
    method AttributeAndAccept(ghost req: IngestRequest, generation: nat, summary: T.TerminalSummary)
      returns (e: Option<Refusal>)
      requires Valid()
      modifies orch.store
      ensures e == Commit(old(View()), req, generation, summary).1
      ensures View() == old(View()).(results := Commit(old(View()), req, generation, summary).0.results)
    {
      var account := AdmittedAccountFor(orch.admissions, summary.serverProcessGeneration, summary.revision);
      if account.Err? { return Some(Unattributed(account.error)); }
      e := orch.AcceptResult(generation, ResultFor(account.value, summary), false);
    }

    method ExamineArtifact(req: IngestRequest) returns (x: Result<(L.Participant, T.TerminalSummary), Refusal>)
      requires Valid()
      ensures x == Examine(orch.servers.View(), seenArtifacts, req)
    {
      var participant := orch.servers.AuthenticateServer(req.credential);
      if participant.Err? { return Err(Unauthenticated(participant.error)); }
      if |req.data.bytes| > T.MAX_BYTES { return Err(BadArtifact(T.Oversize)); }
      if Digest(req.data) in seenArtifacts { return Err(Duplicate); }
      var d := T.ParseTerminalSummaryArtifact(req.data);
      if d.Err? { return Err(BadArtifact(d.error)); }
      var n := N.ValidateArtifactName(req.name, d.value.attemptGeneration);
      if n.Err? { return Err(BadName(n.error)); }
      if req.expected != 0 && d.value.serverProcessGeneration != req.expected { return Err(IdentityMismatch); }
      if d.value.serverProcessGeneration != participant.value.generation { return Err(IdentityMismatch); }
      return Ok((participant.value, d.value));
    }

    /** The commit under the exact credential, the digest already reserved. */
    method CommitUnderLease(req: IngestRequest, generation: nat, summary: T.TerminalSummary)
      returns (e: Option<Refusal>)
      requires Valid()
      modifies orch.store
      ensures Valid() && e == Deliver(old(View()), req, generation, summary).1
      ensures View() == old(View()).(results := Deliver(old(View()), req, generation, summary).0.results)
    {
      var c := orch.servers.CheckCredential(req.credential, generation);
      if c.Err? {
        e := Some(LeaseRefused(c.error));
        assert View() == old(View());
      } else {
        e := AttributeAndAccept(req, generation, summary);
      }
    }

    /** Reserve the digest, commit under the lease, and take the reservation back on a refusal. */
    method ReserveAndCommit(req: IngestRequest, generation: nat, summary: T.TerminalSummary)
      returns (e: Option<Refusal>)
      requires Valid()
      modifies this`seenArtifacts, orch.store
      ensures Digest(req.data) in old(seenArtifacts) ==> e == Some(Duplicate) && View() == old(View())
      ensures Digest(req.data) !in old(seenArtifacts) ==>
                (View(), e) == Deliver(old(View()), req, generation, summary)
    {
      var digest := Digest(req.data);
      if digest in seenArtifacts {
        e := Some(Duplicate);
      } else {
        ghost var s := View();
        seenArtifacts := seenArtifacts + {digest};
        DeliverEffect(s, View(), req, generation, summary);
        e := CommitUnderLease(req, generation, summary);
        if e.Some? {
          seenArtifacts := seenArtifacts - {digest};
          assert seenArtifacts == s.accepted;
        }
      }
    }

    /** Ingest run alone: exactly the atomic specification, whatever refuses it. */
    method Ingest(req: IngestRequest) returns (e: Option<Refusal>)
      requires Valid()
      modifies this`seenArtifacts, orch.store
      ensures Valid() && (View(), e) == IngestAtomically(old(View()), req)
    {
      var x := ExamineArtifact(req);
      if x.Err? {
        e := Some(x.error);
        assert View() == old(View());
      } else {
        e := ReserveAndCommit(req, x.value.0.generation, x.value.1);
      }
    }
  }
}
