/** Generation-scoped server credential leases. `Leases` is the abstract authority; the class
    below is the lock-guarded object, one method per locked section. */
module ServerLease {
  import opened Prelude

  datatype LeaseRecord = LeaseRecord(participant: string, generation: nat, version: nat, revoked: bool)

  datatype Participant = Participant(id: string, generation: nat)

  datatype LeaseError = LeaseUnknown | LeaseRevoked | LeaseInvalidBinding | LeaseRandom

  datatype Lease = Lease(participant: string, generation: nat, version: nat, credential: string)

  /** active: generation to the credential of its active record; records: every issued lease. */
  datatype Leases = Leases(active: map<nat, string>, records: map<string, LeaseRecord>) {

    function NextVersion(generation: nat): nat {
      if generation in active && active[generation] in records
      then records[active[generation]].version + 1 else 1
    }

    function Issue(participant: string, generation: nat, credential: string): Leases {
      var record := LeaseRecord(participant, generation, NextVersion(generation), false);
      Leases(active[generation := credential], records[credential := record])
    }

    function Revoke(generation: nat): Leases {
      if generation in active && active[generation] in records
      then this.(records := records[active[generation] := records[active[generation]].(revoked := true)])
      else this
    }

    /** The credential is the active lease of the generation it was issued for. */
    predicate IsActive(credential: string)
      requires credential in records
    {
      var g := records[credential].generation;
      g in active && active[g] == credential
    }

    function Authenticate(credential: string): Result<Participant, LeaseError> {
      if credential !in records then Err(LeaseUnknown)
      else if records[credential].revoked then Err(LeaseRevoked)
      else if !IsActive(credential) then Err(LeaseUnknown)
      else Ok(Participant(records[credential].participant, records[credential].generation))
    }

    /** CommitLease: may a commit for this generation run now? */
    function CommitLease(generation: nat): Result<(), LeaseError> {
      if generation !in active || active[generation] !in records then Err(LeaseUnknown)
      else if records[active[generation]].revoked then Err(LeaseRevoked)
      else Ok(())
    }

    /** CommitCredential: may a commit under this very credential run now? */
    function CommitCredential(credential: string, generation: nat): Result<(), LeaseError> {
      if credential !in records || records[credential].generation != generation then Err(LeaseUnknown)
      else if records[credential].revoked then Err(LeaseRevoked)
      else if !IsActive(credential) then Err(LeaseUnknown)
      else Ok(())
    }

    /** For every generation the issued versions are exactly 1 to n, one lease each, and the
        active lease is number n. */
    ghost predicate Inv() {
      && Filed()
      && (forall c :: c in records ==>
            records[c].generation in active
            && 1 <= records[c].version <= records[active[records[c].generation]].version)
      && VersionsDistinct()
      && VersionsGapless()
    }

    ghost predicate Filed() {
      forall g :: g in active ==> active[g] in records && records[active[g]].generation == g
    }

    ghost predicate VersionsDistinct() {
      forall c, d :: c in records && d in records && c != d
        && records[c].generation == records[d].generation
        ==> records[c].version != records[d].version
    }

    ghost predicate VersionsGapless()
      requires Filed()
    {
      forall g, v: nat :: g in active && 1 <= v <= records[active[g]].version ==> Issued(g, v)
    }

    ghost predicate Issued(generation: nat, version: nat) {
      exists c :: c in records && records[c].generation == generation && records[c].version == version
    }

    ghost predicate Authenticates(credential: string) {
      Authenticate(credential).Ok?
    }

    /** At most one credential per generation authenticates. */
    ghost predicate OneHolder() {
      forall c, d ::
        Authenticates(c) && Authenticates(d) && records[c].generation == records[d].generation
        ==> c == d
    }
  }

  const EMPTY := Leases(map[], map[])

  // ----- every run of issues and revocations -----

  datatype LeaseOp =
    | OpIssue(participant: string, generation: nat, credential: string)
    | OpRevoke(generation: nat)

  /** One locked operation. An issue needs a complete binding and a credential not yet taken. */
  function Next(s: Leases, op: LeaseOp): Option<Leases> {
    match op
    case OpIssue(p, g, c) =>
      if p == "" || g == 0 || c in s.records then None else Some(s.Issue(p, g, c))
    case OpRevoke(g) => Some(s.Revoke(g))
  }

  lemma InitInv()
    ensures EMPTY.Inv()
  {
  }

  lemma IssueGapless(s: Leases, p: string, g: nat, c: string)
    requires s.Inv() && c !in s.records
    ensures s.Issue(p, g, c).Filed() && s.Issue(p, g, c).VersionsGapless()
  {
    var t := s.Issue(p, g, c);
    forall h, v: nat | h in t.active && 1 <= v <= t.records[t.active[h]].version
      ensures t.Issued(h, v)
    {
      if h == g && v == s.NextVersion(g) {
        assert t.records[c].version == v;
      } else {
        assert s.Issued(h, v);
        var d :| d in s.records && s.records[d].generation == h && s.records[d].version == v;
        assert t.records[d] == s.records[d];
      }
    }
  }

  /** The new version is above every version issued for its generation. */
  lemma IssueDistinct(s: Leases, p: string, g: nat, c: string)
    requires s.Inv() && c !in s.records
    ensures s.Issue(p, g, c).VersionsDistinct()
  {
    var t := s.Issue(p, g, c);
    forall d | d in s.records && s.records[d].generation == g ensures s.records[d].version < t.records[c].version {
    }
    assert forall d :: d in t.records && d != c ==> t.records[d] == s.records[d];
  }

  lemma IssueInv(s: Leases, p: string, g: nat, c: string)
    requires s.Inv() && c !in s.records
    ensures s.Issue(p, g, c).Inv()
  {
    IssueGapless(s, p, g, c);
    IssueDistinct(s, p, g, c);
    var t := s.Issue(p, g, c);
    forall d | d in t.records
      ensures t.records[d].generation in t.active
      ensures 1 <= t.records[d].version <= t.records[t.active[t.records[d].generation]].version
    {
      if d != c { assert d in s.records && t.records[d] == s.records[d]; }
    }
  }

  /** A revocation changes no lease but for the flag. */
  lemma RevokeFrame(s: Leases, g: nat)
    ensures var t := s.Revoke(g);
            t.active == s.active && t.records.Keys == s.records.Keys
            && forall c :: c in s.records ==> t.records[c] == s.records[c].(revoked := t.records[c].revoked)
  {
  }

  lemma RevokeGapless(s: Leases, g: nat)
    requires s.Inv()
    ensures s.Revoke(g).Filed() && s.Revoke(g).VersionsGapless()
  {
    var t := s.Revoke(g);
    RevokeFrame(s, g);
    forall h, v: nat | h in t.active && 1 <= v <= t.records[t.active[h]].version
      ensures t.Issued(h, v)
    {
      assert s.Issued(h, v);
      var d :| d in s.records && s.records[d].generation == h && s.records[d].version == v;
      assert t.records[d].version == v;
    }
  }

  lemma RevokeInv(s: Leases, g: nat)
    requires s.Inv()
    ensures s.Revoke(g).Inv()
  {
    RevokeFrame(s, g);
    RevokeGapless(s, g);
  }

  lemma StepInv(s: Leases, op: LeaseOp)
    requires s.Inv() && Next(s, op).Some?
    ensures Next(s, op).value.Inv()
  {
    match op
    case OpIssue(p, g, c) => IssueInv(s, p, g, c);
    case OpRevoke(g) => RevokeInv(s, g);
  }

  /** What no step changes: an issued lease keeps its participant, generation and version, and a
      credential that does not authenticate will not authenticate later. */
  ghost predicate Later(s: Leases, t: Leases) {
    forall c :: c in s.records ==>
      c in t.records
      && t.records[c].participant == s.records[c].participant
      && t.records[c].generation == s.records[c].generation
      && t.records[c].version == s.records[c].version
      && (!s.Authenticates(c) ==> !t.Authenticates(c))
  }

  lemma IssueLater(s: Leases, p: string, g: nat, c: string)
    requires s.Filed() && c !in s.records
    ensures Later(s, s.Issue(p, g, c))
  {
  }

  lemma RevokeLater(s: Leases, g: nat)
    requires s.Filed()
    ensures Later(s, s.Revoke(g))
  {
    RevokeFrame(s, g);
  }

  lemma StepLater(s: Leases, op: LeaseOp)
    requires s.Inv() && Next(s, op).Some?
    ensures Later(s, Next(s, op).value)
  {
    match op
    case OpIssue(p, g, c) => IssueLater(s, p, g, c);
    case OpRevoke(g) => RevokeLater(s, g);
  }

  /** Run some operations; one that is refused changes nothing. */
  function Run(s: Leases, ops: seq<LeaseOp>): Leases {
    if ops == [] then s
    else
      var before := Run(s, ops[..|ops| - 1]);
      var after := Next(before, ops[|ops| - 1]);
      if after.Some? then after.value else before
  }

  /** Over every run from the empty authority: versions 1..n per generation with the active lease
      numbered n, and at most one authenticating credential per generation. */
  lemma {:induction false} RunInv(ops: seq<LeaseOp>)
    ensures Run(EMPTY, ops).Inv()
    ensures Run(EMPTY, ops).OneHolder()
  {
    if ops != [] {
      RunInv(ops[..|ops| - 1]);
      var before := Run(EMPTY, ops[..|ops| - 1]);
      if Next(before, ops[|ops| - 1]).Some? {
        StepInv(before, ops[|ops| - 1]);
      }
    }
  }

  /** A credential that once stopped authenticating never authenticates again, whatever follows. */
  lemma {:induction false} StoppedForever(ops: seq<LeaseOp>, more: seq<LeaseOp>, credential: string)
    requires credential in Run(EMPTY, ops).records && !Run(EMPTY, ops).Authenticates(credential)
    ensures credential in Run(EMPTY, ops + more).records && !Run(EMPTY, ops + more).Authenticates(credential)
  {
    if more == [] {
      assert ops + more == ops;
    } else {
      var shorter := more[..|more| - 1];
      StoppedForever(ops, shorter, credential);
      assert (ops + more)[..|ops + more| - 1] == ops + shorter;
      RunInv(ops + shorter);
      var before := Run(EMPTY, ops + shorter);
      if Next(before, more[|more| - 1]).Some? {
        StepLater(before, more[|more| - 1]);
      }
    }
  }

  // ----- exactly which credential authenticates, and as whom -----

  /** What one operation does to the answer for a credential: an issue makes its own credential
      authenticate as the participant it names and silences the others of its generation; a
      revocation silences the active one. */
  lemma AnswerMoves(s: Leases, op: LeaseOp, c: string)
    requires s.Filed() && Next(s, op).Some?
    ensures var t := Next(s, op).value;
            match op
            case OpIssue(p, g, d) =>
              if c == d then t.Authenticate(c) == Ok(Participant(p, g))
              else if c in s.records && s.records[c].generation == g
              then t.Authenticate(c) == Err(if s.records[c].revoked then LeaseRevoked else LeaseUnknown)
              else t.Authenticate(c) == s.Authenticate(c)
            case OpRevoke(g) =>
              if g in s.active && s.active[g] == c then t.Authenticate(c) == Err(LeaseRevoked)
              else t.Authenticate(c) == s.Authenticate(c)
  {
  }

  /** A commit may run under a credential exactly when it authenticates for the generation. */
  lemma CommitExact(s: Leases, c: string, g: nat)
    requires s.Filed()
    ensures s.CommitCredential(c, g).Ok? <==> s.Authenticate(c).Ok? && s.Authenticate(c).value.generation == g
    ensures s.CommitCredential(c, g).Ok? ==> s.CommitLease(g).Ok?
    ensures s.CommitLease(g).Ok? <==> g in s.active && s.CommitCredential(s.active[g], g).Ok?
  {
  }

  /** The n-th operation issued this credential. */
  predicate IssuedAt(ops: seq<LeaseOp>, n: nat, p: string, g: nat, c: string) {
    n < |ops| && ops[n] == OpIssue(p, g, c) && Next(Run(EMPTY, ops[..n]), ops[n]).Some?
  }

  /** The n-th operation took effect on this generation. */
  predicate ActsOn(ops: seq<LeaseOp>, n: nat, g: nat) {
    n < |ops| && ops[n].generation == g && Next(Run(EMPTY, ops[..n]), ops[n]).Some?
  }

  /** It was issued, and nothing took effect on its generation since. */
  ghost predicate Stands(ops: seq<LeaseOp>, p: string, g: nat, c: string) {
    exists n: nat :: IssuedAt(ops, n, p, g, c) && forall m: nat :: m > n ==> !ActsOn(ops, m, g)
  }

  lemma SameBefore(ops: seq<LeaseOp>, op: LeaseOp, n: nat, p: string, g: nat, c: string)
    ensures n < |ops| ==> (IssuedAt(ops + [op], n, p, g, c) <==> IssuedAt(ops, n, p, g, c))
    ensures n < |ops| ==> (ActsOn(ops + [op], n, g) <==> ActsOn(ops, n, g))
    ensures n > |ops| ==> !ActsOn(ops + [op], n, g) && !IssuedAt(ops + [op], n, p, g, c)
  {
    if n < |ops| { assert (ops + [op])[..n] == ops[..n]; }
  }

  lemma StandsMore(ops: seq<LeaseOp>, op: LeaseOp, p: string, g: nat, c: string)
    ensures Stands(ops + [op], p, g, c)
            <==> if ActsOn(ops + [op], |ops|, g) then IssuedAt(ops + [op], |ops|, p, g, c) else Stands(ops, p, g, c)
  {
    var all := ops + [op];
    forall m: nat
      ensures m < |ops| ==> (ActsOn(all, m, g) <==> ActsOn(ops, m, g))
      ensures m < |ops| ==> (IssuedAt(all, m, p, g, c) <==> IssuedAt(ops, m, p, g, c))
      ensures m > |ops| ==> !ActsOn(all, m, g)
    {
      SameBefore(ops, op, m, p, g, c);
    }
    if Stands(all, p, g, c) {
      var n: nat :| IssuedAt(all, n, p, g, c) && forall m: nat :: m > n ==> !ActsOn(all, m, g);
      if ActsOn(all, |ops|, g) {
        assert n == |ops|;
      } else {
        assert n < |ops| && IssuedAt(ops, n, p, g, c);
        assert forall m: nat :: m > n ==> !ActsOn(ops, m, g);
      }
    }
    if !ActsOn(all, |ops|, g) && Stands(ops, p, g, c) {
      var n: nat :| IssuedAt(ops, n, p, g, c) && forall m: nat :: m > n ==> !ActsOn(ops, m, g);
      assert IssuedAt(all, n, p, g, c);
    }
  }

  /** Over every run a credential authenticates as this participant of this generation exactly when it
      was issued to it and nothing was issued or revoked for the generation since. */
  lemma {:induction false} AuthenticatesExact(ops: seq<LeaseOp>, p: string, g: nat, c: string)
    ensures Run(EMPTY, ops).Authenticate(c) == Ok(Participant(p, g)) <==> Stands(ops, p, g, c)
  {
    if ops != [] {
      var front, last := ops[..|ops| - 1], ops[|ops| - 1];
      AuthenticatesExact(front, p, g, c);
      RunInv(front);
      assert ops == front + [last] && ops[..|front|] == front;
      StandsMore(front, last, p, g, c);
      if Next(Run(EMPTY, front), last).Some? { AnswerMoves(Run(EMPTY, front), last, c); }
    }
  }

  // ----- the authority object -----

  /** One minted lease, shared by both maps of the authority. */
  class LeaseCell {
    const participant: string
    const generation: nat
    const version: nat
    var revoked: bool
    ghost const credential: string

    constructor (participant: string, generation: nat, version: nat, ghost credential: string)
      ensures this.participant == participant && this.generation == generation
      ensures this.version == version && this.credential == credential && !revoked
    {
      this.participant, this.generation, this.version := participant, generation, version;
      this.credential := credential;
      revoked := false;
    }
  }

  /** The first draw that is not taken yet, or none if the random source fails before one. */
  function FirstFresh(draws: seq<string>, taken: set<string>): Option<string> {
    if draws == [] then None
    else if draws[0] !in taken then Some(draws[0])
    else FirstFresh(draws[1..], taken)
  }

  class ServerLeaseAuthority {
    var active: map<nat, LeaseCell>
    var credentials: map<string, LeaseCell>

    /** Every issued record is found under its own credential, and every active record is one of
        them, filed under its own generation. */
    ghost predicate Valid()
      reads this
    {
      && (forall c :: c in credentials ==> credentials[c].credential == c)
      && (forall g :: g in active ==>
            active[g].generation == g
            && active[g].credential in credentials && credentials[active[g].credential] == active[g])
    }

    ghost function Cells(): set<object>
      reads this
    {
      set c | c in credentials :: credentials[c] as object
    }

    ghost function View(): Leases
      reads this, Cells()
    {
      Leases(map g | g in active :: active[g].credential,
             map c | c in credentials ::
               LeaseRecord(credentials[c].participant, credentials[c].generation,
                           credentials[c].version, credentials[c].revoked))
    }

    constructor ()
      ensures Valid() && View() == EMPTY && Cells() == {}
    {
      active, credentials := map[], map[];
    }

    /** newLeaseCredential: draw until a token is fresh; the draws end where the source fails. */
    method NewLeaseCredential(draws: seq<string>) returns (r: Option<string>)
      ensures r == FirstFresh(draws, credentials.Keys)
      ensures r.None? ==> forall d :: d in draws ==> d in credentials
      ensures r.Some? ==>
                exists i :: 0 <= i < |draws| && draws[i] == r.value && r.value !in credentials
                            && forall j :: 0 <= j < i ==> draws[j] in credentials
    {
      var i := 0;
      while i < |draws|
        invariant i <= |draws|
        invariant forall j :: 0 <= j < i ==> draws[j] in credentials
        invariant FirstFresh(draws, credentials.Keys) == FirstFresh(draws[i..], credentials.Keys)
      {
        if draws[i] !in credentials { return Some(draws[i]); }
        assert draws[i..][1..] == draws[i + 1..];
        i := i + 1;
      }
      return None;
    }

    method IssueLease(participantID: string, generation: nat, draws: seq<string>)
      returns (r: Result<Lease, LeaseError>)
      requires Valid()
      modifies this
      ensures Valid() && fresh(Cells() - old(Cells()))
      ensures participantID == "" || generation == 0 ==> r == Err(LeaseInvalidBinding)
      ensures participantID != "" && generation != 0 ==>
                var c := FirstFresh(draws, old(credentials.Keys));
                if c.None? then r == Err(LeaseRandom)
                else r == Ok(Lease(participantID, generation, old(View()).NextVersion(generation), c.value))
      ensures r.Ok? ==> r.value.credential !in old(View()).records
                        && View() == old(View()).Issue(participantID, generation, r.value.credential)
                        && Next(old(View()), OpIssue(participantID, generation, r.value.credential)) == Some(View())
      ensures r.Err? ==> View() == old(View())
    {
      if participantID == "" || generation == 0 { return Err(LeaseInvalidBinding); }
      var credential := NewLeaseCredential(draws);
      if credential.None? { return Err(LeaseRandom); }
      var version := 1;
      if generation in active { version := active[generation].version + 1; }
      ghost var before := View();
      assert version == before.NextVersion(generation);
      var record := new LeaseCell(participantID, generation, version, credential.value);
      credentials := credentials[credential.value := record];
      active := active[generation := record];
      assert View().records
          == before.records[credential.value := LeaseRecord(participantID, generation, version, false)];
      assert View().active == before.active[generation := credential.value];
      return Ok(Lease(participantID, generation, version, credential.value));
    }

    method AuthenticateServer(credential: string) returns (r: Result<Participant, LeaseError>)
      requires Valid()
      ensures r == View().Authenticate(credential)
    {
      if credential !in credentials { return Err(LeaseUnknown); }
      var record := credentials[credential];
      if record.revoked { return Err(LeaseRevoked); }
      if !(record.generation in active && active[record.generation] == record) { return Err(LeaseUnknown); }
      return Ok(Participant(record.participant, record.generation));
    }

    method Revoke(generation: nat)
      requires Valid()
      modifies Cells()
      ensures Valid() && View() == old(View()).Revoke(generation)
      ensures Next(old(View()), OpRevoke(generation)) == Some(View())
    {
      if generation in active {
        var record := active[generation];
        record.revoked := true;
      }
    }

    /** The guard of CommitLease; the commit itself runs under the same lock. */
    method CheckLease(generation: nat) returns (r: Result<(), LeaseError>)
      requires Valid()
      ensures r == View().CommitLease(generation)
    {
      if generation !in active { return Err(LeaseUnknown); }
      if active[generation].revoked { return Err(LeaseRevoked); }
      return Ok(());
    }

    /** The guard of CommitCredential; the commit itself runs under the same lock. */
    method CheckCredential(credential: string, generation: nat) returns (r: Result<(), LeaseError>)
      requires Valid()
      ensures r == View().CommitCredential(credential, generation)
    {
      if credential !in credentials { return Err(LeaseUnknown); }
      var record := credentials[credential];
      if record.generation != generation { return Err(LeaseUnknown); }
      if record.revoked { return Err(LeaseRevoked); }
      if !(generation in active && active[generation] == record) { return Err(LeaseUnknown); }
      return Ok(());
    }
  }
}
