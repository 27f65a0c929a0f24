/** Issuing and consuming join intents, interleaved with every preparation, allocator, lobby and
    invitation step. IssueJoinIntent and ConsumeJoinIntent take several locked sections each; one
    section is one step. Intents are named by their sequence number. */
module JoinProtocol {
  import opened Prelude
  import opened Admissions
  import P = ScenarioPreparations
  import R = PreparationRuns
  import A = LobbyAccess

  /** A call of IssueJoinIntent between its sections. */
  datatype Issue =
    | Captured(account: string, steam: nat, prep: nat, process: Option<nat>, failed: bool)
    | Prepared(account: string, steam: nat, prep: nat, generation: nat)   // ready, with a process
    | Slotted(account: string, steam: nat, prep: nat, generation: nat)    // and a slot held
    | Bound(account: string, steam: nat, prep: nat, generation: nat, revision: string)
    | Numbered(account: string, steam: nat, prep: nat, generation: nat, revision: string, id: nat)
    | Panicked                                                            // a nil revision was read
    | Issued(id: nat, prep: nat, intent: Intent)
    | IssueRefused

  /** A call of ConsumeJoinIntent between its sections. */
  datatype Consuming =
    | Found(id: nat, revision: string, generation: nat, steam: nat)
    | Used(id: nat)
    | Admitted(id: nat)
    | ConsumeRefused

  /** History: issuedFor maps an intent to its preparation, numberedBy to the call that numbered
      it, admittedBy an admission to the intent that recorded it. */
  datatype State = State(
    runs: R.State, access: A.State,
    intentSeq: nat, intents: map<nat, Intent>, issues: map<nat, Issue>,
    consumes: map<nat, Consuming>, admissions: AdmissionTable,
    issuedFor: map<nat, nat>, numberedBy: map<nat, nat>, admittedBy: map<AdmissionKey, nat>) {

    function At(k: nat, x: Issue): State { this.(issues := issues[k := x]) }
  }

  datatype IssueMove =
    | IssueBegins(account: string, steam: nat, prep: nat)
    | IssueChecks | IssueSlots | IssueBinds | IssueNumbers | IssueStores

  datatype ConsumeMove =
    | ConsumeBegins(id: nat, revision: string, generation: nat, steam: nat)
    | ConsumeUses | ConsumeAdmits

  datatype Step =
    | Runs(r: R.Step)
    | Access(a: A.Step)
    | Registers(n: nat)   // Prepare registers the record, its owner and its lobby in one section
    | Issues(k: nat, i: IssueMove)
    | Consumes(k: nat, c: ConsumeMove)

  /** Where the next section takes the IssueJoinIntent call k. */
  function IssueAnswer(s: State, k: nat, move: IssueMove): Option<Issue> {
    match move
    case IssueBegins(account, steam, prep) =>
      if k in s.issues then None
      else if steam == 0 || !s.runs.Registered(prep) then Some(IssueRefused)
      else Some(Captured(account, steam, prep, s.runs.runs[prep].process, s.runs.runs[prep].allocationFailed))
    case IssueChecks =>
      if k !in s.issues || !s.issues[k].Captured? || s.issues[k].prep !in s.runs.runs then None
      else
        var x := s.issues[k];
        if s.runs.runs[x.prep].record.state != P.Ready || x.failed || x.process.None? then Some(IssueRefused)
        else Some(Prepared(x.account, x.steam, x.prep, x.process.value))
    case IssueSlots =>
      if k !in s.issues || !s.issues[k].Prepared? then None
      else
        var x := s.issues[k];
        if x.prep in s.access.lobbies && !s.access.HoldsSlot(x.prep, x.account) then Some(IssueRefused)
        else Some(Slotted(x.account, x.steam, x.prep, x.generation))
    case IssueBinds =>
      if k !in s.issues || !s.issues[k].Slotted? || s.issues[k].prep !in s.runs.runs then None
      else
        var x := s.issues[k];
        var revision := s.runs.runs[x.prep].record.revision;
        if revision.None? then Some(Panicked)
        else Some(Bound(x.account, x.steam, x.prep, x.generation, revision.value))
    case IssueNumbers =>
      if k !in s.issues || !s.issues[k].Bound? then None
      else
        var x := s.issues[k];
        Some(Numbered(x.account, x.steam, x.prep, x.generation, x.revision, s.intentSeq + 1))
    case IssueStores =>
      if k !in s.issues || !s.issues[k].Numbered? then None
      else
        var x := s.issues[k];
        Some(Issued(x.id, x.prep, Intent(x.account, x.steam, x.revision, x.generation, false)))
  }

  /** The call moves to x; numbering and storing also change the shared counter and map. */
  function Settle(s: State, k: nat, x: Issue): State {
    match x
    case Numbered(_, _, _, _, _, id) => s.At(k, x).(intentSeq := id, numberedBy := s.numberedBy[id := k])
    case Issued(id, prep, intent) =>
      s.At(k, x).(intents := s.intents[id := intent], issuedFor := s.issuedFor[id := prep])
    case _ => s.At(k, x)
  }

  function IssueNext(s: State, k: nat, move: IssueMove): Option<State> {
    var x := IssueAnswer(s, k, move);
    if x.None? then None else Some(Settle(s, k, x.value))
  }

  /** Where the next section takes the ConsumeJoinIntent call k. */
  function ConsumeAnswer(s: State, k: nat, move: ConsumeMove): Option<Consuming> {
    match move
    case ConsumeBegins(id, revision, generation, steam) =>
      if k in s.consumes then None
      else if id !in s.intents || s.intents[id].generation != generation then Some(ConsumeRefused)
      else Some(Found(id, revision, generation, steam))
    case ConsumeUses =>
      if k !in s.consumes || !s.consumes[k].Found? || s.consumes[k].id !in s.intents then None
      else
        var c := s.consumes[k];
        if Presented(s.intents[c.id], c.revision, c.generation, c.steam).1.None? then Some(Used(c.id))
        else Some(ConsumeRefused)
    case ConsumeAdmits =>
      if k !in s.consumes || !s.consumes[k].Used? || s.consumes[k].id !in s.intents then None
      else Some(Admitted(s.consumes[k].id))
  }

  /** The call moves to c; a use marks the intent, an admission is recorded from it. */
  function Record(s: State, k: nat, c: Consuming): State {
    var known := (c.Used? || c.Admitted?) && c.id in s.intents;
    s.(consumes := s.consumes[k := c],
       intents := if known && c.Used? then s.intents[c.id := s.intents[c.id].(used := true)] else s.intents,
       admissions := if known && c.Admitted? then s.admissions[KeyOf(s.intents[c.id]) := s.intents[c.id].revision]
                     else s.admissions,
       admittedBy := if known && c.Admitted? then s.admittedBy[KeyOf(s.intents[c.id]) := c.id] else s.admittedBy)
  }

  function KeyOf(i: Intent): AdmissionKey { AdmissionKey(i.account, i.generation) }

  function ConsumeNext(s: State, k: nat, move: ConsumeMove): Option<State> {
    var c := ConsumeAnswer(s, k, move);
    if c.None? then None else Some(Record(s, k, c.value))
  }

  /** Recording a use is the intent's own Consume. */
  lemma UseIsConsume(s: State, k: nat)
    requires ConsumeNext(s, k, ConsumeUses).Some?
    ensures var c, t := s.consumes[k], ConsumeNext(s, k, ConsumeUses).value;
            var (i, e) := Presented(s.intents[c.id], c.revision, c.generation, c.steam);
            t.intents[c.id] == i && t.consumes[k] == (if e.None? then Used(c.id) else ConsumeRefused)
            && t.intents.Keys == s.intents.Keys
            && forall id :: id in s.intents && id != c.id ==> t.intents[id] == s.intents[id]
  {
  }

  function RunsNext(s: State, r: R.Step): Option<State> {
    if r.PrepareRegisters? then None
    else
      var t := R.Next(s.runs, r);
      if t.None? then None else Some(s.(runs := t.value))
  }

  function AccessNext(s: State, a: A.Step): Option<State> {
    if a.Register? then None
    else
      var t := A.Next(s.access, a);
      if t.None? then None else Some(s.(access := t.value))
  }

  function RegisterNext(s: State, n: nat): Option<State> {
    var t := R.Next(s.runs, R.PrepareRegisters(n));
    if t.None? then None
    else
      var u := A.Next(s.access, A.Register(n, s.runs.runs[n].owner));
      if u.None? then None else Some(s.(runs := t.value, access := u.value))
  }

  function Next(s: State, step: Step): Option<State> {
    match step
    case Runs(r) => RunsNext(s, r)
    case Access(a) => AccessNext(s, a)
    case Registers(n) => RegisterNext(s, n)
    case Issues(k, move) => IssueNext(s, k, move)
    case Consumes(k, move) => ConsumeNext(s, k, move)
  }

  predicate Init(s: State) {
    R.Init(s.runs) && A.Init(s.access) && s.intentSeq == 0 && s.intents == map[] && s.issues == map[]
    && s.consumes == map[] && s.admissions == map[] && s.issuedFor == map[] && s.numberedBy == map[]
    && s.admittedBy == map[]
  }

  // ----- the invariant -----

  predicate ReadyOn(s: State, prep: nat, generation: nat) {
    prep in s.runs.runs && s.runs.runs[prep].record.state == P.Ready
    && s.runs.runs[prep].process == Some(generation)
  }

  /** The preparation is ready with this revision and its process has this generation. */
  predicate Hosts(s: State, prep: nat, revision: string, generation: nat) {
    ReadyOn(s, prep, generation) && s.runs.runs[prep].record.revision == Some(revision)
  }

  ghost predicate IssueOk(s: State, k: nat, x: Issue) {
    match x
    case Captured(_, steam, prep, process, _) =>
      steam != 0 && s.runs.Registered(prep) && (process.Some? ==> s.runs.runs[prep].process == process)
    case Prepared(_, steam, prep, g) => steam != 0 && ReadyOn(s, prep, g) && s.runs.Registered(prep)
    case Slotted(account, steam, prep, g) => steam != 0 && ReadyOn(s, prep, g) && A.Entitled(s.access, prep, account)
    case Bound(account, steam, prep, g, revision) =>
      steam != 0 && Hosts(s, prep, revision, g) && A.Entitled(s.access, prep, account)
    case Numbered(account, steam, prep, g, revision, id) =>
      steam != 0 && Hosts(s, prep, revision, g) && A.Entitled(s.access, prep, account)
      && id <= s.intentSeq && id in s.numberedBy && s.numberedBy[id] == k
    case Panicked => false
    case Issued(_, _, _) => true
    case IssueRefused => true
  }

  ghost predicate IntentOk(s: State, id: nat, i: Intent) {
    && id in s.issuedFor && Hosts(s, s.issuedFor[id], i.revision, i.generation)
    && A.Entitled(s.access, s.issuedFor[id], i.account) && i.steam != 0
    && id <= s.intentSeq && id in s.numberedBy && s.numberedBy[id] in s.issues
    && s.issues[s.numberedBy[id]].Issued? && s.issues[s.numberedBy[id]].id == id
  }

  ghost predicate ConsumeOk(s: State, c: Consuming) {
    match c
    case Found(id, _, g, _) => id in s.intents && s.intents[id].generation == g
    case Used(id) => id in s.intents && s.intents[id].used
    case Admitted(id) => id in s.intents && s.intents[id].used
    case ConsumeRefused => true
  }

  /** The intent is used and grants this admission. */
  ghost predicate Grants(s: State, id: nat, key: AdmissionKey, revision: string) {
    id in s.intents
    && s.intents[id] == Intent(key.account, s.intents[id].steam, revision, key.generation, true)
  }

  ghost predicate AdmissionOk(s: State, key: AdmissionKey, revision: string) {
    key in s.admittedBy && Grants(s, s.admittedBy[key], key, revision)
  }

  ghost predicate LobbiesMatch(s: State) {
    (forall n: nat :: n in s.access.lobbies <==> s.runs.Registered(n))
    && (forall n: nat :: n in s.access.owners ==> n in s.runs.runs && s.access.owners[n] == s.runs.runs[n].owner)
  }

  ghost predicate Local(s: State) {
    && (forall k :: k in s.issues ==> IssueOk(s, k, s.issues[k]))
    && (forall id :: id in s.intents ==> IntentOk(s, id, s.intents[id]))
    && (forall k :: k in s.consumes ==> ConsumeOk(s, s.consumes[k]))
    && (forall key :: key in s.admissions ==> AdmissionOk(s, key, s.admissions[key]))
  }

  ghost predicate Inv(s: State) {
    R.Inv(s.runs) && A.Inv(s.access) && LobbiesMatch(s) && Local(s)
  }

  /** What the issuing and consuming calls rely on from the parts below them. */
  ghost predicate Facts(s: State) {
    && (forall n :: n in s.runs.runs ==> s.runs.runs[n].record.Sound())
    && (forall prep, account :: s.access.HoldsSlot(prep, account) ==> A.Entitled(s.access, prep, account))
    && (forall m, n :: m in s.runs.runs && n in s.runs.runs && m != n && s.runs.runs[m].process.Some?
          ==> s.runs.runs[m].process != s.runs.runs[n].process)
  }

  lemma FactsHold(s: State)
    requires R.Inv(s.runs) && A.Inv(s.access)
    ensures Facts(s)
  {
    forall n | n in s.runs.runs ensures s.runs.runs[n].record.Sound() {
      assert R.RunOk(s.runs, n, s.runs.runs[n]);
    }
    forall prep, account | s.access.HoldsSlot(prep, account) ensures A.Entitled(s.access, prep, account) {
      assert A.LobbyOk(s.access, prep);
    }
    forall m, n | m in s.runs.runs && n in s.runs.runs && m != n && s.runs.runs[m].process.Some?
      ensures s.runs.runs[m].process != s.runs.runs[n].process
    {
      if s.runs.runs[n].process.Some? { R.ProcessesDistinct(s.runs, m, n); }
    }
  }

  // ----- what no step undoes -----

  ghost predicate RunsLater(a: R.State, b: R.State) {
    forall n :: n in a.runs ==> n in b.runs && R.LaterRun(a.runs[n], b.runs[n])
  }

  ghost predicate IntentsLater(s: State, t: State) {
    (forall id :: id in s.intents ==>
       id in t.intents && t.intents[id] == s.intents[id].(used := t.intents[id].used)
       && (s.intents[id].used ==> t.intents[id].used))
    && (forall id :: id in s.intents && id in s.issuedFor ==> id in t.issuedFor && t.issuedFor[id] == s.issuedFor[id])
    && s.intentSeq <= t.intentSeq
    && (forall id :: id in s.numberedBy && id <= s.intentSeq
          ==> id in t.numberedBy && t.numberedBy[id] == s.numberedBy[id])
    && (forall k :: k in s.issues && s.issues[k].Issued? ==> k in t.issues && t.issues[k] == s.issues[k])
  }

  ghost predicate Later(s: State, t: State) {
    RunsLater(s.runs, t.runs) && A.Later(s.access, t.access) && IntentsLater(s, t)
  }

  lemma HostsKept(s: State, t: State, prep: nat, revision: string, generation: nat)
    requires RunsLater(s.runs, t.runs)
    ensures ReadyOn(s, prep, generation) ==> ReadyOn(t, prep, generation)
    ensures Hosts(s, prep, revision, generation) ==> Hosts(t, prep, revision, generation)
    ensures s.runs.Registered(prep) ==> t.runs.Registered(prep)
  {
    if prep in s.runs.runs { assert R.LaterRun(s.runs.runs[prep], t.runs.runs[prep]); }
  }

  lemma IssueKept(s: State, t: State, k: nat, x: Issue)
    requires Later(s, t) && IssueOk(s, k, x)
    ensures IssueOk(t, k, x)
  {
    if !x.Panicked? && !x.Issued? && !x.IssueRefused? {
      HostsKept(s, t, x.prep, if x.Bound? || x.Numbered? then x.revision else "",
                if x.Captured? then 0 else x.generation);
      if x.Captured? { assert R.LaterRun(s.runs.runs[x.prep], t.runs.runs[x.prep]); }
    }
  }

  lemma IntentKept(s: State, t: State, id: nat)
    requires Later(s, t) && id in s.intents && IntentOk(s, id, s.intents[id])
    ensures id in t.intents && IntentOk(t, id, t.intents[id])
  {
    HostsKept(s, t, s.issuedFor[id], s.intents[id].revision, s.intents[id].generation);
  }

  lemma AdmissionKept(s: State, t: State, key: AdmissionKey, revision: string)
    requires IntentsLater(s, t) && AdmissionOk(s, key, revision)
    requires key in t.admittedBy && t.admittedBy[key] == s.admittedBy[key]
    ensures AdmissionOk(t, key, revision)
  {
  }

  ghost predicate IssuesTouched(s: State, t: State) {
    forall k :: k in t.issues ==> (k in s.issues && t.issues[k] == s.issues[k]) || IssueOk(t, k, t.issues[k])
  }

  ghost predicate IntentsTouched(s: State, t: State) {
    forall id :: id in t.intents ==> id in s.intents || IntentOk(t, id, t.intents[id])
  }

  ghost predicate ConsumesTouched(s: State, t: State) {
    forall k :: k in t.consumes ==> (k in s.consumes && t.consumes[k] == s.consumes[k]) || ConsumeOk(t, t.consumes[k])
  }

  ghost predicate SameAdmission(s: State, t: State, key: AdmissionKey) {
    key in s.admissions && key in t.admissions && t.admissions[key] == s.admissions[key]
    && key in t.admittedBy && key in s.admittedBy && t.admittedBy[key] == s.admittedBy[key]
  }

  ghost predicate AdmissionsTouched(s: State, t: State) {
    forall key :: key in t.admissions ==> SameAdmission(s, t, key) || AdmissionOk(t, key, t.admissions[key])
  }

  /** Whatever a step leaves alone keeps its part; what it touched must be shown. */
  lemma LocalKept(s: State, t: State)
    requires Local(s) && Later(s, t)
    requires IssuesTouched(s, t) && IntentsTouched(s, t) && ConsumesTouched(s, t) && AdmissionsTouched(s, t)
    ensures Local(t)
  {
    forall k | k in t.issues ensures IssueOk(t, k, t.issues[k]) {
      if k in s.issues && t.issues[k] == s.issues[k] { IssueKept(s, t, k, s.issues[k]); }
    }
    forall id | id in t.intents ensures IntentOk(t, id, t.intents[id]) {
      if id in s.intents { IntentKept(s, t, id); }
    }
    forall k | k in t.consumes ensures ConsumeOk(t, t.consumes[k]) {
      if k in s.consumes && t.consumes[k] == s.consumes[k] { ConsumeKept(s, t, s.consumes[k]); }
    }
    forall key | key in t.admissions ensures AdmissionOk(t, key, t.admissions[key]) {
      if SameAdmission(s, t, key) { AdmissionKept(s, t, key, t.admissions[key]); }
    }
  }

  lemma ConsumeKept(s: State, t: State, c: Consuming)
    requires IntentsLater(s, t) && ConsumeOk(s, c)
    ensures ConsumeOk(t, c)
  {
  }

  // ----- steps of the preparations and the lobbies -----

  lemma RunsMove(a: R.State, r: R.Step, b: R.State)
    requires R.Inv(a) && R.Next(a, r) == Some(b)
    ensures R.Inv(b) && RunsLater(a, b)
  {
    R.StepInv(a, r, b);
    forall n | n in a.runs ensures n in b.runs && R.LaterRun(a.runs[n], b.runs[n]) {
      R.StepLater(a, r, b, n);
    }
  }

  lemma AccessMove(a: A.State, x: A.Step, b: A.State)
    requires A.Inv(a) && A.Next(a, x) == Some(b)
    ensures A.Inv(b) && A.Later(a, b)
  {
    A.StepInv(a, x);
  }

  lemma RunsSame(a: R.State)
    ensures RunsLater(a, a)
  {
  }

  lemma AccessSame(a: A.State)
    ensures A.Later(a, a)
  {
  }

  /** What a section of the orchestrator's calls leaves to the preparations and lobbies. */
  ghost predicate Embedded(s: State, t: State) {
    R.Inv(t.runs) && A.Inv(t.access) && RunsLater(s.runs, t.runs) && A.Later(s.access, t.access)
  }

  lemma EmbeddedRuns(s: State, r: R.Step, t: State)
    requires R.Inv(s.runs) && A.Inv(s.access) && RunsNext(s, r) == Some(t)
    ensures Embedded(s, t)
  {
    RunsMove(s.runs, r, t.runs);
    AccessSame(s.access);
  }

  lemma EmbeddedAccess(s: State, a: A.Step, t: State)
    requires R.Inv(s.runs) && A.Inv(s.access) && AccessNext(s, a) == Some(t)
    ensures Embedded(s, t)
  {
    AccessMove(s.access, a, t.access);
    RunsSame(s.runs);
  }

  lemma EmbeddedRegisters(s: State, n: nat, t: State)
    requires R.Inv(s.runs) && A.Inv(s.access) && RegisterNext(s, n) == Some(t)
    ensures Embedded(s, t)
  {
    RunsMove(s.runs, R.PrepareRegisters(n), t.runs);
    AccessMove(s.access, A.Register(n, s.runs.runs[n].owner), t.access);
  }

  lemma RegisteredSame(a: R.State, r: R.Step, b: R.State, n: nat)
    requires R.Local(a) && R.Next(a, r) == Some(b) && !r.PrepareRegisters?
    ensures a.Registered(n) <==> b.Registered(n)
  {
    if n in a.runs {
      assert R.RunOk(a, n, a.runs[n]);
      if R.Acted(a, r) != Some(n) {
        R.ActedOnly(a, r, b, n);
      } else {
        ActedRegistered(a, r, b, n);
      }
    } else if n in b.runs {
      Appeared(a, r, b, n);
    }
  }

  lemma ActedRegistered(a: R.State, r: R.Step, b: R.State, n: nat)
    requires n in a.runs && n <= a.seqno && R.Next(a, r) == Some(b) && !r.PrepareRegisters?
    requires R.Acted(a, r) == Some(n)
    requires forall k :: k in a.cancels ==> R.CancelOk(a, a.cancels[k])
    ensures a.Registered(n) <==> b.Registered(n)
  {
    if r.CancelMarks? { assert R.CancelOk(a, a.cancels[r.k]); }
  }

  lemma Appeared(a: R.State, r: R.Step, b: R.State, n: nat)
    requires n !in a.runs && n in b.runs && R.Next(a, r) == Some(b)
    ensures !b.Registered(n)
  {
  }

  lemma RegistersOne(a: R.State, n: nat, b: R.State)
    requires R.Next(a, R.PrepareRegisters(n)) == Some(b)
    ensures b.Registered(n) && forall m: nat :: m != n ==> (a.Registered(m) <==> b.Registered(m))
  {
  }

  lemma OwnersMatch(s: State, t: State)
    requires LobbiesMatch(s) && RunsLater(s.runs, t.runs)
    requires forall n: nat :: n in t.access.owners ==>
               (n in s.access.owners && t.access.owners[n] == s.access.owners[n])
               || (n in t.runs.runs && t.access.owners[n] == t.runs.runs[n].owner)
    requires forall n: nat :: n in t.access.lobbies <==> t.runs.Registered(n)
    ensures LobbiesMatch(t)
  {
  }

  lemma AccessKeys(a: A.State, x: A.Step, b: A.State)
    requires A.Next(a, x) == Some(b) && !x.Register?
    ensures b.lobbies.Keys == a.lobbies.Keys && b.owners == a.owners
  {
  }

  lemma MatchRuns(s: State, r: R.Step, t: State)
    requires R.Local(s.runs) && LobbiesMatch(s) && RunsNext(s, r) == Some(t) && RunsLater(s.runs, t.runs)
    ensures LobbiesMatch(t)
  {
    forall n: nat ensures s.runs.Registered(n) <==> t.runs.Registered(n) {
      RegisteredSame(s.runs, r, t.runs, n);
    }
    OwnersMatch(s, t);
  }

  lemma MatchAccess(s: State, a: A.Step, t: State)
    requires LobbiesMatch(s) && AccessNext(s, a) == Some(t)
    ensures LobbiesMatch(t)
  {
    AccessKeys(s.access, a, t.access);
    RunsSame(s.runs);
    assert forall n: nat :: n in t.access.lobbies <==> n in t.access.lobbies.Keys;
    OwnersMatch(s, t);
  }

  lemma MatchRegisters(s: State, n: nat, t: State)
    requires LobbiesMatch(s) && RegisterNext(s, n) == Some(t) && RunsLater(s.runs, t.runs)
    ensures LobbiesMatch(t)
  {
    RegistersOne(s.runs, n, t.runs);
    OwnersMatch(s, t);
  }

  // ----- steps of issuing and consuming -----

  /** A numbered intent is not stored yet. */
  lemma NumberFresh(s: State, k: nat)
    requires Local(s) && k in s.issues && s.issues[k].Numbered?
    ensures s.issues[k].id !in s.intents
  {
    var id := s.issues[k].id;
    assert IssueOk(s, k, s.issues[k]);
    assert id in s.intents ==> IntentOk(s, id, s.intents[id]);
  }

  ghost predicate NumberedOk(s: State, x: Issue)
    requires x.Numbered?
  {
    x.steam != 0 && Hosts(s, x.prep, x.revision, x.generation) && A.Entitled(s.access, x.prep, x.account)
  }

  ghost predicate StorableOk(s: State, x: Issue)
    requires x.Issued?
  {
    x.intent.steam != 0 && Hosts(s, x.prep, x.intent.revision, x.intent.generation)
    && A.Entitled(s.access, x.prep, x.intent.account)
  }

  ghost predicate AnswerSound(s: State, k: nat, x: Issue) {
    && (k in s.issues ==> !s.issues[k].Issued?)
    && (!x.Numbered? ==> IssueOk(s, k, x))
    && (x.Numbered? ==> x.id == s.intentSeq + 1 && NumberedOk(s, x))
    && (x.Issued? ==> k in s.issues && s.issues[k].Numbered? && s.issues[k].id == x.id && StorableOk(s, x))
  }

  /** One issuing step keeps its own call's part; what it stores is a sound intent. */
  lemma AnswerOk(s: State, k: nat, move: IssueMove, x: Issue)
    requires IssueAnswer(s, k, move) == Some(x) && Facts(s) && LobbiesMatch(s)
    requires forall j :: j in s.issues ==> IssueOk(s, j, s.issues[j])
    ensures AnswerSound(s, k, x)
  {
    assert k in s.issues ==> IssueOk(s, k, s.issues[k]);
  }

  lemma SettleLater(s: State, k: nat, x: Issue)
    requires x.Numbered? ==> x.id == s.intentSeq + 1
    requires x.Issued? ==> x.id !in s.intents
    requires k in s.issues ==> !s.issues[k].Issued?
    ensures IntentsLater(s, Settle(s, k, x))
  {
  }

  lemma SettleOk(s: State, k: nat, x: Issue)
    requires !x.Numbered? ==> IssueOk(s, k, x)
    requires x.Numbered? ==> NumberedOk(s, x)
    ensures IssueOk(Settle(s, k, x), k, x)
  {
  }

  lemma StoredOk(s: State, k: nat, x: Issue)
    requires x.Issued? && StorableOk(s, x)
    requires x.id <= s.intentSeq && x.id in s.numberedBy && s.numberedBy[x.id] == k
    ensures IntentOk(Settle(s, k, x), x.id, x.intent)
  {
  }

  lemma IssueStep(s: State, k: nat, x: Issue)
    requires Local(s) && Later(s, Settle(s, k, x))
    requires IssueOk(Settle(s, k, x), k, x)
    requires x.Issued? ==> IntentOk(Settle(s, k, x), x.id, x.intent)
    ensures Local(Settle(s, k, x))
  {
    AdmissionsRecorded(s);
    LocalKept(s, Settle(s, k, x));
  }

  lemma AdmissionsRecorded(s: State)
    requires Local(s)
    ensures forall key :: key in s.admissions ==> key in s.admittedBy
  {
    forall key | key in s.admissions ensures key in s.admittedBy {
      assert AdmissionOk(s, key, s.admissions[key]);
    }
  }

  lemma OnlyUses(s: State, t: State)
    requires t.issues == s.issues && t.numberedBy == s.numberedBy && t.intentSeq == s.intentSeq
    requires t.issuedFor == s.issuedFor
    requires forall id :: id in s.intents ==>
               id in t.intents && (t.intents[id] == s.intents[id] || t.intents[id] == s.intents[id].(used := true))
    ensures IntentsLater(s, t)
  {
  }

  lemma RecordFrame(s: State, k: nat, c: Consuming)
    ensures var t := Record(s, k, c);
            t.runs == s.runs && t.access == s.access && t.issues == s.issues && t.numberedBy == s.numberedBy
            && t.intentSeq == s.intentSeq && t.issuedFor == s.issuedFor
  {
  }

  lemma RecordIntents(s: State, k: nat, c: Consuming)
    ensures Record(s, k, c).intents == s.intents
            || (c.Used? && c.id in s.intents
                && Record(s, k, c).intents == s.intents[c.id := s.intents[c.id].(used := true)])
  {
  }

  lemma RecordLater(s: State, k: nat, c: Consuming)
    ensures IntentsLater(s, Record(s, k, c))
    ensures Record(s, k, c).runs == s.runs && Record(s, k, c).access == s.access
  {
    RecordFrame(s, k, c);
    RecordIntents(s, k, c);
    OnlyUses(s, Record(s, k, c));
  }

  lemma ConsumeAnswerOk(s: State, k: nat, move: ConsumeMove, c: Consuming)
    requires ConsumeAnswer(s, k, move) == Some(c)
    requires k in s.consumes ==> ConsumeOk(s, s.consumes[k])
    ensures c.Used? ==> c.id in s.intents
    ensures !c.Used? ==> ConsumeOk(s, c)
  {
  }

  lemma RecordOk(s: State, k: nat, c: Consuming)
    requires c.Used? ==> c.id in s.intents
    requires !c.Used? ==> ConsumeOk(s, c)
    ensures ConsumeOk(Record(s, k, c), c) && Record(s, k, c).consumes == s.consumes[k := c]
    ensures Record(s, k, c).issues == s.issues && Record(s, k, c).intents.Keys == s.intents.Keys
    ensures !c.Admitted? ==> Record(s, k, c).admissions == s.admissions && Record(s, k, c).admittedBy == s.admittedBy
  {
  }

  /** All intents of one process generation carry one revision: a generation belongs to one
      preparation, and a ready preparation has one revision. */
  lemma OneRevision(s: State, i: nat, j: nat)
    requires Local(s) && Facts(s) && i in s.intents && j in s.intents
    requires s.intents[i].generation == s.intents[j].generation
    ensures s.intents[i].revision == s.intents[j].revision
    ensures i in s.issuedFor && j in s.issuedFor && s.issuedFor[i] == s.issuedFor[j]
  {
    assert IntentOk(s, i, s.intents[i]) && IntentOk(s, j, s.intents[j]);
  }

  /** So do all admissions of one generation, and an intent about to be admitted. */
  lemma OneRevisionAdmitted(s: State, key: AdmissionKey, id: nat)
    requires Local(s) && Facts(s) && key in s.admissions
    requires id in s.intents && s.intents[id].generation == key.generation
    ensures s.admissions[key] == s.intents[id].revision
  {
    assert AdmissionOk(s, key, s.admissions[key]);
    OneRevision(s, s.admittedBy[key], id);
  }

  lemma AdmissionsAgree(s: State, a: AdmissionKey, b: AdmissionKey)
    requires Local(s) && Facts(s) && a in s.admissions && b in s.admissions && a.generation == b.generation
    ensures s.admissions[a] == s.admissions[b]
  {
    assert AdmissionOk(s, b, s.admissions[b]);
    OneRevisionAdmitted(s, a, s.admittedBy[b]);
  }

  ghost predicate AdmissionsGrow(a: AdmissionTable, b: AdmissionTable) {
    forall key :: key in a ==> key in b && b[key] == a[key]
  }

  lemma AdmitOk(s: State, k: nat, c: Consuming)
    requires c.Admitted? && ConsumeOk(s, c)
    ensures var key, t := KeyOf(s.intents[c.id]), Record(s, k, c);
            && t.admissions == s.admissions[key := s.intents[c.id].revision]
            && t.admittedBy == s.admittedBy[key := c.id] && AdmissionOk(t, key, t.admissions[key])
  {
  }

  lemma AdmitTouched(s: State, k: nat, c: Consuming)
    requires Local(s) && Facts(s) && ConsumeOk(s, c) && c.Admitted?
    ensures AdmissionsTouched(s, Record(s, k, c)) && AdmissionsGrow(s.admissions, Record(s, k, c).admissions)
  {
    AdmissionsRecorded(s);
    var key := KeyOf(s.intents[c.id]);
    AdmitOk(s, k, c);
    if key in s.admissions { OneRevisionAdmitted(s, key, c.id); }
  }

  lemma ConsumeStep(s: State, k: nat, c: Consuming)
    requires Local(s) && Facts(s) && Later(s, Record(s, k, c))
    requires c.Used? ==> c.id in s.intents
    requires !c.Used? ==> ConsumeOk(s, c)
    ensures Local(Record(s, k, c)) && AdmissionsGrow(s.admissions, Record(s, k, c).admissions)
  {
    RecordOk(s, k, c);
    if c.Admitted? { AdmitTouched(s, k, c); } else { AdmissionsRecorded(s); }
    LocalKept(s, Record(s, k, c));
  }

  lemma OutsideStep(s: State, t: State)
    requires Local(s) && Later(s, t) && t == s.(runs := t.runs, access := t.access)
    ensures Local(t)
  {
    AdmissionsRecorded(s);
    LocalKept(s, t);
  }

  // ----- every step -----

  /** What a step keeps, and that it only adds admissions. */
  ghost predicate Moved(s: State, t: State) {
    Inv(t) && Later(s, t) && AdmissionsGrow(s.admissions, t.admissions)
  }

  lemma RunsStep(s: State, r: R.Step, t: State)
    requires Inv(s) && RunsNext(s, r) == Some(t)
    ensures Moved(s, t)
  {
    EmbeddedRuns(s, r, t);
    MatchRuns(s, r, t);
    OutsideStep(s, t);
  }

  lemma AccessStep(s: State, a: A.Step, t: State)
    requires Inv(s) && AccessNext(s, a) == Some(t)
    ensures Moved(s, t)
  {
    EmbeddedAccess(s, a, t);
    MatchAccess(s, a, t);
    OutsideStep(s, t);
  }

  lemma RegisterStep(s: State, n: nat, t: State)
    requires Inv(s) && RegisterNext(s, n) == Some(t)
    ensures Moved(s, t)
  {
    EmbeddedRegisters(s, n, t);
    MatchRegisters(s, n, t);
    OutsideStep(s, t);
  }

  lemma SameLater(s: State, t: State)
    requires IntentsLater(s, t) && t.runs == s.runs && t.access == s.access
    ensures Later(s, t)
  {
    RunsSame(s.runs);
    AccessSame(s.access);
  }

  lemma IssueStored(s: State, k: nat, x: Issue)
    requires Local(s) && k in s.issues && s.issues[k].Numbered?
    requires x.Issued? && s.issues[k].id == x.id && StorableOk(s, x)
    ensures IntentOk(Settle(s, k, x), x.id, x.intent) && x.id !in s.intents
  {
    NumberFresh(s, k);
    assert IssueOk(s, k, s.issues[k]);
    StoredOk(s, k, x);
  }

  lemma IssueSettles(s: State, k: nat, x: Issue)
    requires Local(s) && AnswerSound(s, k, x)
    ensures Local(Settle(s, k, x)) && Later(s, Settle(s, k, x))
  {
    if x.Issued? { IssueStored(s, k, x); }
    SettleLater(s, k, x);
    SettleOk(s, k, x);
    SameLater(s, Settle(s, k, x));
    IssueStep(s, k, x);
  }

  lemma SettleFrame(s: State, k: nat, x: Issue)
    ensures var t := Settle(s, k, x); t.admissions == s.admissions && t.runs == s.runs && t.access == s.access
  {
  }

  lemma IssuesStep(s: State, k: nat, move: IssueMove, x: Issue)
    requires Local(s) && LobbiesMatch(s) && Facts(s) && IssueAnswer(s, k, move) == Some(x)
    ensures Local(Settle(s, k, x)) && Later(s, Settle(s, k, x))
  {
    AnswerOk(s, k, move, x);
    IssueSettles(s, k, x);
  }

  lemma ConsumesStep(s: State, k: nat, move: ConsumeMove, t: State)
    requires Local(s) && Facts(s) && ConsumeNext(s, k, move) == Some(t)
    ensures Local(t) && Later(s, t) && AdmissionsGrow(s.admissions, t.admissions)
    ensures t.runs == s.runs && t.access == s.access
  {
    var c := ConsumeAnswer(s, k, move).value;
    ConsumeAnswerOk(s, k, move, c);
    ConsumeRecords(s, k, c);
  }

  lemma ConsumeRecords(s: State, k: nat, c: Consuming)
    requires Local(s) && Facts(s)
    requires c.Used? ==> c.id in s.intents
    requires !c.Used? ==> ConsumeOk(s, c)
    ensures Local(Record(s, k, c)) && Later(s, Record(s, k, c))
    ensures AdmissionsGrow(s.admissions, Record(s, k, c).admissions)
    ensures Record(s, k, c).runs == s.runs && Record(s, k, c).access == s.access
  {
    RecordLater(s, k, c);
    SameLater(s, Record(s, k, c));
    ConsumeStep(s, k, c);
  }

  lemma StepInv(s: State, step: Step, t: State)
    requires Inv(s) && Next(s, step) == Some(t)
    ensures Moved(s, t)
  {
    match step
    case Runs(r) => RunsStep(s, r, t);
    case Access(a) => AccessStep(s, a, t);
    case Registers(n) => RegisterStep(s, n, t);
    case Issues(k, move) =>
      FactsHold(s);
      var x := IssueAnswer(s, k, move).value;
      IssuesStep(s, k, move, x);
      SettleFrame(s, k, x);
    case Consumes(k, move) =>
      FactsHold(s);
      ConsumesStep(s, k, move, t);
  }

  lemma InitInv(s: State)
    requires Init(s)
    ensures Inv(s)
  {
    R.InitInv(s.runs);
    A.InitInv(s.access);
  }

  // ----- runs -----

  /** A run as seen from here: a missing step is somebody else's. */
  ghost predicate IsRun(states: seq<State>, steps: seq<Option<Step>>) {
    |states| == |steps| + 1 && Init(states[0])
    && forall i :: 0 <= i < |steps| ==> Moves(states[i], steps[i], states[i + 1])
  }

  ghost predicate Moves(s: State, step: Option<Step>, t: State) {
    if step.None? then t == s else Next(s, step.value) == Some(t)
  }

  lemma MovesInv(s: State, step: Option<Step>, t: State)
    requires Inv(s) && Moves(s, step, t)
    ensures Moved(s, t)
  {
    if step.None? {
      RunsSame(s.runs);
      AccessSame(s.access);
    } else {
      StepInv(s, step.value, t);
    }
  }

  lemma RunInv(states: seq<State>, steps: seq<Option<Step>>)
    requires IsRun(states, steps)
    ensures forall i :: 0 <= i < |states| ==> Inv(states[i])
    ensures forall i :: 0 <= i < |steps| ==> Moved(states[i], states[i + 1])
  {
    InitInv(states[0]);
    for i := 0 to |steps|
      invariant forall j :: 0 <= j <= i ==> Inv(states[j])
      invariant forall j :: 0 <= j < i ==> Moved(states[j], states[j + 1])
    {
      MovesInv(states[i], steps[i], states[i + 1]);
    }
  }

  /** Over every run admissions only grow: none is withdrawn, none changes its revision. */
  lemma AdmissionsOnlyGrow(states: seq<State>, steps: seq<Option<Step>>, i: nat, j: nat)
    requires IsRun(states, steps) && i <= j < |states|
    ensures AdmissionsGrow(states[i].admissions, states[j].admissions)
  {
    RunInv(states, steps);
    for k := i to j
      invariant AdmissionsGrow(states[i].admissions, states[k].admissions)
    {
      assert Moved(states[k], states[k + 1]);
    }
  }

  /** Over every run all intents and all admissions of one process generation carry one revision. */
  lemma GenerationHasOneRevision(states: seq<State>, steps: seq<Option<Step>>, i: nat, m: nat, n: nat,
                                 key: AdmissionKey)
    requires IsRun(states, steps) && i < |states| && m in states[i].intents && n in states[i].intents
    requires states[i].intents[m].generation == states[i].intents[n].generation == key.generation
    ensures states[i].intents[m].revision == states[i].intents[n].revision
    ensures key in states[i].admissions ==> states[i].admissions[key] == states[i].intents[m].revision
  {
    RunInv(states, steps);
    FactsHold(states[i]);
    OneRevision(states[i], m, n);
    if key in states[i].admissions { OneRevisionAdmitted(states[i], key, m); }
  }

  // ----- where an intent comes from -----

  /** At this moment the preparation was ready with the revision, its ready process of this
      generation was recorded, and the account held a slot in its lobby. */
  predicate HeldSlot(s: State, prep: nat, account: string, revision: string, generation: nat) {
    Hosts(s, prep, revision, generation) && s.access.HoldsSlot(prep, account)
  }

  ghost predicate Witnessed(states: seq<State>, j: nat, prep: nat, account: string, revision: string, generation: nat)
    requires j < |states|
  {
    exists w :: 0 <= w <= j && HeldSlot(states[w], prep, account, revision, generation)
  }

  /** The revision a ready preparation carries. */
  function RevisionOf(s: State, prep: nat): string {
    if prep in s.runs.runs && s.runs.runs[prep].record.revision.Some?
    then s.runs.runs[prep].record.revision.value else ""
  }

  /** The slot check of this call has a moment behind it. */
  ghost predicate IssueTraced(states: seq<State>, j: nat, x: Issue)
    requires j < |states|
  {
    x.Slotted? || x.Bound? || x.Numbered?
    ==> Witnessed(states, j, x.prep, x.account, RevisionOf(states[j], x.prep), x.generation)
  }

  ghost predicate IntentTraced(states: seq<State>, j: nat, id: nat)
    requires j < |states| && id in states[j].intents
  {
    var i := states[j].intents[id];
    id in states[j].issuedFor && Witnessed(states, j, states[j].issuedFor[id], i.account, i.revision, i.generation)
  }

  ghost predicate Traced(states: seq<State>, j: nat)
    requires j < |states|
  {
    && (forall k :: k in states[j].issues ==> IssueTraced(states, j, states[j].issues[k]))
    && (forall id :: id in states[j].intents ==> IntentTraced(states, j, id))
  }

  lemma WitnessKept(states: seq<State>, j: nat, prep: nat, account: string, revision: string, generation: nat)
    requires j + 1 < |states| && Witnessed(states, j, prep, account, revision, generation)
    ensures Witnessed(states, j + 1, prep, account, revision, generation)
  {
    var w :| 0 <= w <= j && HeldSlot(states[w], prep, account, revision, generation);
  }

  lemma RevisionKept(s: State, t: State, prep: nat, generation: nat)
    requires RunsLater(s.runs, t.runs) && ReadyOn(s, prep, generation)
    ensures RevisionOf(t, prep) == RevisionOf(s, prep)
  {
    assert R.LaterRun(s.runs.runs[prep], t.runs.runs[prep]);
  }

  /** A call that has not moved keeps its moment. */
  lemma IssueTraceKept(states: seq<State>, j: nat, k: nat, x: Issue)
    requires j + 1 < |states| && IssueTraced(states, j, x) && IssueOk(states[j], k, x)
    requires RunsLater(states[j].runs, states[j + 1].runs)
    ensures IssueTraced(states, j + 1, x)
  {
    if x.Slotted? || x.Bound? || x.Numbered? {
      RevisionKept(states[j], states[j + 1], x.prep, x.generation);
      WitnessKept(states, j, x.prep, x.account, RevisionOf(states[j], x.prep), x.generation);
    }
  }

  lemma IntentTraceKept(states: seq<State>, j: nat, id: nat)
    requires j + 1 < |states| && id in states[j].intents && IntentTraced(states, j, id)
    requires IntentsLater(states[j], states[j + 1])
    ensures id in states[j + 1].intents && IntentTraced(states, j + 1, id)
  {
    var i := states[j].intents[id];
    WitnessKept(states, j, states[j].issuedFor[id], i.account, i.revision, i.generation);
  }

  /** The call that moves: its slot check is the moment, and later sections carry it along. */
  lemma IssueTraceMoves(states: seq<State>, j: nat, k: nat, move: IssueMove, x: Issue)
    requires j + 1 < |states| && IssueAnswer(states[j], k, move) == Some(x) && states[j + 1] == Settle(states[j], k, x)
    requires k in states[j].issues ==>
               IssueOk(states[j], k, states[j].issues[k]) && IssueTraced(states, j, states[j].issues[k])
    requires Facts(states[j]) && LobbiesMatch(states[j])
    ensures IssueTraced(states, j + 1, x)
    ensures x.Issued? ==> Witnessed(states, j + 1, x.prep, x.intent.account, x.intent.revision, x.intent.generation)
  {
    var s := states[j];
    SettleFrame(s, k, x);
    if move.IssueSlots? && x.Slotted? {
      assert HeldSlot(s, x.prep, x.account, RevisionOf(s, x.prep), x.generation);
    } else if x.Bound? || x.Numbered? {
      var y := s.issues[k];
      WitnessKept(states, j, y.prep, y.account, RevisionOf(s, y.prep), y.generation);
    } else if x.Issued? {
      var y := s.issues[k];
      WitnessKept(states, j, y.prep, y.account, RevisionOf(s, y.prep), y.generation);
    }
  }

  ghost predicate CallsStand(s: State, t: State) {
    t.issues == s.issues && t.intents.Keys == s.intents.Keys
  }

  lemma RunsFrame(s: State, r: R.Step, t: State)
    requires RunsNext(s, r) == Some(t)
    ensures CallsStand(s, t)
  {
  }

  lemma AccessFrame(s: State, a: A.Step, t: State)
    requires AccessNext(s, a) == Some(t)
    ensures CallsStand(s, t)
  {
  }

  lemma RegisterFrame(s: State, n: nat, t: State)
    requires RegisterNext(s, n) == Some(t)
    ensures CallsStand(s, t)
  {
  }

  /** Only its own sections move an issuing call, and only the last one stores an intent. */
  lemma CallsMove(s: State, step: Step, t: State)
    requires Next(s, step) == Some(t) && !step.Issues?
    ensures CallsStand(s, t)
  {
    match step
    case Runs(r) => RunsFrame(s, r, t);
    case Access(a) => AccessFrame(s, a, t);
    case Registers(n) => RegisterFrame(s, n, t);
    case Consumes(k, move) =>
      RecordFrame(s, k, ConsumeAnswer(s, k, move).value);
      RecordIntents(s, k, ConsumeAnswer(s, k, move).value);
  }

  lemma IssueMovesOne(s: State, k: nat, move: IssueMove, x: Issue)
    requires IssueAnswer(s, k, move) == Some(x)
    ensures var t := Settle(s, k, x);
            t.issues == s.issues[k := x] && (forall id :: id in t.intents && id !in s.intents ==> NewIntent(t, id, x))
  {
  }

  ghost predicate NewIntent(t: State, id: nat, x: Issue) {
    x.Issued? && id == x.id && id in t.intents && t.intents[id] == x.intent
    && id in t.issuedFor && t.issuedFor[id] == x.prep
  }

  /** The calls that did not move and the intents already stored have their moments. */
  ghost predicate OthersOk(states: seq<State>, j: nat)
    requires j + 1 < |states|
  {
    && (forall k :: k in states[j].issues && k in states[j + 1].issues && states[j + 1].issues[k] == states[j].issues[k]
          ==> IssueTraced(states, j + 1, states[j + 1].issues[k]))
    && (forall id :: id in states[j].intents ==> id in states[j + 1].intents && IntentTraced(states, j + 1, id))
  }

  lemma OthersTraced(states: seq<State>, j: nat)
    requires j + 1 < |states| && Local(states[j]) && Later(states[j], states[j + 1]) && Traced(states, j)
    ensures OthersOk(states, j)
  {
    var s, t := states[j], states[j + 1];
    forall k | k in s.issues && k in t.issues && t.issues[k] == s.issues[k]
      ensures IssueTraced(states, j + 1, t.issues[k])
    {
      assert IssueOk(s, k, s.issues[k]) && IssueTraced(states, j, s.issues[k]);
      IssueTraceKept(states, j, k, s.issues[k]);
    }
    forall id | id in s.intents ensures id in t.intents && IntentTraced(states, j + 1, id) {
      IntentTraceKept(states, j, id);
    }
  }

  lemma TracedSettled(states: seq<State>, j: nat, k: nat, x: Issue)
    requires j + 1 < |states| && OthersOk(states, j) && IssueTraced(states, j + 1, x)
    requires x.Issued? ==> Witnessed(states, j + 1, x.prep, x.intent.account, x.intent.revision, x.intent.generation)
    requires states[j + 1].issues == states[j].issues[k := x]
    requires forall id :: id in states[j + 1].intents && id !in states[j].intents ==> NewIntent(states[j + 1], id, x)
    ensures Traced(states, j + 1)
  {
    var t := states[j + 1];
    forall id | id in t.intents ensures IntentTraced(states, j + 1, id) {
      if id !in states[j].intents { assert NewIntent(states[j + 1], id, x); }
    }
  }

  lemma TracedIssue(states: seq<State>, j: nat, k: nat, move: IssueMove, x: Issue)
    requires j + 1 < |states| && Local(states[j]) && Facts(states[j]) && LobbiesMatch(states[j])
    requires Traced(states, j) && OthersOk(states, j)
    requires IssueAnswer(states[j], k, move) == Some(x) && states[j + 1] == Settle(states[j], k, x)
    ensures Traced(states, j + 1)
  {
    if k in states[j].issues {
      assert IssueOk(states[j], k, states[j].issues[k]) && IssueTraced(states, j, states[j].issues[k]);
    }
    IssueMovesOne(states[j], k, move, x);
    IssueTraceMoves(states, j, k, move, x);
    TracedSettled(states, j, k, x);
  }

  lemma TracedOther(states: seq<State>, j: nat)
    requires j + 1 < |states| && OthersOk(states, j) && CallsStand(states[j], states[j + 1])
    ensures Traced(states, j + 1)
  {
  }

  lemma TracedMove(states: seq<State>, step: Option<Step>, j: nat)
    requires j + 1 < |states| && Moves(states[j], step, states[j + 1]) && OthersOk(states, j)
    requires Local(states[j]) && Facts(states[j]) && LobbiesMatch(states[j]) && Traced(states, j)
    ensures Traced(states, j + 1)
  {
    if step.None? {
      TracedOther(states, j);
    } else if step.value.Issues? {
      TracedIssue(states, j, step.value.k, step.value.i, IssueAnswer(states[j], step.value.k, step.value.i).value);
    } else {
      CallsMove(states[j], step.value, states[j + 1]);
      TracedOther(states, j);
    }
  }

  lemma TracedStep(states: seq<State>, steps: seq<Option<Step>>, j: nat)
    requires IsRun(states, steps) && j < |steps| && Traced(states, j)
    requires forall i :: 0 <= i < |states| ==> Inv(states[i])
    requires forall i :: 0 <= i < |steps| ==> Moved(states[i], states[i + 1])
    ensures Traced(states, j + 1)
  {
    assert Inv(states[j]) && Moved(states[j], states[j + 1]);
    FactsHold(states[j]);
    OthersTraced(states, j);
    TracedMove(states, steps[j], j);
  }

  lemma TracedNext(states: seq<State>, steps: seq<Option<Step>>, j: nat)
    requires IsRun(states, steps) && j < |steps| && Traced(states, j)
    ensures Traced(states, j + 1)
  {
    RunInv(states, steps);
    TracedStep(states, steps, j);
  }

  lemma TracedInit(states: seq<State>)
    requires |states| > 0 && Init(states[0])
    ensures Traced(states, 0)
  {
  }

  lemma {:induction false} RunTraced(states: seq<State>, steps: seq<Option<Step>>, j: nat)
    requires IsRun(states, steps) && j < |states|
    ensures Traced(states, j)
  {
    if j == 0 {
      TracedInit(states);
    } else {
      RunTraced(states, steps, j - 1);
      TracedNext(states, steps, j - 1);
    }
  }

  /** At such a moment the recorded process is the one its Allocate call handed out as ready, and
      the slot is earned. */
  lemma HeldIsEarned(s: State, prep: nat, account: string, revision: string, generation: nat)
    requires Inv(s) && HeldSlot(s, prep, account, revision, generation)
    ensures R.ProcessReady(s.runs, prep, generation) && A.Entitled(s.access, prep, account)
  {
    FactsHold(s);
    R.RecordedIsReady(s.runs, prep);
  }

  /** In every run, every intent was issued at a moment when its preparation was ready with the
      intent's revision, its Allocate call had handed out the process of that generation as ready,
      and the account held a slot, hence owned the preparation or had redeemed an invitation. */
  lemma IntentsEarned(states: seq<State>, steps: seq<Option<Step>>, j: nat, id: nat)
    returns (w: nat, prep: nat)
    requires IsRun(states, steps) && j < |states| && id in states[j].intents
    ensures id in states[j].issuedFor && prep == states[j].issuedFor[id]
    ensures var i := states[j].intents[id];
            w <= j && HeldSlot(states[w], prep, i.account, i.revision, i.generation)
            && R.ProcessReady(states[w].runs, prep, i.generation)
            && A.Entitled(states[w].access, prep, i.account) && i.steam != 0
  {
    RunTraced(states, steps, j);
    RunInv(states, steps);
    var i := states[j].intents[id];
    assert IntentTraced(states, j, id) && IntentOk(states[j], id, i);
    prep := states[j].issuedFor[id];
    w :| 0 <= w <= j && HeldSlot(states[w], prep, i.account, i.revision, i.generation);
    HeldIsEarned(states[w], prep, i.account, i.revision, i.generation);
  }

  /** In every run, every admission comes from a used intent with the same account, generation and
      revision, and that intent was earned. */
  lemma AdmissionsEarned(states: seq<State>, steps: seq<Option<Step>>, j: nat, key: AdmissionKey)
    returns (id: nat, w: nat, prep: nat)
    requires IsRun(states, steps) && j < |states| && key in states[j].admissions
    ensures Grants(states[j], id, key, states[j].admissions[key])
    ensures w <= j && HeldSlot(states[w], prep, key.account, states[j].admissions[key], key.generation)
            && R.ProcessReady(states[w].runs, prep, key.generation) && A.Entitled(states[w].access, prep, key.account)
  {
    RunInv(states, steps);
    assert AdmissionOk(states[j], key, states[j].admissions[key]);
    id := states[j].admittedBy[key];
    w, prep := IntentsEarned(states, steps, j, id);
  }

  predicate Consumed(s: State, step: Option<Step>, t: State, id: nat) {
    step.Some? && step.value.Consumes? && step.value.k in t.consumes && t.consumes[step.value.k] == Used(id)
    && step.value.c.ConsumeUses?
  }

  lemma ConsumedMarks(s: State, step: Option<Step>, t: State, id: nat)
    requires Moves(s, step, t) && Consumed(s, step, t, id)
    ensures id in s.intents && !s.intents[id].used && id in t.intents && t.intents[id].used
  {
  }

  /** However the calls interleave, an intent is consumed by at most one step of a run. */
  lemma IntentConsumedOnce(states: seq<State>, steps: seq<Option<Step>>, i: nat, j: nat, id: nat)
    requires IsRun(states, steps) && i < |steps| && j < |steps|
    requires Consumed(states[i], steps[i], states[i + 1], id) && Consumed(states[j], steps[j], states[j + 1], id)
    ensures i == j
  {
    if i < j { UsedStays(states, steps, i, j, id); }
    if j < i { UsedStays(states, steps, j, i, id); }
  }

  lemma UsedStays(states: seq<State>, steps: seq<Option<Step>>, i: nat, j: nat, id: nat)
    requires IsRun(states, steps) && i < j < |steps| && Consumed(states[i], steps[i], states[i + 1], id)
    ensures !Consumed(states[j], steps[j], states[j + 1], id)
  {
    RunInv(states, steps);
    assert Moves(states[i], steps[i], states[i + 1]);
    ConsumedMarks(states[i], steps[i], states[i + 1], id);
    for k := i + 1 to j
      invariant id in states[k].intents && states[k].intents[id].used
    {
      assert Moved(states[k], states[k + 1]);
    }
    assert Moves(states[j], steps[j], states[j + 1]);
    if Consumed(states[j], steps[j], states[j + 1], id) { ConsumedMarks(states[j], steps[j], states[j + 1], id); }
  }
}
