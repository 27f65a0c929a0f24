/** What interleaved join calls come to: when issuing an intent may be refused, when an intent is
    consumed, and that a consumed intent is admitted. */
module JoinOutcomes {
  import opened Prelude
  import opened Admissions
  import opened JoinProtocol
  import P = ScenarioPreparations
  import R = PreparationRuns
  import A = LobbyAccess

  // ----- consuming -----

  /** A consuming call goes on from its first section exactly for a known intent of the presented
      generation. It uses the intent exactly if that is unused and every presented fact matches, and
      then the intent is used and nothing else about it or the others changes. Its last section
      records the admission of the intent's account, on its generation, against its revision. */
  ghost predicate ConsumeOutcome(s: State, t: State, k: nat, move: ConsumeMove) {
    && k in t.consumes && (k in s.consumes <==> !move.ConsumeBegins?)
    && (move.ConsumeBegins? ==>
          && t == s.(consumes := t.consumes)
          && t.consumes[k] == if move.id in s.intents && s.intents[move.id].generation == move.generation
                              then Found(move.id, move.revision, move.generation, move.steam) else ConsumeRefused)
    && (move.ConsumeUses? ==>
          && s.consumes[k].Found? && s.consumes[k].id in s.intents
          && var c, i := s.consumes[k], s.intents[s.consumes[k].id];
             var matches := !i.used && (i.revision, i.generation, i.steam) == (c.revision, c.generation, c.steam);
             && t.consumes[k] == (if matches then Used(c.id) else ConsumeRefused)
             && t.intents == (if matches then s.intents[c.id := i.(used := true)] else s.intents)
             && t.admissions == s.admissions)
    && (move.ConsumeAdmits? ==>
          && s.consumes[k].Used? && s.consumes[k].id in s.intents && t.consumes[k] == Admitted(s.consumes[k].id)
          && t.intents == s.intents
          && var i := s.intents[s.consumes[k].id];
             t.admissions == s.admissions[AdmissionKey(i.account, i.generation) := i.revision])
  }

  lemma ConsumeSection(s: State, t: State, k: nat, move: ConsumeMove)
    requires ConsumeNext(s, k, move) == Some(t)
    ensures ConsumeOutcome(s, t, k, move)
  {
  }

  lemma ConsumeShape(s: State, k: nat, move: ConsumeMove, t: State)
    requires Next(s, Consumes(k, move)) == Some(t)
    ensures ConsumeNext(s, k, move) == Some(t)
  {
  }

  /** Over every run each section of each consuming call is of this kind. */
  lemma ConsumeExact(states: seq<State>, steps: seq<Option<Step>>, j: nat, k: nat, move: ConsumeMove)
    requires IsRun(states, steps) && j < |steps| && steps[j] == Some(Consumes(k, move))
    ensures ConsumeOutcome(states[j], states[j + 1], k, move)
  {
    assert Moves(states[j], steps[j], states[j + 1]);
    ConsumeShape(states[j], k, move, states[j + 1]);
    ConsumeSection(states[j], states[j + 1], k, move);
  }

  /** In every reachable state a consuming call that was neither refused nor admitted can go on. */
  lemma ConsumeNeverStuck(states: seq<State>, steps: seq<Option<Step>>, j: nat, k: nat)
    requires IsRun(states, steps) && j < |states| && k in states[j].consumes
    ensures states[j].consumes[k].Found? ==> ConsumeNext(states[j], k, ConsumeUses).Some?
    ensures states[j].consumes[k].Used? ==> ConsumeNext(states[j], k, ConsumeAdmits).Some?
  {
    RunInv(states, steps);
    ConsumeEnabled(states[j], k);
  }

  lemma ConsumeEnabled(s: State, k: nat)
    requires Local(s) && k in s.consumes
    ensures s.consumes[k].Found? ==> ConsumeNext(s, k, ConsumeUses).Some?
    ensures s.consumes[k].Used? ==> ConsumeNext(s, k, ConsumeAdmits).Some?
  {
    assert ConsumeOk(s, s.consumes[k]);
  }

  // ----- joins hold up nothing below them -----

  /** Preparation, allocator and lobby steps happen inside a join state exactly as they would by
      themselves; registering a preparation opens its lobby for its owner in the same section. */
  ghost predicate Transparent(s: State, step: Step) {
    match step
    case Runs(r) =>
      Next(s, step)
      == if r.PrepareRegisters? || R.Next(s.runs, r).None? then None else Some(s.(runs := R.Next(s.runs, r).value))
    case Access(a) =>
      Next(s, step)
      == if a.Register? || A.Next(s.access, a).None? then None else Some(s.(access := A.Next(s.access, a).value))
    case Registers(n) =>
      n !in s.access.lobbies && s.runs.Has(n, R.Minted) ==>
        && Next(s, step).Some? && Next(s, step).value.runs == s.runs.Goto(n, R.Spawned)
        && n in Next(s, step).value.access.lobbies && n in Next(s, step).value.access.owners
        && Next(s, step).value.access.owners[n] == s.runs.runs[n].owner
    case _ => true
  }

  lemma EmbeddedExact(s: State, step: Step)
    ensures Transparent(s, step)
  {
    match step
    case Runs(r) => RunsTransparent(s, r);
    case Access(a) => AccessTransparent(s, a);
    case Registers(n) => RegisterTransparent(s, n);
    case _ =>
  }

  lemma RunsTransparent(s: State, r: R.Step)
    ensures Transparent(s, Runs(r))
  {
  }

  lemma AccessTransparent(s: State, a: A.Step)
    ensures Transparent(s, Access(a))
  {
  }

  lemma RunRegisters(r: R.State, n: nat)
    requires r.Has(n, R.Minted)
    ensures R.Next(r, R.PrepareRegisters(n)) == Some(r.Goto(n, R.Spawned))
  {
  }

  lemma LobbyRegisters(a: A.State, n: nat, owner: string)
    requires n !in a.lobbies
    ensures A.Next(a, A.Register(n, owner)).Some?
    ensures var b := A.Next(a, A.Register(n, owner)).value; n in b.lobbies && n in b.owners && b.owners[n] == owner
  {
  }

  lemma BothRegister(s: State, n: nat)
    requires R.Next(s.runs, R.PrepareRegisters(n)).Some? && n in s.runs.runs
    requires A.Next(s.access, A.Register(n, s.runs.runs[n].owner)).Some?
    ensures Next(s, Registers(n))
            == Some(s.(runs := R.Next(s.runs, R.PrepareRegisters(n)).value,
                       access := A.Next(s.access, A.Register(n, s.runs.runs[n].owner)).value))
  {
  }

  lemma RegisterTransparent(s: State, n: nat)
    ensures Transparent(s, Registers(n))
  {
    if n !in s.access.lobbies && s.runs.Has(n, R.Minted) {
      RunRegisters(s.runs, n);
      LobbyRegisters(s.access, n, s.runs.runs[n].owner);
      BothRegister(s, n);
    }
  }

  // ----- issuing -----

  /** Run alone at this moment, IssueJoinIntent would be refused. */
  predicate WouldRefuse(s: State, account: string, steam: nat, prep: nat) {
    || steam == 0 || !s.runs.Registered(prep)
    || s.runs.runs[prep].record.state != P.Ready || s.runs.runs[prep].allocationFailed
    || s.runs.runs[prep].process.None?
    || (prep in s.access.lobbies && !s.access.HoldsSlot(prep, account))
  }

  /** The call is this one. */
  predicate Asks(s: State, k: nat, move: IssueMove, account: string, steam: nat, prep: nat) {
    if k !in s.issues then move == IssueBegins(account, steam, prep)
    else
      (s.issues[k].Captured? || s.issues[k].Prepared?)
      && s.issues[k].account == account && s.issues[k].steam == steam && s.issues[k].prep == prep
  }

  /** The captured call saw no process, or a failed allocation. */
  predicate SawNone(s: State, k: nat) {
    k in s.issues && s.issues[k].Captured? && (s.issues[k].process.None? || s.issues[k].failed)
  }

  /** A section refuses a call only where the call run alone would be refused, or because it captured
      no usable process at its beginning. */
  lemma RefusalAt(s: State, k: nat, move: IssueMove, account: string, steam: nat, prep: nat)
    requires IssueAnswer(s, k, move) == Some(IssueRefused)
    requires k in s.issues ==> IssueOk(s, k, s.issues[k])
    ensures k in s.issues ==> s.issues[k].Captured? || s.issues[k].Prepared?
    ensures Asks(s, k, move, account, steam, prep) ==> WouldRefuse(s, account, steam, prep) || SawNone(s, k)
  {
  }

  lemma IssueTransition(s: State, k: nat, move: IssueMove, t: State)
    requires Next(s, Issues(k, move)) == Some(t)
    ensures IssueAnswer(s, k, move).Some? && t == Settle(s, k, IssueAnswer(s, k, move).value)
  {
  }

  lemma SettlesOne(s: State, k: nat, x: Issue)
    ensures Settle(s, k, x).issues == s.issues[k := x]
  {
  }

  lemma IssueShape(s: State, k: nat, move: IssueMove, t: State)
    requires Next(s, Issues(k, move)) == Some(t)
    ensures IssueAnswer(s, k, move).Some? && t.issues == s.issues[k := IssueAnswer(s, k, move).value]
  {
    IssueTransition(s, k, move, t);
    SettlesOne(s, k, IssueAnswer(s, k, move).value);
  }

  lemma CaptureBegins(s: State, k: nat, move: IssueMove)
    requires IssueAnswer(s, k, move).Some? && IssueAnswer(s, k, move).value.Captured?
    ensures BeganAt(s, Some(Issues(k, move)), k, IssueAnswer(s, k, move).value)
  {
  }

  /** The call began here, and captured what the preparation had. */
  predicate BeganAt(s: State, step: Option<Step>, k: nat, x: Issue)
    requires x.Captured?
  {
    step == Some(Issues(k, IssueBegins(x.account, x.steam, x.prep))) && x.prep in s.runs.runs
    && x.process == s.runs.runs[x.prep].process && x.failed == s.runs.runs[x.prep].allocationFailed
  }

  lemma CapturedMoves(s: State, step: Step, t: State, k: nat)
    requires Next(s, step) == Some(t) && k in t.issues && t.issues[k].Captured?
    ensures (k in s.issues && s.issues[k] == t.issues[k]) || BeganAt(s, Some(step), k, t.issues[k])
  {
    if step.Issues? {
      IssueShape(s, step.k, step.i, t);
      if step.k == k { CaptureBegins(s, k, step.i); }
    } else {
      CallsMove(s, step, t);
    }
  }

  lemma CapturedStep(states: seq<State>, steps: seq<Option<Step>>, j: nat, k: nat)
    requires IsRun(states, steps) && j < |steps| && k in states[j + 1].issues && states[j + 1].issues[k].Captured?
    ensures (k in states[j].issues && states[j].issues[k] == states[j + 1].issues[k])
            || BeganAt(states[j], steps[j], k, states[j + 1].issues[k])
  {
    assert Moves(states[j], steps[j], states[j + 1]);
    if steps[j].Some? { CapturedMoves(states[j], steps[j].value, states[j + 1], k); }
  }

  lemma {:induction false} CapturedBegan(states: seq<State>, steps: seq<Option<Step>>, j: nat, k: nat)
    returns (w: nat)
    requires IsRun(states, steps) && j < |states| && k in states[j].issues && states[j].issues[k].Captured?
    ensures w < j && BeganAt(states[w], steps[w], k, states[j].issues[k])
  {
    assert Init(states[0]);
    w := j - 1;
    CapturedStep(states, steps, w, k);
    if !BeganAt(states[w], steps[w], k, states[j].issues[k]) { w := CapturedBegan(states, steps, w, k); }
  }

  /** Over every run an issuing call is refused only if, at some moment since it began, the call run
      alone would have been refused: now, or where it captured the preparation's process. */
  lemma IssueRefusedLawfully(states: seq<State>, steps: seq<Option<Step>>, j: nat, k: nat, move: IssueMove,
                             account: string, steam: nat, prep: nat) returns (w: nat)
    requires IsRun(states, steps) && j < |steps| && steps[j] == Some(Issues(k, move))
    requires k in states[j + 1].issues && states[j + 1].issues[k] == IssueRefused
    requires Asks(states[j], k, move, account, steam, prep)
    ensures w <= j && WouldRefuse(states[w], account, steam, prep)
    ensures w == j || steps[w] == Some(Issues(k, IssueBegins(account, steam, prep)))
  {
    RunInv(states, steps);
    assert Moves(states[j], steps[j], states[j + 1]);
    IssueShape(states[j], k, move, states[j + 1]);
    if k in states[j].issues { assert IssueOk(states[j], k, states[j].issues[k]); }
    RefusalAt(states[j], k, move, account, steam, prep);
    w := j;
    if SawNone(states[j], k) { w := CapturedBegan(states, steps, j, k); }
  }

  // ----- an intent is for the account and the Steam identity that asked -----

  /** The call was asked for by this account, with this Steam identity, for this preparation. */
  predicate AskedFor(x: Issue, account: string, steam: nat, prep: nat) {
    match x
    case Issued(_, p, i) => i.account == account && i.steam == steam && p == prep
    case Panicked => false
    case IssueRefused => false
    case _ => x.account == account && x.steam == steam && x.prep == prep
  }

  lemma AnswerAsks(s: State, k: nat, move: IssueMove, account: string, steam: nat, prep: nat)
    requires IssueAnswer(s, k, move).Some? && AskedFor(IssueAnswer(s, k, move).value, account, steam, prep)
    ensures if k in s.issues then AskedFor(s.issues[k], account, steam, prep)
            else move == IssueBegins(account, steam, prep)
  {
  }

  lemma AskedMoves(s: State, step: Step, t: State, k: nat, account: string, steam: nat, prep: nat)
    requires Next(s, step) == Some(t) && k in t.issues && AskedFor(t.issues[k], account, steam, prep)
    ensures (k in s.issues && AskedFor(s.issues[k], account, steam, prep))
            || step == Issues(k, IssueBegins(account, steam, prep))
  {
    if step.Issues? {
      IssueShape(s, step.k, step.i, t);
      if step.k == k { AnswerAsks(s, k, step.i, account, steam, prep); }
    } else {
      CallsMove(s, step, t);
    }
  }

  lemma {:induction false} CallAsked(states: seq<State>, steps: seq<Option<Step>>, j: nat, k: nat,
                                     account: string, steam: nat, prep: nat) returns (w: nat)
    requires IsRun(states, steps) && j < |states| && k in states[j].issues
    requires AskedFor(states[j].issues[k], account, steam, prep)
    ensures w < j && steps[w] == Some(Issues(k, IssueBegins(account, steam, prep)))
  {
    assert Init(states[0]);
    w := j - 1;
    assert Moves(states[w], steps[w], states[j]);
    if steps[w].Some? { AskedMoves(states[w], steps[w].value, states[j], k, account, steam, prep); }
    if steps[w] != Some(Issues(k, IssueBegins(account, steam, prep))) {
      w := CallAsked(states, steps, w, k, account, steam, prep);
    }
  }

  /** The call's intent is filed as the call issued it. */
  ghost predicate Filed(s: State, x: Issue) {
    x.Issued? ==>
      x.id in s.intents && s.intents[x.id] == x.intent.(used := s.intents[x.id].used)
      && x.id in s.issuedFor && s.issuedFor[x.id] == x.prep
  }

  ghost predicate AllFiled(s: State) { forall k :: k in s.issues ==> Filed(s, s.issues[k]) }

  lemma FiledLater(s: State, t: State, x: Issue)
    requires Filed(s, x) && IntentsLater(s, t)
    ensures Filed(t, x)
  {
  }

  lemma SettleFiles(s: State, k: nat, x: Issue)
    ensures Filed(Settle(s, k, x), x)
  {
  }

  lemma FiledMoves(s: State, step: Step, t: State)
    requires Next(s, step) == Some(t) && IntentsLater(s, t) && AllFiled(s)
    ensures AllFiled(t)
  {
    forall k | k in t.issues ensures Filed(t, t.issues[k]) {
      if k in s.issues && t.issues[k] == s.issues[k] {
        FiledLater(s, t, s.issues[k]);
      } else if step.Issues? {
        IssueTransition(s, step.k, step.i, t);
        SettlesOne(s, step.k, IssueAnswer(s, step.k, step.i).value);
        SettleFiles(s, step.k, IssueAnswer(s, step.k, step.i).value);
      } else {
        CallsMove(s, step, t);
      }
    }
  }

  lemma FiledNext(states: seq<State>, steps: seq<Option<Step>>, j: nat)
    requires IsRun(states, steps) && j < |steps| && AllFiled(states[j])
    ensures AllFiled(states[j + 1])
  {
    RunInv(states, steps);
    assert Moved(states[j], states[j + 1]) && Moves(states[j], steps[j], states[j + 1]);
    if steps[j].Some? { FiledMoves(states[j], steps[j].value, states[j + 1]); }
  }

  lemma FiledRun(states: seq<State>, steps: seq<Option<Step>>, j: nat)
    requires IsRun(states, steps) && j < |states|
    ensures AllFiled(states[j])
  {
    assert Init(states[0]);
    for i := 0 to j
      invariant AllFiled(states[i])
    {
      FiledNext(states, steps, i);
    }
  }

  /** Over every run an intent binds the account and the Steam identity that asked for it, for the
      preparation they asked about: some call k began with exactly these and issued it. */
  lemma IntentsBound(states: seq<State>, steps: seq<Option<Step>>, j: nat, id: nat) returns (k: nat, w: nat)
    requires IsRun(states, steps) && j < |states| && id in states[j].intents
    ensures id in states[j].issuedFor && w < j
    ensures steps[w] == Some(Issues(k, IssueBegins(states[j].intents[id].account, states[j].intents[id].steam,
                                                   states[j].issuedFor[id])))
  {
    RunInv(states, steps);
    var s, i := states[j], states[j].intents[id];
    assert Inv(s) && IntentOk(s, id, i);
    k := s.numberedBy[id];
    FiledRun(states, steps, j);
    assert Filed(s, s.issues[k]);
    w := CallAsked(states, steps, j, k, i.account, i.steam, s.issuedFor[id]);
  }

  /** The section an issuing call takes next. */
  function NextSection(x: Issue): IssueMove {
    match x
    case Captured(_, _, _, _, _) => IssueChecks
    case Prepared(_, _, _, _) => IssueSlots
    case Slotted(_, _, _, _) => IssueBinds
    case Bound(_, _, _, _, _) => IssueNumbers
    case _ => IssueStores
  }

  lemma IssueEnabled(s: State, k: nat)
    requires k in s.issues && IssueOk(s, k, s.issues[k]) && !s.issues[k].Issued? && !s.issues[k].IssueRefused?
    ensures IssueAnswer(s, k, NextSection(s.issues[k])).Some?
  {
  }

  /** In every reachable state an issuing call that was neither refused nor issued can go on. */
  lemma IssueNeverStuck(states: seq<State>, steps: seq<Option<Step>>, j: nat, k: nat)
    requires IsRun(states, steps) && j < |states| && k in states[j].issues
    requires !states[j].issues[k].Issued? && !states[j].issues[k].IssueRefused?
    ensures IssueAnswer(states[j], k, NextSection(states[j].issues[k])).Some?
  {
    RunInv(states, steps);
    assert Inv(states[j]);
    IssueEnabled(states[j], k);
  }
}
