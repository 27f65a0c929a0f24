/** A run in which PrepareScenario returns an error although the preparation is not failed: its owner
    cancels it while the compiler works. */
module CancelledPreparation {
  import opened Prelude
  import opened PreparationRuns
  import P = ScenarioPreparations
  import G = ReplayGrants
  import S = Supervision
  import C = Custody

  const HOST: C.State :=
    C.State(S.Sys(S.Registry(1, 27015, "/spool", map[], {}, {}), map[]), map[], {}, map[], None, map[], {}, [], {})

  const REQUEST: G.ReplayRequest := G.ReplayRequest(PrepId(1), "replay", "token")

  /** The grant authority with the preparation's grant, unused or used. */
  function Filed(used: bool): G.Authority {
    G.Authority(map["token" := G.GrantRecord(PrepId(1), "owner", "replay", 1, used, false)], map[PrepId(1) := "token"])
  }

  const MINTED := G.Sys(Filed(false), map[], [])
  const VERIFIED := G.Sys(Filed(true), map[1 := REQUEST], [])
  const FETCHED := G.Sys(Filed(true), map[], [REQUEST])

  function RunAt(state: P.PreparationState, token: string, phase: Phase): Run {
    Run(P.Preparation(state, None, None), "owner", "replay", token, phase, None, false)
  }

  /** One preparation, alone. */
  function Alone(run: Run, cancels: map<nat, Cancel>, grants: G.Sys): State {
    State(1, map[1 := run], cancels, grants, HOST)
  }

  lemma Replaced<V>(a: V, b: V)
    ensures map[1 := a][1 := b] == map[1 := b]
  {
  }

  lemma Begins(s: State)
    requires s == State(0, map[], map[], G.Sys(G.EMPTY, map[], []), HOST)
    ensures Init(s)
    ensures Next(s, PrepareBegins("owner", "replay"))
            == Some(Alone(RunAt(P.Queued, "", Minting), map[], G.Sys(G.EMPTY, map[], [])))
  {
  }

  lemma Mints()
    ensures Next(Alone(RunAt(P.Queued, "", Minting), map[], G.Sys(G.EMPTY, map[], [])),
                 PrepareMints(1, Some("token"), 0, 1))
            == Some(Alone(RunAt(P.Queued, "token", Minted), map[], MINTED))
  {
    Replaced(RunAt(P.Queued, "", Minting), RunAt(P.Queued, "token", Minted));
  }

  lemma Registers()
    ensures Next(Alone(RunAt(P.Queued, "token", Minted), map[], MINTED), PrepareRegisters(1))
            == Some(Alone(RunAt(P.Queued, "token", Spawned), map[], MINTED))
  {
    Replaced(RunAt(P.Queued, "token", Minted), RunAt(P.Queued, "token", Spawned));
  }

  lemma Checks()
    ensures Next(Alone(RunAt(P.Queued, "token", Spawned), map[], MINTED), RunChecks(1))
            == Some(Alone(RunAt(P.Queued, "token", Entering), map[], MINTED))
  {
    Replaced(RunAt(P.Queued, "token", Spawned), RunAt(P.Queued, "token", Entering));
  }

  lemma GrantVerifies()
    ensures G.Next(MINTED, G.Verify(1, REQUEST, 0)) == Some(VERIFIED) && Filed(false).Verify(REQUEST, 0).1.Ok?
  {
    assert Filed(false).Verify(REQUEST, 0).0.grants == Filed(true).grants;
  }

  lemma Verifies()
    ensures Next(Alone(RunAt(P.Queued, "token", Entering), map[], MINTED), RunVerifies(1, 0, ""))
            == Some(Alone(RunAt(P.Queued, "token", Verified), map[], VERIFIED))
  {
    GrantVerifies();
    Replaced(RunAt(P.Queued, "token", Entering), RunAt(P.Queued, "token", Verified));
  }

  lemma Fetches()
    ensures Next(Alone(RunAt(P.Queued, "token", Verified), map[], VERIFIED), RunFetches(1, true))
            == Some(Alone(RunAt(P.Queued, "token", Extracting), map[], FETCHED))
  {
    assert VERIFIED.pending - {1} == map[] && [] + [REQUEST] == [REQUEST];
    Replaced(RunAt(P.Queued, "token", Verified), RunAt(P.Queued, "token", Extracting));
  }

  lemma MarksRunning()
    ensures Next(Alone(RunAt(P.Queued, "token", Extracting), map[], FETCHED), RunMarksRunning(1))
            == Some(Alone(RunAt(P.Running, "token", Compiling), map[], FETCHED))
  {
    Replaced(RunAt(P.Queued, "token", Extracting), RunAt(P.Running, "token", Compiling));
  }

  lemma OwnerCancels()
    ensures Next(Alone(RunAt(P.Running, "token", Compiling), map[], FETCHED), CancelBegins(1, 1, "owner"))
            == Some(Alone(RunAt(P.Running, "token", Compiling), map[1 := CancelMarking(1)], FETCHED))
  {
  }

  lemma MarksCancelled()
    ensures Next(Alone(RunAt(P.Running, "token", Compiling), map[1 := CancelMarking(1)], FETCHED), CancelMarks(1))
            == Some(Alone(RunAt(P.Cancelled, "token", Compiling), map[1 := CancelRevoking(1)], FETCHED))
  {
    Replaced(RunAt(P.Running, "token", Compiling), RunAt(P.Cancelled, "token", Compiling));
    Replaced(CancelMarking(1), CancelRevoking(1));
  }

  lemma MarkReadyRefused(revision: string)
    ensures Next(Alone(RunAt(P.Cancelled, "token", Compiling), map[1 := CancelRevoking(1)], FETCHED),
                 RunMarks(1, Some(revision)))
            == Some(Alone(RunAt(P.Cancelled, "token", Refusing("provider_failed")), map[1 := CancelRevoking(1)],
                          FETCHED))
  {
    Replaced(RunAt(P.Cancelled, "token", Compiling), RunAt(P.Cancelled, "token", Refusing("provider_failed")));
  }

  /** The states of the run, and the step each takes. */
  function At(i: nat): State {
    if i == 0 then State(0, map[], map[], G.Sys(G.EMPTY, map[], []), HOST)
    else if i == 1 then Alone(RunAt(P.Queued, "", Minting), map[], G.Sys(G.EMPTY, map[], []))
    else if i == 2 then Alone(RunAt(P.Queued, "token", Minted), map[], MINTED)
    else if i == 3 then Alone(RunAt(P.Queued, "token", Spawned), map[], MINTED)
    else if i == 4 then Alone(RunAt(P.Queued, "token", Entering), map[], MINTED)
    else if i == 5 then Alone(RunAt(P.Queued, "token", Verified), map[], VERIFIED)
    else if i == 6 then Alone(RunAt(P.Queued, "token", Extracting), map[], FETCHED)
    else if i == 7 then Alone(RunAt(P.Running, "token", Compiling), map[], FETCHED)
    else if i == 8 then Alone(RunAt(P.Running, "token", Compiling), map[1 := CancelMarking(1)], FETCHED)
    else if i == 9 then Alone(RunAt(P.Cancelled, "token", Compiling), map[1 := CancelRevoking(1)], FETCHED)
    else Alone(RunAt(P.Cancelled, "token", Refusing("provider_failed")), map[1 := CancelRevoking(1)], FETCHED)
  }

  function Taken(i: nat, revision: string): Step {
    if i == 0 then PrepareBegins("owner", "replay")
    else if i == 1 then PrepareMints(1, Some("token"), 0, 1)
    else if i == 2 then PrepareRegisters(1)
    else if i == 3 then RunChecks(1)
    else if i == 4 then RunVerifies(1, 0, "")
    else if i == 5 then RunFetches(1, true)
    else if i == 6 then RunMarksRunning(1)
    else if i == 7 then CancelBegins(1, 1, "owner")
    else if i == 8 then CancelMarks(1)
    else RunMarks(1, Some(revision))
  }

  lemma Goes(i: nat, revision: string)
    requires i < 10
    ensures Next(At(i), Taken(i, revision)) == Some(At(i + 1))
  {
    if i == 0 { Begins(At(0)); }
    else if i == 1 { Mints(); }
    else if i == 2 { Registers(); }
    else if i == 3 { Checks(); }
    else if i == 4 { Verifies(); }
    else if i == 5 { Fetches(); }
    else if i == 6 { MarksRunning(); }
    else if i == 7 { OwnerCancels(); }
    else if i == 8 { MarksCancelled(); }
    else { MarkReadyRefused(revision); }
  }

  /** PrepareScenario does return an error on a preparation that is cancelled and not failed, whatever
      revision it compiled. */
  lemma PrepareErrorOnCancelled(revision: string) returns (states: seq<State>, steps: seq<Step>)
    ensures |steps| == 10 && IsRun(states, steps) && PrepareErrs(steps[9], states[10], 1)
    ensures states[10].runs[1].record.state == P.Cancelled
  {
    states, steps := seq(11, i requires 0 <= i < 11 => At(i)), seq(10, i requires 0 <= i < 10 => Taken(i, revision));
    Begins(At(0));
    forall i | 0 <= i < |steps| ensures Next(states[i], steps[i]) == Some(states[i + 1]) {
      Goes(i, revision);
    }
  }
}
