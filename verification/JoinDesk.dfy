/** IssueJoinIntent and ConsumeJoinIntent as methods of the orchestrator object, each run alone.
    Their interleavings are the subject of JoinProtocol. */
module JoinDesk {
  import opened Prelude
  import opened Admissions
  import P = ScenarioPreparations
  import L = Lobbies

  datatype IssueError =
    | NoSteamIdentity | UnknownPreparation | PreparationNotReady | AllocationFailed | ProcessNotReady | NoSlotClaimed

  datatype ConsumeRefusal = UnknownIntent | WrongProcessGeneration | NotConsumed(cause: ConsumeError)

  /** A process as the orchestrator sees it: ready once the allocator recorded its evidence. */
  class AllocatedProcess {
    const generation: nat
    var ready: bool
    var evidence: string

    constructor (generation: nat)
      ensures this.generation == generation && !ready
    {
      this.generation, ready, evidence := generation, false, "";
    }

    /** The first evidence makes the process ready and stands; later calls report false. */
    method MarkReady(evidence: string) returns (marked: bool)
      modifies this
      ensures ready && marked == !old(ready)
      ensures this.evidence == if old(ready) then old(this.evidence) else evidence
    {
      if ready { return false; }
      ready := true;
      this.evidence := evidence;
      return true;
    }
  }

  /** The orchestrator's part in joining. */
  class JoinOrchestrator {
    var preparations: map<nat, P.ScenarioPreparation>
    var lobbies: map<nat, L.LobbyObject>
    var processes: map<nat, AllocatedProcess>
    var allocFailures: set<nat>
    var intentSeq: nat
    var intents: map<nat, JoinIntent>
    var admissions: AdmissionTable

    /** Ready records carry a revision; intents are filed under numbers already given out, each
        with its own object. */
    ghost predicate Valid()
      reads this, preparations.Values
    {
      && (forall p :: p in preparations ==> preparations[p].View().Sound())
      && (forall id :: id in intents ==> 1 <= id <= intentSeq)
      && (forall i, j :: i in intents && j in intents && i != j ==> intents[i] != intents[j])
    }

    constructor ()
      ensures Valid() && intents == map[] && admissions == map[] && preparations == map[]
    {
      preparations, lobbies, processes, allocFailures := map[], map[], map[], {};
      intentSeq, intents, admissions := 0, map[], map[];
    }

    /** Why an intent is refused, if it is: the first check that fails. */
    ghost function IssueRefusal(account: string, steam: nat, prep: nat): (e: Option<IssueError>)
      reads this, preparations.Values, processes.Values, lobbies.Values
      ensures var ready := steam != 0 && prep in preparations && preparations[prep].state == P.Ready;
              var hosted := ready && prep !in allocFailures && prep in processes && processes[prep].ready;
              && (e == Some(NoSteamIdentity) <==> steam == 0)
              && (e == Some(UnknownPreparation) <==> steam != 0 && prep !in preparations)
              && (e == Some(PreparationNotReady) <==> steam != 0 && prep in preparations && !ready)
              && (e == Some(AllocationFailed) <==> ready && prep in allocFailures)
              && (e == Some(ProcessNotReady) <==> ready && prep !in allocFailures && !hosted)
              && (e == Some(NoSlotClaimed) <==> hosted && prep in lobbies && account !in lobbies[prep].byAccount)
              && (e == None <==> hosted && (prep in lobbies ==> account in lobbies[prep].byAccount))
    {
      if steam == 0 then Some(NoSteamIdentity)
      else if prep !in preparations then Some(UnknownPreparation)
      else if preparations[prep].state != P.Ready then Some(PreparationNotReady)
      else if prep in allocFailures then Some(AllocationFailed)
      else if prep !in processes || !processes[prep].ready then Some(ProcessNotReady)
      else if prep in lobbies && account !in lobbies[prep].byAccount then Some(NoSlotClaimed)
      else None
    }

    /** A number no intent was ever filed under; all smaller numbers are given out. */
    method NextIntentID() returns (id: nat)
      requires Valid()
      modifies this`intentSeq
      ensures Valid() && id !in intents && forall k :: k in intents ==> k < id
      ensures id == intentSeq == old(intentSeq) + 1
    {
      intentSeq := intentSeq + 1;
      return intentSeq;
    }

    /** An intent is issued exactly when no check refuses, under a number never used before, bound
        to the preparation's revision and process generation and to the principal's own identity;
        earlier intents stand. */
    method IssueJoinIntent(account: string, steam: nat, prep: nat) returns (r: Result<nat, IssueError>)
      requires Valid()
      modifies this`intentSeq, this`intents
      ensures Valid()
      ensures var refusal := old(IssueRefusal(account, steam, prep));
              if refusal.Some? then r == Err(refusal.value) && intents == old(intents)
              else
                && r == Ok(old(intentSeq) + 1) && r.value !in old(intents) && r.value in intents
                && fresh(intents[r.value]) && intents == old(intents)[r.value := intents[r.value]]
                && preparations[prep].revision.Some?
                && intents[r.value].View()
                   == Intent(account, steam, preparations[prep].revision.value, processes[prep].generation, false)
    {
      if steam == 0 { return Err(NoSteamIdentity); }
      if prep !in preparations { return Err(UnknownPreparation); }
      if preparations[prep].state != P.Ready { return Err(PreparationNotReady); }
      if prep in allocFailures { return Err(AllocationFailed); }
      if prep !in processes || !processes[prep].ready { return Err(ProcessNotReady); }
      if prep in lobbies {
        var slot := lobbies[prep].Slot(account);
        if slot.None? { return Err(NoSlotClaimed); }
      }
      assert preparations[prep].View().Sound();
      var revision, generation := preparations[prep].revision.value, processes[prep].generation;
      var id := NextIntentID();
      var intent := new JoinIntent(account, steam, revision, generation);
      intents := intents[id := intent];
      return Ok(id);
    }

    /** The intent is consumed and its account admitted exactly when it is known for this process
        generation and every presented fact matches an unused intent; otherwise nothing changes. */
    method ConsumeJoinIntent(generation: nat, id: nat, revision: string, steam: nat)
      returns (e: Option<ConsumeRefusal>)
      requires Valid()
      modifies this`admissions, intents.Values
      ensures Valid()
      ensures id !in intents ==> e == Some(UnknownIntent)
      ensures id in intents && intents[id].generation != generation ==> e == Some(WrongProcessGeneration)
      ensures id in intents && intents[id].generation == generation ==>
                var (i, c) := Presented(old(intents[id].View()), revision, generation, steam);
                intents[id].View() == i && e == (if c.Some? then Some(NotConsumed(c.value)) else None)
      ensures e.Some? ==> admissions == old(admissions)
      ensures e.Some? ==> forall j :: j in intents ==> intents[j].View() == old(intents[j].View())
      ensures e.None? ==>
                && !old(intents[id].used) && intents[id].used
                && (intents[id].revision, intents[id].generation, intents[id].steam) == (revision, generation, steam)
                && admissions == old(admissions)[AdmissionKey(intents[id].account, generation) := revision]
      ensures forall j :: j in intents && j != id ==> intents[j].View() == old(intents[j].View())
    {
      if id !in intents { return Some(UnknownIntent); }
      var intent := intents[id];
      if intent.generation != generation { return Some(WrongProcessGeneration); }
      var c := intent.Consume(revision, generation, steam);
      if c.Some? { return Some(NotConsumed(c.value)); }
      admissions := admissions[AdmissionKey(intent.account, intent.generation) := intent.revision];
      return None;
    }
  }
}
