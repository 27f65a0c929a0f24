/** The poller of one process's summary spool. Every poll sees an arbitrary directory and every
    ingestion an arbitrary state of the gate; the poller itself holds its lock for a whole poll. */
module SpoolWatcher {
  import opened Prelude
  import opened ResultPath
  import T = TerminalSummaries
  import N = ArtifactName

  datatype ReadOutcome = Gone | Unreadable | Data(artifact: T.Artifact)

  /** One directory entry as a poll finds it: whether the context was cancelled before the read and
      after it, what the read gave, the gate's state when it ingests, a refusal the gate may give
      for a race it lost, and whether a refused file could be moved to quarantine. */
  datatype Entry = Entry(
    name: string, cancelledBefore: bool, read: ReadOutcome, cancelledAfter: bool,
    gate: Ideal, lost: Option<Refusal>, quarantined: bool)

  datatype Listing = Missing | Failed | Listed(entries: seq<Entry>)

  datatype PollResult =
    | PollOk | WatcherStopped | WatcherTerminal | ContextDone | ReadDirFailed | EntryRefused(quarantined: bool)

  /** accepted is history: the names and summaries the gate took from this watcher. */
  datatype Acceptance = Acceptance(name: string, summary: T.TerminalSummary)

  datatype Watcher = Watcher(stopped: bool, terminal: bool, processed: set<string>, accepted: seq<Acceptance>) {
    predicate Over() { stopped || terminal }
  }

  const FRESH := Watcher(false, false, {}, [])

  /** Whose spool it is, and the credential presented for it. */
  datatype Owner = Owner(generation: nat, credential: string)

  function RequestFor(o: Owner, name: string, data: T.Artifact): IngestRequest {
    IngestRequest(o.credential, name, data, o.generation)
  }

  /** The gate's answer: a refusal of its own, or what the atomic ingestion says. */
  ghost function GateAnswer(o: Owner, e: Entry): Option<Refusal>
    requires e.read.Data?
  {
    if e.lost.Some? then e.lost else IngestAtomically(e.gate, RequestFor(o, e.name, e.read.artifact)).1
  }

  /** One entry: the new watcher, and the poll's result if it ends here. */
  ghost function Visit(o: Owner, w: Watcher, e: Entry): (Watcher, Option<PollResult>) {
    if N.CanonicalSummaryName(e.name).None? then (w, None)
    else if e.name in w.processed then (w, None)
    else if e.cancelledBefore then (w.(stopped := true), Some(ContextDone))
    else if e.read.Gone? then (w, None)
    else if e.read.Unreadable? then (w.(terminal := true), Some(EntryRefused(e.quarantined)))
    else if e.cancelledAfter then (w.(stopped := true), Some(ContextDone))
    else Settled(w, e.name, e.read.artifact, GateAnswer(o, e), e.quarantined)
  }

  /** After the gate's answer: a duplicate is skipped from now on, another refusal is final. */
  ghost function Settled(w: Watcher, name: string, artifact: T.Artifact, answer: Option<Refusal>, quarantined: bool)
    : (Watcher, Option<PollResult>)
  {
    if answer == Some(Duplicate) then (w.(processed := w.processed + {name}), None)
    else if answer.Some? then (w.(terminal := true), Some(EntryRefused(quarantined)))
    else (w.(processed := w.processed + {name}, accepted := w.accepted + AcceptanceOf(name, artifact)), None)
  }

  /** What an accepted entry adds; an accepted artifact always decodes. */
  ghost function AcceptanceOf(name: string, artifact: T.Artifact): seq<Acceptance> {
    var d := T.Decode(artifact);
    if d.Ok? then [Acceptance(name, d.value)] else []
  }

  ghost function VisitAll(o: Owner, w: Watcher, es: seq<Entry>): (Watcher, PollResult)
    decreases |es|
  {
    if es == [] then (w, PollOk)
    else
      var (v, r) := Visit(o, w, es[0]);
      if r.Some? then (v, r.value) else VisitAll(o, v, es[1..])
  }

  ghost function Poll(o: Owner, w: Watcher, cancelled: bool, listing: Listing): (Watcher, PollResult) {
    if w.stopped then (w, WatcherStopped)
    else if w.terminal then (w, WatcherTerminal)
    else if cancelled then (w.(stopped := true), ContextDone)
    else if listing.Missing? then (w, PollOk)
    else if listing.Failed? then (w, ReadDirFailed)
    else VisitAll(o, w, listing.entries)
  }

  datatype Op = PollOp(cancelled: bool, listing: Listing) | StopOp

  ghost function Do(o: Owner, w: Watcher, op: Op): Watcher {
    if op.StopOp? then w.(stopped := true) else Poll(o, w, op.cancelled, op.listing).0
  }

  ghost function Run(o: Owner, ops: seq<Op>): Watcher {
    if ops == [] then FRESH else Do(o, Run(o, ops[..|ops| - 1]), ops[|ops| - 1])
  }

  /** What every poll keeps: each accepted file carries the writer's exact name for its attempt, is
      from this process, is marked processed, and no name was accepted twice. */
  ghost predicate Inv(o: Owner, w: Watcher) {
    && (forall i :: 0 <= i < |w.accepted| ==>
          w.accepted[i].name in w.processed && w.accepted[i].name == N.NameOf(w.accepted[i].summary.attemptGeneration)
          && (o.generation != 0 ==> w.accepted[i].summary.serverProcessGeneration == o.generation))
    && (forall i, j :: 0 <= i < j < |w.accepted| ==> w.accepted[i].name != w.accepted[j].name)
  }

  /** The gate takes only a well-formed summary under its own name. */
  lemma TakenIsWellFormed(o: Owner, e: Entry)
    requires e.read.Data? && GateAnswer(o, e).None?
    ensures var d := T.Decode(e.read.artifact);
            d.Ok? && e.name == N.NameOf(d.value.attemptGeneration)
            && (o.generation != 0 ==> d.value.serverProcessGeneration == o.generation)
  {
    var req := RequestFor(o, e.name, e.read.artifact);
    InspectExact(req, e.gate.leases.Authenticate(o.credential).value.generation);
  }

  /** A visit takes the entry, with its name new, or leaves the accepted list alone. */
  lemma VisitTakes(o: Owner, w: Watcher, e: Entry)
    ensures var v := Visit(o, w, e).0;
            || (v.accepted == w.accepted && w.processed <= v.processed)
            || (e.read.Data? && GateAnswer(o, e).None? && e.name !in w.processed
                && v.accepted == w.accepted + AcceptanceOf(e.name, e.read.artifact)
                && v.processed == w.processed + {e.name})
  {
  }

  lemma TakenInv(o: Owner, w: Watcher, v: Watcher, a: Acceptance)
    requires Inv(o, w) && a.name !in w.processed && a.name == N.NameOf(a.summary.attemptGeneration)
    requires o.generation != 0 ==> a.summary.serverProcessGeneration == o.generation
    requires v.accepted == w.accepted + [a] && v.processed == w.processed + {a.name}
    ensures Inv(o, v)
  {
  }

  lemma VisitInv(o: Owner, w: Watcher, e: Entry)
    requires Inv(o, w)
    ensures Inv(o, Visit(o, w, e).0)
  {
    var v := Visit(o, w, e).0;
    VisitTakes(o, w, e);
    if v.accepted != w.accepted {
      TakenIsWellFormed(o, e);
      TakenInv(o, w, v, Acceptance(e.name, T.Decode(e.read.artifact).value));
    }
  }

  lemma {:induction false} VisitAllInv(o: Owner, w: Watcher, es: seq<Entry>)
    requires Inv(o, w)
    ensures Inv(o, VisitAll(o, w, es).0)
    decreases |es|
  {
    if es != [] {
      VisitInv(o, w, es[0]);
      if Visit(o, w, es[0]).1.None? { VisitAllInv(o, Visit(o, w, es[0]).0, es[1..]); }
    }
  }

  lemma {:induction false} RunInv(o: Owner, ops: seq<Op>)
    ensures Inv(o, Run(o, ops))
  {
    if ops != [] {
      RunInv(o, ops[..|ops| - 1]);
      var w, op := Run(o, ops[..|ops| - 1]), ops[|ops| - 1];
      if op.PollOp? && op.listing.Listed? { VisitAllInv(o, w, op.listing.entries); }
    }
  }

  /** Over any sequence of polls and stops on any changing directory, accepted names and attempt
      generations correspond one to one, and all belong to this process. */
  lemma AcceptedOncePerAttempt(o: Owner, ops: seq<Op>, i: nat, j: nat)
    requires i < |Run(o, ops).accepted| && j < |Run(o, ops).accepted|
    ensures var a, b := Run(o, ops).accepted[i], Run(o, ops).accepted[j];
            && (a.name == b.name <==> i == j)
            && (a.summary.attemptGeneration == b.summary.attemptGeneration <==> i == j)
    ensures var a := Run(o, ops).accepted[i];
            a.name == N.NameOf(a.summary.attemptGeneration)
            && (o.generation != 0 ==> a.summary.serverProcessGeneration == o.generation)
  {
    RunInv(o, ops);
  }

  // ----- the end of a watcher -----

  predicate Final(r: PollResult) {
    r.EntryRefused? || r.ContextDone? || r.WatcherStopped? || r.WatcherTerminal?
  }

  /** The operation ends the watcher: a stop, or a poll that says so. */
  ghost predicate Ends(o: Owner, w: Watcher, op: Op) {
    op.StopOp? || Final(Poll(o, w, op.cancelled, op.listing).1)
  }

  lemma {:induction false} VisitAllEnds(o: Owner, w: Watcher, es: seq<Entry>)
    requires !w.Over()
    ensures var (v, r) := VisitAll(o, w, es);
            && (r.EntryRefused? <==> v.terminal) && (r.ContextDone? <==> v.stopped)
            && (r.PollOk? || r.EntryRefused? || r.ContextDone?)
    decreases |es|
  {
    if es != [] && Visit(o, w, es[0]).1.None? { VisitAllEnds(o, Visit(o, w, es[0]).0, es[1..]); }
  }

  /** A poll answers that it refused an entry exactly when it leaves the watcher terminal, that the
      context ended exactly when it stops it, and what it found on one that was over already. */
  lemma PollEnds(o: Owner, w: Watcher, cancelled: bool, listing: Listing)
    ensures var (v, r) := Poll(o, w, cancelled, listing);
            if w.Over() then v == w && r == (if w.stopped then WatcherStopped else WatcherTerminal)
            else
              && (r.EntryRefused? <==> v.terminal) && (r.ContextDone? <==> v.stopped)
              && !r.WatcherStopped? && !r.WatcherTerminal?
              && (cancelled ==> r == ContextDone)
              && (!cancelled && listing.Missing? ==> v == w && r == PollOk)
              && (r == ReadDirFailed <==> !cancelled && listing.Failed?)
              && (r == ReadDirFailed ==> v == w)
  {
    if !w.Over() && listing.Listed? { VisitAllEnds(o, w, listing.entries); }
  }

  lemma DoEnds(o: Owner, w: Watcher, op: Op)
    ensures Do(o, w, op).Over() <==> w.Over() || Ends(o, w, op)
    ensures op.StopOp? ==> Do(o, w, op) == w.(stopped := true)
  {
    if op.PollOp? { PollEnds(o, w, op.cancelled, op.listing); }
  }

  /** The k-th of these operations ended the watcher, or found it over. */
  ghost predicate EndsAt(o: Owner, ops: seq<Op>, k: nat) { k < |ops| && Ends(o, Run(o, ops[..k]), ops[k]) }

  lemma EndsAtFront(o: Owner, ops: seq<Op>, more: seq<Op>, k: nat)
    requires k < |ops|
    ensures EndsAt(o, ops + more, k) <==> EndsAt(o, ops, k)
  {
    assert (ops + more)[..k] == ops[..k];
  }

  /** A watcher is over exactly when one of its operations ended it. */
  lemma {:induction false} OverExact(o: Owner, ops: seq<Op>)
    ensures Run(o, ops).Over() <==> exists k: nat :: EndsAt(o, ops, k)
  {
    if ops != [] {
      var front, last := ops[..|ops| - 1], ops[|ops| - 1];
      OverExact(o, front);
      DoEnds(o, Run(o, front), last);
      assert ops == front + [last] && ops[..|front|] == front;
      if Run(o, ops).Over() {
        if Ends(o, Run(o, front), last) {
          assert EndsAt(o, ops, |front|);
        } else {
          var k: nat :| EndsAt(o, front, k);
          EndsAtFront(o, front, [last], k);
        }
      }
      forall k: nat | EndsAt(o, ops, k) ensures Run(o, ops).Over() {
        if k < |front| { EndsAtFront(o, front, [last], k); }
      }
    }
  }

  lemma {:induction false} OverStays(o: Owner, ops: seq<Op>, more: seq<Op>)
    requires Run(o, ops).Over()
    ensures Run(o, ops + more).accepted == Run(o, ops).accepted && Run(o, ops + more).Over()
  {
    if more == [] {
      assert ops + more == ops;
    } else {
      var front := more[..|more| - 1];
      OverStays(o, ops, front);
      assert (ops + more)[..|ops + more| - 1] == ops + front;
    }
  }

  /** After a stop, and after a poll that refused an entry, saw its context end or found the watcher
      over, nothing is accepted any more, and every later poll answers that the watcher is over. */
  lemma NoneAfterTheEnd(o: Owner, ops: seq<Op>, k: nat, cancelled: bool, listing: Listing)
    requires k < |ops| && Ends(o, Run(o, ops[..k]), ops[k])
    ensures Run(o, ops).accepted == Run(o, ops[..k + 1]).accepted
    ensures var r := Poll(o, Run(o, ops), cancelled, listing).1; r.WatcherStopped? || r.WatcherTerminal?
  {
    assert ops[..k + 1][..k] == ops[..k];
    DoEnds(o, Run(o, ops[..k]), ops[k]);
    OverStays(o, ops[..k + 1], ops[k + 1..]);
    assert ops[..k + 1] + ops[k + 1..] == ops;
    PollEnds(o, Run(o, ops), cancelled, listing);
  }

  // ----- what a poll that comes through has dealt with -----

  /** The file is one for the gate: named for a number, new, read, and not cut off by the context. */
  predicate Reaches(w: Watcher, e: Entry) {
    N.CanonicalSummaryName(e.name).Some? && e.name !in w.processed && !e.cancelledBefore && e.read.Data?
    && !e.cancelledAfter
  }

  /** A visit accepts an entry exactly when it reaches the gate and the gate takes it; it is then
      recorded under its name with what its artifact decodes to. Entries with other names are left
      alone. */
  lemma VisitExact(o: Owner, w: Watcher, e: Entry)
    ensures var (v, r) := Visit(o, w, e);
            && (v.accepted != w.accepted <==> Reaches(w, e) && GateAnswer(o, e).None?)
            && (v.accepted != w.accepted ==>
                  T.Decode(e.read.artifact).Ok? && r.None? && e.name in v.processed
                  && v.accepted == w.accepted + [Acceptance(e.name, T.Decode(e.read.artifact).value)])
            && (N.CanonicalSummaryName(e.name).None? || e.name in w.processed ==> v == w && r.None?)
            && (r.None? && N.CanonicalSummaryName(e.name).Some? ==> e.name in v.processed || e.read.Gone?)
            && (r.Some? && r.value.EntryRefused? ==> Refusable(o, e) && r.value.quarantined == e.quarantined)
            && (r == Some(ContextDone) ==> e.cancelledBefore || e.cancelledAfter)
  {
    if Reaches(w, e) && GateAnswer(o, e).None? { TakenIsWellFormed(o, e); }
  }

  /** The file could not be read, or the gate refused it as something else than a duplicate. */
  ghost predicate Refusable(o: Owner, e: Entry) {
    N.CanonicalSummaryName(e.name).Some?
    && (e.read.Unreadable? || (e.read.Data? && GateAnswer(o, e).Some? && GateAnswer(o, e).value != Duplicate))
  }

  lemma VisitMonotone(o: Owner, w: Watcher, e: Entry)
    ensures w.processed <= Visit(o, w, e).0.processed && w.accepted <= Visit(o, w, e).0.accepted
  {
  }

  lemma {:induction false} VisitAllMonotone(o: Owner, w: Watcher, es: seq<Entry>)
    ensures w.processed <= VisitAll(o, w, es).0.processed
    decreases |es|
  {
    if es != [] {
      VisitMonotone(o, w, es[0]);
      if Visit(o, w, es[0]).1.None? { VisitAllMonotone(o, Visit(o, w, es[0]).0, es[1..]); }
    }
  }

  /** Every listed file with a summary name is processed, unless it was gone when it was read. */
  lemma {:induction false} VisitsCover(o: Owner, w: Watcher, es: seq<Entry>, i: nat)
    requires i < |es| && VisitAll(o, w, es).1 == PollOk && N.CanonicalSummaryName(es[i].name).Some?
    ensures es[i].name in VisitAll(o, w, es).0.processed || es[i].read.Gone?
    decreases |es|
  {
    var v := Visit(o, w, es[0]).0;
    VisitExact(o, w, es[0]);
    if i == 0 { VisitAllMonotone(o, v, es[1..]); } else { VisitsCover(o, v, es[1..], i - 1); }
  }

  lemma {:induction false} VisitsRefuse(o: Owner, w: Watcher, es: seq<Entry>) returns (i: nat)
    requires VisitAll(o, w, es).1.EntryRefused?
    ensures i < |es| && Refusable(o, es[i])
    decreases |es|
  {
    VisitExact(o, w, es[0]);
    if Visit(o, w, es[0]).1.Some? {
      i := 0;
    } else {
      var j := VisitsRefuse(o, Visit(o, w, es[0]).0, es[1..]);
      i := j + 1;
    }
  }

  /** A poll that comes through leaves no listed file with a summary name unprocessed, unless it was
      gone when read; a poll refuses only over a file that could not be read or that the gate
      refused as something else than a duplicate. */
  lemma PollCovers(o: Owner, w: Watcher, cancelled: bool, es: seq<Entry>)
    ensures var (v, r) := Poll(o, w, cancelled, Listed(es));
            && (r == PollOk ==> forall i :: 0 <= i < |es| && N.CanonicalSummaryName(es[i].name).Some?
                                  ==> es[i].name in v.processed || es[i].read.Gone?)
            && (r.EntryRefused? ==> exists i :: 0 <= i < |es| && Refusable(o, es[i]))
  {
    if !w.Over() && !cancelled {
      var (v, r) := VisitAll(o, w, es);
      if r == PollOk {
        forall i | 0 <= i < |es| && N.CanonicalSummaryName(es[i].name).Some?
          ensures es[i].name in v.processed || es[i].read.Gone?
        {
          VisitsCover(o, w, es, i);
        }
      }
      if r.EntryRefused? { var i := VisitsRefuse(o, w, es); }
    }
  }

  // ----- the watcher object, over its gate -----

  /** A file as the directory lists it. */
  datatype SpoolFile = SpoolFile(
    name: string, cancelledBefore: bool, read: ReadOutcome, cancelledAfter: bool, quarantined: bool)

  datatype Directory = NoDirectory | NotListed | Files(files: seq<SpoolFile>)

  /** The entry a poll finds when the gate is in this state, with no race lost. */
  function Found(f: SpoolFile, gate: Ideal): Entry {
    Entry(f.name, f.cancelledBefore, f.read, f.cancelledAfter, gate, None, f.quarantined)
  }

  /** The poll gets as far as handing the file to the gate. */
  predicate Ingests(w: Watcher, f: SpoolFile) {
    N.CanonicalSummaryName(f.name).Some? && f.name !in w.processed && !f.cancelledBefore && f.read.Data?
    && !f.cancelledAfter
  }

  ghost function GateAfter(o: Owner, w: Watcher, gate: Ideal, f: SpoolFile): Ideal {
    if Ingests(w, f) then IngestAtomically(gate, RequestFor(o, f.name, f.read.artifact)).0 else gate
  }

  /** The entries of a poll that nothing interrupts: each file meets the gate as the earlier ones
      left it. */
  ghost function AllFound(o: Owner, w: Watcher, gate: Ideal, fs: seq<SpoolFile>): seq<Entry>
    decreases |fs|
  {
    if fs == [] then []
    else
      var e := Found(fs[0], gate);
      [e] + AllFound(o, Visit(o, w, e).0, GateAfter(o, w, gate, fs[0]), fs[1..])
  }

  /** The gate when the poll ends. */
  ghost function GateAtEnd(o: Owner, w: Watcher, gate: Ideal, fs: seq<SpoolFile>): Ideal
    decreases |fs|
  {
    if fs == [] then gate
    else
      var (v, r) := Visit(o, w, Found(fs[0], gate));
      var after := GateAfter(o, w, gate, fs[0]);
      if r.Some? then after else GateAtEnd(o, v, after, fs[1..])
  }

  ghost function ListingOf(o: Owner, w: Watcher, gate: Ideal, d: Directory): Listing {
    match d
    case NoDirectory => Missing
    case NotListed => Failed
    case Files(fs) => Listed(AllFound(o, w, gate, fs))
  }

  class SummarySpoolWatcher {
    const owner: Owner
    const gate: SummaryIngestionGate
    var stopped: bool
    var terminal: bool
    var processed: set<string>
    ghost var accepted: seq<Acceptance>

    ghost predicate Valid()
      reads gate, gate.orch, gate.orch.servers, gate.orch.servers.Cells()
    {
      gate.Valid() && this !in gate.orch.servers.Cells()
    }

    ghost function View(): Watcher
      reads this
    {
      Watcher(stopped, terminal, processed, accepted)
    }

    constructor (owner: Owner, gate: SummaryIngestionGate)
      ensures this.owner == owner && this.gate == gate && View() == FRESH
    {
      this.owner, this.gate := owner, gate;
      stopped, terminal, processed, accepted := false, false, {}, [];
    }

    method Stop()
      modifies this
      ensures View() == Do(owner, old(View()), StopOp)
    {
      stopped := true;
    }

    /** refuse: terminal for good; the file is moved away if it can be. */
    method Refuse(quarantined: bool) returns (r: PollResult)
      modifies this
      ensures View() == old(View()).(terminal := true) && r == EntryRefused(quarantined)
    {
      terminal := true;
      return EntryRefused(quarantined);
    }

    /** The gate's answer decides: a duplicate is skipped from now on, another refusal is final. */
    method Settle(f: SpoolFile, answer: Option<Refusal>) returns (r: Option<PollResult>)
      requires Valid() && f.read.Data?
      modifies this
      ensures Valid() && gate.View() == old(gate.View())
      ensures (View(), r) == Settled(old(View()), f.name, f.read.artifact, answer, f.quarantined)
    {
      if answer.Some? && answer.value != Duplicate {
        var refused := Refuse(f.quarantined);
        return Some(refused);
      }
      processed := processed + {f.name};
      if answer.None? { accepted := accepted + AcceptanceOf(f.name, f.read.artifact); }
      return None;
    }

    /** The checks before the gate: the file goes on to it, or the visit is over. */
    method Precheck(f: SpoolFile, ghost g: Ideal) returns (goes: bool, r: Option<PollResult>)
      requires Valid()
      modifies this
      ensures Valid() && gate.View() == old(gate.View())
      ensures goes == Ingests(old(View()), f)
      ensures if goes then View() == old(View()) else (View(), r) == Visit(owner, old(View()), Found(f, g))
    {
      r := None;
      var canonical := N.CanonicalSummaryName(f.name);
      if canonical.None? || f.name in processed { return false, None; }
      if f.cancelledBefore {
        stopped := true;
        return false, Some(ContextDone);
      }
      if f.read.Gone? { return false, None; }
      if f.read.Unreadable? {
        var refused := Refuse(f.quarantined);
        return false, Some(refused);
      }
      if f.cancelledAfter {
        stopped := true;
        return false, Some(ContextDone);
      }
      return true, None;
    }

    /** One entry of the poll's loop: ignored, skipped, given to the gate, or the end of the poll. */
    method VisitEntry(f: SpoolFile) returns (r: Option<PollResult>)
      requires Valid()
      modifies this, gate`seenArtifacts, gate.orch.store
      ensures Valid() && gate.View() == GateAfter(owner, old(View()), old(gate.View()), f)
      ensures (View(), r) == Visit(owner, old(View()), Found(f, old(gate.View())))
    {
      var goes, over := Precheck(f, gate.View());
      if !goes { return over; }
      var answer := gate.Ingest(RequestFor(owner, f.name, f.read.artifact));
      r := Settle(f, answer);
    }

    method PollOnce(cancelled: bool, d: Directory) returns (r: PollResult)
      requires Valid()
      modifies this, gate`seenArtifacts, gate.orch.store
      ensures Valid()
      ensures (View(), r) == Poll(owner, old(View()), cancelled, ListingOf(owner, old(View()), old(gate.View()), d))
      ensures gate.View() == if old(View()).Over() || cancelled || !d.Files? then old(gate.View())
                             else GateAtEnd(owner, old(View()), old(gate.View()), d.files)
    {
      if stopped { return WatcherStopped; }
      if terminal { return WatcherTerminal; }
      if cancelled {
        stopped := true;
        return ContextDone;
      }
      if d.NoDirectory? { return PollOk; }
      if d.NotListed? { return ReadDirFailed; }
      r := PollFiles(d.files);
    }

    method PollFiles(fs: seq<SpoolFile>) returns (r: PollResult)
      requires Valid()
      modifies this, gate`seenArtifacts, gate.orch.store
      ensures Valid() && gate.View() == GateAtEnd(owner, old(View()), old(gate.View()), fs)
      ensures (View(), r) == VisitAll(owner, old(View()), AllFound(owner, old(View()), old(gate.View()), fs))
    {
      ghost var w, g := View(), gate.View();
      for i := 0 to |fs|
        invariant Valid() && GateAtEnd(owner, View(), gate.View(), fs[i..]) == GateAtEnd(owner, w, g, fs)
        invariant VisitAll(owner, View(), AllFound(owner, View(), gate.View(), fs[i..]))
                  == VisitAll(owner, w, AllFound(owner, w, g, fs))
      {
        assert fs[i..][0] == fs[i] && fs[i..][1..] == fs[i + 1..];
        var x := VisitEntry(fs[i]);
        if x.Some? { return x.value; }
      }
      return PollOk;
    }
  }
}
