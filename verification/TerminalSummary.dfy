/** The strict eight-field decoder of the terminal summary artifact. JSON tokenising is outside:
    an artifact carries the key/value list its visitor walks, or none if it is not an object. */
module TerminalSummaries {
  import opened Prelude

  const VERSION := "runback-attempt/v1"

  const MAX_BYTES: nat := 65536

  datatype JsonValue =
    | JString(text: string)
    | JUint(number: nat)   // a literal made of digits only
    | JOther               // a float, exponent, sign, boolean, null, array or object

  type Entry = (string, JsonValue)

  /** One spool artifact: its bytes, and what the JSON visitor yields for them. */
  datatype Artifact = Artifact(bytes: string, visited: Option<seq<Entry>>)

  datatype Field =
    | Version | ReplayIdentity | Revision | ServerProcessGeneration
    | AttemptGeneration | TakeoverTick | Ending | EndedAtSeconds

  function FieldName(f: Field): string {
    match f
    case Version => "version"
    case ReplayIdentity => "replay_identity"
    case Revision => "revision"
    case ServerProcessGeneration => "server_process_generation"
    case AttemptGeneration => "attempt_generation"
    case TakeoverTick => "takeover_tick"
    case Ending => "ending"
    case EndedAtSeconds => "ended_at_seconds"
  }

  /** summaryFieldIndex: the field a wire name denotes. */
  function FieldIndex(key: string): (f: Option<Field>)
    ensures f.Some? ==> FieldName(f.value) == key
    ensures f.None? ==> forall g :: FieldName(g) != key
  {
    if key == "version" then Some(Version)
    else if key == "replay_identity" then Some(ReplayIdentity)
    else if key == "revision" then Some(Revision)
    else if key == "server_process_generation" then Some(ServerProcessGeneration)
    else if key == "attempt_generation" then Some(AttemptGeneration)
    else if key == "takeover_tick" then Some(TakeoverTick)
    else if key == "ending" then Some(Ending)
    else if key == "ended_at_seconds" then Some(EndedAtSeconds)
    else None
  }

  /** Field names are pairwise distinct; their lengths and first letters tell them apart. */
  lemma FieldNameInjective(f: Field, g: Field)
    requires FieldName(f) == FieldName(g)
    ensures f == g
  {
    assert |FieldName(f)| == |FieldName(g)| && FieldName(f)[0] == FieldName(g)[0];
  }

  datatype TerminalSummary = TerminalSummary(
    version: string, revision: string, replayIdentity: string,
    attemptGeneration: nat, serverProcessGeneration: nat,
    takeoverTick: nat, ending: string, endedAtSeconds: nat)

  const ZERO_SUMMARY := TerminalSummary("", "", "", 0, 0, 0, "", 0)

  const ENDINGS: set<string> :=
    {"secure", "abandoned-objective", "unresolved", "infrastructure-failure"}

  datatype SummaryError = Oversize | Malformed | UnknownVersion

  function DecodeString(v: JsonValue): Option<string> {
    if v.JString? then Some(v.text) else None
  }

  function DecodeUint64(v: JsonValue): Option<nat> {
    if v.JUint? && v.number < UINT64_LIMIT then Some(v.number) else None
  }

  function DecodeUint32(v: JsonValue): Option<nat> {
    var u := DecodeUint64(v);
    if u.None? || u.value >= UINT32_LIMIT then None else u
  }

  /** decodeSummaryField: write one typed value into the summary, or refuse it. */
  function DecodeSummaryField(s: TerminalSummary, f: Field, v: JsonValue): Option<TerminalSummary> {
    match f
    case Version => (var d := DecodeString(v); if d.None? then None else Some(s.(version := d.value)))
    case ReplayIdentity => (var d := DecodeString(v); if d.None? then None else Some(s.(replayIdentity := d.value)))
    case Revision => (var d := DecodeString(v); if d.None? then None else Some(s.(revision := d.value)))
    case Ending => (var d := DecodeString(v); if d.None? then None else Some(s.(ending := d.value)))
    case ServerProcessGeneration =>
      (var d := DecodeUint64(v); if d.None? then None else Some(s.(serverProcessGeneration := d.value)))
    case AttemptGeneration =>
      (var d := DecodeUint64(v); if d.None? then None else Some(s.(attemptGeneration := d.value)))
    case TakeoverTick => (var d := DecodeUint32(v); if d.None? then None else Some(s.(takeoverTick := d.value)))
    case EndedAtSeconds => (var d := DecodeUint32(v); if d.None? then None else Some(s.(endedAtSeconds := d.value)))
  }

  datatype Scan = Refused | Scanned(seen: set<Field>, summary: TerminalSummary)

  /** The visitor's step for one key: unknown, repeated and mistyped fields are refused. */
  function Visit(sc: Scan, e: Entry): Scan {
    if sc.Refused? then Refused
    else
      var f := FieldIndex(e.0);
      if f.None? || f.value in sc.seen then Refused
      else
        var d := DecodeSummaryField(sc.summary, f.value, e.1);
        if d.None? then Refused else Scanned(sc.seen + {f.value}, d.value)
  }

  function VisitAll(entries: seq<Entry>): Scan {
    if entries == [] then Scanned({}, ZERO_SUMMARY)
    else Visit(VisitAll(entries[..|entries| - 1]), entries[|entries| - 1])
  }

  const ALL_FIELDS: set<Field> :=
    {Version, ReplayIdentity, Revision, ServerProcessGeneration,
     AttemptGeneration, TakeoverTick, Ending, EndedAtSeconds}

  /** The checks after the visit: completeness, version, identities, generations, ending. */
  function Finish(sc: Scan): Result<TerminalSummary, SummaryError> {
    if sc.Refused? then Err(Malformed)
    else if sc.seen != ALL_FIELDS then Err(Malformed)
    else if sc.summary.version != VERSION then Err(UnknownVersion)
    else if sc.summary.replayIdentity == "" || sc.summary.revision == "" then Err(Malformed)
    else if sc.summary.serverProcessGeneration == 0 || sc.summary.attemptGeneration == 0 then Err(Malformed)
    else if sc.summary.ending !in ENDINGS then Err(Malformed)
    else Ok(sc.summary)
  }

  function Decode(a: Artifact): Result<TerminalSummary, SummaryError> {
    if |a.bytes| > MAX_BYTES then Err(Oversize)
    else if a.visited.None? then Err(Malformed)
    else Finish(VisitAll(a.visited.value))
  }

  /** ParseTerminalSummaryArtifact, with its visitor loop and in-place summary. */
  method ParseTerminalSummaryArtifact(a: Artifact) returns (r: Result<TerminalSummary, SummaryError>)
    ensures r == Decode(a)
  {
    if |a.bytes| > MAX_BYTES { return Err(Oversize); }
    if a.visited.None? { return Err(Malformed); }
    var entries := a.visited.value;
    var seen: set<Field>, summary, failed := {}, ZERO_SUMMARY, false;
    for i := 0 to |entries|
      invariant VisitAll(entries[..i]) == if failed then Refused else Scanned(seen, summary)
    {
      assert entries[..i + 1][..i] == entries[..i];
      if !failed {
        var f := FieldIndex(entries[i].0);
        if f.None? || f.value in seen {
          failed := true;
        } else {
          seen := seen + {f.value};
          var d := DecodeSummaryField(summary, f.value, entries[i].1);
          if d.None? { failed := true; } else { summary := d.value; }
        }
      }
    }
    assert entries[..|entries|] == entries;
    if failed { return Err(Malformed); }
    if seen != ALL_FIELDS { return Err(Malformed); }
    if summary.version != VERSION { return Err(UnknownVersion); }
    if summary.replayIdentity == "" || summary.revision == "" { return Err(Malformed); }
    if summary.serverProcessGeneration == 0 || summary.attemptGeneration == 0 { return Err(Malformed); }
    if summary.ending !in ENDINGS { return Err(Malformed); }
    return Ok(summary);
  }

  // ----- what the decoder accepts, stated without the visit -----

  /** The writer's value for one field of a summary. */
  function WireValue(s: TerminalSummary, f: Field): JsonValue {
    match f
    case Version => JString(s.version)
    case ReplayIdentity => JString(s.replayIdentity)
    case Revision => JString(s.revision)
    case ServerProcessGeneration => JUint(s.serverProcessGeneration)
    case AttemptGeneration => JUint(s.attemptGeneration)
    case TakeoverTick => JUint(s.takeoverTick)
    case Ending => JString(s.ending)
    case EndedAtSeconds => JUint(s.endedAtSeconds)
  }

  function WireEntry(s: TerminalSummary, f: Field): Entry {
    (FieldName(f), WireValue(s, f))
  }

  /** The wire form restricted to some fields. */
  ghost function WirePart(s: TerminalSummary, fields: set<Field>): set<Entry> {
    set f | f in fields :: WireEntry(s, f)
  }

  /** The whole wire form, as an unordered collection of members (RFC 8259, section 4). */
  ghost function Wire(s: TerminalSummary): set<Entry> {
    WirePart(s, ALL_FIELDS)
  }

  /** The numbers of the summary fit their widths. */
  ghost predicate InRange(s: TerminalSummary) {
    s.attemptGeneration < UINT64_LIMIT && s.serverProcessGeneration < UINT64_LIMIT
    && s.takeoverTick < UINT32_LIMIT && s.endedAtSeconds < UINT32_LIMIT
  }

  ghost predicate Legal(s: TerminalSummary) {
    InRange(s) && s.version == "runback-attempt/v1"
    && s.replayIdentity != "" && s.revision != ""
    && s.serverProcessGeneration != 0 && s.attemptGeneration != 0
    && (s.ending == "secure" || s.ending == "abandoned-objective" || s.ending == "unresolved"
        || s.ending == "infrastructure-failure")
  }

  /** The list is exactly the eight members of s, in some order, none repeated. */
  ghost predicate Spells(entries: seq<Entry>, s: TerminalSummary) {
    |entries| == 8 && Elements(entries) == Wire(s)
  }

  ghost predicate Agree(s: TerminalSummary, t: TerminalSummary, fields: set<Field>) {
    forall f :: f in fields ==> WireValue(s, f) == WireValue(t, f)
  }

  lemma AllFields(f: Field)
    ensures f in ALL_FIELDS
  {
  }

  lemma AgreeEverywhere(s: TerminalSummary, t: TerminalSummary)
    requires Agree(s, t, ALL_FIELDS)
    ensures s == t
  {
    assert WireValue(s, Version) == WireValue(t, Version);
    assert WireValue(s, ReplayIdentity) == WireValue(t, ReplayIdentity);
    assert WireValue(s, Revision) == WireValue(t, Revision);
    assert WireValue(s, ServerProcessGeneration) == WireValue(t, ServerProcessGeneration);
    assert WireValue(s, AttemptGeneration) == WireValue(t, AttemptGeneration);
    assert WireValue(s, TakeoverTick) == WireValue(t, TakeoverTick);
    assert WireValue(s, Ending) == WireValue(t, Ending);
    assert WireValue(s, EndedAtSeconds) == WireValue(t, EndedAtSeconds);
  }

  /** Decoding one field sets that field to the presented value and no other. */
  lemma FieldDecoded(s: TerminalSummary, f: Field, v: JsonValue, g: Field)
    requires DecodeSummaryField(s, f, v).Some?
    ensures var d := DecodeSummaryField(s, f, v).value;
            WireValue(d, g) == (if g == f then v else WireValue(s, g))
            && (InRange(s) ==> InRange(d))
  {
  }

  /** A value the writer would emit for a field decodes. */
  lemma FieldDecodes(s: TerminalSummary, t: TerminalSummary, f: Field)
    requires InRange(t)
    ensures DecodeSummaryField(s, f, WireValue(t, f)).Some?
  {
  }

  lemma WirePartExtends(s: TerminalSummary, t: TerminalSummary, fields: set<Field>, f: Field)
    requires f !in fields && Agree(s, t, fields)
    ensures WirePart(t, fields + {f}) == WirePart(s, fields) + {WireEntry(t, f)}
  {
    forall e ensures e in WirePart(t, fields + {f}) <==> e in WirePart(s, fields) + {WireEntry(t, f)} {
      if e in WirePart(s, fields) {
        var g :| g in fields && WireEntry(s, g) == e;
        assert WireEntry(t, g) == e;
      }
      if e in WirePart(t, fields + {f}) {
        var g :| g in fields + {f} && WireEntry(t, g) == e;
        assert g == f || WireEntry(s, g) == e;
      }
    }
  }

  /** One accepted key adds exactly one member to the wire form of what was seen. */
  lemma VisitStep(before: Scan, e: Entry)
    requires Visit(before, e).Scanned?
    ensures var after := Visit(before, e);
            |after.seen| == |before.seen| + 1
            && (InRange(before.summary) ==> InRange(after.summary))
            && WirePart(after.summary, after.seen) == WirePart(before.summary, before.seen) + {e}
  {
    var f := FieldIndex(e.0).value;
    var t := DecodeSummaryField(before.summary, f, e.1).value;
    forall g ensures WireValue(t, g) == (if g == f then e.1 else WireValue(before.summary, g)) {
      FieldDecoded(before.summary, f, e.1, g);
    }
    FieldDecoded(before.summary, f, e.1, f);
    assert e == WireEntry(t, f);
    WirePartExtends(before.summary, t, before.seen, f);
  }

  lemma OneMore(front: seq<Entry>, last: Entry)
    ensures Elements(front + [last]) == Elements(front) + {last}
  {
  }

  /** A visit that was not refused has seen one field per entry, and the entries are exactly the
      wire form of the summary restricted to the seen fields. */
  ghost predicate Reads(entries: seq<Entry>, sc: Scan) {
    sc.Scanned? ==>
      |sc.seen| == |entries| && InRange(sc.summary) && Elements(entries) == WirePart(sc.summary, sc.seen)
  }

  lemma ReadsMore(front: seq<Entry>, sc: Scan, last: Entry)
    requires Reads(front, sc)
    ensures Reads(front + [last], Visit(sc, last))
  {
    if Visit(sc, last).Scanned? {
      VisitStep(sc, last);
      OneMore(front, last);
    }
  }

  lemma {:induction false} VisitSound(entries: seq<Entry>)
    ensures Reads(entries, VisitAll(entries))
  {
    if entries != [] {
      var front, last := entries[..|entries| - 1], entries[|entries| - 1];
      VisitSound(front);
      ReadsMore(front, VisitAll(front), last);
      assert entries == front + [last];
    }
  }

  lemma FieldOfWire(s: TerminalSummary, e: Entry) returns (f: Field)
    requires e in Wire(s)
    ensures e == WireEntry(s, f) && FieldIndex(e.0) == Some(f)
  {
    f :| f in ALL_FIELDS && WireEntry(s, f) == e;
    FieldNameInjective(FieldIndex(e.0).value, f);
  }

  /** A repetition-free list of members of s is visited without refusal, whatever its order. */
  lemma {:induction false} VisitComplete(entries: seq<Entry>, s: TerminalSummary)
    requires InRange(s) && Distinct(entries)
    requires forall e :: e in entries ==> e in Wire(s)
    ensures var sc := VisitAll(entries);
            sc.Scanned? && Agree(sc.summary, s, sc.seen)
  {
    if entries != [] {
      var front, last := entries[..|entries| - 1], entries[|entries| - 1];
      VisitComplete(front, s);
      VisitSound(front);
      var before := VisitAll(front);
      var f := FieldOfWire(s, last);
      assert last !in Elements(front);
      forall g | g in before.seen ensures WireEntry(before.summary, g) != last {
        assert WireEntry(before.summary, g) in WirePart(before.summary, before.seen);
      }
      FieldDecodes(before.summary, s, f);
      var d := DecodeSummaryField(before.summary, f, last.1).value;
      forall g | g in before.seen + {f} ensures WireValue(d, g) == WireValue(s, g) {
        FieldDecoded(before.summary, f, last.1, g);
      }
    }
  }

  const ORDER: seq<Field> := [Version, ReplayIdentity, Revision, ServerProcessGeneration,
                              AttemptGeneration, TakeoverTick, Ending, EndedAtSeconds]

  lemma InOrder(f: Field) returns (i: nat)
    ensures i < |ORDER| && ORDER[i] == f
  {
    i := if f == Version then 0 else if f == ReplayIdentity then 1 else if f == Revision then 2
         else if f == ServerProcessGeneration then 3 else if f == AttemptGeneration then 4
         else if f == TakeoverTick then 5 else if f == Ending then 6 else 7;
  }

  /** The eight members of a summary as the writer names them. */
  function Members(s: TerminalSummary): seq<Entry> {
    [("version", JString(s.version)), ("replay_identity", JString(s.replayIdentity)),
     ("revision", JString(s.revision)), ("server_process_generation", JUint(s.serverProcessGeneration)),
     ("attempt_generation", JUint(s.attemptGeneration)), ("takeover_tick", JUint(s.takeoverTick)),
     ("ending", JString(s.ending)), ("ended_at_seconds", JUint(s.endedAtSeconds))]
  }

  lemma MembersAreWire(s: TerminalSummary)
    ensures Elements(Members(s)) == Wire(s) && Distinct(Members(s))
  {
    var members := Members(s);
    forall i | 0 <= i < 8 ensures members[i] == WireEntry(s, ORDER[i]) {}
    forall i, j | 0 <= i < j < 8 ensures members[i] != members[j] {
      if FieldName(ORDER[i]) == FieldName(ORDER[j]) { FieldNameInjective(ORDER[i], ORDER[j]); }
    }
    forall e ensures e in Elements(members) <==> e in Wire(s) {
      if e in Wire(s) {
        var f :| f in ALL_FIELDS && WireEntry(s, f) == e;
        var i := InOrder(f);
        assert members[i] == e;
      }
      if e in members {
        var i :| 0 <= i < 8 && members[i] == e;
        AllFields(ORDER[i]);
      }
    }
  }

  lemma WireCount(s: TerminalSummary)
    ensures |Wire(s)| == 8
  {
    MembersAreWire(s);
    ElementsCount(Members(s));
  }

  lemma FullSeen(seen: set<Field>)
    ensures seen <= ALL_FIELDS && (|seen| == 8 <==> seen == ALL_FIELDS)
  {
    forall f: Field ensures f in ALL_FIELDS { AllFields(f); }
    assert |ALL_FIELDS| == 8;
    if |seen| == 8 {
      assert |ALL_FIELDS - seen| == 0;
      assert ALL_FIELDS - seen == {};
    }
  }

  /** The visit finishes with every field and summary s exactly when the list spells s. */
  lemma VisitExact(entries: seq<Entry>, s: TerminalSummary)
    ensures VisitAll(entries) == Scanned(ALL_FIELDS, s) <==> Spells(entries, s) && InRange(s)
  {
    WireCount(s);
    if VisitAll(entries) == Scanned(ALL_FIELDS, s) {
      VisitSound(entries);
      FullSeen(ALL_FIELDS);
    }
    if Spells(entries, s) && InRange(s) {
      ElementsCount(entries);
      VisitComplete(entries, s);
      VisitSound(entries);
      FullSeen(VisitAll(entries).seen);
      AgreeEverywhere(VisitAll(entries).summary, s);
    }
  }

  lemma {:induction false} DistinctOnce<T>(s: seq<T>, x: T)
    requires Distinct(s)
    ensures multiset(s)[x] == if x in s then 1 else 0
  {
    if s != [] {
      var front, last := s[..|s| - 1], s[|s| - 1];
      DistinctOnce(front, x);
      assert s == front + [last];
      assert x in s <==> x in front || x == last;
    }
  }

  lemma Reordered<T>(x: seq<T>, y: seq<T>)
    ensures multiset(x) == multiset(y) ==> |x| == |y| && Elements(x) == Elements(y)
    ensures Distinct(x) && Distinct(y) && Elements(x) == Elements(y) ==> multiset(x) == multiset(y)
  {
    if multiset(x) == multiset(y) {
      assert |x| == |multiset(x)| == |multiset(y)| == |y|;
      forall e ensures e in x <==> e in y { assert e in multiset(x) <==> e in multiset(y); }
    }
    if Distinct(x) && Distinct(y) && Elements(x) == Elements(y) {
      forall e ensures multiset(x)[e] == multiset(y)[e] {
        DistinctOnce(x, e);
        DistinctOnce(y, e);
        assert e in Elements(x) <==> e in Elements(y);
      }
    }
  }

  /** A list spells a summary exactly when it is a reordering of its eight members. */
  lemma SpellsExact(entries: seq<Entry>, s: TerminalSummary)
    ensures Spells(entries, s) <==> multiset(entries) == multiset(Members(s))
  {
    MembersAreWire(s);
    WireCount(s);
    ElementsCount(entries);
    Reordered(entries, Members(s));
  }

  /** The decoder accepts with summary s exactly when the artifact has at most 65536 bytes, its
      members are exactly those of s in any order, and s obeys every rule of the contract. */
  lemma DecodeExact(a: Artifact, s: TerminalSummary)
    ensures Decode(a) == Ok(s)
       <==> |a.bytes| <= 65536 && a.visited.Some? && multiset(a.visited.value) == multiset(Members(s)) && Legal(s)
  {
    if a.visited.Some? {
      VisitExact(a.visited.value, s);
      SpellsExact(a.visited.value, s);
    }
  }

  /** A version refusal means the members are complete, typed and in range, but for another
      contract; every other refusal below the size bound is "malformed". */
  lemma VersionRefusalExact(a: Artifact)
    ensures Decode(a) == Err(UnknownVersion)
       <==> |a.bytes| <= MAX_BYTES && a.visited.Some?
            && exists s :: Spells(a.visited.value, s) && InRange(s) && s.version != "runback-attempt/v1"
  {
    if a.visited.Some? {
      var entries := a.visited.value;
      if VisitAll(entries).Scanned? && VisitAll(entries).seen == ALL_FIELDS {
        VisitExact(entries, VisitAll(entries).summary);
      }
      forall s | Spells(entries, s) && InRange(s)
        ensures VisitAll(entries) == Scanned(ALL_FIELDS, s)
      {
        VisitExact(entries, s);
      }
    }
  }

  /** Two artifacts on the same side of the size bound whose members are the same, in any order,
      get the same answer: the same summary or the same refusal. */
  lemma OrderIrrelevant(a: Artifact, b: Artifact)
    requires a.visited.Some? && b.visited.Some?
    requires |a.bytes| <= MAX_BYTES <==> |b.bytes| <= MAX_BYTES
    requires multiset(a.visited.value) == multiset(b.visited.value)
    ensures Decode(a) == Decode(b)
  {
    var x, y := a.visited.value, b.visited.value;
    Reordered(x, y);
    forall s ensures Spells(x, s) <==> Spells(y, s) {}
    if Decode(a).Ok? { DecodeExact(a, Decode(a).value); DecodeExact(b, Decode(a).value); }
    if Decode(b).Ok? { DecodeExact(b, Decode(b).value); DecodeExact(a, Decode(b).value); }
    VersionRefusalExact(a);
    VersionRefusalExact(b);
  }
}
