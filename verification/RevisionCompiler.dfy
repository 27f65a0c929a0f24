/** The pure compiler from replay facts to an immutable revision: its exact omission list, the
    fidelity it grants and the lead-in window. Tick intervals are exact reals. */
module RevisionCompiler {
  import opened Prelude
  import Decimal

  /** One observed kinematic field of a hero row. */
  datatype Observation = Observation(present: bool, missingReason: string, freshnessTicks: nat)

  datatype Vector = Vector(x: Observation, y: Observation, z: Observation)

  datatype Hero = Hero(playerSlot: nat, position: Vector, facing: Vector, velocity: Vector)

  datatype Source = Source(sha256: string, matchID: nat)

  datatype Facts = Facts(
    tick: nat, schemaVersion: nat, source: Source, ineligible: bool, reasons: seq<string>, heroes: seq<Hero>)

  datatype Capability = Capability(apply: bool, observe: bool, verify: bool, reset: bool, evidence: string) {
    predicate Supported() { apply && observe && verify && reset && evidence != "" }
  }

  /** schema is the version this build of the facts contract supports. */
  datatype CompileRequest = CompileRequest(
    facts: Facts, capabilities: map<string, Capability>, maxFreshness: nat,
    interval: real, revisionID: string, schema: nat)

  datatype OmissionKind = NotObserved | Stale | Unsupported | Ineligible

  datatype Omission = Omission(kind: OmissionKind, subject: string, required: bool, reason: string)

  datatype Fidelity = Preview | Complete

  datatype Revision = Revision(
    id: string, replayID: string, leadInStartTick: nat, takeoverTick: nat,
    fidelity: Fidelity, omissions: seq<Omission>)

  datatype Refusal = ZeroTick | UnsupportedSchema | EmptyRevisionID | InvalidInterval

  // ----- the nine fields of a hero row -----

  const FIELDS: nat := 9

  /** The field names in order: three vectors of three axes. */
  function FieldName(f: nat): string
    requires f < FIELDS
  {
    (if f < 3 then "position." else if f < 6 then "facing." else "velocity.") + AxisName(f)
  }

  function AxisName(f: nat): string
    requires f < FIELDS
  {
    if f == 0 || f == 3 || f == 6 then "x" else if f == 1 || f == 4 || f == 7 then "y" else "z"
  }

  function Field(h: Hero, f: nat): Observation
    requires f < FIELDS
  {
    var v := if f < 3 then h.position else if f < 6 then h.facing else h.velocity;
    if f == 0 || f == 3 || f == 6 then v.x else if f == 1 || f == 4 || f == 7 then v.y else v.z
  }

  /** The field is present, within a declared freshness budget, and fully supported. */
  predicate Passes(req: CompileRequest, h: Hero, f: nat)
    requires f < FIELDS
  {
    var o := Field(h, f);
    o.present && req.maxFreshness != 0 && o.freshnessTicks <= req.maxFreshness
    && FieldName(f) in req.capabilities && req.capabilities[FieldName(f)].Supported()
  }

  function Subject(h: Hero, f: nat): string
    requires f < FIELDS
  {
    "hero." + Decimal.Print(h.playerSlot) + "." + FieldName(f)
  }

  /** The entry a failing field gets: missing before stale before unsupported. */
  function OmissionFor(req: CompileRequest, h: Hero, f: nat): Omission
    requires f < FIELDS && !Passes(req, h, f)
  {
    var o := Field(h, f);
    if !o.present then Omission(NotObserved, Subject(h, f), true, o.missingReason)
    else if req.maxFreshness == 0 || o.freshnessTicks > req.maxFreshness
    then Omission(Stale, Subject(h, f), true, "parser evidence is older than the freshness limit")
    else Omission(Unsupported, Subject(h, f), true, "runtime cannot apply, observe, verify, and reset this field")
  }

  // ----- the list as the loops build it -----

  /** The entries of the first n fields of one hero. */
  function OfFields(req: CompileRequest, h: Hero, n: nat): seq<Omission>
    requires n <= FIELDS
  {
    if n == 0 then []
    else OfFields(req, h, n - 1) + (if Passes(req, h, n - 1) then [] else [OmissionFor(req, h, n - 1)])
  }

  function OfHeroes(req: CompileRequest, n: nat): seq<Omission>
    requires n <= |req.facts.heroes|
  {
    if n == 0 then [] else OfHeroes(req, n - 1) + OfFields(req, req.facts.heroes[n - 1], FIELDS)
  }

  function IneligibleReason(facts: Facts): string {
    if facts.reasons != [] then facts.reasons[0] else "replay facts are ineligible for scenario use"
  }

  function IneligibleEntry(facts: Facts): seq<Omission> {
    if facts.ineligible then [Omission(Ineligible, "eligibility", true, IneligibleReason(facts))] else []
  }

  function Omissions(req: CompileRequest): seq<Omission> {
    IneligibleEntry(req.facts) + OfHeroes(req, |req.facts.heroes|)
  }

  method HeroOmissions(req: CompileRequest, hero: Hero) returns (out: seq<Omission>)
    ensures out == OfFields(req, hero, FIELDS)
  {
    out := [];
    for f := 0 to FIELDS
      invariant out == OfFields(req, hero, f)
    {
      var value, subject := Field(hero, f), Subject(hero, f);
      if !value.present {
        out := out + [Omission(NotObserved, subject, true, value.missingReason)];
        continue;
      }
      if req.maxFreshness == 0 || value.freshnessTicks > req.maxFreshness {
        out := out + [Omission(Stale, subject, true, "parser evidence is older than the freshness limit")];
        continue;
      }
      if FieldName(f) !in req.capabilities || !req.capabilities[FieldName(f)].Supported() {
        out := out + [Omission(Unsupported, subject, true,
                               "runtime cannot apply, observe, verify, and reset this field")];
      }
    }
  }

  lemma Append<T>(a: seq<T>, b: seq<T>, c: seq<T>)
    ensures a + b + c == a + (b + c)
  {
  }

  method CollectOmissions(req: CompileRequest) returns (omissions: seq<Omission>)
    ensures omissions == Omissions(req)
  {
    omissions := [];
    if req.facts.ineligible {
      var reason := "replay facts are ineligible for scenario use";
      if |req.facts.reasons| > 0 { reason := req.facts.reasons[0]; }
      omissions := [Omission(Ineligible, "eligibility", true, reason)];
    }
    ghost var first := omissions;
    assert first == IneligibleEntry(req.facts);
    for h := 0 to |req.facts.heroes|
      invariant omissions == first + OfHeroes(req, h)
    {
      var of := HeroOmissions(req, req.facts.heroes[h]);
      omissions := omissions + of;
      Append(first, OfHeroes(req, h), of);
    }
  }

  // ----- exactly the failing pairs, in order -----

  /** A field of a hero, by position; cells are ordered row by row. */
  datatype Cell = Cell(h: nat, f: nat) {
    predicate Before(c: Cell) { h < c.h || (h == c.h && f < c.f) }
  }

  predicate Fails(req: CompileRequest, c: Cell) {
    c.h < |req.facts.heroes| && c.f < FIELDS && !Passes(req, req.facts.heroes[c.h], c.f)
  }

  function EntryAt(req: CompileRequest, c: Cell): Omission
    requires Fails(req, c)
  {
    OmissionFor(req, req.facts.heroes[c.h], c.f)
  }

  /** The list names the failing cells before the bound, each once, in order, and says of each what
      is wrong with it. */
  ghost predicate Lists(req: CompileRequest, list: seq<Omission>, cells: seq<Cell>, bound: Cell) {
    && |cells| == |list|
    && (forall i :: 0 <= i < |cells| ==>
          Fails(req, cells[i]) && cells[i].Before(bound) && list[i] == EntryAt(req, cells[i]))
    && (forall i, j :: 0 <= i < j < |cells| ==> cells[i].Before(cells[j]))
    && (forall c: Cell :: Fails(req, c) && c.Before(bound) ==> c in cells)
  }

  /** One more cell: listed if it fails, skipped if it passes. */
  lemma ListsMore(req: CompileRequest, list: seq<Omission>, cells: seq<Cell>, c: Cell)
    requires Lists(req, list, cells, c)
    ensures Fails(req, c) ==> Lists(req, list + [EntryAt(req, c)], cells + [c], Cell(c.h, c.f + 1))
    ensures !Fails(req, c) ==> Lists(req, list, cells, Cell(c.h, c.f + 1))
  {
    forall d: Cell | Fails(req, d) && d.Before(Cell(c.h, c.f + 1))
      ensures d in cells + [c] && (d != c ==> d in cells)
    {
      if d != c { assert d.Before(c) && d in cells; }
    }
  }

  /** A full row leads to the next one. */
  lemma ListsRow(req: CompileRequest, list: seq<Omission>, cells: seq<Cell>, h: nat)
    requires Lists(req, list, cells, Cell(h, FIELDS))
    ensures Lists(req, list, cells, Cell(h + 1, 0))
  {
    forall c: Cell | Fails(req, c) && c.Before(Cell(h + 1, 0)) ensures c in cells {
      assert c.Before(Cell(h, FIELDS));
    }
  }

  lemma {:induction false} FieldsList(req: CompileRequest, h: nat, n: nat) returns (cells: seq<Cell>)
    requires h < |req.facts.heroes| && n <= FIELDS
    ensures Lists(req, OfHeroes(req, h) + OfFields(req, req.facts.heroes[h], n), cells, Cell(h, n))
    decreases h, n + 1
  {
    var hero, before := req.facts.heroes[h], OfHeroes(req, h);
    if n == 0 {
      cells := HeroesList(req, h);
      assert before + OfFields(req, hero, 0) == before;
    } else {
      cells := FieldsList(req, h, n - 1);
      var c, list := Cell(h, n - 1), before + OfFields(req, hero, n - 1);
      ListsMore(req, list, cells, c);
      OneMoreField(req, h, n - 1);
      if Fails(req, c) { cells := cells + [c]; }
    }
  }

  lemma OneMoreField(req: CompileRequest, h: nat, n: nat)
    requires h < |req.facts.heroes| && n < FIELDS
    ensures var hero, before := req.facts.heroes[h], OfHeroes(req, h);
            before + OfFields(req, hero, n + 1)
            == before + OfFields(req, hero, n) + (if Fails(req, Cell(h, n)) then [EntryAt(req, Cell(h, n))] else [])
  {
  }

  lemma {:induction false} HeroesList(req: CompileRequest, h: nat) returns (cells: seq<Cell>)
    requires h <= |req.facts.heroes|
    ensures Lists(req, OfHeroes(req, h), cells, Cell(h, 0))
    decreases h, 0
  {
    if h == 0 {
      cells := [];
    } else {
      cells := FieldsList(req, h - 1, FIELDS);
      ListsRow(req, OfHeroes(req, h), cells, h - 1);
    }
  }

  /** The nine columns: what each observes and what it is called. */
  function Column(h: Hero, f: nat): (Observation, string)
    requires f < FIELDS
  {
    match f
    case 0 => (h.position.x, "position.x")
    case 1 => (h.position.y, "position.y")
    case 2 => (h.position.z, "position.z")
    case 3 => (h.facing.x, "facing.x")
    case 4 => (h.facing.y, "facing.y")
    case 5 => (h.facing.z, "facing.z")
    case 6 => (h.velocity.x, "velocity.x")
    case 7 => (h.velocity.y, "velocity.y")
    case _ => (h.velocity.z, "velocity.z")
  }

  predicate Recent(req: CompileRequest, o: Observation) { 0 < req.maxFreshness && o.freshnessTicks <= req.maxFreshness }

  predicate Capable(req: CompileRequest, name: string) {
    name in req.capabilities
    && var c := req.capabilities[name]; c.apply && c.observe && c.verify && c.reset && c.evidence != ""
  }

  /** The entry says of this column what is wrong with it first: not observed, with the parser's own
      reason; or observed and too old; or recent and not fully supported. */
  predicate Explains(req: CompileRequest, h: Hero, f: nat, e: Omission)
    requires f < FIELDS
  {
    Says(req, h, Column(h, f).0, Column(h, f).1, e)
  }

  predicate Says(req: CompileRequest, h: Hero, o: Observation, name: string, e: Omission) {
    && e.required && e.subject == "hero." + Decimal.Print(h.playerSlot) + "." + name
    && (e.kind == NotObserved || e.kind == Stale || e.kind == Unsupported)
    && (e.kind == NotObserved <==> !o.present)
    && (e.kind == NotObserved ==> e.reason == o.missingReason)
    && (e.kind == Stale <==> o.present && !Recent(req, o))
    && (e.kind == Stale ==> e.reason == "parser evidence is older than the freshness limit")
    && (e.kind == Unsupported <==> o.present && Recent(req, o) && !Capable(req, name))
    && (e.kind == Unsupported ==> e.reason == "runtime cannot apply, observe, verify, and reset this field")
  }

  predicate Sound(req: CompileRequest, h: Hero, f: nat)
    requires f < FIELDS
  {
    var (o, name) := Column(h, f);
    o.present && Recent(req, o) && Capable(req, name)
  }

  lemma ColumnOf(h: Hero, f: nat)
    requires f < FIELDS
    ensures Column(h, f) == (Field(h, f), FieldName(f))
  {
    var v := if f < 3 then "position." else if f < 6 then "facing." else "velocity.";
    assert v + AxisName(f) == Column(h, f).1;
  }

  lemma PassesExact(req: CompileRequest, h: Hero, f: nat)
    requires f < FIELDS
    ensures Passes(req, h, f) <==> Sound(req, h, f)
  {
    ColumnOf(h, f);
  }

  lemma EntryExplained(req: CompileRequest, c: Cell)
    requires Fails(req, c)
    ensures Explains(req, req.facts.heroes[c.h], c.f, EntryAt(req, c))
  {
    ColumnOf(req.facts.heroes[c.h], c.f);
    EntrySays(req, req.facts.heroes[c.h], c.f);
  }

  lemma EntrySays(req: CompileRequest, h: Hero, f: nat)
    requires f < FIELDS && !Passes(req, h, f)
    ensures Says(req, h, Field(h, f), FieldName(f), OmissionFor(req, h, f))
  {
  }

  /** The entry for facts marked ineligible, with the first reason they give. */
  predicate SaysIneligible(facts: Facts, e: Omission) {
    && e.kind == Ineligible && e.subject == "eligibility" && e.required
    && e.reason == (if facts.reasons == [] then "replay facts are ineligible for scenario use" else facts.reasons[0])
  }

  lemma EligibilityFirst(req: CompileRequest)
    ensures var list, rest := Omissions(req), OfHeroes(req, |req.facts.heroes|);
            if req.facts.ineligible then |list| > 0 && SaysIneligible(req.facts, list[0]) && list[1..] == rest
            else list == rest
  {
  }

  /** The compiled list: the eligibility entry if the facts are ineligible; then, in order, one entry
      for each cell that is not sound, and each entry explains its cell. */
  lemma OmissionsExact(req: CompileRequest) returns (cells: seq<Cell>)
    ensures var list := Omissions(req);
            if req.facts.ineligible
            then |list| > 0 && SaysIneligible(req.facts, list[0]) && ListsExactly(req, list[1..], cells)
            else ListsExactly(req, list, cells)
  {
    cells := HeroesList(req, |req.facts.heroes|);
    ListedExactly(req, OfHeroes(req, |req.facts.heroes|), cells);
    EligibilityFirst(req);
  }

  /** One entry per cell that is not sound, in row order, each explaining its cell. */
  ghost predicate ListsExactly(req: CompileRequest, list: seq<Omission>, cells: seq<Cell>) {
    && |cells| == |list|
    && (forall i :: 0 <= i < |cells| ==>
          cells[i].h < |req.facts.heroes| && cells[i].f < FIELDS
          && Explains(req, req.facts.heroes[cells[i].h], cells[i].f, list[i]))
    && (forall i, j :: 0 <= i < j < |cells| ==> cells[i].Before(cells[j]))
    && (forall c: Cell :: c.h < |req.facts.heroes| && c.f < FIELDS ==>
          (c in cells <==> !Sound(req, req.facts.heroes[c.h], c.f)))
  }

  lemma ListedExactly(req: CompileRequest, list: seq<Omission>, cells: seq<Cell>)
    requires Lists(req, list, cells, Cell(|req.facts.heroes|, 0))
    ensures ListsExactly(req, list, cells)
  {
    forall i | 0 <= i < |cells|
      ensures cells[i].h < |req.facts.heroes| && cells[i].f < FIELDS
              && Explains(req, req.facts.heroes[cells[i].h], cells[i].f, list[i])
    {
      EntryExplained(req, cells[i]);
    }
    forall c: Cell | c.h < |req.facts.heroes| && c.f < FIELDS
      ensures c in cells <==> !Sound(req, req.facts.heroes[c.h], c.f)
    {
      PassesExact(req, req.facts.heroes[c.h], c.f);
      assert Fails(req, c) ==> c in cells;
      if c in cells { assert Fails(req, c); }
    }
  }

  // ----- fidelity -----

  method GrantedFidelity(omissions: seq<Omission>) returns (f: Fidelity)
    ensures f == Preview <==> exists i :: 0 <= i < |omissions| && omissions[i].required
  {
    for i := 0 to |omissions|
      invariant forall j :: 0 <= j < i ==> !omissions[j].required
    {
      if omissions[i].required { return Preview; }
    }
    return Complete;
  }

  predicate AllPass(req: CompileRequest) {
    forall h, f :: 0 <= h < |req.facts.heroes| && 0 <= f < FIELDS ==> Passes(req, req.facts.heroes[h], f)
  }

  lemma AllPassExact(req: CompileRequest)
    ensures AllPass(req) <==> forall c: Cell :: !Fails(req, c)
  {
    if forall c: Cell :: !Fails(req, c) {
      forall h, f | 0 <= h < |req.facts.heroes| && 0 <= f < FIELDS ensures Passes(req, req.facts.heroes[h], f) {
        assert !Fails(req, Cell(h, f));
      }
    }
  }

  lemma EntryRequired(req: CompileRequest, c: Cell)
    requires Fails(req, c)
    ensures EntryAt(req, c).required
  {
  }

  lemma ListRequired(req: CompileRequest, list: seq<Omission>, cells: seq<Cell>, bound: Cell)
    requires Lists(req, list, cells, bound)
    ensures forall i :: 0 <= i < |list| ==> list[i].required
  {
    forall i | 0 <= i < |list| ensures list[i].required { EntryRequired(req, cells[i]); }
  }

  lemma ListEmpty(req: CompileRequest, list: seq<Omission>, cells: seq<Cell>)
    requires Lists(req, list, cells, Cell(|req.facts.heroes|, 0))
    ensures list == [] <==> AllPass(req)
  {
    AllPassExact(req);
    if list == [] {
      forall c: Cell ensures !Fails(req, c) {
        assert Fails(req, c) ==> c in cells;
      }
    } else {
      assert Fails(req, cells[0]);
    }
  }

  /** Nothing is omitted exactly when the facts are not marked ineligible and every field of every
      hero passes; every entry is required. So zero heroes need no freshness budget. */
  lemma NothingOmitted(req: CompileRequest)
    ensures Omissions(req) == [] <==> !req.facts.ineligible && AllPass(req)
    ensures forall i :: 0 <= i < |Omissions(req)| ==> Omissions(req)[i].required
  {
    var list := OfHeroes(req, |req.facts.heroes|);
    var cells := HeroesList(req, |req.facts.heroes|);
    ListRequired(req, list, cells, Cell(|req.facts.heroes|, 0));
    ListEmpty(req, list, cells);
  }

  // ----- the lead-in -----

  function FloorTicks(interval: real): int
    requires interval > 0.0
  {
    (5.0 / interval).Floor
  }

  /** leadInStartTick; what a conversion out of range yields is left open. */
  method LeadInStartTick(takeoverTick: nat, secondsPerTick: real, outOfRange: nat) returns (start: nat)
    requires secondsPerTick > 0.0
    ensures start <= takeoverTick
    ensures 5.0 / secondsPerTick < UINT32_LIMIT as real ==>
              start as int == Max(0, takeoverTick as int - FloorTicks(secondsPerTick))
  {
    var leadInSeconds := 5.0;
    if leadInSeconds > 10.0 { leadInSeconds := 10.0; }
    assert 5.0 / secondsPerTick >= 0.0;
    var leadInTicks: nat := outOfRange;
    if leadInSeconds / secondsPerTick < UINT32_LIMIT as real { leadInTicks := (leadInSeconds / secondsPerTick).Floor; }
    if leadInTicks > takeoverTick { leadInTicks := takeoverTick; }
    start := takeoverTick - leadInTicks;
  }

  function Max(a: int, b: int): int { if a >= b then a else b }

  /** The lead-in is the longest whole number of ticks that fits in five seconds. */
  lemma LeadInFits(interval: real, ticks: real)
    requires interval > 0.0 && ticks == FloorTicks(interval) as real
    ensures ticks >= 0.0 && ticks * interval <= 5.0 < ticks * interval + interval
  {
    var q := 5.0 / interval;
    Quotient(q, interval);
    assert q.Floor as real <= q < q.Floor as real + 1.0;
    Multiple(q, ticks, interval);
  }

  lemma Quotient(q: real, c: real)
    requires c > 0.0 && q == 5.0 / c
    ensures q * c == 5.0 && q > 0.0
  {
  }

  lemma Multiple(q: real, k: real, c: real)
    requires c > 0.0 && q * c == 5.0 && k <= q < k + 1.0
    ensures k * c <= 5.0 < k * c + c
  {
    assert (q - k) * c >= 0.0;
    Remainder(q - k, c);
    Linear(q * c, k * c, (q - k) * c, c);
  }

  lemma Remainder(r: real, c: real)
    requires c > 0.0 && r < 1.0
    ensures r * c < c
  {
    assert (1.0 - r) * c > 0.0;
  }

  lemma Linear(p: real, m: real, r: real, c: real)
    requires p == 5.0 && r == p - m && r < c
    ensures 5.0 < m + c
  {
  }

  // ----- identifiers -----

  function ReplayIdentityID(s: Source): string {
    if s.sha256 != "" then s.sha256
    else if s.matchID != 0 then "match-" + Decimal.Print(s.matchID)
    else "unknown-replay"
  }

  /** The part of a revision ID that stands for the replay. */
  function SourceKey(s: Source): string {
    if s.sha256 != "" then (if |s.sha256| > 16 then s.sha256[..16] else s.sha256)
    else if s.matchID != 0 then "match-" + Decimal.Print(s.matchID)
    else "unknown-replay"
  }

  method RevisionID(facts: Facts) returns (id: string)
    ensures id == RevisionName(facts)
  {
    var sha := facts.source.sha256;
    if |sha| > 16 { sha := sha[..16]; }
    if sha == "" && facts.source.matchID != 0 { sha := "match-" + Decimal.Print(facts.source.matchID); }
    if sha == "" { sha := "unknown-replay"; }
    return "rev-" + sha + "-" + Decimal.Print(facts.tick);
  }

  function RevisionName(facts: Facts): string {
    "rev-" + SourceKey(facts.source) + "-" + Decimal.Print(facts.tick)
  }

  /** The replay's part of the ID: the first sixteen characters of its hash, all of a shorter one; the
      match number without a hash; and a fixed word without either. The replay is identified by the
      whole hash. */
  lemma SourceKeyExact(s: Source)
    ensures |s.sha256| > 16 ==> |SourceKey(s)| == 16 && SourceKey(s) <= s.sha256
    ensures 0 < |s.sha256| <= 16 ==> SourceKey(s) == s.sha256
    ensures s.sha256 != "" ==> ReplayIdentityID(s) == s.sha256
    ensures s.sha256 == "" && s.matchID > 0 ==>
              SourceKey(s) == ReplayIdentityID(s) == "match-" + Decimal.Print(s.matchID)
    ensures s.sha256 == "" && s.matchID == 0 ==> SourceKey(s) == ReplayIdentityID(s) == "unknown-replay"
  {
  }

  /** For one, the ID of tick 7 of a replay with an eighteen-character hash. */
  lemma RevisionNamed(facts: Facts)
    requires facts.tick == 7 && facts.source.sha256 == "0123456789abcdefff"
    ensures RevisionName(facts) == "rev-0123456789abcdef-7"
  {
    assert Decimal.Print(7) == "7";
    assert facts.source.sha256[..16] == "0123456789abcdef";
  }

  /** Two facts records share a revision ID exactly when tick and replay key agree: the same bytes
      and tick always do, and so do distinct hashes with the same first sixteen characters. */
  lemma RevisionNameExact(a: Facts, b: Facts)
    ensures RevisionName(a) == RevisionName(b) <==> a.tick == b.tick && SourceKey(a.source) == SourceKey(b.source)
  {
    if RevisionName(a) == RevisionName(b) {
      var s, t := SourceKey(a.source), SourceKey(b.source);
      var m, n := Decimal.Print(a.tick), Decimal.Print(b.tick);
      assert s + ("-" + m) == RevisionName(a)[4..] && t + ("-" + n) == RevisionName(b)[4..];
      assert s + "-" + m == s + ("-" + m) && t + "-" + n == t + ("-" + n);
      LastDash(s, m, t, n);
      Decimal.PrintInjective(a.tick, b.tick);
    }
  }

  /** The last dash of a text splits it in one way. */
  lemma LastDash(s: string, m: string, t: string, n: string)
    requires Decimal.AllDigits(m) && Decimal.AllDigits(n) && s + "-" + m == t + "-" + n
    ensures s == t && m == n
  {
    var w := s + "-" + m;
    assert |w| == |s| + 1 + |m| == |t| + 1 + |n|;
    assert w[|s|] == '-' && w[|t|] == '-';
    assert forall i :: |s| < i < |w| ==> w[i] == m[i - |s| - 1];
    assert forall i :: |t| < i < |w| ==> w[i] == n[i - |t| - 1];
    assert |s| == |t|;
    assert w[..|s|] == s && w[..|t|] == t && w[|s| + 1..] == m && w[|t| + 1..] == n;
  }

  // ----- the whole compilation -----

  /** Compile refuses with the first reason that applies, or builds one revision: Complete exactly
      when the facts are not ineligible and every field of every hero passes. */
  method Compile(req: CompileRequest, outOfRange: nat) returns (r: Result<Revision, Refusal>)
    ensures r == Err(ZeroTick) <==> req.facts.tick == 0
    ensures r == Err(UnsupportedSchema) <==> req.facts.tick != 0 && req.facts.schemaVersion != req.schema
    ensures r == Err(EmptyRevisionID) <==>
            req.facts.tick != 0 && req.facts.schemaVersion == req.schema && req.revisionID == ""
    ensures r == Err(InvalidInterval) <==>
            req.facts.tick != 0 && req.facts.schemaVersion == req.schema && req.revisionID != "" && req.interval <= 0.0
    ensures r.Ok? ==>
              && r.value.id == req.revisionID && r.value.takeoverTick == req.facts.tick
              && r.value.replayID == ReplayIdentityID(req.facts.source) && r.value.omissions == Omissions(req)
              && (r.value.fidelity == Complete <==> !req.facts.ineligible && AllPass(req))
              && (r.value.fidelity == Complete <==> r.value.omissions == [])
              && (req.maxFreshness == 0 ==>
                    (r.value.fidelity == Complete <==> !req.facts.ineligible && req.facts.heroes == []))
              && r.value.leadInStartTick <= r.value.takeoverTick
              && (5.0 / req.interval < UINT32_LIMIT as real ==>
                    r.value.leadInStartTick as int == Max(0, req.facts.tick as int - FloorTicks(req.interval)))
  {
    if req.facts.tick == 0 { return Err(ZeroTick); }
    if req.facts.schemaVersion != req.schema { return Err(UnsupportedSchema); }
    if req.revisionID == "" { return Err(EmptyRevisionID); }
    if req.interval <= 0.0 { return Err(InvalidInterval); }
    var omissions := CollectOmissions(req);
    var start := LeadInStartTick(req.facts.tick, req.interval, outOfRange);
    var fidelity := GrantedFidelity(omissions);
    NothingOmitted(req);
    if req.maxFreshness == 0 { ZeroBudgetExact(req); }
    assert omissions != [] ==> omissions[0].required;
    return Ok(Revision(req.revisionID, ReplayIdentityID(req.facts.source), start, req.facts.tick, fidelity, omissions));
  }

  /** "No declared budget never yields Complete" is false of the code, and this is exactly when: with
      a zero budget nothing is omitted just for eligible facts without heroes. */
  lemma ZeroBudgetExact(req: CompileRequest)
    requires req.maxFreshness == 0
    ensures Omissions(req) == [] <==> !req.facts.ineligible && req.facts.heroes == []
  {
    NothingOmitted(req);
    assert req.facts.heroes != [] ==> !Passes(req, req.facts.heroes[0], 0);
  }

  /** Zero heroes compile to Complete whatever the freshness budget, zero included. */
  lemma ZeroHeroesComplete(req: CompileRequest)
    requires req.facts.heroes == [] && !req.facts.ineligible
    ensures Omissions(req) == []
  {
    NothingOmitted(req);
  }
}
