/** One-use join intents and the admissions their consumption records; the attribution of an
    attempt to the one account admitted on its process generation. */
module Admissions {
  import opened Prelude

  /** What an intent binds, and whether it was consumed. */
  datatype Intent = Intent(account: string, steam: nat, revision: string, generation: nat, used: bool)

  datatype ConsumeError = AlreadyUsed | RevisionMismatch | GenerationMismatch | SteamMismatch

  /** JoinIntent.Consume: a refused consume never marks the intent used. */
  function Presented(i: Intent, revision: string, generation: nat, steam: nat): (Intent, Option<ConsumeError>) {
    if i.used then (i, Some(AlreadyUsed))
    else if i.revision != revision then (i, Some(RevisionMismatch))
    else if i.generation != generation then (i, Some(GenerationMismatch))
    else if i.steam != steam then (i, Some(SteamMismatch))
    else (i.(used := true), None)
  }

  /** The intent is consumed exactly when it is unused and revision, generation and Steam identity
      match; the refusal names the first of these that fails, and leaves the intent as it was. */
  lemma PresentedExact(i: Intent, revision: string, generation: nat, steam: nat)
    ensures var (j, e) := Presented(i, revision, generation, steam);
            && (e.None? <==> !i.used && (i.revision, i.generation, i.steam) == (revision, generation, steam))
            && j == (if e.None? then i.(used := true) else i)
            && (e == Some(AlreadyUsed) <==> i.used)
            && (e == Some(RevisionMismatch) <==> !i.used && i.revision != revision)
            && (e == Some(GenerationMismatch) <==> !i.used && i.revision == revision && i.generation != generation)
            && (e == Some(SteamMismatch) <==>
                  !i.used && (i.revision, i.generation) == (revision, generation) && i.steam != steam)
  {
  }

  /** Present an intent several times; count the presentations that consumed it. */
  function Consumptions(i: Intent, attempts: seq<(string, nat, nat)>): (Intent, nat) {
    if attempts == [] then (i, 0)
    else
      var (j, n) := Consumptions(i, attempts[..|attempts| - 1]);
      var a := attempts[|attempts| - 1];
      var (k, e) := Presented(j, a.0, a.1, a.2);
      (k, if e.None? then n + 1 else n)
  }

  /** However often and with whatever facts a fresh intent is presented, it is consumed at most
      once, and exactly when some presentation carries all its facts; nothing else about it moves. */
  lemma {:induction false} ConsumedOnce(i: Intent, attempts: seq<(string, nat, nat)>)
    requires !i.used
    ensures var (j, n) := Consumptions(i, attempts);
            && j == i.(used := j.used) && n == (if j.used then 1 else 0)
            && (j.used <==> (i.revision, i.generation, i.steam) in attempts)
  {
    if attempts != [] {
      var front := attempts[..|attempts| - 1];
      ConsumedOnce(i, front);
      assert attempts == front + [attempts[|attempts| - 1]];
    }
  }

  class JoinIntent {
    const account: string
    const steam: nat
    const revision: string
    const generation: nat
    var used: bool

    ghost function View(): Intent
      reads this
    {
      Intent(account, steam, revision, generation, used)
    }

    constructor (account: string, steam: nat, revision: string, generation: nat)
      ensures View() == Intent(account, steam, revision, generation, false)
    {
      this.account, this.steam, this.revision, this.generation := account, steam, revision, generation;
      used := false;
    }

    method Consume(revisionID: string, generation: nat, steamID: nat) returns (e: Option<ConsumeError>)
      modifies this
      ensures (View(), e) == Presented(old(View()), revisionID, generation, steamID)
    {
      if used { return Some(AlreadyUsed); }
      if revision != revisionID { return Some(RevisionMismatch); }
      if this.generation != generation { return Some(GenerationMismatch); }
      if steam != steamID { return Some(SteamMismatch); }
      used := true;
      return None;
    }
  }

  // ----- admissions and attribution -----

  datatype AdmissionKey = AdmissionKey(account: string, generation: nat)

  /** admissions: the revision each account was admitted against, per process generation. */
  type AdmissionTable = map<AdmissionKey, string>

  datatype AttributionError = Unadmitted | NotThisRevision | Ambiguous

  ghost function Matching(t: AdmissionTable, generation: nat, revision: string): set<AdmissionKey> {
    set k | k in t && k.generation == generation && t[k] == revision
  }

  ghost predicate AdmittedAny(t: AdmissionTable, generation: nat) {
    exists k :: k in t && k.generation == generation
  }

  /** The account of an attempt, from admissions alone: exactly one match, or a typed refusal. */
  ghost function Attribute(t: AdmissionTable, generation: nat, revision: string): Result<string, AttributionError> {
    var m := Matching(t, generation, revision);
    if |m| == 1 then (var k :| k in m; Ok(k.account))
    else if m != {} then Err(Ambiguous)
    else if AdmittedAny(t, generation) then Err(NotThisRevision)
    else Err(Unadmitted)
  }

  /** Attribution names an account exactly when it is the only one admitted on this generation
      against this revision; it is ambiguous exactly when two are. */
  lemma AttributeExact(t: AdmissionTable, generation: nat, revision: string, account: string)
    ensures Attribute(t, generation, revision) == Ok(account)
            <==> Matching(t, generation, revision) == {AdmissionKey(account, generation)}
    ensures Attribute(t, generation, revision) == Err(Ambiguous)
            <==> exists a, b ::
                   a != b && a in Matching(t, generation, revision) && b in Matching(t, generation, revision)
    ensures Attribute(t, generation, revision) == Err(Unadmitted)
            <==> forall k :: k in t ==> k.generation != generation
    ensures Attribute(t, generation, revision) == Err(NotThisRevision)
            <==> (exists k :: k in t && k.generation == generation)
                 && forall k :: k in t && k.generation == generation ==> t[k] != revision
  {
    var m := Matching(t, generation, revision);
    assert AdmittedAny(t, generation) <==> !(forall k :: k in t ==> k.generation != generation);
    if m != {} {
      var k :| k in m;
      assert k in t && k.generation == generation && t[k] == revision;
    } else {
      assert forall k :: k in t && k.generation == generation && t[k] == revision ==> k in m;
    }
    if |m| == 1 {
      var k :| k in m;
      forall a | a in m ensures a == k { SingletonMember(m, a, k); }
      assert m == {k};
    } else if m != {} {
      var a :| a in m;
      assert |m - {a}| == |m| - 1 > 0;
      var b :| b in m - {a};
      assert a != b && a in m && b in m;
    }
  }

  /** The number of matches, one of them, and whether anybody was admitted decide attribution. */
  lemma CountDecides(t: AdmissionTable, generation: nat, revision: string, account: string, matches: nat)
    requires matches == |Matching(t, generation, revision)|
    requires matches > 0 ==> AdmissionKey(account, generation) in Matching(t, generation, revision)
    ensures Attribute(t, generation, revision)
            == if matches == 1 then Ok(account)
               else if matches > 1 then Err(Ambiguous)
               else if AdmittedAny(t, generation) then Err(NotThisRevision) else Err(Unadmitted)
  {
    var m := Matching(t, generation, revision);
    if matches == 1 {
      forall k | k in m ensures k == AdmissionKey(account, generation) {
        SingletonMember(m, k, AdmissionKey(account, generation));
      }
    }
  }

  lemma TakeOne<T>(m: set<T>, rest: set<T>, x: T)
    requires x in rest
    ensures |m - (rest - {x})| == |m - rest| + (if x in m then 1 else 0)
  {
    assert m - (rest - {x}) == if x in m then (m - rest) + {x} else m - rest;
  }

  /** AdmittedAccountFor: one pass over the table in any order. */
  method AdmittedAccountFor(t: AdmissionTable, generation: nat, revision: string)
    returns (r: Result<string, AttributionError>)
    ensures r == Attribute(t, generation, revision)
  {
    var accountID, matches, admittedAny := "", 0, false;
    var rest := t.Keys;
    ghost var m := Matching(t, generation, revision);
    while rest != {}
      invariant rest <= t.Keys && matches == |m - rest|
      invariant admittedAny <==> exists k :: k in t && k !in rest && k.generation == generation
      invariant matches > 0 ==> AdmissionKey(accountID, generation) in m
      decreases |rest|
    {
      var key :| key in rest;
      TakeOne(m, rest, key);
      rest := rest - {key};
      if key.generation != generation { continue; }
      admittedAny := true;
      if t[key] != revision { continue; }
      accountID := key.account;
      matches := matches + 1;
    }
    assert m - rest == m;
    CountDecides(t, generation, revision, accountID, matches);
    if matches == 1 { return Ok(accountID); }
    if matches == 0 && admittedAny { return Err(NotThisRevision); }
    if matches == 0 { return Err(Unadmitted); }
    return Err(Ambiguous);
  }
}
