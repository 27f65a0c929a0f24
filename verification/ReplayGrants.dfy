/** Replay authorization grants and the verifying store. Tokens are opaque: minting takes a fresh
    one, and verification is a table lookup that never recomputes the MAC. */
module ReplayGrants {
  import opened Prelude

  datatype GrantError =
    | GrantUnknown | GrantMismatch | GrantRevoked | GrantAlreadyUsed | GrantExpired
    | GrantInvalidBinding | GrantAlreadyMinted | GrantNonce

  datatype GrantRecord = GrantRecord(
    preparationID: string, ownerAccountID: string, replayID: string, expires: int, used: bool, revoked: bool)

  datatype ReplayGrant = ReplayGrant(
    preparationID: string, ownerAccountID: string, replayID: string, expires: int, token: string)

  datatype ReplayRequest = ReplayRequest(preparationID: string, replayID: string, grant: string)

  /** The state under the authority lock. */
  datatype Authority = Authority(grants: map<string, GrantRecord>, byPreparation: map<string, string>) {

    /** Mint. The nonce decides the token; none means the random source failed. */
    function Mint(prep: string, owner: string, replay: string, token: Option<string>, now: int, ttl: int)
      : (Authority, Result<ReplayGrant, GrantError>)
    {
      if prep == "" || owner == "" || replay == "" then (this, Err(GrantInvalidBinding))
      else if prep in byPreparation then (this, Err(GrantAlreadyMinted))
      else if token.None? then (this, Err(GrantNonce))
      else (Authority(grants[token.value := GrantRecord(prep, owner, replay, now + ttl, false, false)],
                      byPreparation[prep := token.value]),
            Ok(ReplayGrant(prep, owner, replay, now + ttl, token.value)))
    }

    function Verify(req: ReplayRequest, now: int): (Authority, Result<(), GrantError>) {
      if req.grant == "" then (this, Err(GrantUnknown))
      else if req.grant !in grants then (this, Err(GrantUnknown))
      else
        var rec := grants[req.grant];
        if req.preparationID != rec.preparationID || req.replayID != rec.replayID then (this, Err(GrantMismatch))
        else if rec.revoked then (this, Err(GrantRevoked))
        else if rec.used then (this, Err(GrantAlreadyUsed))
        else if now >= rec.expires then (this, Err(GrantExpired))
        else (this.(grants := grants[req.grant := rec.(used := true)]), Ok(()))
    }

    function Revoke(prep: string): Authority {
      if prep !in byPreparation || byPreparation[prep] !in grants then this
      else
        var token := byPreparation[prep];
        if grants[token].used then this
        else this.(grants := grants[token := grants[token].(revoked := true)])
    }

    /** The record of the grant minted for a preparation. */
    function Of(prep: string): Option<GrantRecord> {
      if prep in byPreparation && byPreparation[prep] in grants then Some(grants[byPreparation[prep]]) else None
    }

    /** The two maps are inverse to each other, and no grant is both used and revoked. */
    ghost predicate Inv() {
      && (forall p :: p in byPreparation ==>
            byPreparation[p] in grants && grants[byPreparation[p]].preparationID == p)
      && (forall t :: t in grants ==>
            grants[t].preparationID in byPreparation && byPreparation[grants[t].preparationID] == t)
      && (forall t :: t in grants ==> !(grants[t].used && grants[t].revoked))
    }

    /** The request carries the preparation's own token, for its replay, and the grant is unused,
        unrevoked and unexpired. */
    predicate Usable(req: ReplayRequest, now: int) {
      && Of(req.preparationID).Some? && byPreparation[req.preparationID] == req.grant
      && var rec := Of(req.preparationID).value;
         rec.replayID == req.replayID && !rec.revoked && !rec.used && now < rec.expires
    }

    /** The grant of this preparation can never verify again. */
    ghost predicate Spent(prep: string) {
      Of(prep).Some? && (Of(prep).value.used || Of(prep).value.revoked)
    }
  }

  const EMPTY := Authority(map[], map[])

  lemma MintInv(a: Authority, prep: string, owner: string, replay: string, token: Option<string>, now: int, ttl: int)
    requires a.Inv() && (token.Some? ==> token.value !in a.grants)
    ensures var (b, r) := a.Mint(prep, owner, replay, token, now, ttl);
            b.Inv()
            && (forall q :: q != prep ==> b.Of(q) == a.Of(q))
            && (r.Ok? ==> b.Of(prep) == Some(GrantRecord(prep, owner, replay, now + ttl, false, false))
                          && prep !in a.byPreparation && r.value.token == token.value
                          && b.byPreparation[prep] == token.value)
            && (r.Err? ==> b == a)
            && (forall q :: q in a.byPreparation ==> q in b.byPreparation && b.byPreparation[q] == a.byPreparation[q])
  {
  }

  /** A mint succeeds exactly for a complete binding of a preparation without a grant, if the random
      source gives a nonce; the grant returned says what was filed. */
  lemma MintExact(a: Authority, prep: string, owner: string, replay: string, token: Option<string>, now: int, ttl: int)
    ensures var r := a.Mint(prep, owner, replay, token, now, ttl).1;
            var bound := prep != "" && owner != "" && replay != "";
            && (r.Ok? <==> bound && prep !in a.byPreparation && token.Some?)
            && (r.Ok? ==> r.value == ReplayGrant(prep, owner, replay, now + ttl, token.value))
            && (r == Err(GrantInvalidBinding) <==> !bound)
            && (r == Err(GrantAlreadyMinted) <==> bound && prep in a.byPreparation)
            && (r == Err(GrantNonce) <==> bound && prep !in a.byPreparation && token.None?)
  {
  }

  /** Which cause a refused request gets: an unknown token; a grant for something else; a revoked
      grant; a used one; or one that expired unused. */
  lemma VerifyCause(a: Authority, req: ReplayRequest, now: int)
    requires a.Inv()
    ensures var e, known := a.Verify(req, now).1, req.grant != "" && req.grant in a.grants;
            && (e == Err(GrantUnknown) <==> !known)
            && (e == Err(GrantMismatch) <==>
                  known && (a.grants[req.grant].preparationID != req.preparationID
                            || a.grants[req.grant].replayID != req.replayID))
            && (e.Err? && e.error == GrantRevoked ==> a.grants[req.grant].revoked && !a.grants[req.grant].used)
            && (e.Err? && e.error == GrantAlreadyUsed ==> a.grants[req.grant].used)
            && (e.Err? && e.error == GrantExpired ==>
                  !a.grants[req.grant].used && !a.grants[req.grant].revoked && now >= a.grants[req.grant].expires)
            && (e.Ok? || e.error in {GrantUnknown, GrantMismatch, GrantRevoked, GrantAlreadyUsed, GrantExpired})
  {
  }

  /** A verify consumes exactly the grant it accepts; a refused verify consumes nothing. */
  lemma VerifyInv(a: Authority, req: ReplayRequest, now: int)
    requires a.Inv()
    ensures var (b, r) := a.Verify(req, now);
            b.Inv() && b.byPreparation == a.byPreparation
            && (forall q :: q != req.preparationID ==> b.Of(q) == a.Of(q))
            && (r.Err? ==> b == a)
            && (r.Ok? ==> b.Of(req.preparationID) == Some(a.Of(req.preparationID).value.(used := true)))
    ensures a.Verify(req, now).1.Ok? <==> req.grant != "" && a.Usable(req, now)
  {
  }

  /** A revocation leaves the preparation's grant spent, whatever it was before. */
  lemma RevokeInv(a: Authority, prep: string)
    requires a.Inv()
    ensures var b := a.Revoke(prep);
            b.Inv() && b.byPreparation == a.byPreparation
            && (forall q :: q != prep ==> b.Of(q) == a.Of(q))
            && (prep in a.byPreparation ==>
                  b.Spent(prep)
                  && b.Of(prep).value.used == a.Of(prep).value.used
                  && b.Of(prep).value.replayID == a.Of(prep).value.replayID)
  {
  }

  /** A spent grant authorizes nothing: no request naming its token or its preparation verifies. */
  lemma SpentRefused(a: Authority, prep: string, req: ReplayRequest, now: int)
    requires a.Inv() && a.Spent(prep)
    requires req.preparationID == prep || req.grant == a.byPreparation[prep]
    ensures a.Verify(req, now).1.Err?
  {
  }

  // ----- runs of mints, revocations, verifications and fetches through the verifying store -----

  /** pending: Replay calls that passed verification and have not reached the inner store yet.
      fetched: the requests that reached it, in order. */
  datatype Sys = Sys(auth: Authority, pending: map<nat, ReplayRequest>, fetched: seq<ReplayRequest>)

  datatype Step =
    | Mint(prep: string, owner: string, replay: string, token: Option<string>, now: int, ttl: int)
    | Revoke(prep: string)
    | Verify(call: nat, req: ReplayRequest, now: int)
    | Fetch(call: nat)

  function Next(s: Sys, step: Step): Option<Sys> {
    match step
    case Mint(prep, owner, replay, token, now, ttl) =>
      if token.Some? && token.value in s.auth.grants then None   // tokens are fresh
      else Some(s.(auth := s.auth.Mint(prep, owner, replay, token, now, ttl).0))
    case Revoke(prep) => Some(s.(auth := s.auth.Revoke(prep)))
    case Verify(call, req, now) =>
      if call in s.pending then None
      else
        var (auth, r) := s.auth.Verify(req, now);
        Some(if r.Ok? then s.(auth := auth, pending := s.pending[call := req]) else s)
    case Fetch(call) =>
      if call !in s.pending then None
      else Some(s.(pending := s.pending - {call}, fetched := s.fetched + [s.pending[call]]))
  }

  ghost predicate Authorized(a: Authority, req: ReplayRequest) {
    var rec := a.Of(req.preparationID);
    rec.Some? && rec.value.used && rec.value.replayID == req.replayID
    && a.byPreparation[req.preparationID] == req.grant
  }

  ghost predicate Inv(s: Sys) {
    && s.auth.Inv()
    && (forall c :: c in s.pending ==> Authorized(s.auth, s.pending[c]))
    && (forall i :: 0 <= i < |s.fetched| ==> Authorized(s.auth, s.fetched[i]))
    && (forall c, d :: c in s.pending && d in s.pending && c != d
          ==> s.pending[c].preparationID != s.pending[d].preparationID)
    && (forall c, i :: c in s.pending && 0 <= i < |s.fetched|
          ==> s.pending[c].preparationID != s.fetched[i].preparationID)
    && (forall i, j :: 0 <= i < j < |s.fetched| ==> s.fetched[i].preparationID != s.fetched[j].preparationID)
  }

  predicate Init(s: Sys) {
    s.auth == EMPTY && s.pending == map[] && s.fetched == []
  }

  /** What no step undoes: a grant keeps its token and replay, and stays used or spent. */
  ghost predicate Later(a: Authority, b: Authority) {
    forall p :: p in a.byPreparation ==>
      p in b.byPreparation && b.byPreparation[p] == a.byPreparation[p]
      && (a.Of(p).Some? ==> b.Of(p).Some? && b.Of(p).value.replayID == a.Of(p).value.replayID
                            && (a.Of(p).value.used ==> b.Of(p).value.used))
      && (a.Spent(p) ==> b.Spent(p))
  }

  /** Agreement on every other preparation and no loss on this one is enough. */
  lemma LaterAt(a: Authority, b: Authority, prep: string)
    requires a.Inv() && b.Inv()
    requires forall q :: q in a.byPreparation ==> q in b.byPreparation && b.byPreparation[q] == a.byPreparation[q]
    requires forall q :: q != prep ==> b.Of(q) == a.Of(q)
    requires a.Of(prep).Some? ==> b.Of(prep).Some? && b.Of(prep).value.replayID == a.Of(prep).value.replayID
                                  && (a.Of(prep).value.used ==> b.Of(prep).value.used)
    requires a.Spent(prep) ==> b.Spent(prep)
    ensures Later(a, b)
  {
  }

  lemma AuthStep(s: Sys, step: Step)
    requires s.auth.Inv() && Next(s, step).Some?
    ensures Next(s, step).value.auth.Inv() && Later(s.auth, Next(s, step).value.auth)
  {
    var b := Next(s, step).value.auth;
    match step
    case Mint(prep, owner, replay, token, now, ttl) =>
      MintInv(s.auth, prep, owner, replay, token, now, ttl);
      LaterAt(s.auth, b, prep);
    case Revoke(prep) =>
      RevokeInv(s.auth, prep);
      LaterAt(s.auth, b, prep);
    case Verify(call, req, now) =>
      VerifyInv(s.auth, req, now);
      LaterAt(s.auth, b, req.preparationID);
    case Fetch(call) =>
  }

  lemma AuthorizedLater(a: Authority, b: Authority, req: ReplayRequest)
    requires Authorized(a, req) && Later(a, b)
    ensures Authorized(b, req)
  {
  }

  /** Nobody fetched, or is about to fetch, under a grant not yet used. */
  lemma UnusedUnfetched(s: Sys, prep: string)
    requires Inv(s) && s.auth.Of(prep).Some? && !s.auth.Of(prep).value.used
    ensures forall c :: c in s.pending ==> s.pending[c].preparationID != prep
    ensures forall i :: 0 <= i < |s.fetched| ==> s.fetched[i].preparationID != prep
  {
    forall c | c in s.pending ensures s.pending[c].preparationID != prep {
      assert Authorized(s.auth, s.pending[c]);
    }
    forall i | 0 <= i < |s.fetched| ensures s.fetched[i].preparationID != prep {
      assert Authorized(s.auth, s.fetched[i]);
    }
  }

  lemma VerifiedInv(s: Sys, t: Sys, call: nat, req: ReplayRequest)
    requires Inv(s) && t.auth.Inv() && Later(s.auth, t.auth) && Authorized(t.auth, req) && call !in s.pending
    requires t == s.(auth := t.auth, pending := s.pending[call := req])
    requires forall c :: c in s.pending ==> s.pending[c].preparationID != req.preparationID
    requires forall i :: 0 <= i < |s.fetched| ==> s.fetched[i].preparationID != req.preparationID
    ensures Inv(t)
  {
    forall c | c in t.pending ensures Authorized(t.auth, t.pending[c]) {
      if c != call { AuthorizedLater(s.auth, t.auth, s.pending[c]); }
    }
    forall i | 0 <= i < |t.fetched| ensures Authorized(t.auth, t.fetched[i]) {
      AuthorizedLater(s.auth, t.auth, s.fetched[i]);
    }
  }

  lemma VerifyStep(s: Sys, call: nat, req: ReplayRequest, now: int)
    requires Inv(s) && Next(s, Verify(call, req, now)).Some?
    ensures Inv(Next(s, Verify(call, req, now)).value)
  {
    AuthStep(s, Verify(call, req, now));
    VerifyInv(s.auth, req, now);
    if s.auth.Verify(req, now).1.Ok? {
      UnusedUnfetched(s, req.preparationID);
      VerifiedInv(s, Next(s, Verify(call, req, now)).value, call, req);
    }
  }

  lemma StepInv(s: Sys, step: Step)
    requires Inv(s) && Next(s, step).Some?
    ensures Inv(Next(s, step).value)
  {
    if step.Verify? {
      VerifyStep(s, step.call, step.req, step.now);
    } else if !step.Fetch? {
      AuthStep(s, step);
      var t := Next(s, step).value;
      forall c | c in t.pending ensures Authorized(t.auth, t.pending[c]) {
        AuthorizedLater(s.auth, t.auth, s.pending[c]);
      }
      forall i | 0 <= i < |t.fetched| ensures Authorized(t.auth, t.fetched[i]) {
        AuthorizedLater(s.auth, t.auth, s.fetched[i]);
      }
    }
  }

  lemma InitInv(s: Sys)
    requires Init(s)
    ensures Inv(s)
  {
  }

  ghost predicate IsRun(states: seq<Sys>, steps: seq<Step>) {
    |states| == |steps| + 1 && Init(states[0])
    && forall i :: 0 <= i < |steps| ==> Next(states[i], steps[i]) == Some(states[i + 1])
  }

  lemma RunInv(states: seq<Sys>, steps: seq<Step>)
    requires IsRun(states, steps)
    ensures forall i :: 0 <= i < |states| ==> Inv(states[i])
  {
    InitInv(states[0]);
    for i := 0 to |steps|
      invariant forall j :: 0 <= j <= i ==> Inv(states[j])
    {
      assert Next(states[i], steps[i]) == Some(states[i + 1]);
      StepInv(states[i], steps[i]);
    }
  }

  /** Over any run a token is filed for a preparation exactly when its grant is bound to it, so the
      two maps are inverse, and no grant is both used and revoked. */
  lemma GrantsConsistent(states: seq<Sys>, steps: seq<Step>, k: nat, prep: string, token: string)
    requires IsRun(states, steps) && k < |states|
    ensures var a := states[k].auth;
            && ((prep in a.byPreparation && a.byPreparation[prep] == token)
                <==> (token in a.grants && a.grants[token].preparationID == prep))
            && (token in a.grants ==> !(a.grants[token].used && a.grants[token].revoked))
  {
    RunInv(states, steps);
    assert Inv(states[k]);
  }

  /** Over any run the inner store is reached at most once per preparation and at most once per
      grant, always for the replay the grant was minted for, and never with an unused grant. */
  lemma FetchedOnce(states: seq<Sys>, steps: seq<Step>, k: nat)
    requires IsRun(states, steps) && k < |states|
    ensures var f := states[k].fetched;
            && (forall i, j :: 0 <= i < j < |f| ==>
                  f[i].preparationID != f[j].preparationID && f[i].grant != f[j].grant)
            && (forall i :: 0 <= i < |f| ==> Authorized(states[k].auth, f[i]))
  {
    RunInv(states, steps);
    var s := states[k];
    assert Inv(s);
    forall i, j | 0 <= i < j < |s.fetched|
      ensures s.fetched[i].preparationID != s.fetched[j].preparationID && s.fetched[i].grant != s.fetched[j].grant
    {
      assert Authorized(s.auth, s.fetched[i]) && Authorized(s.auth, s.fetched[j]);
    }
  }

  // ----- the authority object and the verifying store -----

  class HMACGrantAuthority {
    const ttl: int
    var grants: map<string, GrantRecord>
    var byPreparation: map<string, string>

    ghost function View(): Authority
      reads this
    {
      Authority(grants, byPreparation)
    }

    constructor (ttl: int)
      ensures View() == EMPTY && this.ttl == ttl
    {
      this.ttl := ttl;
      grants, byPreparation := map[], map[];
    }

    method Mint(prep: string, owner: string, replay: string, token: Option<string>, now: int)
      returns (r: Result<ReplayGrant, GrantError>)
      modifies this
      ensures (View(), r) == old(View()).Mint(prep, owner, replay, token, now, ttl)
    {
      if prep == "" || owner == "" || replay == "" { return Err(GrantInvalidBinding); }
      if prep in byPreparation { return Err(GrantAlreadyMinted); }
      if token.None? { return Err(GrantNonce); }
      var expires := now + ttl;
      grants := grants[token.value := GrantRecord(prep, owner, replay, expires, false, false)];
      byPreparation := byPreparation[prep := token.value];
      return Ok(ReplayGrant(prep, owner, replay, expires, token.value));
    }

    method Verify(req: ReplayRequest, now: int) returns (r: Result<(), GrantError>)
      modifies this
      ensures (View(), r) == old(View()).Verify(req, now)
    {
      if req.grant == "" { return Err(GrantUnknown); }
      if req.grant !in grants { return Err(GrantUnknown); }
      var rec := grants[req.grant];
      if req.preparationID != rec.preparationID || req.replayID != rec.replayID { return Err(GrantMismatch); }
      if rec.revoked { return Err(GrantRevoked); }
      if rec.used { return Err(GrantAlreadyUsed); }
      if !(now < rec.expires) { return Err(GrantExpired); }
      grants := grants[req.grant := rec.(used := true)];
      return Ok(());
    }

    method Revoke(prep: string)
      requires View().Inv()
      modifies this
      ensures View() == old(View()).Revoke(prep)
    {
      if prep !in byPreparation { return; }
      var token := byPreparation[prep];
      var rec := grants[token];
      if rec.used { return; }
      grants := grants[token := rec.(revoked := true)];
    }
  }

  /** The inner replay store: it records which requests reached it, and its last answer. */
  class ReplayStore {
    ghost var reached: seq<ReplayRequest>
    var last: Option<string>

    constructor ()
      ensures reached == [] && last.None?
    {
      reached, last := [], None;
    }

    method Replay(req: ReplayRequest) returns (bytes: Option<string>)
      modifies this
      ensures reached == old(reached) + [req] && last == bytes
    {
      reached := reached + [req];
      bytes := *;
      last := bytes;
    }
  }

  class VerifyingStore {
    const grants: HMACGrantAuthority
    const inner: ReplayStore

    constructor (grants: HMACGrantAuthority, inner: ReplayStore)
      ensures this.grants == grants && this.inner == inner
    {
      this.grants, this.inner := grants, inner;
    }

    /** Verify first; only an accepted request reaches the inner store, and it spends its grant. */
    method Replay(req: ReplayRequest, now: int) returns (r: Result<Option<string>, GrantError>)
      modifies grants, inner
      ensures var (auth, v) := old(grants.View()).Verify(req, now);
              grants.View() == auth
              && inner.reached == (if v.Ok? then old(inner.reached) + [req] else old(inner.reached))
              && r == (if v.Ok? then Ok(inner.last) else Err(v.error))
    {
      var v := grants.Verify(req, now);
      if v.Err? { return Err(v.error); }
      var bytes := inner.Replay(req);
      return Ok(bytes);
    }
  }
}
