/** Who gets into a preparation's lobby: claims, releases and one-use invitations, interleaved. The
    authorization and the lobby change are separate locked sections. */
module LobbyAccess {
  import opened Prelude
  import L = Lobbies

  const LOBBY_CAPACITY: nat := 12

  datatype Invitation = Invitation(prep: nat, account: string, expires: int, used: bool)

  /** A call of Claim, Release, Invite or ClaimAuthorized between its locked sections. */
  datatype Call =
    | Claiming(prep: nat, account: string)      // authorized to claim
    | Releasing(prep: nat, account: string)     // authorized to release
    | Inviting(prep: nat, account: string)      // the inviter is the owner
    | Redeeming(prep: nat, account: string)     // not the owner: needs an invitation
    | Done

  /** redemptions is history: the tokens consumed, in order. */
  datatype State = State(
    owners: map<nat, string>, lobbies: map<nat, L.Lobby>, invites: map<string, Invitation>,
    calls: map<nat, Call>, redemptions: seq<string>) {

    /** A missing owner reads as the empty account, as the zero value of the owner map does. */
    predicate IsOwner(prep: nat, account: string) {
      (if prep in owners then owners[prep] else "") == account
    }

    predicate HoldsSlot(prep: nat, account: string) {
      prep in lobbies && account in lobbies[prep].byAccount
    }

    predicate CanView(prep: nat, account: string) {
      IsOwner(prep, account) || HoldsSlot(prep, account)
    }

    function With(k: nat, c: Call): State { this.(calls := calls[k := c]) }
  }

  datatype Step =
    | Register(prep: nat, owner: string)
    | ClaimBegins(k: nat, account: string, prep: nat)
    | ReleaseBegins(k: nat, account: string, prep: nat)
    | InviteBegins(k: nat, principal: string, prep: nat, account: string)
    | AuthorizedBegins(k: nat, account: string, prep: nat)
    | InviteStores(k: nat, token: string, expires: int)
    | Redeems(k: nat, token: string, now: int)
    | LobbyChanges(k: nat)

  function Next(s: State, step: Step): Option<State> {
    match step
    case Register(prep, owner) =>
      if prep in s.lobbies then None
      else Some(s.(owners := s.owners[prep := owner], lobbies := s.lobbies[prep := L.Empty(LOBBY_CAPACITY)]))
    case ClaimBegins(k, account, prep) =>
      if k in s.calls then None
      else Some(s.With(k, if prep in s.lobbies && s.CanView(prep, account) then Claiming(prep, account) else Done))
    case ReleaseBegins(k, account, prep) =>
      if k in s.calls then None
      else Some(s.With(k, if prep in s.lobbies && s.CanView(prep, account) then Releasing(prep, account) else Done))
    case InviteBegins(k, principal, prep, account) =>
      if k in s.calls then None
      else Some(s.With(k, if account != "" && s.IsOwner(prep, principal) then Inviting(prep, account) else Done))
    case AuthorizedBegins(k, account, prep) =>
      if k in s.calls then None
      else Some(s.With(k, if prep !in s.lobbies then Done
                          else if s.IsOwner(prep, account) then Claiming(prep, account)
                          else Redeeming(prep, account)))
    case InviteStores(k, token, expires) =>
      if k !in s.calls || !s.calls[k].Inviting? || token in s.invites then None   // tokens are fresh
      else
        var invitation := Invitation(s.calls[k].prep, s.calls[k].account, expires, false);
        Some(s.With(k, Done).(invites := s.invites[token := invitation]))
    case Redeems(k, token, now) =>
      if k !in s.calls || !s.calls[k].Redeeming? then None
      else
        var c := s.calls[k];
        if token !in s.invites || s.invites[token].used || s.invites[token].prep != c.prep
           || s.invites[token].account != c.account || now > s.invites[token].expires
        then Some(s.With(k, Done))
        else Some(s.With(k, Claiming(c.prep, c.account))
                   .(invites := s.invites[token := s.invites[token].(used := true)],
                     redemptions := s.redemptions + [token]))
    case LobbyChanges(k) =>
      if k !in s.calls || !(s.calls[k].Claiming? || s.calls[k].Releasing?) || s.calls[k].prep !in s.lobbies then None
      else
        var c := s.calls[k];
        var lobby := s.lobbies[c.prep];
        Some(s.With(k, Done)
              .(lobbies := s.lobbies[c.prep := if c.Claiming? then lobby.Claim(c.account).0
                                               else lobby.Release(c.account).0]))
  }

  predicate Init(s: State) {
    s.owners == map[] && s.lobbies == map[] && s.invites == map[] && s.calls == map[] && s.redemptions == []
  }

  /** The account consumed an invitation bound to it and to this preparation. */
  ghost predicate Redeemed(s: State, prep: nat, account: string) {
    exists t :: t in s.invites && s.invites[t].used && s.invites[t].prep == prep && s.invites[t].account == account
  }

  ghost predicate Entitled(s: State, prep: nat, account: string) {
    (prep in s.owners && s.owners[prep] == account) || Redeemed(s, prep, account)
  }

  ghost predicate CallOk(s: State, c: Call) {
    (c.Claiming? ==> c.prep in s.lobbies && Entitled(s, c.prep, c.account))
    && (c.Redeeming? ==> c.prep in s.lobbies)
  }

  ghost predicate LobbyOk(s: State, prep: nat)
    requires prep in s.lobbies
  {
    prep in s.owners && s.lobbies[prep].Inv() && s.lobbies[prep].capacity == LOBBY_CAPACITY
    && forall a :: a in s.lobbies[prep].byAccount ==> Entitled(s, prep, a)
  }

  ghost predicate Inv(s: State) {
    && (forall p :: p in s.lobbies ==> LobbyOk(s, p))
    && (forall p :: p in s.owners ==> p in s.lobbies)
    && (forall k :: k in s.calls ==> CallOk(s, s.calls[k]))
    && Distinct(s.redemptions)
    && (forall t :: t in s.redemptions <==> t in s.invites && s.invites[t].used)
  }

  /** Entitlement, ownership and lobbies are never lost. */
  ghost predicate Later(s: State, t: State) {
    && (forall p :: p in s.owners ==> p in t.owners && t.owners[p] == s.owners[p])
    && (forall p :: p in s.lobbies ==> p in t.lobbies)
    && (forall p, a :: Entitled(s, p, a) ==> Entitled(t, p, a))
  }

  lemma RedeemedLater(s: State, t: State)
    requires forall k :: k in s.invites && s.invites[k].used ==> k in t.invites && t.invites[k] == s.invites[k]
    ensures forall p, a :: Redeemed(s, p, a) ==> Redeemed(t, p, a)
  {
    forall p, a | Redeemed(s, p, a) ensures Redeemed(t, p, a) {
      var k :| k in s.invites && s.invites[k].used && s.invites[k].prep == p && s.invites[k].account == a;
      assert k in t.invites && t.invites[k].used;
    }
  }

  lemma StepLater(s: State, step: Step)
    requires (forall p :: p in s.owners ==> p in s.lobbies) && Next(s, step).Some?
    ensures Later(s, Next(s, step).value)
  {
    RedeemedLater(s, Next(s, step).value);
  }

  /** The lobbies and calls a step leaves alone keep their part. */
  lemma Kept(s: State, t: State)
    requires Inv(s) && Later(s, t)
    ensures forall p :: p in s.lobbies && p in t.lobbies && t.lobbies[p] == s.lobbies[p] ==> LobbyOk(t, p)
    ensures forall k :: k in s.calls && k in t.calls && t.calls[k] == s.calls[k] ==> CallOk(t, t.calls[k])
  {
    forall p | p in s.lobbies && p in t.lobbies && t.lobbies[p] == s.lobbies[p] ensures LobbyOk(t, p) {
      assert LobbyOk(s, p);
    }
    forall k | k in s.calls && k in t.calls && t.calls[k] == s.calls[k] ensures CallOk(t, t.calls[k]) {
      assert CallOk(s, s.calls[k]);
    }
  }

  lemma RedeemStep(s: State, k: nat, token: string, now: int)
    requires Inv(s) && Next(s, Redeems(k, token, now)).Some?
    ensures Inv(Next(s, Redeems(k, token, now)).value)
  {
    var t := Next(s, Redeems(k, token, now)).value;
    StepLater(s, Redeems(k, token, now));
    Kept(s, t);
    if t.calls[k].Claiming? {
      assert t.invites[token].used;
      assert Redeemed(t, t.calls[k].prep, t.calls[k].account);
    }
  }

  /** A claim by an entitled account, or a release, keeps its lobby in order. */
  lemma LobbyChanged(s: State, k: nat)
    requires Next(s, LobbyChanges(k)).Some? && Later(s, Next(s, LobbyChanges(k)).value)
    requires LobbyOk(s, s.calls[k].prep) && CallOk(s, s.calls[k])
    ensures LobbyOk(Next(s, LobbyChanges(k)).value, s.calls[k].prep)
  {
    var t, c := Next(s, LobbyChanges(k)).value, s.calls[k];
    if c.account != "" {
      L.ClaimExact(s.lobbies[c.prep], c.account);
      L.ReleaseExact(s.lobbies[c.prep], c.account);
    }
    forall a | a in t.lobbies[c.prep].byAccount ensures Entitled(t, c.prep, a) {
      assert a == c.account || a in s.lobbies[c.prep].byAccount;
      assert Entitled(s, c.prep, a);
    }
  }

  /** A step that leaves the invitations alone need only answer for what it touched. */
  lemma Untouched(s: State, t: State)
    requires Inv(s) && Later(s, t) && t.invites == s.invites && t.redemptions == s.redemptions
    requires t.owners == s.owners && t.lobbies.Keys == s.lobbies.Keys
    requires forall p :: p in t.lobbies ==> t.lobbies[p] == s.lobbies[p] || LobbyOk(t, p)
    requires forall k :: k in t.calls ==> (k in s.calls && t.calls[k] == s.calls[k]) || CallOk(t, t.calls[k])
    ensures Inv(t)
  {
    Kept(s, t);
  }

  lemma LobbyShape(s: State, k: nat)
    requires Next(s, LobbyChanges(k)).Some?
    ensures var t, p := Next(s, LobbyChanges(k)).value, s.calls[k].prep;
            p in s.lobbies && p in t.lobbies
            && t == s.(calls := s.calls[k := Done], lobbies := s.lobbies[p := t.lobbies[p]])
  {
  }

  lemma OneLobby(s: State, t: State, k: nat, p: nat)
    requires Inv(s) && Later(s, t) && p in s.lobbies && p in t.lobbies && LobbyOk(t, p)
    requires t == s.(calls := s.calls[k := Done], lobbies := s.lobbies[p := t.lobbies[p]])
    ensures Inv(t)
  {
    Untouched(s, t);
  }

  lemma LobbyStep(s: State, k: nat)
    requires Inv(s) && Next(s, LobbyChanges(k)).Some?
    ensures Inv(Next(s, LobbyChanges(k)).value)
  {
    var t, p := Next(s, LobbyChanges(k)).value, s.calls[k].prep;
    LobbyShape(s, k);
    LobbyLater(s, k);
    assert LobbyOk(s, p) && CallOk(s, s.calls[k]);
    LobbyChanged(s, k);
    OneLobby(s, t, k, p);
  }

  lemma LobbyLater(s: State, k: nat)
    requires Inv(s) && Next(s, LobbyChanges(k)).Some?
    ensures Later(s, Next(s, LobbyChanges(k)).value)
  {
    StepLater(s, LobbyChanges(k));
  }

  /** The first section of a call: whoever is let through to claim is entitled to. */
  lemma ViewersEntitled(s: State, prep: nat, account: string)
    requires Inv(s) && prep in s.lobbies && s.CanView(prep, account)
    ensures Entitled(s, prep, account)
  {
    assert LobbyOk(s, prep);
  }

  lemma BeginStep(s: State, step: Step)
    requires Inv(s) && Next(s, step).Some? && !step.Register? && !step.InviteStores?
    requires !step.Redeems? && !step.LobbyChanges?
    ensures Inv(Next(s, step).value)
  {
    var t := Next(s, step).value;
    StepLater(s, step);
    if t.calls[step.k].Claiming? { ViewersEntitled(s, step.prep, step.account); }
    Untouched(s, t);
  }

  lemma InviteStep(s: State, k: nat, token: string, expires: int)
    requires Inv(s) && Next(s, InviteStores(k, token, expires)).Some?
    ensures Inv(Next(s, InviteStores(k, token, expires)).value)
  {
    StepLater(s, InviteStores(k, token, expires));
    Kept(s, Next(s, InviteStores(k, token, expires)).value);
  }

  lemma RegisterStep(s: State, prep: nat, owner: string)
    requires Inv(s) && Next(s, Register(prep, owner)).Some?
    ensures Inv(Next(s, Register(prep, owner)).value)
  {
    StepLater(s, Register(prep, owner));
    Kept(s, Next(s, Register(prep, owner)).value);
  }

  lemma StepInv(s: State, step: Step)
    requires Inv(s) && Next(s, step).Some?
    ensures Inv(Next(s, step).value) && Later(s, Next(s, step).value)
  {
    StepLater(s, step);
    if step.Redeems? {
      RedeemStep(s, step.k, step.token, step.now);
    } else if step.LobbyChanges? {
      LobbyStep(s, step.k);
    } else if step.Register? {
      RegisterStep(s, step.prep, step.owner);
    } else if step.InviteStores? {
      InviteStep(s, step.k, step.token, step.expires);
    } else {
      BeginStep(s, step);
    }
  }

  lemma InitInv(s: State)
    requires Init(s)
    ensures Inv(s)
  {
  }

  ghost predicate IsRun(states: seq<State>, steps: seq<Step>) {
    |states| == |steps| + 1 && Init(states[0])
    && forall i :: 0 <= i < |steps| ==> Next(states[i], steps[i]) == Some(states[i + 1])
  }

  lemma RunInv(states: seq<State>, steps: seq<Step>)
    requires IsRun(states, steps)
    ensures forall i :: 0 <= i < |states| ==> Inv(states[i])
  {
    InitInv(states[0]);
    for i := 0 to |steps|
      invariant forall j :: 0 <= j <= i ==> Inv(states[j])
    {
      assert Next(states[i], steps[i]) == Some(states[i + 1]);
      StepInv(states[i], steps[i]);
    }
  }

  /** At every moment of every interleaved run, whoever holds a slot is the preparation's owner or
      has consumed an invitation bound to that account and preparation; no invitation was consumed
      twice; and every lobby is consistent and within its twelve slots. */
  lemma SlotsAreEarned(states: seq<State>, steps: seq<Step>, i: nat, prep: nat, account: string)
    requires IsRun(states, steps) && i < |states| && states[i].HoldsSlot(prep, account)
    ensures Entitled(states[i], prep, account)
    ensures Distinct(states[i].redemptions)
    ensures states[i].lobbies[prep].Inv() && |states[i].lobbies[prep].byAccount| <= 12
  {
    RunInv(states, steps);
    assert LobbyOk(states[i], prep);
    OneSlotEach(states[i].lobbies[prep]);
  }

  /** As many accounts as slots, so never more than the capacity. */
  lemma OneSlotEach(l: L.Lobby)
    requires l.Inv()
    ensures |l.byAccount| == |l.slots| <= l.capacity
  {
    SameSize(l.byAccount, l.slots);
    L.BelowCount(l.slots.Keys, l.capacity);
    assert |l.slots| == |l.slots.Keys|;
  }

  lemma {:induction false} SameSize(a: map<string, nat>, b: map<nat, string>)
    requires forall x :: x in a ==> a[x] in b && b[a[x]] == x
    requires forall y :: y in b ==> b[y] in a && a[b[y]] == y
    ensures |a| == |b|
  {
    if a == map[] {
      assert b.Keys == {};
      assert |b| == |b.Keys|;
    } else {
      var x :| x in a;
      var a', b' := a - {x}, b - {a[x]};
      assert |a'.Keys| == |a.Keys| - 1 by { assert a'.Keys == a.Keys - {x}; }
      assert |b'.Keys| == |b.Keys| - 1 by { assert b'.Keys == b.Keys - {a[x]}; }
      SameSize(a', b');
    }
  }

  // ----- the invitation and claim methods, each run alone -----

  class Access {
    var owners: map<nat, string>
    var lobbies: map<nat, L.LobbyObject>
    var invites: map<string, Invitation>

    ghost predicate Valid()
      reads this, lobbies.Values
    {
      && (forall p :: p in lobbies ==> lobbies[p].View().Inv())
      && (forall p, q :: p in lobbies && q in lobbies && p != q ==> lobbies[p] != lobbies[q])
    }

    constructor ()
      ensures Valid() && owners == map[] && lobbies == map[] && invites == map[]
    {
      owners, lobbies, invites := map[], map[], map[];
    }

    method CanViewLocked(account: string, prep: nat) returns (ok: bool)
      ensures ok == ((if prep in owners then owners[prep] else "") == account
                     || (prep in lobbies && account in lobbies[prep].byAccount))
    {
      if (if prep in owners then owners[prep] else "") == account { return true; }
      if prep !in lobbies { return false; }
      var slot := lobbies[prep].Slot(account);
      return slot.Some?;
    }

    /** Claim: refused without touching the lobby unless the caller may view the preparation. */
    method Claim(account: string, prep: nat) returns (r: Option<Result<nat, L.LobbyError>>)
      requires Valid()
      modifies lobbies.Values
      ensures Valid()
      ensures var viewer := old((if prep in owners then owners[prep] else "") == account
                                || (prep in lobbies && account in lobbies[prep].byAccount));
              r.Some? <==> prep in lobbies && viewer
      ensures r.Some? ==> (lobbies[prep].View(), r.value) == old(lobbies[prep].View()).Claim(account)
      ensures forall p :: p in lobbies && (p != prep || r.None?) ==> lobbies[p].View() == old(lobbies[p].View())
    {
      if prep !in lobbies { return None; }
      var authorized := CanViewLocked(account, prep);
      if !authorized { return None; }
      var slot := lobbies[prep].Claim(account);
      return Some(slot);
    }

    method Invite(principal: string, prep: nat, account: string, token: string, expires: int) returns (ok: bool)
      modifies this`invites
      ensures ok <==> account != "" && (if prep in owners then owners[prep] else "") == principal
      ensures invites == if ok then old(invites)[token := Invitation(prep, account, expires, false)] else old(invites)
    {
      if account == "" { return false; }
      if (if prep in owners then owners[prep] else "") != principal { return false; }
      invites := invites[token := Invitation(prep, account, expires, false)];
      return true;
    }

    /** ClaimAuthorized: the owner claims; anyone else consumes a matching, unused, unexpired
        invitation first, even if the claim then fails. */
    method ClaimAuthorized(account: string, prep: nat, token: string, now: int)
      returns (r: Option<Result<nat, L.LobbyError>>)
      requires Valid()
      modifies this`invites, lobbies.Values
      ensures Valid()
      ensures var owner := (if prep in owners then owners[prep] else "") == account;
              var invited := token in old(invites) && !old(invites)[token].used && old(invites)[token].prep == prep
                             && old(invites)[token].account == account && now <= old(invites)[token].expires;
              && (r.Some? <==> prep in lobbies && (owner || invited))
              && (r.Some? ==> (lobbies[prep].View(), r.value) == old(lobbies[prep].View()).Claim(account))
              && invites == (if prep in lobbies && !owner && invited
                             then old(invites)[token := old(invites)[token].(used := true)] else old(invites))
      ensures forall p :: p in lobbies && (p != prep || r.None?) ==> lobbies[p].View() == old(lobbies[p].View())
    {
      if prep !in lobbies { return None; }
      if (if prep in owners then owners[prep] else "") != account {
        if token !in invites || invites[token].used || invites[token].prep != prep
           || invites[token].account != account { return None; }
        if now > invites[token].expires { return None; }
        invites := invites[token := invites[token].(used := true)];
      }
      var slot := lobbies[prep].Claim(account);
      return Some(slot);
    }
  }
}
