/** What the interleaved lobby calls come to: who is let through, what a redemption consumes, and who
    holds a slot after a claim or a release. */
module LobbyOutcomes {
  import opened Prelude
  import opened LobbyAccess
  import L = Lobbies

  predicate Owner(s: State, prep: nat, account: string) { prep in s.owners && s.owners[prep] == account }

  /** The invitation is for this account and preparation, unused and not expired. */
  predicate Valid(s: State, token: string, prep: nat, account: string, now: int) {
    token in s.invites && s.invites[token].prep == prep && s.invites[token].account == account
    && !s.invites[token].used && now <= s.invites[token].expires
  }

  /** The first section of a call lets it through exactly for a registered preparation and its owner
      or, for claiming and releasing, one of its slot holders; a claim by somebody else goes on to
      redeem an invitation; an invitation needs an account to name. */
  ghost predicate LetThrough(s: State, step: Step, t: State)
    requires step.ClaimBegins? || step.ReleaseBegins? || step.InviteBegins? || step.AuthorizedBegins?
    requires step.k in t.calls
  {
    var call := t.calls[step.k];
    match step
    case ClaimBegins(_, account, prep) =>
      call == if prep in s.lobbies && (Owner(s, prep, account) || s.HoldsSlot(prep, account))
              then Claiming(prep, account) else Done
    case ReleaseBegins(_, account, prep) =>
      call == if prep in s.lobbies && (Owner(s, prep, account) || s.HoldsSlot(prep, account))
              then Releasing(prep, account) else Done
    case AuthorizedBegins(_, account, prep) =>
      call == if prep !in s.lobbies then Done
              else if Owner(s, prep, account) then Claiming(prep, account) else Redeeming(prep, account)
    case InviteBegins(_, principal, prep, account) =>
      prep in s.owners ==>
        call == if account != "" && Owner(s, prep, principal) then Inviting(prep, account) else Done
  }

  lemma LetThroughAt(s: State, step: Step)
    requires Inv(s) && Next(s, step).Some?
    requires step.ClaimBegins? || step.ReleaseBegins? || step.InviteBegins? || step.AuthorizedBegins?
    ensures step.k in Next(s, step).value.calls && LetThrough(s, step, Next(s, step).value)
  {
    if !step.InviteBegins? && step.prep in s.lobbies { assert LobbyOk(s, step.prep); }
  }

  /** Over every run each call is let through exactly then. */
  lemma LetThroughExact(states: seq<State>, steps: seq<Step>, i: nat)
    requires IsRun(states, steps) && i < |steps|
    requires steps[i].ClaimBegins? || steps[i].ReleaseBegins? || steps[i].InviteBegins? || steps[i].AuthorizedBegins?
    ensures steps[i].k in states[i + 1].calls && LetThrough(states[i], steps[i], states[i + 1])
  {
    RunInv(states, steps);
    assert Next(states[i], steps[i]) == Some(states[i + 1]);
    LetThroughAt(states[i], steps[i]);
  }

  /** Over every run a redemption lets the call through to claim exactly if the invitation is valid
      for it, and then uses up that invitation and nothing else. */
  lemma RedeemExact(states: seq<State>, steps: seq<Step>, i: nat, k: nat, token: string, now: int)
    requires IsRun(states, steps) && i < |steps| && steps[i] == Redeems(k, token, now)
    ensures k in states[i].calls && states[i].calls[k].Redeeming? && k in states[i + 1].calls
    ensures var s, t := states[i], states[i + 1];
            var valid := Valid(s, token, s.calls[k].prep, s.calls[k].account, now);
            && t.calls[k] == (if valid then Claiming(s.calls[k].prep, s.calls[k].account) else Done)
            && t.invites == (if valid then s.invites[token := s.invites[token].(used := true)] else s.invites)
            && t.lobbies == s.lobbies
  {
    assert Next(states[i], steps[i]) == Some(states[i + 1]);
  }

  /** Over every run an inviting call files an unused invitation for its account and preparation. */
  lemma InviteExact(states: seq<State>, steps: seq<Step>, i: nat, k: nat, token: string, expires: int)
    requires IsRun(states, steps) && i < |steps| && steps[i] == InviteStores(k, token, expires)
    ensures var s, t := states[i], states[i + 1];
            && k in s.calls && s.calls[k].Inviting? && token !in s.invites
            && forall now :: now <= expires ==> Valid(t, token, s.calls[k].prep, s.calls[k].account, now)
  {
    assert Next(states[i], steps[i]) == Some(states[i + 1]);
  }

  /** A new call may always begin, and one that was let through can always go on; an inviting call
      stores its invitation under any token not taken. */
  ghost predicate Open(s: State, step: Step) {
    match step
    case Register(prep, _) => Next(s, step).Some? <==> prep !in s.lobbies
    case InviteStores(k, token, _) =>
      Next(s, step).Some? <==> k in s.calls && s.calls[k].Inviting? && token !in s.invites
    case Redeems(k, _, _) => Next(s, step).Some? <==> k in s.calls && s.calls[k].Redeeming?
    case LobbyChanges(k) =>
      Next(s, step).Some? <==> k in s.calls && (s.calls[k].Claiming? || s.calls[k].Releasing?)
                               && s.calls[k].prep in s.lobbies
    case _ => Next(s, step).Some? <==> step.k !in s.calls
  }

  lemma NothingHeldUp(s: State, step: Step)
    ensures Open(s, step)
  {
  }

  /** What a claim or a release does to its lobby: after a claim the account holds a slot exactly if
      it held one or one was free; after a release it holds none; nobody else is affected. */
  ghost predicate Changed(s: State, t: State, c: Call)
    requires (c.Claiming? || c.Releasing?) && c.prep in s.lobbies
  {
    && (c.Claiming? ==>
          (t.HoldsSlot(c.prep, c.account) <==>
             s.HoldsSlot(c.prep, c.account) || |s.lobbies[c.prep].slots| < 12))
    && (c.Releasing? ==> !t.HoldsSlot(c.prep, c.account))
    && (forall p, a :: p != c.prep || a != c.account ==> (t.HoldsSlot(p, a) <==> s.HoldsSlot(p, a)))
  }

  lemma LobbyMoves(l: L.Lobby, account: string)
    requires l.Inv() && account != ""
    ensures account in l.Claim(account).0.byAccount <==> account in l.byAccount || |l.slots| < l.capacity
    ensures account !in l.Release(account).0.byAccount
    ensures forall a :: a != account ==> (a in l.Claim(account).0.byAccount <==> a in l.byAccount)
    ensures forall a :: a != account ==> (a in l.Release(account).0.byAccount <==> a in l.byAccount)
  {
    L.ClaimExact(l, account);
    L.ReleaseExact(l, account);
  }

  lemma ChangeShape(s: State, k: nat)
    requires Next(s, LobbyChanges(k)).Some?
    ensures k in s.calls && (s.calls[k].Claiming? || s.calls[k].Releasing?) && s.calls[k].prep in s.lobbies
    ensures var c, l := s.calls[k], s.lobbies[s.calls[k].prep];
            Next(s, LobbyChanges(k)).value.lobbies
            == s.lobbies[c.prep := if c.Claiming? then l.Claim(c.account).0 else l.Release(c.account).0]
  {
  }

  lemma ChangedBy(s: State, t: State, c: Call)
    requires (c.Claiming? || c.Releasing?) && c.prep in s.lobbies && LobbyOk(s, c.prep) && c.account != ""
    requires t.lobbies == s.lobbies[c.prep := if c.Claiming? then s.lobbies[c.prep].Claim(c.account).0
                                              else s.lobbies[c.prep].Release(c.account).0]
    ensures Changed(s, t, c)
  {
    LobbyMoves(s.lobbies[c.prep], c.account);
  }

  /** Over every run a call that was let through changes its lobby in this way. */
  lemma ChangeExact(states: seq<State>, steps: seq<Step>, i: nat, k: nat)
    requires IsRun(states, steps) && i < |steps| && steps[i] == LobbyChanges(k)
    ensures k in states[i].calls && (states[i].calls[k].Claiming? || states[i].calls[k].Releasing?)
    ensures states[i].calls[k].prep in states[i].lobbies
    ensures states[i].calls[k].account != "" ==> Changed(states[i], states[i + 1], states[i].calls[k])
    ensures states[i].calls[k].account == "" ==> states[i + 1].lobbies == states[i].lobbies
  {
    RunInv(states, steps);
    assert Next(states[i], steps[i]) == Some(states[i + 1]);
    ChangeShape(states[i], k);
    var c := states[i].calls[k];
    assert LobbyOk(states[i], c.prep);
    if c.account != "" { ChangedBy(states[i], states[i + 1], c); }
  }
}
