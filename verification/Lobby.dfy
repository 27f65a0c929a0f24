/** A lobby: fixed slots, claimed lowest first, each held by one account. */
module Lobbies {
  import opened Prelude

  datatype LobbyError = InvalidAccount | LobbyFull | NoSlotClaimed

  /** The lowest slot in [from, capacity) that nobody holds. */
  function FirstFree(slots: set<nat>, from: nat, capacity: nat): Option<nat>
    decreases capacity - from
  {
    if from >= capacity then None
    else if from !in slots then Some(from)
    else FirstFree(slots, from + 1, capacity)
  }

  datatype Lobby = Lobby(capacity: nat, slots: map<nat, string>, byAccount: map<string, nat>) {

    function Claim(account: string): (Lobby, Result<nat, LobbyError>) {
      if account == "" then (this, Err(InvalidAccount))
      else if account in byAccount then (this, Ok(byAccount[account]))
      else if |slots| >= capacity then (this, Err(LobbyFull))
      else
        var free := FirstFree(slots.Keys, 0, capacity);
        if free.None? then (this, Err(LobbyFull))
        else (this.(slots := slots[free.value := account], byAccount := byAccount[account := free.value]),
              Ok(free.value))
    }

    function Release(account: string): (Lobby, Result<(), LobbyError>) {
      if account == "" then (this, Err(InvalidAccount))
      else if account !in byAccount then (this, Err(NoSlotClaimed))
      else (this.(slots := slots - {byAccount[account]}, byAccount := byAccount - {account}), Ok(()))
    }

    /** Slots and accounts are inverse to each other, inside the capacity. */
    ghost predicate Inv() {
      && (forall i :: i in slots ==> i < capacity && slots[i] in byAccount && byAccount[slots[i]] == i)
      && (forall a :: a in byAccount ==> a != "" && byAccount[a] in slots && slots[byAccount[a]] == a)
    }
  }

  function Empty(capacity: nat): Lobby { Lobby(capacity, map[], map[]) }

  /** Pigeonhole: fewer than n numbers below n leave one of them out. */
  lemma {:induction false} Pigeonhole(s: set<nat>, n: nat)
    requires |s| < n && forall i :: i in s ==> i < n
    ensures exists i: nat :: i < n && i !in s
  {
    if n - 1 in s {
      Pigeonhole(s - {n - 1}, n - 1);
      var i: nat :| i < n - 1 && i !in s - {n - 1};
      assert i < n && i !in s;
    } else {
      assert n - 1 < n && n - 1 !in s;
    }
  }

  /** FirstFree is the least free slot, and finds one if there is one. */
  lemma {:induction false} FirstFreeLeast(slots: set<nat>, from: nat, capacity: nat)
    ensures var f := FirstFree(slots, from, capacity);
            && (f.Some? ==> from <= f.value < capacity && f.value !in slots
                            && forall i :: from <= i < f.value ==> i in slots)
            && (f.None? ==> forall i :: from <= i < capacity ==> i in slots)
    decreases capacity - from
  {
    if from < capacity && from in slots {
      FirstFreeLeast(slots, from + 1, capacity);
    }
  }

  lemma {:induction false} BelowCount(s: set<nat>, n: nat)
    requires forall i :: i in s ==> i < n
    ensures |s| <= n
  {
    if n == 0 {
      assert s == {};
    } else if n - 1 in s {
      BelowCount(s - {n - 1}, n - 1);
    } else {
      BelowCount(s, n - 1);
    }
  }

  /** What a claim does: it keeps the lobby consistent; an account that holds a slot gets it back;
      a new account gets the least free slot exactly when one exists, that is, when the lobby is not
      full. So the second full-lobby return of the source is never reached. */
  lemma ClaimExact(l: Lobby, account: string)
    requires l.Inv() && account != ""
    ensures var (t, r) := l.Claim(account);
            && t.Inv() && |l.slots| <= l.capacity
            && (r.Ok? ==> account in t.byAccount && t.byAccount[account] == r.value < l.capacity)
            && (account in l.byAccount ==> t == l && r == Ok(l.byAccount[account]))
            && (account !in l.byAccount ==>
                  && (r.Ok? <==> |l.slots| < l.capacity)
                  && (r.Err? ==> r == Err(LobbyFull) && t == l)
                  && (r.Ok? ==> r.value !in l.slots && (forall i :: 0 <= i < r.value ==> i in l.slots)
                                && t.slots == l.slots[r.value := account]
                                && t.byAccount == l.byAccount[account := r.value]))
  {
    assert |l.slots| == |l.slots.Keys|;
    BelowCount(l.slots.Keys, l.capacity);
    FirstFreeLeast(l.slots.Keys, 0, l.capacity);
    if |l.slots| < l.capacity {
      Pigeonhole(l.slots.Keys, l.capacity);
    }
  }

  /** A release frees exactly that account's slot. */
  lemma ReleaseExact(l: Lobby, account: string)
    requires l.Inv() && account != ""
    ensures var (t, r) := l.Release(account);
            && t.Inv() && (r.Ok? <==> account in l.byAccount) && (r.Err? ==> t == l && r == Err(NoSlotClaimed))
            && (r.Ok? ==> account !in t.byAccount && l.byAccount[account] !in t.slots
                          && t.byAccount == l.byAccount - {account})
  {
    if account in l.byAccount {
      var i, t := l.byAccount[account], l.Release(account).0;
      forall j | j in t.slots ensures t.slots[j] in t.byAccount && t.byAccount[t.slots[j]] == j {
        assert j in l.slots && j != i && l.slots[j] != account;
      }
      forall a | a in t.byAccount ensures t.byAccount[a] in t.slots && t.slots[t.byAccount[a]] == a {
        assert a in l.byAccount && a != account && l.byAccount[a] != i;
      }
    }
  }

  /** The empty account is refused either way. */
  lemma EmptyRefused(l: Lobby)
    ensures l.Claim("") == (l, Err(InvalidAccount)) && l.Release("") == (l, Err(InvalidAccount))
  {
  }

  /** A release undoes a claim: claiming then releasing a new account restores the lobby. */
  lemma ReleaseUndoesClaim(l: Lobby, account: string)
    requires l.Inv() && account != "" && account !in l.byAccount && l.Claim(account).1.Ok?
    ensures l.Claim(account).0.Release(account).0 == l
  {
    ClaimExact(l, account);
    var i := l.Claim(account).1.value;
    assert l.slots[i := account] - {i} == l.slots;
    assert l.byAccount[account := i] - {account} == l.byAccount;
  }

  /** The lobby object. */
  class LobbyObject {
    const capacity: nat
    var slots: map<nat, string>
    var byAccount: map<string, nat>

    ghost function View(): Lobby
      reads this
    {
      Lobby(capacity, slots, byAccount)
    }

    constructor (capacity: nat)
      ensures View() == Empty(capacity) && View().Inv()
    {
      this.capacity := capacity;
      slots, byAccount := map[], map[];
    }

    method Claim(account: string) returns (r: Result<nat, LobbyError>)
      requires View().Inv()
      modifies this
      ensures (View(), r) == old(View()).Claim(account) && View().Inv()
    {
      if account == "" { return Err(InvalidAccount); }
      ClaimExact(View(), account);
      if account in byAccount { return Ok(byAccount[account]); }
      if |slots| >= capacity { return Err(LobbyFull); }
      var slot := 0;
      while slot < capacity
        invariant slot <= capacity && View() == old(View())
        invariant FirstFree(slots.Keys, 0, capacity) == FirstFree(slots.Keys, slot, capacity)
      {
        if slot !in slots {
          slots := slots[slot := account];
          byAccount := byAccount[account := slot];
          return Ok(slot);
        }
        slot := slot + 1;
      }
      return Err(LobbyFull);
    }

    method Release(account: string) returns (r: Result<(), LobbyError>)
      requires View().Inv()
      modifies this
      ensures (View(), r) == old(View()).Release(account) && View().Inv()
    {
      if account == "" { return Err(InvalidAccount); }
      ReleaseExact(View(), account);
      if account !in byAccount { return Err(NoSlotClaimed); }
      var slot := byAccount[account];
      byAccount := byAccount - {account};
      slots := slots - {slot};
      return Ok(());
    }

    method Slot(account: string) returns (r: Option<nat>)
      ensures r == if account in byAccount then Some(byAccount[account]) else None
    {
      return if account in byAccount then Some(byAccount[account]) else None;
    }
  }
}
