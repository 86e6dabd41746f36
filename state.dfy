/** The wallet index `USER_WALLETS`: member address -> ordered list of the
    multisig addresses created for deployments that named that member.

    The cw3 reply handler updates it once per member of the stored request,
    in list order, with a closure that pushes the new multisig address onto
    the stored list or starts a one-element list. `PushAll` is that loop as a
    function; the lemmas below say what it does to every key. */
module State {
  import opened Msg

  type Wallets = map<string, seq<string>>

  /** The update closure: push onto the stored list, or start `[contract]`. */
  function PushWallet(stored: Option<seq<string>>, contract: string): seq<string>
  {
    match stored
    case Some(wallets) => wallets + [contract]
    case None => [contract]
  }

  /** `USER_WALLETS.update(user, closure)`: load, apply the closure, save. */
  function Push(index: Wallets, user: string, contract: string): Wallets
  {
    index[user := PushWallet(if user in index then Some(index[user]) else None, contract)]
  }

  /** The loop over the request's members, one `Push` per member, in order. */
  function PushAll(index: Wallets, members: seq<Member>, contract: string): Wallets
    decreases |members|
  {
    if members == [] then index
    else Push(PushAll(index, members[..|members| - 1], contract), members[|members| - 1].addr, contract)
  }

  /** The list stored for `user`, or the empty list when the key is absent. */
  function Lookup(index: Wallets, user: string): seq<string>
  {
    if user in index then index[user] else []
  }

  /** How many entries of `members` carry the address `user`. */
  function Occurrences(members: seq<Member>, user: string): nat
    decreases |members|
  {
    if members == [] then 0
    else Occurrences(members[..|members| - 1], user) + (if members[|members| - 1].addr == user then 1 else 0)
  }

  /** `n` copies of `contract`. */
  function Copies(contract: string, n: nat): seq<string>
  {
    seq(n, _ => contract)
  }

  /** Every stored list is non-empty: entries are created with one element
      and only ever appended to. */
  ghost predicate NonEmptyEntries(index: Wallets)
  {
    forall user :: user in index ==> index[user] != []
  }

  /** Occurrences counts exactly the positions holding `user`'s address. */
  lemma {:induction false} OccurrencesPositive(members: seq<Member>, user: string)
    ensures Occurrences(members, user) > 0 <==> exists i :: 0 <= i < |members| && members[i].addr == user
  {
    if members != [] {
      var init := members[..|members| - 1];
      OccurrencesPositive(init, user);
      if exists i :: 0 <= i < |init| && init[i].addr == user {
        var i :| 0 <= i < |init| && init[i].addr == user;
        assert members[i].addr == user;
      }
      if exists i :: 0 <= i < |members| && members[i].addr == user {
        var i :| 0 <= i < |members| && members[i].addr == user;
        if i < |init| {
          assert init[i].addr == user;
        }
      }
    }
  }

  /** The effect of the loop on one key: the key is present afterwards iff it
      was present or is a member, and its list is the old one (empty if
      absent) followed by one copy of `contract` per occurrence of the key in
      the member list. */
  lemma {:induction false} PushAllEntry(index: Wallets, members: seq<Member>, contract: string, user: string)
    ensures user in PushAll(index, members, contract) <==> user in index || Occurrences(members, user) > 0
    ensures Lookup(PushAll(index, members, contract), user)
            == Lookup(index, user) + Copies(contract, Occurrences(members, user))
  {
    if members != [] {
      var init := members[..|members| - 1];
      PushAllEntry(index, init, contract, user);
      var n := Occurrences(init, user);
      if members[|members| - 1].addr == user {
        assert Copies(contract, n + 1) == Copies(contract, n) + [contract];
      }
    }
  }

  /** Keys that are not members are untouched: same presence, same list. */
  lemma {:induction false} PushAllUntouched(index: Wallets, members: seq<Member>, contract: string, user: string)
    requires forall i :: 0 <= i < |members| ==> members[i].addr != user
    ensures user in PushAll(index, members, contract) <==> user in index
    ensures user in index ==> PushAll(index, members, contract)[user] == index[user]
  {
    OccurrencesPositive(members, user);
    PushAllEntry(index, members, contract, user);
  }

  /** Every member gets `contract` appended once per time it is listed; a
      member listed once gets exactly one append, and an absent one becomes
      the one-element list `[contract]`. */
  lemma {:induction false} PushAllMember(index: Wallets, members: seq<Member>, contract: string, i: nat)
    requires i < |members|
    ensures members[i].addr in PushAll(index, members, contract)
    ensures Occurrences(members, members[i].addr) == 1 ==>
              PushAll(index, members, contract)[members[i].addr] == Lookup(index, members[i].addr) + [contract]
    ensures members[i].addr !in index && Occurrences(members, members[i].addr) == 1 ==>
              PushAll(index, members, contract)[members[i].addr] == [contract]
  {
    var user := members[i].addr;
    OccurrencesPositive(members, user);
    PushAllEntry(index, members, contract, user);
    assert Copies(contract, 1) == [contract];
  }

  /** In a member list without repeated addresses, every address occurs once. */
  lemma {:induction false} OccurrencesOfDistinct(members: seq<Member>, i: nat)
    requires forall j, k :: 0 <= j < k < |members| ==> members[j].addr != members[k].addr
    requires i < |members|
    ensures Occurrences(members, members[i].addr) == 1
  {
    var init := members[..|members| - 1];
    if i == |members| - 1 {
      forall j | 0 <= j < |init|
        ensures init[j].addr != members[i].addr
      {
        assert init[j] == members[j];
      }
      OccurrencesPositive(init, members[i].addr);
    } else {
      assert init[i] == members[i];
      OccurrencesOfDistinct(init, i);
    }
  }

  /** Fan-out for a request without repeated addresses: each of its members
      has exactly the new multisig appended, once. */
  lemma {:induction false} PushAllFanOut(index: Wallets, members: seq<Member>, contract: string)
    requires forall j, k :: 0 <= j < k < |members| ==> members[j].addr != members[k].addr
    ensures forall i :: 0 <= i < |members| ==>
              members[i].addr in PushAll(index, members, contract) &&
              PushAll(index, members, contract)[members[i].addr] == Lookup(index, members[i].addr) + [contract]
  {
    forall i | 0 <= i < |members|
      ensures members[i].addr in PushAll(index, members, contract)
      ensures PushAll(index, members, contract)[members[i].addr] == Lookup(index, members[i].addr) + [contract]
    {
      OccurrencesOfDistinct(members, i);
      PushAllMember(index, members, contract, i);
    }
  }

  /** A member listed twice receives two appends. */
  lemma {:induction false} PushAllTwice(index: Wallets, members: seq<Member>, contract: string, user: string)
    requires Occurrences(members, user) == 2
    ensures user in PushAll(index, members, contract)
    ensures PushAll(index, members, contract)[user] == Lookup(index, user) + [contract, contract]
  {
    PushAllEntry(index, members, contract, user);
    assert Copies(contract, 2) == [contract, contract];
  }

  /** The index is append-only: no key disappears and every stored list is a
      prefix of its new value. */
  lemma {:induction false} PushAllAppendOnly(index: Wallets, members: seq<Member>, contract: string)
    ensures index.Keys <= PushAll(index, members, contract).Keys
    ensures forall user :: user in index ==> index[user] <= PushAll(index, members, contract)[user]
  {
    forall user | user in index
      ensures user in PushAll(index, members, contract) && index[user] <= PushAll(index, members, contract)[user]
    {
      PushAllEntry(index, members, contract, user);
    }
  }

  /** The loop keeps every stored list non-empty. */
  lemma {:induction false} PushAllNonEmpty(index: Wallets, members: seq<Member>, contract: string)
    requires NonEmptyEntries(index)
    ensures NonEmptyEntries(PushAll(index, members, contract))
  {
    forall user | user in PushAll(index, members, contract)
      ensures PushAll(index, members, contract)[user] != []
    {
      PushAllEntry(index, members, contract, user);
    }
  }
}
