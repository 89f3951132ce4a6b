/** The server's player records: a position and a wallet of resource
    balances per user id. Saving to disk is not modelled. */
module UserManager {
  import opened Common

  type Wallet = map<string, int>

  /** A stored user; records read from disk may lack a wallet. */
  datatype User = User(id: string, x: real, y: real, wallet: Option<Wallet>)

  const START_POSITION: real := 200.0
  const STARTING_WALLET: Wallet := map["wood" := 0, "stone" := 0]

  function NewUser(id: string): (u: User)
    ensures u.id == id && u.wallet.Some? && Solvent(WalletOf(u))
    ensures Balance(WalletOf(u), "wood") == 0 && Balance(WalletOf(u), "stone") == 0
  {
    User(id, START_POSITION, START_POSITION, Some(STARTING_WALLET))
  }

  /** The wallet `update_wallet` works on: the stored one, or a fresh
      {wood: 0, stone: 0} when the record has none. */
  function WalletOf(u: User): Wallet
  {
    if u.wallet.Some? then u.wallet.value else STARTING_WALLET
  }

  /** `wallet.get(resource, 0)`. */
  function Balance(w: Wallet, resource: string): int
  {
    if resource in w then w[resource] else 0
  }

  predicate Solvent(w: Wallet)
  {
    forall r :: r in w ==> w[r] >= 0
  }

  /** The balance check and update: refused when the balance would drop below zero. */
  function Credit(w: Wallet, resource: string, amount: int): (r: Option<Wallet>)
    ensures r.None? <==> Balance(w, resource) + amount < 0
    ensures r.Some? ==> Balance(r.value, resource) == Balance(w, resource) + amount
    ensures r.Some? ==> forall k :: k != resource ==> (k in r.value <==> k in w) && Balance(r.value, k) == Balance(w, k)
    ensures r.Some? && Solvent(w) ==> Solvent(r.value)
  {
    var n := Balance(w, resource) + amount;
    if n < 0 then None else Some(w[resource := n])
  }

  /** A debit of a positive cost that went through is undone exactly by the refund. */
  lemma DebitThenRefund(w: Wallet, resource: string, cost: int)
    requires cost > 0 && Credit(w, resource, -cost).Some?
    ensures Credit(Credit(w, resource, -cost).value, resource, cost) == Some(w)
  {
    assert resource in w;
    var debited := w[resource := w[resource] - cost];
    assert Credit(w, resource, -cost) == Some(debited);
    assert debited[resource := w[resource]] == w;
    assert Credit(debited, resource, cost) == Some(debited[resource := w[resource]]);
  }

  /** The user table after `update_wallet(id, resource, amount)`: an unknown id
      changes nothing; a known user first gets a wallet if it had none, then
      the balance changes when it stays non-negative. */
  function UsersAfterUpdate(users: map<string, User>, id: string, resource: string, amount: int): (r: map<string, User>)
    ensures r.Keys == users.Keys
    ensures forall other :: other in users && other != id ==> r[other] == users[other]
    ensures id in users ==> r[id] == users[id].(wallet := r[id].wallet) && r[id].wallet.Some?
  {
    if id !in users then users
    else
      var u := users[id];
      var w := WalletOf(u);
      match Credit(w, resource, amount)
      case None => users[id := u.(wallet := Some(w))]
      case Some(w') => users[id := u.(wallet := Some(w'))]
  }

  /** What `update_wallet` returns: the new wallet, or None for `False`. */
  function UpdateResult(users: map<string, User>, id: string, resource: string, amount: int): (r: Option<Wallet>)
    ensures r.Some? <==> id in users && Balance(WalletOf(users[id]), resource) + amount >= 0
    ensures r.Some? ==> UsersAfterUpdate(users, id, resource, amount)[id].wallet == r
  {
    if id !in users then None else Credit(WalletOf(users[id]), resource, amount)
  }

  /** A refused update changes no balance: at most a missing wallet is initialised. */
  lemma RefusedUpdate(users: map<string, User>, id: string, resource: string, amount: int)
    requires UpdateResult(users, id, resource, amount).None?
    ensures forall u :: u in users ==>
      WalletOf(UsersAfterUpdate(users, id, resource, amount)[u]) == WalletOf(users[u])
  {
  }

  predicate AllSolvent(users: map<string, User>)
  {
    forall u :: u in users ==> Solvent(WalletOf(users[u]))
  }

  /** No wallet update makes a balance negative. */
  lemma UpdateKeepsSolvent(users: map<string, User>, id: string, resource: string, amount: int)
    requires AllSolvent(users)
    ensures AllSolvent(UsersAfterUpdate(users, id, resource, amount))
  {
    var r := UsersAfterUpdate(users, id, resource, amount);
    forall u | u in r ensures Solvent(WalletOf(r[u])) {
      if u == id {
        var c := Credit(WalletOf(users[id]), resource, amount);
        if c.Some? {
          assert WalletOf(r[u]) == c.value;
        }
      }
    }
  }

  /** A debit of a positive cost followed by its refund leaves every balance as
      it was (a record without a wallet ends with the starting wallet). */
  lemma DebitRefundRestores(users: map<string, User>, id: string, resource: string, cost: int)
    requires cost > 0 && UpdateResult(users, id, resource, -cost).Some?
    ensures var debited := UsersAfterUpdate(users, id, resource, -cost);
      UsersAfterUpdate(debited, id, resource, cost) == users[id := users[id].(wallet := Some(WalletOf(users[id])))]
  {
    DebitThenRefund(WalletOf(users[id]), resource, cost);
  }

  class UserManager {
    var users: map<string, User>

    constructor (stored: map<string, User>)
      ensures users == stored
    {
      users := stored;
    }

    /** `get_or_create_user`: the stored record, or a new one at (200, 200)
        with an empty wallet. */
    method GetOrCreateUser(id: string) returns (u: User)
      modifies this
      ensures id in users && u == users[id]
      ensures id in old(users) ==> users == old(users)
      ensures id !in old(users) ==> users == old(users)[id := NewUser(id)]
    {
      if id !in users {
        users := users[id := NewUser(id)];
      }
      u := users[id];
    }

    /** `update_user_position`: moves a known user; an unknown id is ignored. */
    method UpdateUserPosition(id: string, x: real, y: real)
      modifies this
      ensures users == if id in old(users) then old(users)[id := old(users)[id].(x := x, y := y)] else old(users)
    {
      if id in users {
        users := users[id := users[id].(x := x, y := y)];
      }
    }

    /** `update_wallet`. */
    method UpdateWallet(id: string, resource: string, amount: int) returns (result: Option<Wallet>)
      modifies this
      ensures users == UsersAfterUpdate(old(users), id, resource, amount)
      ensures result == UpdateResult(old(users), id, resource, amount)
    {
      if id !in users {
        return None;
      }
      var user := users[id];
      if user.wallet.None? {
        user := user.(wallet := Some(STARTING_WALLET));
        users := users[id := user];
      }
      var currentAmount := Balance(user.wallet.value, resource);
      var newAmount := currentAmount + amount;
      if newAmount < 0 {
        return None;
      }
      var wallet := user.wallet.value[resource := newAmount];
      users := users[id := user.(wallet := Some(wallet))];
      result := Some(wallet);
    }
  }
}
