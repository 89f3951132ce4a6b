/** The game server's message handling that changes state: moving a player,
    harvesting a resource and building from a recipe, each as one sequential
    step over the world state and the user table. Transport, JSON and the
    broadcasts are not modelled; a missing payload field is None. */
module Server {
  import opened Common
  import opened ServerWorld
  import opened UserManager
  import opened Recipes

  /** `determine_harvest_resource`: stone for any asset whose name contains
      "rock", wood otherwise. */
  function DetermineHarvestResource(asset: string): (r: string)
    ensures r == "stone" <==> Contains(asset, "rock")
    ensures r == "stone" || r == "wood"
  {
    if Contains(asset, "rock") then "stone" else "wood"
  }

  /** What harvesting yields for every asset the server creates: only the rock
      gives stone; trees, bushes, clay and the built stone path give wood. */
  lemma HarvestYields()
    ensures DetermineHarvestResource("rock") == "stone"
    ensures forall rule :: rule in GENERATION_RULES && rule.asset != "rock" ==> DetermineHarvestResource(rule.asset) == "wood"
    ensures DetermineHarvestResource("path_stone") == "wood"
  {
    assert Contains("rock", "rock");
    forall rule | rule in GENERATION_RULES && rule.asset != "rock"
      ensures DetermineHarvestResource(rule.asset) == "wood"
    {
      NotContainsWithoutChar(rule.asset, "rock", 3);
    }
    NotContainsWithoutChar("path_stone", "rock", 3);
  }

  /** PLAYER_MOVE: moves the player when both coordinates are present. */
  method HandleMove(um: UserManager, clientId: string, x: Option<real>, y: Option<real>)
    modifies um
    ensures x.None? || y.None? ==> um.users == old(um.users)
    ensures x.Some? && y.Some? && clientId in old(um.users) ==>
      um.users == old(um.users)[clientId := old(um.users)[clientId].(x := x.value, y := y.value)]
    ensures clientId !in old(um.users) ==> um.users == old(um.users)
  {
    if x.None? || y.None? {
      return;
    }
    um.UpdateUserPosition(clientId, x.value, y.value);
  }

  /** PLAYER_INTERACT: removes the resource of the cell and credits the player
      one unit of what it yields; an empty cell changes nothing. */
  method HandleInteract(gs: GameState, um: UserManager, clientId: string, x: Option<int>, y: Option<int>)
    returns (removed: Option<Resource>, wallet: Option<Wallet>)
    requires gs.Valid()
    modifies gs, um
    ensures gs.Valid()
    ensures x.None? || y.None? ==> removed.None?
    ensures x.Some? && y.Some? ==> removed == old(gs.ResourceAt(x.value, y.value))
    ensures removed.None? ==>
      gs.resources == old(gs.resources) && gs.spatialIndex == old(gs.spatialIndex) && um.users == old(um.users)
    ensures removed.Some? ==>
      && gs.resources == RemoveFirst(old(gs.resources), removed.value)
      && gs.ResourceAt(x.value, y.value).None?
      && um.users == UsersAfterUpdate(old(um.users), clientId, DetermineHarvestResource(removed.value.asset), 1)
      && wallet == UpdateResult(old(um.users), clientId, DetermineHarvestResource(removed.value.asset), 1)
  {
    wallet := None;
    if x.None? || y.None? {
      return None, None;
    }
    removed := gs.RemoveResourceAt(x.value, y.value);
    if removed.Some? {
      var gainType := DetermineHarvestResource(removed.value.asset);
      wallet := um.UpdateWallet(clientId, gainType, 1);
    }
  }

  /** The answer of PLAYER_BUILD. */
  datatype BuildOutcome =
    | Skipped
    | UnknownRecipe
    | InsufficientFunds
    | CellOccupied(refunded: Wallet)
    | Placed(resource: Resource, wallet: Wallet)

  /** PLAYER_BUILD: validates the payload and looks up the recipe, then
      charges and places. */
  method HandleBuild(gs: GameState, um: UserManager, clientId: string, x: Option<int>, y: Option<int>,
                     itemId: Option<string>, now: nat)
    returns (outcome: BuildOutcome)
    requires gs.Valid()
    modifies gs, um
    ensures gs.Valid()
    ensures outcome.Skipped? <==> x.None? || y.None? || itemId.None? || itemId.value == ""
    ensures !outcome.Skipped? ==> (outcome.UnknownRecipe? <==> GetRecipe(itemId.value).None?)
    ensures outcome.Skipped? || outcome.UnknownRecipe? ==>
      gs.resources == old(gs.resources) && gs.spatialIndex == old(gs.spatialIndex) && um.users == old(um.users)
    ensures !outcome.Skipped? && !outcome.UnknownRecipe? ==>
      Built(old(gs.resources), old(gs.spatialIndex), old(um.users), gs.resources, gs.spatialIndex, um.users,
            clientId, x.value, y.value, GetRecipe(itemId.value).value, outcome)
  {
    if x.None? || y.None? || itemId.None? || itemId.value == "" {
      return Skipped;
    }
    var recipe := GetRecipe(itemId.value);
    if recipe.None? {
      return UnknownRecipe;
    }
    outcome := Build(gs, um, clientId, x.value, y.value, recipe.value, now);
  }

  /** The outcome of charging for a recipe and placing it at (x, y), relating the
      world and the user table before and after:
      - insufficient funds (or an unknown player): the world is unchanged and no balance moves;
      - cell occupied: the world is unchanged and the wallet is back to its value before the build;
      - placed: the cell was free, exactly one resource of the recipe's asset is appended at (x, y),
        and the wallet is charged the cost. */
  ghost predicate Built(resources0: seq<Resource>, index0: map<(int, int), Resource>, users0: map<string, User>,
                        resources: seq<Resource>, index: map<(int, int), Resource>, users: map<string, User>,
                        clientId: string, x: int, y: int, recipe: Recipe, outcome: BuildOutcome)
    requires |recipe.cost| >= 1
  {
    var (resource, cost) := recipe.cost[0];
    && (outcome.InsufficientFunds? || outcome.CellOccupied? || outcome.Placed?)
    && (outcome.InsufficientFunds? <==> UpdateResult(users0, clientId, resource, -cost).None?)
    && (outcome.InsufficientFunds? ==>
      && resources == resources0 && index == index0
      && users == UsersAfterUpdate(users0, clientId, resource, -cost)
      && forall u :: u in users0 ==> WalletOf(users[u]) == WalletOf(users0[u]))
    && (outcome.CellOccupied? ==>
      && (x, y) in index0
      && resources == resources0 && index == index0
      && clientId in users0
      && users == users0[clientId := users0[clientId].(wallet := Some(WalletOf(users0[clientId])))]
      && outcome.refunded == WalletOf(users0[clientId]))
    && (outcome.Placed? ==>
      && (x, y) !in index0
      && resources == resources0 + [outcome.resource]
      && outcome.resource.x == x && outcome.resource.y == y && outcome.resource.asset == recipe.asset
      && users == UsersAfterUpdate(users0, clientId, resource, -cost)
      && Some(outcome.wallet) == UpdateResult(users0, clientId, resource, -cost))
  }

  lemma BuiltRefused(resources0: seq<Resource>, index0: map<(int, int), Resource>, users0: map<string, User>,
                     users: map<string, User>, clientId: string, x: int, y: int, recipe: Recipe)
    requires |recipe.cost| >= 1
    requires UpdateResult(users0, clientId, recipe.cost[0].0, -recipe.cost[0].1).None?
    requires users == UsersAfterUpdate(users0, clientId, recipe.cost[0].0, -recipe.cost[0].1)
    ensures Built(resources0, index0, users0, resources0, index0, users, clientId, x, y, recipe, InsufficientFunds)
  {
    RefusedUpdate(users0, clientId, recipe.cost[0].0, -recipe.cost[0].1);
  }

  lemma BuiltOccupied(resources0: seq<Resource>, index0: map<(int, int), Resource>, users0: map<string, User>,
                      users: map<string, User>, clientId: string, x: int, y: int, recipe: Recipe)
    requires |recipe.cost| >= 1 && recipe.cost[0].1 > 0 && (x, y) in index0
    requires UpdateResult(users0, clientId, recipe.cost[0].0, -recipe.cost[0].1).Some?
    requires users == UsersAfterUpdate(UsersAfterUpdate(users0, clientId, recipe.cost[0].0, -recipe.cost[0].1),
                                       clientId, recipe.cost[0].0, recipe.cost[0].1)
    ensures clientId in users
    ensures Built(resources0, index0, users0, resources0, index0, users, clientId, x, y, recipe, CellOccupied(WalletOf(users[clientId])))
  {
    DebitRefundRestores(users0, clientId, recipe.cost[0].0, recipe.cost[0].1);
  }

  lemma BuiltPlaced(resources0: seq<Resource>, index0: map<(int, int), Resource>, users0: map<string, User>,
                    users: map<string, User>, clientId: string, x: int, y: int, recipe: Recipe, created: Resource, wallet: Wallet)
    requires |recipe.cost| >= 1 && (x, y) !in index0
    requires Some(wallet) == UpdateResult(users0, clientId, recipe.cost[0].0, -recipe.cost[0].1)
    requires users == UsersAfterUpdate(users0, clientId, recipe.cost[0].0, -recipe.cost[0].1)
    requires created.x == x && created.y == y && created.asset == recipe.asset
    ensures Built(resources0, index0, users0, resources0 + [created], index0[(x, y) := created], users,
                  clientId, x, y, recipe, Placed(created, wallet))
  {
  }

  /** Steps 1 to 3 of PLAYER_BUILD: debit the first cost entry, then place. */
  method Build(gs: GameState, um: UserManager, clientId: string, x: int, y: int, recipe: Recipe, now: nat)
    returns (outcome: BuildOutcome)
    requires gs.Valid()
    requires |recipe.cost| >= 1 && recipe.cost[0].1 > 0
    modifies gs, um
    ensures gs.Valid()
    ensures Built(old(gs.resources), old(gs.spatialIndex), old(um.users), gs.resources, gs.spatialIndex, um.users,
                  clientId, x, y, recipe, outcome)
  {
    var resourceType := recipe.cost[0].0;
    var costAmount := recipe.cost[0].1;
    var wallet := um.UpdateWallet(clientId, resourceType, -costAmount);
    if wallet.None? {
      BuiltRefused(gs.resources, gs.spatialIndex, old(um.users), um.users, clientId, x, y, recipe);
      return InsufficientFunds;
    }
    outcome := PlaceOrRefund(gs, um, clientId, x, y, recipe, now, wallet.value, old(um.users));
  }

  /** Steps 2 and 3 of PLAYER_BUILD, after a successful debit from `users0`:
      place the resource, or refund the debit when the cell is taken. */
  method PlaceOrRefund(gs: GameState, um: UserManager, clientId: string, x: int, y: int, recipe: Recipe, now: nat,
                       wallet: Wallet, ghost users0: map<string, User>)
    returns (outcome: BuildOutcome)
    requires gs.Valid()
    requires |recipe.cost| >= 1 && recipe.cost[0].1 > 0
    requires Some(wallet) == UpdateResult(users0, clientId, recipe.cost[0].0, -recipe.cost[0].1)
    requires um.users == UsersAfterUpdate(users0, clientId, recipe.cost[0].0, -recipe.cost[0].1)
    modifies gs, um
    ensures gs.Valid()
    ensures Built(old(gs.resources), old(gs.spatialIndex), users0, gs.resources, gs.spatialIndex, um.users,
                  clientId, x, y, recipe, outcome)
  {
    var resourceType := recipe.cost[0].0;
    var costAmount := recipe.cost[0].1;
    var newRes := gs.AddResource(recipe.asset, recipe.kind, x, y, now);
    if newRes.None? {
      var _ := um.UpdateWallet(clientId, resourceType, costAmount);
      BuiltOccupied(gs.resources, gs.spatialIndex, users0, um.users, clientId, x, y, recipe);
      var user := um.GetOrCreateUser(clientId);
      return CellOccupied(WalletOf(user));
    }
    BuiltPlaced(old(gs.resources), old(gs.spatialIndex), users0, um.users, clientId, x, y, recipe, newRes.value, wallet);
    return Placed(newRes.value, wallet);
  }
}
