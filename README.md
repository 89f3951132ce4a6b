# Haven — a verified model of the game's world and state logic

Haven is a small multiplayer isometric game. A Python server keeps the
authoritative world (a 100x100 grid of harvestable resources, generated once
from a seed), the players' positions and their wallets, and it answers three
messages: move, harvest and build. A TypeScript client (Phaser scenes and Pinia
stores) generates its own terrain, converts between grid and screen
coordinates, tracks the pointer, and mirrors the server's objects and the
other players.

This project models that core in Dafny and proves what each piece promises.

Server side:
- `ServerWorld` models `backend/gamestate.py`. World generation is the cascade
  of five generation rules over a per-cell roll. The resource list and the
  spatial index agree after generation, removal and addition.
- `UserManager` models `backend/usermanager.py`: the user table and wallet
  updates that never go negative.
- `Recipes` models `backend/recipes.py`.
- `Server` models the PLAYER_MOVE, PLAYER_INTERACT and PLAYER_BUILD branches
  of `backend/main.py`. A build either refuses, refunds on a taken cell, or
  charges once and places once.
- `PerlinPy` models `backend/perlin.py`: the LCG-seeded Fisher–Yates table.

Client side:
- `PerlinTs` models `game/utils/Perlin.ts`.
- `NoiseTable` holds the shuffle, the doubled table, the gradient, fade and
  lerp that the two noise ports share.
- `MapManager` models the lake placement and the map's final cell types
  (`game/managers/MapManager.ts`).
- `PathfindingManager` models the walkability grid.
- `ObjectManager` models the object map keyed by `"x,y"`.
- `IsoMath` models grid-to-screen and screen-to-grid conversion.
- `InputManager` models drag detection, click and resource-click dispatch, and
  zoom.
- `Ambiance` models `multiplyColors`.
- `ItemRegistry` models the item table and its lookup.
- The Pinia stores are modelled as classes: `WorldStore`, `ChatStore`,
  `BuildStore` and `PlayerStore`.

Modelling conventions:
- Randomness is an input. The server's `random.Random(seed)` stream becomes a
  roll per cell; each cell outside the protected zones draws exactly once, in
  row-major order. The client's `Math.random` and Phaser RNG calls become
  explicit draws.
- Floating-point numbers are `real`.
- Integer bit masks are written as arithmetic: `& 255` is `% 256`, `>> k` is a
  floor division.
- JavaScript's truncating `%` is written out as `JsRem`.
- `int(time.time())` is a `now` parameter.

## Model

| member | source | states |
|---|---|---|
| ServerWorld.InSafeZone | backend/gamestate.py:48-51 | the spawn square lies inside the map |
| ServerWorld.InHouse | backend/gamestate.py:54-57 | the house lies inside the map and does not meet the spawn square |
| ServerWorld.ZoneEdges | backend/gamestate.py:48-57 | the safe zone includes both ends 0 and 12 on each axis; the house is half-open, [15, 21) on each axis |
| ServerWorld.RuleBands | backend/gamestate.py:33-39 | the cumulative cascade picks tree below 0.10, rock below 0.15, cotton_bush below 0.19, clay_node below 0.22 and apple_tree below 0.24; it picks nothing exactly when the roll is at least 0.24 |
| ServerWorld.DrawRule | backend/gamestate.py:86-103 | the loop over the rules with a running total returns the first rule whose total exceeds the roll, which is `RuleFor(roll)` |
| ServerWorld.GenerationStep | backend/gamestate.py:92-93 | when a cell is visited its position is not yet occupied, so the `occupied` check never rejects a resource |
| ServerWorld.GenerateRow | backend/gamestate.py:79-103 | one pass over a row appends exactly that row's resources; the occupied set stays the set of listed cells |
| ServerWorld.VisitCell | backend/gamestate.py:81-103 | one visit of a free cell appends exactly that cell's resource, or nothing on a protected cell or a roll of at least 0.24, and marks only that cell occupied |
| ServerWorld.GenerateWorld | backend/gamestate.py:60-106 | the nested loops produce exactly `World(roll)` |
| ServerWorld.WorldMember | backend/gamestate.py:78-103 | a resource is in the generated world iff it sits inside the map, outside the safe zone and the house, and the cell's roll picks a rule with that asset and the id `asset_x_y` |
| ServerWorld.WorldAt | backend/gamestate.py:81-103 | a cell carries a resource iff its roll picks a rule and the cell is not protected |
| ServerWorld.WorldWellFormed | backend/gamestate.py:78-103 | every generated resource is outside the protected zones, has id `asset_x_y` and a generation asset; the list is in strict row-major order, so there is at most one resource per cell |
| ServerWorld.WorldIndexed | backend/gamestate.py:113-118 | the spatial index built from the generated list maps every listed cell to its resource and nothing else |
| ServerWorld.IndexOfMirrors | backend/gamestate.py:116-118 | for any list with distinct cells, the dict comprehension mirrors the list |
| ServerWorld.RemoveFirst | backend/gamestate.py:141 | `list.remove(v)` takes exactly one copy of v out of the multiset of the list; when v is absent, the list is unchanged, which is the `ValueError` branch that is ignored |
| ServerWorld.RemoveFirstAt | backend/gamestate.py:141 | `list.remove` of an element at position i drops exactly position i |
| ServerWorld.CellsRemoveAt | backend/gamestate.py:138-143 | removing a resource frees exactly its cell and keeps the cells distinct |
| ServerWorld.RemovePreservesMirrors | backend/gamestate.py:138-144 | popping a key from the index and removing its resource from the list keep them in agreement; the list is one shorter and no longer holds it |
| ServerWorld.AddPreservesMirrors | backend/gamestate.py:165-166 | appending a resource on a free cell and indexing it keep list and index in agreement |
| ServerWorld.GameState.constructor | backend/gamestate.py:110-118 | the state holds the generated world and an index that mirrors it |
| ServerWorld.GameState.ResourceAt | backend/gamestate.py:126-128 | returns a listed resource at (x, y), or None when no listed resource is there |
| ServerWorld.GameState.RemoveResourceAt | backend/gamestate.py:132-144 | returns the resource previously at (x, y); None changes nothing; otherwise the resource leaves the list and the index, and the cell is free |
| ServerWorld.GameState.AddResource | backend/gamestate.py:146-167 | None iff the cell is occupied, with the state unchanged; otherwise a resource with id `asset_x_y_now` is appended and indexed at (x, y) |
| NoiseTable.Shuffle | backend/perlin.py:31-36 | the table after the swaps keeps its length; ShufflePermutes proves it is a permutation |
| NoiseTable.SwapPermutes | backend/perlin.py:36 | exchanging two entries keeps the multiset of the table |
| NoiseTable.ShufflePermutes | backend/perlin.py:31-36 | the Fisher–Yates loop, for any draws with j <= i, yields a permutation of its input |
| NoiseTable.PermutationValues | backend/perlin.py:29 | a permutation of 0..255 holds each value 0..255 exactly once and nothing else |
| NoiseTable.DoubledPermutation | backend/perlin.py:38 | the 512-entry table repeats the shuffled table twice: `perm[i] == perm[i + 256] == p[i]`, with all values in 0..255 |
| NoiseTable.ShuffledTable | game/utils/Perlin.ts:13-29 | for valid draws the client's table is a permutation, and the doubled table is a valid lookup table |
| NoiseTable.Cell | backend/perlin.py:42-43 | `floor(x) & 255` is in 0..255 for every real x, negative ones included |
| NoiseTable.SecondIndices | backend/perlin.py:51-52 | `A`, `B`, `A + 1` and `B + 1` all index inside the 512-entry table |
| NoiseTable.CornerHashes | backend/perlin.py:54-57 | the four corner hashes are table values in 0..255 |
| NoiseTable.Fade | game/utils/Perlin.ts:68-70 | the fade curve maps 0 to 0 and 1 to 1 |
| NoiseTable.FadeSymmetric | backend/perlin.py:60-61 | fade(1 - t) == 1 - fade(t) |
| NoiseTable.Lerp | backend/perlin.py:63-64 | lerp at t = 0 is a and at t = 1 is b |
| NoiseTable.LerpBetween | game/utils/Perlin.ts:72-74 | for t in [0, 1] and a <= b the interpolation lies between a and b |
| PerlinPy.LcgNext | backend/perlin.py:32 | the LCG step stays in [0, 2^32) and is congruent to `state * 1664525 + 1013904223` modulo 2^32 |
| PerlinPy.SwapIndex | backend/perlin.py:33-34 | the drawn swap index lies in 0..i |
| PerlinPy.SwapIndexIsFloor | backend/perlin.py:33-34 | the integer computation equals `floor(state / 2^32 * (i + 1))` |
| PerlinPy.Draws | backend/perlin.py:31-34 | 255 draws, each a valid Fisher–Yates index |
| PerlinPy.SeededTable | backend/perlin.py:22-38 | for every seed, the table is a permutation of 0..255, doubled with period 256 |
| PerlinPy.Grad | backend/perlin.py:66-75 | the gradient contribution is bounded by \|x\| + \|y\| |
| PerlinPy.GradIsDot | backend/perlin.py:66-75 | `_grad` equals the dot product of the position with the gradient picked by `hash & 15` |
| PerlinPy.ShuffleInPlace | backend/perlin.py:28-36 | the in-place loop on the array leaves exactly `Shuffled(seed)` |
| PerlinPy.Perlin.constructor | backend/perlin.py:22-38 | `perm` is the doubled seeded shuffle |
| PerlinPy.Perlin.NoiseHashes | backend/perlin.py:40-57 | every table lookup of `noise` reads a value in 0..255 |
| PerlinTs.Picks | game/utils/Perlin.ts:16-17 | `Math.floor(realInRange(0, i + 1))` is a valid swap index when each draw lies in [0, i + 1) |
| PerlinTs.At | game/utils/Perlin.ts:43-55 | an array read is defined iff the index is in range |
| PerlinTs.FallbacksUnreachable | game/utils/Perlin.ts:43-60 | on a well-formed table every lookup of `noise` is defined, so the `?? 0` fallbacks never apply |
| PerlinTs.Grad | game/utils/Perlin.ts:76-81 | the gradient contribution is bounded by \|x\| + \|y\| |
| PerlinTs.GradPortsAgree | game/utils/Perlin.ts:76-81 | the client's `grad` equals the server's `_grad` on every input |
| PerlinTs.ShuffleInPlace | game/utils/Perlin.ts:13-22 | the in-place loop leaves the shuffle of the identity by the picked indices |
| PerlinTs.Perlin.constructor | game/utils/Perlin.ts:4-6 | the table is initialised from the draws |
| PerlinTs.Perlin.Init | game/utils/Perlin.ts:11-30 | `perm` becomes the doubled shuffled table, built by the 512-step loop |
| PerlinTs.Perlin.NoiseHashes | game/utils/Perlin.ts:32-60 | the lookups of `noise` are the four corner hashes |
| MapManager.IsInsideHouse | game/managers/MapManager.ts:172-179 | a house cell lies inside the map, inside the widened house that lakes avoid, and outside the start area |
| MapManager.HouseAgreesWithServer | game/managers/MapManager.ts:172-179 | the client's `isInsideHouse` and the server's `_is_in_house` agree on every cell |
| MapManager.DisjointCells | game/managers/MapManager.ts:89-90 | a lake rectangle that does not overlap a protected rectangle shares no cell with it |
| MapManager.LakeInBounds | game/managers/MapManager.ts:71-73 | every cell of a drawn lake lies in 1..98, so the row lookup always succeeds |
| MapManager.PlacedLakes | game/managers/MapManager.ts:70-117 | each accepted lake is one of the draws and clears the house margin and the start area; no two accepted lakes have centres closer than 30 |
| MapManager.CoveredCellSafe | game/managers/MapManager.ts:76-115 | a water cell is inside the map border and outside the house margin, the house and the start area |
| MapManager.FinalCell | game/managers/MapManager.ts:128-145 | house cells become empty; outside the house a non-empty cell keeps its type; an empty cell other than (0, 0) turns into an obstacle iff its draw is below 0.15 |
| MapManager.GeneratedMapFacts | game/managers/MapManager.ts:42-46 | in the generated map the house and (0, 0) are empty, the start area has no water, and every cell is empty, obstacle or water |
| MapManager.MapManager.constructor | game/managers/MapManager.ts:14 | the grid starts empty |
| MapManager.MapManager.Generate | game/managers/MapManager.ts:42-46 | the grid is 100x100 and every cell is `GeneratedCell(draws, roll, x, y)` |
| MapManager.MapManager.InitGrid | game/managers/MapManager.ts:51-60 | a fresh 100x100 grid of zeros |
| MapManager.MapManager.PlaceLakes | game/managers/MapManager.ts:65-118 | after the attempts, a cell is water iff one of the accepted lakes covers it |
| MapManager.MapManager.StampLake | game/managers/MapManager.ts:108-115 | the lake's square becomes water and every other cell is unchanged |
| MapManager.MapManager.FinalizeMap | game/managers/MapManager.ts:123-167 | every cell becomes `FinalCell` of its previous type |
| MapManager.MapManager.FinalizeRow | game/managers/MapManager.ts:127-137 | one row is finalised and the other rows are untouched |
| MapManager.MapManager.UpdateCell | game/managers/MapManager.ts:184-188 | an in-range cell takes the new type and every other cell keeps its value |
| PathfindingManager.PathfindingManager.constructor | game/managers/PathfindingManager.ts:12-16 | the manager holds the given grid |
| PathfindingManager.PathfindingManager.IsTileWalkable | game/managers/PathfindingManager.ts:62-67 | walkable iff the cell exists and is 0; out-of-range cells are never walkable |
| PathfindingManager.PathfindingManager.SetTileWalkable | game/managers/PathfindingManager.ts:72-77 | an existing cell becomes 0 or 1 as asked and every other cell is unchanged; a missing cell changes nothing |
| PathfindingManager.PathfindingManager.UpdateGrid | game/managers/PathfindingManager.ts:54-57 | the manager now reads the given grid |
| ObjectManager.KeyShape | game/managers/ObjectManager.ts:38 | the `"x,y"` key holds exactly one comma, and otherwise only digits and minus signs |
| ObjectManager.KeyInjective | game/managers/ObjectManager.ts:38 | distinct cells have distinct keys, so objects at different cells never collide |
| ObjectManager.ObjectManager.constructor | game/managers/ObjectManager.ts:13-16 | the object map starts empty |
| ObjectManager.ObjectManager.PlaceObject | game/managers/ObjectManager.ts:21-40 | the image at (x, y) is the new one, and the object at every other cell is unchanged |
| ObjectManager.ObjectManager.GetObject | game/managers/ObjectManager.ts:45-47 | Some iff the cell's key is in the map, with the stored image |
| ObjectManager.ObjectManager.RemoveObject | game/managers/ObjectManager.ts:52-59 | the cell has no object afterwards, other cells are unchanged, and a missing key changes nothing |
| ObjectManager.ObjectManager.HasObject | game/managers/ObjectManager.ts:64-66 | true iff `getObject` finds an image at the cell |
| ObjectManager.ObjectManager.Clear | game/managers/ObjectManager.ts:71-74 | no cell has an object afterwards |
| IsoMath.GridToIso | game/utils/IsoMath.ts:11-19 | screen x is `originX + (x - y) * 32` and screen y is `originY + (x + y) * 18.5` |
| IsoMath.Round | game/utils/IsoMath.ts:34-35 | `Math.round(v)` is the integer n with n - 0.5 <= v < n + 0.5 |
| IsoMath.RoundUnique | game/utils/IsoMath.ts:34-35 | that integer is unique |
| IsoMath.IsoToGrid | game/utils/IsoMath.ts:22-37 | each coordinate of the cell is the nearest integer, halves rounded up, to the unrounded inverse |
| IsoMath.ExactRoundTrip | game/utils/IsoMath.ts:22-31 | the unrounded inverse formula recovers any real grid point from its screen point |
| IsoMath.CellRoundTrip | game/utils/IsoMath.ts:11-37 | `isoToGrid(gridToIso(cell))` is the cell, for every integer cell and origin |
| IsoMath.Translation | game/utils/IsoMath.ts:11-37 | moving the origin moves every screen point by the same offset, and moving the origin and the point together does not change the cell |
| IsoMath.UnitSteps | game/utils/IsoMath.ts:12-13 | one step along grid x moves (32, 18.5) on screen, and one step along grid y moves (-32, 18.5) |
| IsoMath.DebugPoints | game/utils/IsoMath.ts:40-51 | four points |
| IsoMath.DebugPointsOutlineCell | game/utils/IsoMath.ts:40-51 | the four points are the screen offsets of the cell's corners half a cell away: top, right, bottom, left |
| WorldStore.JsRem | stores/world.ts:62 | JavaScript `%` agrees with the mathematical remainder for a non-negative dividend; for a negative one it lies in (-b, 0]; in both cases a - r is a multiple of b, which fixes the value |
| WorldStore.Tick | stores/world.ts:59-64 | from a time of day and a non-negative amount the result is again a time of day congruent to time + amount; below a day it is the plain sum |
| WorldStore.Hours | stores/world.ts:46 | the hour of a time of day lies in 0..23 |
| WorldStore.Minutes | stores/world.ts:47 | the minute lies in 0..59, and 60 * hours + minutes is the time |
| WorldStore.PadStart2 | stores/world.ts:49-50 | the result has at least two characters and ends with the input; any added prefix is all '0'; a string of two or more characters is unchanged |
| WorldStore.TwoDigits | stores/world.ts:49-50 | a padded number below 100 is its two decimal digits |
| WorldStore.FormattedTime | stores/world.ts:48-52 | the text has at least five characters; FormattedTimeReadsBack proves it is exactly `HH:MM` within a day |
| WorldStore.FormattedTimeReadsBack | stores/world.ts:48-52 | the formatted time is `HH:MM`; reading back its digits gives the hours and minutes, hence the time |
| WorldStore.IsNight | stores/world.ts:53-56 | night iff the time is before 06:00 or from 20:00 on |
| WorldStore.WithoutId | stores/world.ts:126 | the filter keeps exactly the objects whose id differs |
| WorldStore.WithoutIdAppend | stores/world.ts:126 | the filter distributes over concatenation |
| WorldStore.WithoutAbsentId | stores/world.ts:126 | filtering an absent id leaves the list unchanged |
| WorldStore.WithoutIdUnique | stores/world.ts:125-127 | filtering keeps ids unique |
| WorldStore.EntryPlayer | stores/world.ts:134-137 | an entry keeps its id; a bare-string entry is placed at (10, 10) |
| WorldStore.PlayersMap | stores/world.ts:132-138 | every stored record carries its own key as id, and the last entry is stored under its id as `EntryPlayer` gives it |
| WorldStore.PlayersMapKeys | stores/world.ts:131-139 | the map's keys are exactly the ids of the list, each mapping to a player with that id |
| WorldStore.PlayersMapLast | stores/world.ts:131-139 | on duplicate ids the last entry wins |
| WorldStore.WorldStore.constructor | stores/world.ts:38-44 | the clock starts at 480 (08:00); the map is not loaded; no objects and no players |
| WorldStore.WorldStore.TickTime | stores/world.ts:59-64 | the time advances and wraps as `Tick`; the rest is unchanged |
| WorldStore.WorldStore.SetMapLoaded | stores/world.ts:66-68 | only the loaded flag changes |
| WorldStore.WorldStore.LoadWorldState | stores/world.ts:102-109 | the objects are replaced when the payload has a resource list, and are otherwise kept |
| WorldStore.WorldStore.AddServerObject | stores/world.ts:114-120 | the object is appended unless its id is already present; ids stay unique, and the id is present afterwards |
| WorldStore.WorldStore.RemoveServerObject | stores/world.ts:125-127 | every object with the id is removed, and uniqueness is preserved |
| WorldStore.WorldStore.SetOtherPlayers | stores/world.ts:131-139 | the players map is rebuilt from the list |
| WorldStore.WorldStore.AddOtherPlayer | stores/world.ts:141-143 | the player is set at (x, y); other players are unchanged |
| WorldStore.WorldStore.RemoveOtherPlayer | stores/world.ts:145-147 | exactly that key is deleted |
| WorldStore.WorldStore.MoveOtherPlayer | stores/world.ts:149-156 | known or not, the player ends up at (x, y), and the others are unchanged |
| UserManager.Credit | backend/usermanager.py:55-61 | refused iff the new balance would be negative; otherwise only that resource changes, by the amount; solvent wallets stay solvent |
| UserManager.DebitThenRefund | backend/usermanager.py:55-61 | a successful debit followed by a refund of the same amount restores the wallet |
| UserManager.UsersAfterUpdate | backend/usermanager.py:46-63 | the table keeps its keys; only the user's wallet can change |
| UserManager.UpdateResult | backend/usermanager.py:46-63 | a wallet is returned iff the user exists and the new balance is not negative; it is the stored wallet |
| UserManager.RefusedUpdate | backend/usermanager.py:48-59 | a refused update leaves every balance unchanged |
| UserManager.UpdateKeepsSolvent | backend/usermanager.py:55-61 | if every wallet is solvent before an update, every wallet is solvent after it |
| UserManager.DebitRefundRestores | backend/usermanager.py:46-63 | a successful debit followed by the refund restores every balance of the table |
| UserManager.NewUser | backend/usermanager.py:31-36 | a new user has the given id and a solvent wallet with 0 wood and 0 stone |
| UserManager.UserManager.constructor | backend/usermanager.py:9-12 | the table is the stored one |
| UserManager.UserManager.GetOrCreateUser | backend/usermanager.py:29-38 | a known user is returned unchanged; an unknown one is created at (200, 200) with 0 wood and 0 stone |
| UserManager.UserManager.UpdateUserPosition | backend/usermanager.py:40-44 | a known user moves to (x, y); an unknown user changes nothing |
| UserManager.UserManager.UpdateWallet | backend/usermanager.py:46-63 | the table becomes `UsersAfterUpdate` and the result is `UpdateResult` |
| Recipes.GetRecipe | backend/recipes.py:11-32 | exactly tree, rock and path_stone have recipes; each has its own id as asset and a single positive cost; path_stone is the floor and the others are obstacles |
| Server.DetermineHarvestResource | backend/main.py:103-107 | stone iff the asset name contains "rock", otherwise wood |
| Server.HarvestYields | backend/main.py:103-107 | the rock gives stone; every other generated asset gives wood, and so does a built path_stone |
| Server.HandleMove | backend/main.py:138-151 | with both coordinates present, a known player moves; otherwise nothing changes |
| Server.HandleInteract | backend/main.py:154-179 | the resource at the cell is removed and the player is credited one unit of its yield; an empty cell or a missing coordinate changes nothing |
| Server.HandleBuild | backend/main.py:182-242 | skipped iff a coordinate or the item id is missing or empty; unknown recipes change nothing; otherwise `Built` holds |
| Server.BuiltRefused | backend/main.py:204-210 | a refused charge leaves the world and all balances unchanged |
| Server.BuiltOccupied | backend/main.py:213-232 | on an occupied cell the refund restores the wallet and the world is unchanged |
| Server.BuiltPlaced | backend/main.py:212-242 | a successful placement appends one resource of the recipe's asset at a previously free cell and charges the cost once |
| Server.Build | backend/main.py:198-242 | charge, then place or refund: the outcome satisfies `Built` |
| Server.PlaceOrRefund | backend/main.py:212-242 | after a successful charge, the resource is placed or the cost is refunded |
| ChatStore.Appended | stores/chat.ts:17-23 | the history grows by one below 50 and keeps its length from 50 on; it is a suffix of the pushed history and ends with the new message |
| ChatStore.AppendedBounded | stores/chat.ts:19-22 | a history within 50 stays within 50 |
| ChatStore.AppendedKeepsOrder | stores/chat.ts:18-22 | below the cap, earlier messages stay; at the cap, the oldest is dropped and the rest keep their order |
| ChatStore.AppendedAllIsLastMessages | stores/chat.ts:17-23 | from an empty history the store holds exactly the last min(n, 50) messages received, in order |
| ChatStore.ChatStore.constructor | stores/chat.ts:13-15 | the history starts empty |
| ChatStore.ChatStore.AddMessage | stores/chat.ts:17-23 | the history becomes `Appended`, and the cap is kept |
| ChatStore.ChatStore.SendMessage | stores/chat.ts:24-28 | a PLAYER_CHAT message carrying only the text goes out, and the history is unchanged |
| BuildStore.BuildStore.constructor | stores/build.ts:5-8 | the cursor is selected and build mode is off |
| BuildStore.BuildStore.SelectItem | stores/build.ts:10-13 | the item is selected, and build mode is on iff it is not the cursor |
| BuildStore.BuildStore.ToggleBuildMode | stores/build.ts:14-19 | leaving build mode selects the cursor; outside build mode nothing changes |
| PlayerStore.PlayerStore.constructor | stores/player.ts:5-19 | "Voyageur", colour 0xe11d48, at (0, 0), level 1, no experience, empty inventory |
| PlayerStore.PlayerStore.Move | stores/player.ts:22-24 | only the position changes, to (x, y) |
| PlayerStore.PlayerStore.LevelUp | stores/player.ts:26-28 | only the level changes, by one |
| PlayerStore.PlayerStore.ChangeColor | stores/player.ts:30-32 | only the colour changes |
| PlayerStore.PlayerStore.AddItem | stores/player.ts:34-36 | the item is appended; earlier items and the rest are unchanged |
| Ambiance.Channel | game/managers/AmbianceManager.ts:221-227 | a channel is in 0..255 |
| Ambiance.Pack | game/managers/AmbianceManager.ts:233 | packing three channels gives a 24-bit colour |
| Ambiance.ChannelsOfPack | game/managers/AmbianceManager.ts:233 | reading back the channels of a packed colour gives the channels |
| Ambiance.PackOfChannels | game/managers/AmbianceManager.ts:221-233 | packing the channels of a 24-bit colour gives the colour |
| Ambiance.Blend | game/managers/AmbianceManager.ts:229-231 | the blended channel is in 0..255 and never above either input |
| Ambiance.MultiplyColors | game/managers/AmbianceManager.ts:220-234 | the result is a 24-bit colour whose channels are the blends of the input channels |
| Ambiance.MultiplyCommutes | game/managers/AmbianceManager.ts:220-234 | the blend is symmetric in its two colours |
| Ambiance.MultiplyByWhite | game/managers/AmbianceManager.ts:220-234 | white leaves a 24-bit colour unchanged |
| Ambiance.MultiplyByBlack | game/managers/AmbianceManager.ts:220-234 | black gives black |
| Ambiance.ChannelLow24 | game/managers/AmbianceManager.ts:221-227 | a channel only depends on the low 24 bits of the colour |
| Ambiance.MultiplyLow24 | game/managers/AmbianceManager.ts:220-234 | the blend only depends on the low 24 bits of each input |
| ItemRegistry.RegistryWellFormed | game/config/ItemRegistry.ts:15-114 | every entry is filed under its own id; tools go in the main hand; only tools have a tool type; equipment has a slot |
| ItemRegistry.GetItemData | game/config/ItemRegistry.ts:119-121 | Some iff the key is registered, with the registered entry, which is well formed |
| InputManager.DragThresholdExamples | game/managers/InputManager.ts:64-69 | releasing at the press point is never a drag; a release 6 pixels away always is |
| InputManager.ResourceEvent | game/managers/InputManager.ts:125-130 | the resource-clicked event carries the object's server id, type and grid position |
| InputManager.ZoomAfter | game/managers/InputManager.ts:170-183 | wheel down zooms out by 0.1, clamped at 0.5; otherwise zooms in by 0.1, clamped at 2.0; a zoom within [0.5, 2] stays within it |
| InputManager.ZoomStepsCancel | game/managers/InputManager.ts:170-183 | away from the bounds, one step in and one step out cancel |
| InputManager.ClickEvent | game/managers/InputManager.ts:139-155 | a right click emits tile-interact and any other click emits tile-clicked, at the cell `isoToGrid` gives for the world point |
| InputManager.ClickOnCellCentre | game/managers/InputManager.ts:139-141 | a click at the screen position of a cell names that cell |
| InputManager.InputManager.constructor | game/managers/InputManager.ts:27-46 | not dragging, drag start (0, 0), no pending resource click |
| InputManager.InputManager.PointerDown | game/managers/InputManager.ts:53-59 | records the press position and clears the drag flag |
| InputManager.InputManager.PointerMove | game/managers/InputManager.ts:62-83 | a held pointer farther than 5 from the press starts a drag; while dragging, the camera scrolls by the pointer delta divided by the zoom; the hover event names the cell under the pointer |
| InputManager.InputManager.PointerUp | game/managers/InputManager.ts:86-103 | ending a drag emits nothing; a pending resource click is consumed without a tile event; otherwise the click event is emitted |
| InputManager.InputManager.GameObjectUp | game/managers/InputManager.ts:111-133 | outside a drag, a resource object emits resource-clicked and marks the click as handled; otherwise nothing happens |
| InputManager.InputManager.ReleaseOverObject | game/managers/InputManager.ts:96-123 | a release over a resource emits only resource-clicked, never a tile click as well; afterwards no drag is active and the flag is cleared |
| InputManager.InputManager.HandleZoom | game/managers/InputManager.ts:170-183 | the camera zoom becomes `ZoomAfter` and stays within bounds |

## Left out

- `findPath` in `PathfindingManager` forwards to the easystar.js library, which is not part of this model. Its setup is left out too: diagonals on, no corner cutting.
- Rendering is not modelled:
  - tiles and their keys, sprite depth, textures and the autotiling helpers;
  - the `tree` or `rock` choice in `finalizeMap` (a second `Math.random` draw that only picks a sprite);
  - `getObjectMap`.
- Randomness is an input:
  - the server's per-cell `rng.random()` is a function from cell to roll;
  - the lake draws (size, x, y), the obstacle draws and Phaser's `realInRange` values are sequences of draws.
  
  The models hold for every such input; the generators themselves are not modelled.
- The server's comment says its Perlin port matches the client's. The client shuffles with Phaser's generator, however, and the server with its own LCG. Both ports are modelled with their own draws. `PerlinTs.GradPortsAgree` proves that the gradient code agrees; the tables agree only when the draws do.
- The noise values are not modelled: floating-point products, and the water threshold that reads them. Only the table lookups, the gradient, fade and lerp are.
- Floating point is modelled as `real`, without rounding. This affects:
  - the cumulative sums of the generation chances: the bands are exact at 0.10, 0.15, 0.19, 0.22 and 0.24;
  - the `/ 255` of the colour blend;
  - the isometric formulas;
  - the fade and lerp identities: `NoiseTable.FadeSymmetric`, `NoiseTable.Lerp` and `NoiseTable.LerpBetween` hold in exact arithmetic, and in doubles only up to rounding (for example, `fade(0.999)` and `1 - fade(0.001)` differ);
  - the 0.1 zoom step: `InputManager.ZoomStepsCancel` holds exactly for reals, while in doubles adding and then subtracting 0.1 need not give back the starting zoom.
- MapManager.PlacedLakes: compares squared distances, `dist < 30` as `d² < 900`, instead of taking a square root; both sides are non-negative.
- InputManager.DragExceeded: compares squared distances in the same way, for `dist > 5`.
- MapManager.MapManager.UpdateCell: only writes in-range cells. The JavaScript also writes to a column past the end of an existing row, which grows the row; the fixed-size array model cannot represent that.
- `AmbianceManager`'s time-of-day colour table and its interpolation are left out. Only `multiplyColors` is modelled, with integer inputs.
- I/O is not modelled:
  - `save_users`, and the file read of `load_users`: the constructor takes the stored table;
  - websocket transport, `make_msg`, JSON, broadcasts and the connection manager;
  - `get_full_state`, which returns the resource list.
- `sendMessage` hands its message to the network store. The model returns that message instead.
- The PLAYER_CHAT server branch is not modelled.
- `int(time.time())` in `add_resource` is the `now` parameter.
- `initSeed` and `regenerateSeed` are not modelled: local storage and `Math.random`. The `worldSeed` field is omitted with them.
- `handleHover` and `handleClick` take the camera-transformed world point as part of the pointer. `isUIInteraction` always returns false, so it is left out.
- The camera's scroll and zoom are fields of the input manager.
- JavaScript numbers are modelled as `int` where the code only handles integers (grid cells, colours, times) and as `real` elsewhere. Object keys `"x,y"` are modelled for integer cells only.
- ItemRegistry.GetItemData: the registry is a plain JavaScript object, modelled as a map. Names inherited from `Object.prototype` are not modelled. For example, `getItemData("constructor")` returns the `Object` function, where the model returns None.
- WorldStore.WorldStore.SetOtherPlayers: `otherPlayers` is a plain JavaScript object, modelled as a map. Inherited `Object.prototype` names are not modelled. An entry with id `"__proto__"` replaces the object's prototype instead of adding a key.
- WorldStore.WorldStore.AddOtherPlayer: inherited `Object.prototype` names are not modelled. `addOtherPlayer("__proto__", …)` replaces the prototype and adds no player; the model adds the key.
- WorldStore.WorldStore.MoveOtherPlayer: inherited `Object.prototype` names are not modelled. For an id such as `"constructor"`, the inherited value is truthy, so the source writes x and y onto it and adds no player; the model adds the player.
- `update_wallet` returns the stored wallet dict by reference. The model returns its value.
- The model does not use the fact that every non-empty wallet dict is truthy. The wallet returned on success always contains the updated key, so `if not wallet` fails only on refusal.
- Concurrency between websocket handlers is left out: each message is handled atomically.
