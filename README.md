# City scanner game: a verified model of the simulation rules

The game is a small 3-D city. The player walks a grid of buildings and
scans the NPCs in front of them. A scan reveals an NPC's hidden type:
a good citizen turns green and stands still, and a hypocrite turns red and
chases the player. Walking into a revealed good citizen earns a coin and
removes it. A hypocrite that reaches the player costs a coin and leaves.
With no coin to pay, the game is over. Any key press then restarts the
game with a fresh wave of twenty NPCs.

This project models the rules behind that, in Dafny:

- `Types` (types.dfy): the entities (`NpcType`, `NpcState`, `Vec3`,
  `BuildingData`, `NpcData`), the tuning constants and the vector helpers.
- `Collision` (collision.dfy): the axis-aligned footprint test that both
  the NPCs and the player run. Each building footprint is grown by the
  body radius 0.5 on x and z, and the comparisons are strict.
- `Store` (store.dfy): the shared game store.
  - Class `GameStore` holds the coin counter, the game-over and
    game-started flags, the id -> NPC registry, the ids that have a mesh
    handle, and whether the player's handle is set.
  - Each action is a method whose contract ties the new state to a pure
    transition (`AfterAddCoin`, `AfterRemoveNpc`, ...) on a `StoreState`
    snapshot. The lemmas are stated about those transitions.
- `Npc` (npc.dfy): one NPC's frame.
  - The NPC collision test adds a hard city edge at |x|, |z| > 50.
  - The behaviour depends on the reveal state: wander with a direction
    timer, stand still, or chase.
  - Then comes the interaction with the player: collect, pay the toll,
    or lose.
  - Class `Agent` holds the mesh position, the wander direction and the
    timer, and its `Tick` is proved against the pure `FrameStep`.
- `Player` (player.dfy): the player's collision test (no city edge), the
  move-if-not-blocked frame, and the scan.
  - Class `Controller` holds the position and the scanning flag. Its scan
    loop over the handle ids is proved against `ScanResult`.
- `GameController` (gamecontroller.dfy): spawning a wave of NPCs,
  restart, and the restart key.
- `World` (world.dfy): the city grid generator.
  - It runs nested loops over a 10 x 10 grid and skips the 3 x 3 centre.
  - It is proved to produce `Layout(draws)`: the k-th building stands on
    the k-th kept cell, with the k-th height draw.
  - Separate lemmas prove 91 buildings, their centres and footprints,
    distinct ids, x-major order, and a free centre.

Coordinates are exact reals. Distances are compared squared, so no
square root is needed. Randomness, uuids and the vector operations of the
rendering library are inputs: a random draw in [0, 1), a fresh id, a
normalised direction, the reciprocal of a length that normalisation
divides by, or a yes/no answer from the scan cone's angle test.

## Model

| member | source | states |
|---|---|---|
| Store.Initial | store.ts:29-35 | the store starts with no coins, not over, not started, an empty registry, no handles |
| Store.GameStore.constructor | store.ts:29-35 | a new store is in the initial state |
| Store.AfterAddCoin | store.ts:37 | addCoin raises the counter by exactly one and changes no other field |
| Store.GameStore.AddCoin | store.ts:37 | the store's new state is the addCoin transition of the old one |
| Store.AfterRemoveCoin | store.ts:38 | removeCoin lowers a positive counter by one, keeps zero at zero, and changes no other field |
| Store.GameStore.RemoveCoin | store.ts:38 | the store's new state is the removeCoin transition of the old one |
| Store.CoinOpsBounds | store.ts:37-38 | after any sequence of coin actions the counter lies between start + adds - removes and start + adds, and no other field changes |
| Store.RemoveCoinsFloorAtZero | store.ts:38 | after n removals alone the counter is exactly max(0, start - n) |
| Store.AfterSetGameOver | store.ts:39 | setGameOver sets the flag to the given value and changes nothing else |
| Store.GameStore.SetGameOver | store.ts:39 | the store's new state is the setGameOver transition of the old one |
| Store.AfterStartGame | store.ts:41 | startGame leaves the store started, not over, with zero coins, and keeps the registry and handles |
| Store.GameStore.StartGame | store.ts:41 | the store's new state is the startGame transition of the old one |
| Store.AfterResetGame | store.ts:43-52 | resetGame gives zero coins, not over, an empty registry and no NPC handles, and keeps the started flag and the player handle |
| Store.GameStore.ResetGame | store.ts:43-52 | the store's new state is the resetGame transition of the old one |
| Store.AfterRegisterNpc | store.ts:54-56 | registerNpc maps the id to the record, overwriting any earlier one, and keeps every other key and its record |
| Store.GameStore.RegisterNpc | store.ts:54-56 | the store's new state is the registerNpc transition of the old one |
| Store.AfterRegisterNpcRef | store.ts:58-64 | registerNpcRef adds the id to the handle ids and changes nothing else |
| Store.GameStore.RegisterNpcRef | store.ts:58-64 | the store's new state is the registerNpcRef transition of the old one |
| Store.AfterUpdateNpcState | store.ts:66-71 | on a registered id only that record's state changes, and its id, type and position are kept; other keys are untouched; on an absent id nothing changes |
| Store.GameStore.UpdateNpcState | store.ts:66-71 | the store's new state is the corrected updateNpcState transition of the old one |
| Store.UpdateNpcStateAsWritten | store.ts:66-71 | as written, the action always leaves the id registered with the new state, on a registered id it rewrites only the state, and every other entry is kept |
| Store.AsWrittenAgreesWhenPresent | store.ts:66-71 | on a registered id the code as written and the corrected action produce the same registry |
| Store.AsWrittenInsertsPartialRecord | store.ts:66-71 | on an absent id the code as written registers a record holding only a state, while the corrected action leaves the id absent |
| Store.AfterRemoveNpc | store.ts:73-79 | removeNpc drops the id from the registry and from the handle ids, and keeps every other entry |
| Store.GameStore.RemoveNpc | store.ts:73-79 | the store's new state is the removeNpc transition of the old one |
| Store.RemoveNpcIdempotent | store.ts:73-79 | removing an id twice is the same as removing it once |
| Store.RemoveAbsentNpc | store.ts:73-79 | removing an id that is in neither map changes nothing |
| Store.AfterSetPlayerRef | store.ts:81 | setPlayerRef records the player handle and changes nothing else |
| Store.GameStore.SetPlayerRef | store.ts:81 | the store's new state is the setPlayerRef transition of the old one |
| Collision.EdgesAreFree | components/Npc.tsx:148-154 | a point exactly on an edge of a grown footprint is not inside it |
| Collision.HeightIsIgnored | components/Npc.tsx:148-153 | the collision answer depends only on the x and z of the point and of each building |
| Npc.CheckCollision | components/Npc.tsx:145-160 | the NPC test answers true exactly when the point is strictly inside some grown footprint or has abs(x) > 50 or abs(z) > 50 |
| Npc.CityEdgeIsInside | components/Npc.tsx:158 | a point with abs(x) and abs(z) at most 50, the edge itself included, is not outside the city |
| Npc.NextInterval | components/Npc.tsx:78 | the next wander interval lies in [1, 3) |
| Npc.Behave | components/Npc.tsx:50-91 | a revealed good NPC stays put; only wanderers touch the direction and the timer; the position changes only to an unblocked one; a chaser takes its step along the ground towards the player exactly when the store holds the player's handle and the step is not blocked, and otherwise stays put; the timer counts down and is re-rolled into [1, 3) once it runs out; a blocked wanderer keeps its position and turns round |
| Npc.ChaseStepsTowardPlayer | components/Npc.tsx:57-64 | the chase step is the planar offset to the player times a non-negative factor and keeps the height; while the step is no longer than that offset the NPC ends no farther from the player on the ground |
| Npc.Contact | components/Npc.tsx:94-111 | the interaction is a collection exactly for a revealed good NPC in range, a toll exactly for a revealed hypocrite in range when coins > 0, a catch exactly when coins = 0; an IDLE NPC never interacts |
| Npc.Interact | components/Npc.tsx:94-111 | an IDLE NPC or an out-of-range one leaves the store as it is; a collection adds a coin and removes the NPC from the registry and the handle ids; a toll takes a coin and does the same; a catch sets game over and keeps the NPC; no other entry or handle id is touched |
| Npc.FrameStep | components/Npc.tsx:43-113 | once the game is over a frame changes nothing; the NPC only moves to an unblocked position; an IDLE NPC's frame leaves the store as it is; at most one coin changes hands; only the NPC's own entry can leave the registry; the started flag and the player handle are kept |
| Npc.GameOverFreezes | components/Npc.tsx:44 | once the game is over, a frame leaves the NPC and the store unchanged |
| Npc.CaughtIsFinal | components/Npc.tsx:44-111 | a hypocrite catching a player with no coins ends the game and stays registered, and from then on no NPC's frame changes anything |
| Npc.Agent.constructor | components/Npc.tsx:26-27 | a mounted NPC stands at its spawn position with its first direction and the timer at zero |
| Npc.Agent.Tick | components/Npc.tsx:43-113 | one frame of the NPC and the store is exactly the pure frame step |
| Player.CheckCollision | components/Player.tsx:112-127 | the player test answers true exactly when the point is strictly inside some grown footprint; there is no city edge |
| Player.Move | components/Player.tsx:129-148 | once the game is over the player stays put; otherwise the proposed step is taken exactly when it is not blocked, so a new position is never blocked |
| Player.Revealed | components/Player.tsx:101-104 | a scan reveals a good NPC as SCANNED_GOOD and a hypocrite as SCANNED_BAD, never IDLE |
| Player.ScanResult | components/Player.tsx:84-109 | a scan keeps every key and every id, type and position; it leaves revealed NPCs alone, and also NPCs out of range, without a handle or failing the cone test; it reveals every IDLE NPC in range by its type |
| Player.ScanOneMore | components/Player.tsx:84-109 | testing one more handle id changes at most that NPC's entry |
| Player.ScanIdempotent | components/Player.tsx:101 | scanning the result of a scan again reveals nothing new |
| Player.Scan | components/Player.tsx:69-73 | a press while a scan is showing or once the game is over changes nothing; otherwise the scanning flag is set and the registry is the scan result; the handler reads the current flags |
| Player.SecondScanIsNoOp | components/Player.tsx:70-72 | a second press straight after the first changes nothing, for a handler that reads the current scanning flag |
| Player.AfterRender | components/Player.tsx:38-67 | the key listener is subscribed again only when the game-over flag or the registry changes; otherwise it keeps the flags and the registry it captured |
| Player.CapturedScanResult | components/Player.tsx:84-109 | a scan run from a listener over the shared handle ids keeps every key and, when the listener's registry is the current one, is the scan result |
| Player.PressAsWritten | components/Player.tsx:69-110 | the press as written is ignored when the listener's captured scanning or game-over flag is set, and otherwise sets the flag and applies the scan of the captured registry over the current handle ids |
| Player.FreshListenerScans | components/Player.tsx:67-70 | with a listener subscribed from the current state, the press as written is the scan |
| Player.ListenerSeesLaterHandles | store.ts:58-64 | a handle registered after the listener was subscribed does not re-subscribe it, and the next press scans that NPC as the current state would |
| Player.ScanKeyGoesDead | components/Player.tsx:67-73 | when a revealing press's flag and reveals reach the same render, the listener still holds the set flag after the timer clears it, so every later press is ignored though the current flag allows a scan |
| Player.QuickSecondPressScansAgain | components/Player.tsx:67-79 | after a press that reveals nothing the listener keeps its clear flag, so a second press within 300 ms is a full scan with the new aim and positions, where the current flag would ignore it |
| Player.StoreRenderFirstSkipsGate | components/Player.tsx:67-73 | when the reveal is rendered before the flag, the listener holds a clear flag, so a press while the scan is showing scans again where the current flag would ignore it |
| Player.Controller.constructor | components/Player.tsx:28 | the player starts at the origin, not scanning |
| Player.Controller.Tick | components/Player.tsx:129-148 | one frame moves the player exactly as the pure move step does |
| Player.Controller.HandleScan | components/Player.tsx:69-110 | the scanning flag and the store end up exactly as the pure scan says |
| Player.Controller.EndScan | components/Player.tsx:73 | the timer callback clears the scanning flag |
| GameController.SpawnPosition | components/GameController.tsx:32-36 | a spawn point lies on the ground, never in the central 10 x 10 box, with z in [-40, 40) and x in [-40, 40) or shifted into (5, 15) |
| GameController.SpawnRecord | components/GameController.tsx:27-43 | a spawned record has the rolled id, state IDLE, type GOOD exactly when the draw is above 0.5 and HYPOCRITE otherwise, and a spawn position |
| GameController.RegisteredKeys | components/GameController.tsx:25-44 | a wave adds exactly the rolled ids to the registry |
| GameController.RegisteredFresh | components/GameController.tsx:38-43 | every entry a wave writes is an IDLE, off-centre, ground-level record keyed by its own id |
| GameController.RegisteredKeepsOthers | components/GameController.tsx:25-44 | a wave leaves every entry whose id it does not roll as it was |
| GameController.WaveSize | components/GameController.tsx:24-25 | a wave of distinct ids registers as many ids as it has rolls |
| GameController.Registered | components/GameController.tsx:25-44 | registering a wave keeps every registered id, registers every rolled id, and keeps the last roll's record under its id |
| GameController.SpawnWave | components/GameController.tsx:23-45 | the store ends up with the wave's records registered in order and nothing else changed |
| GameController.Restarted | components/GameController.tsx:47-50 | after a restart there are zero coins, the game is not over and there are no handles; the registry holds exactly the wave's fresh records, twenty of them when the ids are distinct |
| GameController.HandleRestart | components/GameController.tsx:47-50 | a restart leaves the store exactly as a reset followed by a wave |
| GameController.OnKeyDown | components/GameController.tsx:54-58 | a key press restarts the game exactly when it is over and otherwise changes nothing |
| GameController.ScanThenCollect | components/Npc.tsx:97-101 | scanning an IDLE good NPC in reach reveals it, and walking up to it then earns one coin and removes it |
| World.GridSize | components/World.tsx:12 | the grid is 10 cells wide |
| World.Offset | components/World.tsx:13 | the offset that centres the grid is 50 |
| World.SkippedIsCentreTest | components/World.tsx:18-19 | the integer centre test agrees with the generator's real-valued one |
| World.SkippedCells | components/World.tsx:18-21 | on the 10-cell grid exactly the cells with both indices in 4..6 are skipped |
| World.BuildingAt | components/World.tsx:24-32 | the building of cell (x, z) is centred at (10x - 50, 10z - 50), has a 6 x 6 footprint and a height in [5, 15), its y centre is half its height, and its id is b-x-z |
| World.CityCellCount | components/World.tsx:15-21 | the loops keep 10 * 10 - 3 * 3 = 91 cells |
| World.CityCellMembers | components/World.tsx:15-21 | a cell is kept exactly when it is on the grid and outside the centre block |
| World.CityCellFacts | components/World.tsx:15-16 | the kept cells are visited in x-major order |
| World.CellAt | components/World.tsx:15-21 | counting kept cells gives each index below 91 a kept cell on the grid, and that index is the number of kept cells visited before it |
| World.CellAtIsVisitOrder | components/World.tsx:15-21 | the counted k-th kept cell is the k-th cell the nested loops keep |
| World.Layout | components/World.tsx:10-36 | the generated list holds exactly 91 buildings |
| World.LayoutAt | components/World.tsx:15-32 | the k-th generated building stands on the k-th cell the loops keep, with the k-th height draw |
| World.LayoutIdsDistinct | components/World.tsx:29 | building ids are pairwise distinct |
| World.LayoutOrder | components/World.tsx:15-26 | buildings come in x-major order, then by z |
| World.LayoutCentreIsFree | components/World.tsx:17-21 | no grown footprint contains a point within 5 of the origin on both axes, so the spawn point is free |
| World.GenerateBuildings | components/World.tsx:10-36 | the generator's nested loops return exactly the layout |

## Left out

- Rendering: meshes, materials, the ground, grid helper, trees, the scan cone's visual effect, colours and the camera sync are presentation only.
- The rendering library's vector operations (`normalize`, `angleTo`, `applyEuler`, `lookAt`) are floating-point and trigonometric code outside this model. The reciprocal length that normalises the chase direction (the direction itself is the offset to the player times it), the re-rolled wander direction, the player's world-space move direction and the cone's angle test are inputs. `distanceTo` and `length` are replaced by squared lengths compared with squared bounds.
- `Math.random` and `uuidv4` are nondeterministic. Draws in [0, 1) and fresh ids are parameters.
- Npc.Agent.Tick: the turn of the NPC's group towards where it is heading (`lookAt`) changes only the rendered orientation and is not modelled.
- Store.GameStore.RegisterNpcRef: the store keeps a live mesh handle per id; the model keeps only the set of ids that have one. NPC mesh positions are passed to the scan as a map.
- Store.GameStore.SetPlayerRef: the player's handle is reduced to a flag saying it is set. The player's position is passed to the NPC frame as a parameter.
- Store.AfterRegisterNpc: a duplicate id is silently overwritten, as the code does; no duplicate-entity error is raised.
- Player.Controller.HandleScan: the early return when the player's own group handle is missing (components/Player.tsx:75) is not modelled; the controller always has a position.
- Player.Controller.Tick: the early return when the player's group handle is missing (components/Player.tsx:130) is not modelled, for the same reason.
- Npc.Agent.Tick: the early return when the NPC's own group handle is missing (components/Npc.tsx:44) is not modelled; the agent always has a position.
- The key handlers, pointer-lock controls and the 300 ms timer are event plumbing. Clearing the scanning flag is the explicit step `Player.Controller.EndScan`.
- Stale closures in the NPC frame: it reads `coins` and `gameOver` from a render-time snapshot (components/Npc.tsx:22-23). The model reads the current store. So after a catch, NPCs whose frames run later in the same animation frame still act, and `Npc.CaughtIsFinal`'s freeze holds from the next render. Frame scheduling across NPCs is not modelled.
- Player.Scan: it describes a handler that reads the current scanning and game-over flags. The key listener as written is subscribed again only when `gameOver`, `npcs` or `npcRefs` is replaced (components/Player.tsx:67), and its handler reads `isScanning`, `gameOver` and `npcs` from the render that subscribed it. `registerNpcRef` fills the `npcRefs` object in place (store.ts:58-64), so the handler sees every handle registered since. That behaviour is modelled separately by `Player.PressAsWritten` and `Player.AfterRender` (see Findings).
- Player.SecondScanIsNoOp: it holds for the handler that reads the current flag. With the listener as written, a press that reveals nothing changes no dependency, so a second press within 300 ms still sees the flag clear and the 300 ms rate limit does not apply: the second press is a full scan with the current aim and positions, can reveal NPCs the first press missed, and schedules a second timer (`Player.QuickSecondPressScansAgain`). The 300 ms timers are not modelled; the first one still clears the flag 300 ms after the first press.
- Player.Controller.HandleScan: it models the handler reading the current state, as `Player.Scan` does.
- Player.AfterRender: the dependencies are compared by value, where React compares the objects by reference. Only `resetGame` and `removeNpc` replace `npcRefs`, and both replace `npcs` too, so `npcRefs` needs no comparison of its own. An action that replaces `npcs` by an equal value (removing an absent id, resetting an empty registry, re-registering an identical record) re-subscribes the listener in the source but not in the model.
- Player.ScanKeyGoesDead: it assumes that `setIsScanning(true)` and the store's reveal reach the same render. Whether the store's update renders first depends on how the rendering library batches them; `Player.StoreRenderFirstSkipsGate` covers that order, in which the 300 ms gate is skipped instead.
- The effect in the world component that reports the buildings to its parent (components/World.tsx:38-41) is plumbing; the generated list is the result of `World.GenerateBuildings`.
- The initial spawn effect on mount (components/GameController.tsx:17-21) runs a reset and a wave, which is `GameController.HandleRestart`.

## Findings

| source | as written | input that shows it | evidently intended | confidence | as-written member | corrected member |
|---|---|---|---|---|---|---|
| store.ts:66-71 | `updateNpcState` spreads the old entry under `id` and sets `state`; on an id with no entry the spread is empty, so the registry gains a record with a state and no id, type or position | a store with no NPCs and `updateNpcState("ghost", SCANNED_GOOD)` | an update of an unregistered id changes nothing, and only the state of a registered entry is rewritten | not executed | Store.UpdateNpcStateAsWritten, Store.AsWrittenInsertsPartialRecord | Store.AfterUpdateNpcState, Store.GameStore.UpdateNpcState |
| components/Player.tsx:67-73 | the key listener's dependencies leave out `isScanning`, so its handler keeps the flag of the render that subscribed it; if the press's flag and its reveal land in one render, a press that reveals an NPC re-subscribes it while the flag is set, and the timer that clears the flag changes no dependency; if the reveal renders first, the listener keeps a clear flag and the gate is skipped instead | a store with one IDLE NPC in the scan cone, game not over. Flag and reveal in one render: press E (the NPC is revealed), wait 300 ms, press E again, and it is ignored. Reveal rendered first: press E (the NPC is revealed), press E again within 300 ms, and the second press scans | the gate follows the current flag: E is ignored while the scan shows and works again once the timer clears the flag | not executed | Player.PressAsWritten, Player.ScanKeyGoesDead, Player.StoreRenderFirstSkipsGate | Player.Scan, Player.SecondScanIsNoOp |
