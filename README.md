# Glowstone bed block, modelled in Dafny

This project models `BlockBed`, Glowstone's block type for beds. A bed is one logical object stored as two world cells: a *foot* and a *head* one step along the bed's facing. Three Dafny modules make up the model:

- `Geometry`: block coordinates (`Pos`), the four horizontal faces a bed can face, and exact entity locations.
- `Blocks`: materials, biomes and dye colours, one `Cell` per coordinate, and the mutable `World` class. Its accessors write a data byte, a material, or a whole block state, the way `GlowBlock.setData`, `setType` and `GlowBlockState.update` do.
- `BlockBed`: the bed logic itself, covering:
  - the occupancy bit `0x4`, written on both halves together;
  - head/foot resolution;
  - the spawn-safe allow-list;
  - the two-phase exit-location search;
  - placement (`canPlaceAt`, `placeBlock`, `afterPlace`);
  - neighbour invalidation (`onNearBlockChanged`);
  - the `blockInteract` guard chain.

The world is a `map<Pos, Cell>`. A coordinate missing from the map reads as an air cell.

A cell holds:
- its material;
- its data byte (`bv8`, of which only bit `0x4` is interpreted);
- the bed facing and head-of-bed flag;
- the colour kept in the bed's block entity;
- its biome.

The operations that change cells in place are methods on a `World` object (`SetOccupied`, `AfterPlace`, `OnNearBlockChanged`). Each is proved equal to a pure function of the old cells (`Occupy`, `AfterPlaceEffect`, `NearChange`), and the properties are proved about those functions.

The exit search is a pair of nested loops (`ScanFirst`), proved equal to a recursive scan (`ScanGrid`). `ScanGridIsFirst` then proves that the scan returns the first safe cell in x-outer, z-inner order, and nothing exactly when no cell is safe.

`blockInteract` is a method whose loop walks the entity list in order. It is proved equal to the guard chain `Interact`, and lemmas state what that chain implies.

The model follows the source where it departs from what the bed is meant to do. `onNearBlockChanged` is meant to be safe to call on a cell that no longer forms a bed. The source dereferences the resolved head without a null test, so it throws there (see "Findings").

## Model

| member | source | states |
|---|---|---|
| `BlockBed.IsOccupied` | src/main/java/net/glowstone/block/blocktype/BlockBed.java:61-63 | a cell is occupied exactly when setting bit 0x4 of its data byte leaves the byte unchanged |
| `BlockBed.WithOccupied` | src/main/java/net/glowstone/block/blocktype/BlockBed.java:48-53 | the written byte has bit 0x4 set exactly when `occupied`, and its seven other bits equal the old byte's |
| `BlockBed.Occupy` | src/main/java/net/glowstone/block/blocktype/BlockBed.java:48-63 | after setOccupied, `isOccupied` of head and of foot both equal `occupied`; every other data bit and every other field of both cells is unchanged; no other cell changes |
| `BlockBed.SetOccupied` | src/main/java/net/glowstone/block/blocktype/BlockBed.java:48-53 | reads both bytes, then writes head then foot; the new world is `Occupy` of the old one |
| `BlockBed.OccupyKeepsPair` | src/main/java/net/glowstone/block/blocktype/BlockBed.java:48-63 | toggling occupancy on a bed keeps it a bed whose halves still resolve to each other, and both halves agree on occupancy |
| `BlockBed.GetHead` | src/main/java/net/glowstone/block/blocktype/BlockBed.java:71-82 | None exactly when the cell is not a bed; otherwise the cell itself exactly when it has the head flag, else one step along its facing |
| `BlockBed.GetFoot` | src/main/java/net/glowstone/block/blocktype/BlockBed.java:90-101 | None exactly when the cell is not a bed; the cell itself exactly when it is not a head; the resolved head is always one step from the resolved foot along the cell's facing |
| `BlockBed.PairResolves` | src/main/java/net/glowstone/block/blocktype/BlockBed.java:71-101 | for a consistent pair (same facing, complementary head flags, foot behind head) both halves resolve to the same head and foot |
| `BlockBed.IsValidSpawn` | src/main/java/net/glowstone/block/blocktype/BlockBed.java:109-186 | beds and every unlisted material are not spawn-safe |
| `BlockBed.ValidSpawnIsAllowList` | src/main/java/net/glowstone/block/blocktype/BlockBed.java:109-186 | a material is spawn-safe exactly when it is one of the listed saplings, rails, plants, fixtures, buttons, heads and skulls, or a carpet |
| `BlockBed.ScanRowIsFirst` | src/main/java/net/glowstone/block/blocktype/BlockBed.java:199-207 | one row of the scan returns the first cell in z order whose floor is solid and which, with the cell above, is spawn-safe; None exactly when no cell of the row qualifies |
| `BlockBed.ScanGridIsFirst` | src/main/java/net/glowstone/block/blocktype/BlockBed.java:198-208 | the scan of a rectangle returns a qualifying cell inside it with no qualifying cell before it in x-outer, z-inner order; None exactly when no cell qualifies |
| `BlockBed.ScanFirst` | src/main/java/net/glowstone/block/blocktype/BlockBed.java:198-208 | the nested loops with early return compute `ScanGrid` |
| `BlockBed.ExitLocation` | src/main/java/net/glowstone/block/blocktype/BlockBed.java:196-226 | a returned cell is safe, at the head's elevation, and within one step of the head or of the foot |
| `BlockBed.GetExitLocation` | src/main/java/net/glowstone/block/blocktype/BlockBed.java:196-226 | the method returns `ExitLocation`: the ring around the head first, then the foot-side cells |
| `BlockBed.ExitLocationIsFirstSafe` | src/main/java/net/glowstone/block/blocktype/BlockBed.java:196-226 | a returned cell always qualifies; when some ring cell qualifies the result is the ring's first; null exactly when no ring cell and no foot-side cell qualifies; when no ring cell qualifies the result is the first qualifying foot-side cell |
| `BlockBed.FirstSafeInRingIsExit` | src/main/java/net/glowstone/block/blocktype/BlockBed.java:198-208 | a qualifying ring cell with no qualifying ring cell before it is the exit |
| `BlockBed.FootScanIsRowBehind` | src/main/java/net/glowstone/block/blocktype/BlockBed.java:210-215 | for a bed the second phase tests exactly three cells, fixed on the bed's axis to the head-to-foot step |
| `BlockBed.BehindFootIsExit` | src/main/java/net/glowstone/block/blocktype/BlockBed.java:210-225 | when no ring cell qualifies and the cell directly behind the foot is the only qualifying foot-side cell, it is the exit |
| `BlockBed.CanPlaceAt` | src/main/java/net/glowstone/block/blocktype/BlockBed.java:235-246 | false without a player; otherwise true exactly when the cell one step along the player's look direction is air and the cell below it is solid |
| `BlockBed.PlaceBlock` | src/main/java/net/glowstone/block/blocktype/BlockBed.java:264-278 | a bed state becomes a foot (head flag false) facing the placement direction, with material, data, colour and biome kept; any other state is left as it is |
| `BlockBed.AfterPlaceEffect` | src/main/java/net/glowstone/block/blocktype/BlockBed.java:285-305 | nothing changes unless the placed cell is a bed; otherwise the foot takes the colour, and the cell one step along the foot's facing gets the foot's material, head flag true, the same facing and colour, and a cleared data byte; no other cell changes |
| `BlockBed.AfterPlace` | src/main/java/net/glowstone/block/blocktype/BlockBed.java:285-305 | the two-step write (foot state, then head type, then head state) leaves `AfterPlaceEffect` of the old world |
| `BlockBed.PlacementBuildsPair` | src/main/java/net/glowstone/block/blocktype/BlockBed.java:235-305 | placing a bed where canPlaceAt allows, then afterPlace, yields a consistent pair: foot at the target, head along the look direction on a solid floor, same material and colour, head unoccupied, no other cell changed |
| `BlockBed.NearChangeAsWritten` | src/main/java/net/glowstone/block/blocktype/BlockBed.java:248-262 | only the bed cell itself can change; on a cell that is not a bed nothing changes and the call throws |
| `BlockBed.OnNearBlockChangedAsWritten` | src/main/java/net/glowstone/block/blocktype/BlockBed.java:248-262 | the source's two checks, the second resolving the cell again after the first may have emptied it; the new world and the thrown flag are `NearChangeAsWritten` |
| `BlockBed.NearChange` | src/main/java/net/glowstone/block/blocktype/BlockBed.java:248-262 | the listener writes at most one thing, the bed cell turning to air; the world changes exactly when the cell is a bed, the new type is AIR, and `changed` is the resolved head, the resolved foot, or the cell below either |
| `BlockBed.OnNearBlockChanged` | src/main/java/net/glowstone/block/blocktype/BlockBed.java:248-262 | the null-safe listener leaves `NearChange` of the old world |
| `BlockBed.AsWrittenWorldAgrees` | src/main/java/net/glowstone/block/blocktype/BlockBed.java:248-262 | the source's listener leaves the same world as the null-safe one, and throws exactly when the cell is not a bed or its first check fired |
| `BlockBed.RemovingHalfThrows` | src/main/java/net/glowstone/block/blocktype/BlockBed.java:251-257 | removing a bed's head and notifying the foot empties the foot and then throws |
| `BlockBed.RemovingHalfEmptiesOther` | src/main/java/net/glowstone/block/blocktype/BlockBed.java:251-255 | removing either half and notifying the other half empties the other half |
| `BlockBed.RemovingFloorEmptiesBoth` | src/main/java/net/glowstone/block/blocktype/BlockBed.java:256-261 | removing the floor under either half and notifying both halves empties both |
| `BlockBed.NearChangeIdempotent` | src/main/java/net/glowstone/block/blocktype/BlockBed.java:248-262 | delivering the same notification a second time changes nothing |
| `BlockBed.IsWithinDistance` | src/main/java/net/glowstone/block/blocktype/BlockBed.java:369-374 | the per-axis absolute-difference test holds exactly when the location lies in the box of half-widths (x, y, z) around the cell |
| `BlockBed.ExplosiveInBiomes` | src/main/java/net/glowstone/block/blocktype/BlockBed.java:35-39 | the ten nether and end biomes |
| `BlockBed.ExplosiveBiomesAreNetherAndEnd` | src/main/java/net/glowstone/block/blocktype/BlockBed.java:35-39 | the set lists every named nether and end biome, and no other biome |
| `BlockBed.TooBrightToSleep` | src/main/java/net/glowstone/block/blocktype/BlockBed.java:328-332 | the bed may be used, as far as the time goes, exactly during a thunderstorm or between ticks 12541 and 23458 inclusive |
| `BlockBed.Threatens` | src/main/java/net/glowstone/block/blocktype/BlockBed.java:346-349 | an entity keeps the player from sleeping exactly when it is a creature other than a calm zombified piglin and lies within 8/5/8 of the given cell |
| `BlockBed.Interact` | src/main/java/net/glowstone/block/blocktype/BlockBed.java:307-357 | the interaction is unhandled exactly when the clicked cell is not a bed; for a bed the guards decide in the source's order: an explosion of power 5 with fire at the head exactly in an explosive biome; otherwise the DAY notice exactly when too bright; otherwise OCCUPIED exactly when the head is occupied; otherwise a silent refusal exactly when the player is not within 3/2/3 of the head; otherwise MOB exactly when some entity threatens the cell below the head |
| `BlockBed.ExplosiveBiomeAlwaysExplodes` | src/main/java/net/glowstone/block/blocktype/BlockBed.java:318-324 | with the head in a nether or end biome, using the bed is an explosion of power 5 with fire at the head, whatever the time, weather, occupancy, player position or mobs |
| `BlockBed.EnterBedExactlyWhenAllGuardsPass` | src/main/java/net/glowstone/block/blocktype/BlockBed.java:307-357 | the player enters the bed, at the head, exactly when every guard passes: no explosive biome, night or thunder, unoccupied, player within 3/2/3 of the head, and no threatening creature within 8/5/8 of the cell below the head |
| `BlockBed.DayAndNight` | src/main/java/net/glowstone/block/blocktype/BlockBed.java:326-332 | at tick 12000 in clear weather the answer is the DAY notice; at tick 13000, or at 12000 in a thunderstorm, it is not |
| `BlockBed.BlockInteract` | src/main/java/net/glowstone/block/blocktype/BlockBed.java:307-357 | the guard chain with the entity loop returns `Interact`'s effect, and reports the interaction handled exactly when the cell is a bed |

## Left out

- `PlaySoundCodec` is not part of this model. It only writes fields to a network buffer, and its `decode` only throws.
- `getDrops` and `createBlockEntity` are not modelled. They build item stacks and block entities from library types.
- Side effects of `blockInteract` are recorded as an `Effect` value: the explosion, the DAY/OCCUPIED/MOB notices, `enterBed`, and the logged material-data warning. They are not performed.
- The material-data warning that `placeBlock` logs for a non-bed state (`warnMaterialData`) is not modelled; `PlaceBlock` leaves such a state unchanged.
- The generic `super.placeBlock` is not modelled. `PlaceBlock` takes the block state as that generic placement leaves it.
- The placement direction comes from the player's yaw through `getOppositeBlockFace`, whose code is not part of this model. It is an input, `Player.lookDirection`.
- `Material.isSolid` is a parameter (`SolidTable`), not a fixed table.
- The `BEDS` tag and `data instanceof Bed` are both modelled as "the material is a bed". Bed facing and head flag are cell fields rather than bits of the data byte.
- `DyeColor.getByWoolData` is not modelled. The held item's colour is an input; a wool value with no colour is not represented.
- `GlowBlock.setType` is not part of this model. It is taken to write the material and clear the data byte.
- The neighbour notifications that `setType` itself may trigger on other cells are not modelled.
- The entity manager is a sequence of entity records. Locations are exact reals, so double-precision rounding in `isWithinDistance` is not modelled.
- World time is an unbounded integer.
- A null player in `placeBlock` or `blockInteract` would throw in the source. The model always has a player there. `canPlaceAt` does model the absent player.
- `BlockBed.GetExitLocation`: requires the foot to lie at the head's elevation, and to be the head or one of its eight horizontal neighbours. Every pair that `getHead`/`getFoot` return is of that kind. Other feet are not modelled: for them `head.getFace(foot)` may name a face (UP or DOWN for a foot directly above or below the head) or return null. `GlowBlock.getFace` is not part of this model.
- `BlockBed.PlaceBlock`: the `GlowBlockState` object it updates in place is modelled as the value it holds, so aliasing of that state object is not captured.
- Concurrency is not modelled: every operation is a single synchronous step on the world.

## Findings

| source | as written | input that shows it | evidently intended | confidence | as-written member | corrected member |
|---|---|---|---|---|---|---|
| src/main/java/net/glowstone/block/blocktype/BlockBed.java:251-257 | the second check calls `getHead(block)` again and dereferences the result without a null test, after the first check may already have set `block` to AIR | a bed whose head is removed: the foot is notified with `changedBlock` = head and `newType` = AIR; the first check empties the foot, then `getHead(foot)` returns null and `.getRelative(DOWN)` throws. The same throw happens on any notification to a cell that is no longer a bed | both checks are evaluated on the bed as resolved on entry, and a cell that is not a bed is left alone without an exception | medium; not executed (assumes `getState()` reads the cell afresh) | `BlockBed.RemovingHalfThrows` | `BlockBed.NearChange` |
