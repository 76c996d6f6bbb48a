# builderMenu structure core in Dafny

A model of the structure-building core of the builderMenu Minecraft mod. It covers:

- **`StructureBuilder`.** `build`, its ten structure generators and `getBuildInfo`. `build` places a structure in front of the player, and `getBuildInfo` gives the menu's block-cost catalog.
- **`UndoManager`.** The per-player undo history.
- **Value classes.** `BuildConfig`, `BuildInfo` and `StructureTemplate`.
- **`CustomStructureManager`.** Only the file-name sanitiser and the listing's `.json` strip.
- **Enums.** `BuildSize` and `BuildType` (with `BuildCategory`).

The Minecraft world is an abstract voxel grid `map<Pos, Block>` in which an absent position holds air. A generator returns two things:

- the new world;
- the *capture*: a map from every position it captured to the block state it read there (cells a loop only tests, like the corners outside the Fountain's disc, are not captured), which `build` hands to the undo manager.

Modules, one per file:

| module | file | what |
|---|---|---|
| `JavaInt` | `java_int.dfy` | Java's truncating `/` and `%` |
| `BuildSizes` | `build_size.dfy` | the four sizes; scale as halves 1..4; `(int)(n * scale)` |
| `BuildTypes` | `build_type.dfy` | eleven types, five categories |
| `Blocks`, `Materials` | `blocks.dfy` | block states; the nine material palettes |
| `BuildConfigs` | `build_config.dfy` | configuration defaults, setters, rotation, copy |
| `Options`, `Grid` | `grid.dfy` | world, capture, and the two capture policies |
| `Scan` | `scan.dfy` | the `x`/`z`/`y` loop nest every generator is made of |
| `Generators` | `generators.dfy` | the ten generators, each with a per-position reference description |
| `Undo` | `undo.dfy` | per-player bounded history, undo, restore |
| `Text` | `text.dfy` | decimal rendering and parsing |
| `BuildInfos` | `build_info.dfy` | requirement map, total, formatted time |
| `Templates` | `template.dfy` | `setBlock`, `withMaterial`, `withScale` |
| `FileNames` | `file_names.dfy` | `sanitizeFileName`, `.json` listing |
| `StructureBuilder` | `structure_builder.dfy` | `build`, build-then-undo, `getBuildInfo` |

Each generator is modelled as the sequence of loop nests its Java method runs, in source order.

- **One scan per loop nest.** `Scan.Run` executes a nest with the source's loop order: `x` outermost, then `z`, then `y`. At each cell it captures the block there, then paints it or not.
- **Per-position reference.** Alongside the loops, every generator has a reference description that is independent of loop order (`HouseBlockAt` and `HouseRecord`, for example). It gives, for each position, the block left there and the capture entry left there. Each `Build…` method's contract is that the loops produce exactly this.

How a position scanned twice is captured is a parameter, `Grid.Policy`:

- **`LastWins` is `HashMap.put`, which is what the code does.** The later read replaces the earlier one.
- **`FirstWins` is `putIfAbsent`.** The first read, taken before any write, is kept.

Only `FirstWins` makes undo restore the pre-build world (see Findings).

## Model

| member | source | states |
|---|---|---|
| JavaInt.JavaDiv | src/main/java/dank/builderui/util/StructureBuilder.java:311-312 | Java `/`: the quotient's magnitude is the floor of the magnitudes' quotient and it is never of the opposite sign to the exact quotient (truncation toward zero) |
| JavaInt.JavaRem | src/main/java/dank/builderui/util/BuildConfig.java:66 | Java `%`: `a == b * (a / b) + r`, the remainder is smaller in magnitude than `b`, and `r` is zero or has the sign of `a` |
| BuildSizes.Halves | src/main/java/dank/builderui/util/BuildSize.java:7-10 | every size's scale is `k/2` with `k` in 1..4 |
| BuildSizes.ScaledTruncates | src/main/java/dank/builderui/util/BuildSize.java:7-10 | for `n >= 0`, the scaled extent is `n * scale` truncated: its double is at most `n*k` and within 2 of it |
| BuildSizes.ScaledSignedTruncates | src/main/java/dank/builderui/util/StructureTemplate.java:72-74 | for any unbounded integer `n`, the scaled value is the truncating division of `n*k` by 2, with magnitude the floor and the sign of `n`; this is `(int)(n * scale)` while `n` is exact as a `float` and the result fits an `int` (see Left out) |
| BuildSizes.FourSizes | src/main/java/dank/builderui/util/BuildSize.java:7-10 | exactly four sizes, all distinct, every size listed |
| BuildSizes.ScalesIncrease | src/main/java/dank/builderui/util/BuildSize.java:7-10 | the scales strictly increase in declaration order |
| BuildSizes.ScaledMonotone | src/main/java/dank/builderui/util/BuildSize.java:7-10 | a larger scale never yields a smaller extent |
| BuildSizes.MediumIsIdentity | src/main/java/dank/builderui/util/BuildSize.java:8 | Medium (scale 1.0) leaves every extent at its base value |
| BuildTypes.CategoryOf | src/main/java/dank/builderui/util/BuildType.java:41-43 | `getCategory` returns Buildings exactly for House, Mansion, Tower and Castle, Agricultural exactly for Farm, Infrastructure exactly for Bridge, Road and Wall, Decorative exactly for Fountain and Treehouse, and Custom exactly for Custom |
| BuildTypes.ElevenTypes | src/main/java/dank/builderui/util/BuildType.java:9-27 | exactly eleven distinct build types, every type listed |
| BuildTypes.CategoryContents | src/main/java/dank/builderui/util/BuildType.java:9-27 | Buildings = {House, Mansion, Tower, Castle}, Agricultural = {Farm}, Infrastructure = {Bridge, Road, Wall}, Decorative = {Fountain, Treehouse}, Custom = {Custom} |
| BuildTypes.CategoriesPartitionTypes | src/main/java/dank/builderui/util/BuildType.java:9-27 | each type is in exactly one category, and no category is empty |
| Materials.PalettesAreSolid | src/main/java/dank/builderui/util/MaterialType.java:11-19 | no palette's primary, secondary or decorative block is air or water |
| BuildConfigs.NewConfig | src/main/java/dank/builderui/util/BuildConfig.java:17-26 | a new configuration has the given type, Wood, Medium, Standard, rotation 0 and offset (2, 0, 2) |
| BuildConfigs.SetBuildType | src/main/java/dank/builderui/util/BuildConfig.java:33-35 | sets the type and leaves the seven other fields unchanged |
| BuildConfigs.SetMaterial | src/main/java/dank/builderui/util/BuildConfig.java:41-43 | sets the material and leaves the seven other fields unchanged |
| BuildConfigs.SetSize | src/main/java/dank/builderui/util/BuildConfig.java:49-51 | sets the size and leaves the seven other fields unchanged |
| BuildConfigs.SetStyle | src/main/java/dank/builderui/util/BuildConfig.java:57-59 | sets the style and leaves the seven other fields unchanged |
| BuildConfigs.SetOffsetX | src/main/java/dank/builderui/util/BuildConfig.java:73-75 | sets the x offset and leaves the seven other fields unchanged |
| BuildConfigs.SetOffsetY | src/main/java/dank/builderui/util/BuildConfig.java:81-83 | sets the y offset and leaves the seven other fields unchanged |
| BuildConfigs.SetOffsetZ | src/main/java/dank/builderui/util/BuildConfig.java:89-91 | sets the z offset and leaves the seven other fields unchanged |
| BuildConfigs.SetRotation | src/main/java/dank/builderui/util/BuildConfig.java:65-67 | the stored rotation is congruent to the argument modulo 360, strictly inside (-360, 360), never of the opposite sign; no other field changes |
| BuildConfigs.SetRotationIdempotent | src/main/java/dank/builderui/util/BuildConfig.java:65-67 | re-setting the current rotation is a no-op, so setting twice is setting once |
| BuildConfigs.RemInRange | src/main/java/dank/builderui/util/BuildConfig.java:66 | `% 360` fixes every angle strictly inside (-360, 360) and sends 360 and -360 to 0 |
| BuildConfigs.FourLeftTurns | src/main/java/dank/builderui/util/BuildConfig.java:65-67 | from 0, steps of -90 give -90, -180, -270 (not 270) and then 0 again |
| BuildConfigs.FourRightTurns | src/main/java/dank/builderui/util/BuildConfig.java:65-67 | from 0, four steps of +90 return to the original configuration |
| BuildConfigs.Copy | src/main/java/dank/builderui/util/BuildConfig.java:96-106 | the copy equals the original in all eight fields |
| Grid.Record | src/main/java/dank/builderui/util/StructureBuilder.java:77 | one capture adds its position to the key set and keeps every other entry; the entry is the new read under `LastWins`, the old one under `FirstWins` |
| Scan.Step | src/main/java/dank/builderui/util/StructureBuilder.java:76-82 | one loop-body iteration: record the cell's current block, then paint it or not; every other cell and entry is unchanged |
| Scan.RunRow | src/main/java/dank/builderui/util/StructureBuilder.java:75-83 | the innermost `y` loop carries the "exactly the cells before the cursor are handled" invariant from one row to the next |
| Scan.RunSlab | src/main/java/dank/builderui/util/StructureBuilder.java:74-84 | the `z` loop carries the same invariant from one slab to the next |
| Scan.ScanEnd | src/main/java/dank/builderui/util/StructureBuilder.java:73-85 | once the `x` cursor passes the box, every box cell has been handled once |
| Scan.Run | src/main/java/dank/builderui/util/StructureBuilder.java:73-85 | a full loop nest: each cell of the box takes its action's effect on its pre-scan block, the touched cells join the capture with their pre-scan block (an earlier entry kept under `FirstWins`), and nothing outside the box changes |
| Scan.UnrecordedUnchanged | src/main/java/dank/builderui/util/StructureBuilder.java:76-81 | a position no loop captures is never painted, because every write follows a capture of the same cell |
| Scan.KeepsRecord | src/main/java/dank/builderui/util/StructureBuilder.java:77 | once a position is captured it stays captured |
| Scan.FirstWinsRecordsOriginal | src/main/java/dank/builderui/util/StructureBuilder.java:77 | under `FirstWins` a position's entry is always its block from before the first loop |
| Scan.Generate | src/main/java/dank/builderui/util/StructureBuilder.java:63-100 | running a generator's loops in order leaves every position as its per-position reference says, every changed position is captured, and under `FirstWins` every entry is the pre-build block |
| Generators.HouseAt | src/main/java/dank/builderui/util/StructureBuilder.java:73-99 | the House's three loop nests agree at every position with the reference: roof layer secondary, door air, rim and floor primary, hollow unchanged but captured; the door entry is primary under `LastWins` |
| Generators.BuildHouse | src/main/java/dank/builderui/util/StructureBuilder.java:63-100 | the House at `(int)(5*s) x (int)(4*s) x (int)(5*s)` leaves the world and capture the reference describes; unchanged outside the capture |
| Generators.SlabAt | src/main/java/dank/builderui/util/StructureBuilder.java:107-111 | a single painted box takes the fill block, each of its cells captured once with its previous block |
| Generators.BuildTower | src/main/java/dank/builderui/util/StructureBuilder.java:102-112 | a primary column of height `(int)(10*s)`, each cell captured with its previous block |
| Generators.MansionAt | src/main/java/dank/builderui/util/StructureBuilder.java:125-159 | the Mansion's loops agree with the reference: checkered primary/decorative walls by parity of `x+y+z`, secondary floors every fourth layer, two door cells air, decorative roof; the door entries are wall blocks under `LastWins` |
| Generators.BuildMansion | src/main/java/dank/builderui/util/StructureBuilder.java:114-160 | the Mansion at 12 x 8 x 12 times the scale leaves the world and capture the reference describes |
| Generators.FarmAt | src/main/java/dank/builderui/util/StructureBuilder.java:170-192 | fence rim, farmland inside, water at the centre; under `LastWins` the water cell's entry is farmland, not its previous block |
| Generators.BuildFarm | src/main/java/dank/builderui/util/StructureBuilder.java:162-193 | the Farm at 8 x 8 times the scale leaves the world and capture the reference describes |
| Generators.CastleAt | src/main/java/dank/builderui/util/StructureBuilder.java:205-236 | primary shell and floor, four secondary corner towers of height `(int)(15*s)`, three gate cells air; under `LastWins` the towers' cells inside the body and the gate cells are captured as the primary block |
| Generators.BuildCastle | src/main/java/dank/builderui/util/StructureBuilder.java:195-237 | the Castle at 20 x 12 x 20 times the scale leaves the world and capture the reference describes |
| Generators.BridgeAt | src/main/java/dank/builderui/util/StructureBuilder.java:248-261 | primary deck at y 0 and decorative rails at y 1 on both side rows, each cell captured once |
| Generators.BuildBridge | src/main/java/dank/builderui/util/StructureBuilder.java:239-262 | the Bridge of length `(int)(15*s)` and width `(int)(3*s)` leaves the world and capture the reference describes |
| Generators.FountainAt | src/main/java/dank/builderui/util/StructureBuilder.java:272-291 | the base holds `(x, 0, z)` exactly when `x²+z² <= r²`; the centre column is primary below `h` and water at `h`; under `LastWins` the origin's entry is primary |
| Generators.BuildFountain | src/main/java/dank/builderui/util/StructureBuilder.java:264-292 | the Fountain of radius `(int)(3*s)` and height `(int)(2*s)` leaves the world and capture the reference describes |
| Generators.HouseSizeBounds | src/main/java/dank/builderui/util/StructureBuilder.java:301-312 | `(int)(4*s)` is even, so Java's `-houseSize / 2` equals `-(houseSize / 2)` |
| Generators.TreehouseAt | src/main/java/dank/builderui/util/StructureBuilder.java:304-345 | log trunk, plank platform, plank shell walls two high with a hollow inside, oak leaves where `x²+z² <= 5` above, each cell captured once |
| Generators.BuildTreehouse | src/main/java/dank/builderui/util/StructureBuilder.java:294-346 | the Treehouse with trunk `(int)(8*s)` and house `(int)(4*s)` leaves the world and capture the reference describes |
| Generators.BuildWall | src/main/java/dank/builderui/util/StructureBuilder.java:348-362 | a primary `(int)(20*s)` x `(int)(4*s)` slab at z 0, each cell captured with its previous block |
| Generators.BuildRoad | src/main/java/dank/builderui/util/StructureBuilder.java:364-378 | a primary `(int)(20*s)` x `(int)(3*s)` slab at y 0, each cell captured with its previous block |
| Undo.RecordAction | src/main/java/dank/builderui/util/UndoManager.java:20-30 | the new action is last; below the cap it is appended, at the cap the oldest is dropped first; other players are untouched |
| Undo.RecordKeepsBounded | src/main/java/dank/builderui/util/UndoManager.java:26-29 | recording keeps every history within 10 and the player's length becomes `min(old + 1, 10)` |
| Undo.EleventhEvictsOldest | src/main/java/dank/builderui/util/UndoManager.java:27-29 | an eleventh action drops the oldest; the other ten keep their order |
| Undo.RecordAllKeepsOrder | src/main/java/dank/builderui/util/UndoManager.java:20-30 | up to ten recorded actions are kept in recording order |
| Undo.RecordThenUndo | src/main/java/dank/builderui/util/UndoManager.java:36-45 | last in, first out: undo right after recording returns that action and, below the cap, the earlier history |
| Undo.Pop | src/main/java/dank/builderui/util/UndoManager.java:42 | removing the most recent action leaves the prefix before it, for this player only |
| Undo.CanUndo | src/main/java/dank/builderui/util/UndoManager.java:57-60 | `canUndo` holds exactly when the player has at least one recorded action, which requires an entry for the player |
| Undo.ClearHistory | src/main/java/dank/builderui/util/UndoManager.java:50-52 | the player can no longer undo; every other player's history is unchanged |
| Undo.UndoLast | src/main/java/dank/builderui/util/UndoManager.java:36-45 | succeeds exactly when `canUndo` holds; on failure nothing changes; on success the newest action is popped and written over the world; other players are untouched |
| Undo.Restore | src/main/java/dank/builderui/util/UndoManager.java:74-78 | every captured position holds its captured block afterwards and every other position is unchanged |
| Undo.RestoreFaithful | src/main/java/dank/builderui/util/UndoManager.java:74-78 | restoring a capture of the pre-build blocks that covers every changed cell gives back the pre-build world |
| Text.NatToStringRoundTrip | src/main/java/dank/builderui/util/BuildInfo.java:51 | reading back the decimal rendering of `n` gives `n` |
| Text.DigitRunStopsAt | src/main/java/dank/builderui/util/BuildInfo.java:55 | the digit run of a numeral followed by a non-digit is exactly the numeral |
| Text.CanonicalIsRendering | src/main/java/dank/builderui/util/BuildInfo.java:51 | a numeral without leading zeros is the rendering of its value, so such numerals are never ambiguous |
| BuildInfos.NewInfo | src/main/java/dank/builderui/util/BuildInfo.java:15-20 | a new info has the given type, description and time, no requirements and total 0 |
| BuildInfos.AddBlockRequirement | src/main/java/dank/builderui/util/BuildInfo.java:22-24 | the name gets the count; every other requirement and field is unchanged |
| BuildInfos.AddReplaces | src/main/java/dank/builderui/util/BuildInfo.java:22-24 | adding a name twice keeps only the second count, not the sum |
| BuildInfos.TotalRemove | src/main/java/dank/builderui/util/BuildInfo.java:42-44 | the sum of the counts does not depend on the order the entries are taken in |
| BuildInfos.TotalBlocks | src/main/java/dank/builderui/util/BuildInfo.java:42-44 | the total is the sum of all requirement counts |
| BuildInfos.TotalAfterAdd | src/main/java/dank/builderui/util/BuildInfo.java:22-24 | adding a requirement changes the total by the new count minus the replaced one |
| BuildInfos.FormattedTime | src/main/java/dank/builderui/util/BuildInfo.java:49-57 | the text ends in `" seconds"` exactly when the duration is under a minute |
| BuildInfos.ShortTimeRoundTrip | src/main/java/dank/builderui/util/BuildInfo.java:50-51 | under a minute, including negative durations, the text reads back as the short form `"<s> seconds"` holding `s` |
| BuildInfos.LongTimeRoundTrip | src/main/java/dank/builderui/util/BuildInfo.java:52-56 | from a minute on, the text reads back as the long form `"<m> min <r> sec"` with `m` the whole minutes (at least 1) and `r` the seconds left over (below 60) |
| BuildInfos.FormattedTimeRoundTrip | src/main/java/dank/builderui/util/BuildInfo.java:49-57 | every duration reads back as the form the 60-second cutoff picks, with the fields above, and that form stands for the duration |
| BuildInfos.ParseTimeInjective | src/main/java/dank/builderui/util/BuildInfo.java:49-57 | two texts that read back as the same form are the same text, so with the round trip the formatted time is the only text of its form and fields |
| Templates.NewTemplate | src/main/java/dank/builderui/util/StructureTemplate.java:21-27 | a new template has the given name and dimensions and no blocks |
| Templates.SetBlock | src/main/java/dank/builderui/util/StructureTemplate.java:32-34 | the position gets the block, the rest is kept, the count grows by one exactly when the position is new |
| Templates.SetBlockOverwrites | src/main/java/dank/builderui/util/StructureTemplate.java:32-34 | setting a position twice keeps only the second block |
| Templates.CountIsDistinctPositions | src/main/java/dank/builderui/util/StructureTemplate.java:97-99 | after any sequence of `setBlock`s on a new template, the block count is the number of distinct positions set |
| Templates.WithMaterial | src/main/java/dank/builderui/util/StructureTemplate.java:46-57 | same name, dimensions and position set; every block is the material's primary block |
| Templates.WithMaterialTwice | src/main/java/dank/builderui/util/StructureTemplate.java:46-57 | re-materialising keeps only the last material |
| Templates.ScaledDim | src/main/java/dank/builderui/util/StructureTemplate.java:63-65 | a scaled dimension is at least 1 and equals either 1 or the truncated product |
| Templates.MoveBlocks | src/main/java/dank/builderui/util/StructureTemplate.java:70-76 | the result's positions are exactly the images of the originals, each holds a block from a position sent there, and there are never more of them |
| Templates.WithScale | src/main/java/dank/builderui/util/StructureTemplate.java:62-79 | dimensions `max(1, (int)(d*s))`; every block moved to its per-axis truncated position; count never grows; Medium changes no block |
| FileNames.Sanitize | src/main/java/dank/builderui/util/CustomStructureManager.java:119-121 | same length; each character kept when in `[a-zA-Z0-9_-]`, `_` otherwise |
| FileNames.SanitizedIsAllowed | src/main/java/dank/builderui/util/CustomStructureManager.java:120 | the result uses only allowed characters |
| FileNames.SanitizeFixesExactlyAllowed | src/main/java/dank/builderui/util/CustomStructureManager.java:120 | a name is unchanged exactly when all its characters are allowed |
| FileNames.SanitizeIdempotent | src/main/java/dank/builderui/util/CustomStructureManager.java:120 | sanitising twice equals sanitising once |
| FileNames.SanitizeNotInjective | src/main/java/dank/builderui/util/CustomStructureManager.java:119-121 | "a b" and "a_b" save to the same file |
| FileNames.ListedName | src/main/java/dank/builderui/util/CustomStructureManager.java:92-96 | a file is listed exactly when it ends in `.json`, under the name that the suffix completes |
| FileNames.ListedAfterSave | src/main/java/dank/builderui/util/CustomStructureManager.java:92-96 | a structure saved as its sanitised name plus `.json` (line 38) is listed under its sanitised name |
| StructureBuilder.Dispatch | src/main/java/dank/builderui/util/StructureBuilder.java:30-41 | each type runs its own generator; `Custom` writes nothing and captures nothing |
| StructureBuilder.Build | src/main/java/dank/builderui/util/StructureBuilder.java:22-45 | no player or a client world: nothing changes and nothing is recorded; otherwise the generator runs at the player's position plus the offset and exactly its capture is recorded |
| StructureBuilder.BuildThenUndo | src/main/java/dank/builderui/util/StructureBuilder.java:22-45 | undo right after a build restores every position under `FirstWins`, but under `LastWins` leaves the House door primary; below the cap the player's earlier history is kept, and other players are untouched |
| StructureBuilder.UndoLeavesHouseDoor | src/main/java/dank/builderui/util/StructureBuilder.java:87-90 | a House built on empty ground and undone leaves a solid block at the door cell, where there was air |
| StructureBuilder.GetBuildInfo | src/main/java/dank/builderui/util/StructureBuilder.java:383-441 | the info carries the type, its description and its time; its requirements are exactly the type's lines, each with its count at the size |
| StructureBuilder.HouseNeeds | src/main/java/dank/builderui/util/StructureBuilder.java:386-390 | a House needs `(int)(50*s)` primary and `(int)(36*s)` roof blocks, nothing else |
| StructureBuilder.CatalogScales | src/main/java/dank/builderui/util/StructureBuilder.java:383-441 | the names do not depend on the size; every count is the Medium count scaled, except water |
| StructureBuilder.WaterIsOne | src/main/java/dank/builderui/util/StructureBuilder.java:401-421 | water is needed exactly by the Farm and the Fountain, one block at every size |
| StructureBuilder.CatalogMonotone | src/main/java/dank/builderui/util/StructureBuilder.java:383-441 | a larger size never needs fewer blocks of any kind |
| StructureBuilder.CustomNeedsNothing | src/main/java/dank/builderui/util/StructureBuilder.java:436-438 | `Custom` has no requirements and a total of 0 |
| StructureBuilder.HouseExtents | src/main/java/dank/builderui/util/StructureBuilder.java:68-70 | the House is 5 x 4 x 5 at Medium, 7 x 6 x 7 at Large, 2 x 2 x 2 at Small, 10 x 8 x 10 at Extra Large |

## Left out

- **Minecraft types.**
  - `World`, `BlockState`, `PlayerEntity` and `UUID` become an abstract grid, a block enumeration and a player id.
  - Which world the player is in, and reading the player's position, become inputs to `Build`.
- **Display names** of every enum, and the UI that cycles through them. They are labels only.
- **`BuildAction`'s timestamp.** The clock is never read back.
- **Copy semantics need no lemma.** This covers `BuildConfig.copy` (changing the copy cannot reach the original), and the copies made by `getBlocksNeeded`, `getBlocks` and `BuildAction`'s constructor. Maps are values in the model, so a caller cannot mutate a stored map.
- **File I/O in `CustomStructureManager`.**
  - Left out: the directory creation, Gson serialisation, `saveStructure`, `loadStructure` with its placeholder, `deleteStructure` and the `loadedStructures` cache.
  - Kept: the file name `saveStructure` builds and the suffix strip in `listStructures`.
- **Legacy `buildHouse`/`buildTower`.** They are `build` applied to a fresh configuration (`BuildConfigs.NewConfig`), so they have no separate member.
- **`rotation` and `style`.** They are carried and set, but no generator reads them, so there is no rotation geometry.
- Java `int` overflow is not modelled; all integers are unbounded. Every generator extent and catalog count is far below 2^31. A requirement total could overflow only with counts no caller supplies.
- BuildSizes.ScaledSignedTruncates: models `(int)(n * scale)` as exact arithmetic. Java first converts `n` to `float`, which rounds once `|n|` exceeds 2^24, and the cast saturates at the `int` bounds. Neither matters for the generators' small extents, but both can for template coordinates.
- Templates.WithScale: its positions and dimensions are exact only while every coordinate and dimension is at most 2^24 in magnitude and the scaled value fits an `int`. Beyond that, Java's `float` rounding and saturating cast give other positions. For example, `withScale(1.0f)` moves x = 16777217 to 16777216, which the model's "Medium changes no block" does not. The model does not add a precondition for this; it leaves the rounding unmodelled.
- Templates.WithScale: only takes the four size factors (0.5, 1.0, 1.5, 2.0), not an arbitrary `float`. Other factors would need floating-point rounding, which is not modelled.
- Templates.WithScale: when two blocks scale to the same position, it promises only that the survivor is *one of* them. Which one survives depends on `HashMap` iteration order, which is not modelled.
- Scan.Generate: states each position's block and capture entry, but not the number of entries. For example, the Medium House's capture has 149 entries (100 body cells plus 49 roof cells), and that count is not proved.
- BuildInfos.ParseTime: a reference reader used only to state the formatted-time round trip. The source has no parser. It reports which form it read and the numbers in its fields, and it reads numerals only as Java writes them (no leading zeros, no `-0`), so a text that reads back is the one text of its form.
- BuildInfos.FormattedTime: writes both forms in ASCII digits. The `"<s> seconds"` form uses string concatenation, which always does that. The `"<m> min <s> sec"` form uses `String.format`, which writes the default locale's digits; under a locale with other digits (Thai, for example), Java's text differs. The locale is not modelled.
- BuildInfos.LongTimeRoundTrip: holds for the long form as written under a locale with ASCII digits only; see `BuildInfos.FormattedTime`.
- BuildInfos.FormattedTimeRoundTrip: the same locale assumption applies to its long-form case.

## Findings

| source | as written | input that shows it | evidently intended | confidence | as-written member | corrected member |
|---|---|---|---|---|---|---|
| src/main/java/dank/builderui/util/StructureBuilder.java:77,88-89 | every capture uses `HashMap.put`, so a cell captured twice keeps its *last* read; the House door is read again after the wall loop painted it primary | a Medium Wood House built on empty ground, then undone: the door cell `(2, 1, 0)` from the origin was air, and after the undo it holds oak planks | undo restores the world as it was before the build, so each cell keeps its *first* read (`putIfAbsent`) | not executed | StructureBuilder.UndoLeavesHouseDoor | StructureBuilder.BuildThenUndo |

The same re-capture happens in four other generators:

| generator | re-captured cells | entry left under `LastWins` |
|---|---|---|
| Mansion | the two door cells | the wall blocks |
| Farm | the water cell | farmland |
| Fountain | the origin | the primary block |
| Castle | the corner-tower cells inside the body, and the gate cells | the primary block |

`Generators.MansionAt`, `FarmAt`, `FountainAt` and `CastleAt` state the `LastWins` entries for these cells.

The corrected behaviour is the `FirstWins` policy:

- `Scan.FirstWinsRecordsOriginal` proves that every entry is the pre-build block.
- `Undo.RestoreFaithful` proves that restoring such a capture gives the pre-build world back.
- `StructureBuilder.BuildThenUndo` proves that under `FirstWins` a build followed by an undo restores every position.
