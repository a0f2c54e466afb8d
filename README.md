# Mind of Seasons: a Dafny model of the game's world and state logic

Mind of Seasons is a small top-down pygame game. The player walks a
generated forest map, talks to Sprytek (the NPC by the starting cabin),
carries lost cats back to the cabin, collects items and avoids patrolling
enemies. This project models the game's deterministic, integer-valued logic
in Dafny and proves properties of it:

- world generation: sectors, cat placement and carved paths on the tile grid;
- the background: trees on isolated grass, the 16 x 16-tile chunk index of
  trees and trunk rectangles, and cat and collectible placement and pick-up;
- enemies: walkability, the corner probe, chase with hysteresis and axis
  fallbacks, patrol with a direction timer, and spread-out spawn choice;
- the cabin's walls, bounds and door, the camera, the player's
  collision-gated movement and walk animation;
- the UI state machines: inventory, minimap fog of war, NPC dialog, lore
  pages, the tutorial, and the main, pause, options, game-over, loading and
  credits screens;
- the session asset cache.

The repository holds two generations of the game. The older top-level
files (`background.py`, `camera.py`, `enemy.py`, `inventory.py`,
`lore_display.py`, `map_generator.py`, `player.py`) are modelled in the
`legacy_*` files and in `lore_display.dfy`. Where both versions exist, a
lemma relates them: `Background.ChunkedMatchesLinear` relates the chunked
collision test to the older linear scan, and `LegacyPlayer.MatchesUnobstructed`
and `LegacyCamera.AgreesWithCamera` relate the players and the cameras.

Objects whose fields the game updates in place are Dafny classes with
`modifies` frames. Each of their methods is proved against a pure function
of the old state, and the properties are proved as lemmas about those
functions. Loops in the source are loops here, with invariants.
Randomness is explicit: every `random.randint`, `random.choice`,
`random.shuffle` and `random.randrange` result is a draw passed in as a
parameter (module `Draws`), so "same inputs, same output" holds by
construction. pygame's `Rect` is the record `Geometry.Rect`, and the
predicate `Geometry.Collide` counts only a strictly positive overlap, as
`colliderect` does.
Python's floor division and modulo match Dafny's `/` and `%` for the
positive divisors the game uses.

Shared modules: `Wrappers` (Option), `Geometry` (Rect), `Input` (the key
state as booleans), `Tiles` (map data, trees, entries, chunks), `Draws`
and `Arith`.

## Model

| member | source | states |
|---|---|---|
| MapGenerator.Clamp | src/world/map_generator.py:115-116 | the clamp `max(0, min(hi, v))` is never negative and leaves an in-range value unchanged |
| MapGenerator.StampIsBlock | src/world/map_generator.py:94-97 | with a path width of 1 the diamond test `abs(ox) + abs(oy) <= 2` admits every offset of the 3x3 block: a cell is stamped iff it is within one step on each axis |
| MapGenerator.Link | src/world/map_generator.py:94-103 | between two adjacent cursors there is a chain of side-sharing cells, all inside the first cursor's stamp, ending at the second |
| MapGenerator.LinkRoute | src/world/map_generator.py:94-103 | the first cursor followed by that chain is a 4-connected route between the two cursors, inside the grid |
| MapGenerator.AdvanceInGrid | src/world/map_generator.py:105-122 | between in-grid ends, a cursor not yet next to the end always moves, stays in the grid and lands within one step per axis of where it was |
| MapGenerator.WalkBudget | src/world/map_generator.py:86-91 | a walk stamps at most `width * height` cursors |
| MapGenerator.WalkInGrid | src/world/map_generator.py:105-122 | between in-grid ends every cursor of the walk stays in the grid |
| MapGenerator.WalkConnects | src/world/map_generator.py:90-124 | the stamps of a walk contain a 4-connected route from its start to its target; the target is the end itself whenever the adjacency test stopped the walk |
| MapGenerator.HeadRoute | src/world/map_generator.py:94-103 | the link from the first cursor to a neighbouring cell is covered by that cursor's stamp |
| MapGenerator.JoinCovered | src/world/map_generator.py:90-124 | a covered head route joined with a route covered by the later cursors is a covered route |
| MapGenerator.CoveredIsCarved | src/world/map_generator.py:94-99 | once every stamped cell holds `"1"`, every cell of a covered route holds path |
| MapGenerator.CoveredByOne | src/world/map_generator.py:94-99 | a cell inside the stamp of any one cursor counts as covered |
| MapGenerator.CoveredPrepend | src/world/map_generator.py:90-99 | a cell covered by the later stamps stays covered when an earlier cursor is added |
| MapGenerator.Stamp | src/world/map_generator.py:94-99 | writes `"1"` into exactly the in-bounds cells of the 3x3 stamp and leaves every other cell as it was |
| MapGenerator.StepToward | src/world/map_generator.py:105-124 | the rest of one iteration: the optional clamped drift across the dominant axis, then one unit toward the end; `moved` is false exactly for the `else: break` case |
| MapGenerator.Walk | src/world/map_generator.py:78-124 | no contract of its own; defines the cursors `_draw_path` stamps; its properties are MapGenerator.WalkBudget, MapGenerator.WalkInGrid and MapGenerator.WalkConnects, and MapGenerator.DrawPath equals it |
| MapGenerator.DrawPath | src/world/map_generator.py:78-124 | `_draw_path`: the cursors stamped are the walk's, at most `width * height` of them; a cell becomes `"1"` iff some stamp covers it, and every other cell keeps its value (a path cell is never reverted) |
| MapGenerator.CeilRoot | src/world/map_generator.py:30 | the least `k` with `2 k^2 >= 3 n`, which is `ceil(sqrt(1.5 n))` in integers |
| MapGenerator.GridSize | src/world/map_generator.py:30-32 | the grid side is at least 3 and gives at least `num_cats` sectors |
| MapGenerator.Sectors | src/world/map_generator.py:36-41 | `g * g` sectors, row by row |
| MapGenerator.BuildSectors | src/world/map_generator.py:36-41 | the nested loop builds exactly the row-major sector list |
| MapGenerator.CatIn | src/world/map_generator.py:49-50 | a cat drawn in a roomy sector lies in `[sx + 2, ex - 2] x [sy + 2, ey - 2]` |
| MapGenerator.FirstCramped | src/world/map_generator.py:48-50 | finds the first selected sector whose `randint` range is empty, with every earlier sector roomy; none when all are roomy |
| MapGenerator.PlaceCats | src/world/map_generator.py:48-52 | the placement loop raises exactly when some selected sector is cramped, and otherwise yields the drawn cats that lie on the map, in sector order |
| MapGenerator.LatticeRoomy | src/world/map_generator.py:33-50 | every sector has room to draw iff both sector sides are at least 4 |
| MapGenerator.IndexInLattice | src/world/map_generator.py:37-41 | sector index `i` maps to the row `i / g` and the column `i % g`, both inside the lattice |
| MapGenerator.CellSector | src/world/map_generator.py:37-41 | an interior cell gives back the row and column of the sector that holds it |
| MapGenerator.DistinctSectorsDistinctCats | src/world/map_generator.py:37-50 | cats in the interiors of different sectors are different cells |
| MapGenerator.SectorInterior | src/world/map_generator.py:37-50 | a sector's interior lies within the margin-bounded area covered by the lattice |
| MapGenerator.CatsOfAllKept | src/world/map_generator.py:48-52 | when every drawn cat lies on the map, none is dropped and cat `i` comes from sector `i` |
| MapGenerator.SectorsDistinct | src/world/map_generator.py:36-41 | with sides of at least 4 the sectors are pairwise different |
| MapGenerator.CatInLattice | src/world/map_generator.py:26-50 | a cat drawn in any lattice sector lies in `[6, width - 6] x [6, height - 6]` |
| MapGenerator.CatsApart | src/world/map_generator.py:37-50 | cats drawn in two different sectors are different |
| MapGenerator.CatPlacement | src/world/map_generator.py:26-52 | when both sector sides are at least 4 the loop does not raise and places exactly `num_cats` cats, pairwise distinct, each in `[6, width - 6] x [6, height - 6]` |
| MapGenerator.CatsOfInGrid | src/world/map_generator.py:51-52 | every cat that reaches the list lies on the map |
| MapGenerator.UsedSeed | src/world/map_generator.py:19-21 | a given seed is kept, a missing one is drawn from `[0, 999999]` |
| MapGenerator.Selection | src/world/map_generator.py:44-45 | the shuffled lattice cut to its first `num_cats` sectors has exactly `num_cats` of them |
| MapGenerator.Ring | src/world/map_generator.py:58-64 | segment `i` of the cycle joins `pois[i]` to `pois[(i + 1) % len(pois)]` |
| MapGenerator.Plan | src/world/map_generator.py:57-73 | no contract of its own; defines the cycle and chord segments `generate_map` carves; its properties are MapGenerator.PlanShape, MapGenerator.PlanInGrid and MapGenerator.MapConnected |
| MapGenerator.Painted | src/world/map_generator.py:60-73 | no contract of its own; defines the cells the carved segments make path; its properties are MapGenerator.PaintedByOne and MapGenerator.PaintedRoute, and MapGenerator.CarveRing and MapGenerator.CarveChords equal it |
| MapGenerator.GenerateMap | src/world/map_generator.py:5-75 | `generate_map`: a fresh `height` x `width` grid; it raises iff a selected sector is cramped; otherwise it returns the selected sectors' cats, the centre spawn and the used seed, and a cell is `"1"` iff some planned walk stamps it and `"0"` otherwise |
| MapGenerator.CarveRing | src/world/map_generator.py:58-64 | after the cycle loop a cell is path iff a cycle walk stamps it |
| MapGenerator.CarveChords | src/world/map_generator.py:66-73 | after the extra connections a cell is path iff it was already path or a chord walk stamps it |
| MapGenerator.MapInitialization | src/world/map_generator.py:127-143 | `map_initialization` has exactly the outcome of `generate_map` with the same arguments |
| MapGenerator.ChordsJoinCats | src/world/map_generator.py:69-73 | at most the drawn number of chords, each joining two different cats |
| MapGenerator.PlanShape | src/world/map_generator.py:55-73 | the plan is the cycle through `[spawn] + cats`, followed by at most two chords between different cats, and no chords unless there are more than two cats |
| MapGenerator.PlanInGrid | src/world/map_generator.py:55-64 | on a non-empty map with in-grid cats every planned segment runs between in-grid cells |
| MapGenerator.PaintedRoute | src/world/map_generator.py:58-73 | in a grid where each painted cell holds path, every segment is joined by a route of path cells from its start to its walk's target |
| MapGenerator.PaintedByOne | src/world/map_generator.py:58-73 | a cell stamped by the walk of any one segment is painted |
| MapGenerator.MapConnected | src/world/map_generator.py:55-73 | connectivity of the generated map: each carved segment is joined by a 4-connected route of `"1"` cells from its start to its walk's target |
| MapGenerator.RaisesIffCramped | src/world/map_generator.py:33-50 | the error condition: `generate_map` raises iff it has cats to place and a sector side is below 4 |
| MapGenerator.Deterministic | src/world/map_generator.py:19-21 | two outcomes for the same arguments and seed draws agree on the seed, the error, the cats, the spawn and every grid cell |
| LegacyMapGenerator.CalculateCameraOffset | map_generator.py:3-8 | the tile-based offset is clamped to `[0, map_width * tile_size - screen_width]` (and the same for y) whenever the map is at least a screen wide |
| LegacyMapGenerator.AgreesWhenAligned | map_generator.py:3-8 | on a player standing exactly on its tile it equals the pixel-based camera offset |
| Camera.ClampOffset | src/world/camera.py:15-16 | `max(0, min(v, hi))` lies in `[0, hi]` (0 when `hi` is negative), is `v` when `v` is already in range, and is the nearer bound otherwise |
| Camera.ClampIdempotent | src/world/camera.py:15-16 | clamping an already clamped offset changes nothing |
| Camera.CalculateCameraOffset | src/world/camera.py:1-18 | the offset is never negative, never shows past the map's right or bottom edge, is 0 on an axis where the map is smaller than the screen, and is exactly the centred offset whenever that is in range |
| LegacyCamera.CalculateCameraOffset | camera.py:3-16 | the older copy keeps the offset in `[0, map_size * tile_size - screen_size]` on each axis |
| LegacyCamera.AgreesWithCamera | camera.py:3-16 | the older copy and the current one compute the same offset on every input |
| LegacyCamera.AxesIndependent | camera.py:9-14 | the x offset depends only on the x inputs, the y offset only on the y inputs |
| Background.ConvertGrid | src/world/background.py:98-102 | no grid gives an empty map; otherwise the same shape, and a cell is `'path'` iff the grid cell is `'1'` |
| Background.RowTreesMembers | src/world/background.py:117-122 | the trees of one row are exactly that row's planted tiles |
| Background.RowTreesBounds | src/world/background.py:117-122 | the trees of one row lie in that row, within the scanned columns |
| Background.RowTreesSorted | src/world/background.py:117-122 | the trees of one row come left to right |
| Background.Trees | src/world/background.py:114-123 | no contract of its own; defines `_generate_trees`; its properties are Background.TreesUpToMembers, Background.TreesUpToSorted and Background.TreesCharacterised, and Background.Background.GenerateTrees equals it |
| Background.TreesUpToBounds | src/world/background.py:117-122 | the trees of the first rows lie in those rows |
| Background.TreesUpToMembers | src/world/background.py:117-122 | the trees of the first rows are exactly the planted tiles of those rows |
| Background.TreesUpToSorted | src/world/background.py:117-122 | the trees of the first rows come in row-major order |
| Background.TreesCharacterised | src/world/background.py:104-123 | `_generate_trees`: a tree stands exactly on each grass tile with no in-bounds path in its 3x3 block whose draw plants one; its image index is below `len(tree_images)`; trees come in row-major order |
| Background.Trunk | src/world/background.py:158-165 | the trunk rect is `(x * tile_size + 17, y * tile_size + 46, 30, 40)` |
| Background.Trunks | src/world/background.py:160-165 | one trunk per tree, in tree order |
| Background.TreeChunks | src/world/background.py:143-153 | no contract of its own; defines `_build_tree_chunks`; its properties are Background.InChunkMembers and Background.TreeChunksAreFilters, and Background.Background.BuildTreeChunks equals it |
| Background.CollisionChunks | src/world/background.py:155-173 | no contract of its own; defines `_build_collision_chunks`; its properties are Background.CollisionChunksParallel, Background.ChunkRectIsTrunk, Background.TrunkIsListed and Background.ChunkedMatchesLinear, and Background.Background.BuildCollisionChunks equals it |
| Background.InChunkMembers | src/world/background.py:146-152 | the reference chunk list holds exactly the trees whose key is `(x // 16, y // 16)` |
| Background.TreeChunksAreFilters | src/world/background.py:143-153 | `_build_tree_chunks`: a key is present iff some tree has it, and its list is exactly that chunk's trees in `tree_positions` order, so no list is empty and every tree is filed once |
| Background.TrunksAppend | src/world/background.py:160-172 | appending a tree appends its trunk |
| Background.CollisionChunksParallel | src/world/background.py:155-173 | `_build_collision_chunks` has the tree chunks' keys, and each list holds the trunks of that key's trees, index-parallel to the tree lists |
| Background.TrunkNearQuery | src/world/background.py:262-279 | a query at most one chunk wide and high that overlaps a trunk has its centre's chunk next to the trunk's chunk |
| Background.ChunkRectIsTrunk | src/world/background.py:155-173 | each rectangle in the collision index is the trunk of some tree |
| Background.TrunkIsListed | src/world/background.py:155-173 | each tree's trunk is listed under its chunk key |
| Background.ChunkHit | src/world/background.py:262-279 | no contract of its own; defines `check_tree_collision`'s 3x3 chunk search; its property is Background.ChunkedMatchesLinear, and Background.Background.CheckTreeCollision equals it |
| Background.ChunkedMatchesLinear | src/world/background.py:262-279 | for queries at most 1024 pixels wide and high, the 3x3 chunk search finds a hit iff some trunk of any tree overlaps the query (the linear scan of background.py) |
| Background.RowSpotsMembers | src/world/background.py:196-199 | the candidate scan of one row keeps exactly that row's candidate tiles |
| Background.SpotsUpToMembers | src/world/background.py:196-199 | the candidate scan of the first rows keeps exactly their candidate tiles |
| Background.SpotsMembers | src/world/background.py:194-244 | `path_positions` holds exactly the path tiles outside the blocked set (and more than 20 tiles from spawn for collectibles) |
| Background.Selected | src/world/background.py:201-255 | no contract of its own; defines the spread-out selection loops of `_generate_cats` and `_generate_collectibles`; its properties are Background.SelectedSpread and Background.SelectedStalls, and Background.Background.PickSpread equals it |
| Background.SelectedSpread | src/world/background.py:201-255 | the selection loop keeps at most `cap` tiles and at most one per pass, all candidates, pairwise at the required Manhattan spacing and away from the cats |
| Background.SelectedStalls | src/world/background.py:203-250 | once the cap is reached or there is no candidate, further passes change nothing |
| Background.Unblocked | src/world/background.py:181-222 | the filtered positions are exactly the given ones outside the blocked set |
| Background.Take | src/world/background.py:181-222 | the slice `[:n]` is a prefix of length `min(n, len)` |
| Background.SetupEntries | src/world/background.py:175-227 | no contract of its own; defines `_setup_cats` and `_setup_collectibles`; its property is Background.SetupEntriesFacts, and Background.Background.SetupCats and Background.Background.SetupCollectibles equal it |
| Background.Cells | src/world/background.py:254 | the cells of placed entries, index by index |
| Background.SetupEntriesFacts | src/world/background.py:175-227 | `_setup_cats` and `_setup_collectibles`: at most the cap, numbered `0..k-1`, each a given position outside the blocked tiles; exactly the cap when enough positions are usable |
| Background.GeneratedCatsFacts | src/world/background.py:189-214 | `_generate_cats`: at most five cats, numbered from 0, each on a path tile under no tree, pairwise at least 15 apart |
| Background.GeneratedItemsFacts | src/world/background.py:229-260 | `_generate_collectibles`: at most ten, numbered from 0, each on a path tile under no tree and no cat, more than 20 tiles from spawn, 12 apart from each other and 8 from every cat |
| Background.OutsideArea | src/world/background.py:131-134 | no contract of its own; defines the tree filter of `clear_trees_in_area`; its properties are Background.OutsideAreaMembers and Background.OutsideAreaSorted |
| Background.OutsideAreaMembers | src/world/background.py:131-134 | clearing removes exactly the trees in the inclusive rectangle and keeps every other one |
| Background.SortedBeforeLast | src/world/background.py:131-134 | in a row-major list every tree before the last comes before it |
| Background.OutsideAreaSorted | src/world/background.py:131-134 | clearing keeps row-major order |
| Background.Background.constructor | src/world/background.py:59-96 | the instance holds the settings and spawn (the given one or the centre), `_convert_grid(grid)`, the cached trees and indexes when the cache has them and otherwise the planted trees with freshly built indexes, and the filtered or generated cats and collectibles |
| Background.Background.InitTrees | src/world/background.py:82-93 | a cached record is copied in and marks the instance as built from cache; otherwise trees and both indexes are built |
| Background.Background.InitEntries | src/world/background.py:95-96 | non-empty given positions are filtered, otherwise positions are generated; collectibles avoid the cats placed first |
| Background.Background.IsIsolatedGrass | src/world/background.py:104-112 | true iff no in-bounds tile of the 3x3 block is path |
| Background.Background.GenerateTrees | src/world/background.py:114-123 | the nested loop yields exactly `Background.Trees`, row by row |
| Background.Background.RowOfTrees | src/world/background.py:118-122 | the inner loop yields exactly one row's trees |
| Background.Background.BuildTreeChunks | src/world/background.py:143-153 | the loop builds exactly the tree-chunk dictionary |
| Background.Background.BuildCollisionChunks | src/world/background.py:155-173 | the loop builds exactly the collision-chunk dictionary |
| Background.Background.NumberCells | src/world/background.py:183-212 | the `enumerate` loop numbers the positions from 0 |
| Background.Background.SetupCats | src/world/background.py:175-187 | the first five given positions not under a tree, numbered |
| Background.Background.SetupCollectibles | src/world/background.py:216-227 | the first ten given positions under no tree and no cat, numbered |
| Background.Background.CollectSpots | src/world/background.py:194-244 | the scan yields exactly the candidate list `Background.Spots` |
| Background.Background.PickSpread | src/world/background.py:201-255 | the bounded selection loop yields exactly `Background.Selected` |
| Background.Background.GenerateCats | src/world/background.py:189-214 | `_generate_cats` as `Tiles.Numbered` of `Background.Selected` over the candidates `Background.Spots` |
| Background.Background.GenerateCollectibles | src/world/background.py:229-260 | `_generate_collectibles` as `Tiles.Numbered` of `Background.Selected` over the candidates `Background.Spots`, avoiding the placed cats |
| Background.Background.CheckTreeCollision | src/world/background.py:262-279 | true iff a trunk listed in the 3x3 chunk block around the query centre's chunk overlaps the query; with indexes built from the trees, 64-pixel tiles and a query of at most one chunk per side, iff some trunk of any tree overlaps it |
| Background.Background.FirstNear | src/world/background.py:284-309 | the first entry whose anchor is strictly nearer the query centre than the radius, with its image index; none iff no entry is near |
| Background.Background.CheckCatProximity | src/world/background.py:281-291 | the first cat within 60 pixels of the query centre and its lore index, or none iff no cat is that near |
| Background.Background.CheckCollectibleProximity | src/world/background.py:299-309 | the first collectible within 50 pixels and its index, or none iff none is that near |
| Background.Background.CollectCat | src/world/background.py:293-297 | an index in range removes and returns exactly that cat and keeps the others in order; any other index returns none and changes nothing |
| Background.Background.CollectCollectible | src/world/background.py:311-315 | the same for collectibles |
| Background.Background.ClearTreesInArea | src/world/background.py:125-141 | a no-op when built from cache; otherwise the trees in the inclusive rectangle go, both indexes are rebuilt from the rest, and the result is stored in the tree cache under `(map_width, map_height, spawn_point)` |
| Tiles.TreeTiles | src/world/background.py:178 | the set of tree tiles holds exactly each tree's `(x, y)` |
| Tiles.IsPath | src/world/background.py:109-110 | no contract of its own; defines the in-bounds `'path'` tile test; its properties are stated through Background.GeneratedCatsFacts, Background.GeneratedItemsFacts and Background.Background.IsIsolatedGrass |
| Tiles.EntryTiles | src/world/background.py:220 | the set of entry tiles holds exactly each entry's `(x, y)` |
| Tiles.Numbered | src/world/background.py:183-185 | `enumerate`: entry `i` is position `i` numbered `i` |
| Tiles.RemoveAt | src/world/background.py:295-296 | `pop(i)`: one shorter, entries before `i` kept, later entries shifted down |
| LegacyBackground.WithImages | background.py:116-144 | each kept position gets an image index `randrange(len(cat_images))`, below the number of cat images |
| LegacyBackground.WithImagesInRange | background.py:116-143 | every image index is below the number of cat images |
| LegacyBackground.WithImagesAppend | background.py:114-117 | one more position appends one more cat |
| LegacyBackground.GeneratedLegacyCats | background.py:121-146 | the older `_generate_cats`: at most three path tiles under no tree, pairwise at least 8 apart, each with an image index in range |
| LegacyBackground.LegacyBackground.constructor | background.py:45-63 | the trees are those the draws plant, the cats are the filtered given positions (or generated ones), and the collision list is one trunk per tree |
| LegacyBackground.LegacyBackground.IsIsolatedGrass | background.py:74-82 | true iff no in-bounds tile of the 3x3 block is path |
| LegacyBackground.LegacyBackground.GenerateTrees | background.py:84-93 | the same placement rule as the current copy: exactly the planted tiles, row by row |
| LegacyBackground.LegacyBackground.RowOfTrees | background.py:88-92 | the inner loop yields one row's trees |
| LegacyBackground.LegacyBackground.GenerateTreeCollisions | background.py:95-107 | exactly one trunk rect `(x * tile_size + 17, y * tile_size + 46, 30, 40)` per tree, in tree order |
| LegacyBackground.LegacyBackground.SetupCats | background.py:109-119 | every given position not on a tree tile, in order and with no cap, each with an image index |
| LegacyBackground.LegacyBackground.GenerateCats | background.py:121-146 | the selection of at most three spread path tiles after at most 100 draws, each with an image index |
| LegacyBackground.LegacyBackground.PathPositions | background.py:127-131 | the scan yields the path tiles not under a tree, row by row |
| LegacyBackground.LegacyBackground.SelectSpread | background.py:133-140 | the bounded selection loop yields exactly `Background.Selected` with the older cap, tries and spacing |
| LegacyBackground.LegacyBackground.CheckTreeCollision | background.py:148-153 | true iff some trunk rect overlaps the query |
| LegacyBackground.LegacyBackground.CheckCatProximity | background.py:155-165 | the first cat within 60 pixels and its image index, or none iff no cat is that near |
| LegacyBackground.LegacyBackground.CollectCat | background.py:167-171 | an index in range removes and returns that cat; anything else returns none and changes nothing |
| LegacyBackground.LinearScanMatchesChunks | background.py:148-153 | the brute-force scan agrees with the chunked search of the current copy for queries at most one chunk per side |
| Enemy.WalkableIgnoresTerrain | src/entities/enemy.py:53-61 | `_is_walkable` looks only at the bounds and the tree tiles: any map of the same shape with the same trees gives the same answer, path and grass alike |
| Enemy.Walkable | src/entities/enemy.py:53-61 | no contract of its own; defines `_is_walkable`; its property is Enemy.WalkableIgnoresTerrain |
| Enemy.CanMoveTo | src/entities/enemy.py:67-82 | no contract of its own; defines `_can_move_to`; its properties are Enemy.ChaseMove and Enemy.Step, and Enemy.Enemy.CanMove equals it |
| Enemy.FirstOpenFrom | src/entities/enemy.py:89-103 | the scan from position `i` returns an open later direction whenever there is one, and otherwise the current direction |
| Enemy.FirstOpen | src/entities/enemy.py:84-103 | `_choose_new_direction` returns a direction whose 2 x speed probe passes `_can_move_to` whenever one does, and the current direction iff none does |
| Enemy.Facing | src/entities/enemy.py:124-128 | the facing is horizontal iff the horizontal offset is strictly larger, and follows the offset's sign (`up` when the vertical offset is not positive) |
| Enemy.ChaseMove | src/entities/enemy.py:151-179 | the chase move is the full move if allowed, else the X-only move, else the Y-only move, else no move; whatever is accepted passes `_can_move_to` |
| Enemy.NextChasing | src/entities/enemy.py:142-149 | hysteresis: nearer than 150 pixels sets the chase flag, farther than 350 clears it, and in between or with no player it is unchanged |
| Enemy.RowCandidatesMembers | src/entities/enemy.py:263-271 | the scan of one row keeps exactly its path tiles farther than 25 tiles from spawn |
| Enemy.CandidatesUpToMembers | src/entities/enemy.py:262-271 | the scan of the first rows keeps exactly their such tiles |
| Enemy.SpawnCandidatesMembers | src/entities/enemy.py:259-271 | `valid_positions` holds exactly the path tiles farther than 25 tiles from spawn |
| Enemy.SpreadFacts | src/entities/enemy.py:273-293 | the greedy pass keeps a subsequence of the shuffled list, at most `num_enemies` long, pairwise at least 8 tiles apart |
| Enemy.SpreadStalls | src/entities/enemy.py:278-280 | once enough positions are kept, the `break` changes nothing |
| Enemy.SpreadPrefix | src/entities/enemy.py:278-291 | scanning one more position keeps it iff the count is short and it is far from all kept ones |
| Enemy.SpawnPositions | src/entities/enemy.py:257-293 | no contract of its own; defines `_find_spawn_positions`; its property is Enemy.SpawnPositionsFacts, and Enemy.EnemyManager.FindSpawnPositions equals it |
| Enemy.SpawnPositionsFacts | src/entities/enemy.py:257-293 | `_find_spawn_positions`: at most `num_enemies` path tiles, each more than 25 tiles from spawn, pairwise at least 8 apart, a subsequence of the shuffled candidates |
| Enemy.Spawned | src/entities/enemy.py:18-51 | a new enemy has its sprite at `(x * tile_size, y * tile_size)`, the 40 x 40 hitbox at offset `(20, 20)`, a zero direction timer, an interval in `[60, 180]`, and is not chasing |
| Enemy.Animate | src/entities/enemy.py:137-140 | after 150 ms or more the timer resets and the frame advances modulo 4; otherwise only the timer grows |
| Enemy.ChaseStep | src/entities/enemy.py:151-179 | a chase update takes the chase move, faces along the larger offset, keeps the counters, and keeps the sprite 20 pixels up and left of the hitbox |
| Enemy.Turned | src/entities/enemy.py:182-185 | once the timer reaches the interval, the timer resets, the interval is redrawn in `[30, 120]` and the direction is re-chosen; otherwise nothing changes |
| Enemy.Walked | src/entities/enemy.py:187-202 | the patrol step moves one speed step in the direction only when `_can_move_to` allows it |
| Enemy.PatrolStep | src/entities/enemy.py:180-202 | the patrol update: the redraw when due, then the step along the (possibly new) direction when clear |
| Enemy.Tick | src/entities/enemy.py:134-149 | the head of `update`: the direction timer counts up, the animation advances, and the chase flag follows the hysteresis rule |
| Enemy.Step | src/entities/enemy.py:132-202 | one `update`: the hitbox stays put or moves to a rect that passes `_can_move_to`; `x == rect.x - 20` and `y == rect.y - 20` are kept; the chase flag and animation follow their rules |
| Enemy.StepChases | src/entities/enemy.py:151-179 | with a player in sight and the flag set, the update takes the chase move and the direction timer still counts |
| Enemy.StepPatrols | src/entities/enemy.py:180-202 | otherwise the timer resets and the interval is redrawn in `[30, 120]` exactly when the timer reaches the interval, and the new direction is open whenever some direction is |
| Enemy.Enemy.constructor | src/entities/enemy.py:18-51 | a fresh enemy in the spawned state on the given map and tree tiles |
| Enemy.Enemy.CurrentTile | src/entities/enemy.py:63-65 | the tile whose pixel square holds the hitbox centre |
| Enemy.Enemy.CheckCollision | src/entities/enemy.py:204-206 | the hitbox overlaps the player's rect with positive area, in either order |
| Enemy.Enemy.CanMove | src/entities/enemy.py:67-82 | the corner loop answers `_can_move_to`: all four points 10 pixels inside the corners lie on walkable tiles |
| Enemy.Enemy.ChooseNewDirection | src/entities/enemy.py:84-103 | the probe loop over the shuffled list returns `Enemy.FirstOpen`, the first open direction |
| Enemy.Enemy.MoveTo | src/entities/enemy.py:161-163 | the hitbox is adopted and the sprite trails it by the hitbox offset |
| Enemy.Enemy.Update | src/entities/enemy.py:132-202 | the new state is exactly one `Step` of the old state |
| Enemy.Enemy.Chase | src/entities/enemy.py:151-179 | the chase branch computes exactly `ChaseStep` |
| Enemy.Enemy.Patrol | src/entities/enemy.py:180-202 | the patrol branch computes exactly `PatrolStep` |
| Enemy.ChosenSpawns | src/entities/enemy.py:235-242 | a non-empty cached list is reused, otherwise the positions are searched afresh |
| Enemy.EnemyManager.States | src/entities/enemy.py:297-298 | one state per enemy, in list order |
| Enemy.EnemyManager.constructor | src/entities/enemy.py:227-247 | the tree tiles come from the tree list; the spawn positions are the cached ones or freshly searched ones, which are then stored under the key; one distinct, consistent enemy stands at each position; the tree cache is untouched; each enemy's image loading is left out |
| Enemy.EnemyManager.LoadSpawns | src/entities/enemy.py:235-242 | a non-empty cached list is taken; otherwise positions are searched and stored under the key, every other key kept |
| Enemy.EnemyManager.CreateEnemies | src/entities/enemy.py:245-247 | one fresh enemy per position, all distinct and sharing the tree tiles |
| Enemy.EnemyManager.IsNearTree | src/entities/enemy.py:249-255 | true iff some tree tile lies in the square of half-width `radius` around the tile |
| Enemy.EnemyManager.NearTreeColumn | src/entities/enemy.py:252-254 | the inner loop finds a tree tile in one column of that square |
| Enemy.EnemyManager.ValidPositions | src/entities/enemy.py:259-271 | the scan yields exactly the candidate list `Enemy.SpawnCandidates` |
| Enemy.EnemyManager.RowPositions | src/entities/enemy.py:263-271 | the inner loop yields exactly one row's candidates |
| Enemy.EnemyManager.TooClose | src/entities/enemy.py:283-288 | `too_close` iff some kept position is nearer than 8 tiles |
| Enemy.EnemyManager.FindSpawnPositions | src/entities/enemy.py:257-293 | the scan, shuffle and greedy pass yield exactly `Enemy.SpawnPositions` |
| Enemy.EnemyManager.Update | src/entities/enemy.py:295-298 | every enemy takes exactly one `Step` with its own inputs, and the enemies stay distinct and consistent |
| Enemy.EnemyManager.StepEnemy | src/entities/enemy.py:297-298 | one pass of the loop changes only the enemy it updates |
| Enemy.EnemyManager.CheckPlayerCollision | src/entities/enemy.py:300-305 | true iff some enemy's hitbox overlaps the player's rect |
| LegacyEnemy.LegacyFirstOpen | enemy.py:64-83 | the older `_choose_new_direction` returns a direction whose 4-pixel probe keeps every corner on path whenever one does, and otherwise the current direction |
| LegacyEnemy.PathCorners | enemy.py:47-62 | no contract of its own; defines the older `can_move` corner test; its properties are LegacyEnemy.SpawnOnPath, LegacyEnemy.RunStaysOnPath and LegacyEnemy.SpawnedStaysOnPath, and LegacyEnemy.LegacyEnemy.CanMove equals it |
| LegacyEnemy.LegacySpawned | enemy.py:21-35 | a new enemy occupies the 50 x 50 rect at `(x * tile_size, y * tile_size)`, with a zero direction timer and an interval in `[60, 180]` |
| LegacyEnemy.LegacyTurned | enemy.py:87-93 | the timer counts up; once it reaches the interval it resets, the interval is redrawn in `[30, 120]` and any of the four directions is drawn, with no walkability check |
| LegacyEnemy.LegacyStep | enemy.py:85-110 | one `update`: the counter resets and interval and direction are redrawn exactly when due, and otherwise the counter counts up; the rect moves 2 pixels in the new direction exactly when the moved rect passes `_can_move_to`, and is unchanged otherwise; `x` and `y` follow a move; a spawned enemy stays valid |
| LegacyEnemy.SpawnOnPath | enemy.py:26-62 | with tiles of at least 50 pixels, the spawn rect on a path tile has all four corners on path |
| LegacyEnemy.RunStaysOnPath | enemy.py:85-110 | over any sequence of updates an enemy that starts with its corners on path keeps them on path |
| LegacyEnemy.SpawnedStaysOnPath | enemy.py:26-110 | an enemy spawned on a path tile with tile size at least 50 never has a corner off path |
| LegacyEnemy.LegacyEnemy.constructor | enemy.py:21-35 | a fresh enemy in the spawned state |
| LegacyEnemy.LegacyEnemy.CheckCollision | enemy.py:112-114 | the rect overlaps the player's rect with positive area, in either order |
| LegacyEnemy.LegacyEnemy.CanMove | enemy.py:47-62 | true iff the corners (left, top), (right - 1, top), (left, bottom - 1) and (right - 1, bottom - 1) all lie on path tiles |
| LegacyEnemy.LegacyEnemy.ChooseNewDirection | enemy.py:64-83 | the probe loop returns `LegacyEnemy.LegacyFirstOpen`, the first open direction |
| LegacyEnemy.LegacyEnemy.Update | enemy.py:85-110 | the new state is exactly one `LegacyStep` of the old state |
| LegacyEnemy.LegacyEnemyManager.constructor | enemy.py:132-142 | one distinct enemy stands at each searched spawn position |
| LegacyEnemy.LegacyEnemyManager.CreateEnemies | enemy.py:140-142 | one fresh enemy per position |
| LegacyEnemy.LegacyEnemyManager.PathPositions | enemy.py:146-155 | the scan yields exactly the path tiles farther than 15 tiles from spawn, row by row |
| LegacyEnemy.LegacyEnemyManager.FindSpawnPositions | enemy.py:144-177 | at most `num_enemies` path tiles, more than 15 from spawn and pairwise at least 8 apart: exactly `Enemy.SpawnPositions` with the older 15-tile distance, for the shuffle draws |
| LegacyEnemy.LegacyEnemyManager.TooClose | enemy.py:167-172 | `too_close` iff some kept position is nearer than 8 tiles |
| LegacyEnemy.LegacyEnemyManager.Update | enemy.py:179-182 | every enemy takes exactly one `LegacyStep` |
| LegacyEnemy.LegacyEnemyManager.CheckPlayerCollision | enemy.py:184-189 | true iff some enemy rect overlaps the player rect |
| AssetCache.Cache.constructor | src/utils/asset_cache.py:8-14 | at import time all five caches are empty and the font module is not yet initialised |
| AssetCache.Cache.GetImage | src/utils/asset_cache.py:25-58 | a known `(path, size)` key returns the stored surface and stores nothing; otherwise a successful load is stored and returned, and a failed load returns `None` and stores nothing; no other cache changes |
| AssetCache.Cache.GetFont | src/utils/asset_cache.py:17-78 | the font module ends initialised; a known size returns the stored font; otherwise the loaded font is stored and returned |
| AssetCache.Cache.GetCachedTrees | src/utils/asset_cache.py:136-138 | the stored record for a known key, `None` for an unknown one |
| AssetCache.Cache.SetCachedTrees | src/utils/asset_cache.py:141-147 | afterwards the key reads back the given trees and chunk maps, and every other key keeps its entry |
| AssetCache.Cache.GetCachedEnemySpawns | src/utils/asset_cache.py:150-152 | the stored positions for a known key, `None` for an unknown one |
| AssetCache.Cache.SetCachedEnemySpawns | src/utils/asset_cache.py:155-157 | afterwards the key reads back the given positions, and every other key keeps its entry |
| AssetCache.Cache.ClearCache | src/utils/asset_cache.py:160-167 | empties all five caches |
| AssetCache.Cache.ClearAllCaches | src/utils/asset_cache.py:170-175 | empties the map, tree and enemy-spawn caches and keeps images and fonts |
| AssetCache.ImageMemoised | src/utils/asset_cache.py:38-55 | a second request for the same key returns the first successful answer without loading again |
| AssetCache.FontMemoised | src/utils/asset_cache.py:73-78 | a second request for the same size returns the same font |
| Cabin.LayoutKinds | src/world/cabin.py:96-103 | the layout list is 5 rows of 6 cells, and each cell agrees with the cell-kind rule: a roof row, walls at both ends, floor inside, doors at columns 2 and 3 of the bottom row |
| Cabin.WallRects | src/world/cabin.py:116-129 | no contract of its own; defines `_build_wall_collisions`; its properties are Cabin.WallCount, Cabin.TileClear, Cabin.DoorsOpen and Cabin.SpawnAndSprytekClear, and Cabin.Cabin.BuildWallCollisions equals it |
| Cabin.Bounds | src/world/cabin.py:142-144 | no contract of its own; defines `get_bounds`; its properties are Cabin.SpawnAndSprytekClear and the containment facts of Cabin.Cabin.GetBounds |
| Cabin.RowRectsLength | src/world/cabin.py:119-128 | one rectangle per blocking cell of a row |
| Cabin.WallCount | src/world/cabin.py:97-129 | there are exactly 16 wall rectangles: six roof cells and ten wall cells |
| Cabin.TileOverlap | src/world/cabin.py:122-136 | two tile-sized rectangles overlap iff they are the same tile |
| Cabin.CollidesAnyAppend | src/world/cabin.py:131-136 | a query hits the concatenation of two rect lists iff it hits one of them |
| Cabin.RowRectsHit | src/world/cabin.py:119-128 | a tile hits a row's rectangles iff it is one of that row's wall or roof cells |
| Cabin.RectsUpToHit | src/world/cabin.py:119-128 | a tile hits the first rows' rectangles iff it is one of their wall or roof cells |
| Cabin.TileClear | src/world/cabin.py:116-136 | a tile hits the walls iff its layout cell is kind 1 (wall) or 3 (roof); floor and door tiles never block |
| Cabin.DoorsOpen | src/world/cabin.py:102-136 | the door tiles `(x + 2, y + 4)` and `(x + 3, y + 4)` never block |
| Cabin.SpawnAndSprytekClear | src/world/cabin.py:93-144 | for the cabin placed for a spawn, the spawn tile and the Sprytek tile lie inside `get_bounds` and clear of every wall rectangle |
| Cabin.Cabin.constructor | src/world/cabin.py:83-114 | the cabin origin is `(spawn_x - 3, spawn_y - 6)`, Sprytek stands at `(spawn_x - 1, spawn_y + 1)` and the wall rectangles are those of the layout |
| Cabin.Cabin.BuildWallCollisions | src/world/cabin.py:116-129 | the nested loop yields exactly one tile-sized rectangle per wall or roof cell, in layout order |
| Cabin.Cabin.CheckCollision | src/world/cabin.py:131-136 | true iff the query overlaps some wall rectangle |
| Cabin.Cabin.GetSprytekPosition | src/world/cabin.py:138-140 | the pixel position is the top-left corner of the Sprytek tile: dividing by the tile size gives the tile back, with no remainder |
| Cabin.Cabin.GetBounds | src/world/cabin.py:142-144 | the inclusive box holds every cabin tile, the spawn tile in front of the door and the Sprytek tile below it; it reaches one column left of and one row above the cabin, two columns past its last column and three rows below its last row, and no further |
| Player.DeltaX | src/entities/player.py:50-58 | the horizontal step is +5 exactly when right (D or →) is held without left, -5 exactly when left (A or ←) is held without right, and 0 otherwise |
| Player.DeltaY | src/entities/player.py:70-76 | the vertical step is -5 exactly when up (W or ↑) is held without down, +5 exactly when down (S or ↓) is held without up, and 0 otherwise |
| Player.Facing | src/entities/player.py:51-58 | holding left always faces left, holding right alone faces right, and with neither held the facing is kept |
| Player.Blocked | src/entities/player.py:61-65 | no contract of its own; defines the collision test of `update`; its properties are Player.Try, Player.StepAxes, Player.StepStaysClear and Player.RunStaysClear, and Player.Player.CanMove equals its negation |
| Player.Try | src/entities/player.py:60-67 | one axis's attempt keeps the size, yields either the old rectangle or the moved one, takes the move whenever the moved rectangle is clear, and never ends on a blocked rectangle it moved to |
| Player.Resolve | src/entities/player.py:49-85 | no contract of its own; defines the horizontal-then-vertical move of `update`; its properties are Player.StepAxes, Player.StepDisplacement and Player.OppositeKeysCancel |
| Player.Animate | src/entities/player.py:91-99 | the walk counters are untouched when idle; while walking the timer accumulates `dt`, and once it passes 200 ms it resets to 0 and the frame advances modulo 2, so a frame in `[0, 2)` stays there |
| Player.Spawned | src/entities/player.py:20-43 | a new player is valid, at frame 0 with timer 0, not walking and facing right |
| Player.Step | src/entities/player.py:45-103 | one frame keeps the state valid, sets walking to "some movement key is held", updates the facing, and advances the walk counters as `Animate` says |
| Player.StepAxes | src/entities/player.py:49-85 | the horizontal move is taken exactly when the horizontally moved rectangle is clear, and the vertical move, from where the horizontal one left the player, exactly when that rectangle is clear |
| Player.StepDisplacement | src/entities/player.py:49-85 | per frame the player moves by -5, 0 or +5 on each axis and never changes size |
| Player.OppositeKeysCancel | src/entities/player.py:49-85 | with both keys of both axes held the rectangle does not move, yet the player counts as walking |
| Player.StepStaysClear | src/entities/player.py:60-85 | a player clear of Sprytek, the trees and the cabin walls is still clear after the frame |
| Player.RunStaysClear | src/entities/player.py:45-103 | over any sequence of frames the player stays clear of every obstacle and its state stays valid |
| Player.StepMapPosition | src/entities/player.py:87-89 | after a frame `map_position` is the tile containing the rectangle's top-left corner (floor division by the tile size) |
| Player.StepFrame | src/entities/player.py:91-99 | the walk frame only changes while walking and once the timer has passed 200 ms, and then the timer is reset; when idle neither counter changes |
| Player.SpawnTile | src/entities/player.py:36-40 | with a spawn tile the rectangle's corner is the spawn tile's pixel, `map_position` is the spawn tile and the corner lies in that tile |
| Player.Player.constructor | src/entities/player.py:20-43 | the new object's state is `Spawned` of its arguments |
| Player.Player.CanMove | src/entities/player.py:61-65 | the move is allowed exactly when the rectangle misses Sprytek, the trees of a given background and the walls of a given cabin |
| Player.Player.MoveHorizontal | src/entities/player.py:49-67 | the rectangle becomes the horizontal `Try`, walking is set when a horizontal key is held, and the facing becomes `Facing` |
| Player.Player.MoveVertical | src/entities/player.py:69-85 | the rectangle becomes the vertical `Try` from where the horizontal half left it, and walking is set when a vertical key is held |
| Player.Player.Update | src/entities/player.py:45-103 | the object's new state is `Step` of its old state under the obstacles it was given |
| Player.Player.AdvanceAnimation | src/entities/player.py:91-99 | the walk counters become `Animate` of their old values |
| LegacyPlayer.LegacySpawned | player.py:20-29 | the older player starts centred on the screen, 70 by 70, at frame 0 with timer 0, not walking and facing right |
| LegacyPlayer.LegacyStep | player.py:31-56 | with no collision test, each axis moves by -5, 0 or +5, and by +5 or -5 exactly when that side alone is held; the size is kept; walking holds iff one of the eight movement keys is held; left wins the facing and neither side keeps it; the walk frame stays in range and advances, with the timer reset, only past 200 ms of walking |
| LegacyPlayer.LegacyWalkingKeys | player.py:32-46 | the older player walks exactly when one of the eight movement keys is held |
| LegacyPlayer.LegacyRunFrames | player.py:31-56 | over any run the walk frame stays in `[0, 2)` and the rectangle keeps its size |
| LegacyPlayer.MatchesUnobstructed | player.py:31-56 | with nothing to collide with, the current player's frame update moves, animates and turns exactly like the older one |
| LegacyPlayer.LegacyPlayer.constructor | player.py:21-29 | the new object's state is `LegacySpawned` |
| LegacyPlayer.LegacyPlayer.Update | player.py:31-56 | the object's new state is `LegacyStep` of its old state |
| LegacyPlayer.LegacyPlayer.MoveHorizontal | player.py:33-40 | the rectangle moves by the horizontal step, walking is set when a horizontal key is held, and the facing becomes `Facing` |
| LegacyPlayer.LegacyPlayer.MoveVertical | player.py:41-46 | the rectangle moves by the vertical step and walking is set when a vertical key is held |
| LegacyPlayer.LegacyPlayer.AdvanceAnimation | player.py:48-56 | the walk counters become `Animate` of their old values |
| Minimap.DiscInSquare | src/ui/minimap.py:55-58 | every offset inside the reveal circle of radius 8 lies in the loops' `-8 .. 8` range on both axes, so the square scan misses no revealed tile |
| Minimap.SquareBound | src/ui/minimap.py:55-58 | an offset whose square fits in the radius squared lies in `-8 .. 8` |
| Minimap.Revealed | src/ui/minimap.py:52-64 | the tiles one update reveals are exactly the on-map tiles within Euclidean distance 8 of the player's tile |
| Minimap.RevealsOwnTile | src/ui/minimap.py:55-63 | the player's own tile is revealed whenever it is on the map |
| Minimap.UpdateStaysOnMap | src/ui/minimap.py:61-63 | updates never add a tile outside the map, so a set of on-map tiles stays on the map |
| Minimap.UpdateIdempotent | src/ui/minimap.py:62-63 | revealing twice from the same tile adds nothing the second time |
| Minimap.ElementsOf | src/ui/minimap.py:66-69 | the set built from a saved list holds exactly the listed tiles |
| Minimap.SaveRestore | src/ui/minimap.py:66-73 | restoring what `get_visited_tiles` listed gives the same set back, and the listing has one entry per tile |
| Minimap.SaveRestoreCount | src/ui/minimap.py:71-73 | a duplicate-free listing of a set has exactly as many entries as the set has tiles |
| Minimap.Minimap.constructor | src/ui/minimap.py:9-43 | with `max(map_width, map_height)` non-zero, so that the scale does not divide by zero, the minimap stores the screen and map sizes, sits 180 + 15 pixels from the right edge and 15 from the top, starts with no visited tile and asks for a first draw |
| Minimap.Minimap.UpdatePosition | src/ui/minimap.py:45-50 | after a resize the minimap keeps its 15-pixel margin from the new top-right corner |
| Minimap.Minimap.Update | src/ui/minimap.py:52-64 | the double loop adds exactly the revealed tiles, asks for a redraw exactly when one of them was new, and keeps every visited tile on the map |
| Minimap.Minimap.ScanRow | src/ui/minimap.py:56-64 | the inner loop over one row `dy` adds exactly that row's revealed tiles and sets the redraw flag exactly when one of them was new |
| Minimap.Minimap.SetVisitedTiles | src/ui/minimap.py:66-69 | the visited set becomes the saved list's tiles and a redraw is requested |
| Minimap.Minimap.GetVisitedTiles | src/ui/minimap.py:71-73 | the returned list holds every visited tile exactly once |
| Inventory.Toggle | src/ui/inventory.py:107-113 | E flips the panel only on a frame where the latch is released, and the latch then equals "E is held" |
| Inventory.ToggleRunParity | src/ui/inventory.py:107-113 | over any run of frames the panel ends as it began flipped once per fresh press of E, and the latch ends as the last frame's E |
| Inventory.HoldingDoesNotFlip | src/ui/inventory.py:108-110 | holding E after it has latched never flips the panel again |
| Inventory.PickUp | src/ui/inventory.py:73-78 | a pick-up succeeds exactly when the hands are empty and then carries that cat; otherwise nothing changes |
| Inventory.PutDown | src/ui/inventory.py:88-92 | putting down returns what was carried and leaves the hands empty |
| Inventory.PickPutRoundTrip | src/ui/inventory.py:73-92 | picking a cat up with empty hands and putting it down hands back that same cat and leaves the hands empty |
| Inventory.PickWhileCarrying | src/ui/inventory.py:75-78 | only one cat can be carried: a second pick-up fails and changes nothing |
| Inventory.HintPriority | src/ui/inventory.py:127-133 | the cat hint shows exactly when its flag is set and the hands are empty; otherwise the item hint shows exactly when its flag is set; otherwise the storage hint shows exactly when its flag is set and a cat is carried; otherwise no hint |
| Inventory.ChosenHint | src/ui/inventory.py:127-133 | no contract of its own; defines which hint `update_inventory` draws; its property is Inventory.HintPriority, and Inventory.Inventory.UpdateInventory uses it |
| Inventory.Inventory.constructor | src/ui/inventory.py:41-71 | the panel starts closed and unlatched, with no collected item, empty hands and every hint off |
| Inventory.Inventory.PickUpCat | src/ui/inventory.py:73-78 | the carry slot and the result are `PickUp` of the old slot |
| Inventory.Inventory.IsCarryingCat | src/ui/inventory.py:80-82 | true exactly when a cat is carried |
| Inventory.Inventory.GetCarriedCat | src/ui/inventory.py:84-86 | returns the carried cat's index, or none |
| Inventory.Inventory.PutDownCat | src/ui/inventory.py:88-92 | the result and the new slot are `PutDown` of the old slot |
| Inventory.Inventory.AddCollectible | src/ui/inventory.py:94-96 | the item index is appended to the collected list, which grows by one |
| Inventory.Inventory.GetCollectibleCount | src/ui/inventory.py:98-100 | returns the number of collected items |
| Inventory.Inventory.SetStorageHint | src/ui/inventory.py:102-104 | the storage-hint flag becomes the argument |
| Inventory.Inventory.SetCollectHint | src/ui/inventory.py:237-239 | the cat-hint flag becomes the argument |
| Inventory.Inventory.SetCollectibleHint | src/ui/inventory.py:241-243 | the item-hint flag becomes the argument |
| Inventory.Inventory.UpdateInventory | src/ui/inventory.py:106-133 | the panel and latch follow `Toggle`, the panel is drawn exactly when open, and the hint drawn is the one `HintPriority` describes |
| LegacyInventory.LegacyInventory.constructor | inventory.py:10-15 | the older panel starts closed with the latch released |
| LegacyInventory.LegacyInventory.UpdateInventory | inventory.py:17-29 | the older inventory has the same edge-triggered E toggle and draws the panel exactly when it is open |
| LegacyInventory.FirstPressOpens | inventory.py:19-25 | from the start state the first press opens the panel and holding E keeps it open |
| Npc.SpriteRect | src/entities/npc.py:27 | Sprytek's 60 by 70 rectangle is centred on its position |
| Npc.Cooled | src/entities/npc.py:61-63 | the dialog cooldown drops by one while positive and otherwise stays |
| Npc.Sense | src/entities/npc.py:56-63 | no contract of its own; defines the proximity test and cooldown decrement at the head of `update`; its properties are stated through Npc.Step's contract |
| Npc.Press | src/entities/npc.py:65-85 | no contract of its own; defines the F-key block of `update`; its properties are Npc.PressStartsTalk, Npc.PressAdvances and Npc.HeldKeyIgnored, and Npc.Npc.HandleF equals it |
| Npc.Step | src/entities/npc.py:56-90 | one frame fails (the `IndexError`) exactly when an accepted F press near Sprytek during a talk reads a dialog that does not exist. Otherwise it records proximity, latches F exactly when F is held and was latched or accepted, restarts the 15-frame cooldown exactly on an accepted press near Sprytek, ends the talk when the player is not near, and leaves dialog and text alone when no press was accepted |
| Npc.StepKeepsInv | src/entities/npc.py:56-90 | with at least one dialog and each dialog holding a text, a frame never fails and keeps both indices inside the dialogs and the cooldown in `[0, 15]` |
| Npc.PressStartsTalk | src/entities/npc.py:66-72 | a fresh press near Sprytek while not talking starts the current dialog at its first text with a full cooldown |
| Npc.PressAdvances | src/entities/npc.py:73-81 | a fresh press while talking moves to the next text, or past the last one ends the talk, resets the text and turns to the next dialog modulo the number of dialogs |
| Npc.HeldKeyIgnored | src/entities/npc.py:66-67 | holding F from the previous frame does not act again: the dialog is unchanged and, near Sprytek, so are the talk and the text |
| Npc.LeavingEndsTalk | src/entities/npc.py:87-90 | a player who is not near ends any talk, resetting the text, and keeps the dialog it was on |
| Npc.RunKeepsInv | src/entities/npc.py:56-90 | over any run of frames with readable dialogs, `update` never fails and the invariant holds throughout |
| Npc.Npc.constructor | src/entities/npc.py:24-44 | Sprytek is placed at its position with its rectangle centred there, not talking, at dialog 0 and text 0, with no cooldown and nothing latched |
| Npc.Npc.Update | src/entities/npc.py:56-90 | the method raises exactly when `Step` fails, and otherwise its new state is `Step` of the old one |
| Npc.Npc.HandleF | src/entities/npc.py:65-85 | the F block raises exactly when the press would read a missing dialog, and otherwise updates the state as the press rule says |
| LoreDisplay.Shown | lore_display.py:57-63 | showing the lore opens the window on that item at page 0, with F treated as already held and the cooldown at 15 |
| LoreDisplay.Accepted | lore_display.py:80-85 | no contract of its own; defines when `update` takes an F press; its property is LoreDisplay.StepPaging, and LoreDisplay.OpeningPressNotTaken shows the press that opened the window is not taken |
| LoreDisplay.Step | lore_display.py:75-100 | when nothing is shown a frame changes nothing and reports closed; while showing, the cooldown either restarts at 15 or drops by one while positive |
| LoreDisplay.StepPaging | lore_display.py:84-100 | an accepted F press moves exactly one page forward and restarts the cooldown; moving past the last page closes the window, drops the item, resets the page to 0 and reports closed; with no accepted press the window stays open on its page |
| LoreDisplay.OpeningPressNotTaken | lore_display.py:62 | the F press that opened the window, still held on the next frame, does not turn the page |
| LoreDisplay.ShownInv | lore_display.py:57-63 | a freshly shown window satisfies the invariant: an item is present, the page lies within its lore, and the cooldown lies in `[0, 15]` |
| LoreDisplay.StepKeepsInv | lore_display.py:75-100 | every frame keeps that invariant, and `update` returns true exactly when the window is still showing |
| LoreDisplay.LoreDisplay.constructor | lore_display.py:31-52 | the display starts closed, with no item, and its 500 by 400 window is centred on the screen (floor division) |
| LoreDisplay.LoreDisplay.ShowLore | lore_display.py:57-63 | the new state is `Shown` of the item |
| LoreDisplay.LoreDisplay.Update | lore_display.py:75-100 | the new state and the returned flag are `Step` of the old state and F |
| Tutorial.Started | src/ui/tutorial.py:68-76 | `start` makes the tutorial active and not completed at step 0, restarts the fade from 0 and clears the three progress flags, keeping the F latch and cooldown |
| Tutorial.Stopped | src/ui/tutorial.py:78-81 | `stop` makes the tutorial inactive at step 4, hence completed, and changes nothing else |
| Tutorial.Advanced | src/ui/tutorial.py:133-140 | `_advance_step` raises the step by exactly one and restarts the fade; the tutorial stays active exactly when it was active and the new step is below 4; nothing else changes |
| Tutorial.Faded | src/ui/tutorial.py:96-100 | one frame of fade moves alpha up by 10, capped at 255, or down by 10, floored at 0, so it stays in `[0, 255]` |
| Tutorial.Ticked | src/ui/tutorial.py:92-100 | the frame's cooldown drops by one while positive and the fade moves as `Faded`; nothing else changes |
| Tutorial.TalkCheck | src/ui/tutorial.py:103-108 | no contract of its own; defines the talk-to-Sprytek completion test; its property is Tutorial.TalkKeepsInv |
| Tutorial.CheckStep | src/ui/tutorial.py:102-128 | no contract of its own; defines the step-completion chain of `update`; its property is Tutorial.CheckKeepsInv, and Tutorial.TutorialSystem.CheckCurrentStep equals it |
| Tutorial.Step | src/ui/tutorial.py:87-131 | no contract of its own; defines `update`; its properties are Tutorial.InertWhenOff, Tutorial.StepKeepsInv, Tutorial.StepConditions, Tutorial.InventoryNeedsClosing and Tutorial.RunMonotone, and Tutorial.TutorialSystem.Update equals it |
| Tutorial.InertWhenOff | src/ui/tutorial.py:87-90 | an update while inactive or completed changes nothing |
| Tutorial.StepKeepsInv | src/ui/tutorial.py:87-131 | each update keeps the fade in `[0, 255]` and the cooldown non-negative, and either keeps the step or raises it by exactly one |
| Tutorial.CheckKeepsInv | src/ui/tutorial.py:102-128 | the step-completion chain keeps the invariant and raises the step by at most one |
| Tutorial.TalkKeepsInv | src/ui/tutorial.py:103-108 | the talk step's check keeps the invariant and raises the step by at most one |
| Tutorial.CoffeeKeepsInv | src/ui/tutorial.py:110-114 | the coffee step's check keeps the invariant and raises the step by at most one |
| Tutorial.InventoryKeepsInv | src/ui/tutorial.py:116-121 | the inventory step's check keeps the invariant and raises the step by at most one |
| Tutorial.CatsKeepsInv | src/ui/tutorial.py:123-128 | the cats step's check keeps the invariant and raises the step by at most one |
| Tutorial.StepConditions | src/ui/tutorial.py:102-128 | each step moves on exactly when its own condition holds. Step 0: talked before or the NPC is on its second dialog, and the NPC is absent or silent. Step 1: the inventory reports coffee. Step 2: the panel was seen open and is now absent or closed. Step 3: a fresh F press with no cooldown left after the decrement |
| Tutorial.InventoryNeedsClosing | src/ui/tutorial.py:116-121 | in the frame the panel is open the inventory step records that it was opened but does not move on |
| Tutorial.RunMonotone | src/ui/tutorial.py:87-140 | over any run of frames the invariant holds and the step never decreases, rising by at most one per frame |
| Tutorial.TutorialSystem.constructor | src/ui/tutorial.py:38-66 | the tutorial starts inactive at step 0 with the fade at 0 and fading in, nothing latched and no progress, its hint box centred horizontally 20 pixels from the top |
| Tutorial.TutorialSystem.Start | src/ui/tutorial.py:68-76 | the new state is `Started` of the old one |
| Tutorial.TutorialSystem.Stop | src/ui/tutorial.py:78-81 | the new state is `Stopped` of the old one |
| Tutorial.TutorialSystem.IsCompleted | src/ui/tutorial.py:83-85 | true exactly when the step is at least 4 |
| Tutorial.TutorialSystem.AdvanceStep | src/ui/tutorial.py:133-140 | the new state is `Advanced` of the old one |
| Tutorial.TutorialSystem.Update | src/ui/tutorial.py:87-131 | the new state is `Step` of the old one, given F and what the NPC and inventory objects expose |
| Tutorial.TutorialSystem.Tick | src/ui/tutorial.py:92-100 | the new state is `Ticked` of the old one |
| Tutorial.TutorialSystem.CheckCurrentStep | src/ui/tutorial.py:102-128 | the new state is the step-completion chain applied to the old one |
| MainMenu.FirstSaved | src/ui/main_menu.py:150-154 | when some slot is full, the index found is a full slot and every slot before it is empty |
| MainMenu.FirstSavedUnique | src/ui/main_menu.py:150-154 | a full slot with only empty slots before it is the one the search finds |
| MainMenu.SeekSaved | src/ui/main_menu.py:214-219 | the load-mode search ends on a slot in `[0, 3)` after at least one move |
| MainMenu.Navigate | src/ui/main_menu.py:212-221 | no contract of its own; defines `_navigate_slots`; its property is MainMenu.NavigateLands, and MainMenu.MainMenu.NavigateSlots equals it |
| MainMenu.NavigateLands | src/ui/main_menu.py:212-221 | slot navigation stays in `[0, 3)`; in new-game mode it is one step modulo 3; in load mode it lands on a full slot whenever one exists and comes back to where it started when none does |
| MainMenu.MainStep | src/ui/main_menu.py:124-166 | no contract of its own; defines `_update_main_menu`; its properties are MainMenu.MainIndexWraps, MainMenu.ChooseEntersSlots and MainMenu.MainKeepsInv, and MainMenu.MainMenu.UpdateMainMenu equals it |
| MainMenu.SaveSelectStep | src/ui/main_menu.py:168-210 | no contract of its own; defines `_update_save_select`; its properties are MainMenu.PickEmits, MainMenu.DeleteOnlyFull and MainMenu.SaveSelectKeepsInv, and MainMenu.MainMenu.UpdateSaveSelect equals it |
| MainMenu.ConfirmDeleteStep | src/ui/main_menu.py:223-238 | no contract of its own; defines `_update_confirm_delete`; its properties are MainMenu.DialogsClear and MainMenu.ConfirmDeleteKeepsInv, and MainMenu.MainMenu.UpdateConfirmDelete equals it |
| MainMenu.ConfirmOverwriteStep | src/ui/main_menu.py:240-255 | no contract of its own; defines `_update_confirm_overwrite`; its properties are MainMenu.DialogsClear and MainMenu.ConfirmOverwriteKeepsInv, and MainMenu.MainMenu.UpdateConfirmOverwrite equals it |
| MainMenu.Step | src/ui/main_menu.py:88-118 | no contract of its own; defines `update`'s cooldown and state dispatch; its properties are MainMenu.CooldownInert and MainMenu.StepKeepsInv, and MainMenu.MainMenu.Update equals it |
| MainMenu.CooldownInert | src/ui/main_menu.py:101-106 | while the input cooldown runs, an update only counts it down, ticks the animation and returns no action |
| MainMenu.MainIndexWraps | src/ui/main_menu.py:126-132 | up moves the highlight back and down moves it forward modulo the five entries, so it stays in range and wraps between New Game and Quit |
| MainMenu.ChooseEntersSlots | src/ui/main_menu.py:134-154 | New Game opens the slots in new-game mode on slot 0; Load Game switches to load mode and opens the slots exactly when some slot is full, on the first full slot |
| MainMenu.PickEmits | src/ui/main_menu.py:178-195 | on the slots screen a load is emitted exactly for a full slot in load mode and a new game exactly for an empty slot in new-game mode, both with the 1-based slot number; a full slot in new-game mode asks before overwriting that slot |
| MainMenu.DeleteOnlyFull | src/ui/main_menu.py:197-203 | D opens the delete dialog exactly for a full slot, naming that 1-based slot |
| MainMenu.DialogsClear | src/ui/main_menu.py:223-255 | a yes or no answer to the delete dialog goes back to the slots with no slot pending, and only yes deletes the pending slot; yes to the overwrite dialog returns to the main screen and starts a new game in the pending slot; no goes back to the slots with nothing pending |
| MainMenu.StepKeepsInv | src/ui/main_menu.py:88-255 | every update keeps the menu's indices in range and gives a slot number exactly with a new or loaded game, and every slot emitted or deleted is 1, 2 or 3 |
| MainMenu.ConfirmDeleteKeepsInv | src/ui/main_menu.py:223-238 | the delete dialog keeps the invariant and never emits an action |
| MainMenu.ConfirmOverwriteKeepsInv | src/ui/main_menu.py:240-255 | the overwrite dialog keeps the invariant, deletes nothing and never loads |
| MainMenu.MainKeepsInv | src/ui/main_menu.py:124-166 | the main screen keeps the invariant and emits no slot number and no deletion |
| MainMenu.SaveSelectKeepsInv | src/ui/main_menu.py:168-210 | the slots screen keeps the invariant and deletes nothing by itself |
| MainMenu.MainMenu.constructor | src/ui/main_menu.py:24-56 | the menu starts on the main screen with New Game highlighted, new-game mode, no slots listed, nothing pending and no cooldown |
| MainMenu.MainMenu.RefreshSaves | src/ui/main_menu.py:84-86 | the slots become the listing given |
| MainMenu.MainMenu.ResetCooldown | src/ui/main_menu.py:120-122 | the input cooldown becomes 20 |
| MainMenu.MainMenu.Update | src/ui/main_menu.py:88-118 | the new menu state, action, slot number and deleted slot are `Step` of the old state |
| MainMenu.MainMenu.UpdateMainMenu | src/ui/main_menu.py:124-166 | the main screen's new state and reply are its pure step |
| MainMenu.MainMenu.ChooseOption | src/ui/main_menu.py:134-160 | the selection branch's new state and action are `Choose` of the old state |
| MainMenu.MainMenu.FindFirstSaved | src/ui/main_menu.py:148-154 | reports whether any slot is full and, if so, the first full slot |
| MainMenu.MainMenu.UpdateSaveSelect | src/ui/main_menu.py:168-210 | the slots screen's new state and reply are its pure step |
| MainMenu.MainMenu.MoveSelection | src/ui/main_menu.py:170-176 | the navigation keys move the slot as the pure rule says, leaving it in `[0, 3)` |
| MainMenu.MainMenu.DeleteOrBack | src/ui/main_menu.py:197-208 | D offers deletion of a full slot and ESC returns to the main screen, both restarting the cooldown |
| MainMenu.MainMenu.PickSlot | src/ui/main_menu.py:178-195 | the selection branch's new state and reply are `Pick` of the old state |
| MainMenu.MainMenu.NavigateSlots | src/ui/main_menu.py:212-221 | the loop of up to three moves leaves the slot at `Navigate` of the old slot |
| MainMenu.MainMenu.UpdateConfirmDelete | src/ui/main_menu.py:223-238 | the delete dialog's new state and the slot handed to `delete_save` are its pure step |
| MainMenu.MainMenu.UpdateConfirmOverwrite | src/ui/main_menu.py:240-255 | the overwrite dialog's new state and reply are its pure step |
| PauseMenu.Shown | src/ui/pause_menu.py:40-45 | `show` makes the menu visible on its main screen with Resume highlighted and a 15-frame cooldown, keeping the save message and its timer |
| PauseMenu.WithMessage | src/ui/pause_menu.py:51-54 | a save message is set with a 90-frame timer and nothing else changes |
| PauseMenu.MainStep | src/ui/pause_menu.py:93-126 | no contract of its own; defines `_update_main`; its properties are PauseMenu.MainKeepsMessage, PauseMenu.MainKeepsRange, PauseMenu.IndexWraps and PauseMenu.ResumeHides, and PauseMenu.PauseMenu.UpdateMain equals it |
| PauseMenu.ConfirmQuitStep | src/ui/pause_menu.py:128-137 | no contract of its own; defines `_update_confirm_quit`; its property is PauseMenu.ConfirmationsGuard, and PauseMenu.PauseMenu.UpdateConfirmQuit equals it |
| PauseMenu.ConfirmMenuStep | src/ui/pause_menu.py:139-149 | no contract of its own; defines `_update_confirm_menu`; its property is PauseMenu.ConfirmationsGuard, and PauseMenu.PauseMenu.UpdateConfirmMenu equals it |
| PauseMenu.Step | src/ui/pause_menu.py:56-91 | no contract of its own; defines `update`'s message timer, cooldown and state dispatch; its properties are PauseMenu.HiddenInert, PauseMenu.MessageCountsDown, PauseMenu.StepKeepsInv and PauseMenu.ConfirmationsGuard, and PauseMenu.PauseMenu.Update equals it |
| PauseMenu.ShownInv | src/ui/pause_menu.py:40-54 | showing the menu and setting a save message both keep the invariant: the highlight is one of the five entries, the cooldown is non-negative, and a message is up exactly while its timer runs |
| PauseMenu.HiddenInert | src/ui/pause_menu.py:69-70 | while hidden an update changes nothing and returns no action |
| PauseMenu.MessageCountsDown | src/ui/pause_menu.py:72-76 | while showing, every update, the cooldown frames included, counts the message timer down to 0 and clears the message exactly when the timer reaches 0 |
| PauseMenu.MainKeepsMessage | src/ui/pause_menu.py:93-126 | the main screen's handling leaves the save message and its timer alone |
| PauseMenu.StepKeepsInv | src/ui/pause_menu.py:56-91 | every update keeps the invariant |
| PauseMenu.MainKeepsRange | src/ui/pause_menu.py:93-126 | the main screen keeps the highlight among the five entries and the cooldown non-negative |
| PauseMenu.IndexWraps | src/ui/pause_menu.py:95-101 | up moves the highlight back and down moves it forward modulo the five entries |
| PauseMenu.ResumeHides | src/ui/pause_menu.py:103-126 | "resume" always hides the menu; with ESC held the main screen returns resume, save or options; the main screen never returns quit or main menu itself |
| PauseMenu.ConfirmationsGuard | src/ui/pause_menu.py:128-149 | "quit" comes only from the quit confirmation on yes, "main_menu" only from the menu confirmation on yes and hides the menu, and no on either dialog goes back to the main screen with no action |
| PauseMenu.PauseMenu.constructor | src/ui/pause_menu.py:16-38 | the menu starts hidden on its main screen with Resume highlighted, no cooldown and no message |
| PauseMenu.PauseMenu.Show | src/ui/pause_menu.py:40-45 | the new state is `Shown` of the old one |
| PauseMenu.PauseMenu.Hide | src/ui/pause_menu.py:47-49 | the menu is no longer showing |
| PauseMenu.PauseMenu.ShowSaveMessage | src/ui/pause_menu.py:51-54 | the new state is `WithMessage` of the old one |
| PauseMenu.PauseMenu.Update | src/ui/pause_menu.py:56-91 | the new state and action are the pure step of the old state |
| PauseMenu.PauseMenu.UpdateMain | src/ui/pause_menu.py:93-126 | the main screen's new state and action are its pure step |
| PauseMenu.PauseMenu.UpdateConfirmQuit | src/ui/pause_menu.py:128-137 | the quit dialog's new state and action are its pure step |
| PauseMenu.PauseMenu.UpdateConfirmMenu | src/ui/pause_menu.py:139-149 | the menu dialog's new state and action are its pure step |
| OptionsMenu.WithVolume | src/ui/options_menu.py:142-147 | writing one slider sets that volume and leaves the other volumes, fullscreen and the tutorial flag unchanged |
| OptionsMenu.Slide | src/ui/options_menu.py:139-147 | a slider move is down or up by 5, clamped to `[0, 100]` |
| OptionsMenu.SlideClamps | src/ui/options_menu.py:139-147 | a move keeps an in-range volume in `[0, 100]`, goes in the pressed direction by at most 5, and by exactly 5 when that stays in range |
| OptionsMenu.Shown | src/ui/options_menu.py:86-92 | `show` makes the menu visible on the first entry with a 15-frame cooldown, the reloaded settings and no fullscreen change yet |
| OptionsMenu.Adjust | src/ui/options_menu.py:125-147 | no contract of its own; defines the value-adjustment block of `update`; its properties are OptionsMenu.AdjustKeepsInv, OptionsMenu.ToggleFlips and OptionsMenu.SliderMoves, and OptionsMenu.OptionsMenu.AdjustValue equals it |
| OptionsMenu.Step | src/ui/options_menu.py:99-155 | no contract of its own; defines `update`; its properties are OptionsMenu.Inert, OptionsMenu.StepKeepsInv, OptionsMenu.IndexWraps and OptionsMenu.EscapeGoesBack, and OptionsMenu.OptionsMenu.Update equals it |
| OptionsMenu.Inert | src/ui/options_menu.py:109-115 | while hidden an update does nothing; during the cooldown it only counts it down |
| OptionsMenu.StepKeepsInv | src/ui/options_menu.py:99-155 | every update keeps the highlight among the four entries, the cooldown non-negative and every volume in `[0, 100]` |
| OptionsMenu.AdjustKeepsInv | src/ui/options_menu.py:125-147 | the value adjustment keeps that invariant |
| OptionsMenu.ToggleFlips | src/ui/options_menu.py:130-136 | on the fullscreen entry RETURN, SPACE, F, LEFT or RIGHT flips fullscreen, marks it changed and returns the new value, leaving the volumes alone |
| OptionsMenu.SliderMoves | src/ui/options_menu.py:138-147 | on a slider entry LEFT or A lowers, otherwise RIGHT or D raises, only that entry's volume by the clamped step, with no action returned; with neither key nothing changes |
| OptionsMenu.IndexWraps | src/ui/options_menu.py:117-123 | up moves the highlight back and down moves it forward modulo the four entries; otherwise it stays |
| OptionsMenu.EscapeGoesBack | src/ui/options_menu.py:149-153 | ESC returns "back" unless the fullscreen toggle returned first, and "back" hides the menu and hands its settings to `save_settings` |
| OptionsMenu.OptionsMenu.constructor | src/ui/options_menu.py:12-40 | the menu starts hidden on the first entry with the loaded settings, no cooldown and no fullscreen change |
| OptionsMenu.OptionsMenu.Show | src/ui/options_menu.py:86-92 | the new state is `Shown` of the old one and the reloaded settings |
| OptionsMenu.OptionsMenu.Hide | src/ui/options_menu.py:94-97 | the menu is hidden and its settings are the ones handed to `save_settings` |
| OptionsMenu.OptionsMenu.Update | src/ui/options_menu.py:99-155 | the new state, the action and the settings saved are the pure step of the old state |
| OptionsMenu.OptionsMenu.AdjustValue | src/ui/options_menu.py:125-147 | the new state and action are `Adjust` of the old state |
| GameOver.Shown | src/ui/game_over.py:32-37 | `show` makes the screen visible with the reason, a 60-frame restart delay and the animation clock at 0, keeping the current frame |
| GameOver.Step | src/ui/game_over.py:39-61 | no contract of its own; defines `update`'s frame step (animation tick, delay, SPACE/F restart); its properties are GameOver.HiddenInert, GameOver.Animates and GameOver.RestartAfterDelay, and GameOver.GameOverScreen.Update equals it |
| GameOver.HiddenInert | src/ui/game_over.py:41-42 | while hidden an update changes nothing and returns no action |
| GameOver.Animates | src/ui/game_over.py:44-48 | while showing, the animation clock ticks on every update, the enemy frame changes only on a tick that is a multiple of 10 and, with more than one image, always does then, moving to the next image modulo their number; the frame stays a valid image index |
| GameOver.RestartAfterDelay | src/ui/game_over.py:50-61 | while the delay runs there is no restart and the delay drops by one; after it, "restart" comes exactly when SPACE or F is held, and restarting hides the screen and clears the reason |
| GameOver.DelayHolds | src/ui/game_over.py:36-53 | for as many updates as the delay counts, whatever is pressed, the screen stays up and the delay only counts down |
| GameOver.GameOverScreen.constructor | src/ui/game_over.py:8-30 | the screen starts hidden, with no reason, no delay, the clock at 0 and the first frame |
| GameOver.GameOverScreen.Show | src/ui/game_over.py:32-37 | the new state is `Shown` of the old one and the reason |
| GameOver.GameOverScreen.Update | src/ui/game_over.py:39-61 | the new state and action are the pure step of the old state, given the number of enemy images loaded |
| LoadingScreen.Clamped | src/ui/loading_screen.py:29 | the progress is clamped into `[0, 100]`: unchanged when in range, the nearer bound otherwise |
| LoadingScreen.Tick | src/ui/loading_screen.py:33-38 | no contract of its own; defines `update`'s dot animation; its properties are LoadingScreen.TickInRange, LoadingScreen.TicksClosedForm and LoadingScreen.StepClosedForm, and LoadingScreen.LoadingScreen.Update equals it |
| LoadingScreen.TickInRange | src/ui/loading_screen.py:33-38 | one animation frame keeps the dots in `[0, 4)` and the timer in `[0, 30)`; the timer wraps to 0 exactly when it was 29, and otherwise only the timer moves, by one |
| LoadingScreen.TicksClosedForm | src/ui/loading_screen.py:19-38 | from the start, after `n` frames the timer is `n mod 30` and the dots are `(n div 30) mod 4`, so both stay in range |
| LoadingScreen.StepClosedForm | src/ui/loading_screen.py:33-38 | one frame takes the closed form for `i` frames to the closed form for `i + 1` |
| LoadingScreen.LoadingScreen.constructor | src/ui/loading_screen.py:10-25 | the screen starts with no dots, a fresh timer, no progress and the caption "Loading..." |
| LoadingScreen.LoadingScreen.SetProgress | src/ui/loading_screen.py:27-31 | progress becomes the clamped value, and the caption changes only when a non-empty text is given |
| LoadingScreen.LoadingScreen.Update | src/ui/loading_screen.py:33-38 | the dots and timer become one `Tick` of their old values |
| CreditsScreen.StepCases | src/ui/credits_screen.py:80-100 | hidden, nothing happens; during the delay the cooldown only counts down; after it, "back" comes exactly when some key is held or some event is a key press, and it hides the screen |
| CreditsScreen.Step | src/ui/credits_screen.py:80-100 | no contract of its own; defines `update`'s hidden, cooldown and any-key branches; its properties are CreditsScreen.StepCases and CreditsScreen.DelayHolds, and CreditsScreen.CreditsScreen.Update equals it |
| CreditsScreen.DelayHolds | src/ui/credits_screen.py:71-93 | once shown, the screen stays up for as many frames as the cooldown counts, whatever is pressed |
| CreditsScreen.CreditsScreen.constructor | src/ui/credits_screen.py:13-29 | the screen starts hidden with no cooldown |
| CreditsScreen.CreditsScreen.Show | src/ui/credits_screen.py:71-74 | the screen is showing with a 30-frame cooldown |
| CreditsScreen.CreditsScreen.Hide | src/ui/credits_screen.py:76-78 | the screen is hidden |
| CreditsScreen.CreditsScreen.Update | src/ui/credits_screen.py:80-100 | the new showing flag, cooldown and action are the pure step of the old ones |
| CreditsScreen.CreditsScreen.KeyDownIn | src/ui/credits_screen.py:96 | true exactly when some event of the frame is a key press |

## Left out

- MapGenerator.GenerateMap: `width`, `height` and `numCats` are natural numbers, so the `ValueError` that `math.sqrt(num_cats * 1.5)` raises for a negative `num_cats` (src/world/map_generator.py:30) is not modelled, and neither is what negative map sizes would do.
- Drawing: every `draw*` and `_draw*` method, surfaces, fonts, blits, sprite flipping, image scaling and `create_placeholder`. The chunk culling inside `draw_trees` and the leaves animation on `pygame.time.get_ticks()` are drawing too.
- `load_graphics`, `load_*_images`, `create_cabin_tiles` and `preload_all_assets`: file loading. The asset cache takes the outcome of a load (an image or a failure) as a parameter.
- Enemy.EnemyManager.constructor: each `Enemy()` it builds (src/entities/enemy.py:245-247) runs `load_graphics`, which calls `get_image` and stores every image load on a miss into the image cache; enemy image loading is file loading and is not modelled, so the contract says nothing about the image cache.
- The menus' background trees (`_init_background`): they are seeded randomness used only for drawing.
- File I/O: reading `map.txt` (`_load_map`), the dialog JSON, `list_saves`, `delete_save`, `load_settings` and `save_settings`. The map, the dialogs (as the number of texts in each), the save listing and the loaded settings are parameters. The deleted slot and the saved settings are results.
- src/save_system.py, src/audio/music_manager.py and generate_sfx.py: file, clock, mixer and floating-point code.
- The main.py game loop, map.py, the top-level npc.py and the data-only lore files: glue or drawing.
- Python's Mersenne Twister and `random.seed`: each random result is an explicit draw. `MapGenerator.GenerateMap` takes the per-seed draw streams as a parameter, and the seed drawn when none is given comes from an `entropy` parameter.
- Clocks: `clock.get_time()` is the `dt` parameter of the player and enemy updates.
- Floating point: distance tests with `sqrt` are compared squared. `ceil(sqrt(1.5 * n))` is characterised as the least `k` with `2k² >= 3n`. The minimap's scale and the loading bar's widths are drawing.
- Enemy.Enemy.Update: the enemy's fractional speeds (1.5 patrolling, 2.5 chasing) and its normalised chase vector become integer deltas in pygame's `Rect`, in a way the repository does not show. The chase and patrol moves are therefore integer inputs.
- pygame's `Rect` stores C integers. The model's coordinates are unbounded, so overflow at extreme coordinates is not modelled.
- `has_coffee_available()`, which the tutorial calls, is not defined on the inventory in src/ui/inventory.py. Its answer is the `coffeeAvailable` parameter of `Tutorial.TutorialSystem.Update`.
- `get_map_data`, imported by src/utils/__init__.py, is not part of this model. src/config is not part of this model either, so the credits screen's tile size is irrelevant here.
- The main menu's `update` and its helpers take an `events` argument they never read, and so do the pause and options menus. Only the credits screen reads its events.
- The `data` half of the pause and options menus' reply is always `None`, except for the fullscreen toggle's new value. The model returns it as part of the action.
- The tree cache: the background looks trees up under `(map_width, map_height, spawn_point)` as the caller passed it, which may be `None`. `clear_trees_in_area` stores them under the spawn point actually used. The model keeps both keys as written (`Background.Background.ClearedKey`). Whether the game ever looks them up under the stored key depends on callers outside the core.
- Background.Background.constructor: requires a positive tile size and, when a generated grid is given, a rectangular one. The source's tile arithmetic and `len(grid[0])` assume both.
- LegacyBackground.LegacyBackground.constructor: requires a positive tile size and a rectangular map for the same reason.
- LegacyEnemy.LegacyEnemy.Update: the older enemy's movement probe, direction choice and update require a rectangular map and a positive tile size. The source checks bounds against `len(map_data[0])` only and would raise on a ragged map.
- Enemy.Enemy.Update: the enemy's methods require a positive tile size, which the source divides by.
- Player.Player.Update: requires a positive tile size, which the source divides by, and a two-element `map_position`, which the constructor always makes.
- MainMenu.MainMenu.Update: requires the menu invariant (highlight and slot in range, three slots listed once the menu has left its main screen). The constructor establishes it and `MainMenu.StepKeepsInv` preserves it.
- PauseMenu.PauseMenu.Update: requires the highlight to be in range, which the constructor establishes and `PauseMenu.StepKeepsInv` preserves.
- OptionsMenu.OptionsMenu.Update: requires `0 <= selectedIndex < 4`, which the constructor establishes and `OptionsMenu.StepKeepsInv` preserves.
- Tutorial.TutorialSystem.Update: requires the fade to be in `[0, 255]`, which the constructor establishes and `Tutorial.StepKeepsInv` preserves.
- Npc.StepKeepsInv: the invariant holds only for readable dialogs, meaning at least one dialog and each with at least one text. Otherwise `Npc.Step` reports the `IndexError` the source would raise.
