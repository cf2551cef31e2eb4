# Snake servers, snake client helpers and platformer integer logic in Dafny

This project models four JavaScript files and proves properties of the model.

- `snake-server-backend/server.js` is the authoritative multiplayer snake server.
  It keeps a `players` map and one `food` cell on a 20 x 20 grid.
  Every 200 ms a tick visits the players in key order.
  For each player it moves the head one cell, deletes the player on a wall, self or other-body hit, and otherwise grows on food or pops the tail.
  Modules `SnakeCore` (state shared with the legacy server, connect and disconnect) and `SnakeServer` (the tick, the `move` handler, class `Server`).
- `snake-server-backend/Node.js` is the older server.
  It has the same state, an unvalidated `move` and a tick without collision checks.
  Module `SnakeLegacy`, class `LegacyServer`.
- `snake-server-backend/game.js` is the browser client.
  The model covers username normalisation, `escapeHtml`, the scoreboard status label and name, the respawn-popup condition, the countdown clamp, and the merge of configuration messages.
  Module `SnakeClient`, class `Client`.
- `shape/game.js` is a single-player platformer. Its integer logic is modelled:
  - the seeded generator `mulberry32` and `reseed` (module `Mulberry`);
  - the tech catalogue and `applyTech`, `damagePlayer` and `handlePlayerDeath`, the Q-key weapon cycle;
  - the 120-slot particle pool and `spawnParticles`;
  - `generatePlatforms`, `computeTerrainEnd`, `resetWorld` and the terrain extension.

  These live in module `Platformer`, class `Game`.

Design decisions:

- **State is a class.** Each server and the client is a class with the source's module variables as fields. The platformer's global `state`, `PARTICLE_POOL`, `platforms`, `terrainEndX`, `seed` and `rng` are the fields of `Game`.
- **Methods are proved against pure functions.** Every state-changing method is specified by a pure function of the old state (`AfterTick`, `Advance`, `WithTech`, `Spawned`, `AfterDeath`, `Generated`, `RightEdge`). The lemmas are proved about those functions.
- **Key order is explicit.** `for (let id in players)` visits string keys in insertion order, and socket ids are never array-index strings. The order is kept as the field `order`.
- **Randomness is a parameter.**
  - `Math.random()` food cells are a sequence `draws`: the player visited at position `k` gets `draws[k]` if it eats.
  - The random colour is a parameter.
  - Math.random seeds of the platformer are parameters.
- **The generator keeps its state as an integer.** The `mulberry32` closure variable is the unsigned bit pattern of the 32-bit state. The mixing is done on `bv32`.
- **Draws are 32-bit integers.** A draw is the integer `(t ^ t >>> 14) >>> 0` before the division by 2^32. `Math.floor(rng() * n)` is then exactly `(u * n) / 2^32` for the small integers `n` the game uses.

Facts about the code that the lemmas make precise:

- `server.js` checks collisions against the map as it stands in the middle of the loop, so the key order decides the outcome (`LeaderMovesFirst`, `FollowerMovesFirst`, `SameTargetOnlyLaterDies`).
- `server.js` accepts the reverse of the current direction. When the stored direction steps the head back onto the second cell of a body of two cells or more, the player is deleted (`ReverseKills`); a new one-cell player survives such a step (`ReverseSparesNewPlayer`).
- Neither server implements lives, respawn, spectators, wrap-around edges or match phases, though the client reads such fields.

## Model

| member | source | states |
|---|---|---|
| SnakeCore.Step | snake-server-backend/server.js:50-56 | the candidate head is adjacent to the old head exactly when the direction is one of the four arrows; any other value leaves the head in place; up/down keep x, left/right keep y; ArrowUp lowers y, ArrowDown raises y, ArrowLeft lowers x and ArrowRight raises x, each by one |
| SnakeCore.NewPlayer | snake-server-backend/server.js:26-31 | a new player is the one cell (5, 5), heading ArrowRight, with the given colour and score 0 |
| SnakeCore.Grow | snake-server-backend/server.js:88-96 | the new head is prepended; on food the whole old body is kept and length and score rise by one, otherwise the last cell is dropped and length and score stay; direction and colour are unchanged |
| SnakeCore.Without | snake-server-backend/server.js:40 | the key order after `delete` holds exactly the other keys, is no longer, and keeps the keys distinct |
| SnakeCore.WithoutKeepsOrder | snake-server-backend/server.js:40 | `delete` removes exactly the one position holding the key; the other keys keep their for-in order |
| SnakeCore.Connect | snake-server-backend/server.js:26-31 | the id maps to a fresh record and no other player changes; a new id goes to the end of the key order, an existing one keeps its place; the food is unchanged; the handler in Node.js (lines 20-25) is the same assignment |
| SnakeCore.Remove | snake-server-backend/server.js:39-41 | exactly the given key is removed, every other record is unchanged, the food is unchanged |
| SnakeCore.Initial | snake-server-backend/Node.js:12-13 | the start state has no players and the given food cell |
| SnakeServer.AdvanceOutcome | snake-server-backend/server.js:46-97 | one iteration changes only the visited player; it is deleted exactly when the wall, self or other-body condition holds, and then the food stays and the key order loses exactly that key; a survivor has moved one step and scored exactly when its new head was the food, the food was then redrawn to the draw and otherwise kept, and the key order is unchanged |
| SnakeServer.GrowKeepsPlayerInv | snake-server-backend/server.js:88-96 | a survivor's body stays on the grid, free of repeated cells, connected, with length = score + 1 and a recognised direction |
| SnakeServer.AdvanceKeepsInv | snake-server-backend/server.js:46-97 | one iteration keeps that invariant for every player, given a food draw on the grid |
| SnakeServer.RunKeepsInv | snake-server-backend/server.js:46-97 | any prefix of the tick loop keeps the invariant |
| SnakeServer.TickKeepsInv | snake-server-backend/server.js:45-100 | a whole tick keeps the invariant |
| SnakeServer.RunRecord | snake-server-backend/server.js:46-97 | during the loop no key is added, a player not yet visited is unchanged, and a visited survivor has moved exactly once |
| SnakeServer.TickSurvivors | snake-server-backend/server.js:45-100 | a tick never adds a player, never lowers a score, and moves every survivor by exactly one step |
| SnakeServer.SelfHitIncludesTail | snake-server-backend/server.js:67-70 | a head on the current tail cell, which would have been popped, still deletes the player |
| SnakeServer.ReverseKills | snake-server-backend/server.js:66-70 | with two cells or more, a head stepping back onto the second cell, as after an accepted reverse `move`, deletes the player |
| SnakeServer.ReverseSparesNewPlayer | snake-server-backend/server.js:26-37 | a new one-cell player turned to the reverse direction survives the next step |
| SnakeServer.LeaderMovesFirst | snake-server-backend/server.js:73-86 | a player moving onto a cell the player ahead has just left survives: there is no frozen frame |
| SnakeServer.FollowerMovesFirst | snake-server-backend/server.js:73-86 | with the other key order the same follower hits the body not yet moved and is deleted |
| SnakeServer.SameTargetOnlyLaterDies | snake-server-backend/server.js:73-86 | of two heads aiming at one cell, the first visited survives and the second is deleted |
| SnakeServer.Server.constructor | snake-server-backend/server.js:13-14 | the server starts with no players and a food cell on the grid |
| SnakeServer.Server.Connect | snake-server-backend/server.js:26-31 | the handler's new state is `Connect` of the old one, and the invariant holds |
| SnakeServer.Server.Move | snake-server-backend/server.js:33-37 | only the four arrows are stored, reverse included; other values change nothing; for a deleted player the handler throws and nothing changes |
| SnakeServer.Server.Disconnect | snake-server-backend/server.js:39-41 | the new state is `Remove` of the old one, and the invariant holds |
| SnakeServer.Server.CollidesWithOther | snake-server-backend/server.js:73-81 | the inner loop reports a hit exactly when another present player's body holds the head |
| SnakeServer.Server.Visit | snake-server-backend/server.js:47-96 | one pass of the loop body yields `Advance` of the old state and keeps the invariant |
| SnakeServer.Server.Drop | snake-server-backend/server.js:62 | `delete players[id]` yields `Remove` of the old state |
| SnakeServer.Server.MoveHead | snake-server-backend/server.js:88-96 | the record becomes `Grow` of the old one, and the food is redrawn exactly when the head was on it |
| SnakeServer.Server.Tick | snake-server-backend/server.js:45-100 | the tick yields `AfterTick` of the old state and keeps the invariant |
| SnakeLegacy.AdvanceOutcome | snake-server-backend/Node.js:39-58 | the head always moves by the stored direction; score and length rise by one and the food is redrawn exactly on food; an unknown direction repeats the old head; other players are unchanged |
| SnakeLegacy.VisitedKeysPresent | snake-server-backend/Node.js:38-39 | each key the loop visits is still present, so the unguarded `players[id]` never fails |
| SnakeLegacy.RunKeepsKeys | snake-server-backend/Node.js:37-59 | the loop never adds or removes a player and keeps the key order |
| SnakeLegacy.AdvanceKeepsInv | snake-server-backend/Node.js:47-58 | one iteration keeps length = score + 1, a non-negative score and the food on the grid |
| SnakeLegacy.RunKeepsInv | snake-server-backend/Node.js:38-59 | any prefix of the loop keeps that invariant |
| SnakeLegacy.TickKeepsInv | snake-server-backend/Node.js:37-62 | a tick keeps the invariant, the set of players and the key order |
| SnakeLegacy.LaterPlayerSeesNewFood | snake-server-backend/Node.js:50-56 | a player visited later in the tick is checked against the food redrawn earlier in it |
| SnakeLegacy.LegacyServer.constructor | snake-server-backend/Node.js:12-13 | the server starts with no players and food at (10,10) |
| SnakeLegacy.LegacyServer.Connect | snake-server-backend/Node.js:20-25 | the handler's new state is `Connect` of the old one |
| SnakeLegacy.LegacyServer.Move | snake-server-backend/Node.js:27-29 | any string is stored as the direction, recognised or not; for a missing player the handler throws and nothing changes |
| SnakeLegacy.LegacyServer.Disconnect | snake-server-backend/Node.js:31-33 | the new state is `Remove` of the old one |
| SnakeLegacy.LegacyServer.Visit | snake-server-backend/Node.js:39-58 | one pass of the loop body yields `Advance` of the old state |
| SnakeLegacy.LegacyServer.VisitAll | snake-server-backend/Node.js:38-59 | the loop yields `AfterTick` of the old state |
| SnakeLegacy.LegacyServer.Tick | snake-server-backend/Node.js:37-62 | the tick yields `AfterTick` and keeps the invariant |
| SnakeClient.Trim | snake-server-backend/game.js:27 | `trim()` returns the infix between two all-space ends, neither starting nor ending with white space; it is empty exactly when the input is all white space |
| SnakeClient.TrimIdempotent | snake-server-backend/game.js:27 | trimming twice is trimming once |
| SnakeClient.NormalizeUsername | snake-server-backend/game.js:27-28 | the saved name is the trimmed input cut to at most 32 characters; there is none exactly when the input is all white space; a trimmed name of 32 or fewer is kept whole |
| SnakeClient.TruncatedNameMayEndInSpace | snake-server-backend/game.js:27 | when the cut falls after white space the saved name ends in it, and normalising it again gives a different name |
| SnakeClient.Client.constructor | snake-server-backend/game.js:7-23 | the client starts with the stored name or "", grid size 20 and no wrapping |
| SnakeClient.Client.SaveUsername | snake-server-backend/game.js:26-32 | the saved name is `NormalizeUsername` of the input; on an empty result `username` is unchanged |
| SnakeClient.EscapeHtmlIsPerCharacter | snake-server-backend/game.js:157-162 | the three global replacements, `&` first, equal escaping each character once |
| SnakeClient.EscapeHtmlRoundTrip | snake-server-backend/game.js:157-162 | decoding the three entities gives the input back, so nothing is escaped twice |
| SnakeClient.EscapeHtmlSafe | snake-server-backend/game.js:157-162 | the output holds no `<` and no `>`; a string without `&`, `<`, `>` is unchanged |
| SnakeClient.StatusLabel | snake-server-backend/game.js:103 | a spectator reads " (Spectator)" whatever `alive` is, an alive player "", anyone else " (Down)" |
| SnakeClient.DisplayName | snake-server-backend/game.js:104 | the shown name is never empty and holds no `<` or `>`; a missing or empty name shows as "Anonymous"; any other name shows as its escaping, which decodes back to the name |
| SnakeClient.PopupIffDown | snake-server-backend/game.js:113-118 | the respawn popup is shown exactly when the client's own player is listed and its label is " (Down)" |
| SnakeClient.SecondsLeft | snake-server-backend/game.js:109 | the seconds shown are never negative and are the floor of the remaining time; a missing end time gives NaN |
| SnakeClient.TakeNumber | snake-server-backend/game.js:66-67 | a given number is taken and any other value keeps the current one, so a number stays a number |
| SnakeClient.TakeBoolean | snake-server-backend/game.js:71-72 | a given boolean is taken and any other value keeps the current one, so a boolean stays a boolean |
| SnakeClient.Nullish | snake-server-backend/game.js:80-81 | `??` keeps the current value exactly when the given one is null or undefined, and otherwise takes the given one |
| SnakeClient.NullishMayBreakType | snake-server-backend/game.js:80-81 | the `state` handler can replace a numeric grid size with a string |
| SnakeClient.Client.ConfigUpdated | snake-server-backend/game.js:65-75 | grid size changes only to a number and wrapping only to a boolean; well-typed configuration stays well typed |
| SnakeClient.Client.NewMatch | snake-server-backend/game.js:141-150 | the same typed merge as `configUpdated` |
| SnakeClient.Client.OnState | snake-server-backend/game.js:80-81 | grid size and wrapping take any non-nullish given value |
| Mulberry.ToU32 | shape/game.js:54 | the bitwise or with 0, read as an unsigned bit pattern, is congruent to `x` modulo 2^32 |
| Mulberry.ToInt32 | shape/game.js:54 | the bitwise or with 0 is a signed 32-bit value with the same bit pattern as `x` |
| Mulberry.StateAfterClosedForm | shape/game.js:47 | after `n` calls the state is the seed plus `n` times 0x6D2B79F5, modulo 2^32 |
| Mulberry.StatePeriod | shape/game.js:45-52 | the state sequence repeats after 2^32 calls |
| Mulberry.StateAfterAdd | shape/game.js:47 | `m` calls followed by `n` more are `m + n` calls |
| Mulberry.DrawsResume | shape/game.js:45-52 | a generator that has made `m` calls continues the seed's sequence of outputs |
| Mulberry.Draws | shape/game.js:45-52 | the first `n` outputs are `n` 32-bit integers |
| Mulberry.Output | shape/game.js:48-50 | each output is a 32-bit unsigned integer, so `rng()` lies in [0, 1) |
| Platformer.ExtraLife | shape/game.js:103-109 | `extra_life` adds exactly one life; its revert removes one, floored at 0, and undoes the apply on any non-negative count |
| Platformer.HpBoost | shape/game.js:75-81 | `hp_boost` raises maximum and current hp by 4; its revert restores the current hp only when it was at the maximum; otherwise up to 4 of the bonus stays |
| Platformer.ApplyTechIdempotent | shape/game.js:272-277 | applying a tech twice equals applying it once; an unknown id changes nothing; a known new id is recorded and its effect applied |
| Platformer.ExtraLifeOnce | shape/game.js:272-277 | picking `extra_life` any number of times adds exactly one life |
| Platformer.AfterDeath | shape/game.js:294-308 | after a death lives are one fewer, or 3 when the last life was lost; lives are at least 1; hp is back to the maximum |
| Platformer.AfterHit | shape/game.js:284-293 | a hit that leaves hp above 0 only lowers hp; otherwise the death rule applies |
| Platformer.LivesStayPositive | shape/game.js:284-308 | no sequence of hits leaves the player without lives |
| Platformer.IndexOf | shape/game.js:413 | `indexOf` returns -1 exactly when the value is absent, else its first index |
| Platformer.WeaponCycle | shape/game.js:411-416 | Q always picks a catalogued weapon: basic, laser, spread, back to basic; an unknown weapon becomes basic; three presses return to the start |
| Platformer.Spawned | shape/game.js:244-258 | spawning keeps the pool size and never switches a particle off |
| Platformer.SpawnTail | shape/game.js:245-258 | once `count` inactive slots lie behind, the rest of the pool is untouched |
| Platformer.SpawnedCount | shape/game.js:244-258 | exactly `min(count, inactive slots)` particles are switched on, lowest slots first |
| Platformer.Activated | shape/game.js:244-258 | the number of particles switched on is `min(max(count, 0), inactive slots)` |
| Platformer.RightEdge | shape/game.js:342 | the terrain end is at least 0, bounds every right edge, and is 0 or attained by a platform |
| Platformer.RightEdgeAppend | shape/game.js:342 | the terrain end of two runs of platforms is the larger of theirs |
| Platformer.ComputeTerrainEnd | shape/game.js:342 | the loop returns `RightEdge` of the platforms: at least 0, at least every `x + w`, and attained unless 0 |
| Platformer.Scale | shape/game.js:315-316 | `Math.floor(rng() * n)` lies in [0, n) |
| Platformer.GeneratedLayout | shape/game.js:311-320 | platform `i` starts in [startX + 96i, startX + 96i + 48), lies at a height in [380, 560), is 88 by 18, and lies right of the earlier ones |
| Platformer.GeneratedEnd | shape/game.js:311-320 | ten generated platforms end between 952 and 999 pixels after `startX` |
| Platformer.FloorCapsTerrainEnd | shape/game.js:505-510 | as written, the terrain end after the first extension is the floor's 10000 whatever the seed, while the generated platforms end before 1960 |
| Platformer.ComputeGeneratedTerrainEnd | shape/game.js:342 | the corrected loop, which skips the floor as `spawnEnemiesOn` does at line 324, returns `GeneratedTerrainEnd` |
| Platformer.GeneratedTerrainEnd | shape/game.js:509 | the terrain end without the floor bounds every other platform and is not negative |
| Platformer.CorrectedTerrainEnd | shape/game.js:505-510 | with the floor left out, the first extension ends between 1912 and 1959, right after the platforms it generated |
| Platformer.ExtensionEnd | shape/game.js:505-510 | with the floor left out, any extension from a terrain end that every other platform ends less than 40 pixels past moves the end 952 to 999 pixels further on |
| Platformer.InitialTerrain | shape/game.js:344-350 | after `resetWorld` every platform but the floor ends less than 40 pixels past the terrain end 960 |
| Platformer.Game.constructor | shape/game.js:364-365 | page load gives an inactive pool, base stats, no techs, the floor and ten platforms from the seed, terrain end 960 |
| Platformer.Game.Random | shape/game.js:46-51 | one call advances the state once and returns the output of the new state |
| Platformer.Game.Reseed | shape/game.js:54 | `seed` becomes `newSeed` truncated to a signed 32-bit value, and the generator restarts from it |
| Platformer.Game.GeneratePlatforms | shape/game.js:311-320 | the ten platforms are `Generated` from the next twenty draws, and the generator has advanced twenty calls |
| Platformer.Game.NextPlatform | shape/game.js:315-317 | one loop pass makes platform `i` from draws `2i` and `2i + 1` |
| Platformer.Game.ResetWorld | shape/game.js:343-363 | the generator restarts from `seed`, the platforms are the floor and ten new ones, the terrain end is 960, the player is at rest at the checkpoint, and stats and techs are at their defaults |
| Platformer.Game.RestartTerrain | shape/game.js:344-350 | the world half of `resetWorld` |
| Platformer.Game.ResetPlayer | shape/game.js:351-361 | the player half of `resetWorld` |
| Platformer.Game.ExtendTerrain | shape/game.js:505-510 | ten platforms from the old terrain end are appended, and the terrain end becomes `RightEdge` of all platforms, the floor included, as written |
| Platformer.Game.ExtendTerrainCorrected | shape/game.js:505-510 | the corrected extension: the same ten platforms, the terrain end is the right edge of all platforms but the floor, 952 to 999 pixels past the old one, and the terrain invariant is kept |
| Platformer.Game.ApplyTech | shape/game.js:272-277 | the techs and stats become `WithTech` of the old ones |
| Platformer.Game.CycleWeapon | shape/game.js:411-416 | the weapon becomes `NextWeapon` of the old one |
| Platformer.Game.HandlePlayerDeath | shape/game.js:294-308 | the stats become `AfterDeath` of the old ones; the player is back at the checkpoint, at rest, invulnerable for 2 s; the generator is reseeded exactly when the last life was lost |
| Platformer.Game.SpawnParticles | shape/game.js:244-258 | the pool becomes `Spawned` of the old pool, and the generator advances four calls per particle switched on |
| Platformer.Game.DrawParticle | shape/game.js:250-255 | one particle takes four draws |
| Platformer.Game.DamagePlayer | shape/game.js:284-293 | while invulnerable nothing changes; otherwise hp falls, knockback is ±200, eight particles are requested, and a hit to 0 or below runs the death rule; the seed changes only when the last life is lost, and the terrain is untouched |

## Left out

- Timers, sockets, `io.emit`, `console.log`, DOM, canvas, `localStorage` and `prompt`: I/O, not logic. The models cover the handler and tick bodies only.
- `Math.random()`: the food cells, colours and seeds it produces are parameters. The food draws are assumed to lie on the grid, as `randomFood()` guarantees.
- SnakeServer.Server.Tick: the draw for the `k`-th visited player is `draws[k]`, indexed by position rather than by the number of earlier draws. For arbitrary draws the set of behaviours is the same.
- The snake `state` broadcast and the client's drawing of it are not modelled.
- The client's `tileSize` and form inputs are not modelled.
- The scoreboard's score and lives text, and the `matchOver` leaderboard markup, are not modelled beyond `escapeHtml` and the status label.
- SnakeClient.Trim: works on Unicode characters. JavaScript strings are UTF-16, so `slice(0, 32)` counts code units, and a name with characters outside the Basic Multilingual Plane can be cut inside a surrogate pair. The model counts characters.
- SnakeClient.SecondsLeft: times are integer milliseconds. A non-numeric `matchEndTime` other than a missing one is not modelled.
- Mulberry.Output: the final division by 4294967296 is left out. A draw is the 32-bit integer before that division.
  - `Platformer.Scale` states the exact integer value of `Math.floor(rng() * n)`.
  - The floating-point uses of draws (particle angle, speed, life and hue; enemy behaviour) are not modelled.
- Platformer float state is not modelled:
  - `regen`, `invulnFrames`, `invulnSec` and `damageMult`;
  - the techs `regen_boost`, `invuln_ext` and `damage_amp`, which change only these;
  - gravity, velocities beyond knockback and respawn, the timestep accumulator, bullets, enemies, loot, camera, screen shake and colours.
- The tech `revert` functions are modelled by their effect only. Nothing in the game calls them.
- `spawnEnemiesOn` is represented only by the number of draws it takes (`enemyDraws`). The enemies it creates are not modelled.
- Platformer.Game.ExtendTerrain: its guard compares float positions with the camera, so the method models the extension once the guard holds. The same holds for `ExtendTerrainCorrected`.
- `pickupRandomTech`, loot drops and the enemy particle bursts are not modelled. They feed `applyTech` and `spawnParticles`, which are.
- SnakeLegacy.LegacyServer.Move: the direction is a string. The source stores whatever JSON value the socket delivers.
- SnakeClient.TakeNumber: a `Number` is a finite number. NaN and the infinities, which also have `typeof` "number", are not modelled.
- SnakeClient.DisplayName: the player name is a string or missing. The source's `escapeHtml` first applies `String(...)` to any other value.
- The root `server.js`, `server.cjs` and `shape/graphs.js` are not part of this model. They hold chat relays, network calls and canvas drawing.

## Findings

| source | as written | input that shows it | evidently intended | confidence | as-written member | corrected member |
|---|---|---|---|---|---|---|
| shape/game.js:509 | `computeTerrainEnd()` takes the maximum over all `platforms`. That list includes the floor (x = -10000, w = 20000, line 235, pushed at line 345), so after the first extension `terrainEndX` is 10000 whatever the seed. | any seed: at start-up the extension from 960 generates platforms ending before 1960, and `terrainEndX` then becomes 10000. No platforms are generated between about 1960 and 10000, and the next batch starts at 10000. | the end of the generated terrain, so that each batch continues where the last one ended | medium, not executed | Platformer.FloorCapsTerrainEnd | Platformer.CorrectedTerrainEnd |
