# Planet Wars core, modelled in Dafny

A model of the game logic of the Planet Wars browser game under
`alpha/planetwars/src/`. The game has three entities.

- **Planets** carry an owner (0 neutral, 1 player, 2 AI), a ship count, and a radius
  and capacity fixed by their size class. The size classes are big 40/200,
  medium 25/50 and small 15/20.
- **Fleets** are launched from a planet with a snapshot of its owner and all of its
  whole ships. They fly to a target planet and are resolved there on arrival.
- **The game scene** holds the planets, the fleets in flight, the player's
  selection and the game-over flag. Its handlers are the pointer click with its
  fuzzy planet pick, click handling, fleet dispatch, the production tick, the AI
  tick, the per-frame fleet update with arrival resolution, and the game-over check.

The source is imperative, and so is the model:

- `Planets.Planet`, `Fleets.Fleet` and `GameScenes.Scene` are classes whose methods
  update their fields in place.
- The scene's fleet list is a `seq<Fleet>` field that the methods reassign.
- Every loop of the modelled handlers is a `while` or `for` loop with invariants.
- Each method is proved against pure specification functions, whose properties are
  proved as lemmas:
  - `Combat.Resolve`: what an arrival does to a garrison;
  - `Rules.Produced`: a production step;
  - `Rules.ChooseTarget`, `Rules.LaunchFrom` and `Rules.AiPlan`: the AI's decisions;
  - `Rules.Verdict`: the game-over verdict;
  - `Seqs.Keep`, `Seqs.Chosen` and `GameScenes.Apply`: which fleets stay in flight
    and what the arrivals do, in order.

Modules:

| file | module | contents |
|---|---|---|
| `optional.dfy` | `Optional` | the `Option` datatype |
| `seqs.dfy` | `Seqs` | filtering a sequence by flags, reversal, distinctness |
| `planets.dfy` | `Planets` | owners, size classes, the `Planet` class |
| `fleets.dfy` | `Fleets` | the `Fleet` class, its launch snapshot and its arrival test |
| `combat.dfy` | `Combat` | resolution of an arriving fleet |
| `rules.dfy` | `Rules` | production, AI target choice and plan, game-over verdict |
| `scene.dfy` | `GameScenes` | the `Scene` class and its handlers |

Modelling choices:

- Ship counts are integers. Every ship count in the source is an integer: the
  start garrisons, the production step of 2 and differences of integers. So
  `Math.floor` in `sendFleet` is the identity.
- Positions are integers. Distances are compared squared, so no square root is needed:
  - the fuzzy pick's test `dist < radius * 2.5` is `4 * d² < 25 * radius²`;
  - the arrival test `dist < 5` is `d² < 25`;
  - the pick's initial minimum distance 10000 becomes `10000²`.
- Each call of `Math.random` in `updateAI` is an input. For each planet, a
  `Rules.Roll` carries the coin (`Math.random() < 0.7`) and the index pick. The
  pick becomes `pick % n` over the `n` candidates, which is any candidate.
- The random planet layout is a parameter: the scene constructor takes the eleven
  positions.
- `updateAI` first filters the AI planets and then visits them. The model visits every
  planet in order, and `Rules.LaunchFrom` tests the owner at the visit. No owner
  changes during the AI tick, so both visit the same planets in the same order.
  `GameScenes.Scene.AiTurn` evaluates `Rules.LaunchFrom` (the test `ships > 10` and
  then the target choice) and calls `sendFleet` when it yields a launch.

Two behaviours of the code worth knowing:

- The selection can end up on a planet the player no longer owns. An enemy fleet can
  conquer the selected planet. `handlePlanetClick` then takes its "invalid
  selection" branch (`alpha/planetwars/src/scenes/GameScene.js:167-175`), and
  `GameScenes.Scene.ClickEffect` models it. What the model proves is weaker: right
  after a click the selection is empty or is one of the player's planets.
- With a player planet selected, clicking another player planet dispatches a fleet
  to it (a reinforcement). It does not move the selection.

## Model

| member | source | states |
|---|---|---|
| Planets.Planet.constructor | alpha/planetwars/src/objects/Planet.js:4-22 | a new planet is neutral with 0 ships, and its radius and capacity are those of its size class (40/200, 25/50, 15/20) |
| Planets.Planet.SetOwner | alpha/planetwars/src/objects/Planet.js:44-47 | the owner becomes the given one and the ship count is unchanged |
| Planets.Planet.AddShips | alpha/planetwars/src/objects/Planet.js:49-52 | ships become `min(ships + amount, capacity)`; the owner is unchanged; never above capacity; an in-range garrison stays in range |
| Planets.Planet.RemoveShips | alpha/planetwars/src/objects/Planet.js:54-57 | ships become `max(0, ships - amount)`; the owner is unchanged; never negative; an in-range garrison stays in range |
| Planets.Added | alpha/planetwars/src/objects/Planet.js:50 | the result is the least of `ships + amount` and `capacity` |
| Planets.Removed | alpha/planetwars/src/objects/Planet.js:55 | the result is the greatest of `0` and `ships - amount` |
| Planets.AddedStaysInRange | alpha/planetwars/src/objects/Planet.js:50 | adding a non-negative amount to an in-range count gives a count between the old count and the capacity |
| Planets.RemovedStaysInRange | alpha/planetwars/src/objects/Planet.js:55 | removing a non-negative amount gives a count between 0 and the old count |
| Planets.AddZero | alpha/planetwars/src/objects/Planet.js:50 | adding nothing keeps an in-range count and clamps an over-capacity count to the capacity |
| Planets.RemoveZero | alpha/planetwars/src/objects/Planet.js:55 | removing nothing keeps a non-negative count |
| Fleets.DistSq | alpha/planetwars/src/objects/Fleet.js:40 | the squared distance is 0 exactly when the two points coincide |
| Fleets.Fleet.constructor | alpha/planetwars/src/objects/Fleet.js:4-12 | the fleet starts at the source's position and records source, target, ship count, speed 100 and the source's owner at launch |
| Fleets.Fleet.Arrived | alpha/planetwars/src/objects/Fleet.js:40-44 | the arrival test `distance < 5`: a fleet on its target has arrived, and one that has arrived is less than 5 away from the target on each axis |
| Fleets.Fleet.Update | alpha/planetwars/src/objects/Fleet.js:38-53 | reports arrival exactly when the fleet was within distance 5 of its target; an arriving fleet does not move |
| Combat.Resolve | alpha/planetwars/src/scenes/GameScene.js:260-286 | the target ends up owned by its old owner or by the fleet's owner; ownership changes exactly when the fleet is hostile and the target is neutral or outnumbered; ships stay non-negative |
| Combat.PeacefulArrival | alpha/planetwars/src/scenes/GameScene.js:263-271 | reinforcing one's own planet, or landing on a neutral one, leaves it owned by the fleet's side with ships between the old count and the capacity |
| Combat.BattleIsAttrition | alpha/planetwars/src/scenes/GameScene.js:274-283 | in a battle the larger side keeps the difference, and a tie goes to the defender with 0 ships |
| Combat.CombatExamples | alpha/planetwars/src/scenes/GameScene.js:260-286 | hand-worked outcomes: capture of a neutral planet, an attacker's win, a defender's win, a tie |
| Combat.ConquestCanExceedCapacity | alpha/planetwars/src/scenes/GameScene.js:274-279 | a conquest by force sets the remaining ships without the capacity clamp, so a small planet can hold 100 ships |
| Combat.ResolveKeepsRangeUnlessConquest | alpha/planetwars/src/scenes/GameScene.js:260-286 | every outcome except a conquest by force keeps an in-range garrison within capacity |
| Rules.Count | alpha/planetwars/src/scenes/GameScene.js:291-302 | the `filter(...).length` of the game-over check: a count of entries, never more than the length of the list |
| Rules.CountZeroIff | alpha/planetwars/src/scenes/GameScene.js:291-292 | a filtered count is 0 exactly when the value is absent |
| Rules.IndicesOf | alpha/planetwars/src/scenes/GameScene.js:131 | the result lists, in increasing order, positions holding the value, as many as there are occurrences |
| Rules.IndicesOfComplete | alpha/planetwars/src/scenes/GameScene.js:131 | every position holding the value is listed |
| Rules.Verdict | alpha/planetwars/src/scenes/GameScene.js:298-305 | defeat exactly when the player has neither planets nor fleets; victory exactly when the player has some and the AI has neither |
| Rules.Produced | alpha/planetwars/src/scenes/GameScene.js:204-208 | neutral planets are unchanged; owned planets keep their owner and gain 2 ships, clamped to their capacity |
| Rules.PickOne | alpha/planetwars/src/scenes/GameScene.js:229 | the random pick is one of the candidates |
| Rules.ChooseTarget | alpha/planetwars/src/scenes/GameScene.js:220-235 | a target exists exactly when some planet is neutral or the player's; it is never the AI's; it is neutral when the coin favours neutral and one exists; otherwise it is the player's when the player has a planet; otherwise it is neutral |
| Rules.MayAttack | alpha/planetwars/src/scenes/GameScene.js:214-217 | only a planet of the AI (`owner === 2`) holding more than 10 ships, so at least 11, may attack |
| Rules.LaunchFrom | alpha/planetwars/src/scenes/GameScene.js:216-240 | a planet launches at most once, and exactly when it is the AI's, holds more than 10 ships and some target exists; the target is never the AI's |
| Rules.AiPlan | alpha/planetwars/src/scenes/GameScene.js:211-242 | every launch comes from an AI planet holding more than 10 ships and goes to a non-AI planet; sources appear once each, in planet order |
| Rules.AiPlanSources | alpha/planetwars/src/scenes/GameScene.js:214-240 | a planet launches in the AI tick exactly when it is the AI's, holds more than 10 ships, and a neutral or player planet exists |
| Rules.AiPlanStep | alpha/planetwars/src/scenes/GameScene.js:216-240 | visiting one more planet extends the plan by that planet's launch; the planet still holds its original garrison before its turn, and the turn changes only its own garrison in the plan's outcome |
| Rules.NoTargetNoLaunch | alpha/planetwars/src/scenes/GameScene.js:233-239 | with no neutral or player planet left, the AI launches nothing |
| Seqs.Keep | alpha/planetwars/src/scenes/GameScene.js:248-257 | the fleets that survive the `splice` of the arrived ones: no more than before, and each of them was in the list |
| Seqs.Chosen | alpha/planetwars/src/scenes/GameScene.js:248-257 | the fleets that arrived in a frame: no more than before, and each of them was in the list |
| Seqs.Reverse | alpha/planetwars/src/scenes/GameScene.js:248 | reversal keeps the length and the elements |
| Seqs.ReverseAppend | alpha/planetwars/src/scenes/GameScene.js:248 | reversing a concatenation concatenates the reversals in swapped order |
| Seqs.KeepChosenPartition | alpha/planetwars/src/scenes/GameScene.js:248-257 | the fleets kept and the fleets that arrived together are exactly the fleets in flight before (as a multiset) |
| Seqs.KeepMembers | alpha/planetwars/src/scenes/GameScene.js:252-256 | a fleet is still in flight exactly when it has an occurrence that did not arrive |
| Seqs.KeepDropsExactlyFlagged | alpha/planetwars/src/scenes/GameScene.js:252-256 | in a list without duplicates, a fleet stays in flight exactly when it did not arrive |
| Seqs.DistinctRemove | alpha/planetwars/src/scenes/GameScene.js:255 | removing one element from a list without duplicates leaves a list without duplicates missing exactly that element |
| GameScenes.Near | alpha/planetwars/src/scenes/GameScene.js:30-31 | the pick tolerance `dist < p.radius * 2.5`: a click on a planet's centre is near it, and a near click is closer than the handler's initial `minDist` of 10000 |
| GameScenes.Step | alpha/planetwars/src/scenes/GameScene.js:260-286 | one `handleArrival` on the garrisons: the target's garrison becomes the combat resolution of the arrival and every other planet's garrison is unchanged |
| GameScenes.ArrivalOrder | alpha/planetwars/src/scenes/GameScene.js:248-257 | the fleets resolved in one frame are fleets that were in flight |
| GameScenes.Apply | alpha/planetwars/src/scenes/GameScene.js:248-257 | folding arrivals over the garrisons keeps the set of planets |
| GameScenes.CreatePlanets | alpha/planetwars/src/scenes/GameScene.js:93-128 | creates eleven fresh, distinct planets in the listed order of size classes (three big, four medium, four small), neutral and empty, at the given positions |
| GameScenes.AssignStarts | alpha/planetwars/src/scenes/GameScene.js:130-146 | the first small planet becomes the player's and the second the AI's, each with 10 ships; the others are unchanged |
| GameScenes.StartPlanets | alpha/planetwars/src/scenes/GameScene.js:93-146 | the planets at scene start are eleven fresh, distinct planets of the listed size classes at the given positions, all neutral and empty except planet 7 (the player's) and planet 8 (the AI's) with 10 ships each; every garrison is non-negative |
| GameScenes.Scene.constructor | alpha/planetwars/src/scenes/GameScene.js:10-18 | a new scene has the eleven planets, all neutral and empty except the player's and the AI's start planets with 10 ships each, no fleets, no selection, and the game not over |
| GameScenes.Scene.PickPlanet | alpha/planetwars/src/scenes/GameScene.js:24-36 | the pick is the nearest planet whose distance is under 2.5 radii, the earliest one on ties; there is no pick exactly when no planet is that close |
| GameScenes.Scene.PointerDown | alpha/planetwars/src/scenes/GameScene.js:21-48 | a click on a picked planet has the click effect on that planet; a click on empty space clears the selection; nothing happens after game over |
| GameScenes.Scene.PickIsUnique | alpha/planetwars/src/scenes/GameScene.js:28-36 | at most one planet is the pick for a click |
| GameScenes.Scene.HandlePlanetClick | alpha/planetwars/src/scenes/GameScene.js:149-189 | selects an owned planet, deselects on a second click, or dispatches a fleet from an owned selection and deselects; afterwards the selection is empty or the player's |
| GameScenes.Scene.SendFleet | alpha/planetwars/src/scenes/GameScene.js:191-199 | a source with no ship is untouched; otherwise all of its ships leave as one new fleet appended to the list, owned by the source's owner and starting at the source's position, and the source is left empty |
| GameScenes.Scene.ProduceShips | alpha/planetwars/src/scenes/GameScene.js:201-209 | every planet's garrison becomes its production step; nothing happens after game over |
| GameScenes.Scene.UpdateAI | alpha/planetwars/src/scenes/GameScene.js:211-242 | the new fleets are exactly the AI plan's launches, in order, each starting at its source planet's position; every launching planet is left empty and every other planet keeps its ships; owners are unchanged |
| GameScenes.Scene.AiStep | alpha/planetwars/src/scenes/GameScene.js:216-240 | if the fleets launched so far carry out the plan of the planets before `i`, then after planet `i`'s turn they carry out the plan of the planets up to `i`, and the garrisons are those the longer plan leaves |
| GameScenes.Scene.AiTurn | alpha/planetwars/src/scenes/GameScene.js:216-240 | one AI planet's turn appends exactly the fleet its launch prescribes (fresh, owned by the AI, with all of the planet's ships, at the planet's position, to the chosen target), empties that planet exactly when it launches, and changes no other garrison and no owner |
| GameScenes.Scene.Update | alpha/planetwars/src/scenes/GameScene.js:244-258 | the fleets left in flight are those that had not arrived, in order; the garrisons are those obtained by resolving the arrivals from the last fleet to the first; after game over nothing changes, not even a fleet's position |
| GameScenes.Scene.UpdateStep | alpha/planetwars/src/scenes/GameScene.js:248-257 | if the fleets after position `i` are already spliced and resolved, then handling fleet `i` splices and resolves the fleets from `i` on, and leaves the arrival test of the earlier fleets as it was |
| GameScenes.Scene.AdvanceFleet | alpha/planetwars/src/scenes/GameScene.js:249-256 | one fleet either moves on and the list and garrisons are unchanged, or it arrives, its target's garrison becomes the combat resolution of the arrival and the fleet is removed from the list |
| GameScenes.Scene.Arrive | alpha/planetwars/src/scenes/GameScene.js:252-256 | an arrived fleet is resolved against its target (`GameScenes.Step` on the garrisons) and spliced out of the list at its position |
| GameScenes.Scene.HandleArrival | alpha/planetwars/src/scenes/GameScene.js:260-286 | the target's owner and ships become the combat resolution of the arrival; only the target changes |
| GameScenes.Scene.CheckGameOver | alpha/planetwars/src/scenes/GameScene.js:288-311 | the game ends exactly when the verdict is defeat or victory, and records it; a finished game stays finished |

## Left out

- Rendering is not modelled: graphics, text labels, selection rings, stars, fleet rotation and the game-over overlay (`showGameOver`).
- Logging (`console.log`) is not modelled.
- The Phaser timers that call `produceShips`, `updateAI` and `checkGameOver` are not modelled: each handler is a method the environment may call at any time.
- The game-over overlay's restart button (`this.scene.restart()`) is not modelled: a new game is a new `GameScenes.Scene`.
- The random placement loop in `createPlanets` (up to 100 attempts per planet at non-overlapping positions) is not modelled: positions are a parameter.
- Fleets.Fleet.Update: a fleet that has not arrived moves to a position the model leaves unspecified. The trigonometric step of `speed * delta / 1000` towards the target is not modelled, because it is floating point.
- Fleets.DistSq: positions are integers and distances are compared squared. Fractional coordinates and the square root of `Phaser.Math.Distance.Between` are not modelled.
- GameScenes.Scene.SendFleet: requires a non-neutral source. Its only callers pass a player planet (GameScene.js:164) or an AI planet (GameScene.js:238).
- GameScenes.Scene.UpdateAI: does not state that the launched fleets are newly allocated objects. `GameScenes.Scene.AiTurn` and `GameScenes.Scene.SendFleet` state it for each launch.
- GameScenes.Scene.UpdateAI: the random numbers are inputs (`Rules.Roll`). Each index pick is `pick % n`, which reaches every candidate but does not model the probability distribution.
