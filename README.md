# Text-adventure engine

A model of the `cast adventure` text-adventure engine in `commands/adventure.js`.
It has three parts:

- **The world map**: seven named areas joined by north, south, east and west exits. An area is looked up by its exact name.
- **The player**: health starts at 100 and a current area starts at `Outside`. Both change in place.
- **The command loop**: it reads one raw line per turn and classifies it by a fixed first-match chain: game over, move, take, drop, inventory, and a costly catch-all.

Modules:

- `Wrappers` (`wrappers.dfy`): `Option`, standing for JavaScript's `null`/`undefined`.
- `World` (`world.dfy`): `Direction`, `Area`, exits and their truthiness, `Find` (the lookup), the built-in map and its closedness.
- `Rules` (`rules.dfy`): the rules as functions of a `PlayerState` value. These are `Classify`, `MoveSpec`, `Step` (one turn), `Run` (a sequence of turns), `Start` and `Mood` (the prompt glyph band).
- `Game` (`game.dfy`): the state the source updates in place. Class `WorldMap` holds the map. Class `Player` holds mutable `health` and `currentArea` and has the methods `Move`, `Take`, `Drop`, `Inventory` and `Turn` (the loop body). `Adventure` is the `while` loop over a given sequence of input lines. Each method's `ensures` ties its new state to the functions of `Rules`.
- `Properties` (`properties.dfy`): lemmas about those functions. They cover precedence, costs, the game-over reset, health that never rises, and staying inside the map.

Points where the code's behaviour is easy to misread:

- The input line is classified verbatim. The code does no trimming, so `" n"` is confusion, not a move.
- An exit naming an area that is not in the map is not detected. The move sets the current area to undefined (`None`) and charges 5. The next move then throws a `TypeError` before changing anything; the model calls this outcome `Fault`. The lemmas prove that this cannot happen on the built-in map, because that map has no dangling exit.
- Exits are tested for truthiness, so an exit named by the empty string counts as blocked, like `null`.
- Game over forces health to 0, which would raise a negative health, so "health never rises" holds only for the states a game can reach. From the start state, though, health is always a non-negative multiple of 5. So a reset caused by exhausted health only happens at exactly 0, and a quit only lowers health; health never rises during a game (`HealthNeverRises`, `BuiltinGame`).

## Model

| member | source | states |
|---|---|---|
| World.Find | commands/adventure.js:139-141 | lookup returns the first area whose name equals the key exactly; it returns None exactly when no area has that name |
| Game.WorldMap.Area | commands/adventure.js:139-141 | the map object's lookup: the first area with exactly that name, None iff no area has it |
| Game.WorldMap.constructor | commands/adventure.js:123-134 | the map is built holding exactly the seven built-in areas in order |
| World.BuiltinClosed | commands/adventure.js:126-133 | every open exit of every built-in area names an area of the map |
| World.FindOutside | commands/adventure.js:156 | the start lookup of Outside succeeds and yields the first built-in area |
| Rules.DirectionOf | commands/adventure.js:17-22 | an input names a direction iff it is exactly n, s, e or w, and that direction's key is the input |
| Properties.DirectionKeys | commands/adventure.js:17-22 | the directions table and its keys are inverse: each direction is named by exactly one key |
| Rules.Mood | commands/adventure.js:163-171 | prompt band: distress iff health < 20, wary iff 20 <= health < 50, calm iff health >= 50 |
| Rules.Classify | commands/adventure.js:175-190 | the dispatch chain: no health left always gives Quit, a move carries the direction the input names, take and drop carry the raw input; the exact input set of each command is in ClassifyExact |
| Properties.ClassifyExact | commands/adventure.js:175-191 | first-match precedence resolved: quit iff health <= 0 or input is q/quit; move iff health > 0 and input is n/s/e/w; take iff health > 0 and the input starts with get or take; drop iff health > 0 and it starts with drop; inventory iff health > 0 and input is i/inventory; confusion iff none of these |
| Rules.MoveSpec | commands/adventure.js:45-56 | `move` as a value: it throws exactly when there is no current area and then changes nothing; otherwise it costs exactly 5; it reports Moved exactly when the exit is open (truthy); a blocked move keeps the area; the target area is given by MoveEffect, and StepInWorld shows it stays in a closed map |
| Properties.MoveEffect | commands/adventure.js:45-56 | a move costs exactly 5 whether it succeeds or is blocked; an open exit leads to the area found under its name; a blocked exit keeps the area; with no current area the move throws and nothing changes |
| Game.Player.constructor | commands/adventure.js:37-43 | a new player has health 100 and the given area and map |
| Game.Player.Move | commands/adventure.js:45-56 | in place: health drops by 5 and the current area follows an open exit via the map lookup or stays when blocked; with no current area it throws and changes nothing; the new state equals the move rule |
| Game.Player.Take | commands/adventure.js:58-60 | acknowledges a take and changes no state (no modifies clause) |
| Game.Player.Drop | commands/adventure.js:62-64 | acknowledges a drop and changes no state |
| Game.Player.Inventory | commands/adventure.js:66-68 | shows the inventory placeholder and changes no state |
| Game.Player.Turn | commands/adventure.js:175-191 | one loop body in place: game over when health <= 0 or input is q/quit (health 0, exit status 0, area kept); otherwise the new state and outcome equal one step of the rules |
| Rules.Step | commands/adventure.js:175-191 | the loop body as a value: a turn either ends the game with health 0 and status 0 (keeping the area) or lowers health by at most 5 and never raises it; per-command detail is in StepGameOver, StepEffect and StepHealth |
| Properties.StepGameOver | commands/adventure.js:175-179 | game over is tried first: with health <= 0 or on q/quit, health becomes exactly 0 and the exit status is 0, even from a positive or a negative health |
| Properties.StepEffect | commands/adventure.js:180-191 | take, drop and inventory change neither health nor area; the catch-all costs exactly 5; a move costs exactly 5; only a move changes the area |
| Properties.StepHealth | commands/adventure.js:175-191 | from a non-negative multiple of 5, a turn never raises health and keeps it a non-negative multiple of 5 |
| Rules.Run | commands/adventure.js:159-192 | the `while` loop over a sequence of inputs, stopping at game over or a throw: every game that ends does so with health exactly 0 and exit status 0; RunAppend, RunHealth and RunInWorld describe it further |
| Rules.Start | commands/adventure.js:155-156 | the start state: health 100, in the area named Outside, which is defined exactly when the map has an area of that name |
| Properties.RunAppend | commands/adventure.js:159-192 | playing a then b equals playing b from where a left off, unless the game ended during a |
| Properties.RunHealth | commands/adventure.js:159-192 | over any inputs, health stays a non-negative multiple of 5 and never exceeds its starting value |
| Properties.HealthNeverRises | commands/adventure.js:159-192 | health after a longer prefix of the inputs is at most the health after a shorter one |
| Properties.StepInWorld | commands/adventure.js:45-56 | on a map without dangling exits, a turn taken inside the map never throws and stays inside the map |
| Properties.RunInWorld | commands/adventure.js:159-192 | on such a map, no input sequence throws or reaches an area that is not found |
| Properties.BuiltinGame | commands/adventure.js:155-192 | on the built-in map from full health at Outside, for any inputs: no throw, always in a built-in area, 0 <= health <= 100, and an ended game has health 0 and status 0 |
| Game.Adventure | commands/adventure.js:155-192 | the loop's result equals the rules run over the inputs, and so has every property of BuiltinGame |
| Properties.ScenarioNorthFromOutside | commands/adventure.js:127 | from Outside at 100, n reaches Fairy Asylum at 95 |
| Properties.ScenarioBlockedEast | commands/adventure.js:129 | in Crimson Sanctum at 50, e is blocked: same area, health 45 |
| Properties.ScenarioExhaustion | commands/adventure.js:175-190 | at 3, an unrecognised input leaves -2, and the next input of any kind ends the game at 0 with status 0 |
| Properties.ScenarioQuit | commands/adventure.js:175-179 | quit at 100 ends the game at once with health 0 |

## Left out

- Console output: chalk colouring, the figlet banner and the text of every message. Each turn's message is modelled only as a `Feedback` tag (Moved, Blocked, Took, Dropped, Listed, Confusion).
- The interactive prompt: input is a given finite sequence of strings. When the sequence runs out, the game is reported as still `Playing`; the real program would wait for input forever. A cancelled prompt (an undefined action, which would throw in the source) is not modelled. Every input is a string.
- `process.exit(0)` is the terminal outcome `GameOver(0)` / status `Ended(0)`, not a real exit. A thrown `TypeError` is the outcome `Fault`; the unhandled promise rejection that follows it is not modelled.
- Argument parsing (`meow`) and help rendering (`showHelp`): no game logic.
- `Item` and `Activity`: they use `Math.random` and are never created.
- The `description` of each area: no operation reads it, so the seven texts are not carried.
- Player.Inventory: the source passes the input line to `inventory`, which ignores it; the model takes no argument.
- Health is an unbounded integer rather than a JavaScript number. From the start it stays between 0 and 100, so the two agree.
- `commands/tasks.js` (a database wrapper whose commands are empty stubs), `commands/nodemon.js` (filesystem symlinks) and `generators/webdev.js` (spawns `npm` and `git`) are not part of this model.
