# 8-bit tile game: gameplay rules in Dafny

This project models the gameplay rules of a small 7 x 7 tile game written
in TypeScript with React. It proves properties of that model:

- the character's step (position, heading, move window);
- the world state the game context keeps: level, flags, refs, timers and
  the effects that react to the character's position;
- the `"x,y"` string keys that every position set uses, and their parse;
- the static level layouts, the wall table and the sets derived from them;
- the grid's cell classifier and its 49-cell index mapping;
- the boss fight: dice rules, win test, defeat messages, stage machine;
- the inventory slots and the Space-at-door level toggle.

One module per source file:

| module | file | source |
|---|---|---|
| `Types` | `types.dfy` | `src/types/types.ts`, plus the string unions the components use |
| `PositionKey` | `position_key.dfy` | the key template and the `split(',').map(Number)` parse of `src/context/GameContext.tsx` |
| `TileGeneration` | `tile_generation.dfy` | `src/hooks/useTileGeneration.ts` |
| `WallGeneration` | `wall_generation.dfy` | `src/hooks/useWallGeneration.ts` |
| `GameGrid` | `game_grid.dfy` | `src/components/GameGrid.tsx` |
| `CharacterMovement` | `character_movement.dfy` | `src/hooks/useCharacterMovement.ts` |
| `GameContext` | `game_context.dfy` | `src/context/GameContext.tsx` |
| `BossFight` | `boss_fight.dfy` | `src/components/BossFight.tsx` |
| `Inventory` | `inventory.dfy` | `src/hooks/useInventory.ts` |
| `LevelProgression` | `level_progression.dfy` | `src/hooks/useLevelProgression.ts` |

State that a hook or component updates in place is a class:

- `CharacterMovement.Character`
- `GameContext.Game`, which owns the character
- `BossFight.Fight`, which reports to a `Game`
- `Inventory.Slots`, whose `items` field is an array replaced by a fresh
  copy on every update, as the hook does
- `LevelProgression.Progression`

The pure parts are functions and lemmas: the tables, the set derivations,
the classifier, the dice formulas and the message filter.

Each `setTimeout` callback of the context and of the fight is a `Fire…`
method. Each such method requires its event in the `pending` multiset of
the context, or the roll's `step` in the fight. The movement hook's
move window is different: it is the method `MoveWindowElapsed`. That
method has no guard and may be called even when no move was made. Each `useEffect` is a method that the caller invokes when
that effect's dependencies change. `Math.random()` becomes a draw
parameter, bounded by the same range as the source's
`Math.floor(Math.random() * n)`.

JavaScript's `Number(s)` is modelled on the strings a key can hold:

- the empty string gives 0;
- an optionally signed run of decimal digits gives its value;
- anything else gives NaN, written `None`.

A NaN coordinate makes the Manhattan distance NaN, so such a goblin never
counts as near.

The hooks do not provide everything the context expects:

- `useTileGeneration` returns no `holes`, `goblins` or `lava`, yet the
  context destructures them. The context model takes these three as
  position-set parameters.
- `useCharacterMovement` takes only `walls` and returns no
  `resetCharacterPosition`. The movement hook is modelled as written. The
  reset effect places the character on (3,5), as the context intends.

The boss fight has no attempt counter and no biased player roll. Its only
difficulty rule is the `isFirstRoll` flag.

## Model

| member | source | states |
|---|---|---|
| PositionKey.IntToString | src/context/GameContext.tsx:139 | the template rendering of a coordinate never contains a comma |
| PositionKey.Split | src/context/GameContext.tsx:160 | `split(',')` always yields at least one piece |
| PositionKey.NumberOfIntToString | src/context/GameContext.tsx:160 | `Number` gives back every integer from its rendering, negative ones included |
| PositionKey.SplitAtComma | src/context/GameContext.tsx:160 | splitting a comma-free piece, a comma and a rest gives that piece followed by the pieces of the rest |
| PositionKey.KeyRoundTrip | src/context/GameContext.tsx:159-161 | parsing the key `${x},${y}` with `split(',').map(Number)` gives back the position, for every integer position |
| PositionKey.KeyInjective | src/context/GameContext.tsx:139-140 | two positions have the same key exactly when they are the same position |
| TileGeneration.KeysOfKindMembership | src/hooks/useTileGeneration.ts:70-84 | a cell's key is in the wall (path) set exactly when some tile of the layout is a wall (path) on that cell |
| TileGeneration.DoorSetMembership | src/hooks/useTileGeneration.ts:76-78 | a cell's key is in the door set exactly when the layout lists that cell as a door |
| TileGeneration.KindsDisjoint | src/hooks/useTileGeneration.ts:70-84 | when no two tiles share a cell, the key sets of two different tile kinds are disjoint |
| TileGeneration.ShippedLayoutsDistinct | src/hooks/useTileGeneration.ts:4-61 | no shipped layout lists a cell twice |
| TileGeneration.ShippedLayoutsInBounds | src/hooks/useTileGeneration.ts:4-61 | every shipped tile and door lies on the 7 x 7 grid |
| TileGeneration.ShippedWallsAndPathsDisjoint | src/hooks/useTileGeneration.ts:6-43 | in every shipped layout the wall set and the path set are disjoint |
| TileGeneration.ShippedDoorsClear | src/hooks/useTileGeneration.ts:44-60 | the doors (6,2) and (3,6) are neither walls nor lava of their layouts |
| WallGeneration.WallLayoutsDistinct | src/hooks/useWallGeneration.ts:5-8 | each table entry lists nine distinct keys |
| WallGeneration.WallLayoutsOnGrid | src/hooks/useWallGeneration.ts:5-8 | every listed key parses to a cell of the 7 x 7 grid whose key it is |
| WallGeneration.DungeonWallsAreLava | src/hooks/useWallGeneration.ts:6 | the set built from the dungeon entry is exactly the set of lava cells of the dungeon layout |
| WallGeneration.ExtraLayoutNamesAreNoLevels | src/hooks/useWallGeneration.ts:7-8 | no level selects the `pokemon` or `monopoly` entry; each of those lists nine keys, and neither equals the wall set of any level |
| WallGeneration.DefaultTablesDisagree | src/hooks/useWallGeneration.ts:5 | the default entry makes (2,5) a wall, while the default tile layout makes it a path and not a wall |
| GameGrid.TileTypeAt | src/components/GameGrid.tsx:25-44 | door exactly on the door cell, even if that cell is in `walls`; wall exactly on another cell in `walls`; the layout's ground tile otherwise; never lava |
| GameGrid.CellIndexBijection | src/components/GameGrid.tsx:53-56 | index i in [0,49) maps to (i % 7, i / 7), a bijection onto the grid |
| GameGrid.RenderedTiles | src/components/GameGrid.tsx:53-59 | 49 tiles, the one at index i being the classification of cell (i % 7, i / 7) |
| GameGrid.RenderedGridDoorAndNoLava | src/components/GameGrid.tsx:53-59 | the rendered grid has exactly one door, at the door cell's index, and no lava |
| GameGrid.DrawnDefaultDoorDiffersFromLayout | src/components/GameGrid.tsx:9 | the grid draws the default door at (6,3), while the default layout's door is (6,2) |
| CharacterMovement.Neighbour | src/hooks/useCharacterMovement.ts:15-30 | a step changes exactly one coordinate by exactly 1, in the key's direction |
| CharacterMovement.StepStaysInBounds | src/hooks/useCharacterMovement.ts:15-30 | from a cell of the grid, every key press leaves the character on the grid |
| CharacterMovement.StepAvoidsWalls | src/hooks/useCharacterMovement.ts:33-38 | the position only changes to a cell outside `walls`; a blocked target leaves it unchanged |
| CharacterMovement.ArrowStep | src/hooks/useCharacterMovement.ts:15-38 | an arrow key always sets its heading, even on a bump, and moves exactly when its edge guard holds and the neighbour is free |
| CharacterMovement.OtherKeyQuirk | src/hooks/useCharacterMovement.ts:13-37 | any other key keeps position and heading, yet is accepted (and opens a move window) exactly when the current cell is not in `walls` |
| CharacterMovement.WalkStaysOnFreeCells | src/hooks/useCharacterMovement.ts:9-40 | any sequence of key presses from a free grid cell stays on free grid cells |
| CharacterMovement.Character.constructor | src/hooks/useCharacterMovement.ts:4-6 | position (3,3), heading down, not moving |
| CharacterMovement.Character.HandleKeyDown | src/hooks/useCharacterMovement.ts:9-40 | nothing changes while moving; otherwise the new position, heading and moving flag are those of the step, and the character stays on the grid |
| CharacterMovement.Character.MoveWindowElapsed | src/hooks/useCharacterMovement.ts:35 | the move window closes and nothing else changes |
| GameContext.ObstaclesAndMovement | src/context/GameContext.tsx:112-120 | walls and lava always block; a hole blocks exactly when the game is over or a fight is on, which is when movement is meant to be off |
| GameContext.FightDoesNotStopMovementAsWritten | src/context/GameContext.tsx:111-122 | during a fight an up-arrow press at (3,3) with (3,2) free moves the character |
| GameContext.NearOneGoblin | src/context/GameContext.tsx:159-168 | a goblin is near exactly its own cell and its four orthogonal neighbours |
| GameContext.DiagonalIsNotNear | src/context/GameContext.tsx:165-168 | a diagonal neighbour of a goblin is not near it |
| GameContext.Game.constructor | src/context/GameContext.tsx:46-54 | the initial state: default level, menu open, every other flag off, counter 0, no timer pending, character at (3,3) |
| GameContext.Game.SetMenuOpen | src/context/GameContext.tsx:47 | only the menu flag changes |
| GameContext.Game.SetVictory | src/context/GameContext.tsx:51 | only the victory flag changes |
| GameContext.Game.SetCurrentLevel | src/context/GameContext.tsx:174-178 | a change of level clears the hole, the fight and the reveal in progress; the same level changes nothing |
| GameContext.Game.KeyDownAsWritten | src/context/GameContext.tsx:111-122 | the key press steps the character against walls, lava and, during a fight or after game over, the holes |
| GameContext.Game.KeyDown | src/context/GameContext.tsx:111-122 | nothing moves while the game is over or a fight is on; otherwise the character steps against the walls and the lava; the character stays on the grid |
| GameContext.Game.MoveWindowElapsed | src/hooks/useCharacterMovement.ts:35 | the character's move window closes; nothing else changes |
| GameContext.Game.RevealHole | src/context/GameContext.tsx:68-83 | with the hole not revealed, no reveal under way and the game not over, a reveal starts and its first stage is scheduled; otherwise nothing changes |
| GameContext.Game.FireRevealStage1 | src/context/GameContext.tsx:73-75 | the hole is revealed and the second stage is scheduled |
| GameContext.Game.FireRevealStage2 | src/context/GameContext.tsx:77-80 | the game is over and the reveal has ended, so movement is meant to be off (the movement hook ignores this; see Findings) |
| GameContext.Game.ResetGameAsWritten | src/context/GameContext.tsx:84-130 | the flags, the reset guard and the counter change as in `resetGame`, then the reset effect raises an error, because `resetCharacterPosition` is undefined, and the character stays where it was |
| GameContext.Game.ResetGame | src/context/GameContext.tsx:84-103 | game over, hole, fight, victory and reveal flags are cleared, the reset guard is on with its timer scheduled, the counter goes up by one and the character is placed on (3,5) |
| GameContext.Game.FireResetGuard | src/context/GameContext.tsx:100-102 | the reset guard is lifted |
| GameContext.Game.HoleEffect | src/context/GameContext.tsx:133-150 | a reveal starts exactly when the guard is off, the level is default, the game is not over, no reveal is under way, the character is on a hole and the hole is not revealed |
| GameContext.Game.GoblinEffect | src/context/GameContext.tsx:153-172 | a fight starts exactly when the guard is off, the game is not over, no fight is on, a goblin is near and the level is the dungeon |
| GameContext.Game.DoorEffect | src/context/GameContext.tsx:184-207 | a door transfer is pending exactly when the level is default, the character is at a door, the game is not over and no fight is on; other timers are untouched |
| GameContext.Game.FireDoorTransfer | src/context/GameContext.tsx:188-190 | the level becomes the dungeon, with the level-change effect; the second transfer changes nothing |
| BossFight.DefeatMessagesDistinct | src/components/BossFight.tsx:17-24 | the six defeat messages are distinct |
| BossFight.BossRoll | src/components/BossFight.tsx:84-88 | the boss's final roll is 5 or 6 on the first roll and 1 to 6 afterwards |
| BossFight.BossRollCoversRange | src/components/BossFight.tsx:84-88 | every value of that range comes from some draw |
| BossFight.PlayerRoll | src/components/BossFight.tsx:105-110 | on the first roll the player's roll is 1 to 4 and below the boss's 5 or 6; afterwards 1 to 6 |
| BossFight.Decide | src/components/BossFight.tsx:114-119 | the player wins exactly with a strictly higher roll |
| BossFight.FirstRollAlwaysLoses | src/components/BossFight.tsx:84-119 | whatever the draws, the first roll is lost |
| BossFight.LaterRollsAreOpen | src/components/BossFight.tsx:84-119 | after the first roll the player wins exactly with the higher draw, so both a win and a loss can happen; a tie loses |
| BossFight.Unused | src/components/BossFight.tsx:121 | the filter keeps exactly the messages not yet used |
| BossFight.DefeatChoicesNonEmpty | src/components/BossFight.tsx:121-131 | with two distinct messages there is always a message to pick |
| BossFight.DefeatMessageIsFresh | src/components/BossFight.tsx:121-135 | the new message is unused while unused ones remain, else the list becomes [current, new] with new different from current; the used list stays duplicate-free |
| BossFight.UsedListBounded | src/components/BossFight.tsx:121-135 | a duplicate-free used list never holds more entries than there are messages |
| BossFight.Fight.constructor | src/components/BossFight.tsx:9-47 | intro stage, no dice, a first roll ahead, a random current message, and an empty used list when no fight is on |
| BossFight.Fight.InactiveEffect | src/components/BossFight.tsx:37-47 | with no fight on: intro, no dice and no result, not rolling, a first roll ahead, no used messages |
| BossFight.Fight.RollDice | src/components/BossFight.tsx:66-72 | the dice and result are cleared, the stage is rolling and the boss's timer is due |
| BossFight.Fight.HandleFight | src/components/BossFight.tsx:145-155 | intro and a lost result start a new roll; a won result goes to the conclusion and every other field keeps its value; in any other stage no field changes |
| BossFight.Fight.FireBossRoll | src/components/BossFight.tsx:79-90 | the boss's roll is set by the first-roll rule and the player's timer is due |
| BossFight.Fight.FirePlayerRoll | src/components/BossFight.tsx:100-112 | the player's roll is set by the first-roll rule, and after a first roll the next one is not first |
| BossFight.Fight.FireResult | src/components/BossFight.tsx:113-139 | a higher player roll wins and sets victory; otherwise a lost result with a fresh defeat message; a first roll always loses; the stage becomes result |
| BossFight.Fight.CompleteReset | src/components/BossFight.tsx:169-174 | the game is reset and returns to the default level |
| Inventory.FirstEmpty | src/hooks/useInventory.ts:8 | the lowest index of an empty slot, or -1 exactly when every slot is filled |
| Inventory.Added | src/hooks/useInventory.ts:7-16 | same slot count; the item goes into the lowest empty slot and every other slot is kept; no change when full |
| Inventory.Removed | src/hooks/useInventory.ts:18-24 | same slot count; an index in range empties that slot only; any other index changes nothing |
| Inventory.RemoveUndoesAdd | src/hooks/useInventory.ts:7-23 | removing the slot an add has just filled gives back the slots as they were |
| Inventory.ItemCount | src/hooks/useInventory.ts:7-23 | a successful add holds one item more, a full inventory holds one item per slot, removing a filled slot holds one item less |
| Inventory.Slots.constructor | src/hooks/useInventory.ts:4-5 | `maxSize` slots, all empty |
| Inventory.Slots.Default | src/hooks/useInventory.ts:4-5 | the hook's default argument: five slots, all empty |
| Inventory.Slots.AddItem | src/hooks/useInventory.ts:7-16 | true exactly when a slot was empty, with the slots of `Added` in a new array; false leaves the array untouched |
| Inventory.Slots.RemoveItem | src/hooks/useInventory.ts:18-24 | the slots of `Removed` in a new array when the index is in range; otherwise the array is untouched |
| LevelProgression.Toggled | src/hooks/useLevelProgression.ts:16 | the toggle always changes the level |
| LevelProgression.ToggleTwice | src/hooks/useLevelProgression.ts:16 | toggling twice gives back the original level |
| LevelProgression.Progression.constructor | src/hooks/useLevelProgression.ts:9 | no previous level |
| LevelProgression.Progression.HandleKeyDown | src/hooks/useLevelProgression.ts:11-22 | Space at a door records the current level and switches to the other one; any other key, or any key away from a door, changes nothing |

## Left out

- Rendering, styling, sprites and audio are not modelled, nor is the invitation download in the boss fight.
- React's scheduling and batching are not modelled. Each effect is a method for the caller to invoke when the effect's dependencies change. The `window` key listeners are method calls. GameContext.Game.SetCurrentLevel runs the level-change effect inside the setter. In the source, one commit runs the effects in declaration order: the goblin effect (src/context/GameContext.tsx:153) runs before the level-change effect (src/context/GameContext.tsx:174), so a fight started on arrival in the dungeon is cleared again in the same batch. The model cannot express that ordering.
- Timer durations are not modelled. Each callback is an event that can fire once it is pending, in any order.
- The reveal timers (src/context/GameContext.tsx:73-80) and the reset guard's timer (src/context/GameContext.tsx:100-102) are never cancelled in the source, so a reset or a level change leaves them running. In the model they stay pending and may still fire. The door-transfer timers are cancelled by their effects' cleanup (src/context/GameContext.tsx:192, 205), and GameContext.Game.DoorEffect removes them from `pending`.
- The cosmetic dice redraws while rolling are not modelled. These are the intervals at src/components/BossFight.tsx:74-76 and 95-97. The displayed rolls are `None` until the final rolls are set.
- The 0.5 s delay before the fight dialog shows (src/components/BossFight.tsx:50-63) is not modelled.
- `Math.random` is replaced by draws within the source's ranges. No probability claims are made.
- BossFight.Fight.FireResult: the message filter reads the current `usedMessages` and `currentDefeatMessage`. The source reads the values its closure captured at `rollDice`. The two differ only when the fight ends during a roll. Overlapping roll chains are not modelled either: a new `rollDice` replaces the pending chain in `step`, while in the source the earlier chain's timers still fire.
- The one-render lag of the `useState` plus `useEffect` pairs in `useTileGeneration` and `useWallGeneration` is not modelled. The layout and the wall set follow the level at once.
- `Number` on whitespace, hexadecimal, exponent or fractional forms is not modelled. Keys never hold them.
- Holes, goblins and lava are parameters of the context's effects. They stand for the sets the context expects. No hook in the repository computes them: as written they are `undefined`, so `Array.from(lava)` (src/context/GameContext.tsx:114) raises a TypeError on the provider's first render, and so would `holes.has` (:140) and `Array.from(goblins)` (:159). That crash is not modelled. Both rows under "## Findings" assume a provider that renders.
- `resetCharacterPosition` is not returned by the movement hook (see Findings). GameContext.Game.ResetGame places the character on (3,5), as the context intends. It keeps the heading and the moving flag, because the missing function does not say what it resets.
- `isMenuOpen`, `currentLevel` and `resetTrigger` are passed to the movement hook, which ignores them. `isBumping` is read back but the hook never returns it. `smoothMovement` is a constant `true` (src/hooks/useCharacterMovement.ts:7). Neither affects the rules, so neither is modelled.
- Inventory.Slots.constructor: takes `maxSize` as a natural number. `Array(maxSize)` throws for a negative or fractional size, and that error is not modelled.
- Inventory.Slots.AddItem: two adds in one render both see the same `items` and fill the same slot. The model applies calls one after another.
- The inventory view draws five slots whatever the slot count. Inventory.Slots.Default is the hook called without an argument, with `DefaultMaxSize` (5) slots.
- Three disagreements across the source files are stated as lemmas and not reconciled:
  - the grid draws the default door at (6,3), while the layout puts it at (6,2);
  - the wall table makes (2,5) a wall, while the default layout makes it a path;
  - the wall table and the grid's classifier know two layout names, `pokemon` and `monopoly`, that are not levels (WallGeneration.ExtraLayoutNamesAreNoLevels).

## Findings

| source | as written | input that shows it | evidently intended | confidence | as-written member | corrected member |
|---|---|---|---|---|---|---|
| src/context/GameContext.tsx:111-122 | the context passes `isGameOver: isGameOver \|\| isBossFightActive` to switch movement off, but the movement hook (src/hooks/useCharacterMovement.ts:3) reads only `walls`, so the flag is dropped | a fight is on and the game is not over; the character is at (3,3) and (3,2) is free; an up-arrow press moves the character to (3,2) | no movement while the game is over or a fight is on | high, not executed | GameContext.Game.KeyDownAsWritten, GameContext.FightDoesNotStopMovementAsWritten | GameContext.Game.KeyDown |
| src/context/GameContext.tsx:104-130 | the reset effect calls `resetCharacterPosition`, but the movement hook (src/hooks/useCharacterMovement.ts:47) does not return it, so the call raises a TypeError | any `resetGame` call: `resetTrigger` becomes 1 and the effect calls `undefined({x: 3, y: 5})` | the character is placed on (3,5) | high, not executed | GameContext.Game.ResetGameAsWritten | GameContext.Game.ResetGame |
