# A verified model of the terminal Pac-Man round

This project models the simulation core of a terminal Pac-Man game written in
C++. The core consists of four parts:

- the maze: a fixed 21 x 28 grid of one-character cells;
- Pac-Man's update step;
- the four ghosts' pursuit and flee steering;
- the round state that these change: score, lives, the tick clock, super
  mode, the dot counters, the status message and the running flag.

Each C++ class becomes a Dafny class with the same fields, except
`Ghost::speed` (see "## Left out"). The maze keeps its
`char` grid as an `array2<char>`. Every method is proved against a pure
function of the state before the call:

- `Grid.Map` is tied to a ghost `Board` by `Valid()`;
- `Player.Pacman.Update` is proved equal to `PacmanStep`;
- `Ghosts.Ghost.Update` is proved equal to `GhostUpdate`;
- `GameLoop.Game.PlayerTick` is proved equal to `AfterPlayerTick`.

The game's behaviour is proved as lemmas about those functions.

The game itself runs one thread for Pac-Man and one per ghost, all behind one
lock. Here a round is a sequence of turns instead. Each turn is one pass of the
body of one of those loops, taken while the shared guard holds.
`GameLoop.Game.RunGameLoop` runs any such sequence and is proved equal to
`GameLoop.Play`. Lemmas about `Play` then hold for every interleaving:

- the round invariant is preserved;
- the clock, dots eaten and score never go down, and lives never go up;
- the tick super mode was armed at never changes;
- a stopped round stays stopped;
- a stopped round was either won or lost for want of lives.

Modules:

- `Grid` (src/map.cpp, src/headers/map.hpp): the board, the symbol classes,
  the portal rule, the rendering table, the two levels and the class `Map`.
- `Round` (the counters of src/headers/game.hpp): the class `RoundState` with
  the inline setters through which Pac-Man changes the round.
- `Player` (src/pacman.cpp): the facing chosen from a key, the update step and
  the class `Pacman`.
- `Ghosts` (src/ghost.cpp, src/headers/ghost.hpp): identities, directions,
  `canMove`, the targeting rule, the steering cascade, the move and the class
  `Ghost`.
- `GameLoop` (src/game.cpp): round set-up, a player tick, a ghost tick, a key
  press, the loop guard, the win test, interleaved rounds and the class `Game`.

Calls to `rand()` become `nat` parameters. A ghost update can consult the
generator twice, so it takes two: `rnd1` for the turn toward the target and
`rnd2` for the turn after a blocked move.

The game's counters are fields of `Game` in the C++. Here they form their own
class `Round.RoundState`, which `Game` holds. The reason is that `Pacman::update`
takes the whole `Game` and writes its counters, and Dafny's modules cannot
import one another in a cycle.

### Behaviour of the code that the model keeps

The model follows the code in the places below, even where a player might
expect something else:

- **Old glyphs stay on the grid.** After a death, Pac-Man and the ghosts go
  back to their spawn cells (`src/game.cpp:111-115`), but their old cells are
  never cleared. So after a death the grid can show two Pac-Man glyphs and
  stale ghost glyphs.
  `GameLoop.DeathResetsEveryone` proves that Pac-Man's glyph stays where it died.
- **Eating a ghost does not move Pac-Man.** `canMove` returns `false` for
  every ghost symbol, even in super mode. Pac-Man stays put and scores 100,
  and scores 100 again on every tick it keeps facing the ghost. The comment at
  `src/pacman.cpp:96` says "Ghost will be reset by the ghost class", but no
  ghost code does that: the eaten ghost is neither removed nor reset. See `Player.MeetingAGhost` and
  `GameLoop.LiveSuperModeProtects`.
- **The pellet never records its tick.** Super mode expires once `time - SMtime`
  reaches 40. Eating a super pellet never sets `SMtime`, so from tick 40 on
  super mode lasts only until the next tick's expiry check.
  `GameLoop.LateSuperModeLastsOneTick` proves this.
- **The teleport lands on the partner portal.** The comment at `src/map.cpp:161`
  says "Teleport to right portal". The code sets column 26, which is the right
  portal cell itself; column 27 holds the zero character. Pac-Man's glyph then
  overwrites that portal cell (`Player.EnteringAPortal`). Entering ']' goes to
  column 0, the left portal.
- **Ghosts never teleport.** `canMove` refuses portal symbols, so a ghost's
  teleport branch can never run. It is an `assert false` in
  `Ghosts.Ghost.Move`, and `Ghosts.GhostAdvances` proves that a ghost moves
  exactly one cell.
- **The random fallback.** The comment at `src/ghost.cpp:118` says "If stuck,
  choose random direction". The code draws a random direction whenever the
  facing ends up unchanged, including when the cascade picks the current facing
  as its preferred move. See `Ghosts.SteerReversesOnlyAtRandom`. After a
  blocked move the target is the blocked cell itself, so the cascade never
  turns and the new facing is always the random draw (`Ghosts.GhostBlocked`).
- **The '<' glyph moves right.** The glyph is a mouth: '<' moves x+1 and '>'
  moves x-1. The keys still steer as a player expects (`Player.KeysSteer`).
- **Ghosts erase dots.** A ghost may enter '.' and 'O'. It stamps its glyph
  over the cell and blanks the cell on its next move, so the dot is gone but
  never counted as eaten (`Ghosts.GhostErasesDot`). Dots eaten plus dots on
  the grid never grow (`GameLoop.DotsAreConserved`), while the round is won
  only when the dots eaten reach the declared total. Both levels use the same
  layout, which holds 251 dots by a count of the literals that is not proved
  here. Level 1 declares 210 and level 2 declares 251. A level-1 round
  therefore can no longer be won once ghosts have erased more than 41 dots, and
  a level-2 round once a ghost erases a single dot.

## Model

| member | source | states |
|---|---|---|
| Grid.Set | src/map.cpp:121-125 | a write keeps a well-formed 21 x 28 grid |
| Grid.Get | src/map.cpp:116-119 | a read on the grid is the cell itself; any read off the grid is a wall |
| Grid.ValidPositionsAreCells | src/map.cpp:127-129 | the valid positions are exactly the cells of a well-formed grid, and the same rectangle as getCell's bounds test |
| Grid.SetFrame | src/map.cpp:121-125 | a write changes exactly the named cell when it is on the grid, and nothing when it is off; every other read is unchanged |
| Grid.SymbolClassesDisjoint | src/map.cpp:116-156 | no cell symbol is in two of the six classes; every read off the grid is a wall and never a portal |
| Grid.PortalColumn | src/map.cpp:158-165 | '[' sends to column 26, ']' sends to column 0, any other cell keeps the column |
| Grid.Render | src/map.cpp:167-176 | walls and only walls print the block glyph; dots print ".", pellets print "o", portals print themselves, every other symbol prints a blank, and nothing else prints a blank |
| Grid.LevelsShape | src/map.cpp:24-110 | both levels are the same well-formed layout whose 28th column is the zero fill; the dot totals are 210 and 251 |
| Grid.SetDotCount | src/map.cpp:121-125 | one write changes the grid's dot count only by the dot it overwrote and the dot it wrote |
| Grid.Map.TotalMatchesLevel | src/map.cpp:15-22 | the invariant of every load: for level 1 or 2 the dot total is that level's declared total |
| Grid.Map.constructor | src/map.cpp:7-9 | the default map is valid, at level 1, holding the level-1 layout and 210 dots |
| Grid.Map.WithLevel | src/map.cpp:11-13 | a map for level n records n; for level 1 or 2 it holds that layout and its dot total, otherwise the total is 0 |
| Grid.Map.LoadLevel | src/map.cpp:15-22 | records the level number; levels 1 and 2 replace the whole grid and the dot total; any other level changes neither |
| Grid.Map.LoadLevel1 | src/map.cpp:24-77 | the grid becomes the level-1 layout and the dot total becomes 210 |
| Grid.Map.LoadLevel2 | src/map.cpp:79-110 | the grid becomes the level-2 layout and the dot total becomes 251 |
| Grid.Map.CopyLayout | src/map.cpp:71-75 | the nested copy loop leaves every cell equal to the zero-filled row literals |
| Grid.Map.Reset | src/map.cpp:112-114 | reloads the current level and keeps its number |
| Grid.Map.GetCell | src/map.cpp:116-119 | the cell of the abstract grid, or a wall off the grid |
| Grid.Map.SetCell | src/map.cpp:121-125 | the abstract grid gets one cell written when on the grid and is unchanged otherwise; every other cell keeps its value |
| Grid.Map.IsWall | src/map.cpp:131-133 | true exactly when the clamped read is '#' |
| Grid.Map.IsDot | src/map.cpp:135-137 | true exactly when the clamped read is '.' |
| Grid.Map.IsSuperPellet | src/map.cpp:139-141 | true exactly when the clamped read is 'O' |
| Grid.Map.IsPortal | src/map.cpp:143-146 | true exactly when the clamped read is '[' or ']' |
| Grid.Map.IsGhost | src/map.cpp:148-151 | true exactly when the clamped read is one of the ghost glyphs M W Y U |
| Grid.Map.IsPacman | src/map.cpp:153-156 | true exactly when the clamped read is a Pac-Man glyph |
| Grid.Map.HandlePortal | src/map.cpp:158-165 | the row is kept; a left portal gives column 26, a right portal column 0, otherwise the column is kept |
| Grid.Map.RenderCell | src/map.cpp:167-176 | the rendering of the clamped read, so off the grid a wall block |
| Grid.Map.GetHeight | src/headers/map.hpp:43 | the grid has 21 rows |
| Grid.Map.GetWidth | src/headers/map.hpp:44 | the grid has 28 columns |
| Grid.Map.GetMaxDots | src/headers/map.hpp:45 | the dot total, which is the declared total of the recorded level when that is 1 or 2 |
| Grid.Map.GetCurrentLevel | src/headers/map.hpp:46 | the recorded level number; for level 1 or 2 the map holds its declared dot total |
| Round.RoundState.constructor | src/game.cpp:13-14 | a new round state: score 0, 3 lives, clock 0, super mode off, "Round start!", not running |
| Round.RoundState.SetScore | src/headers/game.hpp:61 | only the score changes, to the given value |
| Round.RoundState.SetLives | src/headers/game.hpp:62 | only the lives change, to the given value |
| Round.RoundState.SetSuperMode | src/headers/game.hpp:63 | only the flag changes; the tick super mode was armed at is kept |
| Round.RoundState.SetMessage | src/headers/game.hpp:64 | only the message changes |
| Round.RoundState.IncrementDotsEaten | src/headers/game.hpp:65 | only the dots eaten change, by one more |
| Round.RoundState.IncrementScore | src/headers/game.hpp:66 | only the score changes, by one more |
| Round.RoundState.DecrementLives | src/headers/game.hpp:67 | only the lives change, by one fewer |
| Player.Facing | src/pacman.cpp:13-25 | w, a, s and d each give a Pac-Man glyph; any other key keeps the facing |
| Player.Ahead | src/pacman.cpp:37-42 | a Pac-Man glyph looks at an orthogonal neighbour; any other facing looks at its own cell |
| Player.KeysSteer | src/pacman.cpp:16-21 | after w, s, a or d, Pac-Man looks up, down, left or right respectively |
| Player.Interact | src/pacman.cpp:60-98 | the effect of the symbol ahead: a life lost exactly on a ghost outside super mode; one more dot and point on a dot; 100 points on a ghost in super mode; super mode on after a pellet; the clock, arming tick, total and running flag untouched; nothing for any other symbol |
| Player.PacmanStep | src/pacman.cpp:27-58 | one update keeps a well-formed grid |
| Player.DeadPacmanIsInert | src/pacman.cpp:28 | a dead Pac-Man's update changes nothing |
| Player.NextCellIsAhead | src/pacman.cpp:30-44 | clearing its own cell first does not change what Pac-Man sees ahead |
| Player.EatingADot | src/pacman.cpp:70-74 | a dot ahead: one more dot, one more point, and Pac-Man moves onto it with its glyph stamped there |
| Player.EatingASuperPellet | src/pacman.cpp:65-69 | a pellet ahead: super mode and its message come on, Pac-Man moves, and the score, dots and arming tick do not change |
| Player.HittingAWall | src/pacman.cpp:75-76 | a wall ahead: Pac-Man and the round state are unchanged, and the glyph is re-stamped |
| Player.MeetingAGhost | src/pacman.cpp:84-98 | a ghost ahead: Pac-Man never moves; outside super mode it loses a life and dies, in super mode it gains 100 points and lives |
| Player.MovingOntoOpenFloor | src/pacman.cpp:44-80 | any other cell ahead (blank, zero fill, stale glyph) is entered: Pac-Man moves onto it, stays alive, its glyph is stamped there and the round is unchanged |
| Player.EnteringAPortal | src/pacman.cpp:50-53 | entering '[' lands in column 26 and ']' in column 0, on the same row, with the glyph overwriting that cell |
| Player.GlyphFollowsPacman | src/pacman.cpp:30-57 | after a live update the glyph is in Pac-Man's cell, the cell it left is blank, and no other cell changed |
| Player.CountersOfAStep | src/pacman.cpp:60-98 | an update adds at most one dot, adds between 0 and 100 points and takes at most one life, leaves the clock, arming tick, total and running flag alone, and never counts a dot not taken from the grid |
| Player.Pacman.constructor | src/pacman.cpp:7-8 | Pac-Man starts at (15, 13), facing '<', alive |
| Player.Pacman.At | src/pacman.cpp:10-11 | Pac-Man at the given cell, facing '<', alive |
| Player.Pacman.Move | src/pacman.cpp:13-25 | only the facing and the glyph change, both to the facing chosen by the key |
| Player.Pacman.Update | src/pacman.cpp:27-58 | the grid, Pac-Man and the round state become exactly the result of one update step |
| Player.Pacman.CanMove | src/pacman.cpp:60-82 | the move is allowed exactly when the symbol is not a ghost or a wall; the symbol's effect is applied to the round; Pac-Man dies exactly on a ghost outside super mode |
| Player.Pacman.HandleCollision | src/pacman.cpp:84-98 | outside super mode: the death message, one life less, Pac-Man dead; in super mode: the ghost message and 100 points |
| Player.Pacman.SetPosition | src/pacman.cpp:100-103 | only the position changes |
| Player.Pacman.SetDirection | src/pacman.cpp:105-108 | facing and glyph both become the given one |
| Player.Pacman.SetAlive | src/headers/pacman.hpp:36 | only the alive flag changes |
| Player.Pacman.Reset | src/pacman.cpp:110-116 | back to the spawn cell, facing and glyph, alive |
| Player.Pacman.Die | src/pacman.cpp:118-120 | only the alive flag changes, to false |
| Player.Pacman.Respawn | src/pacman.cpp:122-125 | back to the spawn state, alive |
| Player.Pacman.ResetPosition | src/pacman.cpp:127-132 | back to the spawn cell, facing and glyph; the alive flag is kept |
| Ghosts.Code | src/headers/ghost.hpp:14-19 | directions are encoded as 1..4 |
| Ghosts.FromCode | src/headers/ghost.hpp:14-19 | decoding 1..4 inverts the encoding |
| Ghosts.RandomDirection | src/ghost.cpp:120 | the fallback is the direction encoded by rand() % 4 + 1 |
| Ghosts.RandomDirectionCoversAll | src/ghost.cpp:119-121 | every direction can be drawn |
| Ghosts.Glyph | src/ghost.cpp:15-35 | every identity shows a ghost symbol |
| Ghosts.SpawnOf | src/ghost.cpp:143-163 | every spawn cell is on the grid, inside the ghost house of rows 9-10 and columns 12-14 |
| Ghosts.Heading | src/ghost.cpp:143-163 | the starting facing points at a cell next to the ghost house |
| Ghosts.IdentitiesDistinct | src/ghost.cpp:143-163 | different identities have different glyphs, spawn cells and starting facings |
| Ghosts.SpawnsAreOpen | src/ghost.cpp:143-163 | each spawn cell is open floor of the layout, and a ghost may enter the cell its starting facing points at |
| Ghosts.Offset | src/ghost.cpp:56-61 | one step moves to an orthogonal neighbour |
| Ghosts.ReverseUndoesOffset | src/ghost.cpp:56-61 | a step back in the reverse direction returns to the start; reversing is an involution without fixed points |
| Ghosts.CanEnter | src/ghost.cpp:82-95 | a ghost may enter exactly the cells that hold no Pac-Man, wall, ghost or portal; dots, pellets, blanks and zero fill are open |
| Ghosts.Target | src/ghost.cpp:173-198 | in super mode every ghost aims at Pac-Man mirrored through 15; otherwise Pinky aims two rows down and two columns right of Pac-Man and the others aim at Pac-Man |
| Ghosts.Cascade | src/ghost.cpp:107-116 | the choice is never the reverse of the facing; anything other than the facing is a direction whose neighbour is open and toward which the target lies |
| Ghosts.Steer | src/ghost.cpp:97-122 | keeping the facing or turning back only ever comes from the random draw |
| Ghosts.CascadeChoice | src/ghost.cpp:97-116 | the cascade never reverses; it picks the first available of up, left, down, right; the facing is kept exactly when nothing earlier is available |
| Ghosts.SteerReversesOnlyAtRandom | src/ghost.cpp:97-122 | a reverse or a kept facing only comes from the random draw; a facing the cascade keeps is always re-drawn |
| Ghosts.GhostMove | src/ghost.cpp:46-80 | a move keeps a well-formed grid |
| Ghosts.GhostUpdate | src/ghost.cpp:37-44 | an update keeps a well-formed grid and the ghost's identity, glyph and alive flag |
| Ghosts.DeadGhostIsInert | src/ghost.cpp:38 | a ghost that is not alive changes nothing |
| Ghosts.ResetGhost | src/ghost.cpp:143-163 | back to the identity's spawn cell and facing, alive, same identity and glyph |
| Ghosts.GhostAdvances | src/ghost.cpp:46-72 | into an open cell a ghost advances exactly one step and never teleports; its old cell is blank, its glyph is in the new cell, and nothing else changed |
| Ghosts.GhostBlocked | src/ghost.cpp:73-80 | facing a closed cell a ghost stays put, turns by the steering rule toward that cell, which always gives the random draw, and re-stamps its glyph; nothing else changes |
| Ghosts.GhostErasesDot | src/ghost.cpp:46-80 | a ghost stepping onto a dot from a dotless cell covers it with its glyph, and the grid has one dot fewer |
| Ghosts.GhostUpdateIsLocal | src/ghost.cpp:37-44 | an update moves a ghost at most one cell, keeps its identity, glyph and alive flag, and never adds a dot |
| Ghosts.Ghost.constructor | src/ghost.cpp:15-35 | a ghost at the given cell with its identity's glyph and facing, alive |
| Ghosts.Ghost.Default | src/ghost.cpp:11-13 | the default ghost is Blinky at (9, 12), facing up, alive |
| Ghosts.Ghost.Update | src/ghost.cpp:37-44 | the grid and the ghost become exactly one ghost update toward the target |
| Ghosts.Ghost.MoveTowardsTarget | src/ghost.cpp:124-127 | the ghost turns by the steering rule and then moves |
| Ghosts.Ghost.Move | src/ghost.cpp:46-80 | the grid and the ghost become exactly one move step |
| Ghosts.Ghost.ChangeDirection | src/ghost.cpp:97-122 | the new facing is the steering rule's |
| Ghosts.Ghost.RandomMove | src/ghost.cpp:129-132 | the ghost takes a random facing and then moves |
| Ghosts.Ghost.SetPosition | src/ghost.cpp:134-137 | only the position changes |
| Ghosts.Ghost.SetDirection | src/ghost.cpp:139-141 | only the facing changes |
| Ghosts.Ghost.Reset | src/ghost.cpp:143-163 | back to the spawn state of its identity |
| Ghosts.Ghost.SetAlive | src/headers/ghost.hpp:54 | only the alive flag changes |
| Ghosts.Ghost.Die | src/ghost.cpp:165-167 | only the alive flag changes, to false |
| Ghosts.Ghost.Respawn | src/ghost.cpp:169-171 | back to the spawn state of its identity |
| GameLoop.Prelude | src/game.cpp:100-105 | one more tick; super mode stays on exactly until it has lasted 40 ticks since its arming tick; the message changes only when it switches off |
| GameLoop.ResetAll | src/game.cpp:114 | every ghost goes back to its spawn state |
| GameLoop.AfterPlayerTick | src/game.cpp:97-116 | a player tick keeps a well-formed grid |
| GameLoop.AfterGhostTick | src/game.cpp:137-141 | a ghost tick keeps a well-formed grid |
| GameLoop.AfterKeyPress | src/game.cpp:119-124 | a key press changes only Pac-Man's facing and glyph; w, a, s and d give a Pac-Man glyph and the glyph follows the facing; any other key keeps the facing and resets the glyph to it |
| GameLoop.Running | src/game.cpp:96 | the guard holds only while lives are left and the round is not won |
| GameLoop.Won | src/game.cpp:264 | under the round invariant, a round that is not won still has dots to eat |
| GameLoop.Started | src/game.cpp:74-89 | the counters of a new round are the constructor's with the level's total and the running flag set; they meet the round invariant exactly when the total is not negative, and the guard holds exactly when it is positive |
| GameLoop.PlayerTickClock | src/game.cpp:100 | a player tick advances the clock by one and leaves the arming tick, the dot total and the running flag alone |
| GameLoop.ExpiredSuperModeDoesNotProtect | src/game.cpp:102-107 | once super mode has run 40 ticks, a ghost ahead costs a life, with the death message |
| GameLoop.LiveSuperModeProtects | src/game.cpp:102-107 | while super mode runs, a ghost ahead gives 100 points and Pac-Man stays put |
| GameLoop.DeathResetsEveryone | src/game.cpp:111-115 | a death with lives left respawns Pac-Man and every ghost, switches super mode off and keeps the counters, but leaves the dead glyph on the grid |
| GameLoop.LateSuperModeLastsOneTick | src/game.cpp:102-105 | with no arming tick recorded, from tick 40 on super mode is on only right after a pellet and is off again after the next tick's expiry check |
| GameLoop.PlayerTickKeepsInvariant | src/game.cpp:96-115 | a tick taken while the guard holds keeps lives, score and dots eaten within bounds |
| GameLoop.GhostTickIsolated | src/game.cpp:136-141 | a ghost tick changes neither the round state, nor Pac-Man, nor any other ghost |
| GameLoop.LoopExitReport | src/game.cpp:264-268 | when the loops stop on their guard the round was won or lives ran out, and it is reported as won exactly in the first case |
| GameLoop.DotsAreConserved | src/game.cpp:107-140 | dots eaten plus dots on the grid never grow, over a player tick or a ghost tick |
| GameLoop.FirstTickEatsADot | src/game.cpp:70-115 | at the start of level 1 the first tick eats the dot right of the spawn, scores 1, and leaves the spawn cell blank |
| GameLoop.TakeTurn | src/game.cpp:95-145 | a turn keeps a well-formed grid and does nothing once the guard fails |
| GameLoop.TurnProgress | src/game.cpp:96-141 | a turn keeps the round invariant, the number of ghosts, the dot total and the tick super mode was armed at; the clock, dots eaten and score do not go down, lives do not go up |
| GameLoop.Play | src/game.cpp:92-153 | any interleaving of turns keeps a well-formed grid |
| GameLoop.PlayProgress | src/game.cpp:92-153 | every interleaving keeps the round invariant; the clock, dots eaten and score never go down, lives never go up, and the tick super mode was armed at never changes |
| GameLoop.OverIsOver | src/game.cpp:96-136 | once the guard fails, no later turn of any thread changes the world |
| GameLoop.StoppedRoundIsDecided | src/game.cpp:147-152 | a round that started well and has stopped was either won or lost for want of lives |
| GameLoop.Game.constructor | src/game.cpp:13-20 | the fresh counters, Pac-Man at spawn, the four ghosts at their cells in order, and the level-1 grid |
| GameLoop.Game.InitializeGame | src/game.cpp:70-90 | loads the level, takes its dot total, restarts the counters, respawns every entity and sets the round running |
| GameLoop.Game.StartRound | src/game.cpp:74-89 | restarts the counters with the given total, respawns every entity and sets the round running |
| GameLoop.Game.RespawnEntities | src/game.cpp:84-87 | Pac-Man and every ghost back at their spawn state, and nothing else changed |
| GameLoop.Game.ResetCounters | src/game.cpp:74-81 | the counters of a new round with the given total; the running flag is untouched |
| GameLoop.Game.ResetGhosts | src/game.cpp:85-87 | every ghost is reset, and nothing else |
| GameLoop.Game.PlayerTick | src/game.cpp:97-116 | the world becomes exactly one player tick of the old world |
| GameLoop.Game.RespawnAll | src/game.cpp:111-115 | super mode off, Pac-Man and every ghost at spawn, and nothing else changed |
| GameLoop.Game.AdvanceClock | src/game.cpp:100-105 | the round state becomes the start of a tick |
| GameLoop.Game.KeyPress | src/game.cpp:119-124 | only Pac-Man's facing and glyph change, as the key chooses |
| GameLoop.Game.GhostTick | src/game.cpp:137-141 | the world becomes exactly one tick of ghost i |
| GameLoop.Game.RunGameLoop | src/game.cpp:92-153 | the world becomes exactly the given interleaving of turns played on the old world |
| GameLoop.Game.RunTurn | src/game.cpp:96-141 | one pass of a thread's loop: nothing once the guard fails, otherwise a player tick and the key pressed, or a tick of the named ghost |
| GameLoop.Game.IsLive | src/game.cpp:96 | the loop guard: running, lives left and dots still to eat |
| GameLoop.Game.HasWon | src/game.cpp:264 | a win exactly when the dots eaten equal the level's total |

## Left out

- Threads, the mutex and the sleeps of src/game.cpp are not modelled. A round is a sequence of loop passes, each of which checks the guard when it runs. A pass whose thread had already checked the guard before another thread ended the round is not modelled.
- The terminal is left out: `displayGame`, `Map::display`, colours, cursor control, the title, win and game-over screens, `start`, the replay prompt and src/main.cpp.
- `Game::stop` and the destructor that calls it are left out. `stop` sets `gameRunning` to false and joins the threads, and it is only called after the loops have ended. `isRunning` is a read of the running flag.
- Keyboard input (`kbhit`, `getch`) becomes the `pressed` and `key` fields of a player turn.
- `rand()` becomes `nat` parameters. The generator's distribution is not modelled.
- Ghost speed is not modelled. It only sets each ghost thread's sleep, so it has no place in a sequence of turns.
- The getters of the C++ headers are field reads. `Map::isValidPosition` is the predicate `Grid.IsValidPosition`.
- Grid.Map.WithLevel: for a level other than 1 or 2, C++ leaves the grid uninitialised. The model fills it with blanks and promises nothing about its contents.
- Grid.BlockFull: the wall glyph is written as one Unicode code point, not as the UTF-8 bytes the terminal receives.
- The concrete dot count of the layout (251 dots and 8 super pellets) is not proved. Only the declared totals 210 and 251 are modelled.
- The counters of `Game` form their own class `Round.RoundState`, which `Game` holds, because Dafny modules cannot import each other in a cycle.
- Integer overflow of `int` is not modelled. The score and the clock are unbounded.
