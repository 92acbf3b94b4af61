/** The round of src/game.cpp: setting a round up, the body of one player
    tick (the clock, super-mode expiry, Pac-Man's update and the reset after
    a death), one ghost tick, a key press, the loop guard shared by every
    loop, and the win test. The threads, the lock and the sleeps are not
    modelled: each tick is one sequential step, and a round is any
    interleaving of such steps. */
module GameLoop {
  import opened Grid
  import opened Round
  import opened Player
  import opened Ghosts

  /** A snapshot of everything a tick reads or writes. */
  datatype World = World(board: Board, pac: PacmanView, ghosts: seq<GhostView>, round: Counters)

  /** How many ticks super mode lasts after the tick it was armed at. */
  const SuperModeTicks: int := 40

  /** The start of a player tick: the clock advances, then super mode ends
      once it has been on for the full duration. */
  function Prelude(r: Counters): (p: Counters)
    ensures p.time == r.time + 1
    ensures p.superMode <==> r.superMode && r.time + 1 - r.smTime < SuperModeTicks
    ensures p.message == (if r.superMode && !p.superMode then SuperModeOver else r.message)
    ensures p.(time := r.time, superMode := r.superMode, message := r.message) == r
  {
    var r1 := r.(time := r.time + 1);
    if r1.superMode && r1.time - r1.smTime >= SuperModeTicks then
      r1.(superMode := false, message := SuperModeOver)
    else r1
  }

  function ResetAll(gs: seq<GhostView>): (rs: seq<GhostView>)
    ensures |rs| == |gs|
    ensures forall i :: 0 <= i < |gs| ==> rs[i] == ResetGhost(gs[i])
  {
    seq(|gs|, i requires 0 <= i < |gs| => ResetGhost(gs[i]))
  }

  /** One player tick. */
  function AfterPlayerTick(w: World): (v: World)
    requires WellFormed(w.board)
    ensures WellFormed(v.board)
  {
    var o := PacmanStep(w.board, w.pac, Prelude(w.round));
    if !o.pac.alive && o.round.lives > 0 then
      World(o.board, Spawned, ResetAll(w.ghosts), o.round.(superMode := false))
    else
      World(o.board, o.pac, w.ghosts, o.round)
  }

  /** One tick of ghost i, aimed at where Pac-Man is now. */
  function AfterGhostTick(w: World, i: int, rnd1: nat, rnd2: nat): (v: World)
    requires WellFormed(w.board) && 0 <= i < |w.ghosts|
    ensures WellFormed(v.board)
  {
    var m := GhostUpdate(w.board, w.ghosts[i], w.pac.y, w.pac.x, w.round.superMode, rnd1, rnd2);
    GhostUpdateIsLocal(w.board, w.ghosts[i], w.pac.y, w.pac.x, w.round.superMode, rnd1, rnd2);
    w.(board := m.board, ghosts := w.ghosts[i := m.view])
  }

  /** A key press between ticks: only Pac-Man's facing and glyph change. */
  function AfterKeyPress(w: World, input: char): (v: World)
    ensures v.board == w.board && v.ghosts == w.ghosts && v.round == w.round
    ensures (v.pac.y, v.pac.x, v.pac.alive) == (w.pac.y, w.pac.x, w.pac.alive)
    ensures input in "wasd" ==> IsPacmanSymbol(v.pac.direction) && v.pac.character == v.pac.direction
    ensures input !in "wasd" ==> v.pac == w.pac.(character := w.pac.direction)
  {
    var d := Facing(input, w.pac.direction);
    w.(pac := w.pac.(direction := d, character := d))
  }

  /** The guard of the player loop and of every ghost loop. */
  predicate Running(r: Counters): (b: bool)
    ensures b ==> !Won(r) && r.lives > 0
  {
    r.running && r.lives > 0 && r.dotsEaten < r.maxDots
  }

  /** The end-of-round test: a win exactly when every counted dot was eaten. */
  predicate Won(r: Counters): (b: bool)
    ensures RoundInvariant(r) && !b ==> r.dotsEaten < r.maxDots
  {
    r.dotsEaten == r.maxDots
  }

  /** The counters a round starts with, for a level with the given dot total. */
  function Started(maxDots: int): (c: Counters)
    ensures c == Fresh.(maxDots := maxDots, running := true)
    ensures RoundInvariant(c) <==> maxDots >= 0
    ensures Running(c) <==> maxDots > 0
  {
    Counters(0, 3, 0, 0, 0, maxDots, false, RoundStart, true)
  }

  /** What stays true of the counters while the round runs. */
  predicate RoundInvariant(r: Counters) {
    0 <= r.lives && 0 <= r.dotsEaten <= r.maxDots && 0 <= r.score && r.running
  }

  // Properties of the ticks

  /** Every player tick advances the clock by one, never re-arms the super-mode
      timer, and leaves the dot total and the running flag alone. */
  lemma PlayerTickClock(w: World)
    requires WellFormed(w.board)
    ensures var v := AfterPlayerTick(w);
      v.round.time == w.round.time + 1 && v.round.smTime == w.round.smTime &&
      v.round.maxDots == w.round.maxDots && v.round.running == w.round.running
  {
    CountersOfAStep(w.board, w.pac, Prelude(w.round));
  }

  /** Super mode that has run its full duration is switched off before Pac-Man
      moves: a ghost ahead then costs a life. */
  lemma ExpiredSuperModeDoesNotProtect(w: World)
    requires WellFormed(w.board) && w.pac.alive && IsPacmanSymbol(w.pac.direction)
    requires w.round.superMode && w.round.time + 1 - w.round.smTime >= SuperModeTicks
    requires IsGhostSymbol(Get(w.board, Ahead(w.pac.direction, w.pac.y, w.pac.x).0,
                                        Ahead(w.pac.direction, w.pac.y, w.pac.x).1))
    ensures var v := AfterPlayerTick(w);
      v.round.lives == w.round.lives - 1 && v.round.score == w.round.score && !v.round.superMode &&
      v.round.message == EatenByGhost
  {
    MeetingAGhost(w.board, w.pac, Prelude(w.round));
  }

  /** Super mode that has not yet run its duration still protects Pac-Man: a
      ghost ahead is worth 100 points and Pac-Man stays put. */
  lemma LiveSuperModeProtects(w: World)
    requires WellFormed(w.board) && w.pac.alive && IsPacmanSymbol(w.pac.direction)
    requires w.round.superMode && w.round.time + 1 - w.round.smTime < SuperModeTicks
    requires IsGhostSymbol(Get(w.board, Ahead(w.pac.direction, w.pac.y, w.pac.x).0,
                                        Ahead(w.pac.direction, w.pac.y, w.pac.x).1))
    ensures var v := AfterPlayerTick(w);
      v.round.lives == w.round.lives && v.round.score == w.round.score + 100 && v.round.superMode &&
      (v.pac.y, v.pac.x) == (w.pac.y, w.pac.x) && v.ghosts == w.ghosts
  {
    MeetingAGhost(w.board, w.pac, Prelude(w.round));
  }

  /** Eaten by a ghost with a life to spare: Pac-Man and every ghost go back
      to their spawn points and super mode is off, while the score, the lives
      and the dots eaten are those the collision left. The grid is not reset:
      Pac-Man's glyph stays in the cell where it died, so two cells can hold
      a Pac-Man glyph after the tick. */
  lemma DeathResetsEveryone(w: World)
    requires WellFormed(w.board) && w.pac.alive && IsPacmanSymbol(w.pac.direction)
    requires !Prelude(w.round).superMode && w.round.lives > 1
    requires IsGhostSymbol(Get(w.board, Ahead(w.pac.direction, w.pac.y, w.pac.x).0,
                                        Ahead(w.pac.direction, w.pac.y, w.pac.x).1))
    ensures var v := AfterPlayerTick(w);
      v.pac == Spawned && v.ghosts == ResetAll(w.ghosts) && !v.round.superMode &&
      v.round.score == w.round.score && v.round.lives == w.round.lives - 1 &&
      v.round.dotsEaten == w.round.dotsEaten &&
      (IsValidPosition(w.pac.y, w.pac.x) ==> Get(v.board, w.pac.y, w.pac.x) == w.pac.character)
  {
    MeetingAGhost(w.board, w.pac, Prelude(w.round));
    GlyphFollowsPacman(w.board, w.pac, Prelude(w.round), w.pac.y, w.pac.x);
  }

  /** The pellet never records its tick, so from tick 40 on super mode lasts
      only until the next player tick: it is on after a tick only when that
      tick ate a pellet, and the next tick's expiry check always switches it off. */
  lemma LateSuperModeLastsOneTick(w: World)
    requires WellFormed(w.board) && w.round.smTime == 0 && w.round.time + 1 >= SuperModeTicks
    ensures var v := AfterPlayerTick(w);
      (v.round.superMode ==> w.pac.alive && IsSuperPelletSymbol(NextCell(w.board, w.pac))) &&
      !Prelude(v.round).superMode
  {
    PlayerTickClock(w);
  }

  /** A player tick taken while the round runs keeps the round invariant. */
  lemma PlayerTickKeepsInvariant(w: World)
    requires WellFormed(w.board) && RoundInvariant(w.round) && Running(w.round)
    ensures RoundInvariant(AfterPlayerTick(w).round)
  {
    CountersOfAStep(w.board, w.pac, Prelude(w.round));
  }

  /** Ghost ticks never touch the round state, nor Pac-Man, nor another ghost. */
  lemma GhostTickIsolated(w: World, i: int, rnd1: nat, rnd2: nat, j: int)
    requires WellFormed(w.board) && 0 <= i < |w.ghosts| && 0 <= j < |w.ghosts| && i != j
    ensures var v := AfterGhostTick(w, i, rnd1, rnd2);
      v.round == w.round && v.pac == w.pac && |v.ghosts| == |w.ghosts| && v.ghosts[j] == w.ghosts[j]
  {
  }

  /** When the loops stop on their own guard, the round was either won or lost
      for want of lives, and it is reported as won exactly in the first case. */
  lemma LoopExitReport(r: Counters)
    requires RoundInvariant(r) && !Running(r)
    ensures Won(r) || r.lives == 0
    ensures !Won(r) ==> r.lives == 0 && r.dotsEaten < r.maxDots
  {
  }

  /** The dots eaten plus the dots on the grid never grow: Pac-Man only counts a
      dot it removes, and ghosts only remove dots. */
  lemma DotsAreConserved(w: World, i: int, rnd1: nat, rnd2: nat)
    requires WellFormed(w.board) && !IsDotSymbol(w.pac.character)
    requires 0 <= i < |w.ghosts| && !IsDotSymbol(w.ghosts[i].character)
    ensures var v := AfterPlayerTick(w);
      v.round.dotsEaten + DotCount(v.board) <= w.round.dotsEaten + DotCount(w.board)
    ensures var v := AfterGhostTick(w, i, rnd1, rnd2);
      v.round.dotsEaten + DotCount(v.board) <= w.round.dotsEaten + DotCount(w.board)
  {
    CountersOfAStep(w.board, w.pac, Prelude(w.round));
    GhostUpdateIsLocal(w.board, w.ghosts[i], w.pac.y, w.pac.x, w.round.superMode, rnd1, rnd2);
  }

  /** Level 1 just started, Pac-Man at its spawn facing the dot to its right:
      one tick scores 1, eats 1 dot, moves Pac-Man onto the dot's cell and
      leaves the spawn cell blank. */
  lemma FirstTickEatsADot(gs: seq<GhostView>)
    ensures WellFormed(Layout(Level1))
    ensures var v := AfterPlayerTick(World(Layout(Level1), Spawned, gs, Started(210)));
      v.round.score == 1 && v.round.dotsEaten == 1 && (v.pac.y, v.pac.x) == (15, 14) &&
      Get(v.board, 15, 13) == ' ' && Get(v.board, 15, 14) == '<' && v.ghosts == gs
  {
    LevelsShape(1);
    var b := Layout(Level1);
    assert Level1[15][14] == '.';
    assert Get(b, 15, 14) == '.';
    EatingADot(b, Spawned, Prelude(Started(210)));
    GlyphFollowsPacman(b, Spawned, Prelude(Started(210)), 15, 13);
  }

  // A round as an interleaving of the loop bodies

  /** One turn of a thread: a pass of the player loop, with the key pressed
      during it if there was one, or a pass of the loop of ghost index. Each
      pass runs only while the shared guard holds. */
  datatype Turn = PlayerTurn(pressed: bool, key: char) | GhostTurn(index: int, rnd1: nat, rnd2: nat)

  function TakeTurn(w: World, t: Turn): (v: World)
    requires WellFormed(w.board)
    ensures WellFormed(v.board)
    ensures !Running(w.round) ==> v == w
  {
    if !Running(w.round) then w
    else match t
      case PlayerTurn(pressed, key) =>
        var v := AfterPlayerTick(w);
        if pressed then AfterKeyPress(v, key) else v
      case GhostTurn(i, rnd1, rnd2) =>
        if 0 <= i < |w.ghosts| then AfterGhostTick(w, i, rnd1, rnd2) else w
  }

  /** The world after the given turns, taken in order. */
  function Play(w: World, turns: seq<Turn>): (v: World)
    requires WellFormed(w.board)
    ensures WellFormed(v.board)
    decreases |turns|
  {
    if turns == [] then w else TakeTurn(Play(w, turns[..|turns| - 1]), turns[|turns| - 1])
  }

  /** One turn keeps the round invariant; the clock, lives, dots eaten and score
      only move one way, and the tick super mode was armed at, the dot total
      and the number of ghosts never change. */
  lemma TurnProgress(w: World, t: Turn)
    requires WellFormed(w.board) && RoundInvariant(w.round)
    ensures var v := TakeTurn(w, t);
      RoundInvariant(v.round) && |v.ghosts| == |w.ghosts| &&
      w.round.time <= v.round.time && v.round.lives <= w.round.lives &&
      w.round.dotsEaten <= v.round.dotsEaten && w.round.score <= v.round.score &&
      v.round.smTime == w.round.smTime && v.round.maxDots == w.round.maxDots
  {
    if Running(w.round) && t.PlayerTurn? {
      PlayerTickKeepsInvariant(w);
      PlayerTickClock(w);
      CountersOfAStep(w.board, w.pac, Prelude(w.round));
    }
  }

  /** Any interleaving keeps the round invariant, its counters only move one
      way, and the tick super mode was armed at stays as the round started. */
  lemma {:induction false} PlayProgress(w: World, turns: seq<Turn>)
    requires WellFormed(w.board) && RoundInvariant(w.round)
    ensures var v := Play(w, turns);
      RoundInvariant(v.round) && |v.ghosts| == |w.ghosts| &&
      w.round.time <= v.round.time && v.round.lives <= w.round.lives &&
      w.round.dotsEaten <= v.round.dotsEaten && w.round.score <= v.round.score &&
      v.round.smTime == w.round.smTime && v.round.maxDots == w.round.maxDots
    decreases |turns|
  {
    if turns != [] {
      PlayProgress(w, turns[..|turns| - 1]);
      TurnProgress(Play(w, turns[..|turns| - 1]), turns[|turns| - 1]);
    }
  }

  /** Once the guard fails, no later turn changes anything. */
  lemma {:induction false} OverIsOver(w: World, turns: seq<Turn>)
    requires WellFormed(w.board) && !Running(w.round)
    ensures Play(w, turns) == w
    decreases |turns|
  {
    if turns != [] {
      OverIsOver(w, turns[..|turns| - 1]);
    }
  }

  /** A round that started well and has stopped was won or lost for want of lives. */
  lemma StoppedRoundIsDecided(w: World, turns: seq<Turn>)
    requires WellFormed(w.board) && RoundInvariant(w.round)
    requires !Running(Play(w, turns).round)
    ensures Won(Play(w, turns).round) || Play(w, turns).round.lives == 0
  {
    PlayProgress(w, turns);
    LoopExitReport(Play(w, turns).round);
  }

  /** The game: the grid, Pac-Man, the four ghosts and the round state. */
  class Game {
    const pacman: Pacman
    const ghosts: seq<Ghost>
    const gameMap: Map
    const round: RoundState

    ghost predicate Valid()
      reads gameMap, gameMap.level
    {
      gameMap.Valid() && |ghosts| == 4 &&
      ghosts[0].kind == Blinky && ghosts[1].kind == Pinky &&
      ghosts[2].kind == Inky && ghosts[3].kind == Clyde &&
      forall i, j :: 0 <= i < j < |ghosts| ==> ghosts[i] != ghosts[j]
    }

    function Views(): (vs: seq<GhostView>)
      reads ghosts
      ensures |vs| == |ghosts| && forall i :: 0 <= i < |ghosts| ==> vs[i] == ghosts[i].View()
    {
      seq(|ghosts|, i reads ghosts requires 0 <= i < |ghosts| => ghosts[i].View())
    }

    ghost function Snapshot(): World
      reads pacman, round, gameMap, ghosts
    {
      World(gameMap.cells, pacman.View(), Views(), round.Snapshot())
    }

    constructor ()
      ensures Valid() && fresh(pacman) && fresh(gameMap) && fresh(gameMap.level) && fresh(round)
      ensures forall i :: 0 <= i < |ghosts| ==> fresh(ghosts[i])
      ensures Snapshot() == World(Layout(Level1), Spawned,
                                  [GhostView(9, 12, Blinky, 'M', Up, true), GhostView(9, 14, Pinky, 'W', Down, true),
                                   GhostView(10, 12, Inky, 'Y', Right, true), GhostView(10, 14, Clyde, 'U', Left, true)],
                                  Fresh)
      ensures gameMap.maxDots == 210 && gameMap.currentLevel == 1
    {
      pacman := new Pacman();
      var blinky := new Ghost(Blinky, 9, 12);
      var pinky := new Ghost(Pinky, 9, 14);
      var inky := new Ghost(Inky, 10, 12);
      var clyde := new Ghost(Clyde, 10, 14);
      ghosts := [blinky, pinky, inky, clyde];
      gameMap := new Map();
      round := new RoundState();
    }

    /** Sets a round up: loads the level, takes its dot total, zeroes the
        counters and puts every entity at its spawn point. */
    method InitializeGame(level: int)
      requires Valid()
      modifies round, pacman, gameMap`cells, gameMap`maxDots, gameMap`currentLevel, gameMap.level, ghosts
      ensures Valid() && gameMap.currentLevel == level
      ensures KnownLevel(level) ==>
                gameMap.cells == Layout(LevelRows(level)) && gameMap.maxDots == LevelMaxDots(level)
      ensures !KnownLevel(level) ==>
                gameMap.cells == old(gameMap.cells) && gameMap.maxDots == old(gameMap.maxDots)
      ensures Snapshot() == World(gameMap.cells, Spawned, ResetAll(old(Views())), Started(gameMap.maxDots))
    {
      ghost var w := Snapshot();
      gameMap.LoadLevel(level);
      assert Views() == w.ghosts && pacman.View() == w.pac && round.Snapshot() == w.round;
      StartRound(gameMap.GetMaxDots());
    }

    /** The part of a round's set-up after the level is loaded. */
    method StartRound(maxDots: int)
      requires Valid()
      modifies round, pacman, ghosts
      ensures Snapshot() == old(Snapshot()).(pac := Spawned, ghosts := ResetAll(old(Views())),
                                             round := Started(maxDots))
    {
      ResetCounters(maxDots);
      RespawnEntities();
      round.gameRunning := true;
    }

    /** Pac-Man and every ghost back at their spawn points; nothing else changes. */
    method RespawnEntities()
      requires Valid()
      modifies pacman, ghosts
      ensures Snapshot() == old(Snapshot()).(pac := Spawned, ghosts := ResetAll(old(Views())))
    {
      pacman.Reset();
      assert Views() == old(Views());
      ResetGhosts();
    }

    /** The counters of a new round, all but the running flag. */
    method ResetCounters(maxDots: int)
      modifies round
      ensures round.Snapshot() == Started(maxDots).(running := old(round.gameRunning))
    {
      round.maxDots := maxDots;
      round.score := 0;
      round.lives := 3;
      round.time := 0;
      round.smTime := 0;
      round.dotsEaten := 0;
      round.superMode := false;
      round.message := RoundStart;
    }

    method ResetGhosts()
      requires Valid()
      modifies ghosts
      ensures Views() == ResetAll(old(Views()))
    {
      for i := 0 to |ghosts|
        invariant forall j :: 0 <= j < i ==> ghosts[j].View() == ResetGhost(old(ghosts[j].View()))
        invariant forall j :: i <= j < |ghosts| ==> ghosts[j].View() == old(ghosts[j].View())
      {
        ghosts[i].Reset();
      }
    }

    /** The body of one player tick, taken under the lock. */
    method PlayerTick()
      requires Valid()
      modifies round, pacman, gameMap`cells, gameMap.level, ghosts
      ensures Valid()
      ensures Snapshot() == AfterPlayerTick(old(Snapshot()))
    {
      ghost var w := Snapshot();
      AdvanceClock();
      pacman.Update(gameMap, round);
      ghost var o := PacmanStep(w.board, w.pac, Prelude(w.round));
      assert Views() == w.ghosts;
      assert Snapshot() == World(o.board, o.pac, w.ghosts, o.round);
      if !pacman.alive && round.lives > 0 {
        RespawnAll();
      }
    }

    /** After a death with lives left: super mode off, every entity at its spawn. */
    method RespawnAll()
      requires Valid()
      modifies round`superMode, pacman, ghosts
      ensures Snapshot() == old(Snapshot()).(pac := Spawned, ghosts := ResetAll(old(Views())),
                                             round := old(round.Snapshot()).(superMode := false))
    {
      round.superMode := false;
      RespawnEntities();
    }

    /** The clock and the super-mode expiry at the start of a player tick. */
    method AdvanceClock()
      modifies round
      ensures round.Snapshot() == Prelude(old(round.Snapshot()))
    {
      round.time := round.time + 1;
      if round.superMode && round.time - round.smTime >= SuperModeTicks {
        round.superMode := false;
        round.message := SuperModeOver;
      }
    }

    /** The key press handled after a player tick. */
    method KeyPress(input: char)
      requires Valid()
      modifies pacman
      ensures Snapshot() == AfterKeyPress(old(Snapshot()), input)
    {
      pacman.Move(input);
    }

    /** The body of one tick of ghost i, taken under the lock. */
    method GhostTick(i: int, rnd1: nat, rnd2: nat)
      requires Valid() && 0 <= i < |ghosts|
      modifies ghosts[i], gameMap`cells, gameMap.level
      ensures Valid()
      ensures Snapshot() == AfterGhostTick(old(Snapshot()), i, rnd1, rnd2)
    {
      ghosts[i].Update(pacman.posY, pacman.posX, gameMap, round, rnd1, rnd2);
    }

    /** The threads of the running round, their passes taken in the given order. */
    method RunGameLoop(turns: seq<Turn>)
      requires Valid()
      modifies round, pacman, gameMap`cells, gameMap.level, ghosts
      ensures Valid()
      ensures Snapshot() == Play(old(Snapshot()), turns)
    {
      ghost var w := Snapshot();
      var k := 0;
      while k < |turns|
        invariant 0 <= k <= |turns|
        invariant Valid()
        invariant Snapshot() == Play(w, turns[..k])
      {
        assert turns[..k + 1][..k] == turns[..k];
        RunTurn(turns[k]);
        k := k + 1;
      }
      assert turns[..k] == turns;
    }

    /** One pass of the loop of a thread: it runs only while the guard holds. */
    method RunTurn(t: Turn)
      requires Valid()
      modifies round, pacman, gameMap`cells, gameMap.level, ghosts
      ensures Valid()
      ensures Snapshot() == TakeTurn(old(Snapshot()), t)
    {
      var live := IsLive();
      if live {
        match t
        case PlayerTurn(pressed, key) =>
          PlayerTick();
          if pressed {
            KeyPress(key);
          }
        case GhostTurn(i, rnd1, rnd2) =>
          if 0 <= i < |ghosts| {
            GhostTick(i, rnd1, rnd2);
          }
      }
    }

    /** The loop guard. */
    function IsLive(): (b: bool)
      reads round
      ensures b <==> Running(round.Snapshot())
    {
      round.gameRunning && round.lives > 0 && round.dotsEaten < round.maxDots
    }

    /** The test that picks the win screen over the game-over screen. */
    function HasWon(): (b: bool)
      reads round
      ensures b <==> Won(round.Snapshot())
    {
      round.dotsEaten == round.maxDots
    }
  }
}
