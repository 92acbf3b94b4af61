/** Pac-Man of src/pacman.cpp: the facing set from a key, and the update step
    that leaves the current cell, looks at the cell ahead, lets that cell's
    symbol change the round state, moves or stays, teleports through a portal
    and stamps its glyph on the grid. */
module Player {
  import opened Grid
  import opened Round

  /** A snapshot of Pac-Man's fields. */
  datatype PacmanView = PacmanView(y: int, x: int, direction: char, character: char, alive: bool)

  /** The spawn point, facing and glyph that constructing or resetting Pac-Man gives. */
  const Spawned: PacmanView := PacmanView(15, 13, '<', '<', true)

  /** The facing after a key press: w, a, s and d choose a glyph, every other
      key leaves the facing as it was. */
  function Facing(input: char, direction: char): (d: char)
    ensures input in "wasd" ==> IsPacmanSymbol(d)
    ensures input !in "wasd" ==> d == direction
  {
    match input
    case 'w' => '^'
    case 'a' => '>'
    case 's' => 'v'
    case 'd' => '<'
    case _ => direction
  }

  /** The cell in front of Pac-Man: the glyph is a mouth, so '<' moves right
      and '>' moves left. Any other facing stays put. */
  function Ahead(direction: char, y: int, x: int): (r: (int, int))
    ensures IsPacmanSymbol(direction) ==>
              Adjacent(y, x, r.0, r.1)
    ensures !IsPacmanSymbol(direction) ==> r == (y, x)
  {
    match direction
    case '^' => (y - 1, x)
    case 'v' => (y + 1, x)
    case '<' => (y, x + 1)
    case '>' => (y, x - 1)
    case _ => (y, x)
  }

  /** The keys steer as a player expects: w up, s down, a left, d right. */
  lemma KeysSteer(direction: char, y: int, x: int)
    ensures Ahead(Facing('w', direction), y, x) == (y - 1, x)
    ensures Ahead(Facing('s', direction), y, x) == (y + 1, x)
    ensures Ahead(Facing('a', direction), y, x) == (y, x - 1)
    ensures Ahead(Facing('d', direction), y, x) == (y, x + 1)
  {
  }

  /** The symbols Pac-Man cannot move into: a ghost or a wall. */
  predicate Blocks(next: char) {
    IsGhostSymbol(next) || IsWallSymbol(next)
  }

  /** Running into a ghost outside super mode costs a life. */
  predicate Dies(next: char, r: Counters) {
    IsGhostSymbol(next) && !r.superMode
  }

  /** What the symbol ahead does to the round state. */
  function Interact(next: char, r: Counters): (c: Counters)
    ensures c.lives == r.lives - (if Dies(next, r) then 1 else 0)
    ensures c.dotsEaten == r.dotsEaten + (if IsDotSymbol(next) then 1 else 0)
    ensures c.score == r.score + (if IsDotSymbol(next) then 1 else if IsGhostSymbol(next) && r.superMode then 100 else 0)
    ensures c.superMode <==> r.superMode || IsSuperPelletSymbol(next)
    ensures c.time == r.time && c.smTime == r.smTime && c.maxDots == r.maxDots && c.running == r.running
    ensures !(IsGhostSymbol(next) || IsSuperPelletSymbol(next) || IsDotSymbol(next)) ==> c == r
  {
    if IsGhostSymbol(next) then
      if !r.superMode then r.(message := EatenByGhost, lives := r.lives - 1)
      else r.(message := AteGhost, score := r.score + 100)
    else if IsSuperPelletSymbol(next) then r.(superMode := true, message := SuperModeOn)
    else if IsDotSymbol(next) then r.(dotsEaten := r.dotsEaten + 1, score := r.score + 1)
    else r
  }

  datatype Outcome = Outcome(board: Board, pac: PacmanView, round: Counters)

  /** The symbol Pac-Man looks at: the cell ahead once its own cell is cleared. */
  function NextCell(b: Board, p: PacmanView): char
    requires WellFormed(b)
  {
    var (ny, nx) := Ahead(p.direction, p.y, p.x);
    Get(Set(b, p.y, p.x, ' '), ny, nx)
  }

  /** One update of Pac-Man. */
  function PacmanStep(b: Board, p: PacmanView, r: Counters): (o: Outcome)
    requires WellFormed(b)
    ensures WellFormed(o.board)
  {
    if !p.alive then Outcome(b, p, r)
    else
      var cleared := Set(b, p.y, p.x, ' ');
      var (ny, nx) := Ahead(p.direction, p.y, p.x);
      var next := Get(cleared, ny, nx);
      var (y, x) := if Blocks(next) then (p.y, p.x) else (ny, PortalColumn(next, nx));
      Outcome(Set(cleared, y, x, p.character),
              p.(y := y, x := x, alive := !Dies(next, r)),
              Interact(next, r))
  }

  // Properties of one update

  lemma DeadPacmanIsInert(b: Board, p: PacmanView, r: Counters)
    requires WellFormed(b) && !p.alive
    ensures PacmanStep(b, p, r) == Outcome(b, p, r)
  {
  }

  /** With a proper facing the cell looked at is the one ahead on the grid as it was. */
  lemma NextCellIsAhead(b: Board, p: PacmanView)
    requires WellFormed(b) && IsPacmanSymbol(p.direction)
    ensures NextCell(b, p) == Get(b, Ahead(p.direction, p.y, p.x).0, Ahead(p.direction, p.y, p.x).1)
  {
    var (ny, nx) := Ahead(p.direction, p.y, p.x);
    SetFrame(b, p.y, p.x, ' ', ny, nx);
  }

  /** A dot ahead: one more dot eaten, one more point, and Pac-Man moves onto it. */
  lemma EatingADot(b: Board, p: PacmanView, r: Counters)
    requires WellFormed(b) && p.alive && IsPacmanSymbol(p.direction)
    requires IsDotSymbol(Get(b, Ahead(p.direction, p.y, p.x).0, Ahead(p.direction, p.y, p.x).1))
    ensures var o := PacmanStep(b, p, r);
      o.round == r.(dotsEaten := r.dotsEaten + 1, score := r.score + 1) &&
      (o.pac.y, o.pac.x) == Ahead(p.direction, p.y, p.x) && o.pac.alive &&
      Get(o.board, o.pac.y, o.pac.x) == p.character
  {
    NextCellIsAhead(b, p);
  }

  /** A super pellet ahead: super mode comes on and Pac-Man moves onto it, but
      neither the score, the dot count nor the tick super mode was armed at changes. */
  lemma EatingASuperPellet(b: Board, p: PacmanView, r: Counters)
    requires WellFormed(b) && p.alive && IsPacmanSymbol(p.direction)
    requires IsSuperPelletSymbol(Get(b, Ahead(p.direction, p.y, p.x).0, Ahead(p.direction, p.y, p.x).1))
    ensures var o := PacmanStep(b, p, r);
      o.round.superMode && o.round.message == SuperModeOn &&
      o.round.score == r.score && o.round.dotsEaten == r.dotsEaten && o.round.smTime == r.smTime &&
      (o.pac.y, o.pac.x) == Ahead(p.direction, p.y, p.x) && o.pac.alive
  {
    NextCellIsAhead(b, p);
  }

  /** A wall ahead: Pac-Man stays where it is and nothing in the round changes. */
  lemma HittingAWall(b: Board, p: PacmanView, r: Counters)
    requires WellFormed(b) && p.alive && IsPacmanSymbol(p.direction)
    requires IsWallSymbol(Get(b, Ahead(p.direction, p.y, p.x).0, Ahead(p.direction, p.y, p.x).1))
    ensures var o := PacmanStep(b, p, r);
      o.pac == p && o.round == r && Get(o.board, p.y, p.x) == Get(Set(b, p.y, p.x, p.character), p.y, p.x)
  {
    NextCellIsAhead(b, p);
  }

  /** A ghost ahead never lets Pac-Man move. Outside super mode it costs a life
      and kills Pac-Man; in super mode it is worth 100 points. */
  lemma MeetingAGhost(b: Board, p: PacmanView, r: Counters)
    requires WellFormed(b) && p.alive && IsPacmanSymbol(p.direction)
    requires IsGhostSymbol(Get(b, Ahead(p.direction, p.y, p.x).0, Ahead(p.direction, p.y, p.x).1))
    ensures var o := PacmanStep(b, p, r);
      (o.pac.y, o.pac.x) == (p.y, p.x) &&
      (!r.superMode ==> o.round == r.(message := EatenByGhost, lives := r.lives - 1) && !o.pac.alive) &&
      (r.superMode ==> o.round == r.(message := AteGhost, score := r.score + 100) && o.pac.alive)
  {
    NextCellIsAhead(b, p);
  }

  /** Entering a portal lands on the partner column of the same row, where the
      glyph is stamped: the partner portal cell is overwritten. */
  lemma EnteringAPortal(b: Board, p: PacmanView, r: Counters)
    requires WellFormed(b) && p.alive && IsPacmanSymbol(p.direction)
    requires IsPortalSymbol(Get(b, Ahead(p.direction, p.y, p.x).0, Ahead(p.direction, p.y, p.x).1))
    ensures var o := PacmanStep(b, p, r);
      var (ny, nx) := Ahead(p.direction, p.y, p.x);
      o.pac.y == ny && o.round == r && o.pac.alive &&
      (Get(b, ny, nx) == '[' ==> o.pac.x == 26) &&
      (Get(b, ny, nx) == ']' ==> o.pac.x == 0) &&
      o.board[o.pac.y][o.pac.x] == p.character
  {
    NextCellIsAhead(b, p);
  }

  /** Any other cell ahead (a blank, the zero fill of the last column, or a
      stale glyph that is no ghost): Pac-Man moves onto it and the round is
      unchanged. */
  lemma MovingOntoOpenFloor(b: Board, p: PacmanView, r: Counters)
    requires WellFormed(b) && p.alive && IsPacmanSymbol(p.direction)
    requires var next := Get(b, Ahead(p.direction, p.y, p.x).0, Ahead(p.direction, p.y, p.x).1);
      !IsWallSymbol(next) && !IsGhostSymbol(next) && !IsDotSymbol(next) &&
      !IsSuperPelletSymbol(next) && !IsPortalSymbol(next)
    ensures var o := PacmanStep(b, p, r);
      (o.pac.y, o.pac.x) == Ahead(p.direction, p.y, p.x) && o.round == r && o.pac.alive &&
      Get(o.board, o.pac.y, o.pac.x) == p.character
  {
    NextCellIsAhead(b, p);
  }

  /** After a live update the old cell is blank (unless Pac-Man is still on it),
      Pac-Man's glyph is in the cell it now occupies, and no other cell changed. */
  lemma GlyphFollowsPacman(b: Board, p: PacmanView, r: Counters, i: int, j: int)
    requires WellFormed(b) && p.alive
    ensures var o := PacmanStep(b, p, r);
      (IsValidPosition(o.pac.y, o.pac.x) ==> Get(o.board, o.pac.y, o.pac.x) == p.character) &&
      ((o.pac.y, o.pac.x) != (p.y, p.x) && IsValidPosition(p.y, p.x) ==> Get(o.board, p.y, p.x) == ' ') &&
      ((i, j) != (p.y, p.x) && (i, j) != (o.pac.y, o.pac.x) ==> Get(o.board, i, j) == Get(b, i, j))
  {
    var cleared := Set(b, p.y, p.x, ' ');
    var o := PacmanStep(b, p, r);
    SetFrame(cleared, o.pac.y, o.pac.x, p.character, i, j);
    SetFrame(b, p.y, p.x, ' ', i, j);
    SetFrame(cleared, o.pac.y, o.pac.x, p.character, p.y, p.x);
    SetFrame(b, p.y, p.x, ' ', p.y, p.x);
  }

  /** The round counters only move the way the game intends: at most one more
      dot, one more point or 100 more, at most one life less, and every eaten
      dot is a dot gone from the grid. */
  lemma CountersOfAStep(b: Board, p: PacmanView, r: Counters)
    requires WellFormed(b)
    ensures var o := PacmanStep(b, p, r);
      (o.round.dotsEaten == r.dotsEaten || o.round.dotsEaten == r.dotsEaten + 1) &&
      r.score <= o.round.score <= r.score + 100 &&
      (o.round.lives == r.lives || o.round.lives == r.lives - 1) &&
      o.round.smTime == r.smTime && o.round.time == r.time && o.round.maxDots == r.maxDots &&
      o.round.running == r.running &&
      (!IsDotSymbol(p.character) ==> o.round.dotsEaten + DotCount(o.board) <= r.dotsEaten + DotCount(b))
  {
    if p.alive {
      var cleared := Set(b, p.y, p.x, ' ');
      var o := PacmanStep(b, p, r);
      var (ny, nx) := Ahead(p.direction, p.y, p.x);
      SetDotCount(b, p.y, p.x, ' ');
      SetDotCount(cleared, o.pac.y, o.pac.x, p.character);
      if IsDotSymbol(Get(cleared, ny, nx)) {
        assert (o.pac.y, o.pac.x) == (ny, nx);
      }
    }
  }

  /** Pac-Man's fields, updated in place. */
  class Pacman {
    var posY: int
    var posX: int
    var direction: char
    var character: char
    var alive: bool

    function View(): PacmanView
      reads this
    {
      PacmanView(posY, posX, direction, character, alive)
    }

    constructor ()
      ensures View() == Spawned
    {
      posY, posX := 15, 13;
      direction, character := '<', '<';
      alive := true;
    }

    /** Pac-Man at (y, x), with the spawn facing and glyph. */
    constructor At(y: int, x: int)
      ensures View() == Spawned.(y := y, x := x)
    {
      posY, posX := y, x;
      direction, character := '<', '<';
      alive := true;
    }

    /** A key press only turns Pac-Man: its facing and glyph follow the key. */
    method Move(input: char)
      modifies this`direction, this`character
      ensures View() == old(View()).(direction := Facing(input, old(direction)),
                                     character := Facing(input, old(direction)))
      ensures character == direction
    {
      var newDirection := direction;
      if input == 'w' {
        newDirection := '^';
      } else if input == 'a' {
        newDirection := '>';
      } else if input == 's' {
        newDirection := 'v';
      } else if input == 'd' {
        newDirection := '<';
      }
      direction := newDirection;
      character := newDirection;
    }

    method Update(maze: Map, round: RoundState)
      requires maze.Valid()
      modifies this, maze`cells, maze.level, round
      ensures maze.Valid()
      ensures Outcome(maze.cells, View(), round.Snapshot()) ==
              PacmanStep(old(maze.cells), old(View()), old(round.Snapshot()))
    {
      if !alive {
        return;
      }
      maze.SetCell(posY, posX, ' ');
      var newY, newX := posY, posX;
      if direction == '^' {
        newY := newY - 1;
      } else if direction == 'v' {
        newY := newY + 1;
      } else if direction == '<' {
        newX := newX + 1;
      } else if direction == '>' {
        newX := newX - 1;
      }
      var nextChar := maze.GetCell(newY, newX);
      var ok := CanMove(nextChar, round);
      if ok {
        posY, posX := newY, newX;
        if maze.IsPortal(posY, posX) {
          posY, posX := maze.HandlePortal(posY, posX);
        }
      }
      maze.SetCell(posY, posX, character);
    }

    /** Whether the symbol ahead can be entered, applying its effect on the round. */
    method CanMove(nextChar: char, round: RoundState) returns (ok: bool)
      requires alive
      modifies this`alive, round
      ensures ok == !Blocks(nextChar)
      ensures round.Snapshot() == Interact(nextChar, old(round.Snapshot()))
      ensures alive == !Dies(nextChar, old(round.Snapshot()))
    {
      if IsGhostSymbol(nextChar) {
        HandleCollision(round);
        ok := false;
      } else if nextChar == 'O' {
        round.SetSuperMode(true);
        round.SetMessage(SuperModeOn);
        ok := true;
      } else if nextChar == '.' {
        round.IncrementDotsEaten();
        round.IncrementScore();
        ok := true;
      } else if nextChar == '#' {
        ok := false;
      } else {
        ok := true;
      }
    }

    method HandleCollision(round: RoundState)
      modifies this`alive, round
      ensures !old(round.superMode) ==>
                round.Snapshot() == old(round.Snapshot()).(message := EatenByGhost, lives := old(round.lives) - 1) &&
                !alive
      ensures old(round.superMode) ==>
                round.Snapshot() == old(round.Snapshot()).(message := AteGhost, score := old(round.score) + 100) &&
                alive == old(alive)
    {
      if !round.superMode {
        round.SetMessage(EatenByGhost);
        round.DecrementLives();
        Die();
      } else {
        round.SetMessage(AteGhost);
        round.SetScore(round.score + 100);
      }
    }

    method SetPosition(y: int, x: int)
      modifies this`posY, this`posX
      ensures View() == old(View()).(y := y, x := x)
    {
      posY, posX := y, x;
    }

    /** Turning Pac-Man directly: the glyph follows the facing. */
    method SetDirection(dir: char)
      modifies this`direction, this`character
      ensures View() == old(View()).(direction := dir, character := dir)
    {
      direction, character := dir, dir;
    }

    method SetAlive(a: bool)
      modifies this`alive
      ensures View() == old(View()).(alive := a)
    {
      alive := a;
    }

    method Reset()
      modifies this
      ensures View() == Spawned
    {
      posY, posX := 15, 13;
      direction, character := '<', '<';
      alive := true;
    }

    method Die()
      modifies this`alive
      ensures View() == old(View()).(alive := false)
    {
      alive := false;
    }

    method Respawn()
      modifies this
      ensures View() == Spawned
    {
      ResetPosition();
      alive := true;
    }

    method ResetPosition()
      modifies this`posY, this`posX, this`direction, this`character
      ensures View() == Spawned.(alive := old(alive))
    {
      posY, posX := 15, 13;
      direction, character := '<', '<';
    }
  }
}
