/** The ghosts of src/ghost.cpp and src/headers/ghost.hpp: four identities
    with their own glyph, spawn point, starting facing and target rule,
    the table of cells a ghost may enter, the prioritised no-reverse choice
    of a new facing with its random fallback, and the move step. */
module Ghosts {
  import opened Grid
  import Round

  datatype GhostType = Blinky | Pinky | Inky | Clyde

  datatype Direction = Up | Down | Right | Left

  /** The integer encoding of a direction. */
  function Code(d: Direction): (n: int)
    ensures 1 <= n <= 4
  {
    match d
    case Up => 1
    case Down => 2
    case Right => 3
    case Left => 4
  }

  /** The direction an integer in 1..4 encodes. */
  function FromCode(n: int): (d: Direction)
    requires 1 <= n <= 4
    ensures Code(d) == n
  {
    if n == 1 then Up else if n == 2 then Down else if n == 3 then Right else Left
  }

  /** The fallback direction drawn from a value of the C library generator, which
      is never negative: its remainder by 4, plus one, always encodes a direction. */
  function RandomDirection(rnd: nat): (d: Direction)
    ensures Code(d) == rnd % 4 + 1
  {
    FromCode(rnd % 4 + 1)
  }

  /** Every direction is a possible fallback. */
  lemma RandomDirectionCoversAll(d: Direction)
    ensures exists rnd: nat :: RandomDirection(rnd) == d
  {
    var rnd: nat := Code(d) - 1;
    assert RandomDirection(rnd) == d;
  }

  function Reverse(d: Direction): Direction {
    match d
    case Up => Down
    case Down => Up
    case Right => Left
    case Left => Right
  }

  /** The glyph a ghost of each identity shows on the grid. */
  function Glyph(k: GhostType): (c: char)
    ensures IsGhostSymbol(c)
  {
    match k
    case Blinky => 'M'
    case Pinky => 'W'
    case Inky => 'Y'
    case Clyde => 'U'
  }

  /** The spawn cell of each identity. */
  function SpawnOf(k: GhostType): (s: (int, int))
    ensures IsValidPosition(s.0, s.1) && 9 <= s.0 <= 10 && 12 <= s.1 <= 14
  {
    match k
    case Blinky => (9, 12)
    case Pinky => (9, 14)
    case Inky => (10, 12)
    case Clyde => (10, 14)
  }

  /** The facing of each identity at spawn. */
  function Heading(k: GhostType): (d: Direction)
    ensures var (y, x) := Offset(d, SpawnOf(k).0, SpawnOf(k).1);
      8 <= y <= 10 && 12 <= x <= 14
  {
    match k
    case Blinky => Up
    case Pinky => Down
    case Inky => Right
    case Clyde => Left
  }

  /** The four identities are told apart by glyph, by spawn cell and by
      starting facing. */
  lemma IdentitiesDistinct(k1: GhostType, k2: GhostType)
    ensures k1 != k2 ==> Glyph(k1) != Glyph(k2) && SpawnOf(k1) != SpawnOf(k2) && Heading(k1) != Heading(k2)
  {
  }

  /** Each spawn cell is open floor of the level layout, and so is the cell the
      starting facing points at. */
  lemma SpawnsAreOpen(k: GhostType)
    ensures Layout(Level1)[SpawnOf(k).0][SpawnOf(k).1] == ' '
    ensures var (y, x) := Offset(Heading(k), SpawnOf(k).0, SpawnOf(k).1);
      IsValidPosition(y, x) && CanEnter(Layout(Level1)[y][x])
  {
  }

  /** The cell one step in a direction. */
  function Offset(d: Direction, y: int, x: int): (r: (int, int))
    ensures Adjacent(y, x, r.0, r.1)
  {
    match d
    case Up => (y - 1, x)
    case Down => (y + 1, x)
    case Right => (y, x + 1)
    case Left => (y, x - 1)
  }

  lemma ReverseUndoesOffset(d: Direction, y: int, x: int)
    ensures Offset(Reverse(d), Offset(d, y, x).0, Offset(d, y, x).1) == (y, x)
    ensures Reverse(Reverse(d)) == d && Reverse(d) != d
  {
  }

  /** The cells a ghost may enter: not Pac-Man, a wall, another ghost or a
      portal; dots, super pellets and every other symbol are open. */
  function CanEnter(c: char): (r: bool)
    ensures r <==> !(IsPacmanSymbol(c) || IsWallSymbol(c) || IsGhostSymbol(c) || IsPortalSymbol(c))
    ensures IsDotSymbol(c) || IsSuperPelletSymbol(c) || c == ' ' || c == '\0' ==> r
  {
    match c
    case 'v' | '>' | '<' | '^' => false
    case 'O' | '.' => true
    case '#' | 'M' | 'W' | 'Y' | 'U' => false
    case '[' | ']' => false
    case _ => true
  }

  /** The cell a ghost heads for: outside super mode Pinky leads Pac-Man by two
      rows and two columns and the others chase Pac-Man's cell; in super mode
      every ghost heads for Pac-Man's cell mirrored through (15/2, 15/2). */
  function Target(k: GhostType, py: int, px: int, superMode: bool): (t: (int, int))
    ensures superMode ==> t.0 + py == 15 && t.1 + px == 15
    ensures !superMode && k == Pinky ==> t == (py + 2, px + 2)
    ensures !superMode && k != Pinky ==> t == (py, px)
  {
    if superMode then (15 - py, 15 - px)
    else match k
      case Blinky => (py, px)
      case Pinky => (py + 2, px + 2)
      case Inky => (py, px)
      case Clyde => (py, px)
  }

  /** The prioritised choice toward a target dY rows up and dX columns left:
      up, left, down, right, each only when it is not the reverse of the current
      facing, its neighbour can be entered and the target lies that way. */
  function Cascade(dir: Direction, dY: int, dX: int, up: char, down: char, left: char, right: char): (r: Direction)
    ensures r != Reverse(dir)
    ensures r == dir || (r == Up && CanEnter(up) && dY > 0) || (r == Left && CanEnter(left) && dX > 0) ||
            (r == Down && CanEnter(down) && dY < 0) || (r == Right && CanEnter(right) && dX < 0)
  {
    if dir != Down && CanEnter(up) && dY > 0 then Up
    else if dir != Right && CanEnter(left) && dX > 0 then Left
    else if dir != Up && CanEnter(down) && dY < 0 then Down
    else if dir != Left && CanEnter(right) && dX < 0 then Right
    else dir
  }

  /** The new facing of a ghost at (cy, cx) aiming at (ty, tx): the cascade's
      choice, or the random fallback when that leaves the facing unchanged. */
  function Steer(b: Board, dir: Direction, ty: int, tx: int, cy: int, cx: int, rnd: nat): (s: Direction)
    requires WellFormed(b)
    ensures s == dir || s == Reverse(dir) ==> s == RandomDirection(rnd)
  {
    var nd := Cascade(dir, cy - ty, cx - tx,
                      Get(b, cy - 1, cx), Get(b, cy + 1, cx), Get(b, cy, cx - 1), Get(b, cy, cx + 1));
    if nd == dir then RandomDirection(rnd) else nd
  }

  /** The cascade never picks the reverse of the facing; anything it picks other
      than the facing is open and lies toward the target; and a direction is
      only picked when every direction before it in the order was unavailable. */
  lemma CascadeChoice(dir: Direction, dY: int, dX: int, up: char, down: char, left: char, right: char)
    ensures var r := Cascade(dir, dY, dX, up, down, left, right);
      var upOk := dir != Down && CanEnter(up) && dY > 0;
      var leftOk := dir != Right && CanEnter(left) && dX > 0;
      var downOk := dir != Up && CanEnter(down) && dY < 0;
      var rightOk := dir != Left && CanEnter(right) && dX < 0;
      r != Reverse(dir) &&
      (r == Up ==> upOk || dir == Up) &&
      (r == Left ==> !upOk && (leftOk || dir == Left)) &&
      (r == Down ==> !upOk && !leftOk && (downOk || dir == Down)) &&
      (r == Right ==> !upOk && !leftOk && !downOk && (rightOk || dir == Right)) &&
      (upOk ==> r == Up) &&
      (r == dir <==> (upOk ==> dir == Up) && (!upOk && leftOk ==> dir == Left) &&
                     (!upOk && !leftOk && downOk ==> dir == Down) &&
                     (!upOk && !leftOk && !downOk && rightOk ==> dir == Right))
  {
  }

  /** A ghost turns back only through the random fallback, and it keeps its
      facing only when the random draw happens to return it. */
  lemma SteerReversesOnlyAtRandom(b: Board, dir: Direction, ty: int, tx: int, cy: int, cx: int, rnd: nat)
    requires WellFormed(b)
    ensures var nd := Cascade(dir, cy - ty, cx - tx,
                              Get(b, cy - 1, cx), Get(b, cy + 1, cx), Get(b, cy, cx - 1), Get(b, cy, cx + 1));
      var s := Steer(b, dir, ty, tx, cy, cx, rnd);
      (nd == dir ==> s == RandomDirection(rnd)) &&
      (s == Reverse(dir) ==> nd == dir && RandomDirection(rnd) == Reverse(dir)) &&
      (s == dir ==> RandomDirection(rnd) == dir)
  {
    CascadeChoice(dir, cy - ty, cx - tx,
                  Get(b, cy - 1, cx), Get(b, cy + 1, cx), Get(b, cy, cx - 1), Get(b, cy, cx + 1));
  }

  /** A snapshot of a ghost's fields. */
  datatype GhostView = GhostView(y: int, x: int, kind: GhostType, character: char, direction: Direction, alive: bool)

  datatype Moved = Moved(board: Board, view: GhostView)

  /** The move step: leave the cell, enter the next one when it can be entered
      (teleporting on a portal), otherwise stay and pick a new facing. */
  function GhostMove(b: Board, g: GhostView, rnd: nat): (m: Moved)
    requires WellFormed(b)
    ensures WellFormed(m.board)
  {
    if !g.alive then Moved(b, g)
    else
      var cleared := Set(b, g.y, g.x, ' ');
      var (ny, nx) := Offset(g.direction, g.y, g.x);
      var next := Get(cleared, ny, nx);
      if CanEnter(next) then
        var x := PortalColumn(next, nx);
        Moved(Set(cleared, ny, x, g.character), g.(y := ny, x := x))
      else
        var d := Steer(cleared, g.direction, ny, nx, g.y, g.x, rnd);
        Moved(Set(cleared, g.y, g.x, g.character), g.(direction := d))
  }

  /** One ghost update: aim at the target, turn, then move. */
  function GhostUpdate(b: Board, g: GhostView, py: int, px: int, superMode: bool, rnd1: nat, rnd2: nat): (m: Moved)
    requires WellFormed(b)
    ensures WellFormed(m.board)
    ensures m.view.kind == g.kind && m.view.character == g.character && m.view.alive == g.alive
  {
    if !g.alive then Moved(b, g)
    else
      var (ty, tx) := Target(g.kind, py, px, superMode);
      GhostMove(b, g.(direction := Steer(b, g.direction, ty, tx, g.y, g.x, rnd1)), rnd2)
  }

  /** Back to the identity's spawn cell and facing, alive. */
  function ResetGhost(g: GhostView): (r: GhostView)
    ensures (r.y, r.x) == SpawnOf(g.kind) && r.direction == Heading(g.kind) && r.alive
    ensures r.kind == g.kind && r.character == g.character
  {
    g.(y := SpawnOf(g.kind).0, x := SpawnOf(g.kind).1, direction := Heading(g.kind), alive := true)
  }

  // Properties of one move

  /** A ghost that is not alive does not move, turn or touch the grid. */
  lemma DeadGhostIsInert(b: Board, g: GhostView, py: int, px: int, superMode: bool, rnd1: nat, rnd2: nat)
    requires WellFormed(b) && !g.alive
    ensures GhostUpdate(b, g, py, px, superMode, rnd1, rnd2) == Moved(b, g)
  {
  }

  /** A ghost that steps from a cell without a dot onto a dot covers it with its
      glyph, and the dot is gone from the grid: it is never counted as eaten. */
  lemma GhostErasesDot(b: Board, g: GhostView, rnd: nat)
    requires WellFormed(b) && g.alive && IsGhostSymbol(g.character) && !IsDotSymbol(Get(b, g.y, g.x))
    requires IsDotSymbol(Get(b, Offset(g.direction, g.y, g.x).0, Offset(g.direction, g.y, g.x).1))
    ensures var m := GhostMove(b, g, rnd);
      (m.view.y, m.view.x) == Offset(g.direction, g.y, g.x) &&
      Get(m.board, m.view.y, m.view.x) == g.character &&
      DotCount(m.board) + 1 == DotCount(b)
  {
    var (ny, nx) := Offset(g.direction, g.y, g.x);
    var cleared := Set(b, g.y, g.x, ' ');
    SetFrame(b, g.y, g.x, ' ', ny, nx);
    SetDotCount(b, g.y, g.x, ' ');
    SetDotCount(cleared, ny, nx, g.character);
    SetFrame(cleared, ny, nx, g.character, ny, nx);
  }

  /** Moving into an open cell advances exactly one step: a ghost never enters a
      portal, so it never teleports. Its old cell is left blank and its glyph
      is in the new cell; every other cell is as before. */
  lemma GhostAdvances(b: Board, g: GhostView, rnd: nat, i: int, j: int)
    requires WellFormed(b) && g.alive
    requires CanEnter(Get(b, Offset(g.direction, g.y, g.x).0, Offset(g.direction, g.y, g.x).1))
    ensures var m := GhostMove(b, g, rnd);
      var (ny, nx) := Offset(g.direction, g.y, g.x);
      m.view == g.(y := ny, x := nx) &&
      (IsValidPosition(ny, nx) ==> Get(m.board, ny, nx) == g.character) &&
      (IsValidPosition(g.y, g.x) ==> Get(m.board, g.y, g.x) == ' ') &&
      ((i, j) != (g.y, g.x) && (i, j) != (ny, nx) ==> Get(m.board, i, j) == Get(b, i, j))
  {
    var (ny, nx) := Offset(g.direction, g.y, g.x);
    var cleared := Set(b, g.y, g.x, ' ');
    SetFrame(b, g.y, g.x, ' ', ny, nx);
    SetFrame(b, g.y, g.x, ' ', i, j);
    SetFrame(b, g.y, g.x, ' ', g.y, g.x);
    SetFrame(cleared, ny, nx, g.character, i, j);
    SetFrame(cleared, ny, nx, g.character, g.y, g.x);
  }

  /** Facing a cell it cannot enter, a ghost stays where it is, takes the facing
      the steering gives toward that very cell, and re-stamps its glyph. With
      the blocked cell itself as the target the cascade never turns, so the
      new facing is always the random draw. */
  lemma GhostBlocked(b: Board, g: GhostView, rnd: nat, i: int, j: int)
    requires WellFormed(b) && g.alive
    requires !CanEnter(Get(b, Offset(g.direction, g.y, g.x).0, Offset(g.direction, g.y, g.x).1))
    ensures var m := GhostMove(b, g, rnd);
      var (ny, nx) := Offset(g.direction, g.y, g.x);
      m.view == g.(direction := Steer(Set(b, g.y, g.x, ' '), g.direction, ny, nx, g.y, g.x, rnd)) &&
      m.view == g.(direction := RandomDirection(rnd)) &&
      Get(m.board, i, j) == (if IsValidPosition(g.y, g.x) && (i, j) == (g.y, g.x) then g.character else Get(b, i, j))
  {
    var (ny, nx) := Offset(g.direction, g.y, g.x);
    var cleared := Set(b, g.y, g.x, ' ');
    SetFrame(b, g.y, g.x, ' ', ny, nx);
    SetFrame(b, g.y, g.x, ' ', i, j);
    SetFrame(cleared, g.y, g.x, g.character, i, j);
  }

  /** A ghost update moves a ghost at most one cell, keeps its identity, and
      never puts a dot on the grid. */
  lemma GhostUpdateIsLocal(b: Board, g: GhostView, py: int, px: int, superMode: bool, rnd1: nat, rnd2: nat)
    requires WellFormed(b)
    ensures var m := GhostUpdate(b, g, py, px, superMode, rnd1, rnd2);
      WellFormed(m.board) &&
      ((m.view.y, m.view.x) == (g.y, g.x) || Adjacent(g.y, g.x, m.view.y, m.view.x)) &&
      m.view.kind == g.kind && m.view.character == g.character && m.view.alive == g.alive &&
      (!IsDotSymbol(g.character) ==> DotCount(m.board) <= DotCount(b))
  {
    if g.alive {
      var (ty, tx) := Target(g.kind, py, px, superMode);
      var g1 := g.(direction := Steer(b, g.direction, ty, tx, g.y, g.x, rnd1));
      var (ny, nx) := Offset(g1.direction, g.y, g.x);
      var cleared := Set(b, g.y, g.x, ' ');
      SetFrame(b, g.y, g.x, ' ', ny, nx);
      SetDotCount(b, g.y, g.x, ' ');
      var m := GhostMove(b, g1, rnd2);
      SetDotCount(cleared, m.view.y, m.view.x, g.character);
    }
  }

  /** A ghost's fields, updated in place. The identity and the glyph never change. */
  class Ghost {
    var posY: int
    var posX: int
    const kind: GhostType
    const character: char
    var direction: Direction
    var alive: bool

    function View(): GhostView
      reads this
    {
      GhostView(posY, posX, kind, character, direction, alive)
    }

    /** A ghost of identity t at (y, x), with the identity's glyph and facing. */
    constructor (t: GhostType, y: int, x: int)
      ensures View() == GhostView(y, x, t, Glyph(t), Heading(t), true)
    {
      posY, posX := y, x;
      kind := t;
      alive := true;
      match t {
        case Blinky =>
          character := 'M';
          direction := Up;
        case Pinky =>
          character := 'W';
          direction := Down;
        case Inky =>
          character := 'Y';
          direction := Right;
        case Clyde =>
          character := 'U';
          direction := Left;
      }
    }

    /** The default ghost: Blinky at its spawn cell. */
    constructor Default()
      ensures View() == GhostView(9, 12, Blinky, 'M', Up, true)
    {
      posY, posX := 9, 12;
      kind := Blinky;
      character := 'M';
      direction := Up;
      alive := true;
    }

    /** One scheduled update, given where Pac-Man is and whether super mode is on. */
    method Update(pacmanY: int, pacmanX: int, maze: Map, round: Round.RoundState, rnd1: nat, rnd2: nat)
      requires maze.Valid()
      modifies this, maze`cells, maze.level
      ensures maze.Valid()
      ensures Moved(maze.cells, View()) ==
              GhostUpdate(old(maze.cells), old(View()), pacmanY, pacmanX, round.superMode, rnd1, rnd2)
    {
      if !alive {
        return;
      }
      var (targetY, targetX) := Target(kind, pacmanY, pacmanX, round.superMode);
      MoveTowardsTarget(targetY, targetX, maze, rnd1, rnd2);
    }

    method MoveTowardsTarget(targetY: int, targetX: int, maze: Map, rnd1: nat, rnd2: nat)
      requires maze.Valid()
      modifies this, maze`cells, maze.level
      ensures maze.Valid()
      ensures Moved(maze.cells, View()) ==
              GhostMove(old(maze.cells),
                        old(View()).(direction := Steer(old(maze.cells), old(direction), targetY, targetX,
                                                        old(posY), old(posX), rnd1)),
                        rnd2)
    {
      ChangeDirection(targetY, targetX, posY, posX, maze, rnd1);
      Move(maze, rnd2);
    }

    method Move(maze: Map, rnd: nat)
      requires maze.Valid()
      modifies this, maze`cells, maze.level
      ensures maze.Valid()
      ensures Moved(maze.cells, View()) == GhostMove(old(maze.cells), old(View()), rnd)
    {
      if !alive {
        return;
      }
      maze.SetCell(posY, posX, ' ');
      var newY, newX := posY, posX;
      match direction {
        case Up => newY := newY - 1;
        case Down => newY := newY + 1;
        case Right => newX := newX + 1;
        case Left => newX := newX - 1;
      }
      var nextChar := maze.GetCell(newY, newX);
      if CanEnter(nextChar) {
        posY, posX := newY, newX;
        if maze.IsPortal(posY, posX) {
          // The teleport branch of Ghost::move cannot run: CanEnter refuses portals.
          assert false;
        }
      } else {
        ChangeDirection(newY, newX, posY, posX, maze, rnd);
      }
      maze.SetCell(posY, posX, character);
    }

    method ChangeDirection(targetY: int, targetX: int, currentY: int, currentX: int, maze: Map, rnd: nat)
      requires maze.Valid()
      modifies this`direction
      ensures direction == Steer(maze.cells, old(direction), targetY, targetX, currentY, currentX, rnd)
    {
      var currentDir := direction;
      var dY := currentY - targetY;
      var dX := currentX - targetX;
      var cUp := maze.GetCell(currentY - 1, currentX);
      var cDown := maze.GetCell(currentY + 1, currentX);
      var cLeft := maze.GetCell(currentY, currentX - 1);
      var cRight := maze.GetCell(currentY, currentX + 1);
      if direction != Down && CanEnter(cUp) && dY > 0 {
        direction := Up;
      } else if direction != Right && CanEnter(cLeft) && dX > 0 {
        direction := Left;
      } else if direction != Up && CanEnter(cDown) && dY < 0 {
        direction := Down;
      } else if direction != Left && CanEnter(cRight) && dX < 0 {
        direction := Right;
      }
      if direction == currentDir {
        direction := FromCode(rnd % 4 + 1);
      }
    }

    method RandomMove(maze: Map, rnd1: nat, rnd2: nat)
      requires maze.Valid()
      modifies this, maze`cells, maze.level
      ensures maze.Valid()
      ensures Moved(maze.cells, View()) ==
              GhostMove(old(maze.cells), old(View()).(direction := RandomDirection(rnd1)), rnd2)
    {
      direction := FromCode(rnd1 % 4 + 1);
      Move(maze, rnd2);
    }

    method Reset()
      modifies this`posY, this`posX, this`direction, this`alive
      ensures View() == ResetGhost(old(View()))
    {
      match kind {
        case Blinky =>
          posY, posX := 9, 12;
          direction := Up;
        case Pinky =>
          posY, posX := 9, 14;
          direction := Down;
        case Inky =>
          posY, posX := 10, 12;
          direction := Right;
        case Clyde =>
          posY, posX := 10, 14;
          direction := Left;
      }
      alive := true;
    }

    method SetPosition(y: int, x: int)
      modifies this`posY, this`posX
      ensures View() == old(View()).(y := y, x := x)
    {
      posY, posX := y, x;
    }

    method SetDirection(dir: Direction)
      modifies this`direction
      ensures View() == old(View()).(direction := dir)
    {
      direction := dir;
    }

    method SetAlive(a: bool)
      modifies this`alive
      ensures View() == old(View()).(alive := a)
    {
      alive := a;
    }

    method Die()
      modifies this`alive
      ensures View() == old(View()).(alive := false)
    {
      alive := false;
    }

    method Respawn()
      modifies this`posY, this`posX, this`direction, this`alive
      ensures View() == ResetGhost(old(View()))
    {
      Reset();
    }
  }
}
