/** The maze of src/map.cpp: a fixed 21 x 28 grid of one-character cells,
    bounds-checked reads and writes, the symbol classes, the portal
    teleport and the two compiled-in levels. */
module Grid {

  const Height: int := 21
  const Width: int := 28

  /** The abstract contents of the grid: row-major, Height rows of Width cells. */
  type Board = seq<seq<char>>

  predicate WellFormed(b: Board) {
    |b| == Height && forall y :: 0 <= y < Height ==> |b[y]| == Width
  }

  predicate IsValidPosition(y: int, x: int) {
    0 <= y < Height && 0 <= x < Width
  }

  /** (y', x') is one of the four orthogonal neighbours of (y, x). */
  predicate Adjacent(y: int, x: int, y': int, x': int) {
    (y' == y && (x' == x + 1 || x' == x - 1)) || (x' == x && (y' == y + 1 || y' == y - 1))
  }

  /** Clamped read: every position off the grid reads as a wall. */
  function Get(b: Board, y: int, x: int): (c: char)
    requires WellFormed(b)
    ensures IsValidPosition(y, x) ==> c == b[y][x]
    ensures !IsValidPosition(y, x) ==> IsWallSymbol(c)
  {
    if IsValidPosition(y, x) then b[y][x] else '#'
  }

  /** The valid positions are exactly the cells of a well-formed grid, and
      getCell's own bounds test describes the same rectangle. */
  lemma ValidPositionsAreCells(b: Board, y: int, x: int)
    requires WellFormed(b)
    ensures IsValidPosition(y, x) <==> 0 <= y < |b| && 0 <= x < |b[y]|
    ensures !IsValidPosition(y, x) <==> y < 0 || y >= Height || x < 0 || x >= Width
  {
  }

  /** Bounds-checked write: off the grid it does nothing. */
  function Set(b: Board, y: int, x: int, c: char): (r: Board)
    requires WellFormed(b)
    ensures WellFormed(r)
  {
    if IsValidPosition(y, x) then b[y := b[y][x := c]] else b
  }

  /** A write changes the one cell it names, when that cell is on the grid,
      and every other read is as before. */
  lemma SetFrame(b: Board, y: int, x: int, c: char, y': int, x': int)
    requires WellFormed(b)
    ensures Get(Set(b, y, x, c), y', x') ==
            if IsValidPosition(y, x) && y' == y && x' == x then c else Get(b, y', x')
  {
  }

  // Symbol classes

  predicate IsWallSymbol(c: char) { c == '#' }
  predicate IsDotSymbol(c: char) { c == '.' }
  predicate IsSuperPelletSymbol(c: char) { c == 'O' }
  predicate IsPortalSymbol(c: char) { c == '[' || c == ']' }
  predicate IsGhostSymbol(c: char) { c == 'M' || c == 'W' || c == 'Y' || c == 'U' }
  predicate IsPacmanSymbol(c: char) { c == '<' || c == '>' || c == '^' || c == 'v' }

  /** No symbol belongs to two classes, and off the grid everything is a wall. */
  lemma SymbolClassesDisjoint(b: Board, y: int, x: int)
    requires WellFormed(b)
    ensures var c := Get(b, y, x);
      (if IsWallSymbol(c) then 1 else 0) + (if IsDotSymbol(c) then 1 else 0) +
      (if IsSuperPelletSymbol(c) then 1 else 0) + (if IsPortalSymbol(c) then 1 else 0) +
      (if IsGhostSymbol(c) then 1 else 0) + (if IsPacmanSymbol(c) then 1 else 0) <= 1
    ensures !IsValidPosition(y, x) ==> IsWallSymbol(Get(b, y, x)) && !IsPortalSymbol(Get(b, y, x))
  {
  }

  /** The column a portal sends an entity to; any other cell keeps the column. */
  function PortalColumn(c: char, x: int): (nx: int)
    ensures c == '[' ==> nx == 26
    ensures c == ']' ==> nx == 0
    ensures !IsPortalSymbol(c) ==> nx == x
  {
    if c == '[' then 26 else if c == ']' then 0 else x
  }

  /** The terminal text of a wall; the block glyph itself is outside this model. */
  const BlockFull: string := "\U{2588}"

  /** What the map renderer prints for a cell symbol. */
  function Render(c: char): (s: string)
    ensures IsWallSymbol(c) <==> s == BlockFull
    ensures !IsWallSymbol(c) ==> |s| == 1
    ensures s == " " <==> !(IsWallSymbol(c) || IsDotSymbol(c) || IsSuperPelletSymbol(c) || IsPortalSymbol(c))
    ensures IsDotSymbol(c) <==> s == "."
    ensures IsSuperPelletSymbol(c) <==> s == "o"
    ensures IsPortalSymbol(c) ==> s == [c]
  {
    match c
    case '#' => BlockFull
    case '.' => "."
    case 'O' => "o"
    case '[' => "["
    case ']' => "]"
    case _ => " "
  }

  // The compiled-in levels

  /** The rows of level 1 as written: 27 characters each. */
  const Level1: seq<string> := [
    "###########################",
    "#O..........###..........O#",
    "#....#################....#",
    "#.........................#",
    "#.######.#########.######.#",
    "[......#.....#.....#......]",
    "######....#######....######",
    "#O.....#           #.....O#",
    "######.#           #.######",
    "[......             ......]",
    "######.#           #.######",
    "#O.....#           #.....O#",
    "######.#..#######..#.######",
    "[.........................]",
    "#.####.#############.####.#",
    "#............<............#",
    "######...###...###...######",
    "#....#...###...###...#....#",
    "#O.......................O#",
    "#..........#####..........#",
    "###########################"
  ]

  /** The rows of level 2 as written. */
  const Level2: seq<string> := [
    "###########################",
    "#O..........###..........O#",
    "#....#################....#",
    "#.........................#",
    "#.######.#########.######.#",
    "[......#.....#.....#......]",
    "######....#######....######",
    "#O.....#           #.....O#",
    "######.#           #.######",
    "[......             ......]",
    "######.#           #.######",
    "#O.....#           #.....O#",
    "######.#..#######..#.######",
    "[.........................]",
    "#.####.#############.####.#",
    "#............<............#",
    "######...###...###...######",
    "#....#...###...###...#....#",
    "#O.......................O#",
    "#..........#####..........#",
    "###########################"
  ]

  /** A row of a char[Height][Width] array initialised from a string literal:
      the characters of the literal, then zero fill. */
  function LayoutRow(s: string): seq<char> {
    seq(Width, x requires 0 <= x < Width => if x < |s| then s[x] else '\0')
  }

  /** The char[Height][Width] array initialised from the level rows. */
  function Layout(rows: seq<string>): Board
    requires |rows| == Height
  {
    seq(Height, y requires 0 <= y < Height => LayoutRow(rows[y]))
  }

  predicate KnownLevel(n: int) { n == 1 || n == 2 }

  function LevelRows(n: int): seq<string>
    requires KnownLevel(n)
  {
    if n == 1 then Level1 else Level2
  }

  function LevelMaxDots(n: int): int
    requires KnownLevel(n)
  {
    if n == 1 then 210 else 251
  }

  /** Both levels are the same layout, a well-formed grid whose last column
      (beyond the 27 written characters) is the zero character. */
  lemma LevelsShape(n: int)
    requires KnownLevel(n)
    ensures |LevelRows(n)| == Height
    ensures LevelRows(n) == Level1 && Layout(LevelRows(n)) == Layout(Level1)
    ensures WellFormed(Layout(LevelRows(n)))
    ensures forall y :: 0 <= y < Height ==> Layout(LevelRows(n))[y][Width - 1] == '\0'
    ensures LevelMaxDots(1) == 210 && LevelMaxDots(2) == 251
  {
    forall y | 0 <= y < Height
      ensures |Level1[y]| == Width - 1
    {
    }
  }

  // Counting the dots on a grid

  function RowDots(s: seq<char>): nat {
    if s == [] then 0 else RowDots(s[..|s| - 1]) + (if s[|s| - 1] == '.' then 1 else 0)
  }

  function DotCount(b: Board): nat {
    if b == [] then 0 else DotCount(b[..|b| - 1]) + RowDots(b[|b| - 1])
  }

  lemma {:induction false} RowDotsUpdate(s: seq<char>, i: int, c: char)
    requires 0 <= i < |s|
    ensures RowDots(s[i := c]) + (if s[i] == '.' then 1 else 0) ==
            RowDots(s) + (if c == '.' then 1 else 0)
  {
    var t := s[i := c];
    if i < |s| - 1 {
      assert t[..|t| - 1] == s[..|s| - 1][i := c];
      RowDotsUpdate(s[..|s| - 1], i, c);
    } else {
      assert t[..|t| - 1] == s[..|s| - 1];
    }
  }

  lemma {:induction false} DotCountUpdate(b: Board, y: int, r: seq<char>)
    requires 0 <= y < |b|
    ensures DotCount(b[y := r]) + RowDots(b[y]) == DotCount(b) + RowDots(r)
  {
    var t := b[y := r];
    if y < |b| - 1 {
      assert t[..|t| - 1] == b[..|b| - 1][y := r];
      DotCountUpdate(b[..|b| - 1], y, r);
    } else {
      assert t[..|t| - 1] == b[..|b| - 1];
    }
  }

  /** Writing one cell changes the number of dots on the grid by what was
      overwritten and what was written, and by nothing else. */
  lemma SetDotCount(b: Board, y: int, x: int, c: char)
    requires WellFormed(b)
    ensures DotCount(Set(b, y, x, c)) + (if IsDotSymbol(Get(b, y, x)) && IsValidPosition(y, x) then 1 else 0) ==
            DotCount(b) + (if IsDotSymbol(c) && IsValidPosition(y, x) then 1 else 0)
  {
    if IsValidPosition(y, x) {
      RowDotsUpdate(b[y], x, c);
      DotCountUpdate(b, y, b[y][x := c]);
    }
  }

  /** The grid of one level in memory, written in place. */
  class Map {
    var level: array2<char>
    var maxDots: int
    var currentLevel: int
    ghost var cells: Board

    ghost predicate Valid()
      reads this, level
    {
      level.Length0 == Height && level.Length1 == Width && WellFormed(cells) &&
      forall y, x :: 0 <= y < Height && 0 <= x < Width ==> level[y, x] == cells[y][x]
    }

    /** The dot total is the declared total of the recorded level, when that is 1 or 2. */
    predicate TotalMatchesLevel()
      reads this
    {
      KnownLevel(currentLevel) ==> maxDots == LevelMaxDots(currentLevel)
    }

    /** The default map: level 1. */
    constructor ()
      ensures Valid() && fresh(level) && TotalMatchesLevel()
      ensures currentLevel == 1 && maxDots == 210 && cells == Layout(Level1)
    {
      level := new char[Height, Width]((y, x) => ' ');
      maxDots := 0;
      currentLevel := 1;
      cells := seq(Height, y => seq(Width, x => ' '));
      new;
      LoadLevel(1);
    }

    /** A map for the given level; a level other than 1 or 2 leaves the grid
        as allocated and the dot total at zero. */
    constructor WithLevel(n: int)
      ensures Valid() && fresh(level) && TotalMatchesLevel() && currentLevel == n
      ensures KnownLevel(n) ==> cells == Layout(LevelRows(n)) && maxDots == LevelMaxDots(n)
      ensures !KnownLevel(n) ==> maxDots == 0
    {
      level := new char[Height, Width]((y, x) => ' ');
      maxDots := 0;
      currentLevel := n;
      cells := seq(Height, y => seq(Width, x => ' '));
      new;
      LoadLevel(n);
    }

    /** Records the level number and, for a known level, copies its layout
        into the grid and sets its dot total. */
    method LoadLevel(n: int)
      requires Valid()
      modifies this`cells, this`maxDots, this`currentLevel, level
      ensures Valid() && TotalMatchesLevel() && currentLevel == n
      ensures n == 1 ==> cells == Layout(Level1) && maxDots == 210
      ensures n == 2 ==> cells == Layout(Level2) && maxDots == 251
      ensures !KnownLevel(n) ==> cells == old(cells) && maxDots == old(maxDots)
    {
      currentLevel := n;
      if n == 1 {
        LoadLevel1();
      } else if n == 2 {
        LoadLevel2();
      }
    }

    method LoadLevel1()
      requires Valid()
      modifies this`cells, this`maxDots, level
      ensures Valid() && cells == Layout(Level1) && maxDots == 210
    {
      CopyLayout(Level1);
      maxDots := 210;
    }

    method LoadLevel2()
      requires Valid()
      modifies this`cells, this`maxDots, level
      ensures Valid() && cells == Layout(Level2) && maxDots == 251
    {
      CopyLayout(Level2);
      maxDots := 251;
    }

    /** The nested copy loop of both level loaders. */
    method CopyLayout(rows: seq<string>)
      requires Valid() && |rows| == Height
      modifies this`cells, level
      ensures Valid() && cells == Layout(rows)
    {
      var layout := Layout(rows);
      for y := 0 to Height
        invariant forall i, j :: 0 <= i < y && 0 <= j < Width ==> level[i, j] == layout[i][j]
      {
        for x := 0 to Width
          invariant forall i, j :: 0 <= i < y && 0 <= j < Width ==> level[i, j] == layout[i][j]
          invariant forall j :: 0 <= j < x ==> level[y, j] == layout[y][j]
        {
          level[y, x] := layout[y][x];
        }
      }
      cells := layout;
    }

    /** Reloads the current level: the grid becomes a fresh copy of its layout. */
    method Reset()
      requires Valid()
      modifies this`cells, this`maxDots, this`currentLevel, level
      ensures Valid() && TotalMatchesLevel() && currentLevel == old(currentLevel)
      ensures KnownLevel(currentLevel) ==>
                cells == Layout(LevelRows(currentLevel)) && maxDots == LevelMaxDots(currentLevel)
      ensures !KnownLevel(currentLevel) ==> cells == old(cells) && maxDots == old(maxDots)
    {
      LoadLevel(currentLevel);
    }

    function GetCell(y: int, x: int): (c: char)
      reads this, level
      requires Valid()
      ensures c == Get(cells, y, x)
      ensures !IsValidPosition(y, x) ==> c == '#'
    {
      if y < 0 || y >= Height || x < 0 || x >= Width then '#' else level[y, x]
    }

    method SetCell(y: int, x: int, c: char)
      requires Valid()
      modifies this`cells, level
      ensures Valid()
      ensures cells == Set(old(cells), y, x, c)
      ensures forall i, j :: Get(cells, i, j) ==
                if IsValidPosition(y, x) && i == y && j == x then c else Get(old(cells), i, j)
    {
      if IsValidPosition(y, x) {
        level[y, x] := c;
        cells := cells[y := cells[y][x := c]];
      }
    }

    function IsWall(y: int, x: int): (r: bool)
      reads this, level
      requires Valid()
      ensures r <==> IsWallSymbol(Get(cells, y, x))
    {
      GetCell(y, x) == '#'
    }

    function IsDot(y: int, x: int): (r: bool)
      reads this, level
      requires Valid()
      ensures r <==> IsDotSymbol(Get(cells, y, x))
    {
      GetCell(y, x) == '.'
    }

    function IsSuperPellet(y: int, x: int): (r: bool)
      reads this, level
      requires Valid()
      ensures r <==> IsSuperPelletSymbol(Get(cells, y, x))
    {
      GetCell(y, x) == 'O'
    }

    function IsPortal(y: int, x: int): (r: bool)
      reads this, level
      requires Valid()
      ensures r <==> IsPortalSymbol(Get(cells, y, x))
    {
      var cell := GetCell(y, x);
      cell == '[' || cell == ']'
    }

    function IsGhost(y: int, x: int): (r: bool)
      reads this, level
      requires Valid()
      ensures r <==> IsGhostSymbol(Get(cells, y, x))
    {
      var cell := GetCell(y, x);
      cell == 'M' || cell == 'W' || cell == 'Y' || cell == 'U'
    }

    function IsPacman(y: int, x: int): (r: bool)
      reads this, level
      requires Valid()
      ensures r <==> IsPacmanSymbol(Get(cells, y, x))
    {
      var cell := GetCell(y, x);
      cell == '<' || cell == '>' || cell == '^' || cell == 'v'
    }

    /** The teleport: on a left portal the column becomes 26, on a right portal 0;
        the row never changes. */
    method HandlePortal(y: int, x: int) returns (ny: int, nx: int)
      requires Valid()
      ensures ny == y
      ensures nx == PortalColumn(Get(cells, y, x), x)
      ensures Get(cells, y, x) == '[' ==> nx == 26
      ensures Get(cells, y, x) == ']' ==> nx == 0
      ensures !IsPortalSymbol(Get(cells, y, x)) ==> nx == x
    {
      ny, nx := y, x;
      var cell := GetCell(y, x);
      if cell == '[' {
        nx := 26;
      } else if cell == ']' {
        nx := 0;
      }
    }

    function RenderCell(y: int, x: int): (s: string)
      reads this, level
      requires Valid()
      ensures s == Render(Get(cells, y, x))
      ensures !IsValidPosition(y, x) ==> s == BlockFull
    {
      Render(GetCell(y, x))
    }

    function GetHeight(): (h: int)
      ensures h == Height && h == 21
    {
      Height
    }

    function GetWidth(): (w: int)
      ensures w == Width && w == 28
    {
      Width
    }

    /** The dot total of the level last loaded: the declared total whenever
        the level number is 1 or 2. */
    function GetMaxDots(): (d: int)
      reads this
      requires TotalMatchesLevel()
      ensures KnownLevel(currentLevel) ==> d == LevelMaxDots(currentLevel)
    {
      maxDots
    }

    /** The level number last recorded; for level 1 or 2 the dot total is that level's. */
    function GetCurrentLevel(): (n: int)
      reads this
      requires TotalMatchesLevel()
      ensures KnownLevel(n) ==> maxDots == LevelMaxDots(n)
    {
      currentLevel
    }
  }
}
