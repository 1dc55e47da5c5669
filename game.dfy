/** The Gomoku rules engine: a 15x15 board, the side to move, move
    application and the longest-run check that follows every placement. */
module Game {

  datatype Option<T> = None | Some(value: T)

  datatype Piece = Empty | White | Black

  /** A side that can be on move; `Empty` never is. */
  type Side = p: Piece | p != Empty witness Black

  datatype GameEnd = NotEnd | Win | Lost

  /** The outcome of a move: the single error kind is an invalid move. */
  datatype MoveResult = Ok(outcome: GameEnd) | InvalidMove

  type Point = (nat, nat)

  const Size: int := 15

  /** A board value: 15 columns of 15 cells, indexed `b[x][y]`. */
  type Board = b: seq<seq<Piece>> | |b| == Size && forall x | 0 <= x < |b| :: |b[x]| == Size
    witness seq(15, _ => seq(15, _ => Empty))

  /** The value of a game state: the board and the side to move. */
  datatype State = State(board: Board, turn: Side)

  function EmptyBoard(): (b: Board)
    ensures forall x, y | 0 <= x < Size && 0 <= y < Size :: b[x][y] == Empty
  {
    seq(15, _ => seq(15, _ => Empty))
  }

  /** The state of a new game: an empty board with Black to move. */
  function Initial(): State
  {
    State(EmptyBoard(), Black)
  }

  predicate InBounds(x: int, y: int)
  {
    0 <= x < Size && 0 <= y < Size
  }

  function Opponent(p: Side): (q: Side)
    ensures q != p
  {
    if p == Black then White else Black
  }

  /** A move is legal when it is on the board and targets an empty cell. */
  predicate Legal(s: State, p: Point)
  {
    p.0 < Size && p.1 < Size && s.board[p.0][p.1] == Empty
  }

  /** The state after a legal move: the mover's piece at `p`, the other side to move. */
  function Place(s: State, p: Point): (r: State)
    requires Legal(s, p)
    ensures r.board[p.0][p.1] == s.turn && r.turn == Opponent(s.turn)
    ensures forall x, y | 0 <= x < Size && 0 <= y < Size && (x, y) != p :: r.board[x][y] == s.board[x][y]
  {
    State(s.board[p.0 := s.board[p.0][p.1 := s.turn]], Opponent(s.turn))
  }

  // ---------------------------------------------------------------------------
  // Walking along a direction

  /** A step direction: each component in -1..1, not both zero. */
  predicate IsDir(dx: int, dy: int)
  {
    -1 <= dx <= 1 && -1 <= dy <= 1 && (dx != 0 || dy != 0)
  }

  /** The four axes the run check looks along, in the order the source tries them. */
  const Axes: seq<(int, int)> := [(1, 0), (0, 1), (1, 1), (1, -1)]

  /** How many steps along `(dx, dy)` the leading non-zero component can still take. */
  function Room(x: int, y: int, dx: int, dy: int): nat
    requires InBounds(x, y) && IsDir(dx, dy)
  {
    if dx == 1 then 14 - x else if dx == -1 then x else if dy == 1 then 14 - y else y
  }

  /** The coordinate `k` steps from `x` along component `dx`. */
  function Off(x: int, dx: int, k: nat): int
  {
    if dx == 1 then x + k else if dx == -1 then x - k else x
  }

  /** One step along `dx` then `k` more is `k + 1` steps; one step is `x + dx`.
      An arithmetic step for the `Ray` lemmas (`RayCellHolds`, `RayStops`) and `CellAt`. */
  lemma OffShift(x: int, dx: int, k: nat)
    requires -1 <= dx <= 1
    ensures Off(x + dx, dx, k) == Off(x, dx, k + 1) && Off(x, dx, 1) == x + dx
  {
  }

  /** A step that stays on the board uses up one step of room; the termination
      step of `RayStops`, `CellsReachEdge` and `SwappedCells`. */
  lemma RoomStep(x: int, y: int, dx: int, dy: int)
    requires InBounds(x, y) && IsDir(dx, dy) && InBounds(x + dx, y + dy)
    ensures Room(x + dx, y + dy, dx, dy) == Room(x, y, dx, dy) - 1
  {
  }

  /** The number of consecutive cells holding `piece` met when stepping from
      `(x, y)` along `(dx, dy)`, the start cell excluded. */
  function Ray(b: Board, x: int, y: int, dx: int, dy: int, piece: Piece): (n: nat)
    requires InBounds(x, y) && IsDir(dx, dy)
    decreases Room(x, y, dx, dy)
  {
    if InBounds(x + dx, y + dy) && b[x + dx][y + dy] == piece
    then 1 + Ray(b, x + dx, y + dy, dx, dy, piece)
    else 0
  }

  /** `Ray` never leaves the board: it is bounded by the room along the direction. */
  lemma {:induction false} RayWithinRoom(b: Board, x: int, y: int, dx: int, dy: int, piece: Piece)
    requires InBounds(x, y) && IsDir(dx, dy)
    ensures Ray(b, x, y, dx, dy, piece) <= Room(x, y, dx, dy)
    decreases Room(x, y, dx, dy)
  {
    if InBounds(x + dx, y + dy) && b[x + dx][y + dy] == piece {
      RayWithinRoom(b, x + dx, y + dy, dx, dy, piece);
    }
  }

  /** Every cell within `Ray` steps of the start holds `piece`. */
  lemma {:induction false} RayCellHolds(b: Board, x: int, y: int, dx: int, dy: int, piece: Piece, k: nat)
    requires InBounds(x, y) && IsDir(dx, dy)
    requires 1 <= k <= Ray(b, x, y, dx, dy, piece)
    ensures InBounds(Off(x, dx, k), Off(y, dy, k)) && b[Off(x, dx, k)][Off(y, dy, k)] == piece
    decreases k
  {
    assert Ray(b, x, y, dx, dy, piece) == 1 + Ray(b, x + dx, y + dy, dx, dy, piece);
    if k > 1 {
      RayCellHolds(b, x + dx, y + dy, dx, dy, piece, k - 1);
      OffShift(x, dx, k - 1);
      OffShift(y, dy, k - 1);
    } else {
      OffShift(x, dx, 0);
      OffShift(y, dy, 0);
    }
  }

  /** `(cx, cy)` is off the board or holds something other than `piece`. */
  predicate Blocked(b: Board, cx: int, cy: int, piece: Piece)
  {
    !InBounds(cx, cy) || b[cx][cy] != piece
  }

  /** The cell just past the `Ray` steps is off the board or holds something else. */
  lemma {:induction false} RayStops(b: Board, x: int, y: int, dx: int, dy: int, piece: Piece)
    requires InBounds(x, y) && IsDir(dx, dy)
    ensures var n := Ray(b, x, y, dx, dy, piece);
      Blocked(b, Off(x, dx, n + 1), Off(y, dy, n + 1), piece)
    decreases Room(x, y, dx, dy)
  {
    if InBounds(x + dx, y + dy) && b[x + dx][y + dy] == piece {
      RoomStep(x, y, dx, dy);
      RayStops(b, x + dx, y + dy, dx, dy, piece);
      var n := Ray(b, x + dx, y + dy, dx, dy, piece);
      assert Ray(b, x, y, dx, dy, piece) == n + 1;
      OffShift(x, dx, n + 1);
      OffShift(y, dy, n + 1);
    } else {
      assert Ray(b, x, y, dx, dy, piece) == 0;
      OffShift(x, dx, 0);
      OffShift(y, dy, 0);
    }
  }

  /** `Ray` is the length of the maximal contiguous run: the cells 1..n steps
      away hold `piece`, and the cell n+1 steps away is off the board or differs. */
  lemma RayIsMaximalRun(b: Board, x: int, y: int, dx: int, dy: int, piece: Piece)
    requires InBounds(x, y) && IsDir(dx, dy)
    ensures var n := Ray(b, x, y, dx, dy, piece);
      && (forall k | 1 <= k <= n ::
            InBounds(Off(x, dx, k), Off(y, dy, k)) && b[Off(x, dx, k)][Off(y, dy, k)] == piece)
      && Blocked(b, Off(x, dx, n + 1), Off(y, dy, n + 1), piece)
  {
    forall k | 1 <= k <= Ray(b, x, y, dx, dy, piece)
      ensures InBounds(Off(x, dx, k), Off(y, dy, k)) && b[Off(x, dx, k)][Off(y, dy, k)] == piece
    {
      RayCellHolds(b, x, y, dx, dy, piece, k);
    }
    RayStops(b, x, y, dx, dy, piece);
  }

  lemma AxesAreDirs(i: nat)
    requires i < |Axes|
    ensures IsDir(Axes[i].0, Axes[i].1) && IsDir(-Axes[i].0, -Axes[i].1)
  {
  }

  /** The length of the run of `piece` through `(x, y)` along axis `d`,
      counting the centre cell once whatever it holds. */
  function AxisRun(b: Board, x: int, y: int, d: (int, int), piece: Piece): nat
    requires InBounds(x, y) && IsDir(d.0, d.1)
  {
    1 + Ray(b, x, y, d.0, d.1, piece) + Ray(b, x, y, -d.0, -d.1, piece)
  }

  /** A run along one axis never exceeds the 15 cells of a board line. */
  lemma AxisRunBounds(b: Board, x: int, y: int, d: (int, int), piece: Piece)
    requires InBounds(x, y) && IsDir(d.0, d.1)
    ensures 1 <= AxisRun(b, x, y, d, piece) <= Size
  {
    RayWithinRoom(b, x, y, d.0, d.1, piece);
    RayWithinRoom(b, x, y, -d.0, -d.1, piece);
  }

  /** The running maximum over the first `n` axes, starting from 0, as the source accumulates it. */
  function LongestOver(b: Board, x: int, y: int, piece: Piece, n: nat): int
    requires InBounds(x, y) && n <= |Axes|
  {
    if n == 0 then 0
    else
      var m := LongestOver(b, x, y, piece, n - 1);
      var c := AxisRun(b, x, y, Axes[n - 1], piece);
      if m < c then c else m
  }

  /** The longest same-piece run through `p` over the four axes, `p` counted once. */
  function MaxLink(s: State, p: Point): int
    requires InBounds(p.0, p.1)
  {
    LongestOver(s.board, p.0, p.1, s.board[p.0][p.1], |Axes|)
  }

  lemma {:induction false} LongestOverIsMax(b: Board, x: int, y: int, piece: Piece, n: nat)
    requires InBounds(x, y) && 0 < n <= |Axes|
    ensures 1 <= LongestOver(b, x, y, piece, n) <= Size
    ensures forall i | 0 <= i < n :: AxisRun(b, x, y, Axes[i], piece) <= LongestOver(b, x, y, piece, n)
    ensures exists i | 0 <= i < n :: AxisRun(b, x, y, Axes[i], piece) == LongestOver(b, x, y, piece, n)
  {
    AxisRunBounds(b, x, y, Axes[n - 1], piece);
    if n > 1 {
      LongestOverIsMax(b, x, y, piece, n - 1);
    }
  }

  /** The longest run is one of the four axis runs and at least each of them, within 1..15. */
  lemma MaxLinkIsLongestRun(s: State, p: Point)
    requires InBounds(p.0, p.1)
    ensures 1 <= MaxLink(s, p) <= Size
    ensures forall i | 0 <= i < |Axes| :: AxisRun(s.board, p.0, p.1, Axes[i], s.board[p.0][p.1]) <= MaxLink(s, p)
    ensures exists i | 0 <= i < |Axes| :: AxisRun(s.board, p.0, p.1, Axes[i], s.board[p.0][p.1]) == MaxLink(s, p)
  {
    LongestOverIsMax(s.board, p.0, p.1, s.board[p.0][p.1], |Axes|);
  }

  /** What `get_max_link_count` returns: the longest run, negated. */
  function LinkCount(s: State, p: Point): (c: int)
    requires InBounds(p.0, p.1)
  {
    -MaxLink(s, p)
  }

  /** The outcome `make_move` reports for a legal move: `Win` when the link count
      of the placed cell reaches 5. */
  function MoveOutcome(s: State, p: Point): GameEnd
    requires Legal(s, p)
  {
    if LinkCount(Place(s, p), p) >= 5 then Win else NotEnd
  }

  /** The link count always lies in -15..-1, so the `>= 5` test never succeeds and
      every legal move reports `NotEnd`; no move ever reports `Win` or `Lost`. */
  lemma MoveOutcomeIsNotEnd(s: State, p: Point)
    requires Legal(s, p)
    ensures -Size <= LinkCount(Place(s, p), p) <= -1
    ensures MoveOutcome(s, p) == NotEnd
  {
    MaxLinkIsLongestRun(Place(s, p), p);
  }

  /** Five in a row is not reported as a win: Black holds (0,0)..(3,3) and White
      four cells elsewhere; Black completing the diagonal at (4,4) gets `NotEnd`
      although the diagonal run through (4,4) is 5 long. */
  lemma FiveInARowIsNotReported()
    ensures var s := FourOnDiagonal();
      && Legal(s, (4, 4))
      && AxisRun(Place(s, (4, 4)).board, 4, 4, (1, 1), Black) >= 5
      && MoveOutcome(s, (4, 4)) == NotEnd
  {
    var s := FourOnDiagonal();
    var b := Place(s, (4, 4)).board;
    assert b[3][3] == Black && b[2][2] == Black && b[1][1] == Black && b[0][0] == Black;
    assert Ray(b, 0, 0, -1, -1, Black) == 0;
    assert Ray(b, 4, 4, -1, -1, Black) == 4;
    MoveOutcomeIsNotEnd(s, (4, 4));
  }

  /** Black on (0,0)..(3,3), White on (0,5)..(3,5), Black to move. */
  function FourOnDiagonal(): State
  {
    var b := seq(15, x => seq(15, y =>
      if 0 <= x < 4 && y == x then Black else if 0 <= x < 4 && y == 5 then White else Empty));
    State(b, Black)
  }

  // ---------------------------------------------------------------------------
  // Counting empty cells

  function EmptyInColumn(c: seq<Piece>): nat
  {
    if c == [] then 0 else EmptyInColumn(c[..|c| - 1]) + (if c[|c| - 1] == Empty then 1 else 0)
  }

  function EmptyInColumns(b: seq<seq<Piece>>): nat
  {
    if b == [] then 0 else EmptyInColumns(b[..|b| - 1]) + EmptyInColumn(b[|b| - 1])
  }

  /** The number of `Empty` cells on a board. */
  function EmptyCells(b: Board): nat
  {
    EmptyInColumns(b)
  }

  lemma {:induction false} EmptyInColumnUpdate(c: seq<Piece>, y: nat, v: Piece)
    requires y < |c| && c[y] == Empty && v != Empty
    ensures EmptyInColumn(c[y := v]) + 1 == EmptyInColumn(c)
  {
    var n := |c| - 1;
    if y < n {
      EmptyInColumnUpdate(c[..n], y, v);
      assert c[y := v][..n] == c[..n][y := v];
    } else {
      assert c[y := v][..n] == c[..n];
    }
  }

  lemma {:induction false} EmptyInColumnsUpdate(b: seq<seq<Piece>>, x: nat, c: seq<Piece>)
    requires x < |b| && EmptyInColumn(c) + 1 == EmptyInColumn(b[x])
    ensures EmptyInColumns(b[x := c]) + 1 == EmptyInColumns(b)
  {
    var n := |b| - 1;
    if x < n {
      EmptyInColumnsUpdate(b[..n], x, c);
      assert b[x := c][..n] == b[..n][x := c];
    } else {
      assert b[x := c][..n] == b[..n];
    }
  }

  /** A legal move fills exactly one empty cell. */
  lemma PlaceFillsOneCell(s: State, p: Point)
    requires Legal(s, p)
    ensures EmptyCells(Place(s, p).board) + 1 == EmptyCells(s.board)
  {
    EmptyInColumnUpdate(s.board[p.0], p.1, s.turn);
    EmptyInColumnsUpdate(s.board, p.0, s.board[p.0][p.1 := s.turn]);
  }

  lemma {:induction false} EmptyInColumnFull(c: seq<Piece>)
    requires forall y | 0 <= y < |c| :: c[y] == Empty
    ensures EmptyInColumn(c) == |c|
  {
    if c != [] {
      EmptyInColumnFull(c[..|c| - 1]);
    }
  }

  lemma {:induction false} EmptyInColumnsFull(b: seq<seq<Piece>>)
    requires forall x | 0 <= x < |b| :: |b[x]| == Size && forall y | 0 <= y < Size :: b[x][y] == Empty
    ensures EmptyInColumns(b) == Size * |b|
  {
    if b != [] {
      EmptyInColumnsFull(b[..|b| - 1]);
      EmptyInColumnFull(b[|b| - 1]);
    }
  }

  /** A new game has all 225 cells empty and Black to move. */
  lemma InitialIsEmpty()
    ensures EmptyCells(Initial().board) == 225 && Initial().turn == Black
  {
    EmptyInColumnsFull(Initial().board);
  }

  // ---------------------------------------------------------------------------
  // The mutable game state

  /** The game state object: a fixed 15x15 array and the side to move,
      updated in place by `MakeMove`. */
  class GameState {
    var board: array2<Piece>
    var currentTurn: Piece

    ghost predicate Valid()
      reads this
    {
      board.Length0 == Size && board.Length1 == Size && currentTurn != Empty
    }

    /** The value this object currently holds. */
    function Snapshot(): (s: State)
      requires Valid()
      reads this, board
      ensures s.turn == currentTurn
      ensures forall x, y | 0 <= x < Size && 0 <= y < Size :: s.board[x][y] == board[x, y]
    {
      var a := board;
      State(seq(15, x requires 0 <= x < 15 reads a => seq(15, y requires 0 <= y < 15 reads a => a[x, y])),
            currentTurn)
    }

    /** The array holds exactly the cells of `b`. */
    ghost predicate Holds(b: Board)
      requires Valid()
      reads this, board
    {
      forall x, y | 0 <= x < Size && 0 <= y < Size :: board[x, y] == b[x][y]
    }

    /** A new game: every cell empty, Black to move. */
    constructor ()
      ensures Valid() && fresh(board)
      ensures Snapshot() == Initial()
    {
      board := new Piece[15, 15]((x, y) => Empty);
      currentTurn := Black;
      new;
      SameCellsSameState(Snapshot(), Initial());
    }

    /** A copy of `other` with a board of its own (the source's derived `clone`). */
    constructor Clone(other: GameState)
      requires other.Valid()
      ensures Valid() && fresh(board)
      ensures Snapshot() == other.Snapshot()
    {
      var nb := new Piece[15, 15];
      forall x, y | 0 <= x < 15 && 0 <= y < 15 {
        nb[x, y] := other.board[x, y];
      }
      board := nb;
      currentTurn := other.currentTurn;
      new;
      SameCellsSameState(Snapshot(), other.Snapshot());
    }

    /** The side to move, which is never `Empty`. */
    function CurrentTurn(): (p: Piece)
      requires Valid()
      reads this
      ensures p != Empty
    {
      currentTurn
    }

    /** The piece at an on-board point. */
    function PieceAt(p: Point): (r: Piece)
      requires Valid() && InBounds(p.0, p.1)
      reads this, board
      ensures r == Snapshot().board[p.0][p.1]
    {
      board[p.0, p.1]
    }

    /** Places the mover's piece at `p`, flips the turn and reports the outcome;
        an off-board or occupied target is refused and nothing changes. */
    method MakeMove(p: Point) returns (r: MoveResult)
      requires Valid()
      modifies this, board
      ensures Valid() && board == old(board)
      ensures !Legal(old(Snapshot()), p) ==> r == InvalidMove && unchanged(this, board)
      ensures Legal(old(Snapshot()), p) ==>
        && Snapshot() == Place(old(Snapshot()), p)
        && r == Ok(MoveOutcome(old(Snapshot()), p))
    {
      ghost var s := Snapshot();
      if p.0 >= 15 || p.1 >= 15 || board[p.0, p.1] != Empty {
        return InvalidMove;
      }
      board[p.0, p.1] := currentTurn;
      currentTurn := match currentTurn
        case Black => White
        case White => Black;
      SameCellsSameState(Snapshot(), Place(s, p));
      var linkCount := GetMaxLinkCount(p);
      if linkCount >= 5 {
        return Ok(Win);
      }
      return Ok(NotEnd);
    }

    /** The longest same-piece run through `p` over the four axes, negated. */
    method GetMaxLinkCount(p: Point) returns (linkCount: int)
      requires Valid() && InBounds(p.0, p.1)
      ensures linkCount == LinkCount(Snapshot(), p)
    {
      ghost var s := Snapshot();
      var piece := board[p.0, p.1];
      var longest := LongestRun(p, piece, s.board);
      linkCount := -longest;
    }

    /** The axis loop of `get_max_link_count`: the longest run of `piece`
        through `p`; `b` is the board this object holds. */
    method LongestRun(p: Point, piece: Piece, ghost b: Board) returns (longest: int)
      requires Valid() && Holds(b) && InBounds(p.0, p.1)
      ensures longest == LongestOver(b, p.0, p.1, piece, |Axes|)
    {
      longest := 0;
      for i := 0 to 4
        invariant longest == LongestOver(b, p.0, p.1, piece, i)
      {
        AxesAreDirs(i);
        var count := CountAlong(p, Axes[i], piece, b);
        assert LongestOver(b, p.0, p.1, piece, i + 1)
            == if longest < count then count else longest;
        longest := if longest < count then count else longest;
      }
    }

    /** The body of the axis loop in `get_max_link_count`: the run through `p`
        along `dir`, walking both senses; `b` is the board this object holds. */
    method CountAlong(p: Point, dir: (int, int), piece: Piece, ghost b: Board) returns (count: int)
      requires Valid() && Holds(b)
      requires InBounds(p.0, p.1) && IsDir(dir.0, dir.1)
      ensures count == AxisRun(b, p.0, p.1, dir, piece)
    {
      ghost var forward := Ray(b, p.0, p.1, dir.0, dir.1, piece);
      ghost var backward := Ray(b, p.0, p.1, -dir.0, -dir.1, piece);
      count := 1;
      for k := 0 to 2
        invariant count == 1 + (if k >= 1 then forward else 0) + (if k >= 2 then backward else 0)
      {
        var d := if k == 0 then dir else (-dir.0, -dir.1);
        var n := CountFrom(p, d, piece, b);
        count := count + n;
      }
    }

    /** One sense of the walk in `get_max_link_count`: steps from `p` along `d`
        while the next cell is on the board and holds `piece`. */
    method CountFrom(p: Point, d: (int, int), piece: Piece, ghost b: Board) returns (n: nat)
      requires Valid() && Holds(b)
      requires InBounds(p.0, p.1) && IsDir(d.0, d.1)
      ensures n == Ray(b, p.0, p.1, d.0, d.1, piece)
    {
      n := 0;
      var x, y := p.0 as int, p.1 as int;
      while true
        invariant InBounds(x, y)
        invariant n + Ray(b, x, y, d.0, d.1, piece) == Ray(b, p.0, p.1, d.0, d.1, piece)
        decreases Room(x, y, d.0, d.1)
      {
        x, y := x + d.0, y + d.1;
        if x < 0 || y < 0 || x >= 15 || y >= 15 {
          break;
        }
        if board[x, y] != piece {
          break;
        }
        n := n + 1;
      }
    }
  }

  /** Two states with the same cells and the same turn are the same value. */
  lemma SameCellsSameState(s: State, t: State)
    requires s.turn == t.turn
    requires forall x, y | 0 <= x < Size && 0 <= y < Size :: s.board[x][y] == t.board[x][y]
    ensures s == t
  {
    forall x | 0 <= x < Size ensures s.board[x] == t.board[x] {
      assert forall y | 0 <= y < Size :: s.board[x][y] == t.board[x][y];
    }
  }
}
