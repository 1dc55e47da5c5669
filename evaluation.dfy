/** The static evaluator: the board cut into token lines, the pattern
    catalogue counted along each line, and the two weight tables that turn
    the counts into a score for the side to move. */
module Evaluation {
  import opened Game
  import opened Shapes

  // ---------------------------------------------------------------------------
  // Lines of tokens

  /** The token of a cell seen by `me`: 0 empty, 1 own piece, 2 anything else. */
  function Token(p: Piece, me: Piece): int
  {
    if p == Empty then 0 else if p == me then 1 else 2
  }

  /** The tokens of the cells strictly after `(x, y)` along `(dx, dy)`, up to the edge. */
  function Cells(b: Board, x: int, y: int, dx: int, dy: int, me: Piece): seq<int>
    requires InBounds(x, y) && IsDir(dx, dy)
    decreases Room(x, y, dx, dy)
  {
    if InBounds(x + dx, y + dy) then [Token(b[x + dx][y + dy], me)] + Cells(b, x + dx, y + dy, dx, dy, me)
    else []
  }

  /** The line `sequence` builds from `start` along `d`: a sentinel 2, the
      tokens of the cells after the start, a closing sentinel 2. */
  function Line(b: Board, start: Point, d: (int, int), me: Piece): seq<int>
    requires InBounds(start.0, start.1) && IsDir(d.0, d.1)
  {
    [2] + Cells(b, start.0, start.1, d.0, d.1, me) + [2]
  }

  /** Token `k` of `Cells` is the token of the cell `k + 1` steps away, which is on the board. */
  lemma {:induction false} CellAt(b: Board, x: int, y: int, dx: int, dy: int, me: Piece, k: nat)
    requires InBounds(x, y) && IsDir(dx, dy)
    requires k < |Cells(b, x, y, dx, dy, me)|
    ensures InBounds(Off(x, dx, k + 1), Off(y, dy, k + 1))
    ensures Cells(b, x, y, dx, dy, me)[k] == Token(b[Off(x, dx, k + 1)][Off(y, dy, k + 1)], me)
    decreases k
  {
    if k > 0 {
      CellAt(b, x + dx, y + dy, dx, dy, me, k - 1);
      OffShift(x, dx, k);
      OffShift(y, dy, k);
    }
  }

  /** `Cells` runs to the edge: one more step leaves the board, and it never
      has more tokens than the room along the direction. */
  lemma {:induction false} CellsReachEdge(b: Board, x: int, y: int, dx: int, dy: int, me: Piece)
    requires InBounds(x, y) && IsDir(dx, dy)
    ensures var n := |Cells(b, x, y, dx, dy, me)|;
      n <= Room(x, y, dx, dy) && !InBounds(Off(x, dx, n + 1), Off(y, dy, n + 1))
    decreases Room(x, y, dx, dy)
  {
    if InBounds(x + dx, y + dy) {
      var n := |Cells(b, x + dx, y + dy, dx, dy, me)|;
      CellsReachEdge(b, x + dx, y + dy, dx, dy, me);
      RoomStep(x, y, dx, dy);
      OffShift(x, dx, n + 1);
      OffShift(y, dy, n + 1);
      assert |Cells(b, x, y, dx, dy, me)| == n + 1;
      assert n + 1 <= Room(x, y, dx, dy);
      assert !InBounds(Off(x, dx, n + 2), Off(y, dy, n + 2));
    } else {
      assert |Cells(b, x, y, dx, dy, me)| == 0;
      OffShift(x, dx, 0);
      OffShift(y, dy, 0);
    }
  }

  /** A line holds at most the 14 cells after its start plus two sentinels. */
  lemma LineLength(b: Board, start: Point, d: (int, int), me: Piece)
    requires InBounds(start.0, start.1) && IsDir(d.0, d.1)
    ensures 2 <= |Line(b, start, d, me)| <= Size + 1
  {
    CellsReachEdge(b, start.0, start.1, d.0, d.1, me);
  }

  /** `(cx, cy)` is at or behind `(x, y)` along the leading component of the direction. */
  predicate Behind(cx: int, cy: int, x: int, y: int, dx: int, dy: int)
  {
    if dx == 1 then cx <= x else if dx == -1 then cx >= x else if dy == 1 then cy <= y else cy >= y
  }

  /** `Cells` never reads a cell at or behind its start. */
  lemma {:induction false} CellsIgnoreBehind(b: Board, x: int, y: int, dx: int, dy: int, me: Piece, cx: nat, cy: nat, p: Piece)
    requires InBounds(x, y) && IsDir(dx, dy) && InBounds(cx, cy) && Behind(cx, cy, x, y, dx, dy)
    ensures Cells(b[cx := b[cx][cy := p]], x, y, dx, dy, me) == Cells(b, x, y, dx, dy, me)
    decreases Room(x, y, dx, dy)
  {
    if InBounds(x + dx, y + dy) {
      CellsIgnoreBehind(b, x + dx, y + dy, dx, dy, me, cx, cy, p);
    }
  }

  /** The start cell of a line is never tokenised: whatever it holds, the line is the same. */
  lemma LineSkipsStart(b: Board, start: Point, d: (int, int), me: Piece, p: Piece)
    requires InBounds(start.0, start.1) && IsDir(d.0, d.1)
    ensures Line(b[start.0 := b[start.0][start.1 := p]], start, d, me) == Line(b, start, d, me)
  {
    CellsIgnoreBehind(b, start.0, start.1, d.0, d.1, me, start.0, start.1, p);
  }

  /** The non-zero filter of `sequence`: the line has a token other than 0. */
  predicate HasNonZero(line: seq<int>)
  {
    exists i | 0 <= i < |line| :: line[i] != 0
  }

  /** Every line passes the non-zero filter, because it opens with the sentinel 2. */
  lemma LinePassesNonZeroFilter(b: Board, start: Point, d: (int, int), me: Piece)
    requires InBounds(start.0, start.1) && IsDir(d.0, d.1)
    ensures HasNonZero(Line(b, start, d, me))
  {
    assert Line(b, start, d, me)[0] == 2;
  }

  /** `next_point_valid`: the step from `point` along `dir`, taken only when it stays on the board. */
  method NextPointValid(point: Point, dir: (int, int)) returns (valid: bool, next: Point)
    ensures valid <==> InBounds(point.0 + dir.0, point.1 + dir.1)
    ensures valid ==> next == (point.0 + dir.0, point.1 + dir.1)
    ensures !valid ==> next == point
  {
    var x, y := point.0 + dir.0, point.1 + dir.1;
    if x < 0 || y < 0 || x >= 15 || y >= 15 {
      return false, point;
    }
    return true, (x, y);
  }

  /** Moving one token from the unread rest onto the line keeps the whole; the
      sequence step of `ScanLine`'s loop invariant. */
  lemma ShiftToken(before: seq<int>, t: int, rest: seq<int>, whole: seq<int>)
    requires before + ([t] + rest) == whole
    ensures (before + [t]) + rest == whole
  {
    assert before + ([t] + rest) == (before + [t]) + rest;
  }

  /** The inner loop of `sequence`: walks from `start` with `next_point_valid`,
      pushing one token per cell, between two sentinels. */
  method ScanLine(s: State, start: Point, dir: (int, int), me: Piece) returns (line: seq<int>)
    requires InBounds(start.0, start.1) && IsDir(dir.0, dir.1)
    ensures line == Line(s.board, start, dir, me)
  {
    var point := start;
    line := [2];
    while true
      invariant InBounds(point.0, point.1)
      invariant line + Cells(s.board, point.0, point.1, dir.0, dir.1, me)
        == [2] + Cells(s.board, start.0, start.1, dir.0, dir.1, me)
      decreases Room(point.0, point.1, dir.0, dir.1)
    {
      var valid, next := NextPointValid(point, dir);
      if !valid {
        break;
      }
      ghost var before, rest := line, Cells(s.board, next.0, next.1, dir.0, dir.1, me);
      ghost var t := Token(s.board[next.0][next.1], me);
      assert Cells(s.board, point.0, point.1, dir.0, dir.1, me) == [t] + rest;
      point := next;
      var piece := s.board[point.0][point.1];
      var token;
      if piece == Empty {
        token := 0;
      } else if piece == me {
        token := 1;
      } else {
        token := 2;
      }
      line := line + [token];
      ShiftToken(before, t, rest, [2] + Cells(s.board, start.0, start.1, dir.0, dir.1, me));
    }
    line := line + [2];
  }

  // ---------------------------------------------------------------------------
  // Line starts

  /** The start cells `sequence` lists for direction `d`: the corner, then the
      top or bottom column cells when `d` moves along the second coordinate,
      then the first-row cells when `d` moves along the first. */
  function LineStarts(d: (int, int)): (r: seq<Point>)
    ensures |r| == 1 + (if d.1 != 0 then 14 else 0) + (if d.0 != 0 then 14 else 0)
    ensures forall k | 0 <= k < |r| :: InBounds(r[k].0, r[k].1)
  {
    [(0, 0)]
      + (if d.1 > 0 then EdgeRun(0) else if d.1 < 0 then EdgeRun(14) else [])
      + (if d.0 != 0 then SideRun() else [])
  }

  /** The cells `(x, c)` for `x` in 1..14. */
  function EdgeRun(c: nat): (r: seq<Point>)
    requires c < 15
    ensures |r| == 14 && forall k | 0 <= k < 14 :: r[k] == (k + 1, c)
  {
    seq(14, k requires 0 <= k < 14 => ((k + 1) as nat, c))
  }

  /** The cells `(0, y)` for `y` in 1..14. */
  function SideRun(): (r: seq<Point>)
    ensures |r| == 14 && forall k | 0 <= k < 14 :: r[k] == (0, k + 1)
  {
    seq(14, k requires 0 <= k < 14 => (0, (k + 1) as nat))
  }

  /** The four directions give 15, 15, 29 and 29 lines: 88 in all. */
  lemma LineCount()
    ensures |LineStarts(Axes[0])| + |LineStarts(Axes[1])| + |LineStarts(Axes[2])| + |LineStarts(Axes[3])| == 88
  {
  }

  /** The first loop nest of `sequence` for one direction: pushes the corner,
      then one edge of starts or the other, then the side starts. */
  method LineStartsOf(dir: (int, int)) returns (starts: seq<Point>)
    ensures starts == LineStarts(dir)
  {
    starts := [(0, 0)];
    if dir.1 > 0 {
      for x := 1 to 15
        invariant starts == [(0, 0)] + EdgeRun(0)[..x - 1]
      {
        assert EdgeRun(0)[..x] == EdgeRun(0)[..x - 1] + [(x, 0)];
        starts := starts + [(x, 0)];
      }
    } else if dir.1 < 0 {
      for x := 1 to 15
        invariant starts == [(0, 0)] + EdgeRun(14)[..x - 1]
      {
        assert EdgeRun(14)[..x] == EdgeRun(14)[..x - 1] + [(x, 14)];
        starts := starts + [(x, 14)];
      }
    }
    ghost var head := starts;
    assert EdgeRun(0)[..14] == EdgeRun(0) && EdgeRun(14)[..14] == EdgeRun(14);
    if dir.0 != 0 {
      for y := 1 to 15
        invariant starts == head + SideRun()[..y - 1]
      {
        assert SideRun()[..y] == SideRun()[..y - 1] + [(0, y)];
        starts := starts + [(0, y)];
      }
      assert SideRun()[..14] == SideRun();
    } else {
      assert starts == starts + [];
    }
  }

  // ---------------------------------------------------------------------------
  // The catalogue and the shapes along every line

  /** The nineteen patterns `sequence` hands to `with_inv`, in source order. */
  const Base: seq<Pattern> := [
    ([1, 1, 1, 1, 1, 1], Long),
    ([1, 1, 1, 1, 1], Five),
    ([0, 1, 1, 1, 1, 0], LiveFour),
    ([0, 1, 1, 1, 0, 0], LiveThree),
    ([0, 1, 0, 1, 1, 0], LiveThree),
    ([0, 0, 1, 1, 0, 0], LiveTwo),
    ([2, 1, 1, 1, 1, 0], RushFour),
    ([1, 1, 0, 1, 1], RushFour),
    ([1, 0, 1, 1, 1], RushFour),
    ([1, 0, 0, 1, 1], SleepThree),
    ([2, 1, 1, 1, 0, 0], SleepThree),
    ([2, 1, 1, 0, 1, 0], SleepThree),
    ([2, 1, 0, 1, 1, 0], SleepThree),
    ([2, 1, 1, 0, 0, 0], SleepTwo),
    ([2, 1, 0, 1, 0, 0], SleepTwo),
    ([2, 1, 0, 0, 1, 0], SleepTwo),
    ([2, 1, 0, 0, 0, 1], SleepTwo),
    ([2, 0, 1, 1, 0, 0, 2], SleepTwo),
    ([2, 0, 1, 0, 1, 0, 2], SleepTwo)
  ]

  /** The catalogue every line is matched against: the base patterns with their reversals. */
  function Catalogue(): seq<Pattern>
  {
    WithReversals(Base)
  }

  /** Every base pattern has at least five tokens and contains an own piece. */
  lemma BaseShape()
    ensures forall j | 0 <= j < |Base| :: |Base[j].0| >= 5 && 1 in Base[j].0
  {
  }

  /** `with_inv` keeps a lower bound on pattern lengths and the presence of an own piece. */
  lemma WithReversalsShape(ps: seq<Pattern>, n: nat)
    requires forall j | 0 <= j < |ps| :: |ps[j].0| >= n && 1 in ps[j].0
    ensures forall j | 0 <= j < |WithReversals(ps)| :: |WithReversals(ps)[j].0| >= n && 1 in WithReversals(ps)[j].0
  {
    var c := WithReversals(ps);
    forall j | 0 <= j < |c| ensures |c[j].0| >= n && 1 in c[j].0 {
      WithReversalsMembers(ps, c[j]);
      var i :| 0 <= i < |ps| && (c[j] == ps[i] || c[j] == (Reverse(ps[i].0), ps[i].1));
      ReverseAt(ps[i].0);
      if c[j] != ps[i] {
        var p := ps[i].0;
        var t :| 0 <= t < |p| && p[t] == 1;
        assert Reverse(p)[|p| - 1 - t] == 1;
      }
    }
  }

  /** Every catalogue pattern has at least five tokens and contains an own
      piece (token 1), so the shortest has at least five. */
  lemma CatalogueShape()
    ensures forall j | 0 <= j < |Catalogue()| :: |Catalogue()[j].0| >= 5 && 1 in Catalogue()[j].0
    ensures NonEmptyPatterns(Base) && NonEmptyPatterns(Catalogue()) && MinLength(Catalogue()) >= 5
  {
    BaseShape();
    WithReversalsShape(Base, 5);
    MinLengthAtLeast(Catalogue(), 5);
  }

  /** A bound below every pattern length is a bound below the shortest length. */
  lemma {:induction false} MinLengthAtLeast(ps: seq<Pattern>, n: nat)
    requires n <= UsizeMax
    requires forall j | 0 <= j < |ps| :: |ps[j].0| >= n
    ensures MinLength(ps) >= n
  {
    if ps != [] {
      var front := ps[..|ps| - 1];
      assert forall j | 0 <= j < |front| :: front[j] == ps[j];
      MinLengthAtLeast(front, n);
    }
  }

  /** The `(shape, count)` pairs of a count map, in declaration order of the shapes. */
  function Entries(m: map<PieceState, int>, ks: seq<PieceState>): seq<(PieceState, int)>
  {
    if ks == [] then []
    else (if ks[0] in m then [(ks[0], m[ks[0]])] else []) + Entries(m, ks[1..])
  }

  /** What one line contributes to `sequence`: nothing when it is too short
      (or all zero), otherwise the entries of its shape counts. */
  function LineShapes(line: seq<int>): seq<(PieceState, int)>
  {
    CatalogueShape();
    if |line| > 7 && HasNonZero(line) then Entries(ShapeCounts(line, Catalogue()), AllShapes) else []
  }

  /** The lines from `starts` along `d`, in order, flattened into their shape entries. */
  function ShapesFrom(b: Board, starts: seq<Point>, d: (int, int), me: Piece): seq<(PieceState, int)>
    requires IsDir(d.0, d.1) && forall k | 0 <= k < |starts| :: InBounds(starts[k].0, starts[k].1)
  {
    if starts == [] then []
    else
      var last := starts[|starts| - 1];
      ShapesFrom(b, starts[..|starts| - 1], d, me) + LineShapes(Line(b, last, d, me))
  }

  /** `sequence` over the first `n` directions. */
  function ShapesAlong(b: Board, me: Piece, n: nat): seq<(PieceState, int)>
    requires n <= |Axes|
  {
    if n == 0 then []
    else
      AxesAreDirs(n - 1);
      ShapesAlong(b, me, n - 1) + ShapesFrom(b, LineStarts(Axes[n - 1]), Axes[n - 1], me)
  }

  /** What `sequence(state, me)` returns: the shape entries of every line of every direction. */
  function ShapeList(b: Board, me: Piece): seq<(PieceState, int)>
  {
    ShapesAlong(b, me, |Axes|)
  }

  /** The second filter of `sequence`: looks for a token other than 0. */
  method AnyNonZero(line: seq<int>) returns (found: bool)
    ensures found <==> HasNonZero(line)
  {
    for i := 0 to |line|
      invariant forall t | 0 <= t < i :: line[t] == 0
    {
      if line[i] != 0 {
        return true;
      }
    }
    return false;
  }

  /** The per-line body of `sequence`: filter the line, then count the catalogue in it. */
  method ShapesOfLine(line: seq<int>) returns (entries: seq<(PieceState, int)>)
    ensures entries == LineShapes(line)
  {
    CatalogueShape();
    entries := [];
    if |line| <= 7 {
      return;
    }
    var nonZero := AnyNonZero(line);
    if !nonZero {
      return;
    }
    var patterns := WithInv(Base);
    var count := CountSubarrays(line, patterns);
    entries := EntriesOf(count, AllShapes);
  }

  /** Lists the entries of a count map in the order of `ks`. */
  method EntriesOf(count: map<PieceState, int>, ks: seq<PieceState>) returns (entries: seq<(PieceState, int)>)
    ensures entries == Entries(count, ks)
  {
    entries := [];
    for k := 0 to |ks|
      invariant entries + Entries(count, ks[k..]) == Entries(count, ks)
    {
      assert ks[k..][1..] == ks[k + 1..];
      var shape := ks[k];
      if shape in count {
        entries := entries + [(shape, count[shape])];
      }
    }
  }

  /** `sequence`: for each direction, each start, the line's shape entries, concatenated. */
  method Sequence(s: State, me: Piece) returns (result: seq<(PieceState, int)>)
    ensures result == ShapeList(s.board, me)
  {
    result := [];
    for i := 0 to |Axes|
      invariant result == ShapesAlong(s.board, me, i)
    {
      var dir := Axes[i];
      AxesAreDirs(i);
      var starts := LineStartsOf(dir);
      var entries := ShapesOfStarts(s, starts, dir, me);
      result := result + entries;
    }
  }

  /** The lines of one direction, in start order, flattened into their shape entries. */
  method ShapesOfStarts(s: State, starts: seq<Point>, dir: (int, int), me: Piece) returns (result: seq<(PieceState, int)>)
    requires IsDir(dir.0, dir.1) && forall k | 0 <= k < |starts| :: InBounds(starts[k].0, starts[k].1)
    ensures result == ShapesFrom(s.board, starts, dir, me)
  {
    result := [];
    for k := 0 to |starts|
      invariant result == ShapesFrom(s.board, starts[..k], dir, me)
    {
      assert starts[..k + 1][..k] == starts[..k];
      var line := ScanLine(s, starts[k], dir, me);
      var entries := ShapesOfLine(line);
      result := result + entries;
    }
    assert starts[..|starts|] == starts;
  }

  // ---------------------------------------------------------------------------
  // Scoring

  /** The i32 range the score is accumulated in. */
  const I32Min: int := -0x8000_0000
  const I32Max: int := 0x7FFF_FFFF

  /** The weight of a shape: `mover` picks the table for the side to move,
      otherwise the table for its opponent. */
  function Weight(k: PieceState, mover: bool): int
  {
    match k
    case Long => 1000000
    case Five => 1000000
    case RushFour => if mover then 2000 else 5000
    case LiveFour => 10000
    case LiveThree => if mover then 2000 else 200
    case SleepThree => 100
    case LiveTwo => 5
    case SleepTwo => 1
  }

  /** The weighted sum of a list of `(shape, count)` entries. */
  function WeightedSum(es: seq<(PieceState, int)>, mover: bool): int
  {
    if es == [] then 0 else WeightedSum(es[..|es| - 1], mover) + Weight(es[|es| - 1].0, mover) * es[|es| - 1].1
  }

  /** What `evaluate` computes: the mover's shapes weighted by the first table,
      minus the opponent's shapes weighted by the second. */
  function Score(s: State): int
  {
    WeightedSum(ShapeList(s.board, s.turn), true) - WeightedSum(ShapeList(s.board, Opponent(s.turn)), false)
  }

  /** `evaluate`: adds the mover's weighted counts, then subtracts the opponent's. */
  method Evaluate(s: State) returns (score: int)
    ensures score == Score(s)
  {
    score := 0;
    var mine := Sequence(s, s.turn);
    score := AddWeights(score, mine);
    var other := match s.turn case White => Black case Black => White;
    var theirs := Sequence(s, other);
    score := SubtractWeights(score, theirs);
  }

  /** The first loop of `evaluate`: adds each mover entry's weight times its count. */
  method AddWeights(start: int, es: seq<(PieceState, int)>) returns (score: int)
    ensures score == start + WeightedSum(es, true)
  {
    score := start;
    for i := 0 to |es|
      invariant score == start + WeightedSum(es[..i], true)
    {
      assert es[..i + 1][..i] == es[..i];
      var (shape, count) := es[i];
      score := score + Weight(shape, true) * count;
    }
    assert es[..|es|] == es;
  }

  /** The second loop of `evaluate`: subtracts each opponent entry's weight times its count. */
  method SubtractWeights(start: int, es: seq<(PieceState, int)>) returns (score: int)
    ensures score == start - WeightedSum(es, false)
  {
    score := start;
    for i := 0 to |es|
      invariant score == start - WeightedSum(es[..i], false)
    {
      assert es[..i + 1][..i] == es[..i];
      var (shape, count) := es[i];
      score := score - Weight(shape, false) * count;
    }
    assert es[..|es|] == es;
  }

  // ---------------------------------------------------------------------------
  // The score as two dot products

  /** The total count recorded for shape `k` across a list of entries. */
  function CountOf(es: seq<(PieceState, int)>, k: PieceState): int
  {
    if es == [] then 0 else CountOf(es[..|es| - 1], k) + (if es[|es| - 1].0 == k then es[|es| - 1].1 else 0)
  }

  /** A weight table applied to the per-shape totals of a list of entries. */
  function Dot(es: seq<(PieceState, int)>, mover: bool): int
  {
    Weight(Long, mover) * CountOf(es, Long) + Weight(Five, mover) * CountOf(es, Five)
      + Weight(RushFour, mover) * CountOf(es, RushFour) + Weight(LiveFour, mover) * CountOf(es, LiveFour)
      + Weight(LiveThree, mover) * CountOf(es, LiveThree) + Weight(SleepThree, mover) * CountOf(es, SleepThree)
      + Weight(LiveTwo, mover) * CountOf(es, LiveTwo) + Weight(SleepTwo, mover) * CountOf(es, SleepTwo)
  }

  /** One more entry adds its weighted count to the term of its own shape only. */
  lemma TermStep(front: seq<(PieceState, int)>, e: (PieceState, int), k: PieceState, mover: bool)
    ensures Weight(k, mover) * CountOf(front + [e], k)
      == Weight(k, mover) * CountOf(front, k) + (if e.0 == k then Weight(k, mover) * e.1 else 0)
  {
    assert (front + [e])[..|front|] == front;
    var w, c := Weight(k, mover), CountOf(front, k);
    if e.0 == k {
      assert w * (c + e.1) == w * c + w * e.1;
    }
  }

  /** Summing entry by entry is the table applied to the per-shape totals. */
  lemma {:induction false} WeightedSumIsDot(es: seq<(PieceState, int)>, mover: bool)
    ensures WeightedSum(es, mover) == Dot(es, mover)
  {
    if es != [] {
      var front, e := es[..|es| - 1], es[|es| - 1];
      WeightedSumIsDot(front, mover);
      assert es == front + [e];
      TermStep(front, e, Long, mover);
      TermStep(front, e, Five, mover);
      TermStep(front, e, RushFour, mover);
      TermStep(front, e, LiveFour, mover);
      TermStep(front, e, LiveThree, mover);
      TermStep(front, e, SleepThree, mover);
      TermStep(front, e, LiveTwo, mover);
      TermStep(front, e, SleepTwo, mover);
    }
  }

  /** The total of a concatenation is the sum of the totals. */
  lemma {:induction false} CountOfAppend(a: seq<(PieceState, int)>, b: seq<(PieceState, int)>, k: PieceState)
    ensures CountOf(a + b, k) == CountOf(a, k) + CountOf(b, k)
  {
    if b == [] {
      assert a + b == a;
    } else {
      var front := b[..|b| - 1];
      assert (a + b)[..|a + b| - 1] == a + front;
      CountOfAppend(a, front, k);
    }
  }

  /** Taking entry `j` out of a list takes its count out of its shape's total. */
  lemma CountOfRemove(fs: seq<(PieceState, int)>, j: nat, k: PieceState)
    requires j < |fs|
    ensures CountOf(fs, k) == CountOf(fs[..j] + fs[j + 1..], k) + (if fs[j].0 == k then fs[j].1 else 0)
  {
    var before, e, after := fs[..j], fs[j], fs[j + 1..];
    assert fs == (before + [e]) + after;
    CountOfAppend(before + [e], after, k);
    CountOfAppend(before, [e], k);
    CountOfAppend(before, after, k);
    assert [e][..0] == [];
  }

  /** The last entry of a list occurs in any reordering of it, and what is left
      on either side is again a reordering. */
  lemma PermRemoveLast(es: seq<(PieceState, int)>, fs: seq<(PieceState, int)>) returns (j: nat)
    requires es != [] && multiset(es) == multiset(fs)
    ensures j < |fs| && fs[j] == es[|es| - 1]
    ensures multiset(es[..|es| - 1]) == multiset(fs[..j] + fs[j + 1..])
  {
    var front, e := es[..|es| - 1], es[|es| - 1];
    assert es == front + [e];
    assert e in multiset(fs);
    j :| 0 <= j < |fs| && fs[j] == e;
    assert fs == fs[..j] + [e] + fs[j + 1..];
    assert multiset(front) == multiset(es) - multiset{e};
    assert multiset(fs[..j] + fs[j + 1..]) == multiset(fs) - multiset{e};
  }

  /** The per-shape totals do not depend on the order of the entries. */
  lemma {:induction false} CountOfPerm(es: seq<(PieceState, int)>, fs: seq<(PieceState, int)>, k: PieceState)
    requires multiset(es) == multiset(fs)
    ensures CountOf(es, k) == CountOf(fs, k)
    decreases |es|
  {
    if es == [] {
      assert |fs| == |multiset(fs)| == 0;
    } else {
      var j := PermRemoveLast(es, fs);
      CountOfPerm(es[..|es| - 1], fs[..j] + fs[j + 1..], k);
      CountOfRemove(fs, j, k);
    }
  }

  /** Listing the same entries in another order gives the same weighted sum. */
  lemma WeightedSumPerm(es: seq<(PieceState, int)>, fs: seq<(PieceState, int)>, mover: bool)
    requires multiset(es) == multiset(fs)
    ensures WeightedSum(es, mover) == WeightedSum(fs, mover)
  {
    WeightedSumIsDot(es, mover);
    WeightedSumIsDot(fs, mover);
    CountOfPerm(es, fs, Long);
    CountOfPerm(es, fs, Five);
    CountOfPerm(es, fs, RushFour);
    CountOfPerm(es, fs, LiveFour);
    CountOfPerm(es, fs, LiveThree);
    CountOfPerm(es, fs, SleepThree);
    CountOfPerm(es, fs, LiveTwo);
    CountOfPerm(es, fs, SleepTwo);
  }

  /** `evaluate` scores the same whatever order `sequence` lists its entries in:
      any reordering of either side's entries (as another iteration order of the
      count maps would give) leaves the score unchanged. */
  lemma ScoreOrderIndependent(s: State, mine: seq<(PieceState, int)>, theirs: seq<(PieceState, int)>)
    requires multiset(mine) == multiset(ShapeList(s.board, s.turn))
    requires multiset(theirs) == multiset(ShapeList(s.board, Opponent(s.turn)))
    ensures WeightedSum(mine, true) - WeightedSum(theirs, false) == Score(s)
  {
    WeightedSumPerm(mine, ShapeList(s.board, s.turn), true);
    WeightedSumPerm(theirs, ShapeList(s.board, Opponent(s.turn)), false);
  }

  /** The score is the mover's table times the mover's shape totals, minus the
      opponent's table times the opponent's shape totals. */
  lemma ScoreIsDot(s: State)
    ensures Score(s) == Dot(ShapeList(s.board, s.turn), true) - Dot(ShapeList(s.board, Opponent(s.turn)), false)
  {
    WeightedSumIsDot(ShapeList(s.board, s.turn), true);
    WeightedSumIsDot(ShapeList(s.board, Opponent(s.turn)), false);
  }

  // ---------------------------------------------------------------------------
  // The score fits in an i32

  lemma WeightRange(k: PieceState, mover: bool)
    ensures 1 <= Weight(k, mover) <= 1000000
  {
  }

  /** An arithmetic step for `EntriesWeight`. */
  lemma MulBound(w: int, c: int)
    requires 0 <= w <= 1000000 && 0 <= c
    ensures 0 <= w * c <= 1000000 * c
  {
  }

  /** The weighted sum of a concatenation is the sum of the weighted sums. */
  lemma {:induction false} WeightedSumAppend(a: seq<(PieceState, int)>, b: seq<(PieceState, int)>, mover: bool)
    ensures WeightedSum(a + b, mover) == WeightedSum(a, mover) + WeightedSum(b, mover)
  {
    if b != [] {
      var front := b[..|b| - 1];
      assert (a + b)[..|a + b| - 1] == a + front;
      WeightedSumAppend(a, front, mover);
    } else {
      assert a + b == a;
    }
  }

  /** The counts of the shapes in `ks`, added up. */
  function Partial(m: map<PieceState, int>, ks: seq<PieceState>): int
  {
    if ks == [] then 0 else Get(m, ks[0]) + Partial(m, ks[1..])
  }

  /** With positive counts, the entries of a map weigh between 0 and a million per counted shape. */
  lemma {:induction false} EntriesWeight(m: map<PieceState, int>, ks: seq<PieceState>, mover: bool)
    requires forall k | k in m :: m[k] >= 1
    ensures 0 <= WeightedSum(Entries(m, ks), mover) <= 1000000 * Partial(m, ks)
    ensures Partial(m, ks) >= 0
  {
    if ks != [] {
      var k := ks[0];
      var head: seq<(PieceState, int)> := if k in m then [(k, m[k])] else [];
      EntriesWeight(m, ks[1..], mover);
      WeightedSumAppend(head, Entries(m, ks[1..]), mover);
      if k in m {
        assert [(k, m[k])][..0] == [];
        WeightRange(k, mover);
        MulBound(Weight(k, mover), m[k]);
      }
    }
  }

  /** The arithmetic behind `LineShapesWeight`: at most three matches of length
      five or more fit in 16 tokens. */
  lemma FewMatches(total: int, len: int)
    requires 0 <= total && 5 <= len && total * len <= Size + 1
    ensures total <= 3
  {
  }

  /** A step for `LineShapesWeight`. */
  lemma TotalNonNegative(m: map<PieceState, int>)
    requires forall k | k in m :: m[k] >= 1
    ensures Total(m) >= 0
  {
  }

  /** A count map with positive counts adding up to at most three weighs at most three million. */
  lemma CountsWeight(m: map<PieceState, int>, mover: bool)
    requires forall k | k in m :: m[k] >= 1
    requires Total(m) <= 3
    ensures 0 <= WeightedSum(Entries(m, AllShapes), mover) <= 3000000
  {
    EntriesWeight(m, AllShapes, mover);
    var ks := AllShapes;
    assert Partial(m, ks[7..]) == Get(m, SleepTwo) by { assert ks[7..][1..] == []; }
    assert Partial(m, ks[6..]) == Get(m, LiveTwo) + Partial(m, ks[7..]) by { assert ks[6..][1..] == ks[7..]; }
    assert Partial(m, ks[5..]) == Get(m, SleepThree) + Partial(m, ks[6..]) by { assert ks[5..][1..] == ks[6..]; }
    assert Partial(m, ks[4..]) == Get(m, LiveThree) + Partial(m, ks[5..]) by { assert ks[4..][1..] == ks[5..]; }
    assert Partial(m, ks[3..]) == Get(m, LiveFour) + Partial(m, ks[4..]) by { assert ks[3..][1..] == ks[4..]; }
    assert Partial(m, ks[2..]) == Get(m, RushFour) + Partial(m, ks[3..]) by { assert ks[2..][1..] == ks[3..]; }
    assert Partial(m, ks[1..]) == Get(m, Five) + Partial(m, ks[2..]) by { assert ks[1..][1..] == ks[2..]; }
  }

  /** A line of at most 16 tokens has at most three matches, so it weighs at most three million. */
  lemma LineShapesWeight(line: seq<int>, mover: bool)
    requires |line| <= Size + 1
    ensures 0 <= WeightedSum(LineShapes(line), mover) <= 3000000
  {
    CatalogueShape();
    if |line| > 7 && HasNonZero(line) {
      var m := ShapeCounts(line, Catalogue());
      ShapeCountsBound(line, Catalogue());
      TotalNonNegative(m);
      FewMatches(Total(m), MinLength(Catalogue()));
      CountsWeight(m, mover);
    }
  }

  /** The lines from `starts` weigh at most three million each. */
  lemma {:induction false} ShapesFromWeight(b: Board, starts: seq<Point>, d: (int, int), me: Piece, mover: bool)
    requires IsDir(d.0, d.1) && forall k | 0 <= k < |starts| :: InBounds(starts[k].0, starts[k].1)
    ensures 0 <= WeightedSum(ShapesFrom(b, starts, d, me), mover) <= 3000000 * |starts|
  {
    if starts != [] {
      var front, last := starts[..|starts| - 1], starts[|starts| - 1];
      ShapesFromWeight(b, front, d, me, mover);
      LineLength(b, last, d, me);
      LineShapesWeight(Line(b, last, d, me), mover);
      WeightedSumAppend(ShapesFrom(b, front, d, me), LineShapes(Line(b, last, d, me)), mover);
    }
  }

  /** The number of lines over the first `n` directions. */
  function LinesUpTo(n: nat): nat
    requires n <= |Axes|
  {
    if n == 0 then 0 else LinesUpTo(n - 1) + |LineStarts(Axes[n - 1])|
  }

  lemma {:induction false} ShapesAlongWeight(b: Board, me: Piece, n: nat, mover: bool)
    requires n <= |Axes|
    ensures 0 <= WeightedSum(ShapesAlong(b, me, n), mover) <= 3000000 * LinesUpTo(n)
  {
    if n > 0 {
      AxesAreDirs(n - 1);
      ShapesAlongWeight(b, me, n - 1, mover);
      ShapesFromWeight(b, LineStarts(Axes[n - 1]), Axes[n - 1], me, mover);
      WeightedSumAppend(ShapesAlong(b, me, n - 1), ShapesFrom(b, LineStarts(Axes[n - 1]), Axes[n - 1], me), mover);
    }
  }

  /** Over the 88 lines each side's weighted total lies in [0, 264000000], so
      the final score fits in an i32. */
  lemma ScoreBound(s: State)
    ensures 0 <= WeightedSum(ShapeList(s.board, s.turn), true) <= 264000000
    ensures 0 <= WeightedSum(ShapeList(s.board, Opponent(s.turn)), false) <= 264000000
    ensures -264000000 <= Score(s) <= 264000000
    ensures I32Min < Score(s) < I32Max
  {
    LineCount();
    assert LinesUpTo(1) == |LineStarts(Axes[0])|;
    assert LinesUpTo(2) == LinesUpTo(1) + |LineStarts(Axes[1])|;
    assert LinesUpTo(3) == LinesUpTo(2) + |LineStarts(Axes[2])|;
    assert LinesUpTo(|Axes|) == LinesUpTo(3) + |LineStarts(Axes[3])|;
    ShapesAlongWeight(s.board, s.turn, |Axes|, true);
    ShapesAlongWeight(s.board, Opponent(s.turn), |Axes|, false);
  }

  // ---------------------------------------------------------------------------
  // Every running value of `evaluate` fits in an i32

  /** Every entry `sequence` produces carries a positive count. */
  predicate PositiveCounts(es: seq<(PieceState, int)>)
  {
    forall k | 0 <= k < |es| :: es[k].1 >= 1
  }

  lemma {:induction false} EntriesPositive(m: map<PieceState, int>, ks: seq<PieceState>)
    requires forall k | k in m :: m[k] >= 1
    ensures PositiveCounts(Entries(m, ks))
  {
    if ks != [] {
      EntriesPositive(m, ks[1..]);
    }
  }

  lemma LineShapesPositive(line: seq<int>)
    ensures PositiveCounts(LineShapes(line))
  {
    CatalogueShape();
    if |line| > 7 && HasNonZero(line) {
      ShapeCountsBound(line, Catalogue());
      EntriesPositive(ShapeCounts(line, Catalogue()), AllShapes);
    }
  }

  lemma {:induction false} ShapesFromPositive(b: Board, starts: seq<Point>, d: (int, int), me: Piece)
    requires IsDir(d.0, d.1) && forall k | 0 <= k < |starts| :: InBounds(starts[k].0, starts[k].1)
    ensures PositiveCounts(ShapesFrom(b, starts, d, me))
  {
    if starts != [] {
      var front, last := starts[..|starts| - 1], starts[|starts| - 1];
      ShapesFromPositive(b, front, d, me);
      LineShapesPositive(Line(b, last, d, me));
    }
  }

  lemma {:induction false} ShapesAlongPositive(b: Board, me: Piece, n: nat)
    requires n <= |Axes|
    ensures PositiveCounts(ShapesAlong(b, me, n))
  {
    if n > 0 {
      AxesAreDirs(n - 1);
      ShapesAlongPositive(b, me, n - 1);
      ShapesFromPositive(b, LineStarts(Axes[n - 1]), Axes[n - 1], me);
    }
  }

  lemma {:induction false} WeightedSumNonNegative(es: seq<(PieceState, int)>, mover: bool)
    requires PositiveCounts(es)
    ensures WeightedSum(es, mover) >= 0
  {
    if es != [] {
      WeightedSumNonNegative(es[..|es| - 1], mover);
      WeightRange(es[|es| - 1].0, mover);
    }
  }

  /** With positive counts, the weighted sum of every prefix lies between 0 and the whole sum. */
  lemma PrefixWeight(es: seq<(PieceState, int)>, mover: bool, i: nat)
    requires PositiveCounts(es) && i <= |es|
    ensures 0 <= WeightedSum(es[..i], mover) <= WeightedSum(es, mover)
  {
    assert es[..i] + es[i..] == es;
    WeightedSumAppend(es[..i], es[i..], mover);
    WeightedSumNonNegative(es[..i], mover);
    WeightedSumNonNegative(es[i..], mover);
  }

  /** The values `evaluate`'s accumulator takes: after i entries of the first
      loop it holds the mover's prefix sum (`AddWeights`), after j entries of
      the second it holds the mover's total minus the opponent's prefix sum
      (`SubtractWeights`). Every one of them lies strictly inside the i32 range. */
  lemma RunningScoreBound(s: State)
    ensures var mine, theirs := ShapeList(s.board, s.turn), ShapeList(s.board, Opponent(s.turn));
      && (forall i | 0 <= i <= |mine| :: I32Min < 0 + WeightedSum(mine[..i], true) < I32Max)
      && (forall j | 0 <= j <= |theirs| ::
            I32Min < WeightedSum(mine, true) - WeightedSum(theirs[..j], false) < I32Max)
  {
    var mine, theirs := ShapeList(s.board, s.turn), ShapeList(s.board, Opponent(s.turn));
    ScoreBound(s);
    ShapesAlongPositive(s.board, s.turn, |Axes|);
    ShapesAlongPositive(s.board, Opponent(s.turn), |Axes|);
    forall i | 0 <= i <= |mine| ensures I32Min < 0 + WeightedSum(mine[..i], true) < I32Max {
      PrefixWeight(mine, true, i);
    }
    forall j | 0 <= j <= |theirs|
      ensures I32Min < WeightedSum(mine, true) - WeightedSum(theirs[..j], false) < I32Max
    {
      PrefixWeight(theirs, false, j);
    }
  }

  // ---------------------------------------------------------------------------
  // The empty board scores zero

  /** On the empty board every token after a start is 0. */
  lemma {:induction false} EmptyCellsAreZero(x: int, y: int, dx: int, dy: int, me: Piece)
    requires InBounds(x, y) && IsDir(dx, dy)
    ensures 1 !in Cells(EmptyBoard(), x, y, dx, dy, me)
    decreases Room(x, y, dx, dy)
  {
    if InBounds(x + dx, y + dy) {
      EmptyCellsAreZero(x + dx, y + dy, dx, dy, me);
    }
  }

  /** A line without an own piece matches no pattern that contains one. */
  lemma {:induction false} NoOwnPieceNoMatch(a: seq<int>, ps: seq<Pattern>, len: nat, i: nat)
    requires 1 <= len && NonEmptyPatterns(ps) && 1 !in a
    requires forall j | 0 <= j < |ps| :: 1 in ps[j].0
    ensures Scan(a, ps, len, i) == []
    decreases |a| - i
  {
    if i + len <= |a| {
      FirstMatchIsFirst(a, ps, i, 0);
      match FirstMatch(a, ps, i, 0)
      case None =>
        NoOwnPieceNoMatch(a, ps, len, i + 1);
      case Some(j) =>
        assert false;
    }
  }

  lemma {:induction false} EntriesOfEmpty(ks: seq<PieceState>)
    ensures Entries(map[], ks) == []
  {
    if ks != [] {
      EntriesOfEmpty(ks[1..]);
    }
  }

  /** Every line of the empty board contributes nothing. */
  lemma EmptyLineShapes(start: Point, d: (int, int), me: Piece)
    requires InBounds(start.0, start.1) && IsDir(d.0, d.1)
    ensures LineShapes(Line(EmptyBoard(), start, d, me)) == []
  {
    var line := Line(EmptyBoard(), start, d, me);
    EmptyCellsAreZero(start.0, start.1, d.0, d.1, me);
    assert 1 !in line;
    CatalogueShape();
    if |line| >= MinLength(Catalogue()) {
      NoOwnPieceNoMatch(line, Catalogue(), MinLength(Catalogue()), 0);
    }
    EntriesOfEmpty(AllShapes);
  }

  lemma {:induction false} EmptyShapesFrom(starts: seq<Point>, d: (int, int), me: Piece)
    requires IsDir(d.0, d.1) && forall k | 0 <= k < |starts| :: InBounds(starts[k].0, starts[k].1)
    ensures ShapesFrom(EmptyBoard(), starts, d, me) == []
  {
    if starts != [] {
      EmptyShapesFrom(starts[..|starts| - 1], d, me);
      EmptyLineShapes(starts[|starts| - 1], d, me);
    }
  }

  lemma {:induction false} EmptyShapesAlong(me: Piece, n: nat)
    requires n <= |Axes|
    ensures ShapesAlong(EmptyBoard(), me, n) == []
  {
    if n > 0 {
      AxesAreDirs(n - 1);
      EmptyShapesAlong(me, n - 1);
      EmptyShapesFrom(LineStarts(Axes[n - 1]), Axes[n - 1], me);
    }
  }

  /** The start of a game is scored 0: no line holds any shape for either side. */
  lemma InitialScoresZero()
    ensures ShapeList(Initial().board, Black) == [] && ShapeList(Initial().board, White) == []
    ensures Score(Initial()) == 0
  {
    EmptyShapesAlong(Black, |Axes|);
    EmptyShapesAlong(White, |Axes|);
  }

  // ---------------------------------------------------------------------------
  // Colour symmetry

  /** Exchanges White and Black; `Empty` stays. */
  function SwapPiece(p: Piece): (q: Piece)
    ensures (q == Empty) == (p == Empty)
  {
    match p
    case Empty => Empty
    case White => Black
    case Black => White
  }

  /** The board with every piece's colour exchanged. */
  function SwapBoard(b: Board): (r: Board)
    ensures forall x, y | 0 <= x < Size && 0 <= y < Size :: r[x][y] == SwapPiece(b[x][y])
  {
    seq(15, x requires 0 <= x < 15 => seq(15, y requires 0 <= y < 15 => SwapPiece(b[x][y])))
  }

  /** The state with every piece's colour and the side to move exchanged. */
  function SwapColours(s: State): State
  {
    State(SwapBoard(s.board), Opponent(s.turn))
  }

  /** Exchanging colours twice gives the position back. */
  lemma SwapColoursInvolution(s: State)
    ensures SwapColours(SwapColours(s)) == s
  {
    var t := SwapColours(SwapColours(s));
    forall x, y | 0 <= x < Size && 0 <= y < Size ensures t.board[x][y] == s.board[x][y] {
    }
    SameCellsSameState(t, s);
  }

  lemma SwappedToken(p: Piece, me: Piece)
    ensures Token(SwapPiece(p), SwapPiece(me)) == Token(p, me)
  {
  }

  /** `sb` is `b` with every piece's colour exchanged. */
  predicate IsSwapOf(sb: Board, b: Board)
  {
    forall x, y | 0 <= x < Size && 0 <= y < Size :: sb[x][y] == SwapPiece(b[x][y])
  }

  /** Tokens depend only on whether a cell is empty and whether it holds `me`. */
  lemma {:induction false} SwappedCells(b: Board, sb: Board, x: int, y: int, dx: int, dy: int, me: Piece)
    requires InBounds(x, y) && IsDir(dx, dy) && IsSwapOf(sb, b)
    ensures Cells(sb, x, y, dx, dy, SwapPiece(me)) == Cells(b, x, y, dx, dy, me)
    decreases Room(x, y, dx, dy)
  {
    if InBounds(x + dx, y + dy) {
      RoomStep(x, y, dx, dy);
      SwappedCells(b, sb, x + dx, y + dy, dx, dy, me);
      SwappedToken(b[x + dx][y + dy], me);
    }
  }

  lemma {:induction false} SwappedShapesFrom(b: Board, starts: seq<Point>, d: (int, int), me: Piece)
    requires IsDir(d.0, d.1) && forall k | 0 <= k < |starts| :: InBounds(starts[k].0, starts[k].1)
    ensures ShapesFrom(SwapBoard(b), starts, d, SwapPiece(me)) == ShapesFrom(b, starts, d, me)
  {
    if starts != [] {
      var last := starts[|starts| - 1];
      SwappedShapesFrom(b, starts[..|starts| - 1], d, me);
      SwappedCells(b, SwapBoard(b), last.0, last.1, d.0, d.1, me);
    }
  }

  lemma {:induction false} SwappedShapesAlong(b: Board, me: Piece, n: nat)
    requires n <= |Axes|
    ensures ShapesAlong(SwapBoard(b), SwapPiece(me), n) == ShapesAlong(b, me, n)
  {
    if n > 0 {
      AxesAreDirs(n - 1);
      SwappedShapesAlong(b, me, n - 1);
      SwappedShapesFrom(b, LineStarts(Axes[n - 1]), Axes[n - 1], me);
    }
  }

  /** Exchanging every piece's colour together with the side to move leaves
      the evaluation unchanged. */
  lemma ScoreColourSymmetric(s: State)
    ensures Score(SwapColours(s)) == Score(s)
  {
    SwappedShapesAlong(s.board, s.turn, |Axes|);
    SwappedShapesAlong(s.board, Opponent(s.turn), |Axes|);
    assert SwapPiece(s.turn) == Opponent(s.turn);
    assert SwapPiece(Opponent(s.turn)) == Opponent(Opponent(s.turn));
  }
}
