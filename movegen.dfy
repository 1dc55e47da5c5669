/** Candidate generation for the search: the empty cells next to a piece,
    ordered by a local threat score so the most urgent cells come first. */
module MoveGen {
  import opened Game

  // ---------------------------------------------------------------------------
  // evaluate_location

  /** The weight of a run of `count` same-colour cells through a candidate. */
  function RunWeight(count: int): (w: int)
    ensures w == 0 || w == 10 || w == 1000 || w == 100000
    ensures w == 0 <==> count < 3
  {
    if count > 5 then 100000
    else if count == 5 then 100000
    else if count == 4 then 1000
    else if count == 3 then 10
    else 0
  }

  /** The weights of `piece`'s runs through `(x, y)` along the first `n` axes, added up. */
  function Threat(b: Board, x: int, y: int, piece: Piece, n: nat): int
    requires InBounds(x, y) && n <= |Axes|
  {
    if n == 0 then 0
    else
      AxesAreDirs(n - 1);
      Threat(b, x, y, piece, n - 1) + RunWeight(AxisRun(b, x, y, Axes[n - 1], piece))
  }

  /** What `evaluate_location` returns: minus the run weights of both colours along all four axes. */
  function LocationScore(s: State, p: Point): int
    requires InBounds(p.0, p.1)
  {
    -(Threat(s.board, p.0, p.1, White, |Axes|) + Threat(s.board, p.0, p.1, Black, |Axes|))
  }

  /** Each axis adds 0 to 100000, and adds 0 exactly when the run is shorter than three. */
  lemma {:induction false} ThreatRange(b: Board, x: int, y: int, piece: Piece, n: nat)
    requires InBounds(x, y) && n <= |Axes|
    ensures 0 <= Threat(b, x, y, piece, n) <= 100000 * n
    ensures Threat(b, x, y, piece, n) == 0 <==>
      forall i | 0 <= i < n :: AxisRun(b, x, y, Axes[i], piece) < 3
  {
    if n > 0 {
      ThreatRange(b, x, y, piece, n - 1);
    }
  }

  /** The location score lies in [-800000, 0], and is 0 exactly when no run of
      either colour through the cell reaches three along any axis. */
  lemma LocationScoreRange(s: State, p: Point)
    requires InBounds(p.0, p.1)
    ensures -800000 <= LocationScore(s, p) <= 0
    ensures LocationScore(s, p) == 0 <==>
      forall i, piece | 0 <= i < |Axes| && piece in {White, Black} ::
        AxisRun(s.board, p.0, p.1, Axes[i], piece) < 3
  {
    ThreatRange(s.board, p.0, p.1, White, |Axes|);
    ThreatRange(s.board, p.0, p.1, Black, |Axes|);
  }

  /** `evaluate_location`: the run weights of White then Black along the four axes, negated. */
  method EvaluateLocation(s: State, point: Point) returns (score: int)
    requires InBounds(point.0, point.1)
    ensures score == LocationScore(s, point)
  {
    var total := 0;
    var pieces := [White, Black];
    for j := 0 to 2
      invariant total == (if j >= 1 then Threat(s.board, point.0, point.1, White, |Axes|) else 0)
        + (if j >= 2 then Threat(s.board, point.0, point.1, Black, |Axes|) else 0)
    {
      var piece := pieces[j];
      var sum := 0;
      for i := 0 to 4
        invariant sum == Threat(s.board, point.0, point.1, piece, i)
      {
        AxesAreDirs(i);
        var count := RunThrough(s, point, piece, Axes[i]);
        sum := sum + RunWeight(count);
      }
      total := total + sum;
    }
    score := -total;
  }

  /** The `evaluate_impl` closure: 1 plus the cells holding `piece` walking
      from `point` along `dir` and along its opposite. */
  method RunThrough(s: State, point: Point, piece: Piece, dir: (int, int)) returns (count: int)
    requires InBounds(point.0, point.1) && IsDir(dir.0, dir.1)
    ensures count == AxisRun(s.board, point.0, point.1, dir, piece)
  {
    ghost var forward := Ray(s.board, point.0, point.1, dir.0, dir.1, piece);
    ghost var backward := Ray(s.board, point.0, point.1, -dir.0, -dir.1, piece);
    count := 1;
    var dirs := [dir, (-dir.0, -dir.1)];
    for k := 0 to 2
      invariant count == 1 + (if k >= 1 then forward else 0) + (if k >= 2 then backward else 0)
    {
      var n := WalkFrom(s, point, piece, dirs[k]);
      count := count + n;
    }
  }

  /** One sense of the closure's walk: steps from `point` along `d` while the
      next cell is on the board and holds `piece`. */
  method WalkFrom(s: State, point: Point, piece: Piece, d: (int, int)) returns (n: nat)
    requires InBounds(point.0, point.1) && IsDir(d.0, d.1)
    ensures n == Ray(s.board, point.0, point.1, d.0, d.1, piece)
  {
    n := 0;
    var x, y := point.0 as int, point.1 as int;
    while true
      invariant InBounds(x, y)
      invariant n + Ray(s.board, x, y, d.0, d.1, piece) == Ray(s.board, point.0, point.1, d.0, d.1, piece)
      decreases Room(x, y, d.0, d.1)
    {
      x, y := x + d.0, y + d.1;
      if x < 0 || y < 0 || x >= 15 || y >= 15 {
        break;
      }
      if s.board[x][y] != piece {
        break;
      }
      n := n + 1;
    }
  }

  // ---------------------------------------------------------------------------
  // generate_moves

  /** `(px, py)` is on the board and holds a piece. */
  predicate OccupiedAt(s: State, px: int, py: int)
  {
    InBounds(px, py) && s.board[px][py] != Empty
  }

  /** Some cell at Chebyshev distance at most one from `(x, y)` holds a piece. */
  predicate HasOccupiedNeighbour(s: State, x: int, y: int)
  {
    exists nx, ny | x - 1 <= nx <= x + 1 && y - 1 <= ny <= y + 1 :: OccupiedAt(s, nx, ny)
  }

  /** A cell `generate_moves` lists: empty, with an occupied neighbour. */
  predicate IsCandidate(s: State, x: int, y: int)
  {
    InBounds(x, y) && s.board[x][y] == Empty && HasOccupiedNeighbour(s, x, y)
  }

  /** A candidate with its location score. */
  type Scored = (Point, int)

  /** The candidates `(x, y)` with `y < n`, in `y` order, with their scores. */
  function ColumnScan(s: State, x: nat, n: nat): seq<Scored>
    requires x < Size && n <= Size
  {
    if n == 0 then []
    else
      var p: Point := (x, n - 1);
      ColumnScan(s, x, n - 1) + (if IsCandidate(s, p.0, p.1) then [(p, LocationScore(s, p))] else [])
  }

  /** The candidates with `x < m`, in the `x`-then-`y` order of the nested loops. */
  function BoardScan(s: State, m: nat): seq<Scored>
    requires m <= Size
  {
    if m == 0 then [] else BoardScan(s, m - 1) + ColumnScan(s, m - 1, Size)
  }

  /** Inserts `e` after every entry whose score is at most its own: one step
      of a stable sort by score. */
  function Insert(xs: seq<Scored>, e: Scored): seq<Scored>
  {
    if xs == [] then [e]
    else if xs[|xs| - 1].1 <= e.1 then xs + [e]
    else Insert(xs[..|xs| - 1], e) + [xs[|xs| - 1]]
  }

  /** The stable sort by ascending score that `sort_by` performs. */
  function SortByScore(ps: seq<Scored>): seq<Scored>
  {
    if ps == [] then [] else Insert(SortByScore(ps[..|ps| - 1]), ps[|ps| - 1])
  }

  /** The points of a scored list, in order. */
  function Points(ps: seq<Scored>): (r: seq<Point>)
    ensures |r| == |ps| && forall i | 0 <= i < |ps| :: r[i] == ps[i].0
  {
    seq(|ps|, i requires 0 <= i < |ps| => ps[i].0)
  }

  /** What `generate_moves` returns. */
  function Candidates(s: State): seq<Point>
  {
    Points(SortByScore(BoardScan(s, Size)))
  }

  /** The neighbourhood test of `generate_moves`: the inner loop stops at the
      first occupied cell of a row, the outer loop goes on to the next row. */
  method HasNeighbour(s: State, x: nat, y: nat) returns (nearby: bool)
    requires InBounds(x, y)
    ensures nearby <==> HasOccupiedNeighbour(s, x, y)
  {
    nearby := false;
    for dx := -1 to 2
      invariant nearby <==> exists nx, ny | x - 1 <= nx < x + dx && y - 1 <= ny <= y + 1 :: OccupiedAt(s, nx, ny)
    {
      ghost var before, row := nearby, x + dx;
      for dy := -1 to 2
        invariant nearby <==> before || exists ny | y - 1 <= ny < y + dy :: OccupiedAt(s, row, ny)
      {
        var px, py := x + dx, y + dy;
        if px < 0 || py < 0 || px >= 15 || py >= 15 {
          continue;
        }
        if s.board[px][py] != Empty {
          assert OccupiedAt(s, px, py);
          nearby := true;
          break;
        }
      }
    }
  }

  /** `generate_moves`: scans the board column by column, keeps the empty
      cells next to a piece with their location scores, sorts them by score
      and drops the scores. */
  method GenerateMoves(s: State) returns (moves: seq<Point>)
    ensures moves == Candidates(s)
  {
    var positions: seq<Scored> := [];
    for x := 0 to 15
      invariant positions == BoardScan(s, x)
    {
      for y := 0 to 15
        invariant positions == BoardScan(s, x) + ColumnScan(s, x, y)
      {
        if s.board[x][y] != Empty {
          continue;
        }
        var nearby := HasNeighbour(s, x, y);
        if nearby {
          var score := EvaluateLocation(s, (x, y));
          positions := positions + [((x, y), score)];
        }
      }
    }
    positions := SortByScore(positions);
    moves := Points(positions);
  }

  // ---------------------------------------------------------------------------
  // The order of the candidates

  /** `p` comes before `q` in the scan: smaller `x`, or equal `x` and smaller `y`. */
  predicate ScanLess(p: Point, q: Point)
  {
    p.0 < q.0 || (p.0 == q.0 && p.1 < q.1)
  }

  /** `a` comes before `b` in the sorted list: smaller score, or an equal score and earlier in the scan. */
  predicate Before(a: Scored, b: Scored)
  {
    a.1 < b.1 || (a.1 == b.1 && ScanLess(a.0, b.0))
  }

  predicate ScanOrdered(xs: seq<Scored>)
  {
    forall i, j | 0 <= i < j < |xs| :: ScanLess(xs[i].0, xs[j].0)
  }

  predicate SortOrdered(xs: seq<Scored>)
  {
    forall i, j | 0 <= i < j < |xs| :: Before(xs[i], xs[j])
  }

  /** The scan of one `x` lists exactly its candidates, in increasing `y`, with their scores. */
  lemma {:induction false} ColumnScanFacts(s: State, x: nat, n: nat)
    requires x < Size && n <= Size
    ensures ScanOrdered(ColumnScan(s, x, n))
    ensures forall e | e in ColumnScan(s, x, n) ::
      e.0.0 == x && e.0.1 < n && IsCandidate(s, e.0.0, e.0.1) && e.1 == LocationScore(s, e.0)
    ensures forall y | 0 <= y < n && IsCandidate(s, x, y) :: ((x, y), LocationScore(s, (x, y))) in ColumnScan(s, x, n)
  {
    if n > 0 {
      ColumnScanFacts(s, x, n - 1);
    }
  }

  /** The scan of the board lists exactly the candidates, in `x`-then-`y` order, with their scores. */
  lemma {:induction false} BoardScanFacts(s: State, m: nat)
    requires m <= Size
    ensures ScanOrdered(BoardScan(s, m))
    ensures forall e | e in BoardScan(s, m) ::
      e.0.0 < m && IsCandidate(s, e.0.0, e.0.1) && e.1 == LocationScore(s, e.0)
    ensures forall x, y | 0 <= x < m && 0 <= y < Size && IsCandidate(s, x, y) ::
      ((x, y), LocationScore(s, (x, y))) in BoardScan(s, m)
  {
    if m > 0 {
      BoardScanFacts(s, m - 1);
      ColumnScanFacts(s, m - 1, Size);
      var a: seq<Scored>, c: seq<Scored> := BoardScan(s, m - 1), ColumnScan(s, m - 1, Size);
      var ac: seq<Scored> := a + c;
      forall i: int, j: int | 0 <= i < j < |ac| ensures ScanLess(ac[i].0, ac[j].0) {
        if j >= |a| && i < |a| {
          assert a[i] in a && c[j - |a|] in c;
        }
      }
    }
  }

  /** Inserting adds exactly the inserted entry. */
  lemma {:induction false} InsertMultiset(xs: seq<Scored>, e: Scored)
    ensures multiset(Insert(xs, e)) == multiset(xs) + multiset{e}
  {
    if xs != [] {
      var front, last := xs[..|xs| - 1], xs[|xs| - 1];
      assert xs == front + [last];
      if last.1 > e.1 {
        InsertMultiset(front, e);
      }
    }
  }

  /** An ordered list stays ordered when an entry that follows all of it is appended. */
  lemma AppendOrdered(xs: seq<Scored>, e: Scored)
    requires SortOrdered(xs)
    requires forall k | 0 <= k < |xs| :: Before(xs[k], e)
    ensures SortOrdered(xs + [e])
  {
    var r := xs + [e];
    forall i, j | 0 <= i < j < |r| ensures Before(r[i], r[j]) {
      if j == |xs| {
        assert r[i] == xs[i];
      }
    }
  }

  /** Inserting an entry that comes after every entry in scan order keeps the
      list sorted by score then scan order. */
  lemma {:induction false} InsertOrdered(xs: seq<Scored>, e: Scored)
    requires SortOrdered(xs)
    requires forall k | 0 <= k < |xs| :: ScanLess(xs[k].0, e.0)
    ensures SortOrdered(Insert(xs, e))
  {
    if xs == [] {
      return;
    }
    var front, last := xs[..|xs| - 1], xs[|xs| - 1];
    assert xs == front + [last];
    if last.1 > e.1 {
      InsertOrdered(front, e);
      InsertMultiset(front, e);
      var r := Insert(front, e);
      forall k | 0 <= k < |r| ensures Before(r[k], last) {
        assert r[k] in multiset(r);
        if r[k] != e {
          assert r[k] in multiset(front);
          var t :| 0 <= t < |front| && front[t] == r[k];
          assert Before(xs[t], xs[|xs| - 1]);
        }
      }
      AppendOrdered(r, last);
    } else {
      forall k | 0 <= k < |xs| ensures Before(xs[k], e) {
        if k < |xs| - 1 {
          assert Before(xs[k], xs[|xs| - 1]);
        }
      }
      AppendOrdered(xs, e);
    }
  }

  /** Sorting a list in scan order gives a list ordered by score, ties in scan
      order, holding the same entries. */
  lemma {:induction false} SortByScoreOrdered(ps: seq<Scored>)
    requires ScanOrdered(ps)
    ensures SortOrdered(SortByScore(ps))
    ensures multiset(SortByScore(ps)) == multiset(ps)
  {
    if ps != [] {
      var front, last := ps[..|ps| - 1], ps[|ps| - 1];
      assert ps == front + [last];
      SortByScoreOrdered(front);
      var sorted := SortByScore(front);
      forall k | 0 <= k < |sorted| ensures ScanLess(sorted[k].0, last.0) {
        assert sorted[k] in multiset(front);
        var t :| 0 <= t < |front| && front[t] == sorted[k];
        assert ScanLess(ps[t].0, ps[|ps| - 1].0);
      }
      InsertOrdered(sorted, last);
      InsertMultiset(sorted, last);
    }
  }

  /** The sorted scan holds exactly the candidates with their scores, ordered
      by score with ties in scan order. */
  lemma SortedScanFacts(s: State)
    ensures var sorted := SortByScore(BoardScan(s, Size));
      SortOrdered(sorted)
      && (forall e | e in sorted :: IsCandidate(s, e.0.0, e.0.1) && e.1 == LocationScore(s, e.0))
      && (forall x, y | 0 <= x < Size && 0 <= y < Size && IsCandidate(s, x, y) ::
            ((x, y), LocationScore(s, (x, y))) in sorted)
  {
    var scan := BoardScan(s, Size);
    BoardScanFacts(s, Size);
    SortByScoreOrdered(scan);
    var sorted := SortByScore(scan);
    forall e | e in sorted ensures IsCandidate(s, e.0.0, e.0.1) && e.1 == LocationScore(s, e.0) {
      assert e in multiset(scan);
    }
    forall x, y | 0 <= x < Size && 0 <= y < Size && IsCandidate(s, x, y)
      ensures ((x, y), LocationScore(s, (x, y))) in sorted
    {
      assert ((x, y), LocationScore(s, (x, y))) in multiset(scan);
    }
  }

  /** `generate_moves` returns exactly the candidate cells, ordered by
      non-decreasing location score with ties in `x`-then-`y` order, so
      without duplicates. */
  lemma CandidatesCorrect(s: State)
    ensures forall x: nat, y: nat :: (x, y) in Candidates(s) <==> IsCandidate(s, x, y)
    ensures var c := Candidates(s);
      forall i, j | 0 <= i < j < |c| ::
        InBounds(c[i].0, c[i].1) && InBounds(c[j].0, c[j].1)
        && Before((c[i], LocationScore(s, c[i])), (c[j], LocationScore(s, c[j])))
    ensures var c := Candidates(s); forall i, j | 0 <= i < j < |c| :: c[i] != c[j]
  {
    SortedScanFacts(s);
    var sorted := SortByScore(BoardScan(s, Size));
    var c := Candidates(s);
    forall x: nat, y: nat ensures (x, y) in c <==> IsCandidate(s, x, y) {
      if (x, y) in c {
        var i :| 0 <= i < |c| && c[i] == (x, y);
        assert sorted[i] in sorted;
      }
      if IsCandidate(s, x, y) {
        var e: Scored := ((x, y), LocationScore(s, (x, y)));
        var i :| 0 <= i < |sorted| && sorted[i] == e;
        assert c[i] == (x, y);
      }
    }
    forall i, j | 0 <= i < j < |c|
      ensures InBounds(c[i].0, c[i].1) && InBounds(c[j].0, c[j].1)
      ensures Before((c[i], LocationScore(s, c[i])), (c[j], LocationScore(s, c[j])))
    {
      assert sorted[i] in sorted && sorted[j] in sorted;
    }
  }

  /** A board without pieces has no candidates: nothing is next to a piece. */
  lemma {:induction false} NoPiecesNoCandidates(s: State, m: nat)
    requires m <= Size
    requires forall x, y | 0 <= x < Size && 0 <= y < Size :: s.board[x][y] == Empty
    ensures BoardScan(s, m) == [] && (m == Size ==> Candidates(s) == [])
  {
    if m > 0 {
      NoPiecesNoCandidates(s, m - 1);
      NoPiecesEmptyColumn(s, m - 1, Size);
    }
  }

  lemma {:induction false} NoPiecesEmptyColumn(s: State, x: nat, n: nat)
    requires x < Size && n <= Size
    requires forall x, y | 0 <= x < Size && 0 <= y < Size :: s.board[x][y] == Empty
    ensures ColumnScan(s, x, n) == []
  {
    if n > 0 {
      NoPiecesEmptyColumn(s, x, n - 1);
      assert !HasOccupiedNeighbour(s, x, n - 1);
    }
  }

  /** A new game has no candidates. */
  lemma InitialHasNoCandidates()
    ensures Candidates(Initial()) == []
  {
    NoPiecesNoCandidates(Initial(), Size);
  }
}
