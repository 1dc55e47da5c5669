/** The search: depth-limited minimax with alpha-beta pruning over the
    candidate moves, and the root loop that collects the best-scoring moves
    and picks one of them. */
module Search {
  import opened Game
  import opened Evaluation
  import opened MoveGen

  /** The depth of the search below each root move. */
  const MaxDepth: nat := 3

  function Max(a: int, b: int): int
  {
    if a < b then b else a
  }

  function Min(a: int, b: int): int
  {
    if a < b then a else b
  }

  /** `x` clamped into the window `[lo, hi]`. */
  function Clamp(lo: int, hi: int, x: int): int
  {
    if x < lo then lo else if x > hi then hi else x
  }

  /** Every move of `moves` may be played in `s`. */
  predicate AllLegal(s: State, moves: seq<Point>)
  {
    forall p | p in moves :: Legal(s, p)
  }

  /** The candidates may all be played, so `make_move` never fails on them. */
  lemma CandidatesAreLegal(s: State)
    ensures AllLegal(s, Candidates(s))
  {
    CandidatesCorrect(s);
    forall p | p in Candidates(s) ensures Legal(s, p) {
      assert (p.0, p.1) == p;
    }
  }

  // ---------------------------------------------------------------------------
  // minimax with alpha-beta pruning, as the source computes it

  /** What `minimax(state, depth, alpha, beta, maximizing)` returns. */
  function AlphaBeta(s: State, depth: nat, alpha: int, beta: int, maximizing: bool): int
    decreases depth, 2
  {
    if depth == 0 then Score(s)
    else
      CandidatesAreLegal(s);
      if maximizing then MaxLoop(s, Candidates(s), depth, alpha, beta, I32Min)
      else MinLoop(s, Candidates(s), depth, alpha, beta, I32Max)
  }

  /** The value of playing `p`: the search one level down when the game goes
      on, and the fixed win or loss values otherwise. `maximizing` is the
      parent's flag. */
  function Child(s: State, p: Point, depth: nat, alpha: int, beta: int, maximizing: bool): int
    requires 1 <= depth && Legal(s, p)
    decreases depth, 0
  {
    var outcome := MoveOutcome(s, p);
    if outcome == NotEnd then AlphaBeta(Place(s, p), depth - 1, alpha, beta, !maximizing)
    else Terminal(outcome, maximizing)
  }

  /** The score `minimax` gives a finished game: the extreme for the side that
      won, from the point of view of the maximizing player. */
  function Terminal(outcome: GameEnd, maximizing: bool): (score: int)
    requires outcome != NotEnd
    ensures score == I32Max <==> (outcome == Win) == maximizing
    ensures score == I32Min <==> (outcome == Win) != maximizing
  {
    match outcome
    case Win => if maximizing then I32Max else I32Min
    case Lost => if maximizing then I32Min else I32Max
  }

  /** The maximizing loop from its current `alpha` and best value on: stops
      once `beta <= alpha`. */
  function MaxLoop(s: State, moves: seq<Point>, depth: nat, alpha: int, beta: int, best: int): int
    requires 1 <= depth && AllLegal(s, moves)
    decreases depth, 1, |moves|
  {
    if moves == [] then best
    else
      var eval := Child(s, moves[0], depth, alpha, beta, true);
      var alpha' := Max(alpha, eval);
      if beta <= alpha' then Max(best, eval)
      else MaxLoop(s, moves[1..], depth, alpha', beta, Max(best, eval))
  }

  /** The minimizing loop from its current `beta` and best value on: stops
      once `beta <= alpha`. */
  function MinLoop(s: State, moves: seq<Point>, depth: nat, alpha: int, beta: int, best: int): int
    requires 1 <= depth && AllLegal(s, moves)
    decreases depth, 1, |moves|
  {
    if moves == [] then best
    else
      var eval := Child(s, moves[0], depth, alpha, beta, false);
      var beta' := Min(beta, eval);
      if beta' <= alpha then Min(best, eval)
      else MinLoop(s, moves[1..], depth, alpha, beta', Min(best, eval))
  }

  // ---------------------------------------------------------------------------
  // Plain minimax: the reference the pruning is measured against

  /** The minimax value over the same candidates without any pruning. */
  function PlainMinimax(s: State, depth: nat, maximizing: bool): int
    decreases depth, 2
  {
    if depth == 0 then Score(s)
    else
      CandidatesAreLegal(s);
      if maximizing then FullMax(s, Candidates(s), depth, I32Min)
      else FullMin(s, Candidates(s), depth, I32Max)
  }

  function FullChild(s: State, p: Point, depth: nat, maximizing: bool): int
    requires 1 <= depth && Legal(s, p)
    decreases depth, 0
  {
    var outcome := MoveOutcome(s, p);
    if outcome == NotEnd then PlainMinimax(Place(s, p), depth - 1, !maximizing)
    else Terminal(outcome, maximizing)
  }

  function FullMax(s: State, moves: seq<Point>, depth: nat, best: int): int
    requires 1 <= depth && AllLegal(s, moves)
    decreases depth, 1, |moves|
  {
    if moves == [] then best
    else FullMax(s, moves[1..], depth, Max(best, FullChild(s, moves[0], depth, true)))
  }

  function FullMin(s: State, moves: seq<Point>, depth: nat, best: int): int
    requires 1 <= depth && AllLegal(s, moves)
    decreases depth, 1, |moves|
  {
    if moves == [] then best
    else FullMin(s, moves[1..], depth, Min(best, FullChild(s, moves[0], depth, false)))
  }

  // ---------------------------------------------------------------------------
  // Monotonicity of the loops

  lemma {:induction false} MaxLoopAtLeast(s: State, moves: seq<Point>, depth: nat, alpha: int, beta: int, best: int)
    requires 1 <= depth && AllLegal(s, moves)
    ensures MaxLoop(s, moves, depth, alpha, beta, best) >= best
    decreases |moves|
  {
    if moves != [] {
      var eval := Child(s, moves[0], depth, alpha, beta, true);
      MaxLoopAtLeast(s, moves[1..], depth, Max(alpha, eval), beta, Max(best, eval));
    }
  }

  lemma {:induction false} MinLoopAtMost(s: State, moves: seq<Point>, depth: nat, alpha: int, beta: int, best: int)
    requires 1 <= depth && AllLegal(s, moves)
    ensures MinLoop(s, moves, depth, alpha, beta, best) <= best
    decreases |moves|
  {
    if moves != [] {
      var eval := Child(s, moves[0], depth, alpha, beta, false);
      MinLoopAtMost(s, moves[1..], depth, alpha, Min(beta, eval), Min(best, eval));
    }
  }

  lemma {:induction false} FullMaxAtLeast(s: State, moves: seq<Point>, depth: nat, best: int)
    requires 1 <= depth && AllLegal(s, moves)
    ensures FullMax(s, moves, depth, best) >= best
    decreases |moves|
  {
    if moves != [] {
      FullMaxAtLeast(s, moves[1..], depth, Max(best, FullChild(s, moves[0], depth, true)));
    }
  }

  lemma {:induction false} FullMinAtMost(s: State, moves: seq<Point>, depth: nat, best: int)
    requires 1 <= depth && AllLegal(s, moves)
    ensures FullMin(s, moves, depth, best) <= best
    decreases |moves|
  {
    if moves != [] {
      FullMinAtMost(s, moves[1..], depth, Min(best, FullChild(s, moves[0], depth, false)));
    }
  }

  /** Two starting values at or below `alpha` give the same clamped maximum. */
  lemma {:induction false} FullMaxLowStart(s: State, moves: seq<Point>, depth: nat, alpha: int, beta: int, x: int, y: int)
    requires 1 <= depth && AllLegal(s, moves)
    requires alpha < beta && x <= alpha && y <= alpha
    ensures Clamp(alpha, beta, FullMax(s, moves, depth, x)) == Clamp(alpha, beta, FullMax(s, moves, depth, y))
    decreases |moves|
  {
    if moves != [] {
      var f := FullChild(s, moves[0], depth, true);
      if f <= alpha {
        FullMaxLowStart(s, moves[1..], depth, alpha, beta, Max(x, f), Max(y, f));
      }
    }
  }

  /** Two starting values at or above `beta` give the same clamped minimum. */
  lemma {:induction false} FullMinHighStart(s: State, moves: seq<Point>, depth: nat, alpha: int, beta: int, x: int, y: int)
    requires 1 <= depth && AllLegal(s, moves)
    requires alpha < beta && x >= beta && y >= beta
    ensures Clamp(alpha, beta, FullMin(s, moves, depth, x)) == Clamp(alpha, beta, FullMin(s, moves, depth, y))
    decreases |moves|
  {
    if moves != [] {
      var f := FullChild(s, moves[0], depth, false);
      if f >= beta {
        FullMinHighStart(s, moves[1..], depth, alpha, beta, Min(x, f), Min(y, f));
      }
    }
  }

  // ---------------------------------------------------------------------------
  // Pruning is sound: within the window it agrees with plain minimax

  /** Alpha-beta with the window `(alpha, beta)` returns the minimax value when
      that value lies strictly inside the window, an upper bound at or below
      `alpha` when the value is at most `alpha`, and a lower bound at or above
      `beta` when the value is at least `beta`: both clamp to the same number. */
  lemma {:induction false} AlphaBetaClamp(s: State, depth: nat, alpha: int, beta: int, maximizing: bool)
    requires I32Min <= alpha < beta <= I32Max
    ensures Clamp(alpha, beta, AlphaBeta(s, depth, alpha, beta, maximizing))
         == Clamp(alpha, beta, PlainMinimax(s, depth, maximizing))
    decreases depth, 2
  {
    if depth > 0 {
      CandidatesAreLegal(s);
      if maximizing {
        MaxLoopClamp(s, Candidates(s), depth, alpha, beta, I32Min);
      } else {
        MinLoopClamp(s, Candidates(s), depth, alpha, beta, I32Max);
      }
    }
  }

  lemma {:induction false} ChildClamp(s: State, p: Point, depth: nat, alpha: int, beta: int, maximizing: bool)
    requires 1 <= depth && Legal(s, p)
    requires I32Min <= alpha < beta <= I32Max
    ensures Clamp(alpha, beta, Child(s, p, depth, alpha, beta, maximizing))
         == Clamp(alpha, beta, FullChild(s, p, depth, maximizing))
    decreases depth, 0
  {
    if MoveOutcome(s, p) == NotEnd {
      AlphaBetaClamp(Place(s, p), depth - 1, alpha, beta, !maximizing);
    }
  }

  lemma {:induction false} MaxLoopClamp(s: State, moves: seq<Point>, depth: nat, alpha: int, beta: int, best: int)
    requires 1 <= depth && AllLegal(s, moves)
    requires I32Min <= alpha < beta <= I32Max && best <= alpha
    ensures Clamp(alpha, beta, MaxLoop(s, moves, depth, alpha, beta, best))
         == Clamp(alpha, beta, FullMax(s, moves, depth, best))
    decreases depth, 1, |moves|
  {
    if moves != [] {
      var p, rest := moves[0], moves[1..];
      var e := Child(s, p, depth, alpha, beta, true);
      var f := FullChild(s, p, depth, true);
      ChildClamp(s, p, depth, alpha, beta, true);
      if e >= beta {
        FullMaxAtLeast(s, rest, depth, Max(best, f));
      } else if e <= alpha {
        MaxLoopClamp(s, rest, depth, alpha, beta, Max(best, e));
        FullMaxLowStart(s, rest, depth, alpha, beta, Max(best, e), Max(best, f));
      } else {
        assert f == e;
        MaxLoopClamp(s, rest, depth, e, beta, e);
        MaxLoopAtLeast(s, rest, depth, e, beta, e);
        FullMaxAtLeast(s, rest, depth, e);
      }
    }
  }

  lemma {:induction false} MinLoopClamp(s: State, moves: seq<Point>, depth: nat, alpha: int, beta: int, best: int)
    requires 1 <= depth && AllLegal(s, moves)
    requires I32Min <= alpha < beta <= I32Max && best >= beta
    ensures Clamp(alpha, beta, MinLoop(s, moves, depth, alpha, beta, best))
         == Clamp(alpha, beta, FullMin(s, moves, depth, best))
    decreases depth, 1, |moves|
  {
    if moves != [] {
      var p, rest := moves[0], moves[1..];
      var e := Child(s, p, depth, alpha, beta, false);
      var f := FullChild(s, p, depth, false);
      ChildClamp(s, p, depth, alpha, beta, false);
      if e <= alpha {
        FullMinAtMost(s, rest, depth, Min(best, f));
      } else if e >= beta {
        MinLoopClamp(s, rest, depth, alpha, beta, Min(best, e));
        FullMinHighStart(s, rest, depth, alpha, beta, Min(best, e), Min(best, f));
      } else {
        assert f == e;
        MinLoopClamp(s, rest, depth, alpha, e, e);
        MinLoopAtMost(s, rest, depth, alpha, e, e);
        FullMinAtMost(s, rest, depth, e);
      }
    }
  }

  // ---------------------------------------------------------------------------
  // Both searches stay within the 32-bit range

  lemma {:induction false} AlphaBetaRange(s: State, depth: nat, alpha: int, beta: int, maximizing: bool)
    ensures I32Min <= AlphaBeta(s, depth, alpha, beta, maximizing) <= I32Max
    decreases depth, 2
  {
    if depth == 0 {
      ScoreBound(s);
    } else {
      CandidatesAreLegal(s);
      if maximizing {
        MaxLoopRange(s, Candidates(s), depth, alpha, beta, I32Min);
      } else {
        MinLoopRange(s, Candidates(s), depth, alpha, beta, I32Max);
      }
    }
  }

  lemma {:induction false} ChildRange(s: State, p: Point, depth: nat, alpha: int, beta: int, maximizing: bool)
    requires 1 <= depth && Legal(s, p)
    ensures I32Min <= Child(s, p, depth, alpha, beta, maximizing) <= I32Max
    decreases depth, 0
  {
    if MoveOutcome(s, p) == NotEnd {
      AlphaBetaRange(Place(s, p), depth - 1, alpha, beta, !maximizing);
    }
  }

  lemma {:induction false} MaxLoopRange(s: State, moves: seq<Point>, depth: nat, alpha: int, beta: int, best: int)
    requires 1 <= depth && AllLegal(s, moves)
    requires I32Min <= best <= I32Max
    ensures I32Min <= MaxLoop(s, moves, depth, alpha, beta, best) <= I32Max
    decreases depth, 1, |moves|
  {
    if moves != [] {
      var e := Child(s, moves[0], depth, alpha, beta, true);
      ChildRange(s, moves[0], depth, alpha, beta, true);
      MaxLoopRange(s, moves[1..], depth, Max(alpha, e), beta, Max(best, e));
    }
  }

  lemma {:induction false} MinLoopRange(s: State, moves: seq<Point>, depth: nat, alpha: int, beta: int, best: int)
    requires 1 <= depth && AllLegal(s, moves)
    requires I32Min <= best <= I32Max
    ensures I32Min <= MinLoop(s, moves, depth, alpha, beta, best) <= I32Max
    decreases depth, 1, |moves|
  {
    if moves != [] {
      var e := Child(s, moves[0], depth, alpha, beta, false);
      ChildRange(s, moves[0], depth, alpha, beta, false);
      MinLoopRange(s, moves[1..], depth, alpha, Min(beta, e), Min(best, e));
    }
  }

  lemma {:induction false} PlainMinimaxRange(s: State, depth: nat, maximizing: bool)
    ensures I32Min <= PlainMinimax(s, depth, maximizing) <= I32Max
    decreases depth, 2
  {
    if depth == 0 {
      ScoreBound(s);
    } else {
      CandidatesAreLegal(s);
      if maximizing {
        FullMaxRange(s, Candidates(s), depth, I32Min);
      } else {
        FullMinRange(s, Candidates(s), depth, I32Max);
      }
    }
  }

  lemma {:induction false} FullChildRange(s: State, p: Point, depth: nat, maximizing: bool)
    requires 1 <= depth && Legal(s, p)
    ensures I32Min <= FullChild(s, p, depth, maximizing) <= I32Max
    decreases depth, 0
  {
    if MoveOutcome(s, p) == NotEnd {
      PlainMinimaxRange(Place(s, p), depth - 1, !maximizing);
    }
  }

  lemma {:induction false} FullMaxRange(s: State, moves: seq<Point>, depth: nat, best: int)
    requires 1 <= depth && AllLegal(s, moves)
    requires I32Min <= best <= I32Max
    ensures I32Min <= FullMax(s, moves, depth, best) <= I32Max
    decreases depth, 1, |moves|
  {
    if moves != [] {
      FullChildRange(s, moves[0], depth, true);
      FullMaxRange(s, moves[1..], depth, Max(best, FullChild(s, moves[0], depth, true)));
    }
  }

  lemma {:induction false} FullMinRange(s: State, moves: seq<Point>, depth: nat, best: int)
    requires 1 <= depth && AllLegal(s, moves)
    requires I32Min <= best <= I32Max
    ensures I32Min <= FullMin(s, moves, depth, best) <= I32Max
    decreases depth, 1, |moves|
  {
    if moves != [] {
      FullChildRange(s, moves[0], depth, false);
      FullMinRange(s, moves[1..], depth, Min(best, FullChild(s, moves[0], depth, false)));
    }
  }

  /** With the full 32-bit window, as the root calls it, alpha-beta returns
      exactly the minimax value. */
  lemma FullWindowIsMinimax(s: State, depth: nat, maximizing: bool)
    ensures AlphaBeta(s, depth, I32Min, I32Max, maximizing) == PlainMinimax(s, depth, maximizing)
  {
    AlphaBetaClamp(s, depth, I32Min, I32Max, maximizing);
    AlphaBetaRange(s, depth, I32Min, I32Max, maximizing);
    PlainMinimaxRange(s, depth, maximizing);
  }

  // ---------------------------------------------------------------------------
  // The search over the game-state object
  //
  // Each method takes the value `s` the object holds as a ghost parameter, so
  // its result is stated about that value.

  /** `minimax`: evaluates at depth 0; otherwise plays each candidate on a
      clone, searches below it, and cuts the loop off once `beta <= alpha`. */
  method Minimax(state: GameState, ghost s: State, depth: nat, alpha: int, beta: int, maximizing: bool)
    returns (eval: int)
    requires state.Valid() && state.Snapshot() == s
    ensures eval == AlphaBeta(s, depth, alpha, beta, maximizing)
    decreases depth, 3
  {
    if depth == 0 {
      eval := Evaluate(state.Snapshot());
    } else {
      eval := Expand(state, s, depth, alpha, beta, maximizing);
    }
  }

  /** The search below a node at `depth >= 1`: generates the candidates and
      runs the branch for the side to move. */
  method Expand(state: GameState, ghost s: State, depth: nat, alpha: int, beta: int, maximizing: bool)
    returns (eval: int)
    requires state.Valid() && state.Snapshot() == s && 1 <= depth
    ensures eval == AlphaBeta(s, depth, alpha, beta, maximizing)
    decreases depth, 2
  {
    var moves := GenerateMoves(state.Snapshot());
    CandidatesAreLegal(s);
    if maximizing {
      eval := MaximizingLoop(state, s, moves, depth, alpha, beta);
    } else {
      eval := MinimizingLoop(state, s, moves, depth, alpha, beta);
    }
  }

  /** One iteration's child: a clone with `action` played, searched one level down. */
  method SearchChild(state: GameState, ghost s: State, action: Point, depth: nat, alpha: int, beta: int,
                     maximizing: bool)
    returns (eval: int)
    requires state.Valid() && state.Snapshot() == s && 1 <= depth && Legal(s, action)
    ensures eval == Child(s, action, depth, alpha, beta, maximizing)
    decreases depth, 0
  {
    var newState, result := PlayOnClone(state, s, action);
    if result.outcome == NotEnd {
      eval := Minimax(newState, Place(s, action), depth - 1, alpha, beta, !maximizing);
    } else {
      eval := Terminal(result.outcome, maximizing);
    }
  }

  /** A clone of `state` with `action` played on it, and the outcome the move reports. */
  method PlayOnClone(state: GameState, ghost s: State, action: Point) returns (newState: GameState, result: MoveResult)
    requires state.Valid() && state.Snapshot() == s && Legal(s, action)
    ensures fresh(newState) && fresh(newState.board) && newState.Valid()
    ensures newState.Snapshot() == Place(s, action)
    ensures result == Ok(MoveOutcome(s, action))
  {
    newState := new GameState.Clone(state);
    result := newState.MakeMove(action);
  }

  /** The maximizing branch of `minimax`. */
  method MaximizingLoop(state: GameState, ghost s: State, moves: seq<Point>, depth: nat, alpha: int, beta: int)
    returns (maxEval: int)
    requires state.Valid() && state.Snapshot() == s && 1 <= depth && AllLegal(s, moves)
    ensures maxEval == MaxLoop(s, moves, depth, alpha, beta, I32Min)
    decreases depth, 1
  {
    maxEval := I32Min;
    var a := alpha;
    var i := 0;
    while i < |moves|
      invariant 0 <= i <= |moves| && state.Snapshot() == s
      invariant MaxLoop(s, moves[i..], depth, a, beta, maxEval) == MaxLoop(s, moves, depth, alpha, beta, I32Min)
    {
      assert moves[i..][1..] == moves[i + 1..];
      var eval := SearchChild(state, s, moves[i], depth, a, beta, true);
      maxEval := Max(maxEval, eval);
      a := Max(a, eval);
      if beta <= a {
        break;
      }
      i := i + 1;
    }
  }

  /** The minimizing branch of `minimax`. */
  method MinimizingLoop(state: GameState, ghost s: State, moves: seq<Point>, depth: nat, alpha: int, beta: int)
    returns (minEval: int)
    requires state.Valid() && state.Snapshot() == s && 1 <= depth && AllLegal(s, moves)
    ensures minEval == MinLoop(s, moves, depth, alpha, beta, I32Max)
    decreases depth, 1
  {
    minEval := I32Max;
    var b := beta;
    var i := 0;
    while i < |moves|
      invariant 0 <= i <= |moves| && state.Snapshot() == s
      invariant MinLoop(s, moves[i..], depth, alpha, b, minEval) == MinLoop(s, moves, depth, alpha, beta, I32Max)
    {
      assert moves[i..][1..] == moves[i + 1..];
      var eval := SearchChild(state, s, moves[i], depth, alpha, b, false);
      minEval := Min(minEval, eval);
      b := Min(b, eval);
      if b <= alpha {
        break;
      }
      i := i + 1;
    }
  }

  // ---------------------------------------------------------------------------
  // best_move

  /** The score the root gives `action`: the search below it, with the
      opponent to move and the full 32-bit window. */
  function RootValue(s: State, action: Point): int
    requires Legal(s, action)
  {
    AlphaBeta(Place(s, action), MaxDepth, I32Min, I32Max, false)
  }

  /** A root move paired with the value `best_move` computes for it. */
  type RootScore = (Point, int)

  /** The `(action, eval)` pairs the root collects, in candidate order. */
  function RootScores(s: State, moves: seq<Point>): seq<RootScore>
    requires AllLegal(s, moves)
  {
    seq(|moves|, i requires 0 <= i < |moves| => (moves[i], RootValue(s, moves[i])))
  }

  function Ranking(s: State): seq<RootScore>
  {
    CandidatesAreLegal(s);
    RootScores(s, Candidates(s))
  }

  /** The best evaluation so far and the actions that reach it, after the
      root's loop over `actions`. */
  function Leaders(actions: seq<RootScore>): (int, seq<Point>)
  {
    if actions == [] then (I32Min, [])
    else
      var (best, ties) := Leaders(actions[..|actions| - 1]);
      var (action, eval) := actions[|actions| - 1];
      if eval > best then (eval, [action])
      else if eval == best then (best, ties + [action])
      else (best, ties)
  }

  /** The actions whose evaluation is `v`, in order. */
  function Reaching(actions: seq<RootScore>, v: int): seq<Point>
  {
    if actions == [] then []
    else
      var last := actions[|actions| - 1];
      Reaching(actions[..|actions| - 1], v) + (if last.1 == v then [last.0] else [])
  }

  /** No action reaches a value above every evaluation. */
  lemma {:induction false} NoneReaching(actions: seq<RootScore>, v: int)
    requires forall k | 0 <= k < |actions| :: actions[k].1 < v
    ensures Reaching(actions, v) == []
  {
    if actions != [] {
      NoneReaching(actions[..|actions| - 1], v);
    }
  }

  /** The loop keeps the largest evaluation (at least `i32::MIN`), attained
      unless nothing beats `i32::MIN`, and exactly the actions that reach it. */
  lemma {:induction false} LeadersCorrect(actions: seq<RootScore>)
    ensures var (best, ties) := Leaders(actions);
      && I32Min <= best
      && (forall k | 0 <= k < |actions| :: actions[k].1 <= best)
      && (best == I32Min || exists k | 0 <= k < |actions| :: actions[k].1 == best)
      && ties == Reaching(actions, best)
  {
    if actions != [] {
      var front := actions[..|actions| - 1];
      var last := actions[|actions| - 1];
      LeadersCorrect(front);
      var (best, ties) := Leaders(front);
      if last.1 > best {
        NoneReaching(front, last.1);
      } else if last.1 == best {
        assert forall k | 0 <= k < |front| :: front[k] == actions[k];
      } else {
        assert forall k | 0 <= k < |front| :: front[k] == actions[k];
        if best != I32Min {
          var k :| 0 <= k < |front| && front[k].1 == best;
          assert actions[k].1 == best;
        }
      }
    }
  }

  /** The tie-break of `best_move`: none, the only one, or the `choice`-th
      modulo the number of ties. */
  function Pick(ties: seq<Point>, choice: nat): (r: Option<Point>)
    ensures r.None? <==> ties == []
    ensures r.Some? ==> r.value in ties
  {
    if |ties| == 0 then None
    else if |ties| == 1 then Some(ties[0])
    else Some(ties[choice % |ties|])
  }

  /** `best_move`: scores every candidate by the search below it, keeps the
      moves with the largest score and picks one of them with `choice`. */
  method BestMove(state: GameState, choice: nat) returns (best: Option<Point>, bestEval: int)
    requires state.Valid()
    ensures bestEval == Leaders(Ranking(state.Snapshot())).0
    ensures best == Pick(Leaders(Ranking(state.Snapshot())).1, choice)
  {
    var actions := ScoreActions(state, state.Snapshot());
    var bestMoves;
    bestEval, bestMoves := Leading(actions);
    best := Pick(bestMoves, choice);
  }

  /** The loop of `best_move` over the scored actions: a larger score restarts
      the list of best moves, an equal one joins it. */
  method Leading(actions: seq<RootScore>) returns (bestEval: int, bestMoves: seq<Point>)
    ensures (bestEval, bestMoves) == Leaders(actions)
  {
    bestEval := I32Min;
    bestMoves := [];
    for i := 0 to |actions|
      invariant (bestEval, bestMoves) == Leaders(actions[..i])
    {
      assert actions[..i + 1][..i] == actions[..i];
      var (action, eval) := actions[i];
      if eval > bestEval {
        bestEval := eval;
        bestMoves := [action];
      } else if eval == bestEval {
        bestMoves := bestMoves + [action];
      }
    }
    assert actions[..|actions|] == actions;
  }

  /** The map step of `best_move`: each candidate played on a clone and
      searched with the opponent to move, in candidate order. */
  method ScoreActions(state: GameState, ghost s: State) returns (actions: seq<RootScore>)
    requires state.Valid() && state.Snapshot() == s
    ensures actions == Ranking(s)
  {
    var moves := GenerateMoves(state.Snapshot());
    CandidatesAreLegal(s);
    actions := [];
    for i := 0 to |moves|
      invariant state.Snapshot() == s
      invariant |actions| == i
      invariant forall k | 0 <= k < i :: actions[k] == (moves[k], RootValue(s, moves[k]))
    {
      var eval := ScoreAction(state, s, moves[i]);
      actions := actions + [(moves[i], eval)];
    }
    assert actions == RootScores(s, moves);
  }

  /** One candidate's score: played on a clone, then searched to `MaxDepth`
      with the opponent to move and the full window. */
  method ScoreAction(state: GameState, ghost s: State, action: Point) returns (eval: int)
    requires state.Valid() && state.Snapshot() == s && Legal(s, action)
    ensures eval == RootValue(s, action)
  {
    var snapshot, _ := PlayOnClone(state, s, action);
    eval := Minimax(snapshot, Place(s, action), MaxDepth, I32Min, I32Max, false);
  }

  /** The root's pairs are the candidates with their scores, in order. */
  lemma RankingAt(s: State)
    ensures var c, r := Candidates(s), Ranking(s);
      |r| == |c| && forall k | 0 <= k < |c| :: Legal(s, c[k]) && r[k] == (c[k], RootValue(s, c[k]))
  {
    CandidatesAreLegal(s);
  }

  /** The score `best_move` reports is at least the score of every candidate,
      and at least the plain minimax value of every position a candidate leads to. */
  lemma BestEvalIsUpperBound(s: State)
    ensures forall p | p in Candidates(s) && Legal(s, p) ::
      && RootValue(s, p) <= Leaders(Ranking(s)).0
      && PlainMinimax(Place(s, p), MaxDepth, false) <= Leaders(Ranking(s)).0
  {
    var c, r := Candidates(s), Ranking(s);
    RankingAt(s);
    LeadersCorrect(r);
    forall p | p in c && Legal(s, p)
      ensures RootValue(s, p) <= Leaders(r).0 && PlainMinimax(Place(s, p), MaxDepth, false) <= Leaders(r).0
    {
      var k :| 0 <= k < |c| && c[k] == p;
      assert r[k].1 == RootValue(s, p);
      FullWindowIsMinimax(Place(s, p), MaxDepth, false);
    }
  }

  /** When every evaluation is at least `i32::MIN`, the list of best moves is
      empty only for an empty input, and each of its moves comes with the best
      evaluation. */
  lemma LeadersTies(actions: seq<RootScore>)
    requires forall k | 0 <= k < |actions| :: actions[k].1 >= I32Min
    ensures var (best, ties) := Leaders(actions);
      && (ties == [] <==> actions == [])
      && (actions == [] ==> best == I32Min)
      && forall p | p in ties :: exists k | 0 <= k < |actions| :: actions[k] == (p, best)
  {
    LeadersCorrect(actions);
    var (best, ties) := Leaders(actions);
    ReachingMembers(actions, best);
    if actions != [] {
      var k: nat := 0;
      if best != I32Min {
        k :| 0 <= k < |actions| && actions[k].1 == best;
      }
      assert actions[k].0 in ties;
    }
  }

  /** `best_move` returns no move exactly when there is no candidate, and then
      `i32::MIN`; otherwise the move is a candidate whose score, and the plain
      minimax value of the position it leads to, equal the reported score. */
  lemma BestMoveIsAttained(s: State, choice: nat)
    ensures var (bestEval, ties) := Leaders(Ranking(s));
      var best := Pick(ties, choice);
      && (best.None? <==> Candidates(s) == [])
      && (best.None? ==> bestEval == I32Min)
      && (best.Some? ==>
            && best.value in Candidates(s) && Legal(s, best.value)
            && RootValue(s, best.value) == bestEval
            && PlainMinimax(Place(s, best.value), MaxDepth, false) == bestEval)
  {
    var c, r := Candidates(s), Ranking(s);
    RankingAt(s);
    forall k | 0 <= k < |r| ensures r[k].1 >= I32Min {
      AlphaBetaRange(Place(s, c[k]), MaxDepth, I32Min, I32Max, false);
    }
    LeadersTies(r);
    var best := Pick(Leaders(r).1, choice);
    if best.Some? {
      var k :| 0 <= k < |r| && r[k] == (best.value, Leaders(r).0);
      FullWindowIsMinimax(Place(s, best.value), MaxDepth, false);
    }
  }

  /** An action reaches `v` exactly when some pair holds it with that evaluation. */
  lemma {:induction false} ReachingMembers(actions: seq<RootScore>, v: int)
    ensures forall p :: p in Reaching(actions, v) <==>
      exists k | 0 <= k < |actions| :: actions[k].0 == p && actions[k].1 == v
  {
    if actions != [] {
      var front := actions[..|actions| - 1];
      ReachingMembers(front, v);
      assert forall k | 0 <= k < |front| :: front[k] == actions[k];
    }
  }

  /** On a new game there is nothing next to a piece, so `best_move` returns
      no move and `i32::MIN`. */
  lemma InitialHasNoBestMove(choice: nat)
    ensures Pick(Leaders(Ranking(Initial())).1, choice) == None
    ensures Leaders(Ranking(Initial())).0 == I32Min
  {
    InitialHasNoCandidates();
    BestMoveIsAttained(Initial(), choice);
  }
}
