# Gomoku rules engine and alpha-beta player, modelled in Dafny

This project models the core of a Gomoku (five-in-a-row) program on a fixed
15×15 board:

- the rules engine in `src/game.rs`: a `GameState` object holding the grid
  and the side to move, legal placement, and the "longest line through the
  last move" check;
- the computer player in `src/ai.rs`:
  - the static evaluator: every board line is scanned into a 0/1/2 token
    sequence, and pattern shapes are counted in it with a greedy
    left-to-right matcher over a catalogue that is closed under reversal;
  - the per-cell heuristic used to order candidate moves;
  - candidate generation, which keeps the empty cells next to a piece,
    stably sorted by that heuristic;
  - depth-limited minimax with alpha-beta pruning;
  - the root move choice, which keeps every move of the best score and
    breaks ties with a random index.

There are five modules, one file each:

| file | module | what it holds |
|---|---|---|
| `game.dfy` | `Game` | `Piece`, `GameEnd`, the `State` value (board and turn), the `GameState` class over a 15×15 `array2`, runs along a direction (`Ray`, `AxisRun`, `MaxLink`) |
| `shapes.dfy` | `Shapes` | `PieceState`, `inv`, `loopback`, `with_inv`, `count_subarrays` and the greedy scan (`Scan`) that specifies it |
| `evaluation.dfy` | `Evaluation` | `next_point_valid`, the token line of a board line, `sequence`, the pattern catalogue, `evaluate` and its bounds and colour symmetry |
| `movegen.dfy` | `MoveGen` | `evaluate_location`, `generate_moves`, the stable sort by score and its correctness |
| `search.dfy` | `Search` | `minimax`, `best_move`, a reference minimax without pruning and the theorem relating the two |

Each loop of the source is a `method` with loop invariants. Each method is
proved equal to a specification function on values, and the lemmas state the
properties of those functions.

- The rules engine is a class, because `make_move` updates the board in
  place. Its `Snapshot()` maps the object to the `State` value.
- The search methods take a `GameState` object and play each move on a fresh
  clone, as the source does.
- The evaluator and move generator only read the state, so they take a
  `State` value.

Where the code differs from its evident intent (such as the `link_count >= 5` test in `make_move`), the model follows the code:

- **A line of five is never reported as a win.** `get_max_link_count`
  returns the longest run *negated*, so `make_move`'s test `link_count >= 5`
  never holds. `MoveOutcomeIsNotEnd` proves every legal move reports
  `NotEnd`. `FiveInARowIsNotReported` shows this on a concrete position:
  Black holds (0,0) to (3,3) and plays (4,4).
- **The `Win` and `Lost` arms of `minimax` are therefore dead code.** The
  model keeps them (`Terminal`).
- **The non-zero filter in `sequence` always passes.** Every line starts
  with the border token 2 (`LinePassesNonZeroFilter`).
- **`next_point_valid` moves before it reads.** The first cell of each
  line's start is never read into the line (`LineSkipsStart`).
- **`best_move` returns no move on an empty board.** Candidates must touch
  an occupied cell (`InitialHasNoBestMove`).

## Model

| member | source | states |
|---|---|---|
| Game.EmptyBoard | src/game.rs:32 | every cell of the fresh board is empty |
| Game.AxesAreDirs | src/game.rs:70-73 | each of the four axes and its opposite is a unit step |
| Game.Opponent | src/game.rs:52-56 | the side to move after a move is never the side that moved |
| Game.Place | src/game.rs:51-56 | placing a piece puts the mover's colour on that cell, flips the turn and leaves every other cell as it was |
| Game.RayWithinRoom | src/game.rs:75-88 | a walk from a cell never counts more cells than lie between the cell and the board edge in that direction |
| Game.RayCellHolds | src/game.rs:75-88 | every cell the walk counts is on the board and holds the walked piece |
| Game.RayStops | src/game.rs:79-85 | the walk stops exactly at the first cell that is off the board or holds another piece |
| Game.RayIsMaximalRun | src/game.rs:75-88 | the walk's count is the length of the maximal same-piece run leaving the cell in that direction |
| Game.AxisRunBounds | src/game.rs:71-89 | the run along an axis, the cell counted once, lies between 1 and 15 |
| Game.LongestOverIsMax | src/game.rs:70-92 | the running maximum over the first n axes is one of those axes' runs and at least each of them |
| Game.MaxLinkIsLongestRun | src/game.rs:66-93 | the link count before negation is the longest same-piece run through the point over the four axes, between 1 and 15 |
| Game.MoveOutcomeIsNotEnd | src/game.rs:58-63 | the returned link count is negative, so every legal move reports `NotEnd` and never `Win` |
| Game.FiveInARowIsNotReported | src/game.rs:58-63 | a move that completes five in a row on the diagonal still reports `NotEnd` |
| Game.PlaceFillsOneCell | src/game.rs:47-51 | a legal move fills exactly one empty cell |
| Game.InitialIsEmpty | src/game.rs:30-35 | the new game has all 225 cells empty and Black to move |
| Game.SameCellsSameState | src/game.rs:16-20 | two states with the same cells and the same turn are the same state |
| Game.GameState.constructor | src/game.rs:30-35 | a new game object holds the empty board with Black to move |
| Game.GameState.Clone | src/ai.rs:23 | a clone is a fresh object holding the same state as the original |
| Game.GameState.Snapshot | src/game.rs:17-20 | the state value carries the object's turn and every cell of its board |
| Game.GameState.CurrentTurn | src/game.rs:37-39 | the side to move is never `Empty` |
| Game.GameState.PieceAt | src/game.rs:41-43 | `piece` reads the cell of the current board |
| Game.GameState.MakeMove | src/game.rs:45-64 | an off-board or occupied point gives `InvalidMove` and changes nothing; otherwise the board becomes `Place` of the old state and the result is the move's outcome |
| Game.GameState.GetMaxLinkCount | src/game.rs:66-95 | returns the negated longest run through the point |
| Game.GameState.LongestRun | src/game.rs:70-92 | the loop over the four axes keeps the running maximum of the axis runs |
| Game.GameState.CountAlong | src/game.rs:71-89 | the run along one axis is 1 plus the walks in both senses |
| Game.GameState.CountFrom | src/game.rs:74-88 | the walk in one sense counts the same-piece cells up to the first blocked cell |
| Shapes.ReverseAt | src/ai.rs:364-374 | the reversal keeps the length and puts element i at position len-1-i |
| Shapes.ReverseInvolution | src/ai.rs:364-374 | reversing twice gives the sequence back |
| Shapes.Inv | src/ai.rs:364-374 | `inv` returns the reversal of its input |
| Shapes.PalindromeIsSelfReverse | src/ai.rs:337-348 | a sequence is a palindrome exactly when it equals its reversal |
| Shapes.Loopback | src/ai.rs:337-348 | `loopback` answers true exactly when the non-empty sequence is a palindrome |
| Shapes.WithInv | src/ai.rs:350-362 | `with_inv` returns each pattern followed by its reversal, the reversal left out for palindromes |
| Shapes.WithReversalsLength | src/ai.rs:350-362 | the result has one entry per pattern plus one per non-palindromic pattern |
| Shapes.WithReversalsAppend | src/ai.rs:353-359 | the expansion distributes over concatenation |
| Shapes.WithReversalsLayout | src/ai.rs:353-359 | pattern i sits at its offset in the result, with its reversal right after it when it is not a palindrome |
| Shapes.WithReversalsMembers | src/ai.rs:350-362 | every result entry is an input pattern or the reversal of one, with the same shape |
| Shapes.WithReversalsClosed | src/ai.rs:350-362 | the result is closed under reversal |
| Shapes.WithReversalsLengths | src/ai.rs:350-362 | every result entry has the length of some input pattern |
| Shapes.MinLength | src/ai.rs:304-310 | the shortest pattern length is `usize::MAX` for no patterns, is at most every pattern's length, and is at least 1 when no pattern is empty |
| Shapes.MinLengthAttained | src/ai.rs:304-310 | for a non-empty list the minimum is the length of one of the patterns |
| Shapes.FirstMatch | src/ai.rs:319-328 | the pattern search returns an index within the catalogue |
| Shapes.FirstMatchIsFirst | src/ai.rs:319-328 | the chosen pattern matches at i and no earlier pattern in the list does; no result means none matches |
| Shapes.ScanSound | src/ai.rs:316-332 | every credited match really occurs in the line and is the first catalogue pattern matching at its start |
| Shapes.ScanDisjoint | src/ai.rs:321-326 | credited matches do not overlap: the scan resumes after the matched pattern |
| Shapes.ScanSkipsNothing | src/ai.rs:316-332 | the scan passes over no occurrence: every position where a pattern still fits and some pattern matches is the start of a credited match or lies inside the span of one |
| Shapes.ScanBound | src/ai.rs:316-332 | the number of matches times the shortest pattern length is at most the line length |
| Shapes.BumpTotal | src/ai.rs:322-323 | crediting a shape raises the total count by one and keeps every count positive |
| Shapes.TallyTotal | src/ai.rs:322-323 | the count map holds one credit per match, each count at least 1 |
| Shapes.ShapeCountsBound | src/ai.rs:298-335 | a line shorter than every pattern gives no counts; counts are positive and their total times the shortest length is at most the line length |
| Shapes.CreditMatch | src/ai.rs:321-326 | a match at i is credited once and the scan resumes after the matched pattern |
| Shapes.TallySnoc | src/ai.rs:322-323 | crediting one more match bumps its shape's count |
| Shapes.SkipPosition | src/ai.rs:329-331 | where no pattern matches the scan moves on by one position |
| Shapes.ShortestLength | src/ai.rs:304-310 | the loop computes the shortest pattern length |
| Shapes.CountSubarrays | src/ai.rs:298-335 | `count_subarrays` returns the tally of the greedy left-to-right scan |
| Evaluation.CellAt | src/ai.rs:231-240 | token k of a line is the token of the board cell k+1 steps from the start |
| Evaluation.CellsReachEdge | src/ai.rs:231 | the scan runs until the next step leaves the board |
| Evaluation.LineLength | src/ai.rs:229-242 | a line has between 2 and 16 tokens, borders included |
| Evaluation.CellsIgnoreBehind | src/ai.rs:231-240 | the line does not depend on cells behind its start |
| Evaluation.LineSkipsStart | src/ai.rs:228-231 | the start cell itself never enters the line |
| Evaluation.LinePassesNonZeroFilter | src/ai.rs:245-252 | every line contains a non-zero token, so the filter keeps every line |
| Evaluation.NextPointValid | src/ai.rs:284-296 | the step succeeds exactly when it lands on the board; then the point moves by the direction, otherwise it is unchanged |
| Evaluation.ScanLine | src/ai.rs:227-243 | the loop builds border, one token per cell (0 empty, 1 mine, 2 other), border |
| Evaluation.LineStarts | src/ai.rs:209-225 | a direction has 1 + 14 starts per non-zero component, all on the board |
| Evaluation.LineCount | src/ai.rs:206-226 | the evaluator scans 88 lines in total |
| Evaluation.LineStartsOf | src/ai.rs:209-225 | the loops push exactly those starts |
| Evaluation.BaseShape | src/ai.rs:254-274 | every base pattern has at least five tokens and contains an own piece |
| Evaluation.WithReversalsShape | src/ai.rs:350-362 | a length bound and an own piece in every pattern survive the reversal expansion |
| Evaluation.CatalogueShape | src/ai.rs:254-274 | the expanded catalogue has no empty pattern and its shortest pattern has at least five tokens |
| Evaluation.MinLengthAtLeast | src/ai.rs:304-310 | the shortest length is at least any common lower bound |
| Evaluation.AnyNonZero | src/ai.rs:245-252 | the filter loop answers whether some token is non-zero |
| Evaluation.ShapesOfLine | src/ai.rs:253-280 | a line's entries are the shape counts of the catalogue scan, in shape order |
| Evaluation.EntriesOf | src/ai.rs:276-279 | the count map is turned into (shape, count) pairs for the shapes present |
| Evaluation.Sequence | src/ai.rs:205-282 | `sequence` concatenates the entries of every line in every direction |
| Evaluation.ShapesOfStarts | src/ai.rs:227-280 | the entries of one direction are those of its lines, in start order |
| Evaluation.Evaluate | src/ai.rs:139-191 | `evaluate` is the mover's weighted counts minus the opponent's |
| Evaluation.AddWeights | src/ai.rs:152-163 | the first loop adds the mover's weights times counts |
| Evaluation.SubtractWeights | src/ai.rs:165-183 | the second loop subtracts the opponent's weights times counts |
| Evaluation.TermStep | src/ai.rs:152-163 | appending an entry adds its weighted count to its own shape only |
| Evaluation.WeightedSumIsDot | src/ai.rs:152-183 | the running sum equals the sum over shapes of weight times total count |
| Evaluation.ScoreIsDot | src/ai.rs:139-191 | the score depends only on each shape's total count: the mover's table times the mover's totals minus the opponent's table times the opponent's totals |
| Evaluation.CountOfAppend | src/ai.rs:152-183 | a shape's total over a concatenation is the sum of its totals over the parts |
| Evaluation.CountOfRemove | src/ai.rs:152-183 | taking one entry out of a list takes its count out of its shape's total |
| Evaluation.PermRemoveLast | src/ai.rs:276-279 | the last entry of a list occurs in any reordering, and the rest is a reordering of the rest |
| Evaluation.CountOfPerm | src/ai.rs:276-279 | every shape's total is the same for any reordering of the entries |
| Evaluation.WeightedSumPerm | src/ai.rs:152-183 | any reordering of the entries gives the same weighted sum |
| Evaluation.ScoreOrderIndependent | src/ai.rs:139-191 | listing either side's entries in any other order (as another `HashMap` iteration order would) gives the same score |
| Evaluation.WeightRange | src/ai.rs:153-182 | every weight lies between 1 and 1000000 |
| Evaluation.WeightedSumAppend | src/ai.rs:152-183 | the weighted sum distributes over concatenation |
| Evaluation.EntriesWeight | src/ai.rs:276-279 | a count map's entries weigh between 0 and 1000000 times the counts listed |
| Evaluation.CountsWeight | src/ai.rs:276-279 | a line's count map weighs at most 3000000 |
| Evaluation.LineShapesWeight | src/ai.rs:253-280 | each line contributes between 0 and 3000000 to a side's sum |
| Evaluation.ShapesFromWeight | src/ai.rs:227-280 | the lines of one direction weigh at most 3000000 each |
| Evaluation.ShapesAlongWeight | src/ai.rs:205-282 | the lines of the first n directions weigh at most 3000000 per line |
| Evaluation.ScoreBound | src/ai.rs:139-191 | each side's sum lies in [0, 264000000], so the final score lies strictly inside the 32-bit range |
| Evaluation.EntriesPositive | src/ai.rs:276-279 | a count map with positive counts gives entries with positive counts |
| Evaluation.LineShapesPositive | src/ai.rs:253-280 | every entry a line contributes has a positive count |
| Evaluation.ShapesFromPositive | src/ai.rs:227-280 | every entry of one direction's lines has a positive count |
| Evaluation.ShapesAlongPositive | src/ai.rs:205-282 | every entry `sequence` returns has a positive count |
| Evaluation.WeightedSumNonNegative | src/ai.rs:152-183 | entries with positive counts have a non-negative weighted sum |
| Evaluation.PrefixWeight | src/ai.rs:152-183 | with positive counts, every prefix's weighted sum lies between 0 and the whole sum |
| Evaluation.RunningScoreBound | src/ai.rs:150-183 | every value `evaluate`'s accumulator takes in either loop (the prefix sums kept by the `AddWeights` and `SubtractWeights` invariants) lies strictly inside the 32-bit range, so the i32 arithmetic never overflows |
| Evaluation.EmptyCellsAreZero | src/ai.rs:233-234 | a line on an empty board holds no own-piece token |
| Evaluation.NoOwnPieceNoMatch | src/ai.rs:316-332 | a line with no own piece matches no catalogue pattern |
| Evaluation.EntriesOfEmpty | src/ai.rs:276-279 | an empty count map gives no entries |
| Evaluation.EmptyLineShapes | src/ai.rs:253-280 | a line of the empty board has no shapes |
| Evaluation.EmptyShapesFrom | src/ai.rs:227-280 | no direction of the empty board has shapes |
| Evaluation.EmptyShapesAlong | src/ai.rs:205-282 | the empty board has no shapes along any of the first n directions |
| Evaluation.InitialScoresZero | src/ai.rs:139-191 | the opening position has no shapes for either side and scores 0 |
| Evaluation.SwapPiece | src/ai.rs:167-171 | swapping colours keeps empty cells empty |
| Evaluation.SwapColoursInvolution | src/ai.rs:167-171 | exchanging the colours and the side to move twice gives the position back |
| Evaluation.SwappedToken | src/ai.rs:233-239 | a cell's token is unchanged when both the cell and the viewpoint swap colour |
| Evaluation.SwappedCells | src/ai.rs:231-240 | a line read for the other colour on the swapped board is the same line |
| Evaluation.SwappedShapesFrom | src/ai.rs:227-280 | the shapes of one direction are unchanged under colour swap |
| Evaluation.SwappedShapesAlong | src/ai.rs:205-282 | the shapes of the first n directions are unchanged under colour swap |
| Evaluation.ScoreColourSymmetric | src/ai.rs:139-191 | swapping every piece's colour and the side to move leaves the score unchanged |
| MoveGen.RunWeight | src/ai.rs:406-416 | a run scores 0 below three, and otherwise one of 10, 1000 or 100000 |
| MoveGen.ThreatRange | src/ai.rs:403-418 | a colour's threat over n axes lies in [0, 100000 n] and is 0 exactly when every run is shorter than three |
| MoveGen.LocationScoreRange | src/ai.rs:376-421 | the location score lies in [-800000, 0] and is 0 exactly when no colour has a run of three or more through the cell |
| MoveGen.EvaluateLocation | src/ai.rs:376-421 | `evaluate_location` returns the negated sum of the run weights for both colours and all axes |
| MoveGen.RunThrough | src/ai.rs:377-399 | the closure counts the run through the cell along an axis, the cell counted once |
| MoveGen.WalkFrom | src/ai.rs:381-395 | the walk in one sense counts same-colour cells up to the first blocked cell |
| MoveGen.HasNeighbour | src/ai.rs:107-121 | the loops find a neighbour exactly when some on-board cell of the 3×3 block around the point is occupied |
| MoveGen.GenerateMoves | src/ai.rs:98-131 | `generate_moves` returns the candidates scanned column by column, stably sorted by location score |
| MoveGen.ColumnScanFacts | src/ai.rs:102-126 | one column's scan is in scan order, holds only scored candidates and holds every candidate of the column |
| MoveGen.BoardScanFacts | src/ai.rs:101-127 | the board scan is in scan order, holds only scored candidates and holds every candidate |
| MoveGen.InsertMultiset | src/ai.rs:129 | inserting an element adds exactly that element |
| MoveGen.AppendOrdered | src/ai.rs:129 | appending an element that follows everything keeps the order |
| MoveGen.InsertOrdered | src/ai.rs:129 | inserting a later-scanned element keeps ascending score with ties in scan order |
| MoveGen.SortByScoreOrdered | src/ai.rs:129 | the sort is a permutation, ascending by score, stable on ties |
| MoveGen.SortedScanFacts | src/ai.rs:123-129 | the sorted list holds exactly the scored candidates |
| MoveGen.CandidatesCorrect | src/ai.rs:98-131 | a point is returned exactly when it is empty and next to a piece; the list is ascending by location score, ties in scan order, and has no duplicates |
| MoveGen.NoPiecesNoCandidates | src/ai.rs:101-127 | a board without pieces yields no candidates |
| MoveGen.NoPiecesEmptyColumn | src/ai.rs:102-126 | a column of a board without pieces yields no candidates |
| MoveGen.InitialHasNoCandidates | src/ai.rs:98-131 | the opening position has no candidate moves |
| Search.CandidatesAreLegal | src/ai.rs:24 | every generated move is legal, so `make_move` never fails inside the search |
| Search.Terminal | src/ai.rs:25-29 | a finished game scores `i32::MAX` exactly when the maximizing side won, and `i32::MIN` otherwise |
| Search.MaxLoopAtLeast | src/ai.rs:21-36 | the maximizing loop never returns less than its starting best |
| Search.MinLoopAtMost | src/ai.rs:38-53 | the minimizing loop never returns more than its starting best |
| Search.FullMaxAtLeast | src/ai.rs:21-36 | without pruning, the maximum is at least the starting best |
| Search.FullMinAtMost | src/ai.rs:38-53 | without pruning, the minimum is at most the starting best |
| Search.FullMaxLowStart | src/ai.rs:21 | any starting best at or below alpha gives the same clamped maximum |
| Search.FullMinHighStart | src/ai.rs:38 | any starting best at or above beta gives the same clamped minimum |
| Search.AlphaBetaClamp | src/ai.rs:13-55 | inside the window [alpha, beta], alpha-beta agrees with plain minimax: both values clamp to the same number |
| Search.ChildClamp | src/ai.rs:23-29 | a child's pruned and plain values clamp to the same number |
| Search.MaxLoopClamp | src/ai.rs:20-36 | the maximizing loop with its break agrees with the full maximum inside the window |
| Search.MinLoopClamp | src/ai.rs:37-54 | the minimizing loop with its break agrees with the full minimum inside the window |
| Search.AlphaBetaRange | src/ai.rs:13-55 | the search value lies in the 32-bit range |
| Search.ChildRange | src/ai.rs:23-29 | a child's value lies in the 32-bit range |
| Search.MaxLoopRange | src/ai.rs:20-36 | the maximizing loop's value lies in the 32-bit range |
| Search.MinLoopRange | src/ai.rs:37-54 | the minimizing loop's value lies in the 32-bit range |
| Search.PlainMinimaxRange | src/ai.rs:13-55 | the plain minimax value lies in the 32-bit range |
| Search.FullChildRange | src/ai.rs:23-29 | a child's plain value lies in the 32-bit range |
| Search.FullMaxRange | src/ai.rs:20-36 | the full maximum lies in the 32-bit range |
| Search.FullMinRange | src/ai.rs:37-54 | the full minimum lies in the 32-bit range |
| Search.FullWindowIsMinimax | src/ai.rs:71 | with the root window (`i32::MIN`, `i32::MAX`), alpha-beta returns exactly the minimax value |
| Search.Minimax | src/ai.rs:13-55 | `minimax` returns the alpha-beta value of the position |
| Search.Expand | src/ai.rs:18-54 | the inner node searches the generated moves as the maximizing or minimizing loop |
| Search.SearchChild | src/ai.rs:23-29 | one child is played on a clone and scored by recursion, or by its terminal value |
| Search.PlayOnClone | src/ai.rs:23-24 | a fresh clone holds the position after the move, and the result is that move's outcome |
| Search.MaximizingLoop | src/ai.rs:20-36 | the maximizing loop, with its alpha update and break, computes the specified value |
| Search.MinimizingLoop | src/ai.rs:37-54 | the minimizing loop, with its beta update and break, computes the specified value |
| Search.NoneReaching | src/ai.rs:77-84 | when every score is below v, no move reaches v |
| Search.LeadersCorrect | src/ai.rs:77-84 | the best score is at least `i32::MIN` and every score, and is attained unless it is `i32::MIN`; the kept moves are exactly those with the best score, in order |
| Search.Pick | src/ai.rs:86-90 | no move exactly when there are no ties; otherwise one of the tied moves |
| Search.BestMove | src/ai.rs:57-96 | `best_move` returns the best root score and the tie picked by the injected choice |
| Search.Leading | src/ai.rs:77-84 | the loop keeps the best score and the moves that reach it |
| Search.ScoreActions | src/ai.rs:64-75 | every candidate is paired with the minimax value of its position, in candidate order |
| Search.ScoreAction | src/ai.rs:66-74 | one root move is played on a clone and searched to depth 3 for the opponent |
| Search.RankingAt | src/ai.rs:64-75 | the ranking has one legal entry per candidate, carrying its root value |
| Search.BestEvalIsUpperBound | src/ai.rs:57-96 | the reported score is at least the root value and the minimax value of every candidate |
| Search.LeadersTies | src/ai.rs:77-90 | ties are empty exactly when there are no moves, and each tie carries the best score |
| Search.BestMoveIsAttained | src/ai.rs:57-96 | no move is returned exactly when there are no candidates, and then the score is `i32::MIN`; a returned move is a legal candidate whose minimax value is the reported score |
| Search.ReachingMembers | src/ai.rs:77-84 | every move that reaches v carries score v |
| Search.InitialHasNoBestMove | src/ai.rs:57-96 | on the opening position `best_move` returns no move and `i32::MIN` |

## Left out

- `src/main.rs` (the terminal game loop, input parsing, printing) is not part of this model.
- The `Display` implementation for `GameState` is text output only.
- The evaluation cache and the call counter are not modelled. The cache only returns values computed before for the same state, and the counter is only printed.
- The `println!` of the counter in `best_move` is not modelled, since it is output only.
- Parallel scoring of root moves (rayon) is modelled as a sequential loop. The search tasks share nothing but the cache, and the results are collected in candidate order, so this order is the one modelled.
- The random tie-break is an injected `choice: nat`. The model picks index `choice % len`, which is in range like `gen_range(0..len)`.
- The `anyhow` error of `make_move` is a `MoveResult.InvalidMove` value. The `expect` calls in the search cannot fail, because every generated move is legal (`Search.CandidatesAreLegal`).
- `Game.GameState.PieceAt` requires an on-board point. `piece` panics on an index out of the array for a point off the board, and every caller passes an on-board point.
- `Search.BestMove`: the result is stated against the specification functions `Leaders` and `Pick`. The choice among ties is only "some tied move", because the source draws it at random.
- `HashMap` iteration order in `count_subarrays`'s result is unspecified. The model lists shapes in declaration order. `Evaluation.ScoreOrderIndependent` proves that any reordering of either side's entries gives the same score.
- `Shapes.CountSubarrays` requires every pattern to be non-empty (as do `ShapeCounts` and `Scan`). With an empty pattern the source never terminates: the empty pattern matches at every position and `i += subarray_len` adds 0, so the loop spins and adds 1 to an i32 count each pass until a debug build panics on overflow. The only caller passes the catalogue, which has no empty pattern (`Evaluation.CatalogueShape`).
- `Shapes.Loopback` requires a non-empty sequence, because `sequence.len() - 1` underflows on an empty one. Every catalogue pattern is non-empty.
- `Shapes.WithInv` requires every pattern to be non-empty for the same reason: `with_inv` calls `loopback` on each pattern and so panics on an empty one.
- i32 arithmetic is modelled on unbounded `int`. `Evaluation.RunningScoreBound` proves every running value of `evaluate`'s accumulator, and so the final score, stays strictly inside the i32 range, so no wrap-around can occur. Search values lie in the same range (`Search.AlphaBetaRange`).
- The search depth is a `nat`, since `minimax` is only called with depths 3 down to 0.
- `sort_by` is modelled as a stable insertion sort over values. Rust's `sort_by` is a stable merge sort, and any stable sort by the same key gives the same list.
- Memory layout is not modelled: the board is a 15×15 `array2` in the class and a sequence of sequences in the `State` value.
