/** The pattern machinery of the evaluator: the shape categories, sequence
    reversal and palindromes, the catalogue extended with reversed patterns,
    and the greedy left-to-right scan that counts shapes in one line. */
module Shapes {
  import opened Game

  datatype PieceState = Long | Five | RushFour | LiveFour | LiveThree | SleepThree | LiveTwo | SleepTwo

  /** Every shape, in declaration order. */
  const AllShapes: seq<PieceState> := [Long, Five, RushFour, LiveFour, LiveThree, SleepThree, LiveTwo, SleepTwo]

  /** A token pattern with the shape it stands for. */
  type Pattern = (seq<int>, PieceState)

  // ---------------------------------------------------------------------------
  // inv and loopback

  /** The reversal of `s`, in the order `inv` pushes it: the last element first. */
  function Reverse(s: seq<int>): seq<int>
  {
    if s == [] then [] else [s[|s| - 1]] + Reverse(s[..|s| - 1])
  }

  /** Position `i` of the reversal holds position `|s| - 1 - i` of the input. */
  lemma {:induction false} ReverseAt(s: seq<int>)
    ensures |Reverse(s)| == |s|
    ensures forall i | 0 <= i < |s| :: Reverse(s)[i] == s[|s| - 1 - i]
  {
    if s != [] {
      ReverseAt(s[..|s| - 1]);
    }
  }

  /** Reversing twice gives the input back. */
  lemma ReverseInvolution(s: seq<int>)
    ensures Reverse(Reverse(s)) == s
  {
    ReverseAt(s);
    ReverseAt(Reverse(s));
  }

  /** `inv`: copies `s` back to front. */
  method Inv(s: seq<int>) returns (list: seq<int>)
    ensures list == Reverse(s)
  {
    list := [];
    var i := |s|;
    while i > 0
      invariant 0 <= i <= |s|
      invariant |list| == |s| - i
      invariant forall k | 0 <= k < |list| :: list[k] == s[|s| - 1 - k]
    {
      i := i - 1;
      list := list + [s[i]];
    }
    ReverseAt(s);
  }

  /** A palindrome reads the same from both ends. */
  predicate IsPalindrome(s: seq<int>)
  {
    forall i | 0 <= i < |s| :: s[i] == s[|s| - 1 - i]
  }

  /** Being a palindrome is being equal to one's own reversal. */
  lemma PalindromeIsSelfReverse(s: seq<int>)
    ensures IsPalindrome(s) <==> s == Reverse(s)
  {
    ReverseAt(s);
    if !IsPalindrome(s) {
      var i :| 0 <= i < |s| && s[i] != s[|s| - 1 - i];
      assert Reverse(s)[i] != s[i];
    }
  }

  /** `loopback`: compares the two ends moving inwards. An empty input would
      underflow `len() - 1`; every caller passes a non-empty pattern. */
  method Loopback(s: seq<int>) returns (b: bool)
    requires |s| > 0
    ensures b <==> IsPalindrome(s)
  {
    var left, right := 0, |s| - 1;
    while left < right
      invariant 0 <= left <= right + 1 && right == |s| - 1 - left
      invariant forall i | 0 <= i < left :: s[i] == s[|s| - 1 - i]
    {
      if s[left] != s[right] {
        return false;
      }
      left, right := left + 1, right - 1;
    }
    forall i | 0 <= i < |s| ensures s[i] == s[|s| - 1 - i] {
      if left <= i && |s| - 1 - i >= left {
        assert i == |s| - 1 - i;
      }
    }
    return true;
  }

  // ---------------------------------------------------------------------------
  // with_inv

  /** A pattern, followed by its reversal under the same shape when it is not a palindrome. */
  function Oriented(p: Pattern): seq<Pattern>
  {
    if IsPalindrome(p.0) then [p] else [p, (Reverse(p.0), p.1)]
  }

  /** What `with_inv` builds: every pattern in order, each followed by its
      reversal when it is not a palindrome. */
  function WithReversals(ps: seq<Pattern>): seq<Pattern>
  {
    if ps == [] then [] else WithReversals(ps[..|ps| - 1]) + Oriented(ps[|ps| - 1])
  }

  /** The number of patterns in `ps` that are not palindromes. */
  function NonPalindromes(ps: seq<Pattern>): nat
  {
    if ps == [] then 0 else NonPalindromes(ps[..|ps| - 1]) + (if IsPalindrome(ps[|ps| - 1].0) then 0 else 1)
  }

  predicate NonEmptyPatterns(ps: seq<Pattern>)
  {
    forall j | 0 <= j < |ps| :: |ps[j].0| > 0
  }

  /** `with_inv`: pushes each pattern, then its reversal unless `loopback` says it is a palindrome. */
  method WithInv(patterns: seq<Pattern>) returns (result: seq<Pattern>)
    requires NonEmptyPatterns(patterns)
    ensures result == WithReversals(patterns)
  {
    result := [];
    for j := 0 to |patterns|
      invariant result == WithReversals(patterns[..j])
    {
      var (pattern, state) := patterns[j];
      assert patterns[..j + 1][..j] == patterns[..j];
      result := result + [(pattern, state)];
      var palindrome := Loopback(pattern);
      if !palindrome {
        var reversed := Inv(pattern);
        result := result + [(reversed, state)];
      }
    }
    assert patterns[..|patterns|] == patterns;
  }

  /** The output holds one entry per pattern plus one per non-palindrome. */
  lemma {:induction false} WithReversalsLength(ps: seq<Pattern>)
    ensures |WithReversals(ps)| == |ps| + NonPalindromes(ps)
  {
    if ps != [] {
      WithReversalsLength(ps[..|ps| - 1]);
    }
  }

  /** `with_inv` works pattern by pattern: the output for a concatenation is
      the concatenation of the outputs. */
  lemma {:induction false} WithReversalsAppend(xs: seq<Pattern>, ys: seq<Pattern>)
    ensures WithReversals(xs + ys) == WithReversals(xs) + WithReversals(ys)
  {
    if ys == [] {
      assert xs + ys == xs;
    } else {
      var n := |ys| - 1;
      assert (xs + ys)[..|xs + ys| - 1] == xs + ys[..n];
      WithReversalsAppend(xs, ys[..n]);
    }
  }

  /** Pattern `i` sits at index `i + NonPalindromes(ps[..i])` of the output, with its
      tag, and its reversal (same tag) comes right after it exactly when it is
      not a palindrome. */
  lemma WithReversalsLayout(ps: seq<Pattern>, i: nat)
    requires i < |ps|
    ensures i + NonPalindromes(ps[..i]) < |WithReversals(ps)|
    ensures WithReversals(ps)[i + NonPalindromes(ps[..i])] == ps[i]
    ensures !IsPalindrome(ps[i].0) ==>
      i + NonPalindromes(ps[..i]) + 1 < |WithReversals(ps)|
      && WithReversals(ps)[i + NonPalindromes(ps[..i]) + 1] == (Reverse(ps[i].0), ps[i].1)
  {
    var front, here, back := ps[..i], Oriented(ps[i]), WithReversals(ps[i + 1..]);
    assert ps == front + [ps[i]] + ps[i + 1..];
    WithReversalsAppend(front + [ps[i]], ps[i + 1..]);
    WithReversalsAppend(front, [ps[i]]);
    assert WithReversals([ps[i]]) == here by {
      assert [ps[i]][..0] == [];
    }
    WithReversalsLength(front);
    assert WithReversals(ps) == WithReversals(front) + here + back;
  }

  /** Every output entry is an input pattern or the reversal of one, with that pattern's tag. */
  lemma {:induction false} WithReversalsMembers(ps: seq<Pattern>, e: Pattern)
    requires e in WithReversals(ps)
    ensures exists j | 0 <= j < |ps| :: e == ps[j] || e == (Reverse(ps[j].0), ps[j].1)
  {
    var n := |ps| - 1;
    if e in WithReversals(ps[..n]) {
      WithReversalsMembers(ps[..n], e);
      var j :| 0 <= j < n && (e == ps[..n][j] || e == (Reverse(ps[..n][j].0), ps[..n][j].1));
      assert ps[..n][j] == ps[j];
    } else {
      assert e == ps[n] || e == (Reverse(ps[n].0), ps[n].1);
    }
  }

  /** The output is closed under reversal: with every entry, its reversed
      pattern under the same tag is present too. */
  lemma WithReversalsClosed(ps: seq<Pattern>, e: Pattern)
    requires e in WithReversals(ps)
    ensures (Reverse(e.0), e.1) in WithReversals(ps)
  {
    WithReversalsMembers(ps, e);
    var j :| 0 <= j < |ps| && (e == ps[j] || e == (Reverse(ps[j].0), ps[j].1));
    var r, k := WithReversals(ps), j + NonPalindromes(ps[..j]);
    WithReversalsLayout(ps, j);
    ReverseInvolution(ps[j].0);
    PalindromeIsSelfReverse(ps[j].0);
    if e == ps[j] {
      if !IsPalindrome(ps[j].0) {
        assert r[k + 1] == (Reverse(e.0), e.1);
      } else {
        assert r[k] == (Reverse(e.0), e.1);
      }
    } else {
      assert Reverse(e.0) == ps[j].0;
      assert r[k] == (Reverse(e.0), e.1);
    }
  }

  /** Every output pattern is as long as some input pattern. */
  lemma WithReversalsLengths(ps: seq<Pattern>, e: Pattern)
    requires e in WithReversals(ps)
    ensures exists j | 0 <= j < |ps| :: |e.0| == |ps[j].0|
  {
    WithReversalsMembers(ps, e);
    var j :| 0 <= j < |ps| && (e == ps[j] || e == (Reverse(ps[j].0), ps[j].1));
    ReverseAt(ps[j].0);
  }

  // ---------------------------------------------------------------------------
  // count_subarrays

  /** `usize::MAX`, the starting value of the shortest-length search. */
  const UsizeMax: nat := 0xFFFF_FFFF_FFFF_FFFF

  /** The shortest pattern length, or `usize::MAX` when there is no pattern. */
  function MinLength(ps: seq<Pattern>): (len: nat)
    ensures ps == [] ==> len == UsizeMax
    ensures forall j | 0 <= j < |ps| :: len <= |ps[j].0|
    ensures NonEmptyPatterns(ps) ==> len >= 1
  {
    if ps == [] then UsizeMax
    else
      var m := MinLength(ps[..|ps| - 1]);
      var l := |ps[|ps| - 1].0|;
      if l < m then l else m
  }

  /** For a non-empty list the shortest length is that of one of the patterns. */
  lemma {:induction false} MinLengthAttained(ps: seq<Pattern>)
    requires ps != [] && forall j | 0 <= j < |ps| :: |ps[j].0| < UsizeMax
    ensures exists j | 0 <= j < |ps| :: MinLength(ps) == |ps[j].0|
  {
    var n := |ps| - 1;
    if n > 0 && MinLength(ps[..n]) <= |ps[n].0| {
      assert forall j | 0 <= j < n :: ps[..n][j] == ps[j];
      MinLengthAttained(ps[..n]);
      var j :| 0 <= j < n && MinLength(ps[..n]) == |ps[..n][j].0|;
      assert ps[..n][j] == ps[j];
    } else {
      assert MinLength(ps) == |ps[n].0|;
    }
  }

  /** Pattern `p` occurs in `a` starting at `i`. */
  predicate MatchesAt(a: seq<int>, p: seq<int>, i: nat)
  {
    i + |p| <= |a| && a[i..i + |p|] == p
  }

  /** The first pattern, in list order from index `j`, that occurs in `a` at `i`. */
  function FirstMatch(a: seq<int>, ps: seq<Pattern>, i: nat, j: nat): (r: Option<nat>)
    ensures r.Some? ==> j <= r.value < |ps|
    decreases |ps| - j
  {
    if j >= |ps| then None
    else if MatchesAt(a, ps[j].0, i) then Some(j)
    else FirstMatch(a, ps, i, j + 1)
  }

  /** `FirstMatch` finds an occurring pattern with none occurring before it,
      and finds nothing only when no pattern from `j` on occurs. */
  lemma {:induction false} FirstMatchIsFirst(a: seq<int>, ps: seq<Pattern>, i: nat, j: nat)
    ensures var r := FirstMatch(a, ps, i, j);
      && (r.Some? ==> MatchesAt(a, ps[r.value].0, i) && forall l | j <= l < r.value :: !MatchesAt(a, ps[l].0, i))
      && (r.None? ==> forall l | j <= l < |ps| :: !MatchesAt(a, ps[l].0, i))
    decreases |ps| - j
  {
    if j < |ps| && !MatchesAt(a, ps[j].0, i) {
      FirstMatchIsFirst(a, ps, i, j + 1);
    }
  }

  /** One credited occurrence: where it starts, which catalogue entry matched
      and the shape that entry stands for. */
  datatype Match = Match(start: nat, index: nat, shape: PieceState)

  /** The matches the greedy scan makes from position `i`: the scan runs while a
      pattern of length `len` still fits, credits the first pattern that matches
      and jumps past it, or moves on by one. */
  function Scan(a: seq<int>, ps: seq<Pattern>, len: nat, i: nat): seq<Match>
    requires 1 <= len && NonEmptyPatterns(ps)
    decreases |a| - i
  {
    if i + len > |a| then []
    else match FirstMatch(a, ps, i, 0)
      case None => Scan(a, ps, len, i + 1)
      case Some(j) => [Match(i, j, ps[j].1)] + Scan(a, ps, len, i + |ps[j].0|)
  }

  /** Match `m` is an occurrence of catalogue entry `m.index`, tagged with its shape. */
  predicate Credited(a: seq<int>, ps: seq<Pattern>, m: Match)
  {
    m.index < |ps| && MatchesAt(a, ps[m.index].0, m.start) && m.shape == ps[m.index].1
  }

  /** Every match of the scan from `i` starts at or after `i`, is a real
      occurrence of its entry, and that entry is the first in catalogue order
      to occur there. */
  lemma {:induction false} ScanSound(a: seq<int>, ps: seq<Pattern>, len: nat, i: nat)
    requires 1 <= len && NonEmptyPatterns(ps)
    ensures forall m | m in Scan(a, ps, len, i) ::
      i <= m.start && Credited(a, ps, m) && FirstMatch(a, ps, m.start, 0) == Some(m.index)
    decreases |a| - i
  {
    if i + len <= |a| {
      match FirstMatch(a, ps, i, 0)
      case None =>
        ScanSound(a, ps, len, i + 1);
      case Some(j) =>
        FirstMatchIsFirst(a, ps, i, 0);
        ScanSound(a, ps, len, i + |ps[j].0|);
    }
  }

  /** Each match in `r` ends at or before the start of the next one. */
  predicate Disjoint(r: seq<Match>, ps: seq<Pattern>)
  {
    forall k | 0 <= k < |r| - 1 :: r[k].index < |ps| && r[k].start + |ps[r[k].index].0| <= r[k + 1].start
  }

  /** Consecutive matches do not overlap: each starts at or after the end of the previous one. */
  lemma {:induction false} ScanDisjoint(a: seq<int>, ps: seq<Pattern>, len: nat, i: nat)
    requires 1 <= len && NonEmptyPatterns(ps)
    ensures Disjoint(Scan(a, ps, len, i), ps)
    decreases |a| - i
  {
    var r := Scan(a, ps, len, i);
    if i + len <= |a| {
      match FirstMatch(a, ps, i, 0)
      case None =>
        ScanDisjoint(a, ps, len, i + 1);
      case Some(j) =>
        var next := i + |ps[j].0|;
        var rest := Scan(a, ps, len, next);
        assert r == [Match(i, j, ps[j].1)] + rest;
        ScanDisjoint(a, ps, len, next);
        ScanSound(a, ps, len, next);
        forall k | 0 <= k < |r| - 1
          ensures r[k].index < |ps| && r[k].start + |ps[r[k].index].0| <= r[k + 1].start
        {
          assert r[k + 1] == rest[k];
          if k > 0 {
            assert r[k] == rest[k - 1];
          } else {
            assert rest[0] in rest;
          }
        }
    }
  }

  /** Each match uses up at least `len` positions, so there are at most
      `(|a| - i) / len` of them. */
  lemma {:induction false} ScanBound(a: seq<int>, ps: seq<Pattern>, len: nat, i: nat)
    requires 1 <= len && NonEmptyPatterns(ps) && i <= |a|
    requires forall j | 0 <= j < |ps| :: len <= |ps[j].0|
    ensures |Scan(a, ps, len, i)| * len <= |a| - i
    decreases |a| - i
  {
    if i + len <= |a| {
      match FirstMatch(a, ps, i, 0)
      case None =>
        ScanBound(a, ps, len, i + 1);
      case Some(j) =>
        FirstMatchIsFirst(a, ps, i, 0);
        var step := |ps[j].0|;
        var n := |Scan(a, ps, len, i + step)|;
        assert |Scan(a, ps, len, i)| == n + 1;
        ScanBound(a, ps, len, i + step);
        MulSucc(n, len);
    }
  }

  /** An arithmetic step for `ScanBound`. */
  lemma MulSucc(n: nat, m: nat)
    ensures (n + 1) * m == n * m + m
  {
  }

  /** Match `m` credits an occurrence that spans position `k`. */
  predicate Covers(ps: seq<Pattern>, m: Match, k: nat)
  {
    m.index < |ps| && m.start <= k < m.start + |ps[m.index].0|
  }

  /** The scan passes over no occurrence: every position from `i` on where a
      pattern of length `len` still fits and some pattern matches lies inside
      a credited match, either as its start or within the span the scan
      jumped over. */
  lemma {:induction false} ScanSkipsNothing(a: seq<int>, ps: seq<Pattern>, len: nat, i: nat)
    requires 1 <= len && NonEmptyPatterns(ps)
    ensures forall k | i <= k && k + len <= |a| && FirstMatch(a, ps, k, 0).Some? ::
      exists m | m in Scan(a, ps, len, i) :: Covers(ps, m, k)
    decreases |a| - i
  {
    if i + len <= |a| {
      var r := Scan(a, ps, len, i);
      match FirstMatch(a, ps, i, 0)
      case None =>
        ScanSkipsNothing(a, ps, len, i + 1);
      case Some(j) =>
        var next := i + |ps[j].0|;
        var rest := Scan(a, ps, len, next);
        assert r == [Match(i, j, ps[j].1)] + rest;
        ScanSkipsNothing(a, ps, len, next);
        forall k | i <= k && k + len <= |a| && FirstMatch(a, ps, k, 0).Some?
          ensures exists m | m in r :: Covers(ps, m, k)
        {
          if k < next {
            assert Covers(ps, r[0], k);
          } else {
            var m :| m in rest && Covers(ps, m, k);
            assert m in r;
          }
        }
    }
  }

  /** `count.get(state).unwrap_or(0) + 1` stored back under `state`. */
  function Bump(m: map<PieceState, int>, k: PieceState): map<PieceState, int>
  {
    m[k := (if k in m then m[k] else 0) + 1]
  }

  /** The per-shape tally of a list of matches. */
  function Tally(ms: seq<Match>): map<PieceState, int>
  {
    if ms == [] then map[] else Bump(Tally(ms[..|ms| - 1]), ms[|ms| - 1].shape)
  }

  /** What `count_subarrays` returns: nothing for an array shorter than every
      pattern, otherwise the tally of the greedy scan. */
  function ShapeCounts(a: seq<int>, ps: seq<Pattern>): map<PieceState, int>
    requires NonEmptyPatterns(ps)
  {
    var len := MinLength(ps);
    if |a| < len then map[] else Tally(Scan(a, ps, len, 0))
  }

  /** The count of `k` in a tally, 0 when absent. */
  function Get(m: map<PieceState, int>, k: PieceState): int
  {
    if k in m then m[k] else 0
  }

  /** The sum of all counts of a tally. */
  function Total(m: map<PieceState, int>): int
  {
    Get(m, Long) + Get(m, Five) + Get(m, RushFour) + Get(m, LiveFour)
      + Get(m, LiveThree) + Get(m, SleepThree) + Get(m, LiveTwo) + Get(m, SleepTwo)
  }

  /** Bumping a key adds one to the total and keeps every count positive. */
  lemma BumpTotal(m: map<PieceState, int>, k: PieceState)
    ensures Total(Bump(m, k)) == Total(m) + 1
    ensures (forall l | l in m :: m[l] >= 1) ==> forall l | l in Bump(m, k) :: Bump(m, k)[l] >= 1
  {
    var b := Bump(m, k);
    forall l ensures Get(b, l) == Get(m, l) + (if l == k then 1 else 0) {
    }
  }

  /** A tally holds only positive counts and adds up to the number of matches. */
  lemma {:induction false} TallyTotal(ms: seq<Match>)
    ensures Total(Tally(ms)) == |ms|
    ensures forall k | k in Tally(ms) :: Tally(ms)[k] >= 1
  {
    if ms != [] {
      var front := ms[..|ms| - 1];
      TallyTotal(front);
      BumpTotal(Tally(front), ms[|ms| - 1].shape);
    }
  }

  /** The counts `count_subarrays` returns are positive, and a short array gets
      none; in all, they are at most the array length over the shortest pattern. */
  lemma ShapeCountsBound(a: seq<int>, ps: seq<Pattern>)
    requires NonEmptyPatterns(ps)
    ensures |a| < MinLength(ps) ==> ShapeCounts(a, ps) == map[]
    ensures forall k | k in ShapeCounts(a, ps) :: ShapeCounts(a, ps)[k] >= 1
    ensures Total(ShapeCounts(a, ps)) * MinLength(ps) <= |a|
  {
    var len := MinLength(ps);
    if |a| >= len {
      ScanBound(a, ps, len, 0);
      TallyTotal(Scan(a, ps, len, 0));
    }
  }

  /** The first loop of `count_subarrays`: the shortest pattern length. */
  method ShortestLength(subarrays: seq<Pattern>) returns (len: nat)
    ensures len == MinLength(subarrays)
  {
    len := UsizeMax;
    for j := 0 to |subarrays|
      invariant len == MinLength(subarrays[..j])
    {
      assert subarrays[..j + 1][..j] == subarrays[..j];
      if |subarrays[j].0| < len {
        len := |subarrays[j].0|;
      }
    }
    assert subarrays[..|subarrays|] == subarrays;
  }

  /** `count_subarrays`: finds the shortest pattern length, then scans left to
      right crediting the first matching pattern and skipping its span. */
  method CountSubarrays(line: seq<int>, subarrays: seq<Pattern>) returns (count: map<PieceState, int>)
    requires NonEmptyPatterns(subarrays)
    ensures count == ShapeCounts(line, subarrays)
  {
    var lineLen := |line|;
    count := map[];
    var len := ShortestLength(subarrays);
    if lineLen < len {
      return;
    }
    var i := 0;
    ghost var done: seq<Match> := [];
    ghost var matches := Scan(line, subarrays, len, 0);
    assert done + matches == matches;
    while i < lineLen - len + 1
      invariant 0 <= i <= lineLen
      invariant count == Tally(done)
      invariant done + Scan(line, subarrays, len, i) == matches
      decreases lineLen - i
    {
      ghost var here, done0, count0 := i, done, count;
      var found := false;
      var j := 0;
      while j < |subarrays|
        invariant 0 <= j <= |subarrays| && i == here && done == done0 && count == count0 && !found
        invariant FirstMatch(line, subarrays, i, 0) == FirstMatch(line, subarrays, i, j)
      {
        var subarray, state := subarrays[j].0, subarrays[j].1;
        if i + |subarray| <= lineLen && line[i..i + |subarray|] == subarray {
          CreditMatch(line, subarrays, len, i, j, done, matches);
          var c := (if state in count then count[state] else 0) + 1;
          count := count[state := c];
          done := done + [Match(i, j, state)];
          i := i + |subarray|;
          found := true;
          break;
        }
        j := j + 1;
      }
      if !found {
        SkipPosition(line, subarrays, len, i);
        i := i + 1;
        assert done + Scan(line, subarrays, len, i) == matches;
      }
    }
    assert Scan(line, subarrays, len, i) == [];
    assert done + [] == done;
  }

  /** One step of the scan that credits pattern `j` at position `i`. */
  lemma CreditMatch(a: seq<int>, ps: seq<Pattern>, len: nat, i: nat, j: nat, done: seq<Match>, matches: seq<Match>)
    requires 1 <= len && NonEmptyPatterns(ps) && i + len <= |a| && j < |ps|
    requires MatchesAt(a, ps[j].0, i) && FirstMatch(a, ps, i, 0) == FirstMatch(a, ps, i, j)
    requires done + Scan(a, ps, len, i) == matches
    ensures (done + [Match(i, j, ps[j].1)]) + Scan(a, ps, len, i + |ps[j].0|) == matches
    ensures Tally(done + [Match(i, j, ps[j].1)]) == Bump(Tally(done), ps[j].1)
  {
    var m := Match(i, j, ps[j].1);
    var rest := Scan(a, ps, len, i + |ps[j].0|);
    assert FirstMatch(a, ps, i, j) == Some(j);
    assert Scan(a, ps, len, i) == [m] + rest;
    assert done + ([m] + rest) == (done + [m]) + rest;
    TallySnoc(done, m);
  }

  /** Appending a match bumps its shape. */
  lemma TallySnoc(done: seq<Match>, m: Match)
    ensures Tally(done + [m]) == Bump(Tally(done), m.shape)
  {
    assert (done + [m])[..|done|] == done;
  }

  /** One step of the scan where no pattern matches at `i`. */
  lemma SkipPosition(a: seq<int>, ps: seq<Pattern>, len: nat, i: nat)
    requires 1 <= len && NonEmptyPatterns(ps) && i + len <= |a|
    requires FirstMatch(a, ps, i, 0).None?
    ensures Scan(a, ps, len, i) == Scan(a, ps, len, i + 1)
  {
  }
}
