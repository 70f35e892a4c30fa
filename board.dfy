/** The board of the backgammon engine: the two player tokens, move endpoints,
    the 24 points, the bars, the borne-off stacks and the checker counts, with the
    structural facts (shape, single ownership, checker counting) that the rules
    and the move generator rely on. */
module BoardState {

  datatype Option<T> = None | Some(value: T)

  /** The two player tokens, 'o' and 'x'. */
  datatype Player = O | X

  /** One end of a move: a point index, the bar (entering) or off the board (bearing off). */
  datatype Endpoint = Pt(i: int) | On | Off

  datatype Move = Move(src: Endpoint, dst: Endpoint)

  /** Everything played for one roll, in order. */
  type Action = seq<Move>

  /** A dictionary keyed by the two tokens: one value for 'o', one for 'x'. */
  datatype PerPlayer<T> = PerPlayer(o: T, x: T)
  {
    function Get(p: Player): T
    {
      if p == O then o else x
    }

    /** The dictionary with `p`'s entry replaced and the other entry kept. */
    function Set(p: Player, v: T): (r: PerPlayer<T>)
      ensures r.Get(p) == v
      ensures forall q :: q != p ==> r.Get(q) == Get(q)
    {
      if p == O then this.(o := v) else this.(x := v)
    }
  }

  /** `grid` holds one stack per point, bottom checker first; `bar`, `off` and `num`
      are the per-player dictionaries; `players` is the ordered token list whose
      first element moves towards higher point indices. */
  datatype Board = Board(
    grid: seq<seq<Player>>,
    bar: PerPlayer<seq<Player>>,
    off: PerPlayer<seq<Player>>,
    num: PerPlayer<nat>,
    players: seq<Player>)

  const NumCols: int := 24
  const Quad: int := 6

  /** The other token of the two. */
  function Opponent(p: Player): (q: Player)
    ensures q != p && (q == O || q == X)
  {
    if p == O then X else O
  }

  lemma {:induction false} OpponentInvolution(p: Player)
    ensures Opponent(Opponent(p)) == p && Opponent(p) != p
  {
    match p
    case O =>
    case X =>
  }

  function Top(s: seq<Player>): Player
    requires |s| > 0
  {
    s[|s| - 1]
  }

  function Pop(s: seq<Player>): seq<Player>
    requires |s| > 0
  {
    s[..|s| - 1]
  }

  lemma PopPush(s: seq<Player>)
    requires |s| > 0
    ensures Pop(s) + [Top(s)] == s
  {
  }

  /** 24 points and two distinct tokens in `players`. */
  predicate Shaped(b: Board)
  {
    && |b.grid| == NumCols
    && |b.players| == 2 && b.players[0] != b.players[1]
  }


  // ---- the list operations the engine performs on the board ----

  /** `grid[e].pop()`: the checker taken is `Top(b.grid[e])`. */
  function PointPop(b: Board, e: int): (r: Board)
    requires Shaped(b) && 0 <= e < NumCols && |b.grid[e]| > 0
    ensures Shaped(r) && r.players == b.players && r.num == b.num
  {
    b.(grid := b.grid[e := Pop(b.grid[e])])
  }

  /** `grid[e].append(x)`. */
  function PointPush(b: Board, e: int, x: Player): (r: Board)
    requires Shaped(b) && 0 <= e < NumCols
    ensures Shaped(r) && r.players == b.players && r.num == b.num
  {
    b.(grid := b.grid[e := b.grid[e] + [x]])
  }

  /** `bar_pieces[p].pop()`. */
  function BarPop(b: Board, p: Player): (r: Board)
    requires Shaped(b) && |b.bar.Get(p)| > 0
    ensures Shaped(r) && r.players == b.players && r.num == b.num
  {
    b.(bar := b.bar.Set(p, Pop(b.bar.Get(p))))
  }

  /** `bar_pieces[p].append(x)`. */
  function BarPush(b: Board, p: Player, x: Player): (r: Board)
    requires Shaped(b)
    ensures Shaped(r) && r.players == b.players && r.num == b.num
  {
    b.(bar := b.bar.Set(p, b.bar.Get(p) + [x]))
  }

  /** `off_pieces[p].pop()`. */
  function OffPop(b: Board, p: Player): (r: Board)
    requires Shaped(b) && |b.off.Get(p)| > 0
    ensures Shaped(r) && r.players == b.players && r.num == b.num
  {
    b.(off := b.off.Set(p, Pop(b.off.Get(p))))
  }

  /** `off_pieces[p].append(x)`. */
  function OffPush(b: Board, p: Player, x: Player): (r: Board)
    requires Shaped(b)
    ensures Shaped(r) && r.players == b.players && r.num == b.num
  {
    b.(off := b.off.Set(p, b.off.Get(p) + [x]))
  }

  /** Popping right after pushing gives the board back, and the popped checker is the pushed one. */
  lemma PointRoundTrip(b: Board, e: int, x: Player)
    requires Shaped(b) && 0 <= e < NumCols
    ensures Top(PointPush(b, e, x).grid[e]) == x && PointPop(PointPush(b, e, x), e) == b
  {
    assert Pop(b.grid[e] + [x]) == b.grid[e];
    assert b.grid[e := b.grid[e]] == b.grid;
  }

  /** Pushing back the checker just popped gives the board back. */
  lemma PointUnpop(b: Board, e: int)
    requires Shaped(b) && 0 <= e < NumCols && |b.grid[e]| > 0
    ensures PointPush(PointPop(b, e), e, Top(b.grid[e])) == b
  {
    PopPush(b.grid[e]);
    assert PointPush(PointPop(b, e), e, Top(b.grid[e])).grid == b.grid;
  }

  lemma BarRoundTrip(b: Board, p: Player, x: Player)
    requires Shaped(b)
    ensures Top(BarPush(b, p, x).bar.Get(p)) == x && BarPop(BarPush(b, p, x), p) == b
  {
    assert Pop(b.bar.Get(p) + [x]) == b.bar.Get(p);
    assert BarPop(BarPush(b, p, x), p).bar == b.bar;
  }

  lemma BarUnpop(b: Board, p: Player)
    requires Shaped(b) && |b.bar.Get(p)| > 0
    ensures BarPush(BarPop(b, p), p, Top(b.bar.Get(p))) == b
  {
    PopPush(b.bar.Get(p));
    assert BarPush(BarPop(b, p), p, Top(b.bar.Get(p))).bar == b.bar;
  }

  lemma OffRoundTrip(b: Board, p: Player, x: Player)
    requires Shaped(b)
    ensures Top(OffPush(b, p, x).off.Get(p)) == x && OffPop(OffPush(b, p, x), p) == b
  {
    assert Pop(b.off.Get(p) + [x]) == b.off.Get(p);
    assert OffPop(OffPush(b, p, x), p).off == b.off;
  }

  /** The player listed first moves towards point 23 with positive dice. */
  predicate Forward(b: Board, p: Player)
    requires Shaped(b)
  {
    p == b.players[0]
  }

  lemma {:induction false} PlayersCover(b: Board, p: Player)
    requires Shaped(b)
    ensures p == b.players[0] || p == b.players[1]
    ensures p == b.players[0] ==> b.players[1] == Opponent(p)
    ensures p == b.players[1] ==> b.players[0] == Opponent(p)
  {
    match p
    case O =>
    case X =>
  }

  /** Every checker on the stack has the same owner. */
  predicate Uniform(s: seq<Player>)
  {
    forall k :: 0 <= k < |s| ==> s[k] == s[0]
  }

  /** Every checker on the stack is `p`'s. */
  predicate AllOf(s: seq<Player>, p: Player)
  {
    forall k :: 0 <= k < |s| ==> s[k] == p
  }

  /** The board invariant: every point has one owner,
      and each bar and each off stack holds only its own player's checkers. */
  predicate Wellformed(b: Board)
  {
    && Shaped(b)
    && (forall i :: 0 <= i < NumCols ==> Uniform(b.grid[i]))
    && AllOf(b.bar.Get(O), O) && AllOf(b.bar.Get(X), X)
    && AllOf(b.off.Get(O), O) && AllOf(b.off.Get(X), X)
  }

  /** How many checkers `p` has on a point, the way the source counts them:
      the height of the stack when its bottom checker is `p`'s. */
  function Own(s: seq<Player>, p: Player): nat
  {
    if |s| > 0 && s[0] == p then |s| else 0
  }

  /** The checkers `p` owns on points lo..hi-1. */
  function Owned(grid: seq<seq<Player>>, p: Player, lo: int, hi: int): nat
    requires 0 <= lo <= hi <= |grid|
    decreases hi - lo
  {
    if hi == lo then 0 else Owned(grid, p, lo, hi - 1) + Own(grid[hi - 1], p)
  }

  /** All of `p`'s checkers: on the points, on its bar and borne off. */
  function Count(b: Board, p: Player): nat
    requires Shaped(b)
  {
    Owned(b.grid, p, 0, NumCols) + |b.bar.Get(p)| + |b.off.Get(p)|
  }

  /** A player's count changes by the changes of its three parts. */
  lemma CountDelta(b: Board, c: Board, p: Player, dOwned: int, dBar: int, dOff: int)
    requires Shaped(b) && Shaped(c)
    requires Owned(c.grid, p, 0, NumCols) == Owned(b.grid, p, 0, NumCols) + dOwned
    requires |c.bar.Get(p)| == |b.bar.Get(p)| + dBar
    requires |c.off.Get(p)| == |b.off.Get(p)| + dOff
    ensures Count(c, p) == Count(b, p) + dOwned + dBar + dOff
  {
  }

  /** Replacing one point changes the count over a range by the difference on that point. */
  lemma {:induction false} OwnedUpdate(grid: seq<seq<Player>>, p: Player, lo: int, hi: int, i: int, v: seq<Player>)
    requires 0 <= lo <= hi <= |grid| && 0 <= i < |grid|
    ensures lo <= i < hi ==> Owned(grid[i := v], p, lo, hi) + Own(grid[i], p) == Owned(grid, p, lo, hi) + Own(v, p)
    ensures !(lo <= i < hi) ==> Owned(grid[i := v], p, lo, hi) == Owned(grid, p, lo, hi)
    decreases hi - lo
  {
    if hi > lo {
      OwnedUpdate(grid, p, lo, hi - 1, i, v);
    }
  }

  /** Replacing one point changes a player's count by the difference on that point and
      the changes of its bar and off stack. */
  lemma CountAfterPoint(b: Board, c: Board, p: Player, e: int)
    requires Shaped(b) && Shaped(c) && 0 <= e < NumCols && c.grid == b.grid[e := c.grid[e]]
    ensures Count(c, p) + Own(b.grid[e], p) + |b.bar.Get(p)| + |b.off.Get(p)|
         == Count(b, p) + Own(c.grid[e], p) + |c.bar.Get(p)| + |c.off.Get(p)|
  {
    OwnedUpdate(b.grid, p, 0, NumCols, e, c.grid[e]);
  }

  /** The count over lo..hi splits at any midpoint. */
  lemma {:induction false} OwnedSplit(grid: seq<seq<Player>>, p: Player, lo: int, mid: int, hi: int)
    requires 0 <= lo <= mid <= hi <= |grid|
    ensures Owned(grid, p, lo, hi) == Owned(grid, p, lo, mid) + Owned(grid, p, mid, hi)
    decreases hi - mid
  {
    if hi > mid {
      OwnedSplit(grid, p, lo, mid, hi - 1);
    }
  }

  /** `p` owns no checker on lo..hi-1 exactly when no point there has `p` at the bottom. */
  lemma {:induction false} OwnedZero(grid: seq<seq<Player>>, p: Player, lo: int, hi: int)
    requires 0 <= lo <= hi <= |grid|
    ensures Owned(grid, p, lo, hi) == 0 <==> forall i :: lo <= i < hi ==> Own(grid[i], p) == 0
    decreases hi - lo
  {
    if hi > lo {
      OwnedZero(grid, p, lo, hi - 1);
    }
  }

  /** `reverse`: the board seen from the other side, points and player order reversed. */
  function Reversed(b: Board): (r: Board)
    requires Shaped(b)
    ensures Shaped(r)
    ensures forall i :: 0 <= i < NumCols ==> r.grid[i] == b.grid[NumCols - 1 - i]
    ensures r.players == [b.players[1], b.players[0]]
    ensures r.bar == b.bar && r.off == b.off && r.num == b.num
  {
    b.(grid := seq(NumCols, i requires 0 <= i < NumCols => b.grid[NumCols - 1 - i]),
       players := [b.players[1], b.players[0]])
  }

  lemma {:induction false} ReversedInvolution(b: Board)
    requires Shaped(b)
    ensures Reversed(Reversed(b)) == b
  {
    var r := Reversed(Reversed(b));
    assert r.grid == b.grid;
  }

  /** Counting a player's checkers over a range of the reversed grid is counting them
      over the mirrored range. */
  lemma {:induction false} OwnedReversed(b: Board, p: Player, lo: int, hi: int)
    requires Shaped(b) && 0 <= lo <= hi <= NumCols
    ensures Owned(Reversed(b).grid, p, lo, hi) == Owned(b.grid, p, NumCols - hi, NumCols - lo)
    decreases hi - lo
  {
    if hi > lo {
      OwnedReversed(b, p, lo + 1, hi);
      OwnedSplit(Reversed(b).grid, p, lo, lo + 1, hi);
      OwnedSplit(b.grid, p, NumCols - hi, NumCols - lo - 1, NumCols - lo);
    }
  }

  /** Reversing the board keeps every player's checker count and the board invariant. */
  lemma {:induction false} ReversedPreserves(b: Board, p: Player)
    requires Shaped(b)
    ensures Count(Reversed(b), p) == Count(b, p)
    ensures Wellformed(b) ==> Wellformed(Reversed(b))
  {
    OwnedReversed(b, p, 0, NumCols);
    CountDelta(b, Reversed(b), p, 0, 0, 0);
    if Wellformed(b) {
      var r := Reversed(b);
      forall i | 0 <= i < NumCols ensures Uniform(r.grid[i]) {
        assert r.grid[i] == b.grid[NumCols - 1 - i];
      }
    }
  }
}
