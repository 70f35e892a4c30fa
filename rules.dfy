/** The read-only legality rules and terminal queries of the engine: moving a
    checker between points, entering from the bar, whether bearing off is allowed at
    all and from which point, and who has won. */
module Legality {
  import opened BoardState

  /** Home quadrant: points 18..23 for the first-listed player, 0..5 for the other. */
  predicate InHome(b: Board, p: Player, i: int)
    requires Shaped(b)
  {
    if Forward(b, p) then NumCols - Quad <= i < NumCols else 0 <= i < Quad
  }

  /** How many pips a checker on point `i` still has to travel to leave the board. */
  function EdgeDistance(b: Board, p: Player, i: int): int
    requires Shaped(b)
  {
    if Forward(b, p) then NumCols - i else i + 1
  }

  /** The size of a signed die for `p`, whose dice are negated when it moves downward. */
  function Pips(b: Board, p: Player, r: int): int
    requires Shaped(b)
  {
    if Forward(b, p) then r else -r
  }

  /** `is_valid_move`: the origin's bottom checker is the token's, the destination is on
      the board, and the destination holds at most one checker or is topped by the token. */
  predicate IsValidMove(b: Board, start: int, end: int, token: Player)
    requires Shaped(b) && 0 <= start < NumCols
  {
    && |b.grid[start]| > 0 && b.grid[start][0] == token
    && 0 <= end < NumCols
    && (|b.grid[end]| <= 1 || Top(b.grid[end]) == token)
  }

  /** On a board without mixed points, a move is valid exactly when the origin is the
      token's and the destination is on the board and not held by two or more opposing
      checkers. */
  lemma ValidMoveRule(b: Board, start: int, end: int, token: Player)
    requires Wellformed(b) && 0 <= start < NumCols
    ensures IsValidMove(b, start, end, token) <==>
      && Own(b.grid[start], token) > 0
      && 0 <= end < NumCols
      && !(|b.grid[end]| >= 2 && b.grid[end][0] == Opponent(token))
  {
    if 0 <= end < NumCols && |b.grid[end]| >= 2 {
      assert Uniform(b.grid[end]);
      assert Top(b.grid[end]) == b.grid[end][0];
    }
  }

  /** The point a checker enters from the bar with die `r`: r-1 for the first-listed
      player, 24+r for the other, whose dice are negative. */
  function EntryPoint(b: Board, p: Player, r: int): (e: int)
    requires Shaped(b)
    ensures Forward(b, p) && 1 <= r <= Quad ==> 0 <= e < Quad
    ensures !Forward(b, p) && -Quad <= r <= -1 ==> NumCols - Quad <= e < NumCols
    ensures EdgeDistance(b, Opponent(p), e) == Pips(b, p, r)
  {
    PlayersCover(b, p);
    if Forward(b, p) then 0 + (r - 1) else (NumCols - 1) + (r + 1)
  }

  /** `can_onboard`: the entry point holds at most one checker or is the player's own. */
  predicate CanOnboard(b: Board, p: Player, r: int)
    requires Shaped(b) && 0 <= EntryPoint(b, p, r) < NumCols
  {
    var e := EntryPoint(b, p, r);
    |b.grid[e]| <= 1 || b.grid[e][0] == p
  }

  /** `can_offboard`: the player's checkers on its home points plus those already
      borne off make up its whole count. */
  predicate CanOffboard(b: Board, p: Player)
    requires Shaped(b)
  {
    if Forward(b, p) then Owned(b.grid, p, NumCols - Quad, NumCols) + |b.off.Get(p)| == b.num.Get(p)
    else Owned(b.grid, p, 0, Quad) + |b.off.Get(p)| == b.num.Get(p)
  }

  /** Bear-off gating: when the player's checkers are all accounted for, bearing off is
      allowed exactly when none is on the bar and none stands outside the home quadrant. */
  lemma {:induction false} CanOffboardGating(b: Board, p: Player)
    requires Shaped(b) && Count(b, p) == b.num.Get(p)
    ensures CanOffboard(b, p) <==>
      |b.bar.Get(p)| == 0 && forall i :: 0 <= i < NumCols && !InHome(b, p, i) ==> Own(b.grid[i], p) == 0
  {
    if Forward(b, p) {
      OwnedSplit(b.grid, p, 0, NumCols - Quad, NumCols);
      OwnedZero(b.grid, p, 0, NumCols - Quad);
    } else {
      OwnedSplit(b.grid, p, 0, Quad, NumCols);
      OwnedZero(b.grid, p, Quad, NumCols);
    }
  }

  /** Some point in lo..hi-1 has a checker of `p` at the bottom (the scan of `remove_piece`). */
  predicate Occupies(grid: seq<seq<Player>>, p: Player, lo: int, hi: int)
    requires 0 <= lo && hi <= |grid|
    decreases hi - lo
  {
    lo < hi && ((|grid[hi - 1]| != 0 && grid[hi - 1][0] == p) || Occupies(grid, p, lo, hi - 1))
  }

  lemma {:induction false} OccupiesRule(grid: seq<seq<Player>>, p: Player, lo: int, hi: int)
    requires 0 <= lo && hi <= |grid|
    ensures Occupies(grid, p, lo, hi) <==> exists i :: lo <= i < hi && Own(grid[i], p) > 0
    decreases hi - lo
  {
    if lo < hi {
      OccupiesRule(grid, p, lo, hi - 1);
    }
  }

  /** `remove_piece`: can the checker on `start` be borne off with die `r`, assuming
      bearing off is allowed at all. */
  predicate RemovePiece(b: Board, p: Player, start: int, r: int)
    requires Shaped(b) && 0 <= start < NumCols
  {
    if p == b.players[0] && start < NumCols - Quad then false
    else if p == b.players[1] && start >= Quad then false
    else if |b.grid[start]| == 0 || b.grid[start][0] != p then false
    else if p == b.players[0] then
      if start + r == NumCols then true
      else if start + r > NumCols then !Occupies(b.grid, b.players[0], NumCols - Quad, start)
      else false
    else if p == b.players[1] then
      if start + r == -1 then true
      else if start + r < -1 then !Occupies(b.grid, b.players[1], start + 1, Quad)
      else false
    else false
  }

  /** One rule for both directions: a checker on a home point bears off with an exact
      die, or with a larger die when no checker of the player stands on a home point
      farther from the edge. */
  lemma RemovePieceRule(b: Board, p: Player, start: int, r: int)
    requires Shaped(b) && 0 <= start < NumCols
    ensures RemovePiece(b, p, start, r) <==>
      && InHome(b, p, start)
      && Own(b.grid[start], p) > 0
      && (|| Pips(b, p, r) == EdgeDistance(b, p, start)
          || (&& Pips(b, p, r) > EdgeDistance(b, p, start)
              && forall i :: InHome(b, p, i) && EdgeDistance(b, p, i) > EdgeDistance(b, p, start) ==> Own(b.grid[i], p) == 0))
  {
    PlayersCover(b, p);
    if Forward(b, p) {
      OccupiesRule(b.grid, p, NumCols - Quad, start);
    } else {
      OccupiesRule(b.grid, p, start + 1, Quad);
    }
  }

  /** `is_over`: some player, whichever order `players` is in, has borne off its whole count. */
  predicate IsOver(b: Board)
    requires Shaped(b)
    ensures IsOver(b) <==> |b.off.Get(O)| == b.num.Get(O) || |b.off.Get(X)| == b.num.Get(X)
  {
    PlayersCover(b, O);
    PlayersCover(b, X);
    |b.off.Get(b.players[0])| == b.num.Get(b.players[0]) || |b.off.Get(b.players[1])| == b.num.Get(b.players[1])
  }

  /** `winner`: the index in `players` of the player with more checkers off; on a tie the
      one with fewer checkers on the bar, and index 1 when the bars tie as well. */
  function Winner(b: Board): (w: int)
    requires Shaped(b)
    ensures w == 0 || w == 1
    ensures |b.off.Get(b.players[w])| >= |b.off.Get(b.players[1 - w])|
    ensures |b.off.Get(b.players[w])| == |b.off.Get(b.players[1 - w])| ==> |b.bar.Get(b.players[w])| <= |b.bar.Get(b.players[1 - w])|
    ensures |b.off.Get(b.players[0])| == |b.off.Get(b.players[1])| && |b.bar.Get(b.players[0])| == |b.bar.Get(b.players[1])| ==> w == 1
  {
    var off0, off1 := |b.off.Get(b.players[0])|, |b.off.Get(b.players[1])|;
    if off0 > off1 then 0
    else if off0 < off1 then 1
    else if |b.bar.Get(b.players[1])| <= |b.bar.Get(b.players[0])| then 1
    else 0
  }

  predicate IsWon(b: Board, p: Player)
    requires Shaped(b)
  {
    IsOver(b) && p == b.players[Winner(b)]
  }

  predicate IsLost(b: Board, p: Player)
    requires Shaped(b)
  {
    IsOver(b) && p != b.players[Winner(b)]
  }

  /** Once the game is over, exactly one of the two players has won and the other lost. */
  lemma {:induction false} OutcomeExclusive(b: Board, p: Player)
    requires Shaped(b) && IsOver(b)
    ensures IsWon(b, p) != IsLost(b, p)
    ensures IsWon(b, p) <==> IsLost(b, Opponent(p))
  {
    PlayersCover(b, p);
    PlayersCover(b, Opponent(p));
  }

  /** With equal totals, the player that has borne off all its checkers while the other
      has not is the one `is_won` reports. */
  lemma {:induction false} BorneOffAllWins(b: Board, p: Player)
    requires Shaped(b) && b.num.Get(O) == b.num.Get(X)
    requires |b.off.Get(p)| == b.num.Get(p) && |b.off.Get(Opponent(p))| < b.num.Get(Opponent(p))
    ensures IsWon(b, p) && IsLost(b, Opponent(p))
  {
    PlayersCover(b, p);
    OutcomeExclusive(b, p);
    if p == O { assert b.num.Get(Opponent(p)) == b.num.Get(p); } else { assert b.num.Get(Opponent(p)) == b.num.Get(p); }
  }

  // `reverse` shows the board to the other player: every rule then reads the same
  // from the mirrored point with the die's sign flipped.

  lemma {:induction false} ValidMoveReversed(b: Board, start: int, end: int, token: Player)
    requires Shaped(b) && 0 <= start < NumCols
    ensures IsValidMove(Reversed(b), NumCols - 1 - start, NumCols - 1 - end, token) == IsValidMove(b, start, end, token)
  {
  }

  lemma {:induction false} CanOnboardReversed(b: Board, p: Player, r: int)
    requires Shaped(b) && 0 <= EntryPoint(b, p, r) < NumCols
    ensures EntryPoint(Reversed(b), p, -r) == NumCols - 1 - EntryPoint(b, p, r)
    ensures CanOnboard(Reversed(b), p, -r) == CanOnboard(b, p, r)
  {
    PlayersCover(b, p);
  }

  lemma {:induction false} CanOffboardReversed(b: Board, p: Player)
    requires Shaped(b)
    ensures CanOffboard(Reversed(b), p) == CanOffboard(b, p)
  {
    PlayersCover(b, p);
    if Forward(b, p) {
      OwnedReversed(b, p, 0, Quad);
    } else {
      OwnedReversed(b, p, NumCols - Quad, NumCols);
    }
  }

  lemma {:induction false} RemovePieceReversed(b: Board, p: Player, start: int, r: int)
    requires Shaped(b) && 0 <= start < NumCols
    ensures RemovePiece(Reversed(b), p, NumCols - 1 - start, -r) == RemovePiece(b, p, start, r)
  {
    var rb := Reversed(b);
    var s' := NumCols - 1 - start;
    PlayersCover(b, p);
    RemovePieceRule(b, p, start, r);
    RemovePieceRule(rb, p, s', -r);
    assert InHome(rb, p, s') == InHome(b, p, start);
    assert EdgeDistance(rb, p, s') == EdgeDistance(b, p, start);
    assert Pips(rb, p, -r) == Pips(b, p, r);
    var behind := forall i :: InHome(b, p, i) && EdgeDistance(b, p, i) > EdgeDistance(b, p, start) ==> Own(b.grid[i], p) == 0;
    var behind' := forall i :: InHome(rb, p, i) && EdgeDistance(rb, p, i) > EdgeDistance(rb, p, s') ==> Own(rb.grid[i], p) == 0;
    if behind {
      forall i | InHome(rb, p, i) && EdgeDistance(rb, p, i) > EdgeDistance(rb, p, s')
        ensures Own(rb.grid[i], p) == 0
      {
        var j := NumCols - 1 - i;
        assert InHome(b, p, j) && EdgeDistance(b, p, j) > EdgeDistance(b, p, start);
      }
    }
    if behind' {
      forall i | InHome(b, p, i) && EdgeDistance(b, p, i) > EdgeDistance(b, p, start)
        ensures Own(b.grid[i], p) == 0
      {
        var j := NumCols - 1 - i;
        assert InHome(rb, p, j) && EdgeDistance(rb, p, j) > EdgeDistance(rb, p, s');
        assert rb.grid[j] == b.grid[i];
      }
    }
  }
}
