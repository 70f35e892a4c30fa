/** Applying a move sequence to the board (`take_action`) and reversing it with the
    per-move hit flags (`undo_action`), with the round trip and checker conservation. */
module Actions {
  import opened BoardState
  import opened Legality

  // ---- one move ----

  /** Lifting the moving checker needs a checker to lift: the player's bar for an
      entry, the origin point otherwise (the source never moves from `off`). */
  predicate LiftOk(b: Board, t: Player, src: Endpoint)
    requires Shaped(b)
  {
    match src
    case On => |b.bar.Get(t)| > 0
    case Pt(s) => 0 <= s < NumCols && |b.grid[s]| > 0
    case Off => false
  }

  /** The moving checker is placed on a point of the board or borne off. */
  predicate DropOk(dst: Endpoint)
  {
    match dst
    case Pt(e) => 0 <= e < NumCols
    case Off => true
    case On => false
  }

  /** What `take_action` needs of one move so that none of its pops fails. */
  predicate CanApply(b: Board, t: Player, m: Move)
  {
    Shaped(b) && LiftOk(b, t, m.src) && DropOk(m.dst)
  }

  /** Pop the moving checker off the bar or the origin point. */
  function Lift(b: Board, t: Player, src: Endpoint): (res: (Player, Board))
    requires Shaped(b) && LiftOk(b, t, src)
    ensures Shaped(res.1) && res.1.players == b.players && res.1.num == b.num
  {
    if src == On then (Top(b.bar.Get(t)), BarPop(b, t))
    else (Top(b.grid[src.i]), PointPop(b, src.i))
  }

  /** Append the checker to the player's off stack, or to the destination point after
      sending a checker found there that is not the player's to its owner's bar. */
  function Drop(b: Board, t: Player, piece: Player, dst: Endpoint): (res: (Board, bool))
    requires Shaped(b) && DropOk(dst)
    ensures Shaped(res.0) && res.0.players == b.players && res.0.num == b.num
  {
    if dst == Off then (OffPush(b, t, piece), false)
    else
      var e := dst.i;
      if |b.grid[e]| > 0 && b.grid[e][0] != t then
        var kicked := Top(b.grid[e]);
        (PointPush(BarPush(PointPop(b, e), kicked, kicked), e, piece), true)
      else
        (PointPush(b, e, piece), false)
  }

  /** One iteration of `take_action`: the new board and whether the move hit. */
  function ApplyStep(b: Board, t: Player, m: Move): (res: (Board, bool))
    requires CanApply(b, t, m)
    ensures Shaped(res.0) && res.0.players == b.players && res.0.num == b.num
  {
    var (piece, lifted) := Lift(b, t, m.src);
    Drop(lifted, t, piece, m.dst)
  }

  /** What `undo_action` needs of one move so that none of its pops fails. */
  predicate CanUndo(b: Board, t: Player, m: Move, hit: bool)
  {
    && Shaped(b)
    && (match m.src
        case On => true
        case Pt(s) => 0 <= s < NumCols
        case Off => false)
    && (match m.dst
        case Off => |b.off.Get(t)| > 0
        case Pt(e) => 0 <= e < NumCols && |b.grid[e]| > 0 && (hit ==> |b.bar.Get(Opponent(t))| > 0)
        case On => false)
  }

  /** Pop the moved checker back off its destination, and when the move hit, return the
      opponent's last bar checker to that point. */
  function Undrop(b: Board, t: Player, dst: Endpoint, hit: bool): (res: (Player, Board))
    requires Shaped(b) && DropOk(dst)
    requires dst == Off ==> |b.off.Get(t)| > 0
    requires dst.Pt? ==> |b.grid[dst.i]| > 0 && (hit ==> |b.bar.Get(Opponent(t))| > 0)
    ensures Shaped(res.1)
  {
    if dst == Off then (Top(b.off.Get(t)), OffPop(b, t))
    else
      var e := dst.i;
      var piece := Top(b.grid[e]);
      var popped := PointPop(b, e);
      if hit then
        var opp := Opponent(t);
        (piece, PointPush(BarPop(popped, opp), e, Top(b.bar.Get(opp))))
      else
        (piece, popped)
  }

  /** Push the moved checker back on the player's bar or on the origin point. */
  function Unlift(b: Board, t: Player, src: Endpoint, piece: Player): (r: Board)
    requires Shaped(b) && src != Off && (src.Pt? ==> 0 <= src.i < NumCols)
    ensures Shaped(r)
  {
    if src == On then BarPush(b, t, piece)
    else PointPush(b, src.i, piece)
  }

  /** One iteration of `undo_action`. */
  function UndoStep(b: Board, t: Player, m: Move, hit: bool): (r: Board)
    requires CanUndo(b, t, m, hit)
    ensures Shaped(r)
  {
    var (piece, undropped) := Undrop(b, t, m.dst, hit);
    Unlift(undropped, t, m.src, piece)
  }

  /** A move that is legal at the moment it is played: an entry onto an open point
      while a checker is on the bar, a valid point-to-point move, or bearing off one of
      the player's own checkers. */
  predicate StepLegal(b: Board, t: Player, m: Move)
    requires Shaped(b)
    ensures StepLegal(b, t, m) ==> CanApply(b, t, m)
  {
    match m
    case Move(On, Pt(e)) => |b.bar.Get(t)| > 0 && 0 <= e < NumCols && (|b.grid[e]| <= 1 || b.grid[e][0] == t)
    case Move(Pt(s), Pt(e)) => 0 <= s < NumCols && IsValidMove(b, s, e, t)
    case Move(Pt(s), Off) => 0 <= s < NumCols && |b.grid[s]| > 0 && b.grid[s][0] == t
    case _ => false
  }

  // ---- whole sequences ----

  /** `take_action` runs through the whole sequence without a failing pop. */
  predicate PlayableSeq(b: Board, t: Player, ms: Action)
    requires Shaped(b)
    decreases |ms|
  {
    ms == [] || (CanApply(b, t, ms[0]) && PlayableSeq(ApplyStep(b, t, ms[0]).0, t, ms[1..]))
  }

  /** `take_action`: the board after all moves in order, and one hit flag per move. */
  function ApplySeq(b: Board, t: Player, ms: Action): (res: (Board, seq<bool>))
    requires Shaped(b) && PlayableSeq(b, t, ms)
    ensures Shaped(res.0) && |res.1| == |ms| && res.0.players == b.players && res.0.num == b.num
    decreases |ms|
  {
    if ms == [] then (b, [])
    else
      var (c, hit) := ApplyStep(b, t, ms[0]);
      var (d, flags) := ApplySeq(c, t, ms[1..]);
      (d, [hit] + flags)
  }

  /** Every move is legal on the board it is played on. */
  predicate LegalSeq(b: Board, t: Player, ms: Action)
    requires Shaped(b)
    ensures LegalSeq(b, t, ms) ==> PlayableSeq(b, t, ms)
    decreases |ms|
  {
    ms == [] || (StepLegal(b, t, ms[0]) && LegalSeq(ApplyStep(b, t, ms[0]).0, t, ms[1..]))
  }

  /** `undo_action` runs through the whole sequence, last move first, without a failing pop. */
  predicate UndoableSeq(b: Board, t: Player, ms: Action, flags: seq<bool>)
    requires Shaped(b) && |flags| >= |ms|
    decreases |ms|, 1
  {
    ms == [] ||
    (UndoableSeq(b, t, ms[1..], flags[1..]) &&
     CanUndo(UndoSeq(b, t, ms[1..], flags[1..]), t, ms[0], flags[0]))
  }

  /** `undo_action`: undo the moves after the first (last one first), then the first,
      each with its own hit flag. */
  function UndoSeq(b: Board, t: Player, ms: Action, flags: seq<bool>): (r: Board)
    requires Shaped(b) && |flags| >= |ms| && UndoableSeq(b, t, ms, flags)
    ensures Shaped(r)
    decreases |ms|, 2
  {
    if ms == [] then b
    else UndoStep(UndoSeq(b, t, ms[1..], flags[1..]), t, ms[0], flags[0])
  }

  // ---- lemmas ----

  /** Popping a checker off a single-owner stack keeps it single-owner and lowers its
      owner's count by one. */
  lemma OwnPop(s: seq<Player>, p: Player)
    requires |s| > 0 && Uniform(s)
    ensures Uniform(Pop(s)) && Top(s) == s[0]
    ensures Own(Pop(s), p) + (if s[0] == p then 1 else 0) == Own(s, p)
  {
  }

  /** Pushing a checker of the stack's owner (or onto an empty point) keeps the stack
      single-owner and raises that owner's count by one. */
  lemma OwnPush(s: seq<Player>, x: Player, p: Player)
    requires Uniform(s) && (|s| == 0 || s[0] == x)
    ensures Uniform(s + [x])
    ensures Own(s + [x], p) == Own(s, p) + (if x == p then 1 else 0)
  {
  }

  /** The destination accepts the player's checker: empty, a single checker, or the player's. */
  predicate Open(b: Board, t: Player, dst: Endpoint)
    requires Shaped(b) && DropOk(dst)
  {
    dst.Pt? ==> |b.grid[dst.i]| <= 1 || b.grid[dst.i][0] == t
  }

  /** Lifting one of the player's own checkers keeps the board invariant and takes one
      checker from the player's count. */
  lemma LiftCounts(b: Board, t: Player, src: Endpoint)
    requires Wellformed(b) && LiftOk(b, t, src)
    requires src.Pt? ==> b.grid[src.i][0] == t
    ensures var (piece, c) := Lift(b, t, src);
      && piece == t && Wellformed(c)
      && Count(c, t) + 1 == Count(b, t) && Count(c, Opponent(t)) == Count(b, Opponent(t))
  {
    var (piece, c) := Lift(b, t, src);
    var opp := Opponent(t);
    if src.Pt? {
      var s := src.i;
      OwnPop(b.grid[s], t);
      OwnPop(b.grid[s], opp);
      assert c.grid == b.grid[s := c.grid[s]] && c.bar == b.bar && c.off == b.off;
      UniformAfterUpdate(b, c, s);
      CountAfterPoint(b, c, t, s);
      CountAfterPoint(b, c, opp, s);
    } else {
      assert AllOf(b.bar.Get(t), t);
      assert c.bar.Get(opp) == b.bar.Get(opp);
      CountDelta(b, c, t, 0, -1, 0);
      CountDelta(b, c, opp, 0, 0, 0);
    }
  }

  /** Replacing one point of a board without mixed points by a single-owner stack keeps
      every point single-owner. */
  lemma UniformAfterUpdate(b: Board, c: Board, e: int)
    requires Wellformed(b) && Shaped(c) && 0 <= e < NumCols
    requires c.grid == b.grid[e := c.grid[e]] && Uniform(c.grid[e])
    ensures forall i :: 0 <= i < NumCols ==> Uniform(c.grid[i])
  {
    forall i | 0 <= i < NumCols ensures Uniform(c.grid[i]) {
      if i != e { assert c.grid[i] == b.grid[i]; }
    }
  }

  /** Dropping the player's checker on an empty point or one of the player's own points. */
  lemma DropNoHit(b: Board, t: Player, e: int)
    requires Wellformed(b) && 0 <= e < NumCols && (|b.grid[e]| == 0 || b.grid[e][0] == t)
    ensures var (c, hit) := Drop(b, t, t, Pt(e));
      && !hit && Wellformed(c)
      && Count(c, t) == Count(b, t) + 1 && Count(c, Opponent(t)) == Count(b, Opponent(t))
  {
    var c := Drop(b, t, t, Pt(e)).0;
    var opp := Opponent(t);
    var v := b.grid[e] + [t];
    assert c.grid == b.grid[e := v] && c.bar == b.bar && c.off == b.off;
    OwnPush(b.grid[e], t, t);
    OwnPush(b.grid[e], t, opp);
    UniformAfterUpdate(b, c, e);
    CountAfterPoint(b, c, t, e);
    CountAfterPoint(b, c, opp, e);
  }

  /** Dropping the player's checker on a single opposing checker sends that checker to
      its owner's bar. */
  lemma DropHit(b: Board, t: Player, e: int)
    requires Wellformed(b) && 0 <= e < NumCols && |b.grid[e]| == 1 && b.grid[e][0] != t
    ensures var (c, hit) := Drop(b, t, t, Pt(e));
      && hit && Wellformed(c)
      && Count(c, t) == Count(b, t) + 1 && Count(c, Opponent(t)) == Count(b, Opponent(t))
      && b.grid[e] == [Opponent(t)] && c.grid[e] == [t]
  {
    var c := HitBoard(b, t, e);
    HitWellformed(b, t, e, c);
    HitCounts(b, t, e, c);
  }

  lemma HitWellformed(b: Board, t: Player, e: int, c: Board)
    requires Wellformed(b) && 0 <= e < NumCols
    requires c == b.(grid := b.grid[e := [t]], bar := b.bar.Set(Opponent(t), b.bar.Get(Opponent(t)) + [Opponent(t)]))
    ensures Wellformed(c)
  {
    var opp := Opponent(t);
    assert c.bar.Get(t) == b.bar.Get(t);
    assert AllOf(c.bar.Get(opp), opp);
    UniformAfterUpdate(b, c, e);
  }

  lemma HitCounts(b: Board, t: Player, e: int, c: Board)
    requires Shaped(b) && 0 <= e < NumCols && b.grid[e] == [Opponent(t)]
    requires c == b.(grid := b.grid[e := [t]], bar := b.bar.Set(Opponent(t), b.bar.Get(Opponent(t)) + [Opponent(t)]))
    ensures Count(c, t) == Count(b, t) + 1 && Count(c, Opponent(t)) == Count(b, Opponent(t))
  {
    var opp := Opponent(t);
    assert c.bar.Get(t) == b.bar.Get(t) && c.off == b.off;
    assert |c.bar.Get(opp)| == |b.bar.Get(opp)| + 1;
    CountAfterPoint(b, c, t, e);
    CountAfterPoint(b, c, opp, e);
  }

  /** The board after a hit: the point holds the mover's checker and the single opposing
      checker sits on top of its owner's bar. */
  lemma HitBoard(b: Board, t: Player, e: int) returns (c: Board)
    requires Wellformed(b) && 0 <= e < NumCols && |b.grid[e]| == 1 && b.grid[e][0] != t
    ensures b.grid[e] == [Opponent(t)]
    ensures c == b.(grid := b.grid[e := [t]], bar := b.bar.Set(Opponent(t), b.bar.Get(Opponent(t)) + [Opponent(t)]))
    ensures Drop(b, t, t, Pt(e)) == (c, true)
  {
    var opp := Opponent(t);
    assert b.grid[e] == [opp];
    var b1 := PointPop(b, e);
    assert b1.grid[e] == [];
    var b2 := BarPush(b1, opp, opp);
    var b3 := PointPush(b2, e, t);
    assert b2.grid == b1.grid && b2.grid[e] + [t] == [t];
    assert b3.grid == b.grid[e := [t]];
    c := b.(grid := b.grid[e := [t]], bar := b.bar.Set(opp, b.bar.Get(opp) + [opp]));
    assert b3 == c;
  }

  /** Dropping the player's checker on an open destination keeps the board invariant,
      adds one checker to the player's count, and a hit moves exactly one opposing
      checker from its point to its bar. */
  lemma DropCounts(b: Board, t: Player, dst: Endpoint)
    requires Wellformed(b) && DropOk(dst) && Open(b, t, dst)
    ensures var (c, hit) := Drop(b, t, t, dst);
      && Wellformed(c)
      && Count(c, t) == Count(b, t) + 1 && Count(c, Opponent(t)) == Count(b, Opponent(t))
      && (hit ==> dst.Pt? && b.grid[dst.i] == [Opponent(t)] && c.grid[dst.i] == [t])
  {
    if dst.Pt? {
      if |b.grid[dst.i]| > 0 && b.grid[dst.i][0] != t {
        DropHit(b, t, dst.i);
      } else {
        DropNoHit(b, t, dst.i);
      }
    } else {
      var c := Drop(b, t, t, dst).0;
      assert c.off.Get(Opponent(t)) == b.off.Get(Opponent(t));
      assert c.grid == b.grid && c.bar == b.bar;
      CountDelta(b, c, t, 0, 0, 1);
      CountDelta(b, c, Opponent(t), 0, 0, 0);
    }
  }

  /** A legal move on a board without mixed points lifts one of the player's own
      checkers and drops it on an open destination. */
  lemma LegalLiftDrop(b: Board, t: Player, m: Move)
    requires Wellformed(b) && StepLegal(b, t, m)
    ensures m.src.Pt? ==> b.grid[m.src.i][0] == t
    ensures Open(Lift(b, t, m.src).1, t, m.dst)
  {
    var lifted := Lift(b, t, m.src).1;
    if m.src.Pt? && m.dst.Pt? {
      var s, e := m.src.i, m.dst.i;
      OwnPop(b.grid[s], t);
      if s != e {
        assert lifted.grid[e] == b.grid[e];
        if |b.grid[e]| > 1 {
          assert Uniform(b.grid[e]);
          assert Top(b.grid[e]) == b.grid[e][0];
        }
      } else {
        assert lifted.grid[e] == Pop(b.grid[s]);
        if |lifted.grid[e]| > 0 { assert lifted.grid[e][0] == b.grid[s][0]; }
      }
    }
  }

  /** Checker conservation for one legal move: the board invariant holds afterwards and
      every player's point + bar + off total is unchanged. */
  lemma StepConserves(b: Board, t: Player, m: Move)
    requires Wellformed(b) && StepLegal(b, t, m)
    ensures Wellformed(ApplyStep(b, t, m).0)
    ensures forall p: Player :: Count(ApplyStep(b, t, m).0, p) == Count(b, p)
  {
    LegalLiftDrop(b, t, m);
    LiftCounts(b, t, m.src);
    var (piece, lifted) := Lift(b, t, m.src);
    DropCounts(lifted, t, m.dst);
    var c := Drop(lifted, t, piece, m.dst).0;
    assert ApplyStep(b, t, m).0 == c;
    assert Count(c, t) == Count(b, t) && Count(c, Opponent(t)) == Count(b, Opponent(t));
    BothPlayers(b, c, t);
  }

  /** A count kept for the mover and its opponent is kept for every player. */
  lemma BothPlayers(b: Board, c: Board, t: Player)
    requires Shaped(b) && Shaped(c)
    requires Count(c, t) == Count(b, t) && Count(c, Opponent(t)) == Count(b, Opponent(t))
    ensures forall p: Player :: Count(c, p) == Count(b, p)
  {
    forall p: Player ensures Count(c, p) == Count(b, p) {
      if p != t { assert p == Opponent(t); }
    }
  }

  /** Undropping right after a drop on an open destination returns the dropped checker
      and the board before the drop. */
  lemma DropRestores(b: Board, t: Player, piece: Player, dst: Endpoint)
    requires Shaped(b) && DropOk(dst) && Open(b, t, dst)
    ensures var (c, hit) := Drop(b, t, piece, dst);
      && (dst == Off ==> |c.off.Get(t)| > 0)
      && (dst.Pt? ==> |c.grid[dst.i]| > 0 && (hit ==> |c.bar.Get(Opponent(t))| > 0))
      && Undrop(c, t, dst, hit) == (piece, b)
  {
    if dst == Off {
      OffRestores(b, t, piece);
    } else if |b.grid[dst.i]| > 0 && b.grid[dst.i][0] != t {
      HitRestores(b, t, piece, dst.i);
    } else {
      NoHitRestores(b, t, piece, dst.i);
    }
  }

  lemma OffRestores(b: Board, t: Player, piece: Player)
    requires Shaped(b)
    ensures var (c, hit) := Drop(b, t, piece, Off);
      !hit && |c.off.Get(t)| > 0 && Undrop(c, t, Off, hit) == (piece, b)
  {
    var c := Drop(b, t, piece, Off).0;
    assert Pop(c.off.Get(t)) == b.off.Get(t);
    assert c.off.Set(t, b.off.Get(t)) == b.off;
  }

  lemma HitRestores(b: Board, t: Player, piece: Player, e: int)
    requires Shaped(b) && 0 <= e < NumCols && |b.grid[e]| == 1 && b.grid[e][0] != t
    ensures var (c, hit) := Drop(b, t, piece, Pt(e));
      hit && |c.grid[e]| > 0 && |c.bar.Get(Opponent(t))| > 0 && Undrop(c, t, Pt(e), hit) == (piece, b)
  {
    var opp := Opponent(t);
    assert Top(b.grid[e]) == opp;
    var b1 := PointPop(b, e);
    var b2 := BarPush(b1, opp, opp);
    var c := PointPush(b2, e, piece);
    assert Drop(b, t, piece, Pt(e)) == (c, true);
    PointRoundTrip(b2, e, piece);
    BarRoundTrip(b1, opp, opp);
    assert c.bar == b2.bar;
    PointUnpop(b, e);
  }


  lemma NoHitRestores(b: Board, t: Player, piece: Player, e: int)
    requires Shaped(b) && 0 <= e < NumCols && (|b.grid[e]| == 0 || b.grid[e][0] == t)
    ensures var (c, hit) := Drop(b, t, piece, Pt(e));
      !hit && |c.grid[e]| > 0 && Undrop(c, t, Pt(e), hit) == (piece, b)
  {
    var (c, hit) := Drop(b, t, piece, Pt(e));
    var undropped := Undrop(c, t, Pt(e), hit).1;
    assert undropped.grid[e] == b.grid[e];
    assert undropped.grid == b.grid;
  }

  /** Pushing the lifted checker back where it came from restores the board. */
  lemma LiftRestores(b: Board, t: Player, src: Endpoint)
    requires Shaped(b) && LiftOk(b, t, src)
    ensures Unlift(Lift(b, t, src).1, t, src, Lift(b, t, src).0) == b
  {
    var (piece, lifted) := Lift(b, t, src);
    if src.Pt? {
      PopPush(b.grid[src.i]);
      assert Unlift(lifted, t, src, piece).grid == b.grid;
    } else {
      PopPush(b.bar.Get(t));
      assert Unlift(lifted, t, src, piece).bar == b.bar;
    }
  }

  /** Undoing one move with the flag its application returned restores the board, on
      any board where the destination is open to the player. */
  lemma StepRestores(b: Board, t: Player, m: Move)
    requires CanApply(b, t, m) && Open(Lift(b, t, m.src).1, t, m.dst)
    ensures var (c, hit) := ApplyStep(b, t, m); CanUndo(c, t, m, hit) && UndoStep(c, t, m, hit) == b
  {
    var (piece, lifted) := Lift(b, t, m.src);
    DropRestores(lifted, t, piece, m.dst);
    LiftRestores(b, t, m.src);
  }

  /** Checker conservation for a whole legal sequence. */
  lemma {:induction false} Conservation(b: Board, t: Player, ms: Action)
    requires Wellformed(b) && LegalSeq(b, t, ms)
    ensures Wellformed(ApplySeq(b, t, ms).0)
    ensures forall p: Player :: Count(ApplySeq(b, t, ms).0, p) == Count(b, p)
    decreases |ms|
  {
    if ms != [] {
      var c := ApplyStep(b, t, ms[0]).0;
      StepConserves(b, t, ms[0]);
      Conservation(c, t, ms[1..]);
    }
  }

  /** Apply/undo round trip: undoing a legal sequence with the hit flags that applying it
      produced (followed by anything, as `take_action` pads them to four) restores every
      point, both bars and both off stacks. */
  lemma {:induction false} RoundTrip(b: Board, t: Player, ms: Action, flags: seq<bool>)
    requires Wellformed(b) && LegalSeq(b, t, ms)
    requires |flags| >= |ms| && flags[..|ms|] == ApplySeq(b, t, ms).1
    ensures UndoableSeq(ApplySeq(b, t, ms).0, t, ms, flags)
    ensures UndoSeq(ApplySeq(b, t, ms).0, t, ms, flags) == b
    decreases |ms|
  {
    if ms != [] {
      var m := ms[0];
      var (c, h) := ApplyStep(b, t, m);
      var (d, fs) := ApplySeq(c, t, ms[1..]);
      assert ApplySeq(b, t, ms) == (d, [h] + fs);
      StepConserves(b, t, m);
      LegalLiftDrop(b, t, m);
      StepRestores(b, t, m);
      FlagsSplit(flags, fs, h, |ms|);
      RoundTrip(c, t, ms[1..], flags[1..]);
    }
  }

  lemma FlagsSplit(flags: seq<bool>, fs: seq<bool>, h: bool, n: nat)
    requires |fs| + 1 == n <= |flags| && flags[..n] == [h] + fs
    ensures flags[0] == h && flags[1..][..n - 1] == fs && |flags[1..]| >= n - 1
  {
    assert flags[0] == flags[..n][0];
    assert flags[1..][..n - 1] == flags[..n][1..];
  }
}
