/** The `Game` object: the board held in fields that its methods update in place, each
    method proved against the functions of the other modules. */
module Engine {
  import opened BoardState
  import opened Legality
  import opened Actions
  import opened MoveGen
  import Layout

  /** The truthy entries of `take_action`'s hit list: the flags `undo_action` reads. */
  function Hits(ateList: seq<int>): (flags: seq<bool>)
    ensures |flags| == |ateList| && forall k :: 0 <= k < |ateList| ==> (flags[k] <==> ateList[k] != 0)
  {
    seq(|ateList|, k requires 0 <= k < |ateList| => ateList[k] != 0)
  }

  /** The four-slot hit list `take_action` returns for the hit flags of its moves: 1 where
      the move hit, 0 where it did not or where there was no move. */
  function AteList(flags: seq<bool>): (ateList: seq<int>)
    requires |flags| <= 4
    ensures |ateList| == 4
    ensures Hits(ateList)[..|flags|] == flags
  {
    seq(4, k requires 0 <= k < 4 => if k < |flags| && flags[k] then 1 else 0)
  }

  /** The hit list starts as four zeros, and recording one more move's flag sets its slot
      to 1 exactly when the move hit. */
  lemma AteNext(flags: seq<bool>, hit: bool)
    requires |flags| < 4
    ensures AteList([]) == [0, 0, 0, 0]
    ensures AteList(flags + [hit]) == if hit then AteList(flags)[|flags| := 1] else AteList(flags)
  {
    var a, c := AteList(flags), AteList(flags + [hit]);
    assert forall k :: 0 <= k < 4 ==> c[k] == (if k == |flags| then (if hit then 1 else 0) else a[k]);
  }

  /** The tail of an undoable sequence, with the matching tail of flags, is undoable. */
  lemma {:induction false} UndoableSuffix(b: Board, t: Player, ms: Action, flags: seq<bool>, j: nat)
    requires Shaped(b) && |flags| >= |ms| && UndoableSeq(b, t, ms, flags) && j <= |ms|
    ensures UndoableSeq(b, t, ms[j..], flags[j..])
    decreases j
  {
    if j > 0 {
      UndoableSuffix(b, t, ms[1..], flags[1..], j - 1);
      assert ms[1..][j - 1..] == ms[j..] && flags[1..][j - 1..] == flags[j..];
    }
  }

  /** One more move of `undo_action` undone: the suffix from `j` can be undone, and undoing
      its first move after the rest gives the suffix's undo. */
  lemma UndoNext(b: Board, t: Player, ms: Action, flags: seq<bool>, j: nat)
    requires Shaped(b) && |flags| >= |ms| && UndoableSeq(b, t, ms, flags) && j < |ms|
    ensures UndoableSeq(b, t, ms[j..], flags[j..]) && UndoableSeq(b, t, ms[j + 1..], flags[j + 1..])
    ensures CanUndo(UndoSeq(b, t, ms[j + 1..], flags[j + 1..]), t, ms[j], flags[j])
    ensures UndoStep(UndoSeq(b, t, ms[j + 1..], flags[j + 1..]), t, ms[j], flags[j])
      == UndoSeq(b, t, ms[j..], flags[j..])
  {
    UndoableSuffix(b, t, ms, flags, j);
    assert ms[j..][1..] == ms[j + 1..] && flags[j..][1..] == flags[j + 1..];
  }

  /** One more move of `take_action` played: the rest of the sequence from the new board
      ends on the same board, with the new hit flag appended to the flags so far. */
  lemma ApplyNext(t: Player, action: Action, i: nat, c: Board, flags: seq<bool>, target: (Board, seq<bool>))
    requires i < |action| && Shaped(c) && PlayableSeq(c, t, action[i..])
    requires target.0 == ApplySeq(c, t, action[i..]).0
    requires target.1 == flags + ApplySeq(c, t, action[i..]).1
    ensures CanApply(c, t, action[i])
    ensures var step := ApplyStep(c, t, action[i]);
      && PlayableSeq(step.0, t, action[i + 1..])
      && target.0 == ApplySeq(step.0, t, action[i + 1..]).0
      && target.1 == (flags + [step.1]) + ApplySeq(step.0, t, action[i + 1..]).1
  {
    var ms := action[i..];
    assert ms[0] == action[i] && ms[1..] == action[i + 1..];
    ApplyCons(c, t, ms);
    var step := ApplyStep(c, t, action[i]);
    var tail := ApplySeq(step.0, t, action[i + 1..]).1;
    assert flags + ([step.1] + tail) == (flags + [step.1]) + tail;
  }

  /** `ApplySeq` of a nonempty sequence: the first move, then the rest. */
  lemma ApplyCons(c: Board, t: Player, ms: Action)
    requires Shaped(c) && ms != [] && PlayableSeq(c, t, ms)
    ensures CanApply(c, t, ms[0])
    ensures var step := ApplyStep(c, t, ms[0]);
      && PlayableSeq(step.0, t, ms[1..])
      && ApplySeq(c, t, ms).0 == ApplySeq(step.0, t, ms[1..]).0
      && ApplySeq(c, t, ms).1 == [step.1] + ApplySeq(step.0, t, ms[1..]).1
  {
  }

  /** The checker `find_moves` hits when it lands a checker of `p` on `e`: a lone
      checker there that is not `p`'s. */
  function HitAt(b: Board, p: Player, e: int): Option<Player>
    requires Shaped(b) && 0 <= e < NumCols
  {
    if |b.grid[e]| == 1 && Top(b.grid[e]) != p then Some(Top(b.grid[e])) else None
  }

  /** Returning a hit checker `k` to point `e` from the bar of `other`. */
  function Unhit(b: Board, e: int, k: Option<Player>, other: Player): Board
    requires Shaped(b) && 0 <= e < NumCols && (k.Some? ==> |b.bar.Get(other)| > 0)
  {
    if k.Some? then BarPop(PointPush(b, e, k.value), other) else b
  }

  /** `find_moves` after its recursive call for a move between points: popping the moved
      checker off `e` and pushing it back on `s` gives back the board, once a checker hit
      on `e` is returned there and popped off the opponent's bar. */
  lemma ShiftUndo(b: Board, p: Player, s: int, e: int)
    requires Shaped(b) && 0 <= s < NumCols && 0 <= e < NumCols && s != e && |b.grid[s]| > 0
    ensures |Shift(b, p, s, e).grid[e]| > 0
    ensures var back := PointPush(PointPop(Shift(b, p, s, e), e), s, Top(b.grid[s]));
      var k := HitAt(PointPop(b, s), p, e);
      (k.Some? ==> |back.bar.Get(Opponent(p))| > 0) && Unhit(back, e, k, Opponent(p)) == b
  {
    var piece := Top(b.grid[s]);
    var lifted := PointPop(b, s);
    assert lifted.grid[e] == b.grid[e];
    if |b.grid[e]| == 1 && Top(b.grid[e]) != p {
      ShiftHitUndo(b, p, s, e);
    } else {
      PointRoundTrip(lifted, e, piece);
      PointUnpop(b, s);
    }
  }

  lemma ShiftHitUndo(b: Board, p: Player, s: int, e: int)
    requires Shaped(b) && 0 <= s < NumCols && 0 <= e < NumCols && s != e && |b.grid[s]| > 0
    requires |b.grid[e]| == 1 && Top(b.grid[e]) != p
    ensures var back := PointPush(PointPop(Shift(b, p, s, e), e), s, Top(b.grid[s]));
      && |PointPush(back, e, Top(b.grid[e])).bar.Get(Opponent(p))| > 0
      && BarPop(PointPush(back, e, Top(b.grid[e])), Opponent(p)) == b
  {
    var piece, kicked, opp := Top(b.grid[s]), Top(b.grid[e]), Opponent(p);
    var lifted := PointPop(b, s);
    var w := BarPush(PointPop(lifted, e), opp, kicked);
    assert Shift(b, p, s, e) == PointPush(w, e, piece);
    PointRoundTrip(w, e, piece);
    var r := BarPop(PointPush(PointPush(w, s, piece), e, kicked), opp);
    assert r.grid == b.grid by {
      PopPush(b.grid[s]);
      assert b.grid[e] == [kicked] && Pop(b.grid[e]) == [];
      assert w.grid == b.grid[s := Pop(b.grid[s])][e := []];
      assert PointPush(w, s, piece).grid == b.grid[s := b.grid[s]][e := []];
      assert r.grid == b.grid[s := b.grid[s]][e := [] + [kicked]];
      assert [] + [kicked] == b.grid[e];
    }
    assert r.bar == b.bar by {
      BarRoundTrip(b, opp, kicked);
      assert r.bar == BarPop(BarPush(b, opp, kicked), opp).bar;
    }
    assert r.off == b.off && r.num == b.num && r.players == b.players;
    assert r == b;
  }

  /** `find_moves` after its recursive call for an entry onto `e`: popping the checker off
      `e` and pushing it back on the player's bar gives back the board, once a checker hit
      on `e` is returned there and popped off the opponent's bar. */
  lemma EnterUndo(b: Board, p: Player, e: int)
    requires Shaped(b) && 0 <= e < NumCols && |b.bar.Get(p)| > 0
    ensures |Enter(b, p, e).grid[e]| > 0
    ensures var back := BarPush(PointPop(Enter(b, p, e), e), p, Top(b.bar.Get(p)));
      var k := HitAt(BarPop(b, p), p, e);
      (k.Some? ==> |back.bar.Get(Opponent(p))| > 0) && Unhit(back, e, k, Opponent(p)) == b
  {
    var piece := Top(b.bar.Get(p));
    var lifted := BarPop(b, p);
    if |b.grid[e]| == 1 && Top(b.grid[e]) != p {
      EnterHitUndo(b, p, e);
    } else {
      PointRoundTrip(lifted, e, piece);
      BarUnpop(b, p);
    }
  }

  lemma EnterHitUndo(b: Board, p: Player, e: int)
    requires Shaped(b) && 0 <= e < NumCols && |b.bar.Get(p)| > 0
    requires |b.grid[e]| == 1 && Top(b.grid[e]) != p
    ensures var back := BarPush(PointPop(Enter(b, p, e), e), p, Top(b.bar.Get(p)));
      && |PointPush(back, e, Top(b.grid[e])).bar.Get(Opponent(p))| > 0
      && BarPop(PointPush(back, e, Top(b.grid[e])), Opponent(p)) == b
  {
    var piece, kicked, opp := Top(b.bar.Get(p)), Top(b.grid[e]), Opponent(p);
    var lifted := BarPop(b, p);
    var w := BarPush(PointPop(lifted, e), opp, kicked);
    assert Enter(b, p, e) == PointPush(w, e, piece);
    PointRoundTrip(w, e, piece);
    var r := BarPop(PointPush(BarPush(w, p, piece), e, kicked), opp);
    assert r.grid == b.grid by {
      assert b.grid[e] == [kicked] && Pop(b.grid[e]) == [];
      assert w.grid == b.grid[e := []];
      assert r.grid == b.grid[e := [] + [kicked]];
      assert [] + [kicked] == b.grid[e];
    }
    assert r.bar == b.bar by {
      PopPush(b.bar.Get(p));
      PopPush(b.bar.Get(opp) + [kicked]);
      assert r.bar.Get(p) == b.bar.Get(p);
      assert r.bar.Get(opp) == b.bar.Get(opp);
    }
    assert r.off == b.off && r.num == b.num && r.players == b.players;
    assert r == b;
  }

  /** Bearing off then popping the off stack and pushing the checker back on `s` gives
      back the board. */
  lemma BearOffUndo(b: Board, p: Player, s: int)
    requires Shaped(b) && 0 <= s < NumCols && |b.grid[s]| > 0
    ensures |BearOff(b, p, s).off.Get(p)| > 0
    ensures PointPush(OffPop(BearOff(b, p, s), p), s, Top(b.grid[s])) == b
  {
    OffRoundTrip(PointPop(b, s), p, Top(b.grid[s]));
    PointUnpop(b, s);
  }

  /** The engine's state: the layout string `reset` reads, one stack per point (bottom
      checker first), the bar and off stacks and checker counts per token, and the ordered
      token list. */
  class Game {
    var layout: Option<string>
    var grid: seq<seq<Player>>
    var offPieces: PerPlayer<seq<Player>>
    var barPieces: PerPlayer<seq<Player>>
    var numPieces: PerPlayer<nat>
    var players: seq<Player>

    /** The board these fields hold. */
    function State(): Board
      reads this
    {
      Board(grid, barPieces, offPieces, numPieces, players)
    }

    /** `Game(layout, grid, ...)`: a copy of the given board when it has a nonempty grid
        (what `clone` passes), otherwise 24 empty points, empty bars and off stacks, no
        checkers counted and the players `o` then `x`. */
    constructor (layout: Option<string>, parts: Option<Board>)
      ensures this.layout == layout
      ensures parts.Some? && |parts.value.grid| > 0 ==> State() == parts.value
      ensures !(parts.Some? && |parts.value.grid| > 0) ==> State() == Layout.Fresh()
    {
      this.layout := layout;
      if parts.Some? && |parts.value.grid| > 0 {
        var b := parts.value;
        grid := b.grid;
        offPieces := b.off;
        barPieces := b.bar;
        numPieces := b.num;
        players := b.players;
      } else {
        players := [O, X];
        grid := seq(NumCols, _ => []);
        barPieces := PerPlayer([], []);
        offPieces := PerPlayer([], []);
        numPieces := PerPlayer(0, 0);
      }
    }

    /** `new`: a game on the default layout, reset; each player has 15 checkers, all on
        the board. */
    static method New() returns (g: Game)
      ensures fresh(g) && g.layout == Some(Layout.DefaultLayout)
      ensures Layout.Reset(Layout.Fresh(), Layout.DefaultLayout).Some?
      ensures g.State() == Layout.Reset(Layout.Fresh(), Layout.DefaultLayout).value
      ensures Wellformed(g.State()) && g.State().num == PerPlayer(15, 15)
      ensures Count(g.State(), O) == 15 && Count(g.State(), X) == 15
    {
      g := new Game(Some(Layout.DefaultLayout), None);
      var ok := g.Reset();
      Layout.DefaultGame();
    }

    /** `clone`: a new game holding a copy of this board and no layout; later changes to
        either leave the other alone. */
    method Clone() returns (g: Game)
      requires Shaped(State())
      ensures fresh(g) && g.State() == State() && g.layout == None
    {
      g := new Game(None, Some(State()));
    }

    // ---- the list operations on the fields ----

    method PopPoint(e: int) returns (x: Player)
      requires Shaped(State()) && 0 <= e < NumCols && |grid[e]| > 0
      modifies this`grid
      ensures x == Top(old(grid[e])) && State() == PointPop(old(State()), e)
    {
      x := Top(grid[e]);
      grid := grid[e := Pop(grid[e])];
    }

    method PushPoint(e: int, x: Player)
      requires Shaped(State()) && 0 <= e < NumCols
      modifies this`grid
      ensures State() == PointPush(old(State()), e, x)
    {
      grid := grid[e := grid[e] + [x]];
    }

    method PopBar(p: Player) returns (x: Player)
      requires Shaped(State()) && |barPieces.Get(p)| > 0
      modifies this`barPieces
      ensures x == Top(old(barPieces.Get(p))) && State() == BarPop(old(State()), p)
    {
      x := Top(barPieces.Get(p));
      barPieces := barPieces.Set(p, Pop(barPieces.Get(p)));
    }

    method PushBar(p: Player, x: Player)
      requires Shaped(State())
      modifies this`barPieces
      ensures State() == BarPush(old(State()), p, x)
    {
      barPieces := barPieces.Set(p, barPieces.Get(p) + [x]);
    }

    method PopOff(p: Player) returns (x: Player)
      requires Shaped(State()) && |offPieces.Get(p)| > 0
      modifies this`offPieces
      ensures x == Top(old(offPieces.Get(p))) && State() == OffPop(old(State()), p)
    {
      x := Top(offPieces.Get(p));
      offPieces := offPieces.Set(p, Pop(offPieces.Get(p)));
    }

    method PushOff(p: Player, x: Player)
      requires Shaped(State())
      modifies this`offPieces
      ensures State() == OffPush(old(State()), p, x)
    {
      offPieces := offPieces.Set(p, offPieces.Get(p) + [x]);
    }

    // ---- applying and undoing an action ----

    /** `take_action`: plays the moves in order, sending every checker hit to its owner's
        bar; the board ends as `ApplySeq` says and the returned list marks the hits. */
    method TakeAction(action: Action, token: Player) returns (ateList: seq<int>)
      requires Shaped(State()) && PlayableSeq(State(), token, action) && |action| <= 4
      modifies this`grid, this`barPieces, this`offPieces
      ensures State() == ApplySeq(old(State()), token, action).0
      ensures ateList == AteList(ApplySeq(old(State()), token, action).1)
    {
      ghost var target := ApplySeq(State(), token, action);
      ghost var flags: seq<bool> := [];
      ateList := [0, 0, 0, 0];
      AteNext([], false);
      var i := 0;
      assert action[i..] == action;
      assert flags + target.1 == target.1;
      while i < |action|
        invariant 0 <= i <= |action| && |flags| == i
        invariant Shaped(State()) && PlayableSeq(State(), token, action[i..])
        invariant target.0 == ApplySeq(State(), token, action[i..]).0
        invariant target.1 == flags + ApplySeq(State(), token, action[i..]).1
        invariant ateList == AteList(flags)
      {
        ApplyNext(token, action, i, State(), flags, target);
        var hit := PlayMove(action[i], token);
        AteNext(flags, hit);
        if hit {
          ateList := ateList[i := 1];
        }
        flags := flags + [hit];
        i := i + 1;
      }
      assert action[i..] == [];
    }

    /** One iteration of `take_action`: lift the checker off the bar or its point, then
        bear it off, or put it on its destination after sending a checker found there
        that is not the player's to its owner's bar. */
    method PlayMove(m: Move, token: Player) returns (hit: bool)
      requires CanApply(State(), token, m)
      modifies this`grid, this`barPieces, this`offPieces
      ensures (State(), hit) == ApplyStep(old(State()), token, m)
    {
      var piece;
      if m.src == On {
        piece := PopBar(token);
      } else {
        piece := PopPoint(m.src.i);
      }
      hit := false;
      if m.dst == Off {
        PushOff(token, piece);
      } else {
        var e := m.dst.i;
        if |grid[e]| > 0 && grid[e][0] != token {
          var kicked := PopPoint(e);
          PushBar(kicked, kicked);
          hit := true;
        }
        PushPoint(e, piece);
      }
    }

    /** `undo_action`: takes the moves back, last first, returning a hit checker from the
        opponent's bar to the point it was hit on; the board ends as `UndoSeq` says. */
    method UndoAction(action: Action, player: Player, ateList: seq<int>)
      requires Shaped(State()) && |ateList| >= |action|
      requires UndoableSeq(State(), player, action, Hits(ateList))
      modifies this`grid, this`barPieces, this`offPieces
      ensures State() == UndoSeq(old(State()), player, action, Hits(ateList))
    {
      ghost var b0 := State();
      ghost var flags := Hits(ateList);
      var j := |action|;
      while j > 0
        invariant 0 <= j <= |action| && Shaped(State()) && State().players == b0.players
        invariant UndoableSeq(b0, player, action[j..], flags[j..])
        invariant State() == UndoSeq(b0, player, action[j..], flags[j..])
      {
        j := j - 1;
        UndoNext(b0, player, action, flags, j);
        UnplayMove(action[j], player, ateList[j] != 0);
      }
    }

    /** One iteration of the loop in `undo_action`: pop the checker off the destination,
        return a hit checker from the opponent's bar, and push the checker back where the
        move started. */
    method UnplayMove(m: Move, player: Player, hit: bool)
      requires CanUndo(State(), player, m, hit)
      modifies this`grid, this`barPieces, this`offPieces
      ensures State() == UndoStep(old(State()), player, m, hit)
    {
      var piece;
      if m.dst == Off {
        piece := PopOff(player);
      } else {
        piece := PopPoint(m.dst.i);
        if hit {
          var opp := Opponent(player);
          var kicked := PopBar(opp);
          PushPoint(m.dst.i, kicked);
        }
      }
      if m.src == On {
        PushBar(player, piece);
      } else {
        PushPoint(m.src.i, piece);
      }
    }

    /** `opponent`: the first token in `players` that is not `token`. */
    method Opponent(token: Player) returns (t: Player)
      requires Shaped(State())
      ensures t == BoardState.Opponent(token) && t in players
    {
      var k := 0;
      while k < |players|
        invariant 0 <= k <= |players|
        invariant forall j :: 0 <= j < k ==> players[j] == token
      {
        if players[k] != token {
          return players[k];
        }
        k := k + 1;
      }
      assert false;
      t := token;
    }

    // ---- the loop queries ----

    /** `can_offboard`: counts the player's checkers on its home points and compares that
        plus its borne-off checkers with its checker count. */
    method CanOffboard(player: Player) returns (ok: bool)
      requires Shaped(State())
      ensures ok == Legality.CanOffboard(State(), player)
    {
      var start, end := 0, Quad;
      if player == players[0] {
        start, end := NumCols - Quad, NumCols;
      }
      var count := 0;
      for i := start to end
        invariant count == Owned(grid, player, start, i)
      {
        if |grid[i]| > 0 && grid[i][0] == player {
          count := count + |grid[i]|;
        }
      }
      ok := count + |offPieces.Get(player)| == numPieces.Get(player);
    }

    /** `remove_piece`: scans the home points farther from the edge than `start` when the
        die overshoots. */
    method RemovePiece(player: Player, start: int, r: int) returns (ok: bool)
      requires Shaped(State()) && 0 <= start < NumCols
      ensures ok == Legality.RemovePiece(State(), player, start, r)
    {
      if player == players[0] && start < |grid| - Quad {
        return false;
      }
      if player == players[1] && start >= Quad {
        return false;
      }
      if |grid[start]| == 0 || grid[start][0] != player {
        return false;
      }
      if player == players[0] {
        if start + r == |grid| {
          return true;
        }
        if start + r > |grid| {
          OccupiesRule(grid, players[0], NumCols - Quad, start);
          var i := start - 1;
          while i > |grid| - Quad - 1
            invariant NumCols - Quad - 1 <= i < start
            invariant forall j :: i < j < start ==> Own(grid[j], players[0]) == 0
          {
            if |grid[i]| != 0 && grid[i][0] == players[0] {
              assert Own(grid[i], players[0]) > 0;
              return false;
            }
            i := i - 1;
          }
          return true;
        }
      }
      if player == players[1] {
        if start + r == -1 {
          return true;
        }
        if start + r < -1 {
          OccupiesRule(grid, players[1], start + 1, Quad);
          for i := start + 1 to Quad
            invariant forall j :: start < j < i ==> Own(grid[j], players[1]) == 0
          {
            if |grid[i]| != 0 && grid[i][0] == players[1] {
              assert Own(grid[i], players[1]) > 0;
              return false;
            }
          }
          return true;
        }
      }
      return false;
    }

    /** `is_over`: some token in `players` has borne off its whole count. */
    method IsOver() returns (over: bool)
      requires Shaped(State())
      ensures over == Legality.IsOver(State())
    {
      for k := 0 to |players|
        invariant forall j :: 0 <= j < k ==> |offPieces.Get(players[j])| != numPieces.Get(players[j])
      {
        if |offPieces.Get(players[k])| == numPieces.Get(players[k]) {
          return true;
        }
      }
      return false;
    }

    // ---- move generation ----

    /** `find_moves`: tries every way to play the dice `rs` in order, changing the board
        before each recursive call and restoring it afterwards, and adds every complete
        sequence to `moves`. `start` is passed along and otherwise unused. */
    method FindMoves(rs: seq<int>, player: Player, move: Action, moves: set<Action>, start: Option<int>)
      returns (found: set<Action>)
      requires Shaped(State()) && DiceFit(State(), player, rs)
      modifies this`grid, this`barPieces, this`offPieces
      ensures State() == old(State())
      ensures found == moves + Found(old(State()), player, rs, move)
      decreases |rs|, 3
    {
      if |rs| == 0 {
        return moves + {move};
      }
      ghost var b := State();
      var r, rest := rs[0], rs[1..];
      DiceFitTail(b, b, player, rs);
      if |barPieces.Get(player)| > 0 {
        EntryOnBoard(b, player, r);
        if CanOnboard(State(), player, r) {
          found := EnterMoves(r, rest, player, move, moves, start);
          return;
        }
      }
      found := ScanMoves(r, rest, player, move, moves, start);
    }

    /** The point loop of `find_moves`: each point in turn, with the cursor `start` moved to
        the point when it is set. */
    method ScanMoves(r: int, rest: seq<int>, player: Player, move: Action, moves: set<Action>, start: Option<int>)
      returns (found: set<Action>)
      requires Shaped(State()) && DieFits(State(), player, r) && DiceFit(State(), player, rest)
      modifies this`grid, this`barPieces, this`offPieces
      ensures State() == old(State())
      ensures found == moves + Scan(old(State()), player, r, rest, move, NumCols)
      decreases |rest| + 1, 2
    {
      ghost var b := State();
      var offboarding := CanOffboard(player);
      var cursor := start;
      found := moves;
      for i := 0 to NumCols
        invariant State() == b
        invariant found == moves + Scan(b, player, r, rest, move, i)
      {
        if cursor.Some? {
          cursor := Some(i);
        }
        found := PointMoves(i, r, rest, player, move, found, cursor, offboarding);
        assert Scan(b, player, r, rest, move, i + 1) == Scan(b, player, r, rest, move, i) + At(b, player, r, rest, move, i);
      }
    }

    /** One iteration of the point loop of `find_moves`: a valid move of `r` pips from
        point `i`, then bearing off from `i` when bearing off is allowed and
        `remove_piece` accepts. */
    method PointMoves(i: int, r: int, rest: seq<int>, player: Player, move: Action, moves: set<Action>,
                      start: Option<int>, offboarding: bool)
      returns (found: set<Action>)
      requires Shaped(State()) && DieFits(State(), player, r) && DiceFit(State(), player, rest)
      requires 0 <= i < NumCols && offboarding == Legality.CanOffboard(State(), player)
      modifies this`grid, this`barPieces, this`offPieces
      ensures State() == old(State())
      ensures found == moves + At(old(State()), player, r, rest, move, i)
      decreases |rest| + 1, 1
    {
      found := moves;
      if IsValidMove(State(), i, i + r, player) {
        found := ShiftMoves(i, r, rest, player, move, found, start);
      }
      if offboarding {
        var removable := RemovePiece(player, i, r);
        if removable {
          found := BearOffMoves(i, r, rest, player, move, found, start);
        }
      }
    }

    /** The bar branch of `find_moves`: enter on the entry point of `r` (r-1 for the first
        player, 24+r for the other), hitting a lone opposing checker there, search with
        the remaining dice, then undo the entry. */
    method EnterMoves(r: int, rest: seq<int>, player: Player, move: Action, moves: set<Action>, start: Option<int>)
      returns (found: set<Action>)
      requires Shaped(State()) && DieFits(State(), player, r) && DiceFit(State(), player, rest)
      requires |barPieces.Get(player)| > 0 && CanOnboard(State(), player, r)
      modifies this`grid, this`barPieces, this`offPieces
      ensures State() == old(State())
      ensures found == moves + Found(old(State()), player, [r] + rest, move)
      decreases |rest| + 1, 0
    {
      ghost var b := State();
      PlayersCover(b, player);
      assert ([r] + rest)[0] == r && ([r] + rest)[1..] == rest;
      var piece := PopBar(player);
      var e, other := 0 + (r - 1), players[1];
      if player != players[0] {
        e, other := (NumCols - 1) + (r + 1), players[0];
      }
      var kicked := LandOn(e, piece, player, other);
      assert State() == Enter(b, player, e);
      DiceFitTail(b, State(), player, [r] + rest);
      found := FindMoves(rest, player, move + [Move(On, Pt(e))], moves, start);
      EnterUndo(b, player, e);
      Unland(On, e, player, piece, kicked, other);
    }

    /** The point-to-point branch of `find_moves` for point `i`: move its top checker `r`
        pips, hitting a lone opposing checker there, search with the remaining dice, then
        undo the move. */
    method ShiftMoves(i: int, r: int, rest: seq<int>, player: Player, move: Action, moves: set<Action>, start: Option<int>)
      returns (found: set<Action>)
      requires Shaped(State()) && DieFits(State(), player, r) && DiceFit(State(), player, rest)
      requires 0 <= i < NumCols && IsValidMove(State(), i, i + r, player)
      modifies this`grid, this`barPieces, this`offPieces
      ensures State() == old(State())
      ensures found == moves + Found(Shift(old(State()), player, i, i + r), player, rest, move + [Move(Pt(i), Pt(i + r))])
      decreases |rest| + 1, 0
    {
      ghost var b := State();
      var piece, kicked, other := ShiftOn(i, i + r, player);
      found := FindMoves(rest, player, move + [Move(Pt(i), Pt(i + r))], moves, start);
      ShiftUndo(b, player, i, i + r);
      Unland(Pt(i), i + r, player, piece, kicked, other);
    }

    /** `find_moves` moving the top checker of point `s` to point `e`; the checker, the
        checker it hit (if any) and the opponent are returned for the undo. */
    method ShiftOn(s: int, e: int, player: Player) returns (piece: Player, kicked: Option<Player>, other: Player)
      requires Shaped(State()) && 0 <= s < NumCols && 0 <= e < NumCols && |grid[s]| > 0
      modifies this`grid, this`barPieces
      ensures State() == Shift(old(State()), player, s, e)
      ensures piece == Top(old(grid)[s]) && other == BoardState.Opponent(player)
      ensures kicked == HitAt(PointPop(old(State()), s), player, e)
    {
      PlayersCover(State(), player);
      piece := PopPoint(s);
      other := if player == players[0] then players[1] else players[0];
      kicked := LandOn(e, piece, player, other);
    }

    /** `find_moves` landing a checker on `e`: a lone checker there that is not the
        player's is first popped and pushed on the bar of `other`; it is returned. */
    method LandOn(e: int, piece: Player, player: Player, other: Player) returns (kicked: Option<Player>)
      requires Shaped(State()) && 0 <= e < NumCols && other == BoardState.Opponent(player)
      modifies this`grid, this`barPieces
      ensures State() == Land(old(State()), player, e, piece)
      ensures kicked == HitAt(old(State()), player, e)
    {
      kicked := None;
      if |grid[e]| == 1 && Top(grid[e]) != player {
        var k := PopPoint(e);
        PushBar(other, k);
        kicked := Some(k);
      }
      PushPoint(e, piece);
    }

    /** `find_moves` after its recursive call: pop the moved checker off `e`, push it back
        on the bar or on its point, and return a checker it hit from the bar of `other`. */
    method Unland(src: Endpoint, e: int, player: Player, piece: Player, kicked: Option<Player>, other: Player)
      requires Shaped(State()) && 0 <= e < NumCols && |grid[e]| > 0
      requires src == On || (src.Pt? && 0 <= src.i < NumCols)
      requires kicked.Some? ==> |Unlift(PointPop(State(), e), player, src, piece).bar.Get(other)| > 0
      modifies this`grid, this`barPieces
      ensures State() == Unhit(Unlift(PointPop(old(State()), e), player, src, piece), e, kicked, other)
    {
      var _ := PopPoint(e);
      if src == On {
        PushBar(player, piece);
      } else {
        PushPoint(src.i, piece);
      }
      if kicked.Some? {
        PushPoint(e, kicked.value);
        var _ := PopBar(other);
      }
    }

    /** The bearing-off branch of `find_moves` for point `i`: move its top checker to the
        player's off stack, search with the remaining dice, then put it back. */
    method BearOffMoves(i: int, r: int, rest: seq<int>, player: Player, move: Action, moves: set<Action>, start: Option<int>)
      returns (found: set<Action>)
      requires Shaped(State()) && DiceFit(State(), player, rest)
      requires 0 <= i < NumCols && |grid[i]| > 0
      modifies this`grid, this`barPieces, this`offPieces
      ensures State() == old(State())
      ensures found == moves + Found(BearOff(old(State()), player, i), player, rest, move + [Move(Pt(i), Off)])
      decreases |rest| + 1, 0
    {
      ghost var b := State();
      var piece := PopPoint(i);
      PushOff(player, piece);
      found := FindMoves(rest, player, move + [Move(Pt(i), Off)], moves, start);
      BearOffUndo(b, player, i);
      var _ := PopOff(player);
      PushPoint(i, piece);
    }

    /** `get_actions_doubles`: the actions for a roll, found by `find_moves` with the dice
        negated for the second player; the board is left as it was. */
    method GetActionsDoubles(roll: (int, int), player: Player, nodups: bool) returns (moves: set<Action>)
      requires Shaped(State()) && 1 <= roll.0 <= Quad && 1 <= roll.1 <= Quad
      modifies this`grid, this`barPieces, this`offPieces
      ensures State() == old(State())
      ensures moves == ActionsFor(old(State()), roll, player)
    {
      ghost var b := State();
      moves := {};
      var start: Option<int> := if nodups then Some(0) else None;
      var r1, r2 := roll.0, roll.1;
      if player == players[1] {
        r1, r2 := -r1, -r2;
      }
      var rolls := [r1, r2];
      assert r1 == Signed(b, player, roll.0) && r2 == Signed(b, player, roll.1);
      if r1 == r2 {
        moves := DoublesMoves(r1, player, start);
      } else {
        moves := MixedMoves(rolls, player, start);
      }
    }

    /** The branch of `get_actions_doubles` for two different dice: `find_moves` with both
        orders, then, when that finds nothing, with each die alone. */
    method MixedMoves(rolls: seq<int>, player: Player, start: Option<int>) returns (moves: set<Action>)
      requires Shaped(State()) && |rolls| == 2 && DiceFit(State(), player, rolls)
      modifies this`grid, this`barPieces, this`offPieces
      ensures State() == old(State())
      ensures var b, r1, r2 := old(State()), rolls[0], rolls[1];
        var both := Found(b, player, [r1, r2], []) + Found(b, player, [r2, r1], []);
        moves == if both != {} then both else Found(b, player, [r1], []) + Found(b, player, [r2], [])
    {
      ghost var b := State();
      var r1, r2 := rolls[0], rolls[1];
      assert DieFits(b, player, r1) && DieFits(b, player, r2);
      moves := FindMoves([r1, r2], player, [], {}, start);
      moves := FindMoves([r2, r1], player, [], moves, start);
      if moves == {} {
        ghost var singles := [{}, Found(b, player, [r1], []), Found(b, player, [r1], []) + Found(b, player, [r2], [])];
        for k := 0 to |rolls|
          invariant State() == b && moves == singles[k]
        {
          assert DiceFit(b, player, [rolls[k]]);
          moves := FindMoves([rolls[k]], player, [], moves, start);
        }
      }
    }

    /** The doubles loop of `get_actions_doubles`: `find_moves` with four copies of the
        die, then three, two and one, until some action is found. */
    method DoublesMoves(r: int, player: Player, start: Option<int>) returns (moves: set<Action>)
      requires Shaped(State()) && DieFits(State(), player, r)
      modifies this`grid, this`barPieces, this`offPieces
      ensures State() == old(State())
      ensures moves == Doubles(old(State()), player, r, 4)
    {
      ghost var b := State();
      moves := {};
      var i := 4;
      while moves == {} && i > 0
        invariant 0 <= i <= 4 && State() == b
        invariant (if moves == {} then Doubles(b, player, r, i) else moves) == Doubles(b, player, r, 4)
      {
        moves := FindMoves(Repeat(r, i), player, [], moves, start);
        i := i - 1;
      }
    }

    /** `take_turn` once the dice are rolled: when the roll has actions, the one the agent
        picked among them (`chosen`) is played; otherwise the board stays as it is. Either
        way the board stays well formed and no checker is created or lost. */
    method TakeTurn(roll: (int, int), player: Player, chosen: Action)
      requires Wellformed(State()) && 1 <= roll.0 <= Quad && 1 <= roll.1 <= Quad
      requires ActionsFor(State(), roll, player) != {} ==> chosen in ActionsFor(State(), roll, player)
      modifies this`grid, this`barPieces, this`offPieces
      ensures ActionsFor(old(State()), roll, player) == {} ==> State() == old(State())
      ensures ActionsFor(old(State()), roll, player) != {} ==>
        LegalSeq(old(State()), player, chosen) && State() == ApplySeq(old(State()), player, chosen).0
      ensures Wellformed(State())
      ensures Count(State(), O) == Count(old(State()), O) && Count(State(), X) == Count(old(State()), X)
    {
      var moves := GetActionsDoubles(roll, player, true);
      if moves != {} {
        ActionsLegal(State(), roll, player, chosen);
        var _ := TakeAction(chosen, player);
      }
    }

    // ---- orientation and layout ----

    /** `reverse`: the points and the player order reversed in place. */
    method Reverse()
      requires Shaped(State())
      modifies this`grid, this`players
      ensures State() == Reversed(old(State()))
    {
      var g := grid;
      grid := seq(|g|, i requires 0 <= i < |g| => g[|g| - 1 - i]);
      players := [players[1], players[0]];
    }

    /** `reset`: each field of the layout string replaces the stack on its point, then
        every checker on the grid is added to its token's count. It fails (where the source
        raises) without a layout, on a malformed field, or on a point past the last one. */
    method Reset() returns (ok: bool)
      requires Shaped(State())
      modifies this`grid, this`numPieces
      ensures ok <==> layout.Some? && Layout.Reset(old(State()), layout.value).Some?
      ensures ok ==> State() == Layout.Reset(old(State()), layout.value).value
    {
      if layout.None? {
        return false;
      }
      var cols := Layout.Split(layout.value, ',');
      Layout.PlaceFieldsSpec(grid, cols);
      ok := PlaceColumns(cols);
      if ok {
        CountPieces();
      }
    }

    /** The first loop of `reset`: each field replaces the stack on its point, until a
        malformed field or a point past the last one stops it. */
    method PlaceColumns(cols: seq<string>) returns (ok: bool)
      requires |grid| == NumCols
      modifies this`grid
      ensures ok <==> Layout.PlaceFields(old(grid), cols).Some?
      ensures ok ==> grid == Layout.PlaceFields(old(grid), cols).value
    {
      ghost var g0 := grid;
      var k := 0;
      while k < |cols|
        invariant 0 <= k <= |cols| && |grid| == NumCols
        invariant Layout.PlaceFields(grid, cols[k..]) == Layout.PlaceFields(g0, cols)
      {
        assert cols[k..][0] == cols[k] && cols[k..][1..] == cols[k + 1..];
        var entry := Layout.ParseEntry(cols[k]);
        if entry.None? {
          return false;
        }
        var e := entry.value;
        if e.loc >= |grid| {
          return false;
        }
        grid := grid[e.loc := Layout.Stack(e.token, e.num)];
        k := k + 1;
      }
      assert cols[k..] == [];
      return true;
    }

    /** The second loop of `reset`: every checker on every point adds one to its token's
        count. */
    method CountPieces()
      modifies this`numPieces
      ensures numPieces == PerPlayer(old(numPieces).o + Layout.Tally(grid, O), old(numPieces).x + Layout.Tally(grid, X))
    {
      ghost var n0 := numPieces;
      for i := 0 to |grid|
        invariant numPieces == PerPlayer(n0.o + Layout.Tally(grid[..i], O), n0.x + Layout.Tally(grid[..i], X))
      {
        var col := grid[i];
        assert grid[..i + 1][..i] == grid[..i];
        for j := 0 to |col|
          invariant numPieces == PerPlayer(
            n0.o + Layout.Tally(grid[..i], O) + Layout.Occurrences(col[..j], O),
            n0.x + Layout.Tally(grid[..i], X) + Layout.Occurrences(col[..j], X))
        {
          assert col[..j + 1][..j] == col[..j];
          var piece := col[j];
          numPieces := numPieces.Set(piece, numPieces.Get(piece) + 1);
        }
        assert col[..|col|] == col;
      }
      assert grid[..|grid|] == grid;
    }
  }
}
