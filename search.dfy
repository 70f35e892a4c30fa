/** The move generator: `find_moves`, which tries every way to play a sequence of dice
    and collects each complete action, and `get_actions_doubles`, which expands a roll
    into the dice sequences it tries. `Found` is what `find_moves` collects, written the
    way the source computes it; `Follows` says independently which actions those are. */
module MoveGen {
  import opened BoardState
  import opened Legality
  import opened Actions

  /** A die as `find_moves` receives it for `p`: 1..6 for the first-listed player,
      -6..-1 for the other, whose dice `get_actions_doubles` negates. */
  predicate DieFits(b: Board, p: Player, r: int)
    requires Shaped(b)
  {
    if Forward(b, p) then 1 <= r <= Quad else -Quad <= r <= -1
  }

  predicate DiceFit(b: Board, p: Player, rs: seq<int>)
    requires Shaped(b)
  {
    forall k :: 0 <= k < |rs| ==> DieFits(b, p, rs[k])
  }

  lemma DiceFitTail(b: Board, c: Board, p: Player, rs: seq<int>)
    requires Shaped(b) && Shaped(c) && c.players == b.players && DiceFit(b, p, rs) && rs != []
    ensures DieFits(c, p, rs[0]) && DiceFit(c, p, rs[1..])
  {
    assert DieFits(b, p, rs[0]);
    forall k | 0 <= k < |rs| - 1 ensures DieFits(c, p, rs[1..][k]) {
      assert rs[1..][k] == rs[k + 1];
      assert DieFits(b, p, rs[k + 1]);
    }
  }

  /** The entry point of a fitting die is on the board. */
  lemma EntryOnBoard(b: Board, p: Player, r: int)
    requires Shaped(b) && DieFits(b, p, r)
    ensures 0 <= EntryPoint(b, p, r) < NumCols
  {
  }

  // ---- the board changes `find_moves` makes before recursing ----

  /** Put the moving checker on point `e`; a single checker there that is not the
      player's is first sent to the bar of the other token in `players`. */
  function Land(b: Board, p: Player, e: int, piece: Player): (r: Board)
    requires Shaped(b) && 0 <= e < NumCols
    ensures Shaped(r) && r.players == b.players && r.num == b.num
  {
    if |b.grid[e]| == 1 && Top(b.grid[e]) != p then
      PointPush(BarPush(PointPop(b, e), Opponent(p), Top(b.grid[e])), e, piece)
    else PointPush(b, e, piece)
  }

  /** Entering from the bar onto point `e`. */
  function Enter(b: Board, p: Player, e: int): (r: Board)
    requires Shaped(b) && 0 <= e < NumCols && |b.bar.Get(p)| > 0
    ensures Shaped(r) && r.players == b.players && r.num == b.num
  {
    Land(BarPop(b, p), p, e, Top(b.bar.Get(p)))
  }

  /** Moving the top checker of point `s` to point `e`. */
  function Shift(b: Board, p: Player, s: int, e: int): (r: Board)
    requires Shaped(b) && 0 <= s < NumCols && 0 <= e < NumCols && |b.grid[s]| > 0
    ensures Shaped(r) && r.players == b.players && r.num == b.num
  {
    Land(PointPop(b, s), p, e, Top(b.grid[s]))
  }

  /** Bearing off the top checker of point `s`. */
  function BearOff(b: Board, p: Player, s: int): (r: Board)
    requires Shaped(b) && 0 <= s < NumCols && |b.grid[s]| > 0
    ensures Shaped(r) && r.players == b.players && r.num == b.num
  {
    OffPush(PointPop(b, s), p, Top(b.grid[s]))
  }

  // ---- what `find_moves` collects ----

  /** `find_moves(rs, player, move, moves)` adds `Found(b, player, rs, move)` to `moves`:
      with no dice left, the move sequence built so far; with a checker on the bar and an
      open entry point, only the entry; otherwise every point, in order. */
  function Found(b: Board, p: Player, rs: seq<int>, move: Action): set<Action>
    requires Shaped(b) && DiceFit(b, p, rs)
    decreases |rs|, 2
  {
    if rs == [] then {move}
    else
      var r := rs[0];
      DiceFitTail(b, b, p, rs);
      if |b.bar.Get(p)| > 0 && CanOnboard(b, p, r) then
        var e := EntryPoint(b, p, r);
        var c := Enter(b, p, e);
        DiceFitTail(b, c, p, rs);
        Found(c, p, rs[1..], move + [Move(On, Pt(e))])
      else Scan(b, p, r, rs[1..], move, NumCols)
  }

  /** The loop of `find_moves` over points 0..n-1. */
  function Scan(b: Board, p: Player, r: int, rest: seq<int>, move: Action, n: int): set<Action>
    requires Shaped(b) && DieFits(b, p, r) && DiceFit(b, p, rest) && 0 <= n <= NumCols
    decreases |rest| + 1, 1, n
  {
    if n == 0 then {} else Scan(b, p, r, rest, move, n - 1) + At(b, p, r, rest, move, n - 1)
  }

  /** One iteration of that loop: a valid move of `r` pips from point `i`, then bearing
      off from point `i` when bearing off is allowed and `remove_piece` accepts. */
  function At(b: Board, p: Player, r: int, rest: seq<int>, move: Action, i: int): set<Action>
    requires Shaped(b) && DieFits(b, p, r) && DiceFit(b, p, rest) && 0 <= i < NumCols
    decreases |rest| + 1, 0
  {
    (if IsValidMove(b, i, i + r, p) then
       Found(Shift(b, p, i, i + r), p, rest, move + [Move(Pt(i), Pt(i + r))])
     else {})
    + (if CanOffboard(b, p) && RemovePiece(b, p, i, r) then
         Found(BearOff(b, p, i), p, rest, move + [Move(Pt(i), Off)])
       else {})
  }

  // ---- what those actions are ----

  /** The checker moves `find_moves` tries with die `r`: entering is forced when a checker
      is on the bar and its entry point is open; otherwise any valid move of `r` pips, or
      bearing off a checker that `remove_piece` accepts when bearing off is allowed. */
  predicate Choice(b: Board, p: Player, r: int, m: Move)
    requires Shaped(b) && DieFits(b, p, r)
    ensures Choice(b, p, r, m) ==> StepLegal(b, p, m)
  {
    if |b.bar.Get(p)| > 0 && CanOnboard(b, p, r) then m == Move(On, Pt(EntryPoint(b, p, r)))
    else PointChoice(b, p, r, m)
  }

  /** The choices on the points, when no entry is forced. */
  predicate PointChoice(b: Board, p: Player, r: int, m: Move)
    requires Shaped(b)
    ensures PointChoice(b, p, r, m) ==> StepLegal(b, p, m)
  {
    match m
    case Move(Pt(i), Pt(e)) => 0 <= i < NumCols && e == i + r && IsValidMove(b, i, e, p)
    case Move(Pt(i), Off) => 0 <= i < NumCols && CanOffboard(b, p) && RemovePiece(b, p, i, r)
    case _ => false
  }

  /** `ms` uses the dice `rs` in order, each move one of the choices for its die on the
      board that `take_action` has left after the moves before it. */
  predicate Follows(b: Board, p: Player, rs: seq<int>, ms: Action)
    requires Shaped(b)
    decreases |ms|
  {
    if ms == [] then rs == []
    else
      && rs != []
      && DieFits(b, p, rs[0])
      && Choice(b, p, rs[0], ms[0])
      && Follows(ApplyStep(b, p, ms[0]).0, p, rs[1..], ms[1..])
  }

  /** `a` starts with the moves already made. */
  predicate Extends(a: Action, move: Action)
  {
    |a| >= |move| && a[..|move|] == move
  }

  // ---- find_moves' changes agree with take_action's ----

  /** Where the move is open, `find_moves`' hit rule (a single checker that is not the
      player's, sent to the other player's bar) and `take_action`'s (a bottom checker
      that is not the player's, sent to its owner's bar) do the same thing. */
  lemma LandAgrees(b: Board, p: Player, e: int, piece: Player)
    requires Shaped(b) && 0 <= e < NumCols && Uniform(b.grid[e])
    requires |b.grid[e]| <= 1 || b.grid[e][0] == p
    ensures Land(b, p, e, piece) == Drop(b, p, piece, Pt(e)).0
  {
    if |b.grid[e]| == 1 {
      assert Top(b.grid[e]) == b.grid[e][0];
    }
  }

  lemma EnterAgrees(b: Board, p: Player, r: int)
    requires Wellformed(b) && DieFits(b, p, r) && |b.bar.Get(p)| > 0 && CanOnboard(b, p, r)
    ensures Enter(b, p, EntryPoint(b, p, r)) == ApplyStep(b, p, Move(On, Pt(EntryPoint(b, p, r)))).0
  {
    var e := EntryPoint(b, p, r);
    LandAgrees(BarPop(b, p), p, e, Top(b.bar.Get(p)));
  }

  lemma ShiftAgrees(b: Board, p: Player, s: int, e: int)
    requires Wellformed(b) && 0 <= s < NumCols && IsValidMove(b, s, e, p)
    ensures Shift(b, p, s, e) == ApplyStep(b, p, Move(Pt(s), Pt(e))).0
  {
    var c := PointPop(b, s);
    if s == e {
      OwnPop(b.grid[s], p);
      if |c.grid[e]| > 0 {
        assert c.grid[e][0] == b.grid[s][0];
      }
    } else {
      assert c.grid[e] == b.grid[e];
      if |b.grid[e]| > 1 {
        assert Top(b.grid[e]) == b.grid[e][0];
      }
    }
    LandAgrees(c, p, e, Top(b.grid[s]));
  }

  // ---- what find_moves collects, characterised ----

  lemma ExtendsStep(a: Action, move: Action, m: Move)
    ensures Extends(a, move + [m]) <==> Extends(a, move) && |a| > |move| && a[|move|] == m
    ensures Extends(a, move) && |a| > |move| ==>
      a[|move|..][0] == a[|move|] && a[|move|..][1..] == a[|move| + 1..]
  {
    if Extends(a, move) && |a| > |move| && a[|move|] == m {
      assert a[..|move| + 1] == a[..|move|] + [a[|move|]];
    }
    if Extends(a, move + [m]) {
      assert a[..|move|] == a[..|move| + 1][..|move|];
      assert a[|move|] == a[..|move| + 1][|move|];
    }
  }

  /** `find_moves` collects exactly the extensions of `move` by an action that follows
      the dice. */
  lemma {:induction false} FoundSpec(b: Board, p: Player, rs: seq<int>, move: Action, a: Action)
    requires Wellformed(b) && DiceFit(b, p, rs)
    ensures a in Found(b, p, rs, move) <==> Extends(a, move) && Follows(b, p, rs, a[|move|..])
    decreases |rs|, 3
  {
    if rs == [] {
      if Extends(a, move) && a[|move|..] == [] {
        assert a == a[..|move|];
      }
    } else {
      var r := rs[0];
      DiceFitTail(b, b, p, rs);
      if |b.bar.Get(p)| > 0 && CanOnboard(b, p, r) {
        var e := EntryPoint(b, p, r);
        var m := Move(On, Pt(e));
        var c := Enter(b, p, e);
        EnterAgrees(b, p, r);
        StepConserves(b, p, m);
        DiceFitTail(b, c, p, rs);
        FoundSpec(c, p, rs[1..], move + [m], a);
        ExtendsStep(a, move, m);
      } else {
        ScanSpec(b, p, rs, move, NumCols, a);
        ExtendsStep(a, move, Move(On, On));
      }
    }
  }

  /** The loop over points 0..n-1 collects the extensions whose next move starts on
      one of those points. */
  lemma {:induction false} ScanSpec(b: Board, p: Player, rs: seq<int>, move: Action, n: int, a: Action)
    requires Wellformed(b) && rs != [] && DiceFit(b, p, rs) && 0 <= n <= NumCols
    requires DieFits(b, p, rs[0]) && DiceFit(b, p, rs[1..])
    requires !(|b.bar.Get(p)| > 0 && CanOnboard(b, p, rs[0]))
    ensures a in Scan(b, p, rs[0], rs[1..], move, n) <==>
      Extends(a, move) && |a| > |move| && a[|move|].src.Pt? && a[|move|].src.i < n
      && Follows(b, p, rs, a[|move|..])
    decreases |rs|, 2, n
  {
    if n > 0 {
      ScanSpec(b, p, rs, move, n - 1, a);
      AtSpec(b, p, rs, move, n - 1, a);
    }
  }

  /** One iteration collects the extensions whose next move starts on point `i`. */
  lemma {:induction false} AtSpec(b: Board, p: Player, rs: seq<int>, move: Action, i: int, a: Action)
    requires Wellformed(b) && rs != [] && DiceFit(b, p, rs) && 0 <= i < NumCols
    requires DieFits(b, p, rs[0]) && DiceFit(b, p, rs[1..])
    requires !(|b.bar.Get(p)| > 0 && CanOnboard(b, p, rs[0]))
    ensures a in At(b, p, rs[0], rs[1..], move, i) <==>
      Extends(a, move) && |a| > |move| && a[|move|].src == Pt(i) && Follows(b, p, rs, a[|move|..])
    decreases |rs|, 1
  {
    ShiftBranch(b, p, rs, move, i, a);
    OffBranch(b, p, rs, move, i, a);
    if Extends(a, move) && |a| > |move| && a[|move|].src == Pt(i) {
      FollowsFrom(b, p, rs, move, i, a);
    }
  }

  /** An extension whose next move starts on point `i` follows the dice exactly when
      that move is the valid move of `r` pips or the bearing off from `i`, and the rest
      follows on the board it leaves. */
  lemma FollowsFrom(b: Board, p: Player, rs: seq<int>, move: Action, i: int, a: Action)
    requires Shaped(b) && rs != [] && DieFits(b, p, rs[0]) && 0 <= i < NumCols
    requires !(|b.bar.Get(p)| > 0 && CanOnboard(b, p, rs[0]))
    requires Extends(a, move) && |a| > |move| && a[|move|].src == Pt(i)
    ensures var m1, m2 := Move(Pt(i), Pt(i + rs[0])), Move(Pt(i), Off);
      Follows(b, p, rs, a[|move|..]) <==>
        (a[|move|] == m1 && IsValidMove(b, i, i + rs[0], p)
         && Follows(ApplyStep(b, p, m1).0, p, rs[1..], a[|move| + 1..]))
        || (a[|move|] == m2 && CanOffboard(b, p) && RemovePiece(b, p, i, rs[0])
         && Follows(ApplyStep(b, p, m2).0, p, rs[1..], a[|move| + 1..]))
  {
    ChoiceFrom(b, p, rs[0], i, a[|move|]);
    ExtendsStep(a, move, a[|move|]);
  }

  /** The choices whose move starts on point `i`, when no entry is forced. */
  lemma ChoiceFrom(b: Board, p: Player, r: int, i: int, m: Move)
    requires Shaped(b) && DieFits(b, p, r) && 0 <= i < NumCols && m.src == Pt(i)
    requires !(|b.bar.Get(p)| > 0 && CanOnboard(b, p, r))
    ensures Choice(b, p, r, m) <==>
      (m == Move(Pt(i), Pt(i + r)) && IsValidMove(b, i, i + r, p))
      || (m == Move(Pt(i), Off) && CanOffboard(b, p) && RemovePiece(b, p, i, r))
  {
  }

  /** The first half of one iteration: the valid move of `r` pips from point `i`. */
  lemma {:induction false} ShiftBranch(b: Board, p: Player, rs: seq<int>, move: Action, i: int, a: Action)
    requires Wellformed(b) && rs != [] && DiceFit(b, p, rs) && 0 <= i < NumCols
    requires DieFits(b, p, rs[0]) && DiceFit(b, p, rs[1..])
    ensures var m := Move(Pt(i), Pt(i + rs[0]));
      IsValidMove(b, i, i + rs[0], p) ==>
        (a in Found(Shift(b, p, i, i + rs[0]), p, rs[1..], move + [m]) <==>
         Extends(a, move) && |a| > |move| && a[|move|] == m
         && Follows(ApplyStep(b, p, m).0, p, rs[1..], a[|move| + 1..]))
    decreases |rs|, 0
  {
    var r, rest := rs[0], rs[1..];
    var m := Move(Pt(i), Pt(i + r));
    if IsValidMove(b, i, i + r, p) {
      var c := Shift(b, p, i, i + r);
      ShiftAgrees(b, p, i, i + r);
      StepConserves(b, p, m);
      DiceFitTail(b, c, p, rs);
      FoundSpec(c, p, rest, move + [m], a);
      ExtendsStep(a, move, m);
    }
  }

  /** The second half of one iteration: bearing off from point `i`. */
  lemma {:induction false} OffBranch(b: Board, p: Player, rs: seq<int>, move: Action, i: int, a: Action)
    requires Wellformed(b) && rs != [] && DiceFit(b, p, rs) && 0 <= i < NumCols
    requires DieFits(b, p, rs[0]) && DiceFit(b, p, rs[1..])
    ensures var m := Move(Pt(i), Off);
      CanOffboard(b, p) && RemovePiece(b, p, i, rs[0]) ==>
        (a in Found(BearOff(b, p, i), p, rs[1..], move + [m]) <==>
         Extends(a, move) && |a| > |move| && a[|move|] == m
         && Follows(ApplyStep(b, p, m).0, p, rs[1..], a[|move| + 1..]))
    decreases |rs|, 0
  {
    var r, rest := rs[0], rs[1..];
    var m := Move(Pt(i), Off);
    if CanOffboard(b, p) && RemovePiece(b, p, i, r) {
      var c := BearOff(b, p, i);
      assert StepLegal(b, p, m);
      StepConserves(b, p, m);
      DiceFitTail(b, c, p, rs);
      FoundSpec(c, p, rest, move + [m], a);
      ExtendsStep(a, move, m);
    }
  }

  /** An action that follows the dice is legal move by move and uses every die. */
  lemma {:induction false} FollowsLegal(b: Board, p: Player, rs: seq<int>, ms: Action)
    requires Shaped(b) && Follows(b, p, rs, ms)
    ensures LegalSeq(b, p, ms) && |ms| == |rs| && DiceFit(b, p, rs)
    decreases |ms|
  {
    if ms != [] {
      var c := ApplyStep(b, p, ms[0]).0;
      FollowsLegal(c, p, rs[1..], ms[1..]);
      forall k | 0 <= k < |rs| ensures DieFits(b, p, rs[k]) {
        if k > 0 {
          assert rs[k] == rs[1..][k - 1];
        }
      }
    }
  }

  /** Every action `find_moves` collects from an empty start is legal, uses every die,
      and keeps the board well formed with each player's checker count unchanged. */
  lemma FoundLegal(b: Board, p: Player, rs: seq<int>, a: Action)
    requires Wellformed(b) && DiceFit(b, p, rs) && a in Found(b, p, rs, [])
    ensures |a| == |rs| && LegalSeq(b, p, a)
    ensures Wellformed(ApplySeq(b, p, a).0)
    ensures forall q: Player :: Count(ApplySeq(b, p, a).0, q) == Count(b, q)
  {
    FoundSpec(b, p, rs, [], a);
    assert a[0..] == a;
    FollowsLegal(b, p, rs, a);
    Conservation(b, p, a);
  }

  /** Playing only the first `k` dice of an action that follows them is itself one. */
  lemma {:induction false} FollowsPrefix(b: Board, p: Player, rs: seq<int>, ms: Action, k: nat)
    requires Shaped(b) && Follows(b, p, rs, ms) && k <= |ms| && k <= |rs|
    ensures Follows(b, p, rs[..k], ms[..k])
    decreases k
  {
    FollowsLegal(b, p, rs, ms);
    if k > 0 {
      var c := ApplyStep(b, p, ms[0]).0;
      FollowsPrefix(c, p, rs[1..], ms[1..], k - 1);
      assert rs[..k][1..] == rs[1..][..k - 1];
      assert ms[..k][1..] == ms[1..][..k - 1];
    }
  }

  /** With a checker on the bar and the entry point open, every action `find_moves`
      collects starts by entering that checker. */
  lemma BarEntryForced(b: Board, p: Player, rs: seq<int>, a: Action)
    requires Wellformed(b) && DiceFit(b, p, rs) && rs != [] && a in Found(b, p, rs, [])
    requires |b.bar.Get(p)| > 0 && DieFits(b, p, rs[0]) && CanOnboard(b, p, rs[0])
    ensures |a| > 0 && a[0] == Move(On, Pt(EntryPoint(b, p, rs[0])))
  {
    FoundSpec(b, p, rs, [], a);
    assert a[0..] == a;
  }

  /** With a checker on the bar but its entry point blocked, `find_moves` does not stop:
      it goes on to the moves on the points, so a valid move of another checker is
      collected even though a checker of the player is still on the bar. */
  lemma BarFallThrough(b: Board, p: Player, r: int, i: int)
    requires Wellformed(b) && DieFits(b, p, r) && 0 <= i < NumCols
    requires |b.bar.Get(p)| > 0 && !CanOnboard(b, p, r) && IsValidMove(b, i, i + r, p)
    ensures [Move(Pt(i), Pt(i + r))] in Found(b, p, [r], [])
  {
    var a := [Move(Pt(i), Pt(i + r))];
    FoundMember(b, p, [r], a);
    assert Choice(b, p, r, a[0]);
    assert Follows(ApplyStep(b, p, a[0]).0, p, [r][1..], a[1..]);
  }

  // ---- get_actions_doubles ----

  /** The die as `get_actions_doubles` passes it on: negated for the second player. */
  function Signed(b: Board, p: Player, d: int): (r: int)
    requires Shaped(b) && 1 <= d <= Quad
    ensures DieFits(b, p, r) && (r == d || r == -d)
  {
    PlayersCover(b, p);
    if p == b.players[1] then -d else d
  }

  /** `k` copies of the die: what `tuple([r] * k)` builds. */
  function Repeat(r: int, k: nat): (rs: seq<int>)
    ensures |rs| == k && forall j :: 0 <= j < k ==> rs[j] == r
  {
    if k == 0 then [] else [r] + Repeat(r, k - 1)
  }

  /** The doubles loop of `get_actions_doubles`, starting from `i` copies of the die and
      going down: the first nonempty result of `find_moves`, or nothing. */
  function Doubles(b: Board, p: Player, r: int, i: nat): set<Action>
    requires Shaped(b) && DieFits(b, p, r)
  {
    if i == 0 then {}
    else
      var found := Found(b, p, Repeat(r, i), []);
      if found != {} then found else Doubles(b, p, r, i - 1)
  }

  /** `get_actions_doubles(roll, p)`: for doubles, the actions using as many of the four
      copies as possible; otherwise the actions using both dice in either order, or, when
      there are none, the actions using one die. */
  function ActionsFor(b: Board, roll: (int, int), p: Player): set<Action>
    requires Shaped(b) && 1 <= roll.0 <= Quad && 1 <= roll.1 <= Quad
  {
    var r1, r2 := Signed(b, p, roll.0), Signed(b, p, roll.1);
    if r1 == r2 then Doubles(b, p, r1, 4)
    else
      var both := Found(b, p, [r1, r2], []) + Found(b, p, [r2, r1], []);
      if both != {} then both
      else Found(b, p, [r1], []) + Found(b, p, [r2], [])
  }

  /** Some action follows the dice. */
  ghost predicate Playable(b: Board, p: Player, rs: seq<int>)
    requires Shaped(b)
  {
    exists ms :: Follows(b, p, rs, ms)
  }

  lemma FoundPlayable(b: Board, p: Player, rs: seq<int>)
    requires Wellformed(b) && DiceFit(b, p, rs)
    ensures Found(b, p, rs, []) != {} <==> Playable(b, p, rs)
  {
    if Found(b, p, rs, []) != {} {
      var a :| a in Found(b, p, rs, []);
      FoundSpec(b, p, rs, [], a);
      assert a[0..] == a;
    }
    if Playable(b, p, rs) {
      var a :| Follows(b, p, rs, a);
      FoundSpec(b, p, rs, [], a);
      assert a[0..] == a;
    }
  }

  lemma FoundMember(b: Board, p: Player, rs: seq<int>, a: Action)
    requires Wellformed(b) && DiceFit(b, p, rs)
    ensures a in Found(b, p, rs, []) <==> Follows(b, p, rs, a)
  {
    FoundSpec(b, p, rs, [], a);
    assert a[0..] == a;
  }

  /** If the die can be played `k` times it can be played any fewer times. */
  lemma RepeatPlayableDown(b: Board, p: Player, r: int, j: nat, k: nat)
    requires Shaped(b) && j <= k && Playable(b, p, Repeat(r, k))
    ensures Playable(b, p, Repeat(r, j))
  {
    var ms :| Follows(b, p, Repeat(r, k), ms);
    FollowsLegal(b, p, Repeat(r, k), ms);
    FollowsPrefix(b, p, Repeat(r, k), ms, j);
    assert Repeat(r, k)[..j] == Repeat(r, j);
  }

  /** `a` plays the die as many times as any action can, up to `i` times. */
  ghost predicate Longest(b: Board, p: Player, r: int, i: nat, a: Action)
    requires Shaped(b)
  {
    1 <= |a| <= i && Follows(b, p, Repeat(r, |a|), a)
    && forall k :: |a| < k <= i ==> !Playable(b, p, Repeat(r, k))
  }

  /** The doubles loop keeps exactly the actions that use the die as many times as
      possible, up to `i`. */
  lemma {:induction false} DoublesSpec(b: Board, p: Player, r: int, i: nat, a: Action)
    requires Wellformed(b) && DieFits(b, p, r)
    ensures a in Doubles(b, p, r, i) <==> Longest(b, p, r, i, a)
  {
    if i > 0 {
      FoundPlayable(b, p, Repeat(r, i));
      if Playable(b, p, Repeat(r, i)) {
        FoundMember(b, p, Repeat(r, i), a);
        LongestTop(b, p, r, i, a);
      } else {
        DoublesSpec(b, p, r, i - 1, a);
        LongestBelow(b, p, r, i, a);
      }
    }
  }

  /** When the die can be played `i` times, the longest actions are those that do. */
  lemma LongestTop(b: Board, p: Player, r: int, i: nat, a: Action)
    requires Shaped(b) && i >= 1 && Playable(b, p, Repeat(r, i))
    ensures Longest(b, p, r, i, a) <==> Follows(b, p, Repeat(r, i), a)
  {
    if Follows(b, p, Repeat(r, i), a) {
      FollowsLegal(b, p, Repeat(r, i), a);
    }
  }

  /** When it cannot, they are the longest actions up to `i - 1` times. */
  lemma LongestBelow(b: Board, p: Player, r: int, i: nat, a: Action)
    requires Shaped(b) && i >= 1 && !Playable(b, p, Repeat(r, i))
    ensures Longest(b, p, r, i, a) <==> Longest(b, p, r, i - 1, a)
  {
    assert Follows(b, p, Repeat(r, |a|), a) ==> Playable(b, p, Repeat(r, |a|));
  }

  /** The doubles loop finds something exactly when the die can be played once. */
  lemma {:induction false} DoublesNonempty(b: Board, p: Player, r: int, i: nat)
    requires Wellformed(b) && DieFits(b, p, r) && i >= 1
    ensures Doubles(b, p, r, i) != {} <==> Playable(b, p, [r])
  {
    assert Repeat(r, 1) == [r];
    FoundPlayable(b, p, Repeat(r, i));
    if Found(b, p, Repeat(r, i), []) != {} {
      RepeatPlayableDown(b, p, r, 1, i);
    } else if i > 1 {
      DoublesNonempty(b, p, r, i - 1);
    }
  }

  /** For doubles, `get_actions_doubles` returns the actions that play the die as many
      times as possible, at most four, and nothing only when the die cannot be played. */
  lemma ActionsForDoubles(b: Board, roll: (int, int), p: Player, a: Action)
    requires Wellformed(b) && 1 <= roll.0 <= Quad && 1 <= roll.1 <= Quad && roll.0 == roll.1
    ensures a in ActionsFor(b, roll, p) <==> Longest(b, p, Signed(b, p, roll.0), 4, a)
    ensures ActionsFor(b, roll, p) == {} <==> !Playable(b, p, [Signed(b, p, roll.0)])
  {
    DoublesSpec(b, p, Signed(b, p, roll.0), 4, a);
    DoublesNonempty(b, p, Signed(b, p, roll.0), 4);
  }

  /** Some action plays both dice, in one order or the other. */
  ghost predicate BothPlayable(b: Board, p: Player, r1: int, r2: int)
    requires Shaped(b)
  {
    Playable(b, p, [r1, r2]) || Playable(b, p, [r2, r1])
  }

  /** For a roll that is not a double, `get_actions_doubles` returns the actions that play
      both dice in either order; only when there is none, those that play one die. */
  lemma ActionsForMixed(b: Board, roll: (int, int), p: Player, a: Action)
    requires Wellformed(b) && 1 <= roll.0 <= Quad && 1 <= roll.1 <= Quad && roll.0 != roll.1
    ensures var r1, r2 := Signed(b, p, roll.0), Signed(b, p, roll.1);
      a in ActionsFor(b, roll, p) <==>
        if BothPlayable(b, p, r1, r2) then Follows(b, p, [r1, r2], a) || Follows(b, p, [r2, r1], a)
        else Follows(b, p, [r1], a) || Follows(b, p, [r2], a)
  {
    var r1, r2 := Signed(b, p, roll.0), Signed(b, p, roll.1);
    FoundMember(b, p, [r1, r2], a);
    FoundMember(b, p, [r2, r1], a);
    FoundMember(b, p, [r1], a);
    FoundMember(b, p, [r2], a);
    FoundPlayable(b, p, [r1, r2]);
    FoundPlayable(b, p, [r2, r1]);
  }

  /** Every action `get_actions_doubles` returns is legal move by move, plays between one
      and four checker moves, and keeps each player's checker count. */
  lemma ActionsLegal(b: Board, roll: (int, int), p: Player, a: Action)
    requires Wellformed(b) && 1 <= roll.0 <= Quad && 1 <= roll.1 <= Quad
    requires a in ActionsFor(b, roll, p)
    ensures 1 <= |a| <= 4 && LegalSeq(b, p, a)
    ensures Wellformed(ApplySeq(b, p, a).0)
    ensures forall q: Player :: Count(ApplySeq(b, p, a).0, q) == Count(b, q)
  {
    var r1, r2 := Signed(b, p, roll.0), Signed(b, p, roll.1);
    if r1 == r2 {
      ActionsForDoubles(b, roll, p, a);
      FollowsLegal(b, p, Repeat(r1, |a|), a);
    } else {
      ActionsForMixed(b, roll, p, a);
      if Follows(b, p, [r1, r2], a) { FollowsLegal(b, p, [r1, r2], a); }
      if Follows(b, p, [r2, r1], a) { FollowsLegal(b, p, [r2, r1], a); }
      if Follows(b, p, [r1], a) { FollowsLegal(b, p, [r1], a); }
      if Follows(b, p, [r2], a) { FollowsLegal(b, p, [r2], a); }
    }
    Conservation(b, p, a);
  }
}
