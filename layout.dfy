/** The layout string a game is built from (`loc-num-token` fields separated by commas),
    the fresh board of the constructor, and `reset`, which stacks the checkers the layout
    names and adds them to each player's checker count. */
module Layout {
  import opened BoardState

  /** One field of a layout: `num` checkers of `token` on point `loc`. */
  datatype Entry = Entry(loc: nat, num: nat, token: Player)

  /** The starting position of a game, 15 checkers each: the eight fields
      `0-2-o`, `5-5-x`, `7-3-x`, `11-5-o`, `12-5-x`, `16-3-o`, `18-5-o`, `23-2-x`
      joined by commas (written as that join so that proofs need not compare the
      55 characters one by one). */
  const DefaultLayout: string :=
    "0-2-o" + "," + ("5-5-x" + "," + ("7-3-x" + "," + ("11-5-o" + "," + ("12-5-x" + ","
    + ("16-3-o" + "," + ("18-5-o" + "," + "23-2-x"))))))

  // ---- str.split and its inverse ----

  /** `s.split(sep)`: the pieces between separators, one more than there are
      separators, none containing the separator. */
  function Split(s: string, sep: char): (parts: seq<string>)
    ensures |parts| >= 1 && forall k :: 0 <= k < |parts| ==> sep !in parts[k]
    decreases |s|
  {
    if |s| == 0 then [""]
    else
      var rest := Split(s[1..], sep);
      if s[0] == sep then [""] + rest else [[s[0]] + rest[0]] + rest[1..]
  }

  /** `sep.join(parts)`. */
  function Join(parts: seq<string>, sep: char): string
    requires |parts| >= 1
    decreases |parts|
  {
    if |parts| == 1 then parts[0] else parts[0] + [sep] + Join(parts[1..], sep)
  }

  /** Joining the pieces of a split gives back the string. */
  lemma {:induction false} SplitJoin(s: string, sep: char)
    ensures Join(Split(s, sep), sep) == s
    decreases |s|
  {
    if |s| > 0 {
      SplitJoin(s[1..], sep);
      var rest := Split(s[1..], sep);
      if s[0] != sep && |rest| > 1 {
        assert Join(rest, sep) == rest[0] + [sep] + Join(rest[1..], sep);
      }
    }
  }

  /** A word without the separator followed by more text splits into that word glued
      to the first piece of the text. */
  lemma {:induction false} SplitAfterWord(w: string, t: string, sep: char)
    requires sep !in w
    ensures Split(w + t, sep) == [w + Split(t, sep)[0]] + Split(t, sep)[1..]
    decreases |w|
  {
    if |w| > 0 {
      SplitAfterWord(w[1..], t, sep);
      assert (w + t)[0] == w[0] && (w + t)[1..] == w[1..] + t;
      assert [w[0]] + (w[1..] + Split(t, sep)[0]) == w + Split(t, sep)[0];
    } else {
      assert w + t == t;
      assert w + Split(t, sep)[0] == Split(t, sep)[0];
      assert Split(t, sep) == [Split(t, sep)[0]] + Split(t, sep)[1..];
    }
  }

  /** Splitting the join of pieces that do not contain the separator gives them back. */
  lemma {:induction false} JoinSplit(parts: seq<string>, sep: char)
    requires |parts| >= 1 && forall k :: 0 <= k < |parts| ==> sep !in parts[k]
    ensures Split(Join(parts, sep), sep) == parts
    decreases |parts|
  {
    if |parts| == 1 {
      SplitAfterWord(parts[0], "", sep);
      assert parts[0] + "" == parts[0];
      assert Split("", sep) == [""];
    } else {
      var t := Join(parts[1..], sep);
      JoinSplit(parts[1..], sep);
      SplitAfterWord(parts[0], [sep] + t, sep);
      assert parts[0] + [sep] + t == parts[0] + ([sep] + t);
      assert ([sep] + t)[0] == sep && ([sep] + t)[1..] == t;
      assert Split([sep] + t, sep) == [""] + Split(t, sep);
      assert parts[0] + "" == parts[0];
      assert parts == [parts[0]] + parts[1..];
    }
  }

  // ---- int() on the number fields, and writing a number back ----

  predicate IsDigit(c: char)
  {
    '0' <= c <= '9'
  }

  predicate AllDigits(s: string)
  {
    forall k :: 0 <= k < |s| ==> IsDigit(s[k])
  }

  /** The value of a string of decimal digits. */
  function DigitsValue(s: string): nat
    requires AllDigits(s)
    decreases |s|
  {
    if s == [] then 0 else DigitsValue(s[..|s| - 1]) * 10 + (s[|s| - 1] as int - '0' as int)
  }

  /** `int(s)` on a field of the layout: a nonempty string of decimal digits. */
  function ParseNat(s: string): Option<nat>
  {
    if |s| > 0 && AllDigits(s) then Some(DigitsValue(s)) else None
  }

  /** The decimal digits of `n`, without leading zeros. */
  function NatToString(n: nat): (s: string)
    ensures |s| > 0 && AllDigits(s) && '-' !in s && ',' !in s
    decreases n
  {
    if n < 10 then [('0' as int + n) as char]
    else NatToString(n / 10) + [('0' as int + n % 10) as char]
  }

  /** Reading back the digits of a number gives the number. */
  lemma {:induction false} NatRoundTrip(n: nat)
    ensures ParseNat(NatToString(n)) == Some(n)
    decreases n
  {
    var s := NatToString(n);
    if n < 10 {
      assert s[..|s| - 1] == [];
    } else {
      NatRoundTrip(n / 10);
      assert s[..|s| - 1] == NatToString(n / 10);
      assert DigitsValue(s) == DigitsValue(NatToString(n / 10)) * 10 + n % 10;
    }
  }

  // ---- one field ----

  function TokenName(p: Player): string
  {
    if p == O then "o" else "x"
  }

  /** The token of a field: the only tokens the game's dictionaries know are `o` and `x`. */
  function ParseToken(s: string): (r: Option<Player>)
    ensures r.Some? <==> s == "o" || s == "x"
    ensures r.Some? ==> TokenName(r.value) == s
  {
    if s == "o" then Some(O) else if s == "x" then Some(X) else None
  }

  /** `loc, num, token = col.split('-')` followed by `int(loc)` and `int(num)`. */
  function ParseEntry(col: string): Option<Entry>
  {
    var parts := Split(col, '-');
    if |parts| != 3 then None
    else
      match (ParseNat(parts[0]), ParseNat(parts[1]), ParseToken(parts[2]))
      case (Some(loc), Some(num), Some(token)) => Some(Entry(loc, num, token))
      case _ => None
  }

  function FormatEntry(e: Entry): string
  {
    Join([NatToString(e.loc), NatToString(e.num), TokenName(e.token)], '-')
  }

  /** A field written out reads back as itself. */
  lemma EntryRoundTrip(e: Entry)
    ensures ParseEntry(FormatEntry(e)) == Some(e)
    ensures ',' !in FormatEntry(e)
  {
    var parts := [NatToString(e.loc), NatToString(e.num), TokenName(e.token)];
    JoinSplit(parts, '-');
    NatRoundTrip(e.loc);
    NatRoundTrip(e.num);
    assert parts[1..][1..] == [parts[2]];
    assert Join(parts[1..], '-') == parts[1] + ['-'] + parts[2];
    assert FormatEntry(e) == parts[0] + ['-'] + (parts[1] + ['-'] + parts[2]);
  }

  // ---- the whole layout ----

  /** The fields of a layout, or `None` when one of them is malformed. */
  function ParseLayout(s: string): (r: Option<seq<Entry>>)
    ensures r.Some? ==> |r.value| == |Split(s, ',')|
  {
    ParseAll(Split(s, ','))
  }

  function ParseAll(cols: seq<string>): (r: Option<seq<Entry>>)
    ensures r.Some? ==> |r.value| == |cols|
    decreases |cols|
  {
    if cols == [] then Some([])
    else
      match (ParseEntry(cols[0]), ParseAll(cols[1..]))
      case (Some(e), Some(es)) => Some([e] + es)
      case _ => None
  }

  function FormatAll(es: seq<Entry>): (cols: seq<string>)
    ensures |cols| == |es|
    ensures forall k :: 0 <= k < |cols| ==> cols[k] == FormatEntry(es[k])
    decreases |es|
  {
    if es == [] then [] else [FormatEntry(es[0])] + FormatAll(es[1..])
  }

  function FormatLayout(es: seq<Entry>): string
    requires |es| >= 1
  {
    Join(FormatAll(es), ',')
  }

  lemma {:induction false} ParseAllFormat(es: seq<Entry>)
    ensures ParseAll(FormatAll(es)) == Some(es)
    decreases |es|
  {
    if es != [] {
      EntryRoundTrip(es[0]);
      ParseAllFormat(es[1..]);
      assert FormatAll(es)[1..] == FormatAll(es[1..]);
      assert FormatAll(es)[0] == FormatEntry(es[0]);
      assert es == [es[0]] + es[1..];
    }
  }

  /** A layout written out reads back as the same fields. */
  lemma LayoutRoundTrip(es: seq<Entry>)
    requires |es| >= 1
    ensures ParseLayout(FormatLayout(es)) == Some(es)
  {
    forall k | 0 <= k < |es| ensures ',' !in FormatAll(es)[k] {
      EntryRoundTrip(es[k]);
    }
    JoinSplit(FormatAll(es), ',');
    ParseAllFormat(es);
  }

  // ---- placing the checkers and counting them ----

  /** `[token for _ in range(num)]`. */
  function Stack(p: Player, n: nat): (s: seq<Player>)
    ensures |s| == n && AllOf(s, p)
    decreases n
  {
    if n == 0 then [] else Stack(p, n - 1) + [p]
  }

  /** The first loop of `reset`: each field replaces the stack on its point, and a
      point past the last one is an error. */
  function Place(grid: seq<seq<Player>>, es: seq<Entry>): (r: Option<seq<seq<Player>>>)
    ensures r.Some? ==> |r.value| == |grid|
    decreases |es|
  {
    if es == [] then Some(grid)
    else if es[0].loc >= |grid| then None
    else Place(grid[es[0].loc := Stack(es[0].token, es[0].num)], es[1..])
  }

  /** The first loop of `reset` as it runs: each field is read and placed before the
      next one is read, and the first malformed field or point past the last one stops
      it with an error. */
  function PlaceFields(grid: seq<seq<Player>>, cols: seq<string>): (r: Option<seq<seq<Player>>>)
    ensures r.Some? ==> |r.value| == |grid|
    decreases |cols|
  {
    if cols == [] then Some(grid)
    else
      match ParseEntry(cols[0])
      case None => None
      case Some(e) =>
        if e.loc >= |grid| then None
        else PlaceFields(grid[e.loc := Stack(e.token, e.num)], cols[1..])
  }

  /** Reading and placing field by field fails exactly when reading the whole layout
      first or placing its fields fails, and otherwise builds the same grid. */
  lemma {:induction false} PlaceFieldsSpec(grid: seq<seq<Player>>, cols: seq<string>)
    ensures PlaceFields(grid, cols) ==
      match ParseAll(cols)
      case None => None
      case Some(es) => Place(grid, es)
    decreases |cols|
  {
    if cols != [] {
      match ParseEntry(cols[0])
      case None =>
      case Some(e) =>
        match ParseAll(cols[1..])
        case None =>
          if e.loc < |grid| {
            PlaceFieldsSpec(grid[e.loc := Stack(e.token, e.num)], cols[1..]);
          }
        case Some(es) =>
          assert ([e] + es)[0] == e && ([e] + es)[1..] == es;
          if e.loc < |grid| {
            PlaceFieldsSpec(grid[e.loc := Stack(e.token, e.num)], cols[1..]);
          }
    }
  }

  /** How many of the checkers in a stack are `p`'s. */
  function Occurrences(s: seq<Player>, p: Player): (n: nat)
    ensures n <= |s|
    decreases |s|
  {
    if s == [] then 0 else Occurrences(s[..|s| - 1], p) + (if s[|s| - 1] == p then 1 else 0)
  }

  /** How many checkers `p` has on the whole grid, counting every checker of every stack
      as the second loop of `reset` does. */
  function Tally(grid: seq<seq<Player>>, p: Player): nat
    decreases |grid|
  {
    if grid == [] then 0 else Tally(grid[..|grid| - 1], p) + Occurrences(grid[|grid| - 1], p)
  }

  /** On a stack of one player's checkers, counting every checker agrees with the
      height-of-stack count of the rest of the model. */
  lemma {:induction false} OccurrencesUniform(s: seq<Player>, p: Player)
    requires Uniform(s)
    ensures Occurrences(s, p) == Own(s, p)
    decreases |s|
  {
    if s != [] {
      var t := s[..|s| - 1];
      assert Uniform(t) by {
        forall k | 0 <= k < |t| ensures t[k] == t[0] {
          assert t[k] == s[k] && t[0] == s[0];
        }
      }
      OccurrencesUniform(t, p);
    }
  }

  lemma {:induction false} TallyOwned(grid: seq<seq<Player>>, p: Player)
    requires forall i :: 0 <= i < |grid| ==> Uniform(grid[i])
    ensures Tally(grid, p) == Owned(grid, p, 0, |grid|)
    decreases |grid|
  {
    if grid != [] {
      var g := grid[..|grid| - 1];
      TallyOwned(g, p);
      OwnedPrefix(grid, g, p, |g|);
      OccurrencesUniform(grid[|grid| - 1], p);
    }
  }

  /** `Owned` over the first `n` points only looks at those points. */
  lemma {:induction false} OwnedPrefix(grid: seq<seq<Player>>, g: seq<seq<Player>>, p: Player, n: int)
    requires 0 <= n <= |g| <= |grid| && g == grid[..|g|]
    ensures Owned(grid, p, 0, n) == Owned(g, p, 0, n)
    decreases n
  {
    if n > 0 {
      OwnedPrefix(grid, g, p, n - 1);
      assert grid[n - 1] == g[n - 1];
    }
  }

  // ---- the constructor and reset ----

  /** The board `Game()` starts from before `reset`: 24 empty points, empty bars and
      off stacks, no checkers counted, players `o` then `x`. */
  function Fresh(): (b: Board)
    ensures Wellformed(b)
  {
    Board(seq(NumCols, _ => []), PerPlayer([], []), PerPlayer([], []), PerPlayer(0, 0), [O, X])
  }

  /** `reset` on a board, given its layout string: the fields stacked on their points
      (the other points keep what they had) and every checker then on the grid added to
      its player's count; `None` where the source raises. */
  function Reset(b: Board, layout: string): (r: Option<Board>)
    requires Shaped(b)
    ensures r.Some? ==>
      (Shaped(r.value) && r.value.bar == b.bar && r.value.off == b.off && r.value.players == b.players)
  {
    match ParseLayout(layout)
    case None => None
    case Some(es) =>
      match Place(b.grid, es)
      case None => None
      case Some(g) =>
        Some(b.(grid := g, num := PerPlayer(b.num.o + Tally(g, O), b.num.x + Tally(g, X))))
  }

  // ---- what reset builds ----

  /** How many checkers the fields give `p`. */
  function Declared(es: seq<Entry>, p: Player): nat
    decreases |es|
  {
    if es == [] then 0 else (if es[0].token == p then es[0].num else 0) + Declared(es[1..], p)
  }

  /** No two fields name the same point (a later field would replace an earlier one). */
  predicate DistinctLocs(es: seq<Entry>)
  {
    forall i, j :: 0 <= i < j < |es| ==> es[i].loc != es[j].loc
  }

  predicate OnBoard(es: seq<Entry>, n: int)
  {
    forall k :: 0 <= k < |es| ==> es[k].loc < n
  }

  /** Placing fields on distinct points of the grid: each named point holds its stack,
      every other point is unchanged. */
  lemma {:induction false} PlaceSpec(grid: seq<seq<Player>>, es: seq<Entry>)
    requires OnBoard(es, |grid|) && DistinctLocs(es)
    ensures Place(grid, es).Some?
    ensures forall k :: 0 <= k < |es| ==> Place(grid, es).value[es[k].loc] == Stack(es[k].token, es[k].num)
    ensures forall i :: 0 <= i < |grid| && (forall k :: 0 <= k < |es| ==> es[k].loc != i) ==>
      Place(grid, es).value[i] == grid[i]
    decreases |es|
  {
    if es != [] {
      var next := grid[es[0].loc := Stack(es[0].token, es[0].num)];
      PlaceSpec(next, es[1..]);
      forall i | 0 <= i < |grid| && (forall k :: 0 <= k < |es| ==> es[k].loc != i)
        ensures Place(grid, es).value[i] == grid[i]
      {
        assert es[0].loc != i;
        assert forall k :: 0 <= k < |es[1..]| ==> es[1..][k].loc == es[k + 1].loc;
      }
      forall k | 0 <= k < |es| ensures Place(grid, es).value[es[k].loc] == Stack(es[k].token, es[k].num) {
        if k == 0 {
          assert forall j :: 0 <= j < |es[1..]| ==> es[1..][j].loc != es[0].loc by {
            forall j | 0 <= j < |es[1..]| ensures es[1..][j].loc != es[0].loc {
              assert es[1..][j] == es[j + 1];
            }
          }
        } else {
          assert es[k] == es[1..][k - 1];
        }
      }
    }
  }

  /** Placing fields on distinct empty points adds what they declare to `p`'s count. */
  lemma {:induction false} PlaceOwned(grid: seq<seq<Player>>, es: seq<Entry>, p: Player)
    requires OnBoard(es, |grid|) && DistinctLocs(es)
    requires forall k :: 0 <= k < |es| ==> grid[es[k].loc] == []
    ensures Place(grid, es).Some?
    ensures Owned(Place(grid, es).value, p, 0, |grid|) == Owned(grid, p, 0, |grid|) + Declared(es, p)
    decreases |es|
  {
    PlaceSpec(grid, es);
    if es != [] {
      var S := Stack(es[0].token, es[0].num);
      var next := grid[es[0].loc := S];
      OwnedUpdate(grid, p, 0, |grid|, es[0].loc, S);
      forall k | 0 <= k < |es[1..]| ensures next[es[1..][k].loc] == [] {
        assert es[1..][k] == es[k + 1];
      }
      PlaceOwned(next, es[1..], p);
    }
  }

  /** Placing stacks of one player each keeps every point a stack of one player. */
  lemma {:induction false} PlaceUniform(grid: seq<seq<Player>>, es: seq<Entry>)
    requires forall i :: 0 <= i < |grid| ==> Uniform(grid[i])
    requires Place(grid, es).Some?
    ensures forall i :: 0 <= i < |grid| ==> Uniform(Place(grid, es).value[i])
    decreases |es|
  {
    if es != [] {
      var next := grid[es[0].loc := Stack(es[0].token, es[0].num)];
      PlaceUniform(next, es[1..]);
    }
  }

  /** `Game()` followed by `reset` with a layout whose fields name distinct points: the
      board is well formed, each named point holds its stack and every other point is
      empty, nothing is on the bar or borne off, and each player's `num_pieces` is what
      the fields declare, which is also the number of checkers the player has. */
  lemma ResetFresh(layout: string, es: seq<Entry>)
    requires ParseLayout(layout) == Some(es) && OnBoard(es, NumCols) && DistinctLocs(es)
    ensures Reset(Fresh(), layout).Some?
    ensures var b := Reset(Fresh(), layout).value;
      && (forall k :: 0 <= k < |es| ==> b.grid[es[k].loc] == Stack(es[k].token, es[k].num))
      && (forall i :: 0 <= i < NumCols && (forall k :: 0 <= k < |es| ==> es[k].loc != i) ==> b.grid[i] == [])
    ensures ResetCounted(Reset(Fresh(), layout).value, es)
  {
    var f := Fresh();
    PlaceSpec(f.grid, es);
    ResetPlaced(layout, es, f);
    ResetCounts(f, Place(f.grid, es).value, es);
  }

  lemma ResetPlaced(layout: string, es: seq<Entry>, f: Board)
    requires Shaped(f) && f.num == PerPlayer(0, 0)
    requires ParseLayout(layout) == Some(es) && Place(f.grid, es).Some?
    ensures var g := Place(f.grid, es).value;
      Reset(f, layout) == Some(f.(grid := g, num := PerPlayer(Tally(g, O), Tally(g, X))))
  {
  }

  /** A board that `reset` made from the fresh one: well formed, nothing on a bar or borne
      off, and `num_pieces` and the checker count both what the fields declare. */
  predicate ResetCounted(b: Board, es: seq<Entry>)
  {
    && Wellformed(b)
    && b.bar == PerPlayer([], []) && b.off == PerPlayer([], [])
    && b.num == PerPlayer(Declared(es, O), Declared(es, X))
    && Count(b, O) == Declared(es, O) && Count(b, X) == Declared(es, X)
  }

  lemma ResetCounts(f: Board, g: seq<seq<Player>>, es: seq<Entry>)
    requires f == Fresh() && OnBoard(es, NumCols) && DistinctLocs(es) && Place(f.grid, es) == Some(g)
    ensures ResetCounted(f.(grid := g, num := PerPlayer(Tally(g, O), Tally(g, X))), es)
  {
    PlaceUniform(f.grid, es);
    var b := f.(grid := g, num := PerPlayer(Tally(g, O), Tally(g, X)));
    assert Wellformed(b);
    PlayerCount(f, g, es, O);
    PlayerCount(f, g, es, X);
  }

  lemma PlayerCount(f: Board, g: seq<seq<Player>>, es: seq<Entry>, q: Player)
    requires f == Fresh() && OnBoard(es, NumCols) && DistinctLocs(es) && Place(f.grid, es) == Some(g)
    requires forall i :: 0 <= i < NumCols ==> Uniform(g[i])
    ensures Owned(g, q, 0, NumCols) == Declared(es, q) && Tally(g, q) == Declared(es, q)
  {
    PlaceOwned(f.grid, es, q);
    OwnedZero(f.grid, q, 0, NumCols);
    TallyOwned(g, q);
  }

  // ---- the default position ----

  /** The fields of the default layout. */
  const DefaultEntries: seq<Entry> := [
    Entry(0, 2, O), Entry(5, 5, X), Entry(7, 3, X), Entry(11, 5, O),
    Entry(12, 5, X), Entry(16, 3, O), Entry(18, 5, O), Entry(23, 2, X)]

  /** `Game.new()`: the default layout gives a well-formed board with 15 checkers for
      each player, all of them on the points. */
  lemma DefaultGame()
    ensures Reset(Fresh(), DefaultLayout).Some?
    ensures var b := Reset(Fresh(), DefaultLayout).value;
      && Wellformed(b) && b.num == PerPlayer(15, 15)
      && Count(b, O) == 15 && Count(b, X) == 15
      && b.bar == PerPlayer([], []) && b.off == PerPlayer([], [])
  {
    DefaultLayoutParses();
    DefaultDeclared();
    DefaultPoints();
    ResetFresh(DefaultLayout, DefaultEntries);
  }

  lemma DefaultDeclared()
    ensures Declared(DefaultEntries, O) == 15 && Declared(DefaultEntries, X) == 15
  {
  }

  lemma DefaultPoints()
    ensures OnBoard(DefaultEntries, NumCols) && DistinctLocs(DefaultEntries)
  {
  }

  /** The default layout reads as its eight fields. */
  lemma DefaultLayoutParses()
    ensures ParseLayout(DefaultLayout) == Some(DefaultEntries)
  {
    var cols := ["0-2-o", "5-5-x", "7-3-x", "11-5-o", "12-5-x", "16-3-o", "18-5-o", "23-2-x"];
    DefaultFields(cols);
    DefaultJoined(cols);
    ParseFormatted(cols, DefaultEntries);
    JoinSplit(cols, ',');
  }

  /** Fields that are the written-out entries parse back as those entries. */
  lemma ParseFormatted(cols: seq<string>, es: seq<Entry>)
    requires |cols| == |es| && forall k :: 0 <= k < |es| ==> FormatEntry(es[k]) == cols[k]
    ensures ParseAll(cols) == Some(es)
    ensures forall k :: 0 <= k < |cols| ==> ',' !in cols[k]
  {
    assert cols == FormatAll(es);
    ParseAllFormat(es);
    forall k | 0 <= k < |cols| ensures ',' !in cols[k] {
      EntryRoundTrip(es[k]);
    }
  }

  lemma DefaultJoined(cols: seq<string>)
    requires cols == ["0-2-o", "5-5-x", "7-3-x", "11-5-o", "12-5-x", "16-3-o", "18-5-o", "23-2-x"]
    ensures Join(cols, ',') == DefaultLayout
  {
    assert Join(cols[7..], ',') == "23-2-x";
    assert Join(cols[6..], ',') == "18-5-o" + "," + "23-2-x";
    assert Join(cols[5..], ',') == "16-3-o" + "," + ("18-5-o" + "," + "23-2-x");
    assert Join(cols[4..], ',') == "12-5-x" + "," + ("16-3-o" + "," + ("18-5-o" + "," + "23-2-x"));
    assert Join(cols[3..], ',') == "11-5-o" + "," + ("12-5-x" + "," + ("16-3-o" + "," + ("18-5-o" + "," + "23-2-x")));
    assert Join(cols[2..], ',') == "7-3-x" + "," + ("11-5-o" + "," + ("12-5-x" + "," + ("16-3-o" + "," + ("18-5-o" + "," + "23-2-x"))));
    assert Join(cols[1..], ',') == "5-5-x" + "," + ("7-3-x" + "," + ("11-5-o" + "," + ("12-5-x" + "," + ("16-3-o" + "," + ("18-5-o" + "," + "23-2-x")))));
  }

  lemma DefaultFields(cols: seq<string>)
    requires cols == ["0-2-o", "5-5-x", "7-3-x", "11-5-o", "12-5-x", "16-3-o", "18-5-o", "23-2-x"]
    ensures forall k :: 0 <= k < 8 ==> FormatEntry(DefaultEntries[k]) == cols[k]
  {
    var es := DefaultEntries;
    forall k | 0 <= k < 8 ensures FormatEntry(es[k]) == cols[k] {
      FieldText(es[k]);
    }
  }

  function Digit(d: nat): char
    requires d < 10
  {
    ('0' as int + d) as char
  }

  /** The text of a field with a one- or two-digit point and a one-digit count. */
  lemma FieldText(e: Entry)
    requires e.loc < 100 && e.num < 10
    ensures FormatEntry(e) ==
      (if e.loc < 10 then [Digit(e.loc)] else [Digit(e.loc / 10), Digit(e.loc % 10)])
      + ['-', Digit(e.num), '-', if e.token == O then 'o' else 'x']
  {
    EntryText(e);
    if e.loc >= 10 {
      assert NatToString(e.loc) == NatToString(e.loc / 10) + [Digit(e.loc % 10)];
    }
  }

  lemma EntryText(e: Entry)
    ensures FormatEntry(e) == NatToString(e.loc) + "-" + (NatToString(e.num) + "-" + TokenName(e.token))
  {
    var parts := [NatToString(e.loc), NatToString(e.num), TokenName(e.token)];
    assert parts[1..][1..] == [parts[2]];
    assert Join([parts[2]], '-') == parts[2];
    assert Join(parts[1..], '-') == parts[1] + "-" + parts[2];
  }
}
