/** What the console of tutorial 8 is for, without a screen: a terminal that types on an endless
    roll of 80-column paper, and a window of 25 rows that follows the typing position. */
module Paper {
  const COLUMNS: nat := 80
  const CELLS: nat := 80 * 25

  datatype Cell = Cell(character: bv8, colour: bv8)

  const BLANK := Cell(32, 7)
  const NEWLINE: bv8 := 10
  const TAB: bv8 := 9

  /** The roll is blank beyond what has been typed. */
  datatype Terminal = Terminal(paper: seq<Cell>, position: nat)

  /** The visible cells and the cursor. */
  datatype Screen = Screen(cells: seq<Cell>, cursor: nat)

  function At(paper: seq<Cell>, i: nat): Cell {
    if i < |paper| then paper[i] else BLANK
  }

  function Put(paper: seq<Cell>, i: nat, cell: Cell): (r: seq<Cell>)
    ensures forall j: nat :: At(r, j) == if j == i then cell else At(paper, j)
  {
    if i < |paper| then paper[i := cell] else paper + seq(i - |paper|, _ => BLANK) + [cell]
  }

  function Type(t: Terminal, cell: Cell): Terminal {
    Terminal(Put(t.paper, t.position, cell), t.position + 1)
  }

  function TypeBlanks(t: Terminal, n: nat): (r: Terminal)
    ensures r.position == t.position + n
    ensures forall j: nat :: At(r.paper, j) == if t.position <= j < t.position + n then BLANK else At(t.paper, j)
  {
    if n == 0 then t else Type(TypeBlanks(t, n - 1), BLANK)
  }

  lemma OneBlank(t: Terminal)
    ensures TypeBlanks(t, 1) == Type(t, BLANK)
  {
    assert TypeBlanks(t, 1) == Type(TypeBlanks(t, 0), BLANK);
  }

  lemma OneMoreBlank(t: Terminal, n: nat)
    ensures TypeBlanks(t, n + 1) == Type(TypeBlanks(t, n), BLANK)
  {
  }

  /** The first cell of the row after a cell's. */
  function NextRow(cell: nat): nat {
    cell + (COLUMNS - cell % COLUMNS)
  }

  lemma RowEnd(start: nat, address: nat)
    requires start < address <= NextRow(start)
    ensures address % COLUMNS == 0 <==> address == NextRow(start)
    ensures start < CELLS ==> NextRow(start) <= CELLS
  {
    var row := start / COLUMNS;
    assert start == COLUMNS * row + start % COLUMNS && NextRow(start) == COLUMNS * (row + 1);
  }

  lemma SameColumn(cell: nat, row: nat)
    ensures (cell + COLUMNS * row) % COLUMNS == cell % COLUMNS
  {
  }

  /** A newline blanks the rest of the row, a tab blanks 8 cells, anything else is typed. */
  function Feed(t: Terminal, c: bv8): Terminal {
    if c == NEWLINE then TypeBlanks(t, COLUMNS - t.position % COLUMNS)
    else if c == TAB then TypeBlanks(t, 8)
    else Type(t, Cell(c, 7))
  }

  function FeedAll(t: Terminal, msg: seq<bv8>): Terminal {
    if msg == [] then t else Feed(FeedAll(t, msg[..|msg| - 1]), msg[|msg| - 1])
  }

  /** The first row in the window: as few rows as possible have left it at the top. */
  function Top(position: nat): nat {
    if position < CELLS then 0 else position / COLUMNS - 24
  }

  function Window(paper: seq<Cell>, top: nat): (cells: seq<Cell>)
    ensures |cells| == CELLS
    ensures forall a: nat :: a < CELLS ==> cells[a] == At(paper, COLUMNS * top + a)
  {
    seq(CELLS, (a: nat) => At(paper, COLUMNS * top + a))
  }

  /** The screen as the last 25 rows of the paper. */
  function Look(t: Terminal): Screen {
    Screen(Window(t.paper, Top(t.position)), t.position - COLUMNS * Top(t.position))
  }

  /** What writing a message should leave on the screen. */
  function Written(s: Screen, msg: seq<bv8>): Screen {
    Look(FeedAll(Terminal(s.cells, s.cursor), msg))
  }

  ghost predicate OnScreen(s: Screen) {
    |s.cells| == CELLS && s.cursor < CELLS
  }

  lemma {:induction false} FeedAllAppend(t: Terminal, a: seq<bv8>, b: seq<bv8>)
    ensures FeedAll(t, a + b) == FeedAll(FeedAll(t, a), b)
  {
    if b == [] {
      assert a + b == a;
    } else {
      var n := |b| - 1;
      assert (a + b)[..|a + b| - 1] == a + b[..n];
      FeedAllAppend(t, a, b[..n]);
    }
  }

  /** Terminal u is t with d rows cut off the top. */
  ghost predicate Cut(t: Terminal, u: Terminal, d: nat) {
    && t.position == u.position + COLUMNS * d
    && forall i: nat :: At(u.paper, i) == At(t.paper, i + COLUMNS * d)
  }

  lemma FeedCut(t: Terminal, u: Terminal, d: nat, c: bv8)
    requires Cut(t, u, d)
    ensures Cut(Feed(t, c), Feed(u, c), d)
  {
    assert t.position % COLUMNS == u.position % COLUMNS;
  }

  lemma {:induction false} FeedAllCut(t: Terminal, u: Terminal, d: nat, msg: seq<bv8>)
    requires Cut(t, u, d)
    ensures Cut(FeedAll(t, msg), FeedAll(u, msg), d)
  {
    if msg != [] {
      var n := |msg| - 1;
      FeedAllCut(t, u, d, msg[..n]);
      FeedCut(FeedAll(t, msg[..n]), FeedAll(u, msg[..n]), d, msg[n]);
    }
  }

  /** Nothing is typed ahead of the position, and nothing was there below the first screen. */
  ghost predicate BlankAhead(t: Terminal) {
    forall i: nat :: i >= CELLS && i >= t.position ==> At(t.paper, i) == BLANK
  }

  lemma {:induction false} StaysBlankAhead(t: Terminal, msg: seq<bv8>)
    requires BlankAhead(t)
    ensures BlankAhead(FeedAll(t, msg)) && FeedAll(t, msg).position >= t.position
  {
    if msg != [] {
      StaysBlankAhead(t, msg[..|msg| - 1]);
    }
  }

  /** The window loses nothing but whole rows above it. */
  lemma LookIsCut(t: Terminal)
    requires BlankAhead(t)
    ensures OnScreen(Look(t)) && Cut(t, Terminal(Look(t).cells, Look(t).cursor), Top(t.position))
  {
    var s := Look(t);
    var top := Top(t.position);
    forall i: nat
      ensures At(s.cells, i) == At(t.paper, i + COLUMNS * top)
    {
    }
  }

  lemma SameLook(t: Terminal, u: Terminal, d: nat)
    requires Cut(t, u, d) && Top(t.position) == Top(u.position) + d
    ensures Look(t) == Look(u)
  {
    assert COLUMNS * Top(t.position) == COLUMNS * Top(u.position) + COLUMNS * d;
    assert Window(t.paper, Top(t.position)) == Window(u.paper, Top(u.position));
  }

  lemma TopOfCut(start: nat, end: nat, d: nat)
    requires d == Top(start) && start <= end
    ensures COLUMNS * d <= end && Top(end) == Top(end - COLUMNS * d) + d
  {
  }

  /** Writing two messages one after the other is writing them as one. */
  lemma WriteAppend(s: Screen, a: seq<bv8>, b: seq<bv8>)
    requires OnScreen(s)
    ensures OnScreen(Written(s, a))
    ensures Written(Written(s, a), b) == Written(s, a + b)
  {
    hide Look, Feed, Top;
    var t := Terminal(s.cells, s.cursor);
    var mid := FeedAll(t, a);
    var u := Terminal(Look(mid).cells, Look(mid).cursor);
    var d := Top(mid.position);
    StaysBlankAhead(t, a);
    LookIsCut(mid);
    FeedAllAppend(t, a, b);
    FeedAllCut(mid, u, d, b);
    StaysBlankAhead(mid, b);
    var end := FeedAll(mid, b);
    TopOfCut(mid.position, end.position, d);
    SameLook(end, FeedAll(u, b), d);
  }

  /** From a position in the window, one character leaves everything below the window blank. */
  lemma BlankBelow(t: Terminal, c: bv8, top: nat)
    requires BlankAhead(t) && top == Top(t.position) && t.position < COLUMNS * top + CELLS
    ensures BlankAhead(Feed(t, c))
    ensures forall i: nat :: i >= COLUMNS * top + CELLS ==> At(Feed(t, c).paper, i) == BLANK
  {
  }

  lemma NothingWritten(s: Screen)
    requires OnScreen(s)
    ensures Written(s, []) == s
  {
    assert Window(s.cells, 0) == s.cells;
  }

  function Newlines(n: nat): seq<bv8> {
    if n == 0 then [] else Newlines(n - 1) + [NEWLINE]
  }

  lemma RowBlanked(t: Terminal, row: nat)
    requires t.position == COLUMNS * row
    ensures Feed(t, NEWLINE).position == COLUMNS * row + COLUMNS
    ensures forall i: nat :: At(Feed(t, NEWLINE).paper, i) ==
              if COLUMNS * row <= i < COLUMNS * row + COLUMNS then BLANK else At(t.paper, i)
  {
    hide TypeBlanks;
    assert t.position % COLUMNS == 0;
  }

  /** From the top left corner, n newlines blank the first n rows. */
  lemma {:induction false} NewlinesBlank(t: Terminal, n: nat)
    requires t.position == 0
    ensures FeedAll(t, Newlines(n)).position == COLUMNS * n
    ensures forall i: nat :: i < COLUMNS * n ==> At(FeedAll(t, Newlines(n)).paper, i) == BLANK
  {
    hide Feed, At;
    if n > 0 {
      NewlinesBlank(t, n - 1);
      assert Newlines(n)[..|Newlines(n)| - 1] == Newlines(n - 1);
      RowBlanked(FeedAll(t, Newlines(n - 1)), n - 1);
    }
  }

  /** 25 of them blank the whole screen, although the last one scrolls it. */
  lemma ScreenCleared(s: Screen)
    requires OnScreen(s) && s.cursor == 0
    ensures forall a :: 0 <= a < CELLS ==> Written(s, Newlines(25)).cells[a] == BLANK
    ensures Written(s, Newlines(25)).cursor == COLUMNS * 24
  {
    var t := Terminal(s.cells, 0);
    NewlinesBlank(t, 25);
    StaysBlankAhead(t, Newlines(25));
  }

  // ----- what one message does to the screen, cell by cell

  lemma {:induction false} TypedOut(t: Terminal, msg: seq<bv8>)
    requires forall i :: 0 <= i < |msg| ==> msg[i] != 9 && msg[i] != 10
    ensures FeedAll(t, msg).position == t.position + |msg|
    ensures forall a: nat :: At(FeedAll(t, msg).paper, a) ==
              if t.position <= a < t.position + |msg| then Cell(msg[a - t.position], 7) else At(t.paper, a)
  {
    if msg != [] {
      TypedOut(t, msg[..|msg| - 1]);
    }
  }

  /** Text without newlines or tabs that ends above the last cell: each byte goes to its own cell,
      in colour 7, and nothing else changes. */
  lemma PlainText(s: Screen, msg: seq<bv8>)
    requires OnScreen(s) && s.cursor + |msg| < 2000
    requires forall i :: 0 <= i < |msg| ==> msg[i] != 9 && msg[i] != 10
    ensures var s' := Written(s, msg);
            && |s'.cells| == 2000 && s'.cursor == s.cursor + |msg|
            && (forall i :: 0 <= i < |msg| ==> s'.cells[s.cursor + i] == Cell(msg[i], 7))
            && forall a :: 0 <= a < s.cursor || s.cursor + |msg| <= a < 2000 ==> s'.cells[a] == s.cells[a]
  {
    var t := Terminal(s.cells, s.cursor);
    TypedOut(t, msg);
    forall i | 0 <= i < |msg|
      ensures Written(s, msg).cells[s.cursor + i] == Cell(msg[i], 7)
    {
      assert At(FeedAll(t, msg).paper, s.cursor + i) == Cell(msg[i], 7);
    }
  }

  /** What is on the screen when cells a..b-1 have been written with a byte and the rest kept. */
  ghost predicate Overwritten(s: Screen, s': Screen, a: nat, b: nat, c: bv8)
    requires OnScreen(s)
  {
    && |s'.cells| == 2000
    && forall k :: 0 <= k < 2000 ==> s'.cells[k] == if a <= k < b then Cell(c, 7) else s.cells[k]
  }

  /** The same, and then everything has moved up by one row. */
  ghost predicate OverwrittenAndScrolled(s: Screen, s': Screen, a: nat, b: nat, c: bv8)
    requires OnScreen(s)
  {
    && |s'.cells| == 2000
    && (forall k :: 0 <= k < 1920 ==> s'.cells[k] == if a <= k + 80 < b then Cell(c, 7) else s.cells[k + 80])
    && forall k :: 1920 <= k < 2000 ==> s'.cells[k] == Cell(32, 7)
  }

  lemma OneByte(t: Terminal, c: bv8)
    ensures FeedAll(t, [c]) == Feed(t, c)
  {
    assert [c][..0] == [];
    assert FeedAll(t, []) == t;
  }

  /** A newline in any column of row r: spaces exactly up to the end of the row and the cursor at
      the start of the next one; in the last row the screen then scrolls. */
  lemma NewlineWritten(s: Screen, r: nat)
    requires OnScreen(s) && r < 25 && 80 * r <= s.cursor < 80 * r + 80
    ensures var s' := Written(s, [10]);
            && (r < 24 ==> Overwritten(s, s', s.cursor, 80 * r + 80, 32) && s'.cursor == 80 * (r + 1))
            && (r == 24 ==> OverwrittenAndScrolled(s, s', s.cursor, 2000, 32) && s'.cursor == 80 * 24)
  {
    var t := Terminal(s.cells, s.cursor);
    OneByte(t, 10);
    assert s.cursor % 80 == s.cursor - 80 * r;
  }

  /** A tab: 8 spaces, some of them perhaps past the end of the screen, which then scrolls. */
  lemma TabWritten(s: Screen)
    requires OnScreen(s)
    ensures var s' := Written(s, [9]);
            && (s.cursor + 8 < 2000 ==> Overwritten(s, s', s.cursor, s.cursor + 8, 32) && s'.cursor == s.cursor + 8)
            && (s.cursor + 8 >= 2000 ==>
                  OverwrittenAndScrolled(s, s', s.cursor, 2000, 32) && s'.cursor == s.cursor + 8 - 80)
  {
    hide TypeBlanks, Put;
    OneByte(Terminal(s.cells, s.cursor), 9);
  }

  /** Any other byte: its cell, and in the last cell of the screen a scroll after it. */
  lemma ByteWritten(s: Screen, c: bv8)
    requires OnScreen(s) && c != 9 && c != 10
    ensures var s' := Written(s, [c]);
            && (s.cursor < 1999 ==> Overwritten(s, s', s.cursor, s.cursor + 1, c) && s'.cursor == s.cursor + 1)
            && (s.cursor == 1999 ==> OverwrittenAndScrolled(s, s', 1999, 2000, c) && s'.cursor == 1920)
  {
    OneByte(Terminal(s.cells, s.cursor), c);
  }
}
