/** The console of tutorial 8's kernel: writing and scrolling in place in the video memory. */
module Console {
  import opened Paper

  /** ((background & 0x0F) << 4) | (foreground & 0x0F) */
  function Colour(foreground: bv8, background: bv8): bv8 {
    ((background & 0x0F) << 4) | (foreground & 0x0F)
  }

  /** Video memory, two bytes a cell, and the position of the cursor. */
  class VideoConsole {
    const video: array<bv8>
    var cursorPosition: nat

    /** Cell 2000 is written too, so the memory has to go on for two bytes. */
    ghost predicate Valid() {
      video.Length >= 2 * CELLS + 2
    }

    ghost function CellAt(a: nat): Cell
      requires 2 * a + 1 < video.Length
      reads video
    {
      Cell(video[2 * a], video[2 * a + 1])
    }

    ghost function Cells(): seq<Cell>
      requires Valid()
      reads video
    {
      seq(CELLS, a requires 0 <= a < CELLS && Valid() reads video => CellAt(a))
    }

    ghost function OnDisplay(): Screen
      requires Valid()
      reads `cursorPosition, video
    {
      Screen(Cells(), cursorPosition)
    }

    /** The visible memory is the window of the paper from row top on. */
    ghost predicate Shows(paper: seq<Cell>, top: nat)
      requires Valid()
      reads video
    {
      forall a: nat :: a < CELLS ==> CellAt(a) == At(paper, COLUMNS * top + a)
    }

    constructor (memory: array<bv8>)
      requires memory.Length >= 2 * CELLS + 2
      ensures Valid() && video == memory && cursorPosition == 0
    {
      video, cursorPosition := memory, 0;
    }

    /** `set_cursor`, without the cursor ports. */
    method SetCursor(address: nat)
      modifies this`cursorPosition
      ensures cursorPosition == address
    {
      cursorPosition := address;
    }

    /** `write_char`: the bound lets address 2000, one past the screen, through. The second byte
        has the foreground in its low nibble and the background in its high one. */
    method WriteChar(address: nat, c: bv8, foreground: bv8, background: bv8)
      requires Valid()
      modifies video
      ensures address <= 2000 ==>
                && video[2 * address] == c
                && video[2 * address + 1] % 16 == foreground % 16
                && video[2 * address + 1] / 16 == background % 16
      ensures forall i :: 0 <= i < video.Length && (address > 2000 || !(2 * address <= i <= 2 * address + 1)) ==>
                video[i] == old(video[i])
      ensures forall a: nat :: a <= CELLS ==>
                CellAt(a) == if a == address then Cell(c, Colour(foreground, background)) else old(CellAt(a))
    {
      if address <= CELLS {
        video[2 * address] := c;
        video[2 * address + 1] := Colour(foreground, background);
      }
    }

    /** One blank or character of the message, on the screen and on the paper. */
    method Put(address: nat, c: bv8, ghost t: Terminal, ghost top: nat)
      requires Valid() && Shows(t.paper, top) && t.position == address + COLUMNS * top
      modifies video
      ensures Shows(Type(t, Cell(c, 7)).paper, top)
      ensures forall i :: 2 * CELLS + 2 <= i < video.Length ==> video[i] == old(video[i])
    {
      assert Colour(7, 0) == 7;
      WriteChar(address, c, 7, 0);
    }

    /** The scroll: an overlapping copy, forward, and a blank last row. */
    method ScrollUp(ghost paper: seq<Cell>, ghost top: nat)
      requires Valid() && Shows(paper, top)
      requires forall i: nat :: i >= COLUMNS * top + CELLS ==> At(paper, i) == BLANK
      modifies video
      ensures Shows(paper, top + 1)
      ensures forall i :: 2 * CELLS <= i < video.Length ==> video[i] == old(video[i])
    {
      ghost var before := video[..];
      for j := 0 to 80 * 24 * 2
        invariant forall i :: 0 <= i < j ==> video[i] == before[i + 160]
        invariant forall i :: j <= i < video.Length ==> video[i] == before[i]
      {
        video[j] := video[j + 80 * 2];
      }
      var j := 0;
      while j < 80 * 2
        invariant 0 <= j <= 160 && j % 2 == 0
        invariant forall i :: 0 <= i < 3840 ==> video[i] == before[i + 160]
        invariant forall i :: 3840 <= i < 3840 + j ==> video[i] == if i % 2 == 0 then 32 else 7
        invariant forall i :: 4000 <= i < video.Length ==> video[i] == before[i]
      {
        video[80 * 24 * 2 + j] := 32;
        video[80 * 24 * 2 + j + 1] := 7;
        j := j + 2;
      }
      forall a: nat | a < CELLS
        ensures CellAt(a) == At(paper, COLUMNS * (top + 1) + a)
      {
        if a < 1920 {
          assert old(CellAt(a + 80)) == At(paper, COLUMNS * top + (a + 80));
          assert CellAt(a) == old(CellAt(a + 80));
        } else {
          assert CellAt(a) == BLANK;
        }
      }
    }

    /** A newline: blanks to the end of the row, at least one. */
    method PutNewline(start: nat, ghost t: Terminal, ghost top: nat) returns (address: nat)
      requires Valid() && start < CELLS && Shows(t.paper, top) && t.position == start + COLUMNS * top
      modifies video
      ensures Shows(Feed(t, NEWLINE).paper, top) && Feed(t, NEWLINE).position == address + COLUMNS * top
      ensures start < address <= CELLS
      ensures forall i :: 2 * CELLS + 2 <= i < video.Length ==> video[i] == old(video[i])
    {
      hide TypeBlanks;
      ghost var n := 1;
      assert TypeBlanks(t, 1) == Type(t, BLANK) by {
        OneBlank(t);
      }
      Put(start, 32, t, top);
      address := start + 1;
      while address % 80 != 0
        invariant start < address <= NextRow(start) && address == start + n
        invariant Shows(TypeBlanks(t, n).paper, top)
        invariant forall i :: 2 * CELLS + 2 <= i < video.Length ==> video[i] == old(video[i])
        decreases NextRow(start) - address
      {
        Put(address, 32, TypeBlanks(t, n), top);
        OneMoreBlank(t, n);
        RowEnd(start, address);
        address := address + 1;
        n := n + 1;
      }
      RowEnd(start, address);
      SameColumn(start, top);
    }

    /** A tab: 8 blanks, which may run past the end of the screen. */
    method PutTab(start: nat, ghost t: Terminal, ghost top: nat) returns (address: nat)
      requires Valid() && start < CELLS && Shows(t.paper, top) && t.position == start + COLUMNS * top
      modifies video
      ensures Shows(Feed(t, TAB).paper, top) && address == start + 8
      ensures forall i :: 2 * CELLS + 2 <= i < video.Length ==> video[i] == old(video[i])
    {
      address := start;
      for j := 0 to 8
        invariant address == start + j && Shows(TypeBlanks(t, j).paper, top)
        invariant forall i :: 2 * CELLS + 2 <= i < video.Length ==> video[i] == old(video[i])
      {
        Put(address, 32, TypeBlanks(t, j), top);
        address := address + 1;
      }
    }

    /** `write`: from a cursor on the screen, the visible cells and the cursor afterwards are the
        window of the paper terminal, whatever the off-screen cell held and holds. */
    method Write(msg: seq<bv8>)
      requires Valid() && cursorPosition < CELLS
      modifies this`cursorPosition, video
      ensures Valid() && cursorPosition < CELLS
      ensures OnDisplay() == Written(old(OnDisplay()), msg)
      ensures forall i :: 2 * CELLS + 2 <= i < video.Length ==> video[i] == old(video[i])
    {
      var address := cursorPosition;
      ghost var t0 := Terminal(Cells(), cursorPosition);
      ghost var t, top := t0, 0;
      assert FeedAll(t0, msg[..0]) == t0;
      for i := 0 to |msg|
        invariant address < CELLS && t == FeedAll(t0, msg[..i])
        invariant t.position == address + COLUMNS * top && top == Top(t.position)
        invariant BlankAhead(t) && Shows(t.paper, top)
        invariant forall i :: 2 * CELLS + 2 <= i < video.Length ==> video[i] == old(video[i])
      {
        assert msg[..i + 1][..i] == msg[..i];
        if msg[i] == NEWLINE {
          address := PutNewline(address, t, top);
        } else if msg[i] == TAB {
          address := PutTab(address, t, top);
        } else {
          Put(address, msg[i], t, top);
          address := address + 1;
        }
        BlankBelow(t, msg[i], top);
        t := Feed(t, msg[i]);
        while address >= CELLS
          invariant address < CELLS + COLUMNS && t.position == address + COLUMNS * top
          invariant top == Top(t.position) || (address >= CELLS && top + 1 == Top(t.position))
          invariant Shows(t.paper, top)
          invariant forall i: nat :: i >= COLUMNS * top + CELLS ==> At(t.paper, i) == BLANK
          invariant forall i :: 2 * CELLS + 2 <= i < video.Length ==> video[i] == old(video[i])
          decreases address
        {
          ScrollUp(t.paper, top);
          address := address - 80;
          top := top + 1;
        }
      }
      assert msg[..|msg|] == msg;
      SetCursor(address);
      forall a: nat | a < CELLS
        ensures Cells()[a] == Window(t.paper, top)[a]
      {
        assert CellAt(a) == At(t.paper, COLUMNS * top + a);
      }
      assert Cells() == Window(t.paper, top);
    }

    /** `write_string`: the characters before the terminating 0. */
    method WriteString(msg: seq<bv8>)
      requires Valid() && cursorPosition < CELLS && 0 in msg
      modifies this`cursorPosition, video
      ensures Valid() && cursorPosition < CELLS
      ensures exists n :: 0 <= n < |msg| && msg[n] == 0 && 0 !in msg[..n] &&
                OnDisplay() == Written(old(OnDisplay()), msg[..n])
    {
      var count := 0;
      while msg[count] != 0
        invariant 0 <= count < |msg| && 0 !in msg[..count]
        decreases |msg| - count
      {
        count := count + 1;
      }
      Write(msg[..count]);
    }

    /** `clear_screen`: every visible cell is blank and the cursor is home, from any prior state. */
    method ClearScreen()
      requires Valid()
      modifies this`cursorPosition, video
      ensures Valid() && cursorPosition == 0
      ensures forall a :: 0 <= a < 2000 ==> video[2 * a] == 32 && video[2 * a + 1] == 7
    {
      hide Written, FeedAll;
      SetCursor(0);
      ghost var start := OnDisplay();
      NothingWritten(start);
      for i := 0 to 25
        invariant Valid() && cursorPosition < CELLS
        invariant OnDisplay() == Written(start, Newlines(i))
      {
        WriteAppend(start, Newlines(i), [NEWLINE]);
        WriteString([NEWLINE, 0]);
        assert [NEWLINE, 0][..1] == [NEWLINE];
      }
      ScreenCleared(start);
      label Cleared:
      SetCursor(0);
      forall a | 0 <= a < 2000
        ensures video[2 * a] == 32 && video[2 * a + 1] == 7
      {
        assert old@Cleared(OnDisplay().cells[a]) == BLANK;
        assert CellAt(a) == BLANK;
      }
    }
  }
}
