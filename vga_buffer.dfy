/**
 * The VGA text-mode writer of the kernel (src/vga_buffer.rs): a grid of 25
 * rows by 80 columns of (byte, colour attribute) cells, a cursor, the colour
 * new text is written in, line wrapping and scrolling up when the last row
 * overflows.
 *
 * The memory-mapped frame buffer is modelled as a plain two-dimensional
 * array handed to the writer; its volatile access semantics are not part of
 * the model. Bytes are `bv8`.
 */
module VgaBuffer {

  const SCREEN_HEIGHT := 25
  const SCREEN_WIDTH := 80

  const NEWLINE: bv8 := 0x0A
  const SPACE: bv8 := 0x20
  /** What `print` writes in place of a byte it cannot display. */
  const SUBSTITUTE: bv8 := 0xFE

  // ---------------------------------------------------------------------
  // Colours
  // ---------------------------------------------------------------------

  datatype FontColor =
    | Black | Blue | Green | Cyan | Red | Magenta | Brown | LightGray
    | DarkGray | LightBlue | LightGreen | LightCyan | LightRed | Pink | Yellow | White

  datatype BackgroundColor =
    | Black | Blue | Green | Cyan | Red | Magenta | Brown | LightGray

  /** The `#[repr(u8)]` discriminant of a foreground colour. */
  function FontValue(f: FontColor): (v: bv8)
    ensures v < 0x10
  {
    match f
    case Black => 0x0
    case Blue => 0x1
    case Green => 0x2
    case Cyan => 0x3
    case Red => 0x4
    case Magenta => 0x5
    case Brown => 0x6
    case LightGray => 0x7
    case DarkGray => 0x8
    case LightBlue => 0x9
    case LightGreen => 0xa
    case LightCyan => 0xb
    case LightRed => 0xc
    case Pink => 0xd
    case Yellow => 0xe
    case White => 0xf
  }

  /** The `#[repr(u8)]` discriminant of a background colour. */
  function BackgroundValue(b: BackgroundColor): (v: bv8)
    ensures v < 0x8
  {
    match b
    case Black => 0x0
    case Blue => 0x1
    case Green => 0x2
    case Cyan => 0x3
    case Red => 0x4
    case Magenta => 0x5
    case Brown => 0x6
    case LightGray => 0x7
  }

  /** A colour attribute byte. */
  datatype ColorCode = ColorCode(code: bv8)

  /**
   * `ColorCode::new`: the foreground in the low nibble, the background in
   * bits 4-6. Both read back unchanged and the blink bit 7 stays clear.
   */
  function NewColorCode(f: FontColor, b: BackgroundColor): (c: ColorCode)
    ensures c.code & 0x0F == FontValue(f)
    ensures c.code >> 4 == BackgroundValue(b)
    ensures c.code < 0x80
  {
    ColorCode(FontValue(f) | (BackgroundValue(b) << 4))
  }

  /** The writer's starting colour, light gray on black, is attribute 0x07. */
  lemma DefaultColorCode()
    ensures NewColorCode(FontColor.LightGray, BackgroundColor.Black).code == 0x07
  {
  }

  /** One cell of the frame buffer. */
  datatype VgaChar = VgaChar(ch: bv8, colorCode: ColorCode)

  // ---------------------------------------------------------------------
  // The screen as a value
  // ---------------------------------------------------------------------

  type Grid = seq<seq<VgaChar>>

  predicate IsGrid(g: Grid)
  {
    |g| == SCREEN_HEIGHT && forall i :: 0 <= i < |g| ==> |g[i]| == SCREEN_WIDTH
  }

  /** The writer's state: grid contents, current colour and cursor. */
  datatype Screen = Screen(cells: Grid, color: ColorCode, rowpos: nat, colpos: nat)
  {
    /** The grid has its full size and the cursor lies inside it. */
    predicate Valid()
    {
      IsGrid(cells) && rowpos < SCREEN_HEIGHT && colpos < SCREEN_WIDTH
    }
  }

  function BlankRow(color: ColorCode): (row: seq<VgaChar>)
    ensures |row| == SCREEN_WIDTH
    ensures forall j :: 0 <= j < |row| ==> row[j] == VgaChar(SPACE, color)
  {
    seq(SCREEN_WIDTH, _ => VgaChar(SPACE, color))
  }

  /** `g` with cell (i, j) replaced by `x`. */
  function WriteCell(g: Grid, i: nat, j: nat, x: VgaChar): (r: Grid)
    requires IsGrid(g) && i < SCREEN_HEIGHT && j < SCREEN_WIDTH
    ensures IsGrid(r) && r[i][j] == x
    ensures forall k, l :: 0 <= k < SCREEN_HEIGHT && 0 <= l < SCREEN_WIDTH && (k, l) != (i, j) ==> r[k][l] == g[k][l]
  {
    g[i := g[i][j := x]]
  }

  /**
   * The screen after `shift_up`: every row moves up by one, the top row is
   * lost, the last row is blank in the current colour; cursor and colour
   * stay.
   */
  function Scrolled(s: Screen): (r: Screen)
    requires IsGrid(s.cells)
    ensures IsGrid(r.cells)
    ensures forall i, j :: 0 <= i < SCREEN_HEIGHT - 1 && 0 <= j < SCREEN_WIDTH ==> r.cells[i][j] == s.cells[i + 1][j]
    ensures r.cells[SCREEN_HEIGHT - 1] == BlankRow(s.color)
    ensures r.color == s.color && r.rowpos == s.rowpos && r.colpos == s.colpos
  {
    s.(cells := s.cells[1..] + [BlankRow(s.color)])
  }

  /**
   * The screen after `new_line`: the cursor goes to column 0 of the next
   * row; past the last row it stays on the last row and the grid scrolls.
   * A cursor inside the grid stays inside it.
   */
  function LineFed(s: Screen): (r: Screen)
    requires IsGrid(s.cells)
    ensures IsGrid(r.cells) && r.color == s.color && r.colpos == 0
    ensures s.rowpos < SCREEN_HEIGHT - 1 ==> r.rowpos == s.rowpos + 1 && r.cells == s.cells
    ensures s.rowpos == SCREEN_HEIGHT - 1 ==> r.rowpos == s.rowpos && r.cells == Scrolled(s).cells
    ensures r.rowpos < SCREEN_HEIGHT <==> s.rowpos < SCREEN_HEIGHT
  {
    var row := s.rowpos + 1;
    if row >= SCREEN_HEIGHT then Scrolled(s.(rowpos := row - 1, colpos := 0))
    else s.(rowpos := row, colpos := 0)
  }

  /**
   * The screen after `print_char(c)`. A newline feeds the line. Any other
   * byte is written in the current colour at the cursor, which then moves
   * one column right, or, from the last column, to the start of the next
   * line. The cursor never leaves the grid.
   */
  function CharPut(s: Screen, c: bv8): (r: Screen)
    requires s.Valid()
    ensures r.Valid() && r.color == s.color
    ensures c == NEWLINE ==> r == LineFed(s)
    // the cursor moves right, or wraps to the start of the next line
    ensures c != NEWLINE && s.colpos < SCREEN_WIDTH - 1 ==>
      r.rowpos == s.rowpos && r.colpos == s.colpos + 1
    ensures c != NEWLINE && s.colpos == SCREEN_WIDTH - 1 ==>
      r.colpos == 0 && r.rowpos == (if s.rowpos < SCREEN_HEIGHT - 1 then s.rowpos + 1 else s.rowpos)
    // away from the last cell of the grid: the byte lands at the old cursor, nothing else changes
    ensures c != NEWLINE && !(s.rowpos == SCREEN_HEIGHT - 1 && s.colpos == SCREEN_WIDTH - 1) ==>
      r.cells[s.rowpos][s.colpos] == VgaChar(c, s.color) &&
      forall i, j :: 0 <= i < SCREEN_HEIGHT && 0 <= j < SCREEN_WIDTH && (i, j) != (s.rowpos, s.colpos) ==>
        r.cells[i][j] == s.cells[i][j]
    // in the last cell: the byte is written, then the whole grid scrolls one row up
    ensures c != NEWLINE && s.rowpos == SCREEN_HEIGHT - 1 && s.colpos == SCREEN_WIDTH - 1 ==>
      (forall i, j :: 0 <= i < SCREEN_HEIGHT - 2 && 0 <= j < SCREEN_WIDTH ==> r.cells[i][j] == s.cells[i + 1][j]) &&
      r.cells[SCREEN_HEIGHT - 2] == s.cells[SCREEN_HEIGHT - 1][SCREEN_WIDTH - 1 := VgaChar(c, s.color)] &&
      r.cells[SCREEN_HEIGHT - 1] == BlankRow(s.color)
  {
    if c == NEWLINE then LineFed(s)
    else
      var written := s.(cells := WriteCell(s.cells, s.rowpos, s.colpos, VgaChar(c, s.color)));
      if s.colpos >= SCREEN_WIDTH - 1 then LineFed(written)
      else written.(colpos := s.colpos + 1)
  }

  predicate Printable(b: bv8) { 0x20 <= b <= 0x7E }

  /** What may stand in a cell that `print` wrote: printable ASCII or the substitute. */
  predicate Displayable(b: bv8) { Printable(b) || b == SUBSTITUTE }

  /**
   * The byte `print` passes on for `b`: a newline or printable ASCII as it
   * is, anything else as the substitute 0xFE.
   */
  function Substitute(b: bv8): (r: bv8)
    ensures r == NEWLINE || Displayable(r)
    ensures b == NEWLINE || Printable(b) ==> r == b
    ensures r != b ==> r == SUBSTITUTE
  {
    if b == NEWLINE || Printable(b) then b else SUBSTITUTE
  }

  /**
   * The screen after `print(bytes)`: each byte in order, substituted, put
   * as by `print_char`. The cursor never leaves the grid.
   */
  function Printed(s: Screen, bytes: seq<bv8>): (r: Screen)
    requires s.Valid()
    ensures r.Valid() && r.color == s.color
    decreases |bytes|
  {
    if bytes == [] then s
    else Printed(CharPut(s, Substitute(bytes[0])), bytes[1..])
  }

  /** Printing a concatenation prints the first part, then the second. */
  lemma {:induction false} PrintedAppend(s: Screen, a: seq<bv8>, b: seq<bv8>)
    requires s.Valid()
    ensures Printed(s, a + b) == Printed(Printed(s, a), b)
    decreases |a|
  {
    if a != [] {
      assert (a + b)[0] == a[0];
      assert (a + b)[1..] == a[1..] + b;
      PrintedAppend(CharPut(s, Substitute(a[0])), a[1..], b);
    } else {
      assert a + b == b;
    }
  }

  /** Printing one more byte puts its substitute after what was printed so far. */
  lemma PrintedSnoc(s: Screen, bytes: seq<bv8>, b: bv8)
    requires s.Valid()
    ensures Printed(s, bytes + [b]) == CharPut(Printed(s, bytes), Substitute(b))
  {
    PrintedAppend(s, bytes, [b]);
    var t := Printed(s, bytes);
    assert Printed(t, [b]) == Printed(CharPut(t, Substitute(b)), []);
  }

  /** Every cell holds printable ASCII or the substitute. */
  predicate AllDisplayable(g: Grid)
  {
    forall i, j :: 0 <= i < |g| && 0 <= j < |g[i]| ==> Displayable(g[i][j].ch)
  }

  /** A line feed, scrolling included, keeps every cell displayable. */
  lemma LineFedKeepsDisplayable(s: Screen)
    requires IsGrid(s.cells) && AllDisplayable(s.cells)
    ensures AllDisplayable(LineFed(s).cells)
  {
  }

  /** Putting a newline or a displayable byte keeps every cell displayable. */
  lemma CharPutKeepsDisplayable(s: Screen, c: bv8)
    requires s.Valid() && AllDisplayable(s.cells)
    requires c == NEWLINE || Displayable(c)
    ensures AllDisplayable(CharPut(s, c).cells)
  {
  }

  /**
   * `print` only ever writes printable ASCII or the substitute: a screen
   * whose cells all hold such bytes keeps that property, and in particular
   * no cell ever holds a newline.
   */
  lemma {:induction false} PrintedKeepsDisplayable(s: Screen, bytes: seq<bv8>)
    requires s.Valid() && AllDisplayable(s.cells)
    ensures AllDisplayable(Printed(s, bytes).cells)
    ensures forall i, j :: 0 <= i < SCREEN_HEIGHT && 0 <= j < SCREEN_WIDTH ==>
      Printed(s, bytes).cells[i][j].ch != NEWLINE
    decreases |bytes|
  {
    if bytes != [] {
      CharPutKeepsDisplayable(s, Substitute(bytes[0]));
      PrintedKeepsDisplayable(CharPut(s, Substitute(bytes[0])), bytes[1..]);
    }
  }

  /** The cells a grid holds, each with its colour. */
  ghost function CellSet(g: Grid): set<VgaChar>
  {
    set i, j | 0 <= i < |g| && 0 <= j < |g[i]| :: g[i][j]
  }

  /** Every cell is displayable or is one of the cells in `orig`. */
  ghost predicate DisplayableOrFrom(g: Grid, orig: set<VgaChar>)
  {
    forall i, j :: 0 <= i < |g| && 0 <= j < |g[i]| ==> Displayable(g[i][j].ch) || g[i][j] in orig
  }

  /** Putting a newline or a displayable byte adds no other cell than displayable ones. */
  lemma CharPutWritesDisplayable(s: Screen, c: bv8, orig: set<VgaChar>)
    requires s.Valid() && DisplayableOrFrom(s.cells, orig)
    requires c == NEWLINE || Displayable(c)
    ensures DisplayableOrFrom(CharPut(s, c).cells, orig)
  {
  }

  /** Printing from a grid whose cells are displayable or from `orig` keeps it so. */
  lemma {:induction false} PrintedWritesDisplayable(s: Screen, bytes: seq<bv8>, orig: set<VgaChar>)
    requires s.Valid() && DisplayableOrFrom(s.cells, orig)
    ensures DisplayableOrFrom(Printed(s, bytes).cells, orig)
    decreases |bytes|
  {
    if bytes != [] {
      CharPutWritesDisplayable(s, Substitute(bytes[0]), orig);
      PrintedWritesDisplayable(CharPut(s, Substitute(bytes[0])), bytes[1..], orig);
    }
  }

  /**
   * `print` only ever writes printable ASCII or the substitute, whatever the
   * screen held before: every cell after printing is displayable or is a cell
   * that was already on the screen. So a newline or any other byte outside
   * that range shows up only where the screen already had it.
   */
  lemma PrintedOnlyWritesDisplayable(s: Screen, bytes: seq<bv8>)
    requires s.Valid()
    ensures DisplayableOrFrom(Printed(s, bytes).cells, CellSet(s.cells))
    ensures forall i, j :: 0 <= i < SCREEN_HEIGHT && 0 <= j < SCREEN_WIDTH && !Displayable(Printed(s, bytes).cells[i][j].ch) ==>
      Printed(s, bytes).cells[i][j] in CellSet(s.cells)
  {
    forall i, j | 0 <= i < |s.cells| && 0 <= j < |s.cells[i]|
      ensures s.cells[i][j] in CellSet(s.cells)
    {
    }
    PrintedWritesDisplayable(s, bytes, CellSet(s.cells));
  }

  // ---------------------------------------------------------------------
  // The writer
  // ---------------------------------------------------------------------

  /** `Writer`: the cursor and colour over the frame buffer it writes in place. */
  class Writer {
    var color: ColorCode
    const buffer: array2<VgaChar>
    var colpos: nat
    var rowpos: nat
    /** The frame buffer's contents as a value, kept equal to `buffer`. */
    ghost var cells: Grid

    /** `cells` mirrors a 25 x 80 `buffer` cell by cell. */
    ghost predicate Mirrors()
      reads this, buffer
    {
      buffer.Length0 == SCREEN_HEIGHT && buffer.Length1 == SCREEN_WIDTH && IsGrid(cells) &&
      forall i, j :: 0 <= i < SCREEN_HEIGHT && 0 <= j < SCREEN_WIDTH ==> buffer[i, j] == cells[i][j]
    }

    /** The object invariant: the cursor lies inside the grid. */
    ghost predicate Valid()
      reads this, buffer
    {
      Mirrors() && rowpos < SCREEN_HEIGHT && colpos < SCREEN_WIDTH
    }

    ghost function Model(): Screen
      reads this
    {
      Screen(cells, color, rowpos, colpos)
    }

    /**
     * `Writer::new` over the frame buffer `screen`: cursor at the top-left
     * cell, colour light gray on black, buffer contents as they were.
     */
    constructor (screen: array2<VgaChar>)
      requires screen.Length0 == SCREEN_HEIGHT && screen.Length1 == SCREEN_WIDTH
      ensures Valid() && Model().Valid() && buffer == screen
      ensures rowpos == 0 && colpos == 0
      ensures color == NewColorCode(FontColor.LightGray, BackgroundColor.Black) && color.code == 0x07
    {
      color := NewColorCode(FontColor.LightGray, BackgroundColor.Black);
      buffer := screen;
      colpos := 0;
      rowpos := 0;
      cells := seq(SCREEN_HEIGHT, i requires 0 <= i < SCREEN_HEIGHT reads screen =>
        seq(SCREEN_WIDTH, j requires 0 <= j < SCREEN_WIDTH reads screen => screen[i, j]));
    }

    /** `set_color`: only the colour changes. */
    method SetColor(f: FontColor, b: BackgroundColor)
      requires Valid()
      modifies this`color
      ensures Valid() && color == NewColorCode(f, b)
      ensures Model() == old(Model()).(color := NewColorCode(f, b))
    {
      color := NewColorCode(f, b);
    }

    /** `new_line`, keeping the cursor inside the grid. */
    method NewLine()
      requires Valid()
      modifies this, buffer
      ensures Valid() && Model() == LineFed(old(Model()))
    {
      rowpos := rowpos + 1;
      colpos := 0;
      if rowpos >= SCREEN_HEIGHT {
        rowpos := rowpos - 1;
        ShiftUp();
      }
    }

    /** `shift_up`: copy every row one up, then blank the last row. */
    method ShiftUp()
      requires Mirrors()
      modifies this, buffer
      ensures Mirrors() && Model() == Scrolled(old(Model()))
    {
      for i := 1 to SCREEN_HEIGHT
        modifies buffer
        invariant forall r, k :: 0 <= r < i - 1 && 0 <= k < SCREEN_WIDTH ==> buffer[r, k] == cells[r + 1][k]
        invariant forall r, k :: i - 1 <= r < SCREEN_HEIGHT && 0 <= k < SCREEN_WIDTH ==> buffer[r, k] == cells[r][k]
      {
        var dst := i - 1;
        for j := 0 to SCREEN_WIDTH
          modifies buffer
          invariant forall r, k :: 0 <= r < dst && 0 <= k < SCREEN_WIDTH ==> buffer[r, k] == cells[r + 1][k]
          invariant forall k :: 0 <= k < j ==> buffer[dst, k] == cells[i][k]
          invariant forall k :: j <= k < SCREEN_WIDTH ==> buffer[dst, k] == cells[dst][k]
          invariant forall r, k :: i <= r < SCREEN_HEIGHT && 0 <= k < SCREEN_WIDTH ==> buffer[r, k] == cells[r][k]
        {
          buffer[dst, j] := buffer[i, j];
        }
      }
      var last := SCREEN_HEIGHT - 1;
      for j := 0 to SCREEN_WIDTH
        modifies buffer
        invariant forall r, k :: 0 <= r < last && 0 <= k < SCREEN_WIDTH ==> buffer[r, k] == cells[r + 1][k]
        invariant forall k :: 0 <= k < j ==> buffer[last, k] == VgaChar(SPACE, color)
      {
        buffer[last, j] := VgaChar(SPACE, color);
      }
      cells := cells[1..] + [BlankRow(color)];
    }

    /** `print_char(c)`: the cell write at the cursor is always in bounds. */
    method PrintChar(c: bv8)
      requires Valid()
      modifies this, buffer
      ensures Valid() && Model() == CharPut(old(Model()), c)
    {
      if c == NEWLINE {
        NewLine();
      } else {
        buffer[rowpos, colpos] := VgaChar(c, color);
        cells := WriteCell(cells, rowpos, colpos, VgaChar(c, color));
        if colpos >= SCREEN_WIDTH - 1 {
          NewLine();
        } else {
          colpos := colpos + 1;
        }
      }
    }

    /** `print(bytes)`: each byte in order, unprintable ones as 0xFE. */
    method Print(bytes: seq<bv8>)
      requires Valid()
      modifies this, buffer
      ensures Valid() && Model() == Printed(old(Model()), bytes)
    {
      var n := 0;
      while n < |bytes|
        invariant n <= |bytes| && Valid()
        invariant Model() == Printed(old(Model()), bytes[..n])
      {
        var b := bytes[n];
        PrintedSnoc(old(Model()), bytes[..n], b);
        assert bytes[..n + 1] == bytes[..n] + [b];
        if b == NEWLINE || (0x20 <= b <= 0x7E) {
          PrintChar(b);
        } else {
          PrintChar(SUBSTITUTE);
        }
        n := n + 1;
      }
      assert bytes[..n] == bytes;
    }
  }
}
