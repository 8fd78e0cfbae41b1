/**
 * The abstract document an invoice is composed into: paragraphs, images,
 * horizontal rules and tables whose cells hold text, an image or a nested
 * table. Rendering (pages, fonts, PDF bytes) is not part of this model.
 */
module Layout {
  import opened Results

  const HELVETICA := "Helvetica"

  /** The border flags of a new cell: top, bottom, left and right (`Rectangle.BOX`). */
  const BOX := 15

  const NO_BORDER := 0

  datatype Color = Black | Gray

  datatype Font = Font(family: string, size: int, color: Color)

  /** An image file and the percentage it is scaled to. */
  datatype Image = Image(path: string, scalePercent: int)

  datatype HAlign = AlignLeft | AlignCenter | AlignRight

  datatype VAlign = AlignTop | AlignMiddle | AlignBottom

  datatype LineSeparator = LineSeparator(lineWidth: int, percentage: int, color: Color, align: VAlign, offset: int)

  datatype Content = Text(text: string, font: Font) | Picture(image: Image) | Nested(table: TableValue)

  datatype Cell = Cell(content: Content, border: int, hAlign: HAlign, vAlign: VAlign)

  /** A table: column count, relative column widths, the cells in the order
      they were added, and how many leading rows repeat on every page. Rows
      are consecutive runs of `numColumns` cells. */
  datatype TableValue = TableValue(numColumns: nat, widths: seq<int>, cells: seq<Cell>, headerRows: nat)

  datatype Block =
    | Paragraph(text: string, font: Font)
    | NewLine
    | Figure(image: Image)
    | Rule(separator: LineSeparator)
    | TableBlock(table: TableValue)

  /** A new cell holding a paragraph: boxed, top-left aligned. */
  function TextCell(text: string, font: Font): Cell {
    Cell(Text(text, font), BOX, AlignLeft, AlignTop)
  }

  /** A new cell holding a nested table: the same defaults, boxed and
      top-left aligned. */
  function TableCell(t: TableValue): Cell {
    Cell(Nested(t), BOX, AlignLeft, AlignTop)
  }

  // ---------------------------------------------------------------------------
  // Rows

  /** The number of complete rows: a table hands out only rows whose every
      column is filled; the cells of an unfinished last row are not among them. */
  function RowCount(t: TableValue): nat
    requires t.numColumns > 0
  {
    |t.cells| / t.numColumns
  }

  lemma RowWithin(r: nat, c: nat, n: nat, len: nat)
    requires n > 0 && r < len / n && c < n
    ensures r * n + c < len / n * n <= len
    ensures (r + 1) * n <= len / n * n
  {
    var q := len / n;
    assert r + 1 <= q;
    assert (r + 1) * n <= q * n by {
      assert q * n == (r + 1) * n + (q - r - 1) * n;
    }
  }

  function Row(t: TableValue, r: nat): (row: seq<Cell>)
    requires t.numColumns > 0 && r < RowCount(t)
    ensures |row| == t.numColumns
  {
    RowWithin(r, 0, t.numColumns, |t.cells|);
    t.cells[r * t.numColumns..(r + 1) * t.numColumns]
  }

  lemma RowAt(t: TableValue, r: nat, c: nat)
    requires t.numColumns > 0 && r < RowCount(t) && c < t.numColumns
    ensures r * t.numColumns + c < |t.cells|
    ensures Row(t, r)[c] == t.cells[r * t.numColumns + c]
  {
    RowWithin(r, c, t.numColumns, |t.cells|);
  }

  /** Every table, nested ones included, has as many widths as columns and
      only complete rows. */
  ghost predicate WellFormed(t: TableValue)
    decreases t
  {
    && t.numColumns > 0
    && |t.widths| == t.numColumns
    && |t.cells| % t.numColumns == 0
    && forall i :: 0 <= i < |t.cells| && t.cells[i].content.Nested? ==> WellFormed(t.cells[i].content.table)
  }

  // ---------------------------------------------------------------------------
  // The table operations, on values

  /** `new PdfPTable(n)`: every column of relative width 1, no cells. */
  function EmptyTable(numColumns: nat): (t: TableValue)
    requires numColumns > 0
    ensures WellFormed(t) && t.numColumns == numColumns && t.cells == [] && t.headerRows == 0
  {
    TableValue(numColumns, seq(numColumns, _ => 1), [], 0)
  }

  /** `setWidths`: accepted only when there is one proportion per column. */
  function WithWidths(t: TableValue, proportions: seq<int>): (r: Option<TableValue>)
    ensures r.Some? <==> |proportions| == t.numColumns
    ensures r.Some? ==> r.value.widths == proportions && r.value.cells == t.cells && r.value.numColumns == t.numColumns
  {
    if |proportions| == t.numColumns then Some(t.(widths := proportions)) else None
  }

  function Appended(t: TableValue, cells: seq<Cell>): TableValue {
    t.(cells := t.cells + cells)
  }

  /** The cells after every cell of every complete row got border `w`. */
  function Bordered(cells: seq<Cell>, n: nat, w: int): seq<Cell>
    requires n > 0
  {
    seq(|cells|, i requires 0 <= i < |cells| => if i < |cells| / n * n then cells[i].(border := w) else cells[i])
  }

  function WithBorders(t: TableValue, w: int): TableValue
    requires t.numColumns > 0
  {
    t.(cells := Bordered(t.cells, t.numColumns, w))
  }

  /** Setting borders changes borders only: same number of cells, same
      contents and alignments in the same order; the cells of complete rows
      get border `w`, the rest keep theirs. */
  lemma BorderedChangesOnlyBorders(cells: seq<Cell>, n: nat, w: int)
    requires n > 0
    ensures var r := Bordered(cells, n, w);
      && |r| == |cells|
      && (forall i :: 0 <= i < |r| ==> r[i].content == cells[i].content && r[i].hAlign == cells[i].hAlign && r[i].vAlign == cells[i].vAlign)
      && (forall i :: 0 <= i < |r| ==> r[i].border == (if i < |cells| / n * n then w else cells[i].border))
  {
  }

  /** After setting borders to `w`, every cell of every row has border `w`,
      and the rows are the same rows with only the border changed. */
  lemma RowsAfterBorders(t: TableValue, w: int)
    requires t.numColumns > 0
    ensures RowCount(WithBorders(t, w)) == RowCount(t)
    ensures forall r, c :: 0 <= r < RowCount(t) && 0 <= c < t.numColumns ==>
      Row(WithBorders(t, w), r)[c] == Row(t, r)[c].(border := w)
  {
    var t' := WithBorders(t, w);
    forall r, c | 0 <= r < RowCount(t) && 0 <= c < t.numColumns
      ensures Row(t', r)[c] == Row(t, r)[c].(border := w)
    {
      RowAt(t, r, c);
      RowAt(t', r, c);
    }
  }

  /** Setting the same border twice is the same as setting it once. */
  lemma BordersIdempotent(t: TableValue, w: int)
    requires t.numColumns > 0
    ensures WithBorders(WithBorders(t, w), w) == WithBorders(t, w)
  {
    var once := Bordered(t.cells, t.numColumns, w);
    var twice := Bordered(once, t.numColumns, w);
    assert |once| == |t.cells|;
    assert twice == once;
  }

  /** When every row is complete, every cell has border `w` afterwards. */
  lemma FullRowsAllBordered(t: TableValue, w: int)
    requires t.numColumns > 0 && |t.cells| % t.numColumns == 0
    ensures forall i :: 0 <= i < |t.cells| ==> WithBorders(t, w).cells[i] == t.cells[i].(border := w)
  {
    assert |t.cells| / t.numColumns * t.numColumns == |t.cells|;
  }
}
