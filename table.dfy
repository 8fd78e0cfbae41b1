/**
 * `document.Table`: a PDF table that is filled cell by cell and whose cell
 * borders can all be set in one call. Adding a cell stores a copy of it, so
 * the table's cells are values.
 */
module Tables {
  import opened Layout

  class Table {
    const numColumns: nat
    var widths: seq<int>
    var cells: seq<Cell>
    var headerRows: nat

    ghost predicate Valid()
      reads this
    {
      numColumns > 0 && |widths| == numColumns
    }

    /** The table as a value, as it is handed to a document or wrapped in a cell. */
    function Value(): TableValue
      reads this
    {
      TableValue(numColumns, widths, cells, headerRows)
    }

    constructor (numColumns: nat)
      requires numColumns > 0
      ensures Valid() && Value() == EmptyTable(numColumns)
    {
      this.numColumns := numColumns;
      widths := seq(numColumns, _ => 1);
      cells := [];
      headerRows := 0;
    }

    method AddCell(cell: Cell)
      requires Valid()
      modifies this`cells
      ensures Valid()
      ensures cells == old(cells) + [cell]
    {
      cells := cells + [cell];
    }

    /** Appends every cell of `list`, in list order; an empty list leaves the
        table as it was. */
    method AddAll(list: seq<Cell>)
      requires Valid()
      modifies this`cells
      ensures Valid()
      ensures cells == old(cells) + list
    {
      for i := 0 to |list|
        invariant cells == old(cells) + list[..i]
      {
        AddCell(list[i]);
        assert list[..i + 1] == list[..i] + [list[i]];
      }
      assert list[..|list|] == list;
    }

    /** Gives every cell of every complete row the border `width`, row by row
        and cell by cell; nothing else changes. */
    method SetBorders(width: int)
      requires Valid()
      modifies this`cells
      ensures Valid()
      ensures cells == Bordered(old(cells), numColumns, width)
    {
      var rows := |cells| / numColumns;
      var r, start := 0, 0;
      while r < rows
        invariant 0 <= r <= rows && start == r * numColumns
        invariant |cells| == |old(cells)|
        invariant forall i :: 0 <= i < |cells| ==>
          cells[i] == if i < start then old(cells)[i].(border := width) else old(cells)[i]
      {
        RowWithin(r, 0, numColumns, |cells|);
        assert start + numColumns == (r + 1) * numColumns;
        var c := 0;
        while c < numColumns
          invariant 0 <= c <= numColumns
          invariant |cells| == |old(cells)|
          invariant forall i :: 0 <= i < |cells| ==>
            cells[i] == if i < start + c then old(cells)[i].(border := width) else old(cells)[i]
        {
          cells := cells[start + c := cells[start + c].(border := width)];
          c := c + 1;
        }
        r, start := r + 1, start + numColumns;
      }
    }

    /** Sets the relative column widths; refused (a `DocumentException` in the
        library) unless there is exactly one proportion per column. */
    method SetWidths(proportions: seq<int>) returns (ok: bool)
      requires Valid()
      modifies this`widths
      ensures Valid()
      ensures ok <==> |proportions| == numColumns
      ensures widths == if ok then proportions else old(widths)
    {
      ok := |proportions| == numColumns;
      if ok {
        widths := proportions;
      }
    }

    /** Declares how many leading rows repeat on each page; a negative count means none. */
    method SetHeaderRows(count: int)
      requires Valid()
      modifies this`headerRows
      ensures Valid()
      ensures headerRows == if count < 0 then 0 else count
    {
      headerRows := if count < 0 then 0 else count;
    }
  }
}
