/**
 * The row scan of the product-list upload: which cell of each row of a
 * sheet becomes an entry of the product list.
 */
module Sheet {
  import opened Wrappers
  import opened Text
  import opened Seqs

  /**
   * A cell value as the spreadsheet library hands it over. A number carries
   * the string JavaScript's `String(val)` gives for it.
   */
  datatype Cell = Str(text: string) | Number(shown: string) | Boolean(flag: bool)

  /**
   * A row as the spreadsheet library returns it with `header: 1`; `None` is a hole
   * (an empty cell). Index 0 is the first column of the sheet's used range,
   * which is the sheet's column A only when that range starts there.
   */
  type Row = seq<Option<Cell>>

  /** `String(val)`. */
  function CellString(c: Cell): string
  {
    match c
    case Str(text) => text
    case Number(shown) => shown
    case Boolean(flag) => if flag then "true" else "false"
  }

  /**
   * What one row contributes: the trimmed string of its cell at `col`, when
   * that cell is defined and the trimmed string is not empty.
   */
  function Picked(row: Row, col: nat): (r: Option<string>)
    ensures r.Some? ==> r.value != "" && IsTrimmed(r.value)
    ensures r.Some? <==> col < |row| && row[col].Some? && Trim(CellString(row[col].value)) != ""
  {
    if col < |row| && row[col].Some? then
      var strVal := Trim(CellString(row[col].value));
      if strVal != "" then Some(strVal) else None
    else
      None
  }

  /**
   * The product list of a sheet: the rows' contributions in row order.
   * Duplicates and a header row are kept; every entry is a non-empty
   * trimmed string and there is at most one per row.
   */
  function Extracted(rows: seq<Row>, col: nat): seq<string>
  {
    FilterMap(rows, row => Picked(row, col))
  }

  /** At most one entry per row, and every entry is a non-empty trimmed string. */
  lemma ExtractedEntries(rows: seq<Row>, col: nat)
    ensures |Extracted(rows, col)| <= |rows|
    ensures forall k :: 0 <= k < |Extracted(rows, col)| ==>
              Extracted(rows, col)[k] != "" && IsTrimmed(Extracted(rows, col)[k])
  {
    var list := Extracted(rows, col);
    forall k | 0 <= k < |list|
      ensures list[k] != "" && IsTrimmed(list[k])
    {
      FilterMapMembership(rows, row => Picked(row, col), list[k]);
    }
  }

  /** The loop of the upload handler that builds the product list with `push`. */
  method ExtractColumn(rows: seq<Row>, colIndex: nat) returns (productList: seq<string>)
    ensures productList == Extracted(rows, colIndex)
  {
    productList := [];
    for i := 0 to |rows|
      invariant productList == FilterMap(rows[..i], row => Picked(row, colIndex))
    {
      assert rows[..i + 1][..i] == rows[..i];
      var row := rows[i];
      if colIndex < |row| && row[colIndex].Some? {
        var strVal := Trim(CellString(row[colIndex].value));
        if strVal != "" {
          productList := productList + [strVal];
        }
      }
    }
    assert rows[..|rows|] == rows;
  }

  /** Scanning two blocks of rows in turn gives the two lists one after the other. */
  lemma ExtractedAppend(a: seq<Row>, b: seq<Row>, col: nat)
    ensures Extracted(a + b, col) == Extracted(a, col) + Extracted(b, col)
  {
    FilterMapAppend(a, b, row => Picked(row, col));
  }

  /** The list has one entry per row whose cell in the column is defined and not blank. */
  lemma ExtractedLength(rows: seq<Row>, col: nat)
    ensures |Extracted(rows, col)| == CountPicked(rows, row => Picked(row, col))
  {
    FilterMapLength(rows, row => Picked(row, col));
  }

  /** A string is in the list exactly when some row contributes it. */
  lemma ExtractedMembership(rows: seq<Row>, col: nat, x: string)
    ensures x in Extracted(rows, col) <==> exists i :: 0 <= i < |rows| && Picked(rows[i], col) == Some(x)
  {
    FilterMapMembership(rows, row => Picked(row, col), x);
  }

  function TextRow(text: string): Row
  {
    [Some(Str(text))]
  }

  lemma ExtractedSingle(row: Row, col: nat)
    ensures Extracted([row], col) == match Picked(row, col) case Some(v) => [v] case None => []
  {
    assert [row][..0] == [];
  }

  /** A text cell is kept as it is when it is already trimmed and not blank, and dropped when blank. */
  lemma PickedText(text: string)
    requires IsTrimmed(text)
    ensures Picked(TextRow(text), 0) == if text == "" then None else Some(text)
  {
    TrimmedIsFixed(text);
  }

  /**
   * A blank row is skipped and a repeated value is kept: rows contributing
   * `x`, `y`, nothing and `x` again give `[x, y, x]`.
   */
  lemma BlankDroppedRepeatKept(first: Row, second: Row, blank: Row, col: nat)
    requires Picked(first, col).Some? && Picked(second, col).Some? && Picked(blank, col).None?
    ensures Extracted([first, second, blank, first], col)
            == [Picked(first, col).value, Picked(second, col).value, Picked(first, col).value]
  {
    FilterMapSkipRepeat(first, second, blank, (row: Row) => Picked(row, col));
  }

  /** A single row with a text cell contributes the text when it is trimmed and not blank, and nothing when blank. */
  lemma ExtractedOne(text: string)
    requires IsTrimmed(text)
    ensures Extracted([TextRow(text)], 0) == if text == "" then [] else [text]
  {
    PickedText(text);
    ExtractedSingle(TextRow(text), 0);
  }

  /** Column A holding "Widget", "Gadget", a blank cell and "Widget" again. */
  lemma WidgetExample()
    ensures Extracted([TextRow("Widget"), TextRow("Gadget"), TextRow(""), TextRow("Widget")], 0)
            == ["Widget", "Gadget", "Widget"]
  {
    PickedText("Widget");
    PickedText("Gadget");
    PickedText("");
    BlankDroppedRepeatKept(TextRow("Widget"), TextRow("Gadget"), TextRow(""), 0);
  }
}
