// The grid logic of the template writer (src/pdf2xlsx_enterprise/xlsx_writer.py):
// find the header row of the template sheet, map each header label to its
// column, clear the old data below it and write one item per row.
module XlsxWriter {
  import opened Types
  import opened Text

  // ---------------------------------------------------------------------
  // Cells, mappings and options

  /**
   * The cells of a worksheet, keyed by 1-based (row, column). A key that is
   * absent is a cell whose value is None; a present key holds the text of
   * the cell's value.
   */
  type Cells = map<(int, int), string>

  /** A mapping from template column label to `LineItem` attribute, in dict order. */
  type Mapping = seq<(string, string)>

  /** `DEFAULT_MAPPING` (xlsx_writer.py:10-19). */
  const DefaultMapping: Mapping := [
    ("Číslo produktu", "product_number"),
    ("Označení produktu", "product_name"),
    ("Celní kód zboží", "customs_code"),
    ("Hmotnost v gramech", "weight_g"),
    ("Dodané množství", "delivered_qty"),
    ("Čistá cena za jednotku", "net_unit_price"),
    ("Celková cena za množství produktu", "total_price")]

  /** The default `scan_rows` of `_find_header_row` (xlsx_writer.py:21). */
  const DefaultScanRows := 50

  /** The labels of a dict are distinct. */
  predicate DistinctKeys(m: Mapping) {
    forall i, j :: 0 <= i < j < |m| ==> m[i].0 != m[j].0
  }

  /** `list(mapping.keys())` (xlsx_writer.py:34). */
  function Labels(m: Mapping): (hs: seq<string>)
    ensures |hs| == |m|
    ensures forall i :: 0 <= i < |m| ==> hs[i] == m[i].0
  {
    seq(|m|, i requires 0 <= i < |m| => m[i].0)
  }

  /** Every default label maps to a distinct `LineItem` field. */
  lemma DefaultMappingWellFormed()
    ensures |DefaultMapping| == 7 && DistinctKeys(DefaultMapping)
    ensures forall i :: 0 <= i < |DefaultMapping| ==> DefaultMapping[i].1 in FieldNames
  {
  }

  /** The value of `clear_existing` in the options: missing, JSON null, or a flag. */
  datatype Setting = Unset | Null | Flag(on: bool)

  /**
   * The options `write_items_to_template` reads. For `sheet_name` and
   * `mapping`, None stands both for a missing key and for a null value, which
   * `or` treats alike; `clear_existing` keeps the two apart, because its
   * default applies only to a missing key.
   */
  datatype WriteOptions = WriteOptions(
    sheetName: Option<string>,
    mapping: Option<Mapping>,
    clearExisting: Setting)

  /** `options.get("sheet_name") or wb.sheetnames[0]` (xlsx_writer.py:30). */
  function ChosenSheet(options: WriteOptions, sheetNames: seq<string>): (name: string)
    requires sheetNames != []
    ensures Truthy(options.sheetName) ==> name == options.sheetName.value
    ensures !Truthy(options.sheetName) ==> name == sheetNames[0]
  {
    if Truthy(options.sheetName) then options.sheetName.value else sheetNames[0]
  }

  /** `options.get("mapping") or DEFAULT_MAPPING` (xlsx_writer.py:33). */
  function ChosenMapping(options: WriteOptions): (m: Mapping)
    ensures m != []
    ensures options.mapping.Some? && options.mapping.value != [] ==> m == options.mapping.value
    ensures options.mapping.None? || options.mapping.value == [] ==> m == DefaultMapping
  {
    if options.mapping.Some? && options.mapping.value != [] then options.mapping.value else DefaultMapping
  }

  /**
   * `options.get("clear_existing", True)` as the condition of an `if`
   * (xlsx_writer.py:51): true when the key is missing, false when it is null.
   */
  function ClearRequested(options: WriteOptions): (clear: bool)
    ensures clear <==> options.clearExisting == Unset || options.clearExisting == Flag(true)
  {
    match options.clearExisting
    case Unset => true
    case Null => false
    case Flag(on) => on
  }

  /** The `ValueError` message when no header row is found (xlsx_writer.py:38). */
  function NoHeaderMessage(sheetName: string, headers: seq<string>): string {
    "Cannot find header row with required headers in sheet '" + sheetName + "'. Required: " + ListRepr(headers)
  }

  // ---------------------------------------------------------------------
  // The header row (xlsx_writer.py:21-26)

  function Get(cells: Cells, r: int, c: int): Option<string> {
    if (r, c) in cells then Some(cells[(r, c)]) else None
  }

  /** `str(c.value).strip() if c.value is not None else ""`. */
  function CellText(cells: Cells, r: int, c: int): string {
    if (r, c) in cells then Strip(cells[(r, c)]) else ""
  }

  /** `row_vals`: the texts of row `r`, columns 1 to `maxColumn`. */
  function RowValues(cells: Cells, maxColumn: nat, r: int): (vals: seq<string>)
    ensures |vals| == maxColumn
  {
    seq(maxColumn, i requires 0 <= i < maxColumn => CellText(cells, r, i + 1))
  }

  /** Row `r` holds every required header. */
  predicate HasHeaders(cells: Cells, maxColumn: nat, r: int, required: seq<string>) {
    forall h :: h in required ==> h in RowValues(cells, maxColumn, r)
  }

  /**
   * `_find_header_row`, from row `r` on: the first row up to `scanRows` that
   * holds every required header, or -1.
   */
  function FindHeaderRowFrom(cells: Cells, maxColumn: nat, required: seq<string>, scanRows: int, r: int): (row: int)
    requires r >= 1
    ensures row == -1 || r <= row <= scanRows
    decreases scanRows - r
  {
    if r > scanRows then -1
    else if HasHeaders(cells, maxColumn, r, required) then r
    else FindHeaderRowFrom(cells, maxColumn, required, scanRows, r + 1)
  }

  /** The search finds the first row from `r` that holds every header, or -1 when none does. */
  lemma {:induction false} FindHeaderRowFromSpec(cells: Cells, maxColumn: nat, required: seq<string>, scanRows: int, r: int)
    requires r >= 1
    ensures var row := FindHeaderRowFrom(cells, maxColumn, required, scanRows, r);
            && (row == -1 <==> forall x :: r <= x <= scanRows ==> !HasHeaders(cells, maxColumn, x, required))
            && (row != -1 ==> HasHeaders(cells, maxColumn, row, required))
            && (row != -1 ==> forall x :: r <= x < row ==> !HasHeaders(cells, maxColumn, x, required))
    decreases scanRows - r
  {
    if r <= scanRows && !HasHeaders(cells, maxColumn, r, required) {
      FindHeaderRowFromSpec(cells, maxColumn, required, scanRows, r + 1);
    }
  }

  /** `_find_header_row`: the smallest row in `1..scanRows` holding every required header, or -1. */
  function FindHeaderRow(cells: Cells, maxColumn: nat, required: seq<string>, scanRows: int): int {
    FindHeaderRowFrom(cells, maxColumn, required, scanRows, 1)
  }

  /**
   * `_find_header_row` returns the smallest row in `1..scanRows` holding
   * every required header, and -1 exactly when there is none.
   */
  lemma FindHeaderRowSpec(cells: Cells, maxColumn: nat, required: seq<string>, scanRows: int)
    ensures var row := FindHeaderRow(cells, maxColumn, required, scanRows);
            && (row == -1 <==> forall x :: 1 <= x <= scanRows ==> !HasHeaders(cells, maxColumn, x, required))
            && (row != -1 ==> 1 <= row <= scanRows && HasHeaders(cells, maxColumn, row, required))
            && (row != -1 ==> forall x :: 1 <= x < row ==> !HasHeaders(cells, maxColumn, x, required))
  {
    FindHeaderRowFromSpec(cells, maxColumn, required, scanRows, 1);
  }

  // ---------------------------------------------------------------------
  // The header -> column map (xlsx_writer.py:41-46)

  /**
   * What `header_to_col` holds after the first `c` cells `vals` of the header
   * row: a later column holding the same label replaces an earlier one.
   */
  function ColumnsUpTo(vals: seq<string>, m: Mapping, c: nat): map<string, int>
    requires c <= |vals|
  {
    if c == 0 then map[]
    else
      var col := ColumnsUpTo(vals, m, c - 1);
      if vals[c - 1] in Labels(m) then col[vals[c - 1] := c] else col
  }

  /** `header_to_col` for the header row texts `vals`. */
  function HeaderColumns(vals: seq<string>, m: Mapping): map<string, int> {
    ColumnsUpTo(vals, m, |vals|)
  }

  /**
   * After `c` cells, the map holds the labels among them, each at the
   * rightmost of those cells that holds it.
   */
  lemma {:induction false} ColumnsUpToSpec(vals: seq<string>, m: Mapping, c: nat)
    requires c <= |vals|
    ensures forall h :: h in ColumnsUpTo(vals, m, c) <==> h in Labels(m) && h in vals[..c]
    ensures forall h :: h in ColumnsUpTo(vals, m, c) ==>
              1 <= ColumnsUpTo(vals, m, c)[h] <= c && vals[ColumnsUpTo(vals, m, c)[h] - 1] == h &&
              forall x :: ColumnsUpTo(vals, m, c)[h] <= x < c ==> vals[x] != h
  {
    if c > 0 {
      ColumnsUpToSpec(vals, m, c - 1);
      var prev := ColumnsUpTo(vals, m, c - 1);
      var cur := ColumnsUpTo(vals, m, c);
      assert vals[..c] == vals[..c - 1] + [vals[c - 1]];
      forall h | h in cur
        ensures 1 <= cur[h] <= c && vals[cur[h] - 1] == h
        ensures forall x :: cur[h] <= x < c ==> vals[x] != h
      {
        if h != vals[c - 1] {
          assert h in prev && cur[h] == prev[h];
        }
      }
    }
  }

  /** Which labels `header_to_col` holds, and that each maps to its rightmost column. */
  lemma HeaderColumnsSpec(vals: seq<string>, m: Mapping)
    ensures forall h :: h in HeaderColumns(vals, m) <==> h in Labels(m) && h in vals
    ensures forall h :: h in HeaderColumns(vals, m) ==>
              var c := HeaderColumns(vals, m)[h];
              1 <= c <= |vals| && vals[c - 1] == h &&
              forall x :: c <= x < |vals| ==> vals[x] != h
  {
    assert vals[..|vals|] == vals;
    ColumnsUpToSpec(vals, m, |vals|);
  }

  /** Labels found in the header row map to distinct columns. */
  lemma HeaderColumnsDistinct(vals: seq<string>, m: Mapping, g: string, h: string)
    requires g in HeaderColumns(vals, m) && h in HeaderColumns(vals, m) && g != h
    ensures HeaderColumns(vals, m)[g] != HeaderColumns(vals, m)[h]
  {
    HeaderColumnsSpec(vals, m);
  }

  /** In the header row found for the labels of `m`, every label has a column. */
  lemma HeaderRowMapsEveryLabel(cells: Cells, maxColumn: nat, m: Mapping)
    requires HeaderRowOf(cells, maxColumn, m) != -1
    ensures forall h :: h in Labels(m) ==> h in ColumnsOfMapping(cells, maxColumn, m)
  {
    FindHeaderRowSpec(cells, maxColumn, Labels(m), DefaultScanRows);
    HeaderColumnsSpec(RowValues(cells, maxColumn, HeaderRowOf(cells, maxColumn, m)), m);
  }

  /** The header row found for `m`, when there is one. */
  function HeaderRowOf(cells: Cells, maxColumn: nat, m: Mapping): int {
    FindHeaderRow(cells, maxColumn, Labels(m), DefaultScanRows)
  }

  /** The columns `header_to_col` assigns to the labels of `m` in that row. */
  function ColumnsOfMapping(cells: Cells, maxColumn: nat, m: Mapping): map<string, int> {
    HeaderColumns(RowValues(cells, maxColumn, HeaderRowOf(cells, maxColumn, m)), m)
  }

  // ---------------------------------------------------------------------
  // Clearing the old data (xlsx_writer.py:50-58)

  /** The cell the clear loop compares with `None` and `""` (`ws.cell(r, first_col).value`). */
  predicate EmptyAt(cells: Cells, r: int, c: int) {
    (r, c) !in cells || cells[(r, c)] == ""
  }

  /** The columns of the labels `hs`. */
  function ColumnsOf(hs: seq<string>, col: map<string, int>): set<int> {
    set h | h in hs && h in col :: col[h]
  }

  /** `for h in headers: ws.cell(r, header_to_col[h]).value = None`. */
  function ClearRow(cells: Cells, hs: seq<string>, col: map<string, int>, r: int): Cells
    requires forall h :: h in hs ==> h in col
  {
    if hs == [] then cells else ClearRow(cells - {(r, col[hs[0]])}, hs[1..], col, r)
  }

  /** The clear loop from row `r`: stop past `maxRow` or at an empty first-column cell. */
  function ClearFrom(cells: Cells, hs: seq<string>, col: map<string, int>, firstCol: int, r: int, maxRow: int): Cells
    requires forall h :: h in hs ==> h in col
    decreases maxRow - r
  {
    if r > maxRow || EmptyAt(cells, r, firstCol) then cells
    else ClearFrom(ClearRow(cells, hs, col, r), hs, col, firstCol, r + 1, maxRow)
  }

  /** The row where the clear loop stops. */
  function ClearEnd(cells: Cells, firstCol: int, r: int, maxRow: int): (e: int)
    ensures e >= r
    ensures e > maxRow || EmptyAt(cells, e, firstCol)
    ensures e <= maxRow + 1 || e == r
    ensures forall x :: r <= x < e ==> x <= maxRow && !EmptyAt(cells, x, firstCol)
    decreases maxRow - r
  {
    if r > maxRow || EmptyAt(cells, r, firstCol) then r else ClearEnd(cells, firstCol, r + 1, maxRow)
  }

  /** `cells` with the columns `cols` of rows `lo` to `hi - 1` set to None. */
  function Cleared(cells: Cells, cols: set<int>, lo: int, hi: int): Cells {
    map k | k in cells && !(lo <= k.0 < hi && k.1 in cols) :: cells[k]
  }

  lemma {:induction false} ClearRowIsCleared(cells: Cells, hs: seq<string>, col: map<string, int>, r: int)
    requires forall h :: h in hs ==> h in col
    ensures ClearRow(cells, hs, col, r) == Cleared(cells, ColumnsOf(hs, col), r, r + 1)
    decreases |hs|
  {
    if hs == [] {
      assert Cleared(cells, ColumnsOf(hs, col), r, r + 1) == cells;
    } else {
      var next := cells - {(r, col[hs[0]])};
      ClearRowIsCleared(next, hs[1..], col, r);
      assert ColumnsOf(hs, col) == {col[hs[0]]} + ColumnsOf(hs[1..], col);
      assert Cleared(next, ColumnsOf(hs[1..], col), r, r + 1) == Cleared(cells, ColumnsOf(hs, col), r, r + 1);
    }
  }

  /** Clearing a row leaves the cells of the rows below it as they were. */
  lemma ClearEndIgnoresRowsAbove(cells: Cells, cells': Cells, firstCol: int, r: int, maxRow: int)
    requires forall k: (int, int) :: k.0 >= r ==> (k in cells <==> k in cells') && (k in cells ==> cells[k] == cells'[k])
    ensures ClearEnd(cells, firstCol, r, maxRow) == ClearEnd(cells', firstCol, r, maxRow)
    decreases maxRow - r
  {
    if !(r > maxRow || EmptyAt(cells, r, firstCol)) {
      ClearEndIgnoresRowsAbove(cells, cells', firstCol, r + 1, maxRow);
    }
  }

  /**
   * The clear loop sets the mapped columns of the rows from `r` up to where
   * it stops to None and changes nothing else.
   */
  lemma {:induction false} ClearFromIsCleared(cells: Cells, hs: seq<string>, col: map<string, int>, firstCol: int, r: int, maxRow: int)
    requires forall h :: h in hs ==> h in col
    ensures ClearFrom(cells, hs, col, firstCol, r, maxRow) == Cleared(cells, ColumnsOf(hs, col), r, ClearEnd(cells, firstCol, r, maxRow))
    decreases maxRow - r
  {
    var cols := ColumnsOf(hs, col);
    if r > maxRow || EmptyAt(cells, r, firstCol) {
      assert Cleared(cells, cols, r, r) == cells;
    } else {
      var next := ClearRow(cells, hs, col, r);
      ClearRowIsCleared(cells, hs, col, r);
      ClearFromIsCleared(next, hs, col, firstCol, r + 1, maxRow);
      ClearEndIgnoresRowsAbove(next, cells, firstCol, r + 1, maxRow);
      var e := ClearEnd(cells, firstCol, r, maxRow);
      assert Cleared(Cleared(cells, cols, r, r + 1), cols, r + 1, e) == Cleared(cells, cols, r, e);
    }
  }

  // ---------------------------------------------------------------------
  // Writing the items (xlsx_writer.py:60-66)

  /** Every label of `m` has a column. */
  predicate Mapped(m: Mapping, col: map<string, int>) {
    forall i :: 0 <= i < |m| ==> m[i].0 in col
  }

  /** Distinct labels of `m` have distinct columns. */
  predicate ColumnsDistinct(m: Mapping, col: map<string, int>)
    requires Mapped(m, col)
  {
    forall i, j :: 0 <= i < j < |m| ==> col[m[i].0] != col[m[j].0]
  }

  /** The columns the mapping writes. */
  function MappedColumns(m: Mapping, col: map<string, int>): set<int>
    requires Mapped(m, col)
  {
    set i | 0 <= i < |m| :: col[m[i].0]
  }

  /** `for h, attr in mapping.items(): ws.cell(r, header_to_col[h]).value = getattr(it, attr, "")`. */
  function WriteRow(cells: Cells, item: LineItem, m: Mapping, col: map<string, int>, r: int): Cells
    requires Mapped(m, col)
    decreases |m|
  {
    if m == [] then cells
    else WriteRow(cells[(r, col[m[0].0]) := FieldByName(item, m[0].1)], item, m[1..], col, r)
  }

  /** The write loop: item `i` goes to row `r + i`. */
  function WriteAll(cells: Cells, items: seq<LineItem>, m: Mapping, col: map<string, int>, r: int): Cells
    requires Mapped(m, col)
    decreases |items|
  {
    if items == [] then cells
    else WriteAll(WriteRow(cells, items[0], m, col, r), items[1..], m, col, r + 1)
  }

  /** Writing one row sets each mapped column of it to the item's field and changes nothing else. */
  lemma {:induction false} WriteRowSpec(cells: Cells, item: LineItem, m: Mapping, col: map<string, int>, r: int)
    requires Mapped(m, col) && ColumnsDistinct(m, col)
    ensures forall j :: 0 <= j < |m| ==> Get(WriteRow(cells, item, m, col, r), r, col[m[j].0]) == Some(FieldByName(item, m[j].1))
    ensures forall x, c :: (x != r || c !in MappedColumns(m, col)) ==> Get(WriteRow(cells, item, m, col, r), x, c) == Get(cells, x, c)
    decreases |m|
  {
    if m != [] {
      var next := cells[(r, col[m[0].0]) := FieldByName(item, m[0].1)];
      var rest := m[1..];
      assert Mapped(rest, col);
      WriteRowSpec(next, item, rest, col, r);
      assert MappedColumns(m, col) == {col[m[0].0]} + MappedColumns(rest, col);
      forall j | 0 <= j < |m|
        ensures Get(WriteRow(cells, item, m, col, r), r, col[m[j].0]) == Some(FieldByName(item, m[j].1))
      {
        if j > 0 {
          assert m[j] == rest[j - 1];
        } else {
          assert forall i :: 0 <= i < |rest| ==> col[rest[i].0] != col[m[0].0] by {
            forall i | 0 <= i < |rest| ensures col[rest[i].0] != col[m[0].0] {
              assert rest[i] == m[i + 1];
            }
          }
        }
      }
    }
  }

  /**
   * The write loop puts field `attr` of item `i` in row `r + i`, column of
   * `attr`'s label, and changes no other cell.
   */
  lemma {:induction false} WriteAllSpec(cells: Cells, items: seq<LineItem>, m: Mapping, col: map<string, int>, r: int)
    requires Mapped(m, col) && ColumnsDistinct(m, col)
    ensures forall i, j :: 0 <= i < |items| && 0 <= j < |m| ==>
              Get(WriteAll(cells, items, m, col, r), r + i, col[m[j].0]) == Some(FieldByName(items[i], m[j].1))
    ensures forall x, c :: (x < r || x >= r + |items| || c !in MappedColumns(m, col)) ==>
              Get(WriteAll(cells, items, m, col, r), x, c) == Get(cells, x, c)
    decreases |items|
  {
    if items != [] {
      var next := WriteRow(cells, items[0], m, col, r);
      WriteRowSpec(cells, items[0], m, col, r);
      WriteAllSpec(next, items[1..], m, col, r + 1);
      forall i, j | 0 <= i < |items| && 0 <= j < |m|
        ensures Get(WriteAll(cells, items, m, col, r), r + i, col[m[j].0]) == Some(FieldByName(items[i], m[j].1))
      {
        if i > 0 {
          assert items[i] == items[1..][i - 1];
          assert r + i == (r + 1) + (i - 1);
        }
      }
    }
  }

  lemma WriteAllCell(cells: Cells, items: seq<LineItem>, m: Mapping, col: map<string, int>, r: int, i: int, j: int)
    requires Mapped(m, col) && ColumnsDistinct(m, col)
    requires 0 <= i < |items| && 0 <= j < |m|
    ensures Get(WriteAll(cells, items, m, col, r), r + i, col[m[j].0]) == Some(FieldByName(items[i], m[j].1))
  {
    WriteAllSpec(cells, items, m, col, r);
  }

  // ---------------------------------------------------------------------
  // The whole write (xlsx_writer.py:28-69)

  /** The optional clear loop, from row `start` (xlsx_writer.py:51-58). */
  function AfterClear(cells: Cells, m: Mapping, col: map<string, int>, start: int, maxRow: int, clear: bool): Cells
    requires m != [] && Mapped(m, col)
  {
    if clear then ClearFrom(cells, Labels(m), col, col[m[0].0], start, maxRow) else cells
  }

  /**
   * The clear touches only mapped columns from row `start` on; with clearing
   * on, it empties them down to the row where the loop stops, and no further.
   */
  lemma AfterClearSpec(cells: Cells, m: Mapping, col: map<string, int>, start: int, maxRow: int, clear: bool)
    requires m != [] && Mapped(m, col)
    ensures forall x, c :: (x < start || c !in MappedColumns(m, col)) ==>
              Get(AfterClear(cells, m, col, start, maxRow, clear), x, c) == Get(cells, x, c)
    ensures clear ==> forall x, c :: x >= ClearEnd(cells, col[m[0].0], start, maxRow) ==>
              Get(AfterClear(cells, m, col, start, maxRow, clear), x, c) == Get(cells, x, c)
    ensures clear ==> forall x, j :: start <= x < ClearEnd(cells, col[m[0].0], start, maxRow) && 0 <= j < |m| ==>
              Get(AfterClear(cells, m, col, start, maxRow, clear), x, col[m[j].0]) == None
    ensures !clear ==> AfterClear(cells, m, col, start, maxRow, clear) == cells
  {
    if clear {
      ClearFromIsCleared(cells, Labels(m), col, col[m[0].0], start, maxRow);
      assert ColumnsOf(Labels(m), col) == MappedColumns(m, col);
    }
  }

  /**
   * The cells after `write_items_to_template`, or None when the sheet has no
   * header row (the `ValueError` of xlsx_writer.py:37-38).
   */
  function TemplateWrite(cells: Cells, maxRow: int, maxColumn: nat, items: seq<LineItem>, m: Mapping, clear: bool): Option<Cells>
    requires m != [] && DistinctKeys(m)
  {
    var hr := HeaderRowOf(cells, maxColumn, m);
    if hr == -1 then None
    else
      var col := ColumnsOfMapping(cells, maxColumn, m);
      MappingColumns(cells, maxColumn, m);
      Some(WriteAll(AfterClear(cells, m, col, hr + 1, maxRow, clear), items, m, col, hr + 1))
  }

  /** With a header row, every label has a column, and distinct labels distinct columns. */
  lemma MappingColumns(cells: Cells, maxColumn: nat, m: Mapping)
    requires DistinctKeys(m) && HeaderRowOf(cells, maxColumn, m) != -1
    ensures Mapped(m, ColumnsOfMapping(cells, maxColumn, m))
    ensures ColumnsDistinct(m, ColumnsOfMapping(cells, maxColumn, m))
  {
    var vals := RowValues(cells, maxColumn, HeaderRowOf(cells, maxColumn, m));
    HeaderRowMapsEveryLabel(cells, maxColumn, m);
    forall i, j | 0 <= i < j < |m|
      ensures ColumnsOfMapping(cells, maxColumn, m)[m[i].0] != ColumnsOfMapping(cells, maxColumn, m)[m[j].0]
    {
      assert m[i].0 in Labels(m) && m[j].0 in Labels(m);
      HeaderColumnsDistinct(vals, m, m[i].0, m[j].0);
    }
  }

  /**
   * The write fails exactly when no row in `1..50` holds every label; it then
   * writes nothing.
   */
  lemma TemplateWriteFails(cells: Cells, maxRow: int, maxColumn: nat, items: seq<LineItem>, m: Mapping, clear: bool)
    requires m != [] && DistinctKeys(m)
    ensures TemplateWrite(cells, maxRow, maxColumn, items, m, clear).None? <==>
              forall x :: 1 <= x <= DefaultScanRows ==> !HasHeaders(cells, maxColumn, x, Labels(m))
  {
    FindHeaderRowSpec(cells, maxColumn, Labels(m), DefaultScanRows);
  }

  /** With a header row, the write is the clear followed by the write loop. */
  lemma TemplateWriteSteps(cells: Cells, maxRow: int, maxColumn: nat, items: seq<LineItem>, m: Mapping, clear: bool)
    requires m != [] && DistinctKeys(m)
    requires TemplateWrite(cells, maxRow, maxColumn, items, m, clear).Some?
    ensures HeaderRowOf(cells, maxColumn, m) >= 1
    ensures Mapped(m, ColumnsOfMapping(cells, maxColumn, m)) && ColumnsDistinct(m, ColumnsOfMapping(cells, maxColumn, m))
    ensures TemplateWrite(cells, maxRow, maxColumn, items, m, clear).value ==
            WriteAll(AfterClear(cells, m, ColumnsOfMapping(cells, maxColumn, m), HeaderRowOf(cells, maxColumn, m) + 1, maxRow, clear),
                     items, m, ColumnsOfMapping(cells, maxColumn, m), HeaderRowOf(cells, maxColumn, m) + 1)
  {
    MappingColumns(cells, maxColumn, m);
  }

  /**
   * Item `i` lands in row `header_row + 1 + i`, each mapped column holding the
   * item's field for that column's label.
   */
  lemma TemplateWriteItems(cells: Cells, maxRow: int, maxColumn: nat, items: seq<LineItem>, m: Mapping, clear: bool)
    requires m != [] && DistinctKeys(m)
    requires TemplateWrite(cells, maxRow, maxColumn, items, m, clear).Some?
    ensures Mapped(m, ColumnsOfMapping(cells, maxColumn, m))
    ensures forall i, j :: 0 <= i < |items| && 0 <= j < |m| ==>
              Get(TemplateWrite(cells, maxRow, maxColumn, items, m, clear).value,
                  HeaderRowOf(cells, maxColumn, m) + 1 + i, ColumnsOfMapping(cells, maxColumn, m)[m[j].0])
              == Some(FieldByName(items[i], m[j].1))
  {
    TemplateWriteSteps(cells, maxRow, maxColumn, items, m, clear);
    forall i, j | 0 <= i < |items| && 0 <= j < |m|
      ensures Get(TemplateWrite(cells, maxRow, maxColumn, items, m, clear).value,
                  HeaderRowOf(cells, maxColumn, m) + 1 + i, ColumnsOfMapping(cells, maxColumn, m)[m[j].0])
              == Some(FieldByName(items[i], m[j].1))
    {
      TemplateWriteCell(cells, maxRow, maxColumn, items, m, clear, i, j);
    }
  }

  lemma TemplateWriteCell(cells: Cells, maxRow: int, maxColumn: nat, items: seq<LineItem>, m: Mapping, clear: bool, i: int, j: int)
    requires m != [] && DistinctKeys(m)
    requires TemplateWrite(cells, maxRow, maxColumn, items, m, clear).Some?
    requires 0 <= i < |items| && 0 <= j < |m|
    ensures Mapped(m, ColumnsOfMapping(cells, maxColumn, m))
    ensures Get(TemplateWrite(cells, maxRow, maxColumn, items, m, clear).value,
                HeaderRowOf(cells, maxColumn, m) + 1 + i, ColumnsOfMapping(cells, maxColumn, m)[m[j].0])
            == Some(FieldByName(items[i], m[j].1))
  {
    TemplateWriteSteps(cells, maxRow, maxColumn, items, m, clear);
    var hr := HeaderRowOf(cells, maxColumn, m);
    var col := ColumnsOfMapping(cells, maxColumn, m);
    WriteAllCell(AfterClear(cells, m, col, hr + 1, maxRow, clear), items, m, col, hr + 1, i, j);
  }

  /** Cells at or above the header row and cells in unmapped columns are as they were. */
  lemma TemplateWriteFrame(cells: Cells, maxRow: int, maxColumn: nat, items: seq<LineItem>, m: Mapping, clear: bool)
    requires m != [] && DistinctKeys(m)
    requires TemplateWrite(cells, maxRow, maxColumn, items, m, clear).Some?
    ensures Mapped(m, ColumnsOfMapping(cells, maxColumn, m))
    ensures forall x, c :: (x <= HeaderRowOf(cells, maxColumn, m) || c !in MappedColumns(m, ColumnsOfMapping(cells, maxColumn, m))) ==>
              Get(TemplateWrite(cells, maxRow, maxColumn, items, m, clear).value, x, c) == Get(cells, x, c)
  {
    TemplateWriteSteps(cells, maxRow, maxColumn, items, m, clear);
    var hr := HeaderRowOf(cells, maxColumn, m);
    var col := ColumnsOfMapping(cells, maxColumn, m);
    AfterClearSpec(cells, m, col, hr + 1, maxRow, clear);
    WriteAllSpec(AfterClear(cells, m, col, hr + 1, maxRow, clear), items, m, col, hr + 1);
  }

  /**
   * With clearing on, the mapped cells of the old rows below the header, down
   * to the first row whose first mapped column is empty (and no further than
   * `maxRow`), are empty unless an item is written over them; the rows from
   * there on keep what the items do not overwrite.
   */
  lemma TemplateWriteClears(cells: Cells, maxRow: int, maxColumn: nat, items: seq<LineItem>, m: Mapping)
    requires m != [] && DistinctKeys(m)
    requires TemplateWrite(cells, maxRow, maxColumn, items, m, true).Some?
    ensures Mapped(m, ColumnsOfMapping(cells, maxColumn, m))
    ensures forall x, j ::
              HeaderRowOf(cells, maxColumn, m) + 1 + |items| <= x <
                ClearEnd(cells, ColumnsOfMapping(cells, maxColumn, m)[m[0].0], HeaderRowOf(cells, maxColumn, m) + 1, maxRow) &&
              0 <= j < |m| ==>
              Get(TemplateWrite(cells, maxRow, maxColumn, items, m, true).value, x, ColumnsOfMapping(cells, maxColumn, m)[m[j].0]) == None
  {
    TemplateWriteSteps(cells, maxRow, maxColumn, items, m, true);
    var hr := HeaderRowOf(cells, maxColumn, m);
    var col := ColumnsOfMapping(cells, maxColumn, m);
    var cleared := AfterClear(cells, m, col, hr + 1, maxRow, true);
    var out := TemplateWrite(cells, maxRow, maxColumn, items, m, true).value;
    AfterClearSpec(cells, m, col, hr + 1, maxRow, true);
    WriteAllSpec(cleared, items, m, col, hr + 1);
    forall x, j | hr + 1 + |items| <= x < ClearEnd(cells, col[m[0].0], hr + 1, maxRow) && 0 <= j < |m|
      ensures Get(out, x, col[m[j].0]) == None
    {
      assert Get(out, x, col[m[j].0]) == Get(cleared, x, col[m[j].0]);
    }
  }

  /**
   * With `clear_existing` missing from the options, the write clears: the old
   * mapped cells below the new items, down to where the clear loop stops, end
   * up empty (xlsx_writer.py:51-58).
   */
  lemma DefaultOptionsClear(cells: Cells, maxRow: int, maxColumn: nat, items: seq<LineItem>, options: WriteOptions)
    requires options.clearExisting == Unset && DistinctKeys(ChosenMapping(options))
    requires TemplateWrite(cells, maxRow, maxColumn, items, ChosenMapping(options), ClearRequested(options)).Some?
    ensures var m := ChosenMapping(options);
            var hr := HeaderRowOf(cells, maxColumn, m);
            var col := ColumnsOfMapping(cells, maxColumn, m);
            && Mapped(m, col)
            && forall x, j :: hr + 1 + |items| <= x < ClearEnd(cells, col[m[0].0], hr + 1, maxRow) && 0 <= j < |m| ==>
                 Get(TemplateWrite(cells, maxRow, maxColumn, items, m, ClearRequested(options)).value, x, col[m[j].0]) == None
  {
    TemplateWriteClears(cells, maxRow, maxColumn, items, ChosenMapping(options));
  }

  /**
   * With `clear_existing` null or false, nothing is cleared: every cell outside
   * the rows the items are written to keeps its old value (xlsx_writer.py:51, 60-66).
   */
  lemma NoClearKeepsOtherRows(cells: Cells, maxRow: int, maxColumn: nat, items: seq<LineItem>, options: WriteOptions)
    requires (options.clearExisting == Null || options.clearExisting == Flag(false)) && DistinctKeys(ChosenMapping(options))
    requires TemplateWrite(cells, maxRow, maxColumn, items, ChosenMapping(options), ClearRequested(options)).Some?
    ensures var m := ChosenMapping(options);
            var hr := HeaderRowOf(cells, maxColumn, m);
            forall x, c :: x <= hr || x > hr + |items| ==>
              Get(TemplateWrite(cells, maxRow, maxColumn, items, m, ClearRequested(options)).value, x, c) == Get(cells, x, c)
  {
    assert !ClearRequested(options);
    TemplateWriteKeeps(cells, maxRow, maxColumn, items, ChosenMapping(options));
  }

  /** Without the clear, only the rows the items are written to change. */
  lemma TemplateWriteKeeps(cells: Cells, maxRow: int, maxColumn: nat, items: seq<LineItem>, m: Mapping)
    requires m != [] && DistinctKeys(m)
    requires TemplateWrite(cells, maxRow, maxColumn, items, m, false).Some?
    ensures forall x, c :: x <= HeaderRowOf(cells, maxColumn, m) || x > HeaderRowOf(cells, maxColumn, m) + |items| ==>
              Get(TemplateWrite(cells, maxRow, maxColumn, items, m, false).value, x, c) == Get(cells, x, c)
  {
    TemplateWriteSteps(cells, maxRow, maxColumn, items, m, false);
    var hr := HeaderRowOf(cells, maxColumn, m);
    var col := ColumnsOfMapping(cells, maxColumn, m);
    AfterClearSpec(cells, m, col, hr + 1, maxRow, false);
    WriteAllSpec(cells, items, m, col, hr + 1);
  }

  // ---------------------------------------------------------------------
  // The worksheet, updated in place

  /** An openpyxl worksheet: its cells and its extent. */
  class Worksheet {
    var cells: Cells
    var maxRow: int
    var maxColumn: nat

    /** Every cell lies within the sheet's extent. */
    ghost predicate Valid()
      reads this
    {
      maxRow >= 1 && maxColumn >= 1 &&
      forall k :: k in cells ==> 1 <= k.0 <= maxRow && 1 <= k.1 <= maxColumn
    }

    constructor (cells: Cells, maxRow: int, maxColumn: nat)
      requires maxRow >= 1 && maxColumn >= 1
      requires forall k :: k in cells ==> 1 <= k.0 <= maxRow && 1 <= k.1 <= maxColumn
      ensures Valid() && this.cells == cells && this.maxRow == maxRow && this.maxColumn == maxColumn
    {
      this.cells := cells;
      this.maxRow := maxRow;
      this.maxColumn := maxColumn;
    }

    /** The `header_to_col` loop over the cells of the header row (xlsx_writer.py:41-46). */
    method HeaderToCol(hr: int, m: Mapping) returns (col: map<string, int>)
      ensures col == HeaderColumns(RowValues(cells, maxColumn, hr), m)
    {
      var headerCells := RowValues(cells, maxColumn, hr);
      col := map[];
      var idx := 1;
      while idx <= maxColumn
        invariant 1 <= idx <= maxColumn + 1
        invariant col == ColumnsUpTo(headerCells, m, idx - 1)
      {
        var val := headerCells[idx - 1];
        if val in Labels(m) {
          col := col[val := idx];
        }
        idx := idx + 1;
      }
    }

    /** The clear loop with its `break` (xlsx_writer.py:51-58). */
    method ClearExisting(hs: seq<string>, col: map<string, int>, start: int)
      requires Valid() && hs != [] && forall h :: h in hs ==> h in col
      modifies this
      ensures Valid() && maxRow == old(maxRow) && maxColumn == old(maxColumn)
      ensures cells == ClearFrom(old(cells), hs, col, col[hs[0]], start, maxRow)
    {
      var maxRows := maxRow;
      var firstCol := col[hs[0]];
      var r := start;
      while r <= maxRows
        invariant Valid() && maxRow == maxRows && maxColumn == old(maxColumn)
        invariant ClearFrom(cells, hs, col, firstCol, r, maxRows) == ClearFrom(old(cells), hs, col, firstCol, start, maxRows)
        decreases maxRows - r
      {
        if (r, firstCol) !in cells || cells[(r, firstCol)] == "" {
          break;
        }
        label Row:
        var k := 0;
        while k < |hs|
          invariant 0 <= k <= |hs|
          invariant Valid() && maxRow == maxRows && maxColumn == old(maxColumn)
          invariant ClearRow(cells, hs[k..], col, r) == ClearRow(old@Row(cells), hs, col, r)
        {
          cells := cells - {(r, col[hs[k]])};
          assert hs[k..][1..] == hs[k + 1..];
          k := k + 1;
        }
        r := r + 1;
      }
    }

    /** The write loop (xlsx_writer.py:60-66): item `i` goes to row `start + i`. */
    method WriteItems(items: seq<LineItem>, m: Mapping, col: map<string, int>, start: int)
      requires Valid() && Mapped(m, col) && start >= 1
      requires forall i :: 0 <= i < |m| ==> 1 <= col[m[i].0] <= maxColumn
      modifies this
      ensures Valid() && maxColumn == old(maxColumn)
      ensures maxRow == if items == [] then old(maxRow) else Max(old(maxRow), start + |items| - 1)
      ensures cells == WriteAll(old(cells), items, m, col, start)
    {
      var r := start;
      var i := 0;
      while i < |items|
        invariant 0 <= i <= |items| && r == start + i
        invariant Valid() && maxColumn == old(maxColumn)
        invariant maxRow == if i == 0 then old(maxRow) else Max(old(maxRow), start + i - 1)
        invariant WriteAll(cells, items[i..], m, col, r) == WriteAll(old(cells), items, m, col, start)
      {
        WriteItemRow(items[i], m, col, r);
        assert items[i..][1..] == items[i + 1..];
        r := r + 1;
        i := i + 1;
      }
    }

    /** One pass of the inner loop: the fields of `item` go to row `r`. */
    method WriteItemRow(item: LineItem, m: Mapping, col: map<string, int>, r: int)
      requires Valid() && Mapped(m, col) && r >= 1
      requires forall i :: 0 <= i < |m| ==> 1 <= col[m[i].0] <= maxColumn
      modifies this
      ensures Valid() && maxColumn == old(maxColumn) && maxRow == Max(old(maxRow), r)
      ensures cells == WriteRow(old(cells), item, m, col, r)
    {
      maxRow := Max(maxRow, r);
      var j := 0;
      while j < |m|
        invariant 0 <= j <= |m|
        invariant Valid() && maxColumn == old(maxColumn) && maxRow == Max(old(maxRow), r)
        invariant WriteRow(cells, item, m[j..], col, r) == WriteRow(old(cells), item, m, col, r)
      {
        cells := cells[(r, col[m[j].0]) := FieldByName(item, m[j].1)];
        assert m[j..][1..] == m[j + 1..];
        j := j + 1;
      }
    }
  }

  /**
   * `write_items_to_template` on the sheet the options choose among the
   * workbook's `sheetNames`, given as `ws`: the `ValueError` naming that
   * sheet when no header row is found, before any cell changes; otherwise
   * the optional clear and the write (xlsx_writer.py:28-66).
   */
  method WriteItemsToTemplate(ws: Worksheet, sheetNames: seq<string>, items: seq<LineItem>, options: WriteOptions)
    returns (res: Result<(), string>)
    requires ws.Valid() && sheetNames != []
    requires options.mapping.Some? ==> DistinctKeys(options.mapping.value)
    modifies ws
    ensures ws.Valid()
    ensures var m := ChosenMapping(options);
            var out := TemplateWrite(old(ws.cells), old(ws.maxRow), old(ws.maxColumn), items, m, ClearRequested(options));
            && (out.None? ==> res == Err(NoHeaderMessage(ChosenSheet(options, sheetNames), Labels(m))) && ws.cells == old(ws.cells))
            && (out.Some? ==> res == Ok(()) && ws.cells == out.value)
  {
    DefaultMappingWellFormed();
    var sheetName := ChosenSheet(options, sheetNames);
    var m := ChosenMapping(options);
    var headers := Labels(m);
    var hr := FindHeaderRow(ws.cells, ws.maxColumn, headers, DefaultScanRows);
    if hr == -1 {
      return Err(NoHeaderMessage(sheetName, headers));
    }
    var col := ws.HeaderToCol(hr, m);
    MappingColumns(ws.cells, ws.maxColumn, m);
    HeaderColumnsSpec(RowValues(ws.cells, ws.maxColumn, hr), m);
    var start := hr + 1;
    if ClearRequested(options) {
      ws.ClearExisting(headers, col, start);
    }
    ws.WriteItems(items, m, col, start);
    return Ok(());
  }

  function Max(a: int, b: int): int {
    if a >= b then a else b
  }
}
