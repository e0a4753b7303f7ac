/**
 * The spreadsheet side of the automation: a loaded sheet, the mapping from sheet
 * columns to CRM field names, and the normalisation of rows into the string
 * records that the batch update reads.
 *
 * Rows and mappings are ordered dictionaries (`Dicts.Dict`), because the order in
 * which `get_row_data` and `process_file` insert keys is observable.
 */
module Spreadsheet {
  import opened Wrappers
  import opened Text
  import opened Dicts

  /** A cell as pandas hands it over. */
  datatype Cell =
    | Str(s: string)        // a Python `str`
    | Int(i: int)           // a Python `int`; a numpy integer scalar is no `int`, and is `Other`
    | Bool(b: bool)         // a Python `bool`, which `isinstance(_, int)` accepts
    | Float(text: string)   // a float other than NaN, with the text `str()` gives for it
    | NaN                   // `float('nan')`, which is what an empty cell reads as
    | Null                  // `None` or `NaT`: `pd.isna` holds, yet it is no `str`, `int` or `float`
    | Other(text: string)   // any other object, with the text `str()` gives for it

  /** The sheet: its columns in order, and each row as the cell under each column. */
  datatype Sheet = Sheet(columns: seq<string>, rows: seq<map<string, Cell>>)

  function ColumnSet(sheet: Sheet): set<string> {
    set c | c in sheet.columns
  }

  /** What a DataFrame guarantees: every row has a cell under every column. */
  ghost predicate WellFormed(sheet: Sheet) {
    forall i | 0 <= i < |sheet.rows| :: sheet.rows[i].Keys == ColumnSet(sheet)
  }

  /** Every sheet column a mapping names is a key of the row. */
  ghost predicate Covers(row: map<string, Cell>, mapping: Dict<string>) {
    forall j | 0 <= j < |mapping| :: mapping[j].0 in row
  }

  // ----- get_row_data -----

  /** Lines 101-103: the row's cells under the mapped CRM field names, in mapping order. */
  function MapRow(row: map<string, Cell>, mapping: Dict<string>): (r: Dict<Cell>)
    requires Covers(row, mapping)
    decreases |mapping|
  {
    if mapping == [] then []
    else
      var (col, field) := mapping[|mapping| - 1];
      Put(MapRow(row, mapping[..|mapping| - 1]), field, row[col])
  }

  /** The keys of a mapped row are exactly the CRM fields of the mapping. */
  lemma {:induction false} MapRowKeys(row: map<string, Cell>, mapping: Dict<string>)
    requires Covers(row, mapping)
    ensures KeySet(MapRow(row, mapping)) == Values(mapping)
    decreases |mapping|
  {
    if mapping != [] {
      var front := mapping[..|mapping| - 1];
      MapRowKeys(row, front);
      ValuesLast(mapping);
    }
  }

  lemma ValuesLast<V>(d: Dict<V>)
    requires d != []
    ensures Values(d) == Values(d[..|d| - 1]) + {d[|d| - 1].1}
  {
    var front := d[..|d| - 1];
    forall v | v in Values(d) ensures v in Values(front) + {d[|d| - 1].1} {
      var i :| 0 <= i < |d| && d[i].1 == v;
      if i < |d| - 1 { assert front[i] == d[i]; }
    }
    forall v | v in Values(front) ensures v in Values(d) {
      var i :| 0 <= i < |front| && front[i].1 == v;
      assert d[i] == front[i];
    }
  }

  /** A mapped field holds the cell of the last sheet column mapped to it. */
  lemma {:induction false} MapRowGet(row: map<string, Cell>, mapping: Dict<string>, j: nat)
    requires Covers(row, mapping)
    requires j < |mapping|
    requires forall k | j < k < |mapping| :: mapping[k].1 != mapping[j].1
    ensures Get(MapRow(row, mapping), mapping[j].1) == Some(row[mapping[j].0])
    decreases |mapping|
  {
    var front := mapping[..|mapping| - 1];
    GetPut(MapRow(row, front), mapping[|mapping| - 1].1, row[mapping[|mapping| - 1].0], mapping[j].1);
    if j < |mapping| - 1 {
      assert front[j] == mapping[j];
      MapRowGet(row, front, j);
    }
  }

  lemma {:induction false} MapRowUnique(row: map<string, Cell>, mapping: Dict<string>)
    requires Covers(row, mapping)
    ensures UniqueKeys(MapRow(row, mapping))
    decreases |mapping|
  {
    if mapping != [] {
      var (col, field) := mapping[|mapping| - 1];
      MapRowUnique(row, mapping[..|mapping| - 1]);
      PutUnique(MapRow(row, mapping[..|mapping| - 1]), field, row[col]);
    }
  }

  // ----- process_file: inverting the mapping -----

  /** The sheet columns named by string entries of a CRM-to-column mapping that exist in the sheet. */
  ghost function MappedColumns(mapping: Dict<Option<string>>, columns: set<string>): set<string> {
    set j | 0 <= j < |mapping| && mapping[j].1.Some? && mapping[j].1.value in columns :: mapping[j].1.value
  }

  lemma MappedColumnsLast(mapping: Dict<Option<string>>, columns: set<string>)
    requires mapping != []
    ensures var c := mapping[|mapping| - 1].1;
      MappedColumns(mapping, columns)
      == MappedColumns(mapping[..|mapping| - 1], columns) + (if c.Some? && c.value in columns then {c.value} else {})
  {
    var front := mapping[..|mapping| - 1];
    var c := mapping[|mapping| - 1].1;
    forall x | x in MappedColumns(mapping, columns)
      ensures x in MappedColumns(front, columns) + (if c.Some? && c.value in columns then {c.value} else {})
    {
      var j :| 0 <= j < |mapping| && mapping[j].1.Some? && mapping[j].1.value in columns && mapping[j].1.value == x;
      if j < |mapping| - 1 { assert front[j] == mapping[j]; }
    }
    forall x | x in MappedColumns(front, columns) ensures x in MappedColumns(mapping, columns) {
      var j :| 0 <= j < |front| && front[j].1.Some? && front[j].1.value in columns && front[j].1.value == x;
      assert mapping[j] == front[j];
    }
  }

  /**
   * Lines 156-163: the column-to-field mapping. An entry whose column is no string
   * (`None` here) or not a sheet column is dropped; a column named twice keeps the
   * later field, at the place where it first arrived.
   */
  function Invert(mapping: Dict<Option<string>>, columns: set<string>): (r: Dict<string>)
    ensures KeySet(r) == MappedColumns(mapping, columns)
    decreases |mapping|
  {
    if mapping == [] then []
    else
      var (field, col) := mapping[|mapping| - 1];
      var rest := Invert(mapping[..|mapping| - 1], columns);
      MappedColumnsLast(mapping, columns);
      if col.Some? && col.value in columns then Put(rest, col.value, field) else rest
  }

  /** A column named by several CRM fields is mapped to the last of them. */
  lemma {:induction false} InvertLaterWins(mapping: Dict<Option<string>>, columns: set<string>, j: nat)
    requires j < |mapping| && mapping[j].1.Some? && mapping[j].1.value in columns
    requires forall k | j < k < |mapping| :: mapping[k].1 != mapping[j].1
    ensures Get(Invert(mapping, columns), mapping[j].1.value) == Some(mapping[j].0)
    decreases |mapping|
  {
    var front := mapping[..|mapping| - 1];
    var (field, col) := mapping[|mapping| - 1];
    if col.Some? && col.value in columns {
      GetPut(Invert(front, columns), col.value, field, mapping[j].1.value);
    }
    if j < |mapping| - 1 {
      assert front[j] == mapping[j];
      InvertLaterWins(front, columns, j);
    }
  }

  // ----- process_file: normalising one row -----

  /**
   * Lines 185-192: the invoice number as it is stored back, or `None` when the row
   * is skipped because the cell is no `str`, `int` or `float`.
   */
  function InvoiceText(c: Cell): Option<string> {
    match c
    case Str(s) => Some(Strip(if HasSzPrefix(s) then s[2..] else s))
    case Int(i) => Some(Strip(IntToString(i)))
    case Bool(b) => Some(if b then "True" else "False")
    case Float(t) => Some(Strip(t))
    case NaN => Some("nan")
    case Null => None
    case Other(_) => None
  }

  /** Lines 195-202: a missing cell becomes `''`, every other value its `str()` text. */
  function CellText(c: Cell): string {
    match c
    case Str(s) => s
    case Int(i) => IntToString(i)
    case Bool(b) => if b then "True" else "False"
    case Float(t) => t
    case NaN => ""
    case Null => ""
    case Other(t) => t
  }

  /** The row with every value replaced by its text, keys in place. */
  function Converted(row: Dict<Cell>): (r: Dict<string>)
    ensures |r| == |row|
    ensures forall i | 0 <= i < |row| :: r[i] == (row[i].0, CellText(row[i].1))
    ensures KeySet(r) == KeySet(row)
    ensures UniqueKeys(row) ==> UniqueKeys(r)
  {
    seq(|row|, i requires 0 <= i < |row| => (row[i].0, CellText(row[i].1)))
  }

  /** Lines 180-210: the record a row becomes, or `None` when the row is skipped. */
  function NormalizeRow(row: Dict<Cell>): Option<Dict<string>> {
    if row == [] then None
    else
      match InvoiceText(Get(row, "invoice_number").GetOr(Str("")))
      case None => None
      case Some(n) =>
        var r := Converted(Put(row, "invoice_number", Str(n)));
        if Get(r, "invoice_number").GetOr("") == "" then None else Some(r)
  }

  /** The results `f` gives for the elements it does not skip, in order. */
  function Filtered<T, U>(f: T -> Option<U>, xs: seq<T>): seq<U>
    decreases |xs|
  {
    if xs == [] then []
    else
      var front := Filtered(f, xs[..|xs| - 1]);
      match f(xs[|xs| - 1])
      case None => front
      case Some(r) => front + [r]
  }

  /** The indices of the elements `f` does not skip. */
  function KeptBy<T, U>(f: T -> Option<U>, xs: seq<T>): (idx: seq<nat>)
    ensures forall k | 0 <= k < |idx| :: idx[k] < |xs|
    decreases |xs|
  {
    if xs == [] then []
    else
      var front := KeptBy(f, xs[..|xs| - 1]);
      if f(xs[|xs| - 1]).Some? then front + [|xs| - 1] else front
  }

  lemma {:induction false} FilteredLength<T, U>(f: T -> Option<U>, xs: seq<T>)
    ensures |Filtered(f, xs)| == |KeptBy(f, xs)| <= |xs|
    decreases |xs|
  {
    if xs != [] {
      FilteredLength(f, xs[..|xs| - 1]);
    }
  }

  lemma {:induction false} KeptByIncreasing<T, U>(f: T -> Option<U>, xs: seq<T>)
    ensures forall k, l | 0 <= k < l < |KeptBy(f, xs)| :: KeptBy(f, xs)[k] < KeptBy(f, xs)[l]
    decreases |xs|
  {
    if xs != [] {
      KeptByIncreasing(f, xs[..|xs| - 1]);
    }
  }

  lemma {:induction false} FilteredKept<T, U>(f: T -> Option<U>, xs: seq<T>, k: nat)
    requires k < |KeptBy(f, xs)|
    ensures k < |Filtered(f, xs)| && f(xs[KeptBy(f, xs)[k]]) == Some(Filtered(f, xs)[k])
    decreases |xs|
  {
    var front := xs[..|xs| - 1];
    FilteredLength(f, front);
    if k < |KeptBy(f, front)| {
      FilteredKept(f, front, k);
      assert xs[KeptBy(f, front)[k]] == front[KeptBy(f, front)[k]];
    }
  }

  /** An element is kept exactly when `f` does not skip it. */
  lemma {:induction false} KeptByExactly<T, U>(f: T -> Option<U>, xs: seq<T>, i: nat)
    requires i < |xs|
    ensures f(xs[i]).Some? <==> i in KeptBy(f, xs)
    decreases |xs|
  {
    var front := xs[..|xs| - 1];
    if i < |front| {
      assert front[i] == xs[i];
      KeptByExactly(f, front, i);
    }
  }

  /** The records of a row sequence, skipped rows left out, in order. */
  function NormalizeAll(rows: seq<Dict<Cell>>): seq<Dict<string>> {
    Filtered(NormalizeRow, rows)
  }

  /** Lines 114-121 and 101-103: each sheet row under the CRM field names of `m`, in order. */
  function MappedRows(sheet: Sheet, m: Dict<string>): (rows: seq<Dict<Cell>>)
    requires WellFormed(sheet) && KeySet(m) <= ColumnSet(sheet)
    ensures |rows| == |sheet.rows|
  {
    seq(|sheet.rows|, i requires 0 <= i < |sheet.rows| => CoversRow(sheet, m, i); MapRow(sheet.rows[i], m))
  }

  lemma CoversRow(sheet: Sheet, m: Dict<string>, i: int)
    requires WellFormed(sheet) && KeySet(m) <= ColumnSet(sheet) && 0 <= i < |sheet.rows|
    ensures Covers(sheet.rows[i], m)
  {
    forall j | 0 <= j < |m| ensures m[j].0 in sheet.rows[i] {
      assert m[j].0 in KeySet(m);
    }
  }

  /** Lines 146-174 and 177-216: everything `process_file` returns for a loaded sheet. */
  function Processed(sheet: Sheet, mapping: Option<Dict<Option<string>>>): (r: seq<Dict<string>>)
    requires WellFormed(sheet)
    ensures mapping.None? || mapping.value == [] ==> r == []
    ensures mapping.Some? && Invert(mapping.value, ColumnSet(sheet)) == [] ==> r == []
  {
    if mapping.None? || mapping.value == [] then []
    else
      var m := Invert(mapping.value, ColumnSet(sheet));
      if m == [] then [] else NormalizeAll(MappedRows(sheet, m))
  }

  /** With no usable column the result is empty: no entry names a sheet column by a string. */
  lemma NoUsableColumn(sheet: Sheet, mapping: Dict<Option<string>>)
    requires WellFormed(sheet)
    requires forall j | 0 <= j < |mapping| :: mapping[j].1.None? || mapping[j].1.value !in ColumnSet(sheet)
    ensures Processed(sheet, Some(mapping)) == []
  {
    assert MappedColumns(mapping, ColumnSet(sheet)) == {};
    assert KeySet(Invert(mapping, ColumnSet(sheet))) == {};
  }

  // ----- properties of the normalisation -----

  /** Two leading characters that upper-case to `SZ` are cut from a text cell, whatever follows, and the rest stripped. */
  lemma InvoiceTextCutsPrefix(p: string, t: string)
    requires |p| == 2 && UpperChar(p[0]) == 'S' && UpperChar(p[1]) == 'Z'
    ensures InvoiceText(Str(p + t)) == Some(Strip(t))
  {
    HasSzPrefixChars(p + t);
    assert (p + t)[2..] == t;
  }

  /**
   * A text cell without the prefix is only stripped. Either way the number kept is
   * no longer than the cell and has no surrounding whitespace.
   */
  lemma InvoiceTextStrips(s: string)
    ensures !HasSzPrefix(s) ==> InvoiceText(Str(s)) == Some(Strip(s))
    ensures var n := InvoiceText(Str(s)).value;
      |n| <= |s| && (n == [] || (!IsSpace(n[0]) && !IsSpace(n[|n| - 1])))
  {
  }

  /** An integer cell becomes its decimal text, which `int()` reads back as the same number. */
  lemma InvoiceTextInteger(i: int)
    ensures InvoiceText(Int(i)) == Some(IntToString(i))
    ensures ParseInt(InvoiceText(Int(i)).value) == Some(i)
  {
    IntToStringNoSpace(i);
    StripNoSpace(IntToString(i));
    ParseIntToString(i);
  }

  /** The text of an integer keeps its sign: it starts with `-` exactly when the number is negative. */
  lemma InvoiceTextNegative(i: int)
    ensures InvoiceText(Int(i)).Some? && |InvoiceText(Int(i)).value| > 0
    ensures InvoiceText(Int(i)).value[0] == '-' <==> i < 0
  {
    InvoiceTextInteger(i);
  }

  /** Instances of the text rules: either case of the prefix, and blanks around the number. */
  lemma InvoiceTextExamples()
    ensures InvoiceText(Str("SZ1234")) == Some("1234")
    ensures InvoiceText(Str("sz 1234 ")) == Some("1234")
  {
    HasSzPrefixChars("SZ1234");
    assert "SZ1234"[2..] == "1234";
    StripNoSpace("1234");
    HasSzPrefixChars("sz 1234 ");
    assert "sz 1234 "[2..] == " 1234 ";
    StripPadded();
  }

  /** Without the prefix only the blanks go. */
  lemma PaddedNumberKept()
    ensures InvoiceText(Str(" 1234 ")) == Some("1234")
  {
    HasSzPrefixChars(" 1234 ");
    StripPadded();
  }

  lemma StripPadded()
    ensures Strip(" 1234 ") == "1234"
  {
    assert forall k :: 0 <= k < |"1234"| ==> !IsSpace("1234"[k]);
    StripAround("1234");
    assert " " + "1234" + " " == " 1234 ";
  }

  /** Instances of the integer rule, with and without a sign. */
  lemma InvoiceIntegerExamples()
    ensures InvoiceText(Int(1234)) == Some("1234")
    ensures InvoiceText(Int(-7)) == Some("-7")
  {
    InvoiceTextInteger(1234);
    DecimalText1234();
    InvoiceTextInteger(-7);
    assert IntToString(-7) == "-7";
  }

  lemma DecimalText1234()
    ensures IntToString(1234) == "1234"
  {
    NatToStringSnoc(1, 2);
    NatToStringSnoc(12, 3);
    NatToStringSnoc(123, 4);
  }

  /** An empty cell, read as NaN, becomes the text `nan`, so its row is kept. */
  lemma InvoiceTextEmptyCell()
    ensures InvoiceText(NaN) == Some("nan")
    ensures NormalizeRow([("invoice_number", NaN)]) == Some([("invoice_number", "nan")])
  {
    var row: Dict<Cell> := [("invoice_number", NaN)];
    assert Get(row, "invoice_number") == Some(NaN);
    var p := Put(row, "invoice_number", Str("nan"));
    assert p == [("invoice_number", Str("nan"))];
    var r := Converted(p);
    assert r == [("invoice_number", "nan")];
    assert Get(r, "invoice_number") == Some("nan");
  }

  /**
   * An empty row, or an invoice number that is no `str`, `int` or `float`, makes the
   * row be skipped: it gives no record, and wherever it stands among the rows the
   * records are those of the other rows.
   */
  lemma InvoiceTextSkips(row: Dict<Cell>, t: string, before: seq<Dict<Cell>>, after: seq<Dict<Cell>>)
    requires row == [] || Get(row, "invoice_number") == Some(Null) || Get(row, "invoice_number") == Some(Other(t))
    ensures NormalizeRow(row) == None
    ensures NormalizeAll(before + [row] + after) == NormalizeAll(before + after)
  {
    UnusableNumberSkipped(row, t);
    FilteredSkip(NormalizeRow, before, row, after);
  }

  lemma UnusableNumberSkipped(row: Dict<Cell>, t: string)
    requires row == [] || Get(row, "invoice_number") == Some(Null) || Get(row, "invoice_number") == Some(Other(t))
    ensures NormalizeRow(row) == None
  {
    if row != [] {
      assert InvoiceText(Get(row, "invoice_number").GetOr(Str(""))) == None;
    }
  }

  /** An element `f` skips adds nothing, wherever it stands. */
  lemma FilteredSkip<T, U>(f: T -> Option<U>, xs: seq<T>, x: T, ys: seq<T>)
    requires f(x).None?
    ensures Filtered(f, xs + [x] + ys) == Filtered(f, xs + ys)
  {
    FilteredAppend(f, xs + [x], ys);
    FilteredAppend(f, xs, [x]);
    FilteredAppend(f, xs, ys);
    assert [x][..0] == [];
  }

  /** Filtering a concatenation filters each part. */
  lemma {:induction false} FilteredAppend<T, U>(f: T -> Option<U>, xs: seq<T>, ys: seq<T>)
    ensures Filtered(f, xs + ys) == Filtered(f, xs) + Filtered(f, ys)
    decreases |ys|
  {
    if ys == [] {
      assert xs + ys == xs;
    } else {
      var front := ys[..|ys| - 1];
      assert (xs + ys)[..|xs + ys| - 1] == xs + front;
      assert (xs + ys)[|xs + ys| - 1] == ys[|ys| - 1];
      FilteredAppend(f, xs, front);
    }
  }

  /** Every record kept has a non-empty invoice number. */
  lemma NormalizeRowHasNumber(row: Dict<Cell>)
    requires NormalizeRow(row).Some?
    ensures Get(NormalizeRow(row).value, "invoice_number").Some?
    ensures Get(NormalizeRow(row).value, "invoice_number").value != ""
  {
  }

  /** In a kept record the invoice number is the normalised text and every other field the text of its cell. */
  lemma NormalizeRowValues(row: Dict<Cell>, k: string)
    requires UniqueKeys(row)
    requires NormalizeRow(row).Some?
    ensures var n := InvoiceText(Get(row, "invoice_number").GetOr(Str(""))).value;
      Get(NormalizeRow(row).value, k)
      == if k == "invoice_number" then Some(n) else match Get(row, k) case None => None case Some(c) => Some(CellText(c))
  {
    var n := InvoiceText(Get(row, "invoice_number").GetOr(Str(""))).value;
    var p := Put(row, "invoice_number", Str(n));
    GetPut(row, "invoice_number", Str(n), k);
    PutUnique(row, "invoice_number", Str(n));
    ConvertedGet(p, k);
  }

  /** Looking a key up after conversion gives the text of the cell it had. */
  lemma {:induction false} ConvertedGet(row: Dict<Cell>, k: string)
    ensures Get(Converted(row), k) == match Get(row, k) case None => None case Some(c) => Some(CellText(c))
    decreases |row|
  {
    if row != [] {
      assert Converted(row)[1..] == Converted(row[1..]);
      ConvertedGet(row[1..], k);
    }
  }

  /** The indices of the rows that are kept. */
  function Kept(rows: seq<Dict<Cell>>): seq<nat> {
    KeptBy(NormalizeRow, rows)
  }

  /** The output is never longer than the input: one record per kept row. */
  lemma NormalizeAllLength(rows: seq<Dict<Cell>>)
    ensures |NormalizeAll(rows)| == |Kept(rows)| <= |rows|
  {
    FilteredLength(NormalizeRow, rows);
  }

  /** The kept rows are listed in input order, and each is a row of the input. */
  lemma KeptIncreasing(rows: seq<Dict<Cell>>)
    ensures forall k | 0 <= k < |Kept(rows)| :: Kept(rows)[k] < |rows|
    ensures forall k, l | 0 <= k < l < |Kept(rows)| :: Kept(rows)[k] < Kept(rows)[l]
  {
    KeptByIncreasing(NormalizeRow, rows);
  }

  /** Record `k` of the output is the normalised row `Kept(rows)[k]`. */
  lemma NormalizeAllKept(rows: seq<Dict<Cell>>, k: nat)
    requires k < |Kept(rows)|
    ensures k < |NormalizeAll(rows)| && NormalizeRow(rows[Kept(rows)[k]]) == Some(NormalizeAll(rows)[k])
  {
    FilteredKept(NormalizeRow, rows, k);
  }

  /** Every row with a usable invoice number is kept, and its record is in the output. */
  lemma KeptExactly(rows: seq<Dict<Cell>>, i: nat)
    requires i < |rows|
    ensures NormalizeRow(rows[i]).Some? <==> i in Kept(rows)
    ensures NormalizeRow(rows[i]).Some? ==> NormalizeRow(rows[i]).value in NormalizeAll(rows)
  {
    KeptByExactly(NormalizeRow, rows, i);
    if NormalizeRow(rows[i]).Some? {
      var k :| 0 <= k < |Kept(rows)| && Kept(rows)[k] == i;
      NormalizeAllKept(rows, k);
    }
  }

  // ----- the processor object -----

  /** `ExcelProcessor`: the loaded sheet, if any, and the current column mapping. */
  class ExcelProcessor {
    const data: Option<Sheet>
    var columnMapping: Dict<string>

    /** The mapping only ever names columns of the loaded sheet, and there is none without a sheet. */
    ghost predicate Valid()
      reads this
    {
      && (data.Some? ==> WellFormed(data.value) && KeySet(columnMapping) <= ColumnSet(data.value))
      && (data.None? ==> columnMapping == [])
    }

    /** `ExcelProcessor(file_path)`: `data` is what reading the file gave, `None` when it failed. */
    constructor (data: Option<Sheet>)
      requires data.Some? ==> WellFormed(data.value)
      ensures Valid() && this.data == data && columnMapping == []
    {
      this.data := data;
      columnMapping := [];
    }

    function ColumnNames(): seq<string>
      reads this
    {
      if data.None? then [] else data.value.columns
    }

    function RowCount(): nat
      reads this
    {
      if data.None? then 0 else |data.value.rows|
    }

    /** Lines 70-83: the mapping is taken only when a sheet is loaded and every key is one of its columns. */
    method SetColumnMapping(mapping: Dict<string>) returns (ok: bool)
      requires Valid()
      modifies this
      ensures Valid()
      ensures ok <==> data.Some? && KeySet(mapping) <= ColumnSet(data.value)
      ensures columnMapping == if ok then mapping else old(columnMapping)
    {
      if data.None? {
        return false;
      }
      if !(KeySet(mapping) <= ColumnSet(data.value)) {
        return false;
      }
      columnMapping := mapping;
      return true;
    }

    /** Lines 95-105: the mapped row, or `{}` for an index outside the sheet. */
    method GetRowData(rowIndex: int) returns (r: Dict<Cell>)
      requires Valid()
      ensures data.None? || rowIndex < 0 || rowIndex >= |data.value.rows| ==> r == []
      ensures data.Some? && 0 <= rowIndex < |data.value.rows| ==>
        r == MappedRows(data.value, columnMapping)[rowIndex]
    {
      if data.None? || rowIndex < 0 || rowIndex >= |data.value.rows| {
        return [];
      }
      var row := data.value.rows[rowIndex];
      CoversRow(data.value, columnMapping, rowIndex);
      r := [];
      for j := 0 to |columnMapping|
        invariant r == MapRow(row, columnMapping[..j])
      {
        assert columnMapping[..j + 1][..j] == columnMapping[..j];
        var (col, field) := columnMapping[j];
        r := Put(r, field, row[col]);
      }
      assert columnMapping[..|columnMapping|] == columnMapping;
    }

    /** Lines 114-121: one mapped row per sheet row, in order. */
    method GetAllRows() returns (rows: seq<Dict<Cell>>)
      requires Valid()
      ensures |rows| == RowCount()
      ensures data.Some? ==> rows == MappedRows(data.value, columnMapping)
    {
      if data.None? {
        return [];
      }
      ghost var all := MappedRows(data.value, columnMapping);
      rows := [];
      for i := 0 to |data.value.rows|
        invariant rows == all[..i]
      {
        var r := GetRowData(i);
        assert all[..i + 1] == all[..i] + [r];
        rows := rows + [r];
      }
      assert all[..|all|] == all;
    }

    /** Lines 195-202: every value of the row replaced by its text. */
    static method ConvertCells(row: Dict<Cell>) returns (r: Dict<string>)
      ensures r == Converted(row)
    {
      r := [];
      for j := 0 to |row|
        invariant r == Converted(row[..j])
      {
        assert Converted(row[..j + 1]) == Converted(row[..j]) + [(row[j].0, CellText(row[j].1))];
        r := r + [(row[j].0, CellText(row[j].1))];
      }
      assert row[..|row|] == row;
    }

    /** Lines 156-163: the column-to-field mapping, built entry by entry. */
    static method InvertColumns(mapping: Dict<Option<string>>, columns: set<string>) returns (excelToCrm: Dict<string>)
      ensures excelToCrm == Invert(mapping, columns)
    {
      excelToCrm := [];
      for i := 0 to |mapping|
        invariant excelToCrm == Invert(mapping[..i], columns)
      {
        assert mapping[..i + 1][..i] == mapping[..i];
        var (field, col) := mapping[i];
        if col.Some? && col.value in columns {
          excelToCrm := Put(excelToCrm, col.value, field);
        }
      }
      assert mapping[..|mapping|] == mapping;
    }

    /** Lines 180-210: one row normalised, or `None` when it is skipped. */
    static method NormalizeOne(row: Dict<Cell>) returns (r: Option<Dict<string>>)
      ensures r == NormalizeRow(row)
    {
      if row == [] {
        return None;
      }
      var invoiceNumber := Get(row, "invoice_number").GetOr(Str(""));
      var text := InvoiceText(invoiceNumber);
      if text.None? {
        return None;
      }
      var converted := ConvertCells(Put(row, "invoice_number", Str(text.value)));
      if Get(converted, "invoice_number").GetOr("") == "" {
        return None;
      }
      return Some(converted);
    }

    /** Lines 177-216: the records of the mapped rows, skipped rows left out. */
    static method NormalizeRows(rows: seq<Dict<Cell>>) returns (result: seq<Dict<string>>)
      ensures result == NormalizeAll(rows)
    {
      result := [];
      for i := 0 to |rows|
        invariant result == NormalizeAll(rows[..i])
      {
        assert rows[..i + 1][..i] == rows[..i];
        var r := NormalizeOne(rows[i]);
        if r.Some? {
          result := result + [r.value];
        }
      }
      assert rows[..|rows|] == rows;
    }

    /** Lines 146-216: invert the mapping, take it, and normalise every mapped row. */
    method ProcessFile(mapping: Option<Dict<Option<string>>>) returns (result: seq<Dict<string>>)
      requires Valid()
      modifies this
      ensures Valid()
      ensures data.None? ==> result == []
      ensures data.Some? ==> result == Processed(data.value, mapping)
      ensures columnMapping
              == if data.Some? && mapping.Some? && Invert(mapping.value, ColumnSet(data.value)) != []
                 then Invert(mapping.value, ColumnSet(data.value)) else old(columnMapping)
    {
      if data.None? {
        return [];
      }
      if mapping.None? || mapping.value == [] {
        return [];
      }
      var excelToCrm := InvertColumns(mapping.value, ColumnSet(data.value));
      if excelToCrm == [] {
        return [];
      }
      var ok := SetColumnMapping(excelToCrm);
      var rows := GetAllRows();
      result := NormalizeRows(rows);
    }
  }
}
