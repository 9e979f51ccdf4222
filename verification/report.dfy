/**
 * The dataset shaping of the report service's PDF export: cell text for a
 * value, the per-report renaming of column names, and the section (heading,
 * table, spacing) each report contributes to the document.
 */
module Report {
  import opened Wrappers
  import opened Text
  import opened Dict
  import opened Values

  /** One result record: column name to value, in column order. */
  type Row = Dict<Value>

  // ---------------------------------------------------------------------
  // Cell text
  // ---------------------------------------------------------------------

  /** `_normalize_value`: None prints as the empty text, every other value as `str(value)`. */
  function NormalizeValue(v: Value): (s: string)
    ensures v.Null? ==> s == ""
    ensures v.Str? ==> s == v.s
    ensures v.Other? ==> s == v.text
    ensures v.Bool? ==> s == (if v.b then "True" else "False")
    ensures v.Int? && v.i >= 0 ==> IsDigitString(s) && ParseNat(s) == v.i
    ensures v.Int? && v.i < 0 ==> |s| >= 2 && s[0] == '-' && IsDigitString(s[1..]) && ParseNat(s[1..]) == -v.i
  {
    match v
    case Null => ""
    case Str(t) => t
    case Int(i) =>
      ParseNatToString(if i < 0 then -i else i);
      if i < 0 then
        assert ("-" + NatToString(-i))[1..] == NatToString(-i);
        IntToString(i)
      else IntToString(i)
    case Bool(b) => if b then "True" else "False"
    case Other(t) => t
  }

  /** `_normalize_value(row.get(column))`: a column the row lacks prints as the empty text. */
  function Cell(row: Row, column: string): (s: string)
    ensures column !in Keys(row) ==> s == ""
    ensures column in Keys(row) ==> exists i :: 0 <= i < |row| && row[i].0 == column && s == NormalizeValue(row[i].1)
  {
    NormalizeValue(Get(row, column).GetOr(Null))
  }

  // ---------------------------------------------------------------------
  // Column renaming for the PDF
  // ---------------------------------------------------------------------

  /** `mappings_by_title`: the Spanish column names of each report, by report title. */
  const MappingsByTitle: map<string, map<string, string>> := map[
    "Estado del equipo" :=
      map["status" := "Estado", "count" := "Cantidad", "percentage" := "Porcentaje (%)"],
    "Costos de mantenimiento (12 meses)" :=
      map["month" := "Mes", "total_cost" := "Costo total", "maintenance_count" := "N\U{00B0} mantenimientos"],
    "Equipos por ubicaci\U{00F3}n" :=
      map["ubicacion" := "Ubicaci\U{00F3}n", "count" := "Cantidad de equipos"],
    "Mantenimientos por tipo" :=
      map["tipo_mantenimiento" := "Tipo de mantenimiento", "count" := "Cantidad", "total_cost" := "Costo total"],
    "Antig\U{00FC}edad del equipo" :=
      map["age_group" := "Rango de antig\U{00FC}edad", "count" := "Cantidad de equipos"]
  ]

  /** `mappings_by_title.get(title, {})`: a title without an entry renames nothing. */
  function MappingFor(title: string): map<string, string>
  {
    if title in MappingsByTitle then MappingsByTitle[title] else map[]
  }

  /** `mapping.get(key, key)`. */
  function NewKey(mapping: map<string, string>, key: string): string
  {
    if key in mapping then mapping[key] else key
  }

  /**
   * The row the renaming loop builds: the items of `row` in order, each
   * stored under its new name (`new_row[new_key] = value`). Two items that
   * get the same new name end up as one entry holding the later value.
   */
  function RenameRow(mapping: map<string, string>, row: Row): (r: Row)
    ensures |r| <= |row|
    ensures DistinctKeys(r)
    decreases |row|
  {
    if row == [] then []
    else
      var prefix := RenameRow(mapping, row[..|row| - 1]);
      var item := row[|row| - 1];
      var key := NewKey(mapping, item.0);
      SetKeepsDistinct(prefix, key, item.1);
      if key in Keys(prefix) then
        SetKeepsKeys(prefix, key, item.1);
        Set(prefix, key, item.1)
      else
        SetAppendsNewKey(prefix, key, item.1);
        Set(prefix, key, item.1)
  }

  /** No two items of `row` get the same new name. */
  predicate RenamesApart(mapping: map<string, string>, row: Row)
  {
    forall i, j :: 0 <= i < j < |row| ==> NewKey(mapping, row[i].0) != NewKey(mapping, row[j].0)
  }

  /** Every item of `row` under its new name, in order, with its value: the renaming when no names collide. */
  function RenamedItems(mapping: map<string, string>, row: Row): (r: Row)
    ensures |r| == |row|
  {
    seq(|row|, i requires 0 <= i < |row| => (NewKey(mapping, row[i].0), row[i].1))
  }

  /**
   * When no two columns collide after renaming, the renamed row has the
   * same items in the same order with the same values; only the names change.
   */
  lemma {:induction false} RenameKeepsItems(mapping: map<string, string>, row: Row)
    requires RenamesApart(mapping, row)
    ensures RenameRow(mapping, row) == RenamedItems(mapping, row)
    decreases |row|
  {
    if row != [] {
      var init := row[..|row| - 1];
      RenamesApartPrefix(mapping, row);
      RenameKeepsItems(mapping, init);
      RenamedItemsSnoc(mapping, row);
      var prefix := RenamedItems(mapping, init);
      NewNameIsFresh(mapping, row, prefix);
      SetAppendsNewKey(prefix, NewKey(mapping, row[|row| - 1].0), row[|row| - 1].1);
    }
  }

  /** Dropping the last item keeps the new names apart. */
  lemma RenamesApartPrefix(mapping: map<string, string>, row: Row)
    requires row != [] && RenamesApart(mapping, row)
    ensures RenamesApart(mapping, row[..|row| - 1])
  {
    var init := row[..|row| - 1];
    forall i, j | 0 <= i < j < |init| ensures NewKey(mapping, init[i].0) != NewKey(mapping, init[j].0) {
      assert init[i] == row[i] && init[j] == row[j];
    }
  }

  /** The renamed items of a row are those of its prefix followed by its renamed last item. */
  lemma RenamedItemsSnoc(mapping: map<string, string>, row: Row)
    requires row != []
    ensures RenamedItems(mapping, row)
         == RenamedItems(mapping, row[..|row| - 1]) + [(NewKey(mapping, row[|row| - 1].0), row[|row| - 1].1)]
  {
  }

  /** The last item's new name differs from the names the earlier items were renamed to. */
  lemma NewNameIsFresh(mapping: map<string, string>, row: Row, prefix: Row)
    requires row != [] && RenamesApart(mapping, row)
    requires prefix == RenamedItems(mapping, row[..|row| - 1])
    ensures NewKey(mapping, row[|row| - 1].0) !in Keys(prefix)
  {
    forall i | 0 <= i < |prefix| ensures Keys(prefix)[i] != NewKey(mapping, row[|row| - 1].0) {
      assert Keys(prefix)[i] == prefix[i].0 == NewKey(mapping, row[i].0);
    }
  }

  /** A title without a mapping leaves every row as it is (a row never repeats a column). */
  lemma UnknownTitleKeepsRow(title: string, row: Row)
    requires MappingFor(title) == map[]
    requires DistinctKeys(row)
    ensures RenameRow(MappingFor(title), row) == row
  {
    RenameKeepsItems(MappingFor(title), row);
  }

  /** The equipment-status report's three columns become "Estado", "Cantidad" and "Porcentaje (%)", values untouched. */
  lemma StatusRowIsTranslated(status: Value, count: Value, percentage: Value)
    ensures RenameRow(MappingFor("Estado del equipo"), [("status", status), ("count", count), ("percentage", percentage)])
         == [("Estado", status), ("Cantidad", count), ("Porcentaje (%)", percentage)]
  {
    var m := MappingFor("Estado del equipo");
    var row := [("status", status), ("count", count), ("percentage", percentage)];
    assert NewKey(m, "status") == "Estado";
    assert NewKey(m, "count") == "Cantidad";
    assert NewKey(m, "percentage") == "Porcentaje (%)";
    RenameKeepsItems(m, row);
  }

  /**
   * `_rename_dataset_for_pdf`: an empty dataset is returned as it is;
   * otherwise every row is renamed with the title's mapping, one output
   * row per input row, in order.
   */
  method RenameDatasetForPdf(title: string, dataset: seq<Row>) returns (translated: seq<Row>)
    ensures dataset == [] ==> translated == dataset
    ensures |translated| == |dataset|
    ensures forall i :: 0 <= i < |dataset| ==> translated[i] == RenameRow(MappingFor(title), dataset[i])
  {
    if dataset == [] {
      return dataset;
    }
    translated := RenameRows(MappingFor(title), dataset);
  }

  /** The outer loop of `_rename_dataset_for_pdf`: one renamed row per row, appended in order. */
  method RenameRows(mapping: map<string, string>, dataset: seq<Row>) returns (translated: seq<Row>)
    ensures |translated| == |dataset|
    ensures forall i :: 0 <= i < |dataset| ==> translated[i] == RenameRow(mapping, dataset[i])
  {
    translated := [];
    for i := 0 to |dataset|
      invariant |translated| == i
      invariant forall r :: 0 <= r < i ==> translated[r] == RenameRow(mapping, dataset[r])
    {
      var newRow := RenameItems(mapping, dataset[i]);
      translated := translated + [newRow];
    }
  }

  /** The inner loop of `_rename_dataset_for_pdf`: `new_row[mapping.get(key, key)] = value` for each item in order. */
  method RenameItems(mapping: map<string, string>, row: Row) returns (newRow: Row)
    ensures newRow == RenameRow(mapping, row)
  {
    newRow := [];
    for j := 0 to |row|
      invariant newRow == RenameRow(mapping, row[..j])
    {
      assert row[..j + 1][..j] == row[..j];
      newRow := Set(newRow, NewKey(mapping, row[j].0), row[j].1);
    }
    assert row[..|row|] == row;
  }

  // ---------------------------------------------------------------------
  // Table data and report sections
  // ---------------------------------------------------------------------

  /** `[_normalize_value(row.get(column)) for column in columns]`. */
  function CellsOf(row: Row, columns: seq<string>): (cells: seq<string>)
    ensures |cells| == |columns|
    ensures forall j :: 0 <= j < |columns| ==> cells[j] == Cell(row, columns[j])
  {
    seq(|columns|, j requires 0 <= j < |columns| => Cell(row, columns[j]))
  }

  /**
   * `table` is the table built for `dataset`: a header row with the first
   * record's columns, then one row per record with one cell per column.
   */
  predicate IsTableData(dataset: seq<Row>, table: seq<seq<string>>)
  {
    && dataset != []
    && |table| == |dataset| + 1
    && table[0] == Keys(dataset[0])
    && table[1..] == RowsOf(dataset, table[0])
  }

  /** The data rows of the table: the cells of each record under `columns`, one row per record, in order. */
  function RowsOf(dataset: seq<Row>, columns: seq<string>): (rows: seq<seq<string>>)
    ensures |rows| == |dataset|
    ensures forall i :: 0 <= i < |dataset| ==> rows[i] == CellsOf(dataset[i], columns)
  {
    if dataset == [] then []
    else RowsOf(dataset[..|dataset| - 1], columns) + [CellsOf(dataset[|dataset| - 1], columns)]
  }

  /** The table data built inside `_append_report_section` for a non-empty dataset. */
  method BuildTableData(dataset: seq<Row>) returns (table: seq<seq<string>>)
    requires dataset != []
    ensures IsTableData(dataset, table)
  {
    var columns := Keys(dataset[0]);
    var rows := [];
    for i := 0 to |dataset|
      invariant rows == RowsOf(dataset[..i], columns)
    {
      assert dataset[..i + 1][..i] == dataset[..i];
      rows := rows + [CellsOf(dataset[i], columns)];
    }
    assert dataset[..|dataset|] == dataset;
    table := [columns] + rows;
    assert table[1..] == rows;
  }

  /** The first data row of the table shows the first record's own values, column by column. */
  lemma FirstRecordRow(dataset: seq<Row>, table: seq<seq<string>>)
    requires IsTableData(dataset, table)
    requires DistinctKeys(dataset[0])
    ensures |table[1]| == |dataset[0]|
    ensures forall j :: 0 <= j < |dataset[0]| ==> table[1][j] == NormalizeValue(dataset[0][j].1)
  {
    forall j | 0 <= j < |dataset[0]|
      ensures table[1][j] == NormalizeValue(dataset[0][j].1)
    {
      GetAt(dataset[0], j);
    }
  }

  /** The text of the paragraph that stands in for an empty report. */
  const NoDataText := "No data available."

  /** A document element: `Paragraph(title, Heading2)`, `Paragraph(text, Normal)`, `Spacer(1, height)` or `Table(data, repeatRows)`. */
  datatype Flowable = Heading(text: string) | Paragraph(text: string) | Spacer(height: nat) | Table(data: seq<seq<string>>, repeatRows: nat)

  /** The list of document elements the PDF export fills section by section. */
  class Story {
    var elements: seq<Flowable>

    constructor ()
      ensures elements == []
    {
      elements := [];
    }

    /**
     * `_append_report_section`: the heading, then either the no-data
     * paragraph and a 12-point spacer, or the table (header row repeated
     * on each page) and an 18-point spacer. Earlier elements are kept.
     */
    method AppendReportSection(title: string, dataset: seq<Row>)
      modifies this
      ensures dataset == [] ==> elements == old(elements) + [Heading(title), Paragraph(NoDataText), Spacer(12)]
      ensures dataset != [] ==>
        && |elements| == |old(elements)| + 3
        && elements[..|old(elements)|] == old(elements)
        && elements[|old(elements)|] == Heading(title)
        && elements[|old(elements)| + 1].Table?
        && elements[|old(elements)| + 1].repeatRows == 1
        && IsTableData(dataset, elements[|old(elements)| + 1].data)
        && elements[|old(elements)| + 2] == Spacer(18)
    {
      elements := elements + [Heading(title)];
      if dataset == [] {
        elements := elements + [Paragraph(NoDataText)];
        elements := elements + [Spacer(12)];
        return;
      }
      var tableData := BuildTableData(dataset);
      elements := elements + [Table(tableData, 1)];
      elements := elements + [Spacer(18)];
    }
  }
}
