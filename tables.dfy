/** A loaded CSV as the clients see it through pandas: named columns and rows
    of cells, plus the keyword column lookup both the Mineral Commodity
    Summaries client and the MRDS client use. */
module Tables {
  import opened Strings
  import opened Seqs

  /** One cell: pandas' missing value, or the cell's text. */
  datatype Cell = Null | Text(text: string)

  /** `str(cell)`, what `astype(str)` makes of a cell: a missing value reads "nan". */
  function CellText(c: Cell): string {
    match c
    case Null => "nan"
    case Text(s) => s
  }

  type Row = seq<Cell>

  datatype Frame = Frame(columns: seq<string>, rows: seq<Row>)

  /** `row[col]`: the cell under the first column named `col`, or a missing value. */
  function Get(columns: seq<string>, row: Row, col: string): Cell {
    if columns == [] || row == [] then Null
    else if columns[0] == col then row[0]
    else Get(columns[1..], row[1..], col)
  }

  /** The lowercased name contains every keyword. */
  predicate HasAll(col: string, keywords: seq<string>) {
    forall k :: k in keywords ==> Contains(Lower(col), k)
  }

  /** `_find_column`: the first column, in order, whose lowercased name contains
      every keyword. */
  function FindColumn(columns: seq<string>, keywords: seq<string>): Option<string> {
    if columns == [] then None
    else if HasAll(columns[0], keywords) then Some(columns[0])
    else FindColumn(columns[1..], keywords)
  }

  /** `FindColumn` answers with the first qualifying column, and with nothing
      exactly when no column qualifies. */
  lemma {:induction false} FindColumnSpec(columns: seq<string>, keywords: seq<string>)
    ensures FindColumn(columns, keywords).None?
            <==> forall i :: 0 <= i < |columns| ==> !HasAll(columns[i], keywords)
    ensures FindColumn(columns, keywords).Some? ==>
              exists i :: 0 <= i < |columns| && columns[i] == FindColumn(columns, keywords).value
                          && HasAll(columns[i], keywords)
                          && forall j :: 0 <= j < i ==> !HasAll(columns[j], keywords)
  {
    if columns != [] && !HasAll(columns[0], keywords) {
      var rest := columns[1..];
      FindColumnSpec(rest, keywords);
      assert forall i :: 1 <= i < |columns| ==> columns[i] == rest[i - 1];
      if FindColumn(rest, keywords).Some? {
        var i :| 0 <= i < |rest| && rest[i] == FindColumn(rest, keywords).value
                 && HasAll(rest[i], keywords)
                 && forall j :: 0 <= j < i ==> !HasAll(rest[j], keywords);
        assert columns[i + 1] == rest[i];
      }
    }
  }

  /** Python's `a or b` on two lookups: the first one that found a column. */
  function OrElse(a: Option<string>, b: Option<string>): Option<string> {
    if a.Some? && a.value != "" then a else b
  }

  /** A column found through a non-empty keyword is itself non-empty, so
      Python's `or` never skips a found column. */
  lemma FoundColumnNonEmpty(columns: seq<string>, keyword: string)
    requires keyword != ""
    requires FindColumn(columns, [keyword]).Some?
    ensures FindColumn(columns, [keyword]).value != ""
  {
    FindColumnSpec(columns, [keyword]);
    var c := FindColumn(columns, [keyword]).value;
    assert Contains(Lower(c), keyword);
    var i :| 0 <= i <= |Lower(c)| && OccursAt(Lower(c), keyword, i);
  }
}
