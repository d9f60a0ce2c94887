/**
 * Tables as read from disk (every cell a string or null), looked up by
 * column name, with the header edits (str.upper/strip on the columns,
 * rename) and pd.concat of tables whose columns differ.
 */
module Table {
  import opened Wrappers
  import opened Collections

  type Row = seq<Option<string>>

  datatype RawTable = RawTable(header: seq<string>, rows: seq<Row>)

  /**
   * The cell of `row` under column `name`: the first column bearing that
   * name; null when there is no such column or the row is short.
   */
  function Cell(header: seq<string>, row: Row, name: string): (v: Option<string>)
    ensures name !in header ==> v.None?
  {
    match IndexOf(header, name)
    case None => None
    case Some(k) => if k < |row| then row[k] else None
  }

  /** df.columns = f(df.columns): the cells stay where they are. */
  function MapHeader(t: RawTable, f: string -> string): (r: RawTable)
    ensures r.rows == t.rows && |r.header| == |t.header|
    ensures forall i :: 0 <= i < |t.header| ==> r.header[i] == f(t.header[i])
  {
    t.(header := seq(|t.header|, i requires 0 <= i < |t.header| => f(t.header[i])))
  }

  /** The name a column takes under df.rename(columns=m). */
  function Renamed(m: map<string, string>, h: string): string {
    if h in m then m[h] else h
  }

  function Rename(t: RawTable, m: map<string, string>): RawTable {
    MapHeader(t, h => Renamed(m, h))
  }

  // ---------------------------------------------------------------------
  // pd.concat(tables, ignore_index=True)

  /** acc followed by the names of `names` it lacks, in order of appearance. */
  function AddNames(acc: seq<string>, names: seq<string>): (r: seq<string>)
    ensures |acc| <= |r| && r[..|acc|] == acc
    ensures forall x :: x in r <==> x in acc || x in names
    decreases |names|
  {
    if names == [] then acc
    else
      var next := if names[0] in acc then acc else acc + [names[0]];
      assert forall x :: x in names <==> x == names[0] || x in names[1..] by {
        assert names == [names[0]] + names[1..];
      }
      AddNames(next, names[1..])
  }

  /** The columns of the concatenation: every table's columns, in order of first appearance. */
  function UnionHeader(ts: seq<RawTable>): (u: seq<string>)
    ensures forall t, x :: t in ts && x in t.header ==> x in u
  {
    if ts == [] then []
    else AddNames(UnionHeader(ts[..|ts| - 1]), ts[|ts| - 1].header)
  }

  /** A row of t laid out under the columns u (null where t lacks the column). */
  function Align(header: seq<string>, row: Row, u: seq<string>): Row {
    seq(|u|, j requires 0 <= j < |u| => Cell(header, row, u[j]))
  }

  function AlignedRows(ts: seq<RawTable>, u: seq<string>): seq<Row> {
    if ts == [] then []
    else
      var t := ts[|ts| - 1];
      AlignedRows(ts[..|ts| - 1], u) + seq(|t.rows|, k requires 0 <= k < |t.rows| => Align(t.header, t.rows[k], u))
  }

  function Concat(ts: seq<RawTable>): RawTable {
    var u := UnionHeader(ts);
    RawTable(u, AlignedRows(ts, u))
  }

  /** The number of rows of the tables before the i-th. */
  function RowsBefore(ts: seq<RawTable>, i: nat): nat
    requires i <= |ts|
  {
    if i == 0 then 0 else RowsBefore(ts, i - 1) + |ts[i - 1].rows|
  }

  /** Laying a row out under a wider header keeps every cell under its name. */
  lemma AlignCell(header: seq<string>, row: Row, u: seq<string>, name: string)
    requires forall x :: x in header ==> x in u
    ensures Cell(u, Align(header, row, u), name) == Cell(header, row, name)
  {
    match IndexOf(u, name)
    case None =>
    case Some(k) =>
  }

  lemma {:induction false} AlignedRowsAt(ts: seq<RawTable>, u: seq<string>, i: nat, k: nat)
    requires i < |ts| && k < |ts[i].rows|
    ensures |AlignedRows(ts, u)| == RowsBefore(ts, |ts|)
    ensures RowsBefore(ts, i) + k < RowsBefore(ts, |ts|)
    ensures AlignedRows(ts, u)[RowsBefore(ts, i) + k] == Align(ts[i].header, ts[i].rows[k], u)
  {
    var init := ts[..|ts| - 1];
    assert forall j: nat :: j <= |init| ==> RowsBefore(init, j) == RowsBefore(ts, j) by {
      forall j: nat | j <= |init| ensures RowsBefore(init, j) == RowsBefore(ts, j) {
        RowsBeforePrefix(ts, init, j);
      }
    }
    if i < |ts| - 1 {
      AlignedRowsAt(init, u, i, k);
    } else {
      AlignedRowsCount(init, u);
    }
  }

  lemma {:induction false} AlignedRowsCount(ts: seq<RawTable>, u: seq<string>)
    ensures |AlignedRows(ts, u)| == RowsBefore(ts, |ts|)
  {
    if ts != [] {
      var init := ts[..|ts| - 1];
      AlignedRowsCount(init, u);
      RowsBeforePrefix(ts, init, |init|);
    }
  }

  lemma {:induction false} RowsBeforePrefix(ts: seq<RawTable>, init: seq<RawTable>, j: nat)
    requires |init| <= |ts| && init == ts[..|init|] && j <= |init|
    ensures RowsBefore(init, j) == RowsBefore(ts, j)
  {
    if j > 0 {
      RowsBeforePrefix(ts, init, j - 1);
    }
  }

  /**
   * pd.concat keeps every row of every table, table after table, and each
   * cell under its own column name; columns a table lacks read as null.
   */
  lemma ConcatPreservesCells(ts: seq<RawTable>, i: nat, k: nat, name: string)
    requires i < |ts| && k < |ts[i].rows|
    ensures |Concat(ts).rows| == RowsBefore(ts, |ts|)
    ensures RowsBefore(ts, i) + k < |Concat(ts).rows|
    ensures Cell(Concat(ts).header, Concat(ts).rows[RowsBefore(ts, i) + k], name)
            == Cell(ts[i].header, ts[i].rows[k], name)
  {
    var u := UnionHeader(ts);
    AlignedRowsAt(ts, u, i, k);
    assert ts[i] in ts;
    AlignCell(ts[i].header, ts[i].rows[k], u, name);
  }
}
