/** Reshaping a log-query response: each table's parallel column and row arrays become records
    keyed by column name, and the tables are collected by name. The network call itself is not
    modelled; a response arrives as a value. */
module Logs {

  import opened Wrappers
  import opened JsValues

  datatype Column = Column(name: string, columnType: string)

  /** One table of a response; `rows` is `None` when the response leaves it out. */
  datatype LogsTable = LogsTable(name: string, columns: seq<Column>, rows: Option<seq<seq<Value>>>)

  /** A row as a record: column name to cell. */
  type ResultRow = map<string, Value>

  // ---------------------------------------------------------------------------
  // Assigning keys one after the other

  /** The map `{}` after `m[keys[0]] = vals[0]; ...; m[keys[n-1]] = vals[n-1]`. */
  function AssignAll<K, V>(keys: seq<K>, vals: seq<V>): map<K, V>
    requires |keys| == |vals|
  {
    if |keys| == 0 then map[]
    else AssignAll(keys[..|keys| - 1], vals[..|vals| - 1])[keys[|keys| - 1] := vals[|vals| - 1]]
  }

  /** `i` is the last position holding `keys[i]`. */
  predicate IsLastOccurrence<K(==)>(keys: seq<K>, i: int)
  {
    0 <= i < |keys| && forall j :: i < j < |keys| ==> keys[j] != keys[i]
  }

  lemma {:induction false} AssignAllKeys<K, V>(keys: seq<K>, vals: seq<V>)
    requires |keys| == |vals|
    ensures AssignAll(keys, vals).Keys == set k | k in keys
  {
    if |keys| > 0 {
      var n := |keys| - 1;
      AssignAllKeys(keys[..n], vals[..n]);
      assert keys == keys[..n] + [keys[n]];
      assert (set k | k in keys) == (set k | k in keys[..n]) + {keys[n]};
    }
  }

  /** When a key occurs several times, the value assigned last is the one kept. */
  lemma {:induction false} AssignAllLastWins<K, V>(keys: seq<K>, vals: seq<V>, i: int)
    requires |keys| == |vals| && IsLastOccurrence(keys, i)
    ensures keys[i] in AssignAll(keys, vals) && AssignAll(keys, vals)[keys[i]] == vals[i]
  {
    var n := |keys| - 1;
    if i < n {
      assert IsLastOccurrence(keys[..n], i);
      AssignAllLastWins(keys[..n], vals[..n], i);
    }
  }

  // ---------------------------------------------------------------------------
  // One table

  function ColumnNames(t: LogsTable): (names: seq<string>)
    ensures |names| == |t.columns|
    ensures forall i :: 0 <= i < |t.columns| ==> names[i] == t.columns[i].name
  {
    seq(|t.columns|, i requires 0 <= i < |t.columns| => t.columns[i].name)
  }

  /** `table.rows ?? []`. */
  function RowsOf(t: LogsTable): seq<seq<Value>>
  {
    match t.rows
    case None => []
    case Some(rows) => rows
  }

  /** `r[i]`: a row shorter than the column list reads as undefined past its end. */
  function Cell(r: seq<Value>, i: nat): Value
  {
    if i < |r| then r[i] else Undefined
  }

  function Cells(r: seq<Value>, n: nat): (cells: seq<Value>)
    ensures |cells| == n && forall i :: 0 <= i < n ==> cells[i] == Cell(r, i)
  {
    seq(n, i requires 0 <= i < n => Cell(r, i))
  }

  /** The record built for one row. */
  function RecordOf(cols: seq<string>, r: seq<Value>): ResultRow
  {
    AssignAll(cols, Cells(r, |cols|))
  }

  /** A record has exactly the column names as keys; a column's value is the row's cell at that
      column's last position (cells past the last column are dropped, missing cells are undefined,
      and a duplicated column name takes the value of its later column). */
  lemma RecordOfShape(cols: seq<string>, r: seq<Value>, i: int)
    requires IsLastOccurrence(cols, i)
    ensures RecordOf(cols, r).Keys == set c | c in cols
    ensures RecordOf(cols, r)[cols[i]] == Cell(r, i)
  {
    AssignAllKeys(cols, Cells(r, |cols|));
    AssignAllLastWins(cols, Cells(r, |cols|), i);
  }

  /** The loop of `toObjects` that fills one record. */
  method ToObject(cols: seq<string>, r: seq<Value>) returns (obj: ResultRow)
    ensures obj == RecordOf(cols, r)
    ensures obj.Keys == set c | c in cols
  {
    ghost var cells := Cells(r, |cols|);
    obj := map[];
    for i := 0 to |cols|
      invariant obj == AssignAll(cols[..i], cells[..i])
    {
      assert cols[..i + 1][..i] == cols[..i] && cells[..i + 1][..i] == cells[..i];
      obj := obj[cols[i] := Cell(r, i)];
    }
    assert cols[..|cols|] == cols && cells[..|cols|] == cells;
    AssignAllKeys(cols, cells);
  }

  /** The records of a table, one per row, in row order. */
  function TableObjects(t: LogsTable): seq<ResultRow>
  {
    var rows := RowsOf(t);
    seq(|rows|, k requires 0 <= k < |rows| => RecordOf(ColumnNames(t), rows[k]))
  }

  /** `toObjects`. */
  method ToObjects(t: LogsTable) returns (objs: seq<ResultRow>)
    ensures objs == TableObjects(t)
    ensures |objs| == |RowsOf(t)| && (t.rows == None ==> objs == [])
  {
    var cols := ColumnNames(t);
    var rows := RowsOf(t);
    objs := [];
    for k := 0 to |rows|
      invariant |objs| == k
      invariant forall j :: 0 <= j < k ==> objs[j] == RecordOf(cols, rows[j])
    {
      var obj := ToObject(cols, rows[k]);
      objs := objs + [obj];
    }
  }

  // ---------------------------------------------------------------------------
  // All tables of a response

  /** `data.tables ?? []`. */
  function TablesOf(tables: Option<seq<LogsTable>>): seq<LogsTable>
  {
    match tables
    case None => []
    case Some(ts) => ts
  }

  function TableNames(ts: seq<LogsTable>): seq<string>
  {
    seq(|ts|, i requires 0 <= i < |ts| => ts[i].name)
  }

  function AllTableObjects(ts: seq<LogsTable>): seq<seq<ResultRow>>
  {
    seq(|ts|, i requires 0 <= i < |ts| => TableObjects(ts[i]))
  }

  /** `objectsByTable` after the loop over the tables. */
  function ObjectsByName(tables: Option<seq<LogsTable>>): map<string, seq<ResultRow>>
  {
    var ts := TablesOf(tables);
    AssignAll(TableNames(ts), AllTableObjects(ts))
  }

  /** The keys are the table names; each name maps to the records of the last table carrying
      it; a response without tables gives the empty map. */
  lemma ObjectsByNameShape(tables: Option<seq<LogsTable>>, i: int)
    requires IsLastOccurrence(TableNames(TablesOf(tables)), i)
    ensures ObjectsByName(tables).Keys == set t | t in TablesOf(tables) :: t.name
    ensures ObjectsByName(tables)[TablesOf(tables)[i].name] == TableObjects(TablesOf(tables)[i])
  {
    var ts := TablesOf(tables);
    AssignAllKeys(TableNames(ts), AllTableObjects(ts));
    AssignAllLastWins(TableNames(ts), AllTableObjects(ts), i);
    assert (set n | n in TableNames(ts)) == set t | t in ts :: t.name by {
      forall n | n in TableNames(ts) ensures n in set t | t in ts :: t.name {
        var j :| 0 <= j < |ts| && TableNames(ts)[j] == n;
        assert ts[j] in ts;
      }
      forall t | t in ts ensures t.name in TableNames(ts) {
        var j :| 0 <= j < |ts| && ts[j] == t;
        assert TableNames(ts)[j] == t.name;
      }
    }
  }

  /** The loop `for (const t of data.tables ?? []) objectsByTable[t.name] = toObjects(t)`. */
  method ObjectsByTable(tables: Option<seq<LogsTable>>) returns (byName: map<string, seq<ResultRow>>)
    ensures byName == ObjectsByName(tables)
    ensures byName.Keys == set n | n in TableNames(TablesOf(tables))
    ensures tables == None ==> byName == map[]
  {
    var ts := TablesOf(tables);
    ghost var names, objects := TableNames(ts), AllTableObjects(ts);
    byName := map[];
    for i := 0 to |ts|
      invariant byName == AssignAll(names[..i], objects[..i])
    {
      assert names[..i + 1][..i] == names[..i] && objects[..i + 1][..i] == objects[..i];
      var objs := ToObjects(ts[i]);
      byName := byName[ts[i].name := objs];
    }
    assert names[..|ts|] == names && objects[..|ts|] == objects;
    AssignAllKeys(names, objects);
  }
}
