/** The derived values of the invocation-details panel: the rows it lists (everything but the
    `request` rows), the row selected in the dialog, the timestamp of the row after it, and the
    approximate time the selected step took. Timestamp parsing (`Date.parse`) is a parameter that
    yields whole milliseconds, or `None` where the source gets a value that is not finite. */
module InvocationDetails {

  import opened Wrappers
  import opened JsValues

  /** A row of the details query, with the columns the panel reads (`timestamp`, `itemType`, ...). */
  type DetailRow = JsonObject

  /** The invocation the panel belongs to; `durationMs` is `None` where the source's number is not
      finite. */
  datatype InvocationMeta = InvocationMeta(timestamp: string, success: bool, durationMs: Option<int>, operationId: string)

  /** `toStringSafe`: null and undefined become the empty string, anything else its string form. */
  function ToStringSafe(v: Value): (s: string)
    ensures Nullish(v) ==> s == ""
    ensures !Nullish(v) ==> s == JsString(v)
    ensures v.Str? ==> s == v.s
  {
    if Nullish(v) then "" else JsString(v)
  }

  /** `toTimeMs`: no time for an empty string, otherwise whatever the parser makes of it. */
  function ToTimeMs(v: Value, parse: string -> Option<int>): (t: Option<int>)
    ensures ToStringSafe(v) == "" ==> t == None
    ensures ToStringSafe(v) != "" ==> t == parse(ToStringSafe(v))
    ensures Nullish(v) ==> t == None
  {
    var s := ToStringSafe(v);
    if s == "" then None else parse(s)
  }

  /** A row is a request row when its `itemType`, as a string and lower-cased, is `request`. */
  predicate IsRequest(row: DetailRow)
  {
    ToLowerAscii(ToStringSafe(Get(row, "itemType"))) == "request"
  }

  /** Lower-casing and comparing with `request` is the same as comparing without regard to
      letter case. */
  lemma IsRequestIgnoresCase(row: DetailRow)
    ensures IsRequest(row) <==> EqualsIgnoreCase(ToStringSafe(Get(row, "itemType")), "request")
  {
    var s := ToStringSafe(Get(row, "itemType"));
    var lower := ToLowerAscii(s);
    if EqualsIgnoreCase(s, "request") {
      forall i | 0 <= i < |s| ensures lower[i] == "request"[i] {
        LowerOfLetter(s[i], "request"[i]);
      }
    }
    if lower == "request" {
      forall i | 0 <= i < |s| ensures UpperAscii(s[i]) == UpperAscii("request"[i]) {
        LowerOfLetter(s[i], "request"[i]);
      }
    }
  }

  /** For a lower-case letter `d`, `c` lower-cases to `d` exactly when `c` and `d` agree up to case. */
  lemma LowerOfLetter(c: char, d: char)
    requires 'a' <= d <= 'z'
    ensures LowerAscii(c) == d <==> UpperAscii(c) == UpperAscii(d)
  {
  }

  /** `a` is `b` with some elements left out, the rest in their order. */
  predicate Subsequence<T(==)>(a: seq<T>, b: seq<T>)
    decreases |b|
  {
    if |b| == 0 then |a| == 0
    else Subsequence(a, b[1..]) || (|a| > 0 && a[0] == b[0] && Subsequence(a[1..], b[1..]))
  }

  /** `filteredRows`: the rows that are not request rows, in their order (`FilteredRowsInOrder`),
      each as often as it occurs (`FilteredRowsCounts`). */
  function FilteredRows(rows: seq<DetailRow>): (r: seq<DetailRow>)
    ensures |r| <= |rows|
    ensures forall i :: 0 <= i < |r| ==> !IsRequest(r[i])
  {
    if |rows| == 0 then []
    else if IsRequest(rows[0]) then FilteredRows(rows[1..])
    else [rows[0]] + FilteredRows(rows[1..])
  }

  /** Every row that is not a request row is kept as often as it occurs; request rows are gone. */
  lemma {:induction false} FilteredRowsCounts(rows: seq<DetailRow>)
    ensures forall x :: multiset(FilteredRows(rows))[x] == if IsRequest(x) then 0 else multiset(rows)[x]
  {
    if |rows| > 0 {
      FilteredRowsCounts(rows[1..]);
      assert rows == [rows[0]] + rows[1..];
      assert multiset(rows) == multiset{rows[0]} + multiset(rows[1..]);
    }
  }

  /** The kept rows keep their relative order. */
  lemma {:induction false} FilteredRowsInOrder(rows: seq<DetailRow>)
    ensures Subsequence(FilteredRows(rows), rows)
  {
    if |rows| > 0 {
      FilteredRowsInOrder(rows[1..]);
      var rest := FilteredRows(rows[1..]);
      if !IsRequest(rows[0]) {
        assert ([rows[0]] + rest)[1..] == rest;
      }
    }
  }

  /** `selectedRow`: the row at the selected index, none when nothing is selected or the index is
      past the end. Indices are positions in the listed rows, so never negative. */
  function SelectedRow(filtered: seq<DetailRow>, idx: Option<nat>): (r: Option<DetailRow>)
    ensures r.Some? <==> idx.Some? && idx.value < |filtered|
    ensures r.Some? ==> r.value == filtered[idx.value]
  {
    if idx.Some? && idx.value < |filtered| then Some(filtered[idx.value]) else None
  }

  /** `selectedTs`: the parsed timestamp of the selected row. */
  function SelectedTs(filtered: seq<DetailRow>, idx: Option<nat>, parse: string -> Option<int>): (t: Option<int>)
    ensures t.Some? ==> SelectedRow(filtered, idx).Some?
    ensures SelectedRow(filtered, idx).Some? ==> t == ToTimeMs(Get(SelectedRow(filtered, idx).value, "timestamp"), parse)
  {
    match SelectedRow(filtered, idx)
    case None => None
    case Some(row) => ToTimeMs(Get(row, "timestamp"), parse)
  }

  /** `nextTs`: the parsed timestamp of the row after the selected one; none when nothing is
      selected or the selected row is the last (or past the end). */
  function NextTs(filtered: seq<DetailRow>, idx: Option<nat>, parse: string -> Option<int>): (t: Option<int>)
    ensures idx.None? || idx.value + 1 >= |filtered| ==> t == None
    ensures idx.Some? && idx.value + 1 < |filtered| ==> t == ToTimeMs(Get(filtered[idx.value + 1], "timestamp"), parse)
  {
    if idx.None? || idx.value >= |filtered| - 1 then None
    else ToTimeMs(Get(filtered[idx.value + 1], "timestamp"), parse)
  }

  function Max(a: int, b: int): int
  {
    if a < b then b else a
  }

  /** The end of the invocation, when its timestamp is non-empty, its duration finite and its start
      parses. */
  function InvocationEnd(invocation: Option<InvocationMeta>, parse: string -> Option<int>): Option<int>
  {
    if invocation.Some? && invocation.value.timestamp != "" && invocation.value.durationMs.Some? then
      match parse(invocation.value.timestamp)
      case None => None
      case Some(start) => Some(start + invocation.value.durationMs.value)
    else None
  }

  /** `approxDeltaMs`: how long the selected step took, approximately. It is the gap to the next
      row's time when that parses, otherwise the gap to the end of the invocation when that is
      known; it is never negative and there is none unless a row is selected and its time parses. */
  function ApproxDeltaMs(filtered: seq<DetailRow>, idx: Option<nat>, invocation: Option<InvocationMeta>,
                         parse: string -> Option<int>): (d: Option<int>)
    ensures d.Some? ==> d.value >= 0
    ensures d.Some? ==> idx.Some? && idx.value < |filtered| && SelectedTs(filtered, idx, parse).Some?
    ensures SelectedTs(filtered, idx, parse).Some? && NextTs(filtered, idx, parse).Some? ==>
      var sel := SelectedTs(filtered, idx, parse).value;
      var next := NextTs(filtered, idx, parse).value;
      d == Some(if next < sel then 0 else next - sel) && d.value + sel >= next
    ensures SelectedTs(filtered, idx, parse).Some? && NextTs(filtered, idx, parse).None? ==>
      var sel := SelectedTs(filtered, idx, parse).value;
      match InvocationEnd(invocation, parse)
      case None => d == None
      case Some(end) => d == Some(if end < sel then 0 else end - sel) && d.value + sel >= end
  {
    var selectedTs := SelectedTs(filtered, idx, parse);
    if idx.Some? && selectedTs.Some? then
      match NextTs(filtered, idx, parse)
      case Some(next) => Some(Max(0, next - selectedTs.value))
      case None =>
        match InvocationEnd(invocation, parse)
        case None => None
        case Some(end) => Some(Max(0, end - selectedTs.value))
    else None
  }
}
