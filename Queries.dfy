/** The text of the log queries the viewer sends: the time-range clause, the ranked paging window
    that stands in for a missing "skip" operator, and the quoting of user-supplied values. The
    query language itself is opaque here; only the construction of the text is modelled. */
module Queries {

  import opened Wrappers
  import opened JsValues

  datatype TimeRange = PT24H | P7D | P30D

  /** The relative-age expression for a time range. */
  function TimeRangeToAgo(range: TimeRange): (clause: string)
    ensures AgoToTimeRange(clause) == Some(range)
    ensures |clause| > 5 && clause[..4] == "ago(" && clause[|clause| - 1] == ')'
  {
    match range
    case PT24H => "ago(24h)"
    case P7D => "ago(7d)"
    case P30D => "ago(30d)"
  }

  /** Reads a time range back from its relative-age expression. */
  function AgoToTimeRange(clause: string): Option<TimeRange>
  {
    if clause == "ago(24h)" then Some(PT24H)
    else if clause == "ago(7d)" then Some(P7D)
    else if clause == "ago(30d)" then Some(P30D)
    else None
  }

  // ---------------------------------------------------------------------------
  // The paging window

  /** The inclusive range of row numbers a page keeps. */
  datatype Window = Window(start: nat, end: nat)

  predicate InWindow(rn: int, w: Window)
  {
    w.start <= rn <= w.end
  }

  /** The window of `limit` rows after skipping `offset` rows: row numbers start at 1. */
  function PageWindow(offset: nat, limit: nat): (w: Window)
    ensures forall rn :: InWindow(rn, w) <==> offset < rn <= offset + limit
    ensures limit >= 1 ==> w.start <= w.end && w.end - w.start + 1 == limit
  {
    Window(offset + 1, offset + limit)
  }

  /** Two consecutive pages of one size meet without overlap or gap. */
  lemma AdjacentPagesMeet(offset: nat, limit: nat)
    requires limit >= 1
    ensures PageWindow(offset + limit, limit).start == PageWindow(offset, limit).end + 1
    ensures forall rn :: InWindow(rn, PageWindow(offset, limit)) || InWindow(rn, PageWindow(offset + limit, limit))
                    <==> InWindow(rn, PageWindow(offset, 2 * limit))
    ensures forall rn :: !(InWindow(rn, PageWindow(offset, limit)) && InWindow(rn, PageWindow(offset + limit, limit)))
  {
  }

  /** The pages at offsets 0, limit, 2*limit, ... (what "load more" walks through) tile the ranked
      rows: row number `rn` is kept by exactly one of them, the page `(rn - 1) / limit`. */
  lemma EveryRowInExactlyOnePage(rn: nat, limit: nat, k: nat)
    requires rn >= 1 && limit >= 1
    ensures InWindow(rn, PageWindow(k * limit, limit)) <==> k == (rn - 1) / limit
  {
    var q, r := (rn - 1) / limit, (rn - 1) % limit;
    assert rn - 1 == q * limit + r && 0 <= r < limit;
    if k < q {
      assert (k + 1) * limit <= q * limit by {
        MulMonotone(k + 1, q, limit);
      }
      assert !InWindow(rn, PageWindow(k * limit, limit));
    } else if k > q {
      assert (q + 1) * limit <= k * limit by {
        MulMonotone(q + 1, k, limit);
      }
      assert !InWindow(rn, PageWindow(k * limit, limit));
    } else {
      assert InWindow(rn, PageWindow(k * limit, limit));
    }
  }

  lemma MulMonotone(a: nat, b: nat, c: nat)
    requires a <= b
    ensures a * c <= b * c
  {
  }

  // ---------------------------------------------------------------------------
  // Reading the window back out of its clause

  const RankOpen: string := "rn between ("
  const RankSep: string := " .. "

  function RankClause(w: Window): string
  {
    RankOpen + (NatToDecimal(w.start) + (RankSep + (NatToDecimal(w.end) + ")")))
  }

  /** The length of the run of digits that starts `s`. */
  function SpanDigits(s: string): (n: nat)
    ensures n <= |s| && AllDigits(s[..n]) && (n == |s| || !IsDigit(s[n]))
  {
    if |s| > 0 && IsDigit(s[0]) then
      var m := SpanDigits(s[1..]);
      assert s[..1 + m] == [s[0]] + s[1..][..m];
      1 + m
    else 0
  }

  lemma {:induction false} SpanDigitsOfRun(d: string, rest: string)
    requires AllDigits(d)
    requires rest == [] || !IsDigit(rest[0])
    ensures SpanDigits(d + rest) == |d|
  {
    if |d| > 0 {
      assert (d + rest)[1..] == d[1..] + rest;
      SpanDigitsOfRun(d[1..], rest);
    }
  }

  /** Reads the two bounds back out of the text `rn between (<start> .. <end>)`. */
  function ParseRankClause(c: string): Option<Window>
  {
    var p := RankOpen;
    if |c| < |p| || c[..|p|] != p then None
    else
      var a := c[|p|..];
      var n1 := SpanDigits(a);
      var b := a[n1..];
      if n1 == 0 || |b| < |RankSep| || b[..|RankSep|] != RankSep then None
      else
        var d := b[|RankSep|..];
        var n2 := SpanDigits(d);
        if n2 == 0 || d[n2..] != ")" then None
        else Some(Window(DecimalValue(a[..n1]), DecimalValue(d[..n2])))
  }

  /** A run of digits followed by text that does not start with a digit splits back into the
      two. */
  lemma DigitsThen(d: string, rest: string)
    requires AllDigits(d)
    requires rest == [] || !IsDigit(rest[0])
    ensures SpanDigits(d + rest) == |d|
    ensures (d + rest)[..|d|] == d && (d + rest)[|d|..] == rest
  {
    SpanDigitsOfRun(d, rest);
    assert (d + rest)[..|d|] == d;
    assert (d + rest)[|d|..] == rest;
  }

  lemma RankClauseRoundTrip(w: Window)
    ensures ParseRankClause(RankClause(w)) == Some(w)
  {
    var s, e := NatToDecimal(w.start), NatToDecimal(w.end);
    var a := s + (RankSep + (e + ")"));
    assert (RankOpen + a)[..|RankOpen|] == RankOpen && (RankOpen + a)[|RankOpen|..] == a;
    DigitsThen(s, RankSep + (e + ")"));
    var b := RankSep + (e + ")");
    assert b[..|RankSep|] == RankSep && b[|RankSep|..] == e + ")";
    DigitsThen(e, ")");
    ParseNatOfDecimal(w.start);
    ParseNatOfDecimal(w.end);
  }

  // ---------------------------------------------------------------------------
  // Quoting user-supplied values

  function Count(s: string, c: char): nat
  {
    if |s| == 0 then 0 else (if s[0] == c then 1 else 0) + Count(s[1..], c)
  }

  /** `s.replace(/"/g, '\\"')`: a backslash is put before every double quote; nothing else
      changes, and backslashes already present are not doubled. */
  function EscapeQuotes(s: string): (r: string)
    ensures |r| == |s| + Count(s, '"')
    ensures Count(r, '"') == Count(s, '"')
    ensures Count(r, '\\') == Count(s, '\\') + Count(s, '"')
    ensures forall i :: 0 <= i < |r| && r[i] == '"' ==> i > 0 && r[i - 1] == '\\'
    ensures Count(s, '"') == 0 ==> r == s
  {
    if |s| == 0 then []
    else
      var t := EscapeQuotes(s[1..]);
      if s[0] == '"' then
        var r := ['\\', '"'] + t;
        assert r[2..] == t && r[1..] == ['"'] + t;
        r
      else
        var r := [s[0]] + t;
        assert r[1..] == t;
        r
  }

  /** Removes the backslash of every `\"` pair, scanning left to right. */
  function UnescapeQuotes(r: string): string
  {
    if |r| == 0 then []
    else if |r| >= 2 && r[0] == '\\' && r[1] == '"' then ['"'] + UnescapeQuotes(r[2..])
    else [r[0]] + UnescapeQuotes(r[1..])
  }

  /** Deleting the inserted backslashes gives back the original value. */
  lemma {:induction false} UnescapeEscapeQuotes(s: string)
    ensures UnescapeQuotes(EscapeQuotes(s)) == s
  {
    if |s| > 0 {
      var t := EscapeQuotes(s[1..]);
      UnescapeEscapeQuotes(s[1..]);
      if s[0] == '"' {
        assert EscapeQuotes(s)[2..] == t;
      } else {
        assert EscapeQuotes(s)[1..] == t;
        assert |t| > 0 ==> t[0] != '"';
      }
    }
  }

  // ---------------------------------------------------------------------------
  // The query texts

  predicate OccursAt(s: string, part: string, i: int)
  {
    0 <= i && i + |part| <= |s| && s[i..i + |part|] == part
  }

  predicate Contains(s: string, part: string)
  {
    exists i :: 0 <= i <= |s| && OccursAt(s, part, i)
  }

  predicate EndsWith(s: string, part: string)
  {
    |part| <= |s| && s[|s| - |part|..] == part
  }

  lemma OccursAfter(x: string, part: string)
    ensures OccursAt(x + part, part, |x|)
  {
    assert (x + part)[|x|..|x| + |part|] == part;
  }

  lemma OccursExtended(s: string, part: string, i: int, z: string)
    requires OccursAt(s, part, i)
    ensures OccursAt(s + z, part, i)
  {
    assert (s + z)[i..i + |part|] == s[i..i + |part|];
  }

  /** A query template: its literal pieces and interpolated values, joined in order. */
  function Concat(pieces: seq<string>): string
  {
    if |pieces| == 0 then "" else Concat(pieces[..|pieces| - 1]) + pieces[|pieces| - 1]
  }

  lemma {:induction false} PieceOccurs(pieces: seq<string>, k: nat)
    requires k < |pieces|
    ensures OccursAt(Concat(pieces), pieces[k], |Concat(pieces[..k])|)
  {
    var init := pieces[..|pieces| - 1];
    if k == |pieces| - 1 {
      assert init == pieces[..k];
      OccursAfter(Concat(init), pieces[k]);
    } else {
      PieceOccurs(init, k);
      assert init[k] == pieces[k] && init[..k] == pieces[..k];
      OccursExtended(Concat(init), pieces[k], |Concat(pieces[..k])|, pieces[|pieces| - 1]);
    }
  }

  lemma PieceContained(pieces: seq<string>, k: nat)
    requires k < |pieces|
    ensures Contains(Concat(pieces), pieces[k])
  {
    PieceOccurs(pieces, k);
  }

  lemma {:induction false} ConcatFirst(pieces: seq<string>)
    requires |pieces| > 0 && |pieces[0]| > 0
    ensures |Concat(pieces)| > 0 && Concat(pieces)[0] == pieces[0][0]
  {
    if |pieces| > 1 {
      var init := pieces[..|pieces| - 1];
      ConcatFirst(init);
    } else {
      assert pieces[..0] == [];
    }
  }

  /** The joined pieces neither start nor end with whitespace. */
  predicate Framed(pieces: seq<string>)
  {
    && |pieces| > 0 && |pieces[0]| > 0 && !IsJsWhitespace(pieces[0][0])
    && var last := pieces[|pieces| - 1]; |last| > 0 && !IsJsWhitespace(last[|last| - 1])
  }

  /** The template literals start and end with a line break that `.trim()` removes. */
  lemma {:induction false} TrimFramed(pieces: seq<string>)
    requires Framed(pieces)
    ensures Trim("\n" + Concat(pieces) + "\n") == Concat(pieces)
  {
    ConcatFirst(pieces);
    var text := Concat(pieces);
    assert text[|text| - 1] == pieces[|pieces| - 1][|pieces[|pieces| - 1]| - 1];
    var framed := "\n" + text + "\n";
    assert framed[1..] == text + "\n";
    assert TrimStart(framed) == TrimStart(text + "\n") == text + "\n";
    assert (text + "\n")[..|text|] == text;
    assert TrimEnd(text + "\n") == TrimEnd(text) == text;
  }

  /** The text of a template literal `\n<pieces>\n` after `.trim()`: every piece appears in it. */
  function TrimmedTemplate(pieces: seq<string>): (q: string)
    requires Framed(pieces)
    ensures forall k :: 0 <= k < |pieces| ==> Contains(q, pieces[k])
    ensures EndsWith(q, pieces[|pieces| - 1])
  {
    TrimFramed(pieces);
    PieceOccurs(pieces, |pieces| - 1);
    forall k | 0 <= k < |pieces|
      ensures Contains(Concat(pieces), pieces[k])
    {
      PieceContained(pieces, k);
    }
    Trim("\n" + Concat(pieces) + "\n")
  }

  function AgoFilter(ago: string): string
  {
    "timestamp >= " + ago
  }

  /* The fixed text of the invocations template, between its interpolations. */
  const InvocationsHead: string := "requests\n| where "
  const InvocationsRank: string := "\n| sort by timestamp desc\n| serialize rn = row_number()\n"
  const InvocationsTail: string :=
    "\n| project timestamp, name, success, resultCode, duration, operation_Id, id\n| order by timestamp desc"

  function InvocationsPieces(ago: string, w: Window): seq<string>
  {
    [InvocationsHead, AgoFilter(ago), InvocationsRank, "| where " + RankClause(w), InvocationsTail]
  }

  /** One page of invocations, newest first: rows are ranked after the sort and only the ranks of
      the page window are kept. */
  function InvocationsQuery(range: TimeRange, offset: nat, limit: nat): (q: string)
    ensures Contains(q, AgoFilter(TimeRangeToAgo(range)))
    ensures Contains(q, "| where " + RankClause(PageWindow(offset, limit)))
  {
    var pieces := InvocationsPieces(TimeRangeToAgo(range), PageWindow(offset, limit));
    assert Framed(pieces);
    var q := TrimmedTemplate(pieces);
    assert Contains(q, pieces[1]) && Contains(q, pieces[3]);
    q
  }

  /** A user-supplied value inside a double-quoted string literal of the query. */
  function QuotedLiteral(v: string): string
  {
    "\"" + EscapeQuotes(v) + "\""
  }

  /* The fixed text of the details template, between its interpolations. */
  const DetailsHead: string := "union isfuzzy=true\n  (requests | where "
  const DetailsTraces: string := "),\n  (traces | where "
  const DetailsExceptions: string := "),\n  (exceptions | where "
  const DetailsDependencies: string := "),\n  (dependencies | where "
  const DetailsOperation: string := ")\n| where "
  const DetailsTail: string :=
    "\n| extend itemType = tostring(itemType)"
    + "\n| extend message = coalesce(tostring(message), tostring(outerMessage), tostring(name))"
    + "\n| project timestamp, itemType, message, severityLevel, resultCode, success, duration, type, cloud_RoleName"
    + "\n| order by timestamp asc"

  function DetailsPieces(ago: string, operationId: string): seq<string>
  {
    [ DetailsHead, AgoFilter(ago), DetailsTraces, AgoFilter(ago), DetailsExceptions, AgoFilter(ago),
      DetailsDependencies, AgoFilter(ago), DetailsOperation, "operation_Id == " + QuotedLiteral(operationId),
      DetailsTail ]
  }

  /** All records of one operation within the time range, oldest first. */
  function InvocationDetailsQuery(operationId: string, range: TimeRange): (q: string)
    ensures Contains(q, AgoFilter(TimeRangeToAgo(range)))
    ensures Contains(q, "operation_Id == " + QuotedLiteral(operationId))
  {
    var ago := TimeRangeToAgo(range);
    var pieces := DetailsPieces(ago, operationId);
    DetailsFramed(ago, operationId);
    assert pieces[1] == AgoFilter(ago) && pieces[9] == "operation_Id == " + QuotedLiteral(operationId);
    var q := TrimmedTemplate(pieces);
    assert Contains(q, pieces[1]) && Contains(q, pieces[9]);
    q
  }

  lemma DetailsFramed(ago: string, operationId: string)
    ensures Framed(DetailsPieces(ago, operationId))
  {
  }

  /* The fixed text of the keyword-search template, between its interpolations. */
  const SearchHead: string := "let hits =\n  traces\n  | where "
  const SearchMessage: string := "\n  | where "
  const SearchJoin: string :=
    "\n  | summarize matchCount=count() by operation_Id;\nhits\n| join kind=inner (\n    requests\n    | where "
  const SearchProject: string :=
    "\n    | project timestamp, name, success, resultCode, duration, operation_Id, id\n  ) on operation_Id"
    + "\n| project timestamp, name, success, resultCode, duration, operation_Id, id, matchCount"
    + "\n| order by timestamp desc\n"

  function SearchPieces(ago: string, keyword: string, limit: nat): seq<string>
  {
    [ SearchHead, AgoFilter(ago), SearchMessage, "message has " + QuotedLiteral(keyword), SearchJoin,
      AgoFilter(ago), SearchProject, "| take " + NatToDecimal(limit) ]
  }

  lemma SearchFramed(ago: string, keyword: string, limit: nat)
    ensures Framed(SearchPieces(ago, keyword, limit))
  {
    var d := NatToDecimal(limit);
    assert IsDigit(d[|d| - 1]);
  }

  /** The requests whose operation has a trace mentioning the keyword, each with its number of
      such traces, newest first and at most `limit` of them. */
  function SearchInvocationsByTraceKeywordQuery(keyword: string, range: TimeRange, limit: nat): (q: string)
    ensures Contains(q, AgoFilter(TimeRangeToAgo(range)))
    ensures Contains(q, "message has " + QuotedLiteral(keyword))
    ensures EndsWith(q, "| take " + NatToDecimal(limit))
  {
    var pieces := SearchPieces(TimeRangeToAgo(range), keyword, limit);
    SearchFramed(TimeRangeToAgo(range), keyword, limit);
    var q := TrimmedTemplate(pieces);
    assert Contains(q, pieces[1]) && Contains(q, pieces[3]);
    q
  }
}
