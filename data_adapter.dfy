/** `CsvDataAdapter.loadData(inputStream)`: turns the lines of a CSV file
    into data series. The first line holds the column names; the first column
    is the x axis and every other column becomes one series. Reading the
    lines is left to the caller, and the two number conversions the adapter
    uses, `String.toFloat()` and `Float.toString()`, are parameters. */
module DataAdapter {
  import opened Wrappers
  import opened Strings
  import opened ChartData

  /** `ColorPalettes.Default`, the ten opaque series colours. */
  const DefaultPalette: seq<Color> := [
    Color(0x2196F3, 1.0), Color(0xF44336, 1.0), Color(0x4CAF50, 1.0), Color(0xFF9800, 1.0),
    Color(0x9C27B0, 1.0), Color(0x3F51B5, 1.0), Color(0x009688, 1.0), Color(0xE91E63, 1.0),
    Color(0xFFEB3B, 1.0), Color(0x795548, 1.0)
  ]

  /** One parsed data line: the numeric value of each column that parsed. */
  type Row = map<string, real>

  /** `line.split(",").map { it.trim() }`: the trimmed fields of a line, one
      more than the line has commas; no field holds a comma or starts or ends
      with whitespace. */
  function Fields(line: string): (r: seq<string>)
    ensures |r| == Occurrences(line, ',') + 1
    ensures forall i :: 0 <= i < |r| ==>
      && ',' !in r[i]
      && (r[i] != [] ==> !IsWhitespace(r[i][0]) && !IsWhitespace(r[i][|r[i]| - 1]))
  {
    SplitCount(line, ',');
    var parts := Split(line, ',');
    forall i | 0 <= i < |parts|
      ensures ',' !in Trim(parts[i])
    {
      TrimKeepsAbsent(parts[i], ',');
    }
    TrimAll(parts)
  }

  /** `map { it.trim() }`: each piece trimmed, in order. */
  function TrimAll(parts: seq<string>): (r: seq<string>)
    ensures |r| == |parts|
    ensures forall i :: 0 <= i < |parts| ==> r[i] == Trim(parts[i])
  {
    if parts == [] then [] else [Trim(parts[0])] + TrimAll(parts[1..])
  }

  /** Column j (of the first k) is the last one named `key` whose value parsed. */
  ghost predicate LastParsed(headers: seq<string>, values: seq<string>, toFloat: string -> Option<real>,
                             k: nat, key: string, j: int)
    requires k <= |headers| <= |values|
  {
    && 0 <= j < k && headers[j] == key && toFloat(values[j]).Some?
    && forall j' :: j < j' < k && headers[j'] == key ==> toFloat(values[j']).None?
  }

  /** The row map after the first k columns: each column whose value parses
      stores it under the column's name, left to right. */
  function RowAfter(headers: seq<string>, values: seq<string>, toFloat: string -> Option<real>, k: nat): Row
    requires k <= |headers| <= |values|
  {
    if k == 0 then map[]
    else
      var m0 := RowAfter(headers, values, toFloat, k - 1);
      var parsed := toFloat(values[k - 1]);
      if parsed.Some? then m0[headers[k - 1] := parsed.value] else m0
  }

  /** A column name is in the row exactly when some column of that name parsed. */
  lemma {:induction false} RowAfterKeys(headers: seq<string>, values: seq<string>, toFloat: string -> Option<real>, k: nat)
    requires k <= |headers| <= |values|
    ensures forall j :: 0 <= j < k && toFloat(values[j]).Some? ==> headers[j] in RowAfter(headers, values, toFloat, k)
    ensures forall key :: key in RowAfter(headers, values, toFloat, k) ==>
      exists j :: 0 <= j < k && headers[j] == key && toFloat(values[j]).Some?
  {
    if k > 0 {
      RowAfterKeys(headers, values, toFloat, k - 1);
    }
  }

  /** The value under a name is that of the last column of that name whose
      value parsed: a later column overwrites an earlier one of the same name,
      and a value that does not parse leaves the map as it was. */
  lemma {:induction false} LastParsedWins(headers: seq<string>, values: seq<string>, toFloat: string -> Option<real>,
                                          k: nat, key: string, j: int)
    requires k <= |headers| <= |values|
    requires LastParsed(headers, values, toFloat, k, key, j)
    ensures key in RowAfter(headers, values, toFloat, k)
    ensures RowAfter(headers, values, toFloat, k)[key] == toFloat(values[j]).value
  {
    if j < k - 1 {
      assert LastParsed(headers, values, toFloat, k - 1, key, j);
      LastParsedWins(headers, values, toFloat, k - 1, key, j);
    }
  }

  /** Fields beyond the last header are ignored. */
  lemma {:induction false} ExtraFieldsIgnored(headers: seq<string>, values: seq<string>, extra: seq<string>,
                                              toFloat: string -> Option<real>, k: nat)
    requires k <= |headers| <= |values|
    ensures RowAfter(headers, values + extra, toFloat, k) == RowAfter(headers, values, toFloat, k)
  {
    if k > 0 {
      ExtraFieldsIgnored(headers, values, extra, toFloat, k - 1);
      assert (values + extra)[k - 1] == values[k - 1];
    }
  }

  /** The inner loop of `loadData`: each column's value goes into the row
      under the column's name, when it parses. */
  method ParseRow(headers: seq<string>, values: seq<string>, toFloat: string -> Option<real>) returns (row: Row)
    requires |headers| <= |values|
    ensures row == RowAfter(headers, values, toFloat, |headers|)
  {
    row := map[];
    for j := 0 to |headers|
      invariant row == RowAfter(headers, values, toFloat, j)
    {
      var parsed := toFloat(values[j]);
      if parsed.Some? {
        row := row[headers[j] := parsed.value];
      }
    }
  }

  /** Line i has at least as many fields as there are headers, so it is
      parsed: it has at least |headers| - 1 commas. */
  predicate Kept(lines: seq<string>, headers: seq<string>, i: nat)
    requires i < |lines|
  {
    Occurrences(lines[i], ',') + 1 >= |headers|
  }

  /** The indices, in increasing order, of the lines among 1 .. n-1 that have
      at least as many fields as there are headers. */
  function KeptLines(lines: seq<string>, headers: seq<string>, n: nat): (ix: seq<nat>)
    requires 1 <= n <= |lines|
    ensures forall k :: 0 <= k < |ix| ==> 1 <= ix[k] < n && Kept(lines, headers, ix[k])
    ensures forall k, l :: 0 <= k < l < |ix| ==> ix[k] < ix[l]
    ensures forall i :: 1 <= i < n && Kept(lines, headers, i) ==> i in ix
  {
    if n == 1 then []
    else
      var prev := KeptLines(lines, headers, n - 1);
      if Kept(lines, headers, n - 1) then
        var ix := prev + [n - 1];
        assert forall k :: 0 <= k < |prev| ==> ix[k] == prev[k];
        assert ix[|prev|] == n - 1;
        ix
      else prev
  }

  /** The rows parsed from lines 1 .. n-1. A line with fewer fields than there
      are headers is skipped; every other line gives one row, in order. */
  function Rows(lines: seq<string>, headers: seq<string>, toFloat: string -> Option<real>, n: nat): (r: seq<Row>)
    requires 1 <= n <= |lines|
    ensures |r| <= n - 1
  {
    if n == 1 then []
    else
      var prev := Rows(lines, headers, toFloat, n - 1);
      var values := Fields(lines[n - 1]);
      if |values| < |headers| then prev else prev + [RowAfter(headers, values, toFloat, |headers|)]
  }

  /** Row k is parsed from the k-th kept line, for every file: the lines with
      enough fields are kept, in order, and all the others are skipped. */
  lemma {:induction false} RowsOfKeptLines(lines: seq<string>, headers: seq<string>, toFloat: string -> Option<real>,
                                           n: nat)
    requires 1 <= n <= |lines|
    ensures var ix := KeptLines(lines, headers, n);
      var r := Rows(lines, headers, toFloat, n);
      && |r| == |ix|
      && forall k :: 0 <= k < |ix| ==> r[k] == RowAfter(headers, Fields(lines[ix[k]]), toFloat, |headers|)
  {
    if n > 1 {
      RowsOfKeptLines(lines, headers, toFloat, n - 1);
      assert |Fields(lines[n - 1])| < |headers| <==> !Kept(lines, headers, n - 1);
    }
  }

  /** When every line is too short, every line is skipped. */
  lemma {:induction false} ShortLinesSkipped(lines: seq<string>, headers: seq<string>, toFloat: string -> Option<real>,
                                             n: nat)
    requires 1 <= n <= |lines|
    requires forall i :: 1 <= i < n ==> |Fields(lines[i])| < |headers|
    ensures Rows(lines, headers, toFloat, n) == []
  {
    if n > 1 {
      ShortLinesSkipped(lines, headers, toFloat, n - 1);
    }
  }

  /** The outer loop of `loadData`: the rows of lines 1 .. |lines|-1. */
  method ParseLines(lines: seq<string>, headers: seq<string>, toFloat: string -> Option<real>) returns (data: seq<Row>)
    requires 1 <= |lines|
    ensures data == Rows(lines, headers, toFloat, |lines|)
  {
    data := [];
    for i := 1 to |lines|
      invariant data == Rows(lines, headers, toFloat, i)
    {
      var values := Fields(lines[i]);
      if |values| < |headers| {
        continue;
      }
      var row := ParseRow(headers, values, toFloat);
      data := data + [row];
    }
  }

  /** The point a row gives for an x and a y column, labelled with the x value as text. */
  function PointOf(row: Row, xColumn: string, yColumn: string, floatToString: real -> string): (p: DataPoint)
    requires xColumn in row && yColumn in row
    ensures p.x == row[xColumn] && p.y == row[yColumn] && p.tag == floatToString(p.x)
  {
    DataPoint(row[xColumn], row[yColumn], floatToString(row[xColumn]))
  }

  /** The indices, in increasing order, of the rows holding both columns. */
  function FullRows(data: seq<Row>, xColumn: string, yColumn: string): (ix: seq<nat>)
    ensures forall k :: 0 <= k < |ix| ==> ix[k] < |data| && xColumn in data[ix[k]] && yColumn in data[ix[k]]
    ensures forall k, l :: 0 <= k < l < |ix| ==> ix[k] < ix[l]
    ensures forall i :: 0 <= i < |data| && xColumn in data[i] && yColumn in data[i] ==> i in ix
  {
    if data == [] then []
    else
      var prev := FullRows(data[..|data| - 1], xColumn, yColumn);
      assert forall i :: 0 <= i < |data| - 1 ==> data[..|data| - 1][i] == data[i];
      var r := data[|data| - 1];
      if xColumn in r && yColumn in r then
        var ix := prev + [|data| - 1];
        assert forall k :: 0 <= k < |prev| ==> ix[k] == prev[k];
        assert ix[|prev|] == |data| - 1;
        ix
      else prev
  }

  /** `data.mapNotNull { … }`: one point per row holding both columns, in row
      order; a row missing either column gives none. */
  function Points(data: seq<Row>, xColumn: string, yColumn: string, floatToString: real -> string): (ps: seq<DataPoint>)
    ensures |ps| <= |data|
  {
    if data == [] then []
    else
      var init := data[..|data| - 1];
      var r := data[|data| - 1];
      var prev := Points(init, xColumn, yColumn, floatToString);
      if xColumn in r && yColumn in r then prev + [PointOf(r, xColumn, yColumn, floatToString)] else prev
  }

  /** Point k is made from the k-th row that holds both columns, for every
      list of rows. */
  lemma {:induction false} PointsOfFullRowsInOrder(data: seq<Row>, xColumn: string, yColumn: string,
                                                   floatToString: real -> string)
    ensures var ix := FullRows(data, xColumn, yColumn);
      var ps := Points(data, xColumn, yColumn, floatToString);
      && |ps| == |ix|
      && forall k :: 0 <= k < |ix| ==> ps[k] == PointOf(data[ix[k]], xColumn, yColumn, floatToString)
  {
    if data != [] {
      var init := data[..|data| - 1];
      PointsOfFullRowsInOrder(init, xColumn, yColumn, floatToString);
      var ix0 := FullRows(init, xColumn, yColumn);
      forall k | 0 <= k < |ix0|
        ensures data[ix0[k]] == init[ix0[k]]
      {
      }
      var r := data[|data| - 1];
      if xColumn in r && yColumn in r {
        assert FullRows(data, xColumn, yColumn) == ix0 + [|data| - 1];
        assert Points(data, xColumn, yColumn, floatToString)
          == Points(init, xColumn, yColumn, floatToString) + [PointOf(r, xColumn, yColumn, floatToString)];
      }
    }
  }

  /** Points of consecutive stretches of rows are concatenated: the mapping
      works row by row. */
  lemma {:induction false} PointsAppend(d1: seq<Row>, d2: seq<Row>, xColumn: string, yColumn: string,
                                        floatToString: real -> string)
    ensures Points(d1 + d2, xColumn, yColumn, floatToString)
         == Points(d1, xColumn, yColumn, floatToString) + Points(d2, xColumn, yColumn, floatToString)
  {
    if d2 == [] {
      assert d1 + d2 == d1;
    } else {
      var init := d2[..|d2| - 1];
      PointsAppend(d1, init, xColumn, yColumn, floatToString);
      assert (d1 + d2)[..|d1 + d2| - 1] == d1 + init;
      assert (d1 + d2)[|d1 + d2| - 1] == d2[|d2| - 1];
    }
  }

  /** Every point comes from a row holding both columns. */
  lemma {:induction false} PointsComeFromRows(data: seq<Row>, xColumn: string, yColumn: string, floatToString: real -> string)
    ensures forall p :: p in Points(data, xColumn, yColumn, floatToString) ==>
      exists r :: r in data && xColumn in r && yColumn in r && p == PointOf(r, xColumn, yColumn, floatToString)
  {
    if data != [] {
      var init := data[..|data| - 1];
      PointsComeFromRows(init, xColumn, yColumn, floatToString);
      assert forall q :: q in init ==> q in data;
      assert data[|data| - 1] in data;
    }
  }

  /** Rows that all miss the x or the y column give no points. */
  lemma {:induction false} PointsOfIncompleteRows(data: seq<Row>, xColumn: string, yColumn: string,
                                                  floatToString: real -> string)
    requires forall r :: r in data ==> xColumn !in r || yColumn !in r
    ensures Points(data, xColumn, yColumn, floatToString) == []
  {
    if data != [] {
      var init := data[..|data| - 1];
      assert forall q :: q in init ==> q in data;
      assert data[|data| - 1] in data;
      PointsOfIncompleteRows(init, xColumn, yColumn, floatToString);
    }
  }

  /** When every row holds both columns, the k-th point is made from the k-th row. */
  lemma {:induction false} PointsOfFullRows(data: seq<Row>, xColumn: string, yColumn: string, floatToString: real -> string)
    requires forall r :: r in data ==> xColumn in r && yColumn in r
    ensures |Points(data, xColumn, yColumn, floatToString)| == |data|
    ensures forall k :: 0 <= k < |data| ==>
      Points(data, xColumn, yColumn, floatToString)[k] == PointOf(data[k], xColumn, yColumn, floatToString)
  {
    if data != [] {
      var init := data[..|data| - 1];
      assert forall q :: q in init ==> q in data;
      PointsOfFullRows(init, xColumn, yColumn, floatToString);
      var ps := Points(data, xColumn, yColumn, floatToString);
      var prev := Points(init, xColumn, yColumn, floatToString);
      assert data[|data| - 1] in data;
      assert ps == prev + [PointOf(data[|data| - 1], xColumn, yColumn, floatToString)];
      forall k | 0 <= k < |data|
        ensures ps[k] == PointOf(data[k], xColumn, yColumn, floatToString)
      {
        if k < |data| - 1 {
          assert data[k] == init[k];
        }
      }
    }
  }

  /** The series for column i: named after the column, coloured from the
      palette by i modulo its size, with the points of the x and i-th columns. */
  function SeriesFor(headers: seq<string>, data: seq<Row>, i: nat, floatToString: real -> string): (s: DataSeries)
    requires 1 <= i < |headers|
    ensures s.name == headers[i] && s.color == DefaultPalette[i % |DefaultPalette|]
    ensures s.points == Points(data, headers[0], headers[i], floatToString)
  {
    DataSeries(headers[i], DefaultPalette[i % |DefaultPalette|], Points(data, headers[0], headers[i], floatToString))
  }

  /** The second half of `loadData`: with the first column as x, one series
      per later column, in column order. Without a header there is no x
      column and no series. */
  method BuildSeries(headers: seq<string>, data: seq<Row>, floatToString: real -> string)
    returns (result: seq<DataSeries>)
    ensures headers == [] ==> result == []
    ensures headers != [] ==> |result| == |headers| - 1
    ensures forall i :: 1 <= i < |headers| ==> result[i - 1] == SeriesFor(headers, data, i, floatToString)
  {
    result := [];
    if headers == [] {
      return;
    }
    var xColumn := headers[0];
    for i := 1 to |headers|
      invariant |result| == i - 1
      invariant forall k :: 1 <= k < i ==> result[k - 1] == SeriesFor(headers, data, k, floatToString)
    {
      var yColumn := headers[i];
      var points := Points(data, xColumn, yColumn, floatToString);
      result := result + [DataSeries(yColumn, DefaultPalette[i % |DefaultPalette|], points)];
    }
  }

  /** Loads the series from the lines of a CSV file. No lines give no series.
      Otherwise there is one series per column after the first, that is one
      per comma of the header line, in column order, each built from the
      rows of the lines that have enough fields. */
  method LoadData(lines: seq<string>, toFloat: string -> Option<real>, floatToString: real -> string)
    returns (result: seq<DataSeries>)
    ensures lines == [] ==> result == []
    ensures lines != [] ==> |result| == Occurrences(lines[0], ',')
    ensures lines != [] ==>
      var headers := Fields(lines[0]);
      var data := Rows(lines, headers, toFloat, |lines|);
      forall i :: 1 <= i < |headers| ==> result[i - 1] == SeriesFor(headers, data, i, floatToString)
  {
    if lines == [] {
      return [];
    }
    var headers := Fields(lines[0]);
    var data := ParseLines(lines, headers, toFloat);
    result := BuildSeries(headers, data, floatToString);
  }

  /** Every column of a data line is present and parses. */
  predicate Complete(headers: seq<string>, values: seq<string>, toFloat: string -> Option<real>)
  {
    |values| >= |headers| && forall j :: 0 <= j < |headers| ==> toFloat(values[j]).Some?
  }

  /** A complete line's row holds a value under every column name. */
  lemma {:induction false} CompleteRow(headers: seq<string>, values: seq<string>, toFloat: string -> Option<real>)
    requires Complete(headers, values, toFloat)
    ensures forall c :: c in headers ==> c in RowAfter(headers, values, toFloat, |headers|)
  {
    RowAfterKeys(headers, values, toFloat, |headers|);
    forall c | c in headers
      ensures c in RowAfter(headers, values, toFloat, |headers|)
    {
      var j :| 0 <= j < |headers| && headers[j] == c;
      assert toFloat(values[j]).Some?;
    }
  }

  /** When lines 1 .. n-1 are all complete, none is skipped, and every row
      holds a value under every column name. */
  lemma {:induction false} CompleteLinesAllKept(lines: seq<string>, toFloat: string -> Option<real>, n: nat)
    requires 1 <= n <= |lines|
    requires forall i :: 1 <= i < n ==> Complete(Fields(lines[0]), Fields(lines[i]), toFloat)
    ensures |Rows(lines, Fields(lines[0]), toFloat, n)| == n - 1
    ensures forall r, c :: r in Rows(lines, Fields(lines[0]), toFloat, n) && c in Fields(lines[0]) ==> c in r
  {
    if n > 1 {
      var headers := Fields(lines[0]);
      CompleteLinesAllKept(lines, toFloat, n - 1);
      var values := Fields(lines[n - 1]);
      assert Complete(headers, values, toFloat);
      CompleteRow(headers, values, toFloat);
      var prev := Rows(lines, headers, toFloat, n - 1);
      var row := RowAfter(headers, values, toFloat, |headers|);
      assert Rows(lines, headers, toFloat, n) == prev + [row];
    }
  }

  /** A file whose data lines are all complete gives every series one point
      per data line. */
  lemma {:induction false} CompleteFileFullSeries(lines: seq<string>, toFloat: string -> Option<real>, floatToString: real -> string)
    requires 1 <= |lines|
    requires forall i :: 1 <= i < |lines| ==> Complete(Fields(lines[0]), Fields(lines[i]), toFloat)
    ensures forall i :: 1 <= i < |Fields(lines[0])| ==>
      |SeriesFor(Fields(lines[0]), Rows(lines, Fields(lines[0]), toFloat, |lines|), i, floatToString).points|
        == |lines| - 1
  {
    var headers := Fields(lines[0]);
    var data := Rows(lines, headers, toFloat, |lines|);
    CompleteLinesAllKept(lines, toFloat, |lines|);
    forall i | 1 <= i < |headers|
      ensures |Points(data, headers[0], headers[i], floatToString)| == |data|
    {
      assert headers[0] in headers && headers[i] in headers;
      PointsOfFullRows(data, headers[0], headers[i], floatToString);
    }
  }
}
