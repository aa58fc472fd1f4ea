/** The text-building part of `ExportUtils.exportToCsv`: field quoting, the
    comma-joined rows and the newline-terminated output. The quoting follows
    section 2, rules 6 and 7, of RFC 4180: a field holding a comma, a double
    quote or a line break is enclosed in double quotes, and each double
    quote inside it is written twice. */
module ExportUtils {
  import opened Strings

  /** Whether a field must be quoted: it holds ',', '"' or '\n'. */
  predicate NeedsQuoting(field: string)
  {
    ',' in field || '"' in field || '\n' in field
  }

  /** `replace("\"", "\"\"")`: every double quote written twice. */
  function DoubleQuotes(s: string): (r: string)
    ensures |r| == |s| + Occurrences(s, '"')
  {
    if s == [] then ""
    else (if s[0] == '"' then "\"\"" else [s[0]]) + DoubleQuotes(s[1..])
  }

  /** The field-escaping lambda: a field that needs quoting is wrapped in
      double quotes with its own quotes doubled; any other field is emitted
      verbatim. */
  function EscapeField(field: string): (r: string)
    ensures !NeedsQuoting(field) ==> r == field
    ensures NeedsQuoting(field) ==>
      |r| >= 2 && r[0] == '"' && r[|r| - 1] == '"' && r[1..|r| - 1] == DoubleQuotes(field)
  {
    if NeedsQuoting(field) then "\"" + DoubleQuotes(field) + "\"" else field
  }

  /** Reading a doubled quote back as one. */
  function CollapseQuotes(s: string): string
  {
    if s == [] then ""
    else if |s| >= 2 && s[0] == '"' && s[1] == '"' then "\"" + CollapseQuotes(s[2..])
    else [s[0]] + CollapseQuotes(s[1..])
  }

  /** Reading a field back, as a reader of the file would: the enclosing
      quotes are stripped and each "" collapses to ". */
  function UnescapeField(text: string): string
  {
    if |text| >= 2 && text[0] == '"' && text[|text| - 1] == '"' then CollapseQuotes(text[1..|text| - 1])
    else text
  }

  /** Collapsing undoes doubling. */
  lemma {:induction false} CollapseDoubled(s: string)
    ensures CollapseQuotes(DoubleQuotes(s)) == s
  {
    if s != [] {
      CollapseDoubled(s[1..]);
      var d := DoubleQuotes(s[1..]);
      if s[0] == '"' {
        assert DoubleQuotes(s) == "\"\"" + d;
        assert ("\"\"" + d)[2..] == d;
      } else {
        assert DoubleQuotes(s) == [s[0]] + d;
        assert ([s[0]] + d)[1..] == d;
      }
      assert s == [s[0]] + s[1..];
    }
  }

  /** Escaping is invertible: every field is recovered from its escaped form. */
  lemma {:induction false} EscapeRoundTrip(field: string)
    ensures UnescapeField(EscapeField(field)) == field
  {
    var e := EscapeField(field);
    if NeedsQuoting(field) {
      CollapseDoubled(field);
    } else {
      assert '"' !in field;
      assert |e| >= 2 ==> e[0] != '"';
    }
  }

  /** `row.joinToString(",") { escape(it) }`. */
  function EscapedRow(row: seq<string>): string
  {
    Join(EscapeAll(row), ',')
  }

  /** The escaped fields of a row, in order. */
  function EscapeAll(row: seq<string>): (r: seq<string>)
    ensures |r| == |row| && forall i :: 0 <= i < |row| ==> r[i] == EscapeField(row[i])
  {
    seq(|row|, i requires 0 <= i < |row| => EscapeField(row[i]))
  }

  /** The file contents: each row's escaped line followed by '\n', rows in order. */
  function CsvText(data: seq<seq<string>>): string
  {
    if data == [] then "" else CsvText(data[..|data| - 1]) + EscapedRow(data[|data| - 1]) + "\n"
  }

  /** The export loop: each row, in input order, is written as its escaped
      fields joined by ',' and a '\n'. */
  method ExportCsv(data: seq<seq<string>>) returns (out: string)
    ensures out == CsvText(data)
  {
    out := "";
    for k := 0 to |data|
      invariant out == CsvText(data[..k])
    {
      var row := data[k];
      var line := Join(EscapeAll(row), ',');
      out := out + line + "\n";
      assert data[..k + 1][..k] == data[..k];
    }
    assert data[..|data|] == data;
  }

  // ---------------------------------------------------------------------
  // Line terminators, as a reader counts them
  // ---------------------------------------------------------------------

  /** A reader's scan of CSV text: it toggles between outside and inside a
      quoted field at each '"', and counts the '\n's it meets outside quotes,
      which are the record terminators. */
  function Scan(s: string, quoted: bool): (bool, nat)
  {
    if s == [] then (quoted, 0)
    else
      var next := if s[0] == '"' then !quoted else quoted;
      var rest := Scan(s[1..], next);
      (rest.0, rest.1 + (if s[0] == '\n' && !quoted then 1 else 0))
  }

  /** Scanning one character. */
  lemma {:induction false} ScanOne(c: char, quoted: bool)
    ensures Scan([c], quoted)
      == (if c == '"' then !quoted else quoted, if c == '\n' && !quoted then 1 else 0)
  {
    assert [c][1..] == [];
  }

  /** Scanning a concatenation scans the second part from where the first ended. */
  lemma {:induction false} ScanAppend(a: string, b: string, quoted: bool)
    ensures Scan(a + b, quoted)
      == (Scan(b, Scan(a, quoted).0).0, Scan(a, quoted).1 + Scan(b, Scan(a, quoted).0).1)
  {
    if a != [] {
      var next := if a[0] == '"' then !quoted else quoted;
      assert (a + b)[1..] == a[1..] + b;
      ScanAppend(a[1..], b, next);
    } else {
      assert a + b == b;
    }
  }

  /** Text without quotes and line breaks leaves the scan where it was. */
  lemma {:induction false} ScanPlain(s: string, quoted: bool)
    requires '"' !in s && '\n' !in s
    ensures Scan(s, quoted) == (quoted, 0)
  {
    if s != [] {
      assert forall c :: c in s[1..] ==> c in s;
      ScanPlain(s[1..], quoted);
    }
  }

  /** Inside quotes, a doubled text is read as staying inside, with no terminator. */
  lemma {:induction false} ScanDoubled(s: string)
    ensures Scan(DoubleQuotes(s), true) == (true, 0)
  {
    if s != [] {
      ScanDoubled(s[1..]);
      var head := if s[0] == '"' then "\"\"" else [s[0]];
      ScanAppend(head, DoubleQuotes(s[1..]), true);
      if s[0] == '"' {
        ScanOne('"', true);
        ScanAppend("\"", "\"", true);
        ScanOne('"', false);
        assert head == "\"" + "\"";
      } else {
        ScanOne(s[0], true);
      }
    }
  }

  /** An escaped field is read as one field: the scan ends outside quotes
      and meets no terminator. */
  lemma {:induction false} ScanEscapedField(field: string)
    ensures Scan(EscapeField(field), false) == (false, 0)
  {
    if NeedsQuoting(field) {
      var d := DoubleQuotes(field);
      ScanDoubled(field);
      ScanOne('"', false);
      ScanOne('"', true);
      ScanAppend("\"", d, false);
      ScanAppend("\"" + d, "\"", false);
    } else {
      ScanPlain(field, false);
    }
  }

  /** A line of escaped fields joined by ',' holds no terminator and ends outside quotes. */
  lemma {:induction false} ScanJoinedFields(fields: seq<string>)
    requires forall i :: 0 <= i < |fields| ==> Scan(fields[i], false) == (false, 0)
    ensures Scan(Join(fields, ','), false) == (false, 0)
  {
    if |fields| == 1 {
    } else if |fields| > 1 {
      var init := fields[..|fields| - 1];
      ScanJoinedFields(init);
      ScanOne(',', false);
      ScanAppend(Join(init, ',') + [','], fields[|fields| - 1], false);
      ScanAppend(Join(init, ','), [','], false);
    }
  }

  /** The exported text holds exactly one record terminator per row: a
      reader that honours the quoting counts |data| line ends, whatever
      commas, quotes and line breaks the fields contain. */
  lemma {:induction false} OneTerminatorPerRow(data: seq<seq<string>>)
    ensures Scan(CsvText(data), false) == (false, |data|)
  {
    if data != [] {
      var init := data[..|data| - 1];
      var line := EscapedRow(data[|data| - 1]);
      OneTerminatorPerRow(init);
      var fields := EscapeAll(data[|data| - 1]);
      forall i | 0 <= i < |fields|
        ensures Scan(fields[i], false) == (false, 0)
      {
        ScanEscapedField(data[|data| - 1][i]);
      }
      ScanJoinedFields(fields);
      assert Scan(line, false) == (false, 0);
      ScanOne('\n', false);
      ScanAppend(CsvText(init) + line, "\n", false);
      ScanAppend(CsvText(init), line, false);
    }
  }
}
