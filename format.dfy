/** Rendering of the `executeSql` response (`formatOutput`): raw JSON in
    `json` format, otherwise one table or message per result set. */
module Format {
  import opened Wrappers
  import opened Js

  datatype Column = Column(name: string, columnType: string)

  /** One cell; its value may be missing from the response. */
  datatype Cell = Cell(value: Option<string>)

  datatype Row = Row(values: seq<Cell>)

  datatype ExecuteSqlResult = ExecuteSqlResult(
    columns: Option<seq<Column>>,
    rows: Option<seq<Row>>,
    message: Option<string>,
    partialResult: Option<bool>)

  datatype Metadata = Metadata(sqlStatementExecutionTime: Option<string>, rowsAffected: Option<int>)

  datatype ExecuteSqlResponse = ExecuteSqlResponse(
    results: Option<seq<ExecuteSqlResult>>,
    formattedRows: Option<string>,
    message: Option<string>,
    metadata: Option<Metadata>)

  /** JavaScript's `length` of a string: UTF-16 code units, so a character
      outside the Basic Multilingual Plane counts twice. */
  function Utf16Length(s: string): (n: nat)
    ensures n >= |s|
  {
    if s == [] then 0 else Utf16Length(s[..|s| - 1]) + (if s[|s| - 1] as int > 0xFFFF then 2 else 1)
  }

  /** `"-".repeat(n)`. */
  function Dashes(n: nat): string
  {
    seq(n, _ => '-')
  }

  function ColumnNames(columns: seq<Column>): seq<string>
  {
    seq(|columns|, i requires 0 <= i < |columns| => columns[i].name)
  }

  /** The texts `join` produces for the cells: a missing value joins as "". */
  function CellTexts(cells: seq<Cell>): seq<string>
  {
    seq(|cells|, i requires 0 <= i < |cells| => match cells[i].value case Some(v) => v case None => "")
  }

  function HeaderLine(columns: seq<Column>): string
  {
    Join(ColumnNames(columns), "\t")
  }

  function RowLine(row: Row): string
  {
    Join(CellTexts(row.values), "\t")
  }

  /** The header, a line of dashes as long as the header, then the rows. */
  function TableLines(columns: seq<Column>, rows: seq<Row>): seq<string>
  {
    var header := HeaderLine(columns);
    [header, Dashes(Utf16Length(header))] + RowLines(rows, |rows|)
  }

  /** The lines of the first `n` rows. */
  function RowLines(rows: seq<Row>, n: nat): seq<string>
    requires n <= |rows|
  {
    seq(n, k requires 0 <= k < n => RowLine(rows[k]))
  }

  /** A table is printed when the result has both columns and rows (even
      empty ones); otherwise a truthy message; otherwise nothing. */
  function ResultLines(r: ExecuteSqlResult): seq<string>
  {
    if r.columns.Some? && r.rows.Some? then TableLines(r.columns.value, r.rows.value)
    else if StringTruthy(r.message) then [r.message.value]
    else []
  }

  /** The lines of several result sets, one after the other. */
  function ResultsLines(rs: seq<ExecuteSqlResult>): seq<string>
  {
    if rs == [] then [] else ResultsLines(rs[..|rs| - 1]) + ResultLines(rs[|rs| - 1])
  }

  function ResponseLines(response: ExecuteSqlResponse): seq<string>
  {
    if response.results.Some? then ResultsLines(response.results.value) else []
  }

  /** Every line followed by a newline. */
  function Unlines(lines: seq<string>): string
  {
    if lines == [] then "" else Unlines(lines[..|lines| - 1]) + lines[|lines| - 1] + "\n"
  }

  /** For text inside the Basic Multilingual Plane, the JavaScript length
      is the number of characters. */
  lemma {:induction false} Utf16LengthBmp(s: string)
    requires forall i :: 0 <= i < |s| ==> s[i] as int <= 0xFFFF
    ensures Utf16Length(s) == |s|
  {
    if s != [] {
      Utf16LengthBmp(s[..|s| - 1]);
    }
  }

  /** A table is its header, a separator of dashes exactly as long (in
      JavaScript's measure) as the header, then one line per row; the
      header and each row line split on tabs back into the column names
      and the cell texts when none of those contains a tab. */
  lemma TableLayout(r: ExecuteSqlResult)
    requires r.columns.Some? && r.rows.Some?
    ensures var lines := ResultLines(r); var rows := r.rows.value;
      && |lines| == 2 + |rows|
      && lines[0] == HeaderLine(r.columns.value)
      && Utf16Length(lines[0]) == |lines[1]|
      && (forall i :: 0 <= i < |lines[1]| ==> lines[1][i] == '-')
      && (forall k :: 0 <= k < |rows| ==> lines[k + 2] == RowLine(rows[k]))
  {
  }

  /** Round trip for the header line: splitting it on tabs gives back the
      column names, when there is at least one and none contains a tab. */
  lemma HeaderSplitsIntoNames(columns: seq<Column>)
    requires columns != []
    requires forall i :: 0 <= i < |columns| ==> '\t' !in columns[i].name
    ensures Split(HeaderLine(columns), '\t') == ColumnNames(columns)
  {
    SplitJoin(ColumnNames(columns), '\t');
  }

  /** Round trip for a row line: splitting it on tabs gives back the cell
      texts, when there is at least one cell and none contains a tab. */
  lemma RowSplitsIntoCells(row: Row)
    requires row.values != []
    requires forall i :: 0 <= i < |row.values| ==> '\t' !in CellTexts(row.values)[i]
    ensures Split(RowLine(row), '\t') == CellTexts(row.values)
  {
    SplitJoin(CellTexts(row.values), '\t');
  }

  /** Without a table, a truthy message is printed on its own line, and a
      result with neither prints nothing. */
  lemma MessageOrNothing(r: ExecuteSqlResult)
    requires r.columns.None? || r.rows.None?
    ensures StringTruthy(r.message) ==> Unlines(ResultLines(r)) == r.message.value + "\n"
    ensures !StringTruthy(r.message) ==> Unlines(ResultLines(r)) == ""
  {
    if StringTruthy(r.message) {
      UnlinesSnoc([], r.message.value);
      assert [] + [r.message.value] == [r.message.value];
    }
  }

  /** The single-cell example: column `n`, one row holding `1`. */
  lemma OneCellExample()
    ensures Unlines(ResponseLines(ExecuteSqlResponse(
      Some([ExecuteSqlResult(Some([Column("n", "INT64")]), Some([Row([Cell(Some("1"))])]), None, None)]),
      None, None, None))) == "n\n-\n1\n"
  {
    var r := ExecuteSqlResult(Some([Column("n", "INT64")]), Some([Row([Cell(Some("1"))])]), None, None);
    OneCellLines(r);
    assert ResultsLines([r]) == ["n", "-", "1"] by { assert [r][..0] == []; }
    ThreeLines("n", "-", "1");
  }

  lemma ThreeLines(a: string, b: string, c: string)
    ensures Unlines([a, b, c]) == a + "\n" + b + "\n" + c + "\n"
  {
    UnlinesSnoc([], a);
    assert [] + [a] == [a];
    UnlinesSnoc([a], b);
    assert [a] + [b] == [a, b];
    UnlinesSnoc([a, b], c);
    assert [a, b] + [c] == [a, b, c];
  }

  lemma OneCellLines(r: ExecuteSqlResult)
    requires r == ExecuteSqlResult(Some([Column("n", "INT64")]), Some([Row([Cell(Some("1"))])]), None, None)
    ensures ResultLines(r) == ["n", "-", "1"]
  {
    assert ColumnNames([Column("n", "INT64")]) == ["n"];
    assert HeaderLine(r.columns.value) == "n";
    assert CellTexts([Cell(Some("1"))]) == ["1"];
    assert RowLine(Row([Cell(Some("1"))])) == "1";
    assert Utf16Length("n") == 1 by { assert "n"[..0] == ""; }
    assert Dashes(1) == "-";
  }

  lemma {:induction false} UnlinesAppend(a: seq<string>, b: seq<string>)
    ensures Unlines(a + b) == Unlines(a) + Unlines(b)
    decreases |b|
  {
    if b == [] {
      assert a + b == a;
    } else {
      var b' := b[..|b| - 1];
      assert (a + b)[..|a + b| - 1] == a + b';
      UnlinesAppend(a, b');
    }
  }

  lemma UnlinesSnoc(lines: seq<string>, line: string)
    ensures Unlines(lines + [line]) == Unlines(lines) + line + "\n"
  {
    assert (lines + [line])[..|lines|] == lines;
  }

  lemma RowLinesSnoc(rows: seq<Row>, n: nat)
    requires n < |rows|
    ensures RowLines(rows, n + 1) == RowLines(rows, n) + [RowLine(rows[n])]
  {
  }

  /** Writes a table: header, separator, then the rows one by one. */
  method WriteTable(out0: string, columns: seq<Column>, rows: seq<Row>) returns (out: string)
    ensures out == out0 + Unlines(TableLines(columns, rows))
  {
    var header := HeaderLine(columns);
    var separator := Dashes(Utf16Length(header));
    out := out0 + header + "\n";
    out := out + separator + "\n";
    ghost var top := [header, separator];
    TwoLines(header, separator);
    assert top + RowLines(rows, 0) == top;
    var j := 0;
    while j < |rows|
      invariant 0 <= j <= |rows|
      invariant out == out0 + Unlines(top + RowLines(rows, j))
    {
      out := out + RowLine(rows[j]) + "\n";
      AppendRowLine(top, rows, j);
      j := j + 1;
    }
  }

  lemma TwoLines(a: string, b: string)
    ensures Unlines([a, b]) == a + "\n" + b + "\n"
  {
    UnlinesSnoc([], a);
    assert [] + [a] == [a];
    UnlinesSnoc([a], b);
    assert [a] + [b] == [a, b];
  }

  lemma AppendRowLine(top: seq<string>, rows: seq<Row>, j: nat)
    requires j < |rows|
    ensures Unlines(top + RowLines(rows, j + 1)) == Unlines(top + RowLines(rows, j)) + RowLine(rows[j]) + "\n"
  {
    UnlinesSnoc(top + RowLines(rows, j), RowLine(rows[j]));
    RowLinesSnoc(rows, j);
    assert (top + RowLines(rows, j)) + [RowLine(rows[j])] == top + RowLines(rows, j + 1);
  }

  /** Writes one result set: its table or its message, or nothing. */
  method WriteResult(out0: string, result: ExecuteSqlResult) returns (out: string)
    ensures out == out0 + Unlines(ResultLines(result))
  {
    if result.columns.Some? && result.rows.Some? {
      out := WriteTable(out0, result.columns.value, result.rows.value);
    } else if result.message.Some? && result.message.value != "" {
      out := out0 + result.message.value + "\n";
      UnlinesSnoc([], result.message.value);
      assert [] + [result.message.value] == [result.message.value];
    } else {
      out := out0;
      assert out0 + "" == out0;
    }
  }

  /** The text branch of `formatOutput`: write each result set's table or
      message to the output, line by line. */
  method FormatText(response: ExecuteSqlResponse) returns (out: string)
    ensures out == Unlines(ResponseLines(response))
  {
    out := "";
    if response.results.Some? && |response.results.value| > 0 {
      var results := response.results.value;
      var i := 0;
      while i < |results|
        invariant 0 <= i <= |results|
        invariant out == Unlines(ResultsLines(results[..i]))
      {
        out := WriteResult(out, results[i]);
        assert results[..i + 1][..i] == results[..i];
        UnlinesAppend(ResultsLines(results[..i]), ResultLines(results[i]));
        i := i + 1;
      }
      assert results[..i] == results;
    }
  }

  /** `formatOutput`: in `json` format the response's JSON serialisation
      (given, since the serialiser is not part of this model) and a
      newline; in any other format the text rendering. */
  method FormatOutput(response: ExecuteSqlResponse, format: string, json: string) returns (out: string)
    ensures format == "json" ==> out == json + "\n"
    ensures format != "json" ==> out == Unlines(ResponseLines(response))
  {
    if format == "json" {
      out := json + "\n";
      return;
    }
    out := FormatText(response);
  }
}
