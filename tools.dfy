/** The eight database tools. Each one logs its reasoning panel, runs one
    statement inside a cursor scope that never commits and turns the rows into text.
    Six of them turn a database failure into a fixed error text; the
    primary-key and foreign-key tools let it propagate. The database is an
    oracle that answers each statement text with rows or an exception. */
module Tools {
  import opened Wrappers
  import opened Text
  import opened Identifiers
  import opened Logging
  import opened Gate
  import opened Messages

  // ---------------------------------------------------------------------
  // rows and the database oracle

  /** A row of `PRAGMA table_info`. */
  datatype ColumnInfo = ColumnInfo(cid: int, name: string, declType: string, notNull: int, defaultValue: Scalar, pk: int)

  /** A row of `PRAGMA foreign_key_list`. */
  datatype ForeignKeyInfo = ForeignKeyInfo(
    id: int, seqNo: int, table: string, fromColumn: string, toColumn: string,
    onUpdate: string, onDelete: string, matchKind: string)

  type Row = seq<Scalar>

  /** What a cursor holds after a statement: `cursor.description` (`None`
      for a statement that returns no columns) and the fetched rows. */
  datatype ResultSet = ResultSet(description: Option<seq<string>>, rows: seq<Row>)

  /** The answer sqlite3 gives each statement text, or the text of the
      exception it raises. */
  datatype Database = Database(
    tableNames: Result<seq<string>, string>,
    tableInfo: string -> Result<seq<ColumnInfo>, string>,
    rowCount: string -> Result<nat, string>,
    foreignKeyList: string -> Result<seq<ForeignKeyInfo>, string>,
    query: string -> Result<ResultSet, string>)

  /** How the body of the cursor scope ends for a fetch. */
  function Outcome<T>(fetched: Result<T, string>): (b: BodyOutcome)
    ensures b.Completed? <==> fetched.Success?
  {
    match fetched
    case Success(_) => Completed
    case Failure(e) => Raised(e)
  }

  // ---------------------------------------------------------------------
  // the statements

  const ListTablesSql: string := "SELECT name FROM sqlite_master WHERE type='table' AND name NOT LIKE 'sqlite_%';"

  function TableInfoSql(tableName: string): string
  {
    "PRAGMA table_info(" + Quote(tableName) + ");"
  }

  function CountSql(tableName: string): string
  {
    "SELECT COUNT(*) FROM " + Quote(tableName) + ";"
  }

  function SampleSql(tableName: string, rowSampleSize: int): string
  {
    "SELECT * FROM " + Quote(tableName) + (" LIMIT " + IntToString(rowSampleSize) + ";")
  }

  function ForeignKeySql(tableName: string): string
  {
    "PRAGMA foreign_key_list(" + Quote(tableName) + ");"
  }

  /** In every statement a tool builds from a table name, the quoted
      identifier reads back as exactly that name and is followed by the
      rest of the statement, whatever quotes the name contains. */
  lemma TableInfoSqlQuotesName(tableName: string)
    ensures ReadQuoted(TableInfoSql(tableName)[|"PRAGMA table_info("| + 1..]) == Some((tableName, ");"))
  {
    QuotedInStatement("PRAGMA table_info(", tableName, ");");
  }

  lemma CountSqlQuotesName(tableName: string)
    ensures ReadQuoted(CountSql(tableName)[|"SELECT COUNT(*) FROM "| + 1..]) == Some((tableName, ";"))
  {
    QuotedInStatement("SELECT COUNT(*) FROM ", tableName, ";");
  }

  lemma SampleSqlQuotesName(tableName: string, rowSampleSize: int)
    ensures ReadQuoted(SampleSql(tableName, rowSampleSize)[|"SELECT * FROM "| + 1..])
         == Some((tableName, " LIMIT " + IntToString(rowSampleSize) + ";"))
  {
    QuotedInStatement("SELECT * FROM ", tableName, " LIMIT " + IntToString(rowSampleSize) + ";");
  }

  lemma ForeignKeySqlQuotesName(tableName: string)
    ensures ReadQuoted(ForeignKeySql(tableName)[|"PRAGMA foreign_key_list("| + 1..]) == Some((tableName, ");"))
  {
    QuotedInStatement("PRAGMA foreign_key_list(", tableName, ");");
  }

  /** The scope of every tool is opened with `readonly` left at its
      default, so it neither commits nor rolls back, whatever its statement
      and however it ends. */
  lemma ToolScopesNeverCommit(sql: string, body: BodyOutcome)
    ensures Commit !in ScopeEvents(true, [sql], body)
    ensures Rollback !in ScopeEvents(true, [sql], body)
  {
    ScopeCommitsIff(true, [sql], body);
    ScopeRollsBackIff(true, [sql], body);
  }

  // ---------------------------------------------------------------------
  // what every tool logs

  function ReasoningPanel(title: string, reasoning: string): Record
  {
    Boxed(Panel(Redact("Reasoning: " + reasoning), title, BlueBorderStyle))
  }

  /** `f"[red]Error {what}: {e}[/red]"`. */
  function ErrorLine(what: string, e: string): string
  {
    "[red]Error " + what + ": " + e + "[/red]"
  }

  /** The red log line of an absorbed failure; nothing when the fetch
      succeeded. */
  function ErrorLog<T>(what: string, fetched: Result<T, string>): seq<Record>
  {
    match fetched
    case Success(_) => []
    case Failure(e) => [Line(ErrorLine(what, e))]
  }

  // ---------------------------------------------------------------------
  // list_tables

  const TablesHeader: string := "**Daftar Tabel:**"
  const ListTablesError: string := "Error listing tables."

  function Bullets(tables: seq<string>): (r: seq<string>)
    ensures |r| == |tables|
    ensures forall i | 0 <= i < |r| :: r[i] == "- " + tables[i]
  {
    seq(|tables|, i requires 0 <= i < |tables| => "- " + tables[i])
  }

  function TablesInsight(n: nat): string
  {
    "**Insight:** Database berisi " + NatToString(n) + " tabel yang dapat diakses."
  }

  function ListTablesText(tables: seq<string>): string
  {
    TablesHeader + "\n" + Join("\n", Bullets(tables)) + "\n\n" + TablesInsight(|tables|)
  }

  function ListTablesOutput(fetched: Result<seq<string>, string>): (r: string)
    ensures fetched.Failure? <==> r == ListTablesError
  {
    match fetched
    case Failure(_) => ListTablesError
    case Success(tables) =>
      assert ListTablesText(tables)[0] == '*';
      ListTablesText(tables)
  }

  /** The lines of the list: the header, one `- name` line per table in
      query order (one empty line when there is none), an empty line and
      the insight. */
  function ListTablesLines(tables: seq<string>): seq<string>
  {
    [TablesHeader] + (if tables == [] then [""] else Bullets(tables)) + ["", TablesInsight(|tables|)]
  }

  lemma ListTablesLayout(tables: seq<string>)
    ensures ListTablesText(tables) == Join("\n", ListTablesLines(tables))
  {
    FramedJoin(TablesHeader, Bullets(tables), TablesInsight(|tables|));
  }

  lemma DigitsHaveNoNewline(s: string)
    requires AllDigits(s)
    ensures '\n' !in s
  {
  }

  /** Splitting the output at newlines gives back the lines, so the list
      names every table once, in order, and the insight counts them. */
  lemma ListTablesSplit(tables: seq<string>)
    requires forall i | 0 <= i < |tables| :: '\n' !in tables[i]
    ensures Split(ListTablesText(tables), "\n") == ListTablesLines(tables)
  {
    ListTablesLayout(tables);
    var lines := ListTablesLines(tables);
    DigitsHaveNoNewline(NatToString(|tables|));
    forall k | 0 <= k < |lines| ensures SepFree(lines[k], "\n") {
      if 1 <= k <= |tables| {
        assert lines[k] == "- " + tables[k - 1];
      }
      NewlineFree(lines[k]);
    }
    SplitJoin("\n", lines);
  }

  /** The count can be read back from the insight line. */
  lemma TablesInsightCounts(n: nat, m: nat)
    requires TablesInsight(n) == TablesInsight(m)
    ensures n == m
  {
    var p := "**Insight:** Database berisi ";
    var q := " tabel yang dapat diakses.";
    var a := TablesInsight(n);
    assert a == p + NatToString(n) + q;
    assert TablesInsight(m) == p + NatToString(m) + q;
    assert NatToString(n) == a[|p|..|a| - |q|];
    assert NatToString(m) == a[|p|..|a| - |q|];
    ParseNatToString(n);
    ParseNatToString(m);
  }

  // ---------------------------------------------------------------------
  // get_columns and describe_table

  const GetColumnsError: string := "Error getting columns."
  const DescribeTableError: string := "Error describing table."

  function ColumnNames(cols: seq<ColumnInfo>): (r: seq<string>)
    ensures |r| == |cols|
    ensures forall i | 0 <= i < |r| :: r[i] == cols[i].name
  {
    seq(|cols|, i requires 0 <= i < |cols| => cols[i].name)
  }

  function GetColumnsOutput(fetched: Result<seq<ColumnInfo>, string>): (r: string)
    ensures fetched.Failure? ==> r == GetColumnsError
    ensures fetched.Success? && fetched.value == [] ==> r == ""
  {
    match fetched
    case Failure(_) => GetColumnsError
    case Success(cols) => Join(", ", ColumnNames(cols))
  }

  /** The output splits at ", " into the column names, in schema order,
      when no name contains ", ". */
  lemma GetColumnsSplit(cols: seq<ColumnInfo>)
    requires cols != []
    requires forall i | 0 <= i < |cols| :: !Contains(cols[i].name, ", ")
    ensures Split(GetColumnsOutput(Success(cols)), ", ") == ColumnNames(cols)
  {
    var names := ColumnNames(cols);
    forall k | 0 <= k < |names| ensures SepFree(names[k], ", ") {
      CommaSpaceFree(names[k]);
    }
    SplitJoin(", ", names);
  }

  /** `describe_table`: `str(row)` of each table-info row, one per line;
      `rowRepr` stands for Python's tuple `str`. */
  function DescribeTableOutput(fetched: Result<seq<ColumnInfo>, string>, rowRepr: ColumnInfo -> string): (r: string)
    ensures fetched.Failure? ==> r == DescribeTableError
  {
    match fetched
    case Failure(_) => DescribeTableError
    case Success(rows) => Join("\n", seq(|rows|, i requires 0 <= i < |rows| => rowRepr(rows[i])))
  }

  /** One line per row, in row order. */
  lemma DescribeTableSplit(rows: seq<ColumnInfo>, rowRepr: ColumnInfo -> string)
    requires rows != []
    requires forall i | 0 <= i < |rows| :: '\n' !in rowRepr(rows[i])
    ensures var lines := Split(DescribeTableOutput(Success(rows), rowRepr), "\n");
            |lines| == |rows| && forall i | 0 <= i < |rows| :: lines[i] == rowRepr(rows[i])
  {
    var lines := seq(|rows|, i requires 0 <= i < |rows| => rowRepr(rows[i]));
    forall k | 0 <= k < |lines| ensures SepFree(lines[k], "\n") {
      NewlineFree(lines[k]);
    }
    SplitJoin("\n", lines);
  }

  // ---------------------------------------------------------------------
  // count_rows

  const CountRowsError: string := "Error counting rows."

  /** `str(count)`, which reads back as the count. */
  function CountRowsOutput(fetched: Result<nat, string>): (r: string)
    ensures fetched.Failure? <==> r == CountRowsError
    ensures fetched.Success? ==> Canonical(r) && ParseNat(r) == fetched.value
  {
    match fetched
    case Failure(_) => CountRowsError
    case Success(n) =>
      ParseNatToString(n);
      assert IsDigit(NatToString(n)[0]);
      NatToString(n)
  }

  // ---------------------------------------------------------------------
  // sample_table and execute_sql

  const SampleTableError: string := "Error sampling table."
  const ExecuteSqlError: string := "An error occurred when executing the query. Please check your request."

  /** The text of the TypeError raised by iterating a `None` description. */
  const NoDescriptionError: string := "'NoneType' object is not iterable"

  /** The body of the cursor scope of both query tools: fetch the rows,
      then the column names from the description. */
  function Frame(fetched: Result<ResultSet, string>): (r: Result<(seq<string>, seq<Row>), string>)
    ensures r.Success? <==> fetched.Success? && fetched.value.description.Some?
    ensures r.Success? ==> r.value.1 == fetched.value.rows
  {
    match fetched
    case Failure(e) => Failure(e)
    case Success(rs) =>
      match rs.description
      case None => Failure(NoDescriptionError)
      case Some(columns) => Success((columns, rs.rows))
  }

  const SampleLead: string := "**Insight:** Menampilkan "
  const SampleMiddle: string := " baris sampel dari tabel "
  const SampleClose: string := ". " + "Data ini memberikan gambaran awal tentang isi tabel."

  function SampleInsight(tableName: string, n: nat): string
  {
    SampleLead + (NatToString(n) + (SampleMiddle + tableName + SampleClose))
  }

  /** The frame the query tools build after the scope, as Markdown:
      `render` stands for `DataFrame(rows, columns=columns).to_markdown(index=False)`,
      which raises (the failure) when the rows do not fit the columns. */
  function Rendered(fetched: Result<ResultSet, string>, render: (seq<string>, seq<Row>) -> Result<string, string>)
    : (r: Result<string, string>)
    ensures r.Success? <==> Frame(fetched).Success? && render(Frame(fetched).value.0, Frame(fetched).value.1).Success?
    ensures Frame(fetched).Failure? ==> r == Failure(Frame(fetched).error)
  {
    match Frame(fetched)
    case Failure(e) => Failure(e)
    case Success(frame) => render(frame.0, frame.1)
  }

  /** `sample_table`'s output: the rendered frame, an empty line and the
      insight counting the sampled rows; one error text for every failure
      (the statement's, a missing description, or the frame's). */
  function SampleTableOutput(tableName: string, fetched: Result<ResultSet, string>,
                             render: (seq<string>, seq<Row>) -> Result<string, string>): (r: string)
    ensures Rendered(fetched, render).Failure? ==> r == SampleTableError
    ensures Rendered(fetched, render).Success? ==>
      var insight := SampleInsight(tableName, |fetched.value.rows|);
      EndsWith(r, "\n\n" + insight) &&
      r[..|r| - |insight| - 2] == Rendered(fetched, render).value
  {
    match Rendered(fetched, render)
    case Failure(_) => SampleTableError
    case Success(text) =>
      var insight := SampleInsight(tableName, |fetched.value.rows|);
      var s := text + "\n\n" + insight;
      assert s == text + ("\n\n" + insight);
      s
  }

  /** The sampled-row count and the table name can be read back from the
      insight line. */
  lemma SampleInsightReadBack(t: string, n: nat, u: string, m: nat)
    requires SampleInsight(t, n) == SampleInsight(u, m)
    ensures n == m && t == u
  {
    assert SampleMiddle[0] == ' ';
    NumberedFieldReadBack(SampleLead, SampleMiddle, SampleClose, n, t, m, u);
  }

  const QueryLead: string := "**Insight:** Query menghasilkan "
  const QueryMiddle: string := " baris data. "
  const NoDataNotice: string := "Tidak ada data yang ditemukan untuk permintaan ini."
  const FirstColumnLead: string := "Data menunjukkan informasi relevan dari tabel "
  const FirstColumnClose: string := " dan kolom terkait."

  /** The insight of a query: the row count, then the first column's name or
      the no-data notice; `None` is the IndexError of `columns[0]` for rows
      without columns. */
  function QueryInsight(columns: seq<string>, rowCount: nat): (r: Option<string>)
    ensures r.None? <==> rowCount > 0 && columns == []
  {
    if rowCount > 0 then
      if columns == [] then None
      else Some(QueryLead + (NatToString(rowCount) + (QueryMiddle + (FirstColumnLead + (columns[0] + FirstColumnClose)))))
    else Some(QueryLead + (NatToString(rowCount) + (QueryMiddle + NoDataNotice)))
  }

  /** Which of the two sentences the insight ends with. */
  lemma QueryInsightBranches(columns: seq<string>, rowCount: nat)
    requires QueryInsight(columns, rowCount).Some?
    ensures rowCount == 0 ==> EndsWith(QueryInsight(columns, rowCount).value, NoDataNotice)
    ensures rowCount > 0 ==> EndsWith(QueryInsight(columns, rowCount).value, columns[0] + FirstColumnClose)
  {
    var n := NatToString(rowCount);
    if rowCount == 0 {
      EndsWithPrepend(QueryMiddle, NoDataNotice, NoDataNotice);
      EndsWithPrepend(n, QueryMiddle + NoDataNotice, NoDataNotice);
      EndsWithPrepend(QueryLead, n + (QueryMiddle + NoDataNotice), NoDataNotice);
    } else {
      var tail := columns[0] + FirstColumnClose;
      EndsWithPrepend(FirstColumnLead, tail, tail);
      EndsWithPrepend(QueryMiddle, FirstColumnLead + tail, tail);
      EndsWithPrepend(n, QueryMiddle + (FirstColumnLead + tail), tail);
      EndsWithPrepend(QueryLead, n + (QueryMiddle + (FirstColumnLead + tail)), tail);
    }
  }

  /** The row count can be read back from the insight, whichever sentence
      follows it. */
  lemma QueryInsightReadBack(c: seq<string>, n: nat, d: seq<string>, m: nat)
    requires QueryInsight(c, n).Some? && QueryInsight(d, m).Some?
    requires QueryInsight(c, n).value == QueryInsight(d, m).value
    ensures n == m
  {
    var t := if n > 0 then FirstColumnLead + (c[0] + FirstColumnClose) else NoDataNotice;
    var u := if m > 0 then FirstColumnLead + (d[0] + FirstColumnClose) else NoDataNotice;
    assert QueryMiddle + t == QueryMiddle + t + "";
    assert QueryMiddle + u == QueryMiddle + u + "";
    assert QueryMiddle[0] == ' ';
    NumberedFieldReadBack(QueryLead, QueryMiddle, "", n, t, m, u);
  }

  /** `execute_sql`'s output: the rendered frame, an empty line and the
      insight; one error text for every failure (the statement's, a missing
      description, the frame's, or the IndexError of the insight). */
  function ExecuteSqlOutput(fetched: Result<ResultSet, string>,
                            render: (seq<string>, seq<Row>) -> Result<string, string>): (r: string)
    ensures Rendered(fetched, render).Failure? ==> r == ExecuteSqlError
    ensures Rendered(fetched, render).Success? ==>
      var columns := fetched.value.description.value;
      var rows := fetched.value.rows;
      match QueryInsight(columns, |rows|)
      case None => r == ExecuteSqlError
      case Some(insight) =>
        EndsWith(r, "\n\n" + insight) && r[..|r| - |insight| - 2] == Rendered(fetched, render).value
  {
    match Rendered(fetched, render)
    case Failure(_) => ExecuteSqlError
    case Success(text) =>
      var columns := fetched.value.description.value;
      match QueryInsight(columns, |fetched.value.rows|)
      case None => ExecuteSqlError
      case Some(insight) =>
        var s := text + "\n\n" + insight;
        assert s == text + ("\n\n" + insight);
        s
  }

  // ---------------------------------------------------------------------
  // get_primary_keys and get_foreign_keys

  /** The key heuristic: a primary-key column, or a name ending in the
      case-sensitive suffix "ID". */
  predicate IsKeyColumn(c: ColumnInfo)
  {
    c.pk > 0 || EndsWith(c.name, "ID")
  }

  /** `a` is `b` with some elements left out, the rest in order. */
  predicate SubsequenceOf(a: seq<string>, b: seq<string>)
    decreases |b|
  {
    if a == [] then true
    else if b == [] then false
    else (a[0] == b[0] && SubsequenceOf(a[1..], b[1..])) || SubsequenceOf(a, b[1..])
  }

  /** Some key column of `cols` is called `name`. */
  predicate KeyNamed(cols: seq<ColumnInfo>, name: string)
  {
    exists i | 0 <= i < |cols| :: cols[i].name == name && IsKeyColumn(cols[i])
  }

  lemma KeyNamedTail(cols: seq<ColumnInfo>, name: string)
    requires cols != []
    ensures KeyNamed(cols, name) <==> (cols[0].name == name && IsKeyColumn(cols[0])) || KeyNamed(cols[1..], name)
  {
    if KeyNamed(cols, name) && !(cols[0].name == name && IsKeyColumn(cols[0])) {
      var i :| 0 <= i < |cols| && cols[i].name == name && IsKeyColumn(cols[i]);
      assert cols[1..][i - 1] == cols[i];
    }
    if KeyNamed(cols[1..], name) {
      var i :| 0 <= i < |cols| - 1 && cols[1..][i].name == name && IsKeyColumn(cols[1..][i]);
      assert cols[i + 1] == cols[1..][i];
    }
  }

  /** The names of the key columns, in schema order. */
  function KeyColumns(cols: seq<ColumnInfo>): (r: seq<string>)
    ensures |r| <= |cols|
    ensures SubsequenceOf(r, ColumnNames(cols))
    ensures forall name :: name in r <==> KeyNamed(cols, name)
  {
    if cols == [] then []
    else
      var rest := KeyColumns(cols[1..]);
      assert ColumnNames(cols)[1..] == ColumnNames(cols[1..]);
      assert forall name :: KeyNamed(cols, name) <==> (cols[0].name == name && IsKeyColumn(cols[0])) || KeyNamed(cols[1..], name) by {
        forall name { KeyNamedTail(cols, name); }
      }
      if IsKeyColumn(cols[0]) then [cols[0].name] + rest else rest
  }

  lemma {:induction false} SubsequenceMembers(a: seq<string>, b: seq<string>)
    requires SubsequenceOf(a, b)
    ensures forall x | x in a :: x in b
    decreases |b|
  {
    if a != [] && b != [] {
      if a[0] == b[0] && SubsequenceOf(a[1..], b[1..]) {
        SubsequenceMembers(a[1..], b[1..]);
        assert forall x | x in a :: x == a[0] || x in a[1..];
      } else {
        SubsequenceMembers(a, b[1..]);
      }
    }
  }

  /** SQLite refuses two columns of one name; with distinct names the
      contract of `KeyColumns` has one solution: a subsequence of the
      column names that holds exactly the key names is the key list. */
  lemma {:induction false} KeyColumnsUnique(cols: seq<ColumnInfo>, r: seq<string>)
    requires forall i, j | 0 <= i < j < |cols| :: cols[i].name != cols[j].name
    requires SubsequenceOf(r, ColumnNames(cols))
    requires forall name :: name in r <==> KeyNamed(cols, name)
    ensures r == KeyColumns(cols)
    decreases |cols|
  {
    var names := ColumnNames(cols);
    if cols == [] {
      assert r == [];
    } else {
      var c := cols[0];
      var rest := cols[1..];
      assert names[1..] == ColumnNames(rest);
      assert forall i | 1 <= i < |cols| :: cols[i] == rest[i - 1];
      assert c.name !in ColumnNames(rest) by {
        forall i | 0 <= i < |rest| ensures rest[i].name != c.name {
          assert rest[i] == cols[i + 1];
        }
      }
      if IsKeyColumn(c) {
        KeyTail(cols, r);
        KeyColumnsUnique(rest, r[1..]);
        assert r == [r[0]] + r[1..];
      } else {
        NonKeyTail(cols, r);
        KeyColumnsUnique(rest, r);
      }
    }
  }

  /** The first column is a key: it heads `r`, and the rest of `r` is the
      key list of the remaining columns. */
  lemma KeyTail(cols: seq<ColumnInfo>, r: seq<string>)
    requires cols != [] && IsKeyColumn(cols[0])
    requires cols[0].name !in ColumnNames(cols[1..])
    requires SubsequenceOf(r, ColumnNames(cols))
    requires forall name :: name in r <==> KeyNamed(cols, name)
    ensures r != [] && r[0] == cols[0].name
    ensures SubsequenceOf(r[1..], ColumnNames(cols[1..]))
    ensures forall name :: name in r[1..] <==> KeyNamed(cols[1..], name)
  {
    var names := ColumnNames(cols);
    var rest := cols[1..];
    assert names[1..] == ColumnNames(rest);
    KeyNamedTail(cols, cols[0].name);
    assert cols[0].name in r;
    if !(r[0] == names[0] && SubsequenceOf(r[1..], names[1..])) {
      SubsequenceMembers(r, names[1..]);
      assert false;
    }
    SubsequenceMembers(r[1..], names[1..]);
    assert r == [r[0]] + r[1..];
    forall name ensures name in r[1..] <==> KeyNamed(rest, name) {
      KeyNamedTail(cols, name);
      if KeyNamed(rest, name) {
        var i :| 0 <= i < |rest| && rest[i].name == name && IsKeyColumn(rest[i]);
        assert ColumnNames(rest)[i] == name;
      }
    }
  }

  /** The first column is not a key: `r` is the key list of the remaining
      columns. */
  lemma NonKeyTail(cols: seq<ColumnInfo>, r: seq<string>)
    requires cols != [] && !IsKeyColumn(cols[0])
    requires cols[0].name !in ColumnNames(cols[1..])
    requires SubsequenceOf(r, ColumnNames(cols))
    requires forall name :: name in r <==> KeyNamed(cols, name)
    ensures SubsequenceOf(r, ColumnNames(cols[1..]))
    ensures forall name :: name in r <==> KeyNamed(cols[1..], name)
  {
    var names := ColumnNames(cols);
    assert names[1..] == ColumnNames(cols[1..]);
    KeyNamedTail(cols, cols[0].name);
    assert cols[0].name !in r;
    assert r == [] || r[0] != names[0];
    forall name ensures name in r <==> KeyNamed(cols[1..], name) {
      KeyNamedTail(cols, name);
    }
  }

  /** The heuristic in action: a non-key column named "OrderID" counts, one
      named "Id" does not (the suffix test is case-sensitive). */
  lemma KeyColumnsExample()
    ensures KeyColumns([
      ColumnInfo(0, "code", "TEXT", 1, NoneValue, 1),
      ColumnInfo(1, "OrderID", "INTEGER", 0, NoneValue, 0),
      ColumnInfo(2, "Id", "INTEGER", 0, NoneValue, 0)]) == ["code", "OrderID"]
  {
    var cols := [
      ColumnInfo(0, "code", "TEXT", 1, NoneValue, 1),
      ColumnInfo(1, "OrderID", "INTEGER", 0, NoneValue, 0),
      ColumnInfo(2, "Id", "INTEGER", 0, NoneValue, 0)];
    assert "OrderID"[5..] == "ID";
    assert "Id"[0..] != "ID" by { assert "Id"[1] != 'D'; }
    assert cols[1..][1..] == [cols[2]];
  }

  /** `get_primary_keys`: a database failure propagates. */
  function PrimaryKeysOutput(fetched: Result<seq<ColumnInfo>, string>): (r: Result<string, string>)
    ensures r.Failure? <==> fetched.Failure?
    ensures r.Failure? ==> r.error == fetched.error
  {
    match fetched
    case Failure(e) => Failure(e)
    case Success(cols) => Success(Join(", ", KeyColumns(cols)))
  }

  /** The output splits at ", " back into the key columns, in schema
      order, when no column name contains ", "; with no key column it is
      the empty text. */
  lemma PrimaryKeysSplit(cols: seq<ColumnInfo>)
    requires forall i | 0 <= i < |cols| :: !Contains(cols[i].name, ", ")
    ensures KeyColumns(cols) == [] ==> PrimaryKeysOutput(Success(cols)) == Success("")
    ensures KeyColumns(cols) != [] ==> Split(PrimaryKeysOutput(Success(cols)).value, ", ") == KeyColumns(cols)
  {
    var keys := KeyColumns(cols);
    var names := ColumnNames(cols);
    SubsequenceMembers(keys, names);
    forall k | 0 <= k < |keys| ensures SepFree(keys[k], ", ") {
      assert keys[k] in names;
      var i :| 0 <= i < |names| && names[i] == keys[k];
      CommaSpaceFree(keys[k]);
    }
    if keys != [] {
      SplitJoin(", ", keys);
    }
  }

  /** One `from → table.to` line. */
  function ForeignKeyLine(fk: ForeignKeyInfo): string
  {
    fk.fromColumn + " \U{2192} " + fk.table + "." + fk.toColumn
  }

  function ForeignKeyLines(fks: seq<ForeignKeyInfo>): (r: seq<string>)
    ensures |r| == |fks|
    ensures forall i | 0 <= i < |r| :: r[i] == ForeignKeyLine(fks[i])
  {
    seq(|fks|, i requires 0 <= i < |fks| => ForeignKeyLine(fks[i]))
  }

  /** `get_foreign_keys`: a database failure propagates; no rows give "". */
  function ForeignKeysOutput(fetched: Result<seq<ForeignKeyInfo>, string>): (r: Result<string, string>)
    ensures r.Failure? <==> fetched.Failure?
    ensures r.Failure? ==> r.error == fetched.error
    ensures fetched.Success? && fetched.value == [] ==> r == Success("")
  {
    match fetched
    case Failure(e) => Failure(e)
    case Success(fks) => Success(Join("\n", ForeignKeyLines(fks)))
  }

  /** One line per foreign-key row, in row order, when the names hold no
      newline. */
  lemma ForeignKeysSplit(fks: seq<ForeignKeyInfo>)
    requires fks != []
    requires forall i | 0 <= i < |fks| :: '\n' !in ForeignKeyLine(fks[i])
    ensures Split(ForeignKeysOutput(Success(fks)).value, "\n") == ForeignKeyLines(fks)
  {
    var lines := ForeignKeyLines(fks);
    forall k | 0 <= k < |lines| ensures SepFree(lines[k], "\n") {
      NewlineFree(lines[k]);
    }
    SplitJoin("\n", lines);
  }

  // ---------------------------------------------------------------------
  // the tools, on the console and the database file

  method ListTables(console: Console, gate: AccessGate, db: Database, reasoning: string := "")
    returns (out: string)
    requires gate.Valid()
    modifies console, gate
    ensures gate.Valid()
    ensures gate.events == old(gate.events) + ScopeEvents(true, [ListTablesSql], Outcome(db.tableNames))
    ensures console.records == old(console.records)
      + [ReasoningPanel("List Tables", reasoning)] + ErrorLog("listing tables", db.tableNames)
    ensures out == ListTablesOutput(db.tableNames)
  {
    LogPanel(console, "List Tables", "Reasoning: " + reasoning);
    var fetched := db.tableNames;
    var outcome := gate.WithSqlCursor([ListTablesSql], Outcome(fetched));
    if outcome.Raised? {
      Log(console, ErrorLine("listing tables", outcome.message));
      return ListTablesError;
    }
    out := ListTablesText(fetched.value);
  }

  method GetColumns(console: Console, gate: AccessGate, db: Database, tableName: string, reasoning: string := "")
    returns (out: string)
    requires gate.Valid()
    modifies console, gate
    ensures gate.Valid()
    ensures var sql := TableInfoSql(tableName);
            gate.events == old(gate.events) + ScopeEvents(true, [sql], Outcome(db.tableInfo(sql)))
    ensures console.records == old(console.records)
      + [ReasoningPanel("Get Columns", reasoning)] + ErrorLog("getting columns", db.tableInfo(TableInfoSql(tableName)))
    ensures out == GetColumnsOutput(db.tableInfo(TableInfoSql(tableName)))
  {
    LogPanel(console, "Get Columns", "Reasoning: " + reasoning);
    var sql := TableInfoSql(tableName);
    var fetched := db.tableInfo(sql);
    var outcome := gate.WithSqlCursor([sql], Outcome(fetched));
    if outcome.Raised? {
      Log(console, ErrorLine("getting columns", outcome.message));
      return GetColumnsError;
    }
    out := Join(", ", ColumnNames(fetched.value));
  }

  method CountRows(console: Console, gate: AccessGate, db: Database, tableName: string, reasoning: string := "")
    returns (out: string)
    requires gate.Valid()
    modifies console, gate
    ensures gate.Valid()
    ensures var sql := CountSql(tableName);
            gate.events == old(gate.events) + ScopeEvents(true, [sql], Outcome(db.rowCount(sql)))
    ensures console.records == old(console.records)
      + [ReasoningPanel("Count Rows", reasoning)] + ErrorLog("counting rows", db.rowCount(CountSql(tableName)))
    ensures out == CountRowsOutput(db.rowCount(CountSql(tableName)))
  {
    LogPanel(console, "Count Rows", "Reasoning: " + reasoning);
    var sql := CountSql(tableName);
    var fetched := db.rowCount(sql);
    var outcome := gate.WithSqlCursor([sql], Outcome(fetched));
    if outcome.Raised? {
      Log(console, ErrorLine("counting rows", outcome.message));
      return CountRowsError;
    }
    out := NatToString(fetched.value);
  }

  method DescribeTable(console: Console, gate: AccessGate, db: Database, rowRepr: ColumnInfo -> string,
                       tableName: string, reasoning: string := "")
    returns (out: string)
    requires gate.Valid()
    modifies console, gate
    ensures gate.Valid()
    ensures var sql := TableInfoSql(tableName);
            gate.events == old(gate.events) + ScopeEvents(true, [sql], Outcome(db.tableInfo(sql)))
    ensures console.records == old(console.records)
      + [ReasoningPanel("Describe Table", reasoning)] + ErrorLog("describing table", db.tableInfo(TableInfoSql(tableName)))
    ensures out == DescribeTableOutput(db.tableInfo(TableInfoSql(tableName)), rowRepr)
  {
    LogPanel(console, "Describe Table", "Reasoning: " + reasoning);
    var sql := TableInfoSql(tableName);
    var fetched := db.tableInfo(sql);
    var outcome := gate.WithSqlCursor([sql], Outcome(fetched));
    if outcome.Raised? {
      Log(console, ErrorLine("describing table", outcome.message));
      return DescribeTableError;
    }
    var rows := fetched.value;
    out := Join("\n", seq(|rows|, i requires 0 <= i < |rows| => rowRepr(rows[i])));
  }

  method SampleTable(console: Console, gate: AccessGate, db: Database,
                     render: (seq<string>, seq<Row>) -> Result<string, string>,
                     reasoning: string := "", tableName: string := "", rowSampleSize: int := 10)
    returns (out: string)
    requires gate.Valid()
    modifies console, gate
    ensures gate.Valid()
    ensures var sql := SampleSql(tableName, rowSampleSize);
            gate.events == old(gate.events) + ScopeEvents(true, [sql], Outcome(Frame(db.query(sql))))
    ensures console.records == old(console.records)
      + [ReasoningPanel("Sample Table", reasoning)]
      + ErrorLog("sampling table", Rendered(db.query(SampleSql(tableName, rowSampleSize)), render))
    ensures out == SampleTableOutput(tableName, db.query(SampleSql(tableName, rowSampleSize)), render)
  {
    LogPanel(console, "Sample Table", "Reasoning: " + reasoning);
    var sql := SampleSql(tableName, rowSampleSize);
    var frame := Frame(db.query(sql));
    var outcome := gate.WithSqlCursor([sql], Outcome(frame));
    if outcome.Raised? {
      Log(console, ErrorLine("sampling table", outcome.message));
      return SampleTableError;
    }
    var columns := frame.value.0;
    var rows := frame.value.1;
    var tableText := render(columns, rows);
    if tableText.Failure? {
      Log(console, ErrorLine("sampling table", tableText.error));
      return SampleTableError;
    }
    var insight := SampleInsight(tableName, |rows|);
    out := tableText.value + "\n\n" + insight;
  }

  method GetPrimaryKeys(console: Console, gate: AccessGate, db: Database, tableName: string, reasoning: string := "")
    returns (out: Result<string, string>)
    requires gate.Valid()
    modifies console, gate
    ensures gate.Valid()
    ensures var sql := TableInfoSql(tableName);
            gate.events == old(gate.events) + ScopeEvents(true, [sql], Outcome(db.tableInfo(sql)))
    ensures console.records == old(console.records) + [ReasoningPanel("Get Primary Keys", reasoning)]
    ensures out == PrimaryKeysOutput(db.tableInfo(TableInfoSql(tableName)))
  {
    LogPanel(console, "Get Primary Keys", "Reasoning: " + reasoning);
    var sql := TableInfoSql(tableName);
    var fetched := db.tableInfo(sql);
    var outcome := gate.WithSqlCursor([sql], Outcome(fetched));
    if outcome.Raised? {
      return Failure(outcome.message);
    }
    out := Success(Join(", ", KeyColumns(fetched.value)));
  }

  method GetForeignKeys(console: Console, gate: AccessGate, db: Database, tableName: string, reasoning: string := "")
    returns (out: Result<string, string>)
    requires gate.Valid()
    modifies console, gate
    ensures gate.Valid()
    ensures var sql := ForeignKeySql(tableName);
            gate.events == old(gate.events) + ScopeEvents(true, [sql], Outcome(db.foreignKeyList(sql)))
    ensures console.records == old(console.records) + [ReasoningPanel("Get Foreign Keys", reasoning)]
    ensures out == ForeignKeysOutput(db.foreignKeyList(ForeignKeySql(tableName)))
  {
    LogPanel(console, "Get Foreign Keys", "Reasoning: " + reasoning);
    var sql := ForeignKeySql(tableName);
    var fetched := db.foreignKeyList(sql);
    var outcome := gate.WithSqlCursor([sql], Outcome(fetched));
    if outcome.Raised? {
      return Failure(outcome.message);
    }
    out := Success(Join("\n", ForeignKeyLines(fetched.value)));
  }

  method ExecuteSql(console: Console, gate: AccessGate, db: Database,
                    render: (seq<string>, seq<Row>) -> Result<string, string>,
                    reasoning: string := "", sqlQuery: string := "")
    returns (out: string)
    requires gate.Valid()
    modifies console, gate
    ensures gate.Valid()
    ensures gate.events == old(gate.events) + ScopeEvents(true, [sqlQuery], Outcome(Frame(db.query(sqlQuery))))
    ensures console.records == old(console.records) + [ReasoningPanel("Execute SQL", reasoning)]
    ensures out == ExecuteSqlOutput(db.query(sqlQuery), render)
  {
    LogPanel(console, "Execute SQL", "Reasoning: " + reasoning);
    var frame := Frame(db.query(sqlQuery));
    var outcome := gate.WithSqlCursor([sqlQuery], Outcome(frame));
    if outcome.Raised? {
      return ExecuteSqlError;
    }
    var columns := frame.value.0;
    var rows := frame.value.1;
    var tableText := render(columns, rows);
    if tableText.Failure? {
      return ExecuteSqlError;
    }
    var insight := QueryInsight(columns, |rows|);
    if insight.None? {
      return ExecuteSqlError;
    }
    out := tableText.value + "\n\n" + insight.value;
  }
}
