/**
 * The complete-dump script: it asks the database for the public base tables,
 * and for each of them its columns, its row count and its rows pre-formatted as
 * `INSERT` statements, and assembles all of it, framed by a fixed header and
 * footer, into the text of one SQL file.
 *
 * The database is an oracle: `psql -t -c <query>` becomes a total function from
 * the query text to its standard output, `None` when psql exits with an error.
 */
module Dump {
  import opened Wrappers
  import opened Seqs
  import opened Text

  /** What psql prints for a query, or None when it fails. */
  type Database = string -> Option<string>

  /** `run_sql_query`: psql's output with the surrounding whitespace stripped, None on failure. */
  function RunSqlQuery(db: Database, query: string): (r: Option<string>)
    ensures r.None? <==> db(query).None?
    ensures r.Some? ==> r.value == Strip(db(query).value)
    ensures r.Some? ==> IsStripped(r.value) && |r.value| <= |db(query).value|
  {
    match db(query)
    case None => None
    case Some(out) => Some(Strip(out))
  }

  /** Python's truthiness of `str | None`: neither None nor the empty string. */
  predicate Truthy(r: Option<string>) {
    r.Some? && r.value != ""
  }

  // ---------------------------------------------------------------------------
  // generate_insert_statements

  /** Column names that are quoted as they are, without a cast and a NULL fallback. */
  const DirectColumns: seq<string> := ["id", "created_at", "updated_at"]

  predicate IsDirectlyQuoted(col: string) {
    EndsWith(col, "::text") || col in DirectColumns
  }

  /** `quote_literal(col)` */
  function DirectQuote(col: string): string {
    "quote_literal(" + col + ")"
  }

  /** `COALESCE(quote_literal(col::text), 'NULL')` */
  function CoalesceQuote(col: string): string {
    "COALESCE(quote_literal(" + col + "::text), 'NULL')"
  }

  /** The SQL expression that renders one column of a row as a literal. */
  function ColumnExpr(col: string): (e: string)
    ensures e == DirectQuote(col) <==> IsDirectlyQuoted(col)
    ensures e == CoalesceQuote(col) <==> !IsDirectlyQuoted(col)
  {
    assert DirectQuote(col)[0] == 'q' && CoalesceQuote(col)[0] == 'C';
    if IsDirectlyQuoted(col) then DirectQuote(col) else CoalesceQuote(col)
  }

  /** The expression list `column_list`, as the specification of the loop that builds it. */
  function ColumnExprs(columns: seq<string>): seq<string> {
    seq(|columns|, i requires 0 <= i < |columns| => ColumnExpr(columns[i]))
  }

  /** The loop of lines 28-33: one expression per column, in column order. */
  method ColumnList(columns: seq<string>) returns (exprs: seq<string>)
    ensures |exprs| == |columns|
    ensures forall i :: 0 <= i < |columns| ==> exprs[i] == ColumnExpr(columns[i])
  {
    exprs := [];
    for k := 0 to |columns|
      invariant |exprs| == k
      invariant forall i :: 0 <= i < k ==> exprs[i] == ColumnExpr(columns[i])
    {
      var col := columns[k];
      if EndsWith(col, "::text") || col in DirectColumns {
        exprs := exprs + ["quote_literal(" + col + ")"];
      } else {
        exprs := exprs + ["COALESCE(quote_literal(" + col + "::text), 'NULL')"];
      }
    }
  }

  /** What separates two column expressions in the generated query. */
  const ExprSeparator: string := " || ',' || "

  /** The text before the column expressions. */
  function InsertQueryHead(table: string): string {
    "\n    SELECT 'INSERT INTO " + table + " VALUES (' ||\n           "
  }

  /** The text after the column expressions. */
  function InsertQueryTail(table: string): string {
    " ||\n           ');' as insert_statement\n    FROM " + table + ";\n    "
  }

  /**
   * The query that makes the database print one `INSERT INTO <table> VALUES (...);`
   * per row: it opens with the head naming the table and closes with the tail
   * naming it again.
   */
  function InsertQuery(table: string, exprs: seq<string>): (q: string)
    ensures |q| >= |InsertQueryHead(table)| + |InsertQueryTail(table)|
    ensures q[..|InsertQueryHead(table)|] == InsertQueryHead(table)
    ensures q[|q| - |InsertQueryTail(table)|..] == InsertQueryTail(table)
  {
    SplitThree(InsertQueryHead(table), Join(exprs, ExprSeparator), InsertQueryTail(table));
    InsertQueryHead(table) + Join(exprs, ExprSeparator) + InsertQueryTail(table)
  }

  /** `generate_insert_statements(table, columns)`: the database's answer to the insert query. */
  method GenerateInsertStatements(db: Database, table: string, columns: seq<string>) returns (r: Option<string>)
    ensures r == RunSqlQuery(db, InsertQuery(table, ColumnExprs(columns)))
  {
    var columnList := ColumnList(columns);
    assert columnList == ColumnExprs(columns);
    var query := InsertQueryHead(table) + Join(columnList, ExprSeparator) + InsertQueryTail(table);
    r := RunSqlQuery(db, query);
  }

  // ---------------------------------------------------------------------------
  // main

  const TablesQuery: string :=
    "\n    SELECT table_name \n    FROM information_schema.tables \n    WHERE table_schema = 'public' \n    AND table_type = 'BASE TABLE'\n    ORDER BY table_name;\n    "

  function ColumnsQuery(table: string): string {
    "\n        SELECT column_name \n        FROM information_schema.columns \n        WHERE table_name = '" + table + "' \n        ORDER BY ordinal_position;\n        "
  }

  function CountQuery(table: string): string {
    "SELECT COUNT(*) FROM " + table + ";"
  }

  /** The one table the dump leaves out. */
  const ExcludedTable: string := "sessions"

  /** Half of the 76 `=` of the rule line. */
  const RuleHalf: string := "======================================"

  /** The rule line around each banner and the footer's notice: `-- ` and 76 `=`. */
  const Rule: string := "-- " + RuleHalf + RuleHalf

  const Header: seq<string> := [
    "-- COMPLETE PRODUCTION DATABASE DUMP",
    "-- Generated: August 27, 2025",
    "-- Contains ALL production data",
    "",
    "-- Disable foreign key checks for import",
    "SET session_replication_role = replica;",
    ""
  ]

  const Footer: seq<string> := [
    Rule,
    "-- Re-enable foreign key checks",
    Rule,
    "SET session_replication_role = DEFAULT;",
    "",
    "-- Import complete! All production data has been restored."
  ]

  /** `[x.strip() for x in out.split('\n') if x.strip()]` */
  function CleanLines(out: string): seq<string> {
    Cleaned(SplitLines(out))
  }

  /** The count shown in a banner: the stripped count result, or "0" when it is None or empty. */
  function RowCount(countResult: Option<string>): string {
    if Truthy(countResult) then Strip(countResult.value) else "0"
  }

  function Banner(table: string, count: string): string {
    "-- " + Upper(table) + " (" + count + " records)"
  }

  /** The non-blank, stripped lines of the insert query's result; none when it is None or empty. */
  function InsertLines(insertResult: Option<string>): seq<string> {
    if Truthy(insertResult) then CleanLines(insertResult.value) else []
  }

  /** The lines one table adds to the dump, as one iteration of the table loop adds them. */
  function TableSection(db: Database, table: string): seq<string> {
    if table == ExcludedTable then
      []
    else
      var columnsResult := RunSqlQuery(db, ColumnsQuery(table));
      if !Truthy(columnsResult) then
        []
      else
        var columns := CleanLines(columnsResult.value);
        var count := RowCount(RunSqlQuery(db, CountQuery(table)));
        [Rule, Banner(table, count), Rule]
          + InsertLines(RunSqlQuery(db, InsertQuery(table, ColumnExprs(columns))))
          + [""]
  }

  /** The sections of the given tables, one after the other in table order. */
  function Sections(db: Database, tables: seq<string>): seq<string> {
    if tables == [] then []
    else Sections(db, tables[..|tables| - 1]) + TableSection(db, tables[|tables| - 1])
  }

  /** A table named `sessions`, or one whose column query fails or prints nothing, adds no line. */
  lemma SkippedTableSection(db: Database, table: string)
    requires table == ExcludedTable || !Truthy(RunSqlQuery(db, ColumnsQuery(table)))
    ensures TableSection(db, table) == []
  {
  }

  /**
   * Any other table adds the rule, its banner with the upper-cased name and the
   * row count, the rule, its insert statements and one blank line, in that order.
   */
  lemma ProcessedTableSection(db: Database, table: string)
    requires table != ExcludedTable && Truthy(RunSqlQuery(db, ColumnsQuery(table)))
    ensures TableSection(db, table)
      == [Rule, Banner(table, RowCount(RunSqlQuery(db, CountQuery(table)))), Rule]
         + InsertLines(RunSqlQuery(db, InsertQuery(table, ColumnExprs(CleanLines(RunSqlQuery(db, ColumnsQuery(table)).value)))))
         + [""]
  {
  }

  lemma SectionsSnoc(db: Database, tables: seq<string>, i: nat)
    requires i < |tables|
    ensures Sections(db, tables[..i + 1]) == Sections(db, tables[..i]) + TableSection(db, tables[i])
  {
    assert tables[..i + 1][..i] == tables[..i];
  }

  /** The tables the loop of `main` goes through: the cleaned lines of the table query's result. */
  function Tables(db: Database): seq<string>
    requires Truthy(RunSqlQuery(db, TablesQuery))
  {
    CleanLines(RunSqlQuery(db, TablesQuery).value)
  }

  /** `dump_content` as `main` leaves it, or None when `main` returns before writing anything. */
  function DumpLines(db: Database): Option<seq<string>> {
    if Truthy(RunSqlQuery(db, TablesQuery)) then
      Some(Header + Sections(db, Tables(db)) + Footer)
    else
      None
  }

  /** The text `main` writes to complete_production_dump.sql, or None when it writes nothing. */
  function DumpText(db: Database): Option<string> {
    match DumpLines(db)
    case None => None
    case Some(lines) => Some(Join(lines, "\n"))
  }

  /**
   * The loop of lines 107-109: appends each piece of the insert result, stripped,
   * unless it is blank.
   */
  method AppendStatements(lines: seq<string>, pieces: seq<string>) returns (out: seq<string>)
    ensures out == lines + Cleaned(pieces)
  {
    out := lines;
    for j := 0 to |pieces|
      invariant out == lines + Cleaned(pieces[..j])
    {
      var stmt := Strip(pieces[j]);
      CleanedAppend(pieces[..j], [pieces[j]]);
      CleanedSingle(pieces[j]);
      TakeSnoc(pieces, j);
      ConcatAssoc(lines, Cleaned(pieces[..j]), Cleaned([pieces[j]]));
      if stmt != "" {
        out := out + [stmt];
      }
    }
    assert pieces[..|pieces|] == pieces;
  }

  /**
   * One pass of the table loop of `main` (lines 76-111), appending to the lines
   * built so far; each `continue` of the loop is an early return here.
   */
  method AppendTable(db: Database, table: string, dumpContent: seq<string>) returns (out: seq<string>)
    ensures out == dumpContent + TableSection(db, table)
  {
    out := dumpContent;
    if table == ExcludedTable {
      SkippedTableSection(db, table);
      return;
    }
    var columnsResult := RunSqlQuery(db, ColumnsQuery(table));
    if !Truthy(columnsResult) {
      SkippedTableSection(db, table);
      return;
    }
    ProcessedTableSection(db, table);
    var columns := CleanLines(columnsResult.value);
    var countResult := RunSqlQuery(db, CountQuery(table));
    var rowCount := if Truthy(countResult) then Strip(countResult.value) else "0";
    out := out + [Rule];
    out := out + [Banner(table, rowCount)];
    out := out + [Rule];
    ghost var banner := [Rule, Banner(table, rowCount), Rule];
    AppendThree(dumpContent, Rule, Banner(table, rowCount), Rule);
    var insertStatements := GenerateInsertStatements(db, table, columns);
    ghost var inserted := out;
    if Truthy(insertStatements) {
      out := AppendStatements(out, SplitLines(insertStatements.value));
    }
    assert out == inserted + InsertLines(insertStatements);
    out := out + [""];
    ConcatAssoc(dumpContent, banner, InsertLines(insertStatements));
    ConcatAssoc(dumpContent, banner + InsertLines(insertStatements), [""]);
  }

  /** The table loop of `main` (lines 75-111): appends each table's section in table order. */
  method AppendTables(db: Database, tables: seq<string>, dumpContent: seq<string>) returns (out: seq<string>)
    ensures out == dumpContent + Sections(db, tables)
  {
    out := dumpContent;
    for i := 0 to |tables|
      invariant out == dumpContent + Sections(db, tables[..i])
    {
      SectionsSnoc(db, tables, i);
      ConcatAssoc(dumpContent, Sections(db, tables[..i]), TableSection(db, tables[i]));
      out := AppendTable(db, tables[i], out);
    }
    TakeAll(tables);
  }

  /** `main`: builds `dump_content` by appending, and returns the text it would write. */
  method GenerateDump(db: Database) returns (content: Option<string>)
    ensures content == DumpText(db)
  {
    var tablesResult := RunSqlQuery(db, TablesQuery);
    if !Truthy(tablesResult) {
      return None;
    }
    var tables := CleanLines(tablesResult.value);
    var dumpContent := AppendTables(db, tables, Header);
    dumpContent := dumpContent + Footer;
    content := Some(Join(dumpContent, "\n"));
  }
}
