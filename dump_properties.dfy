/**
 * What the dump script guarantees about the file it writes, for every database:
 * no file without a table list, the fixed header and footer around the
 * sections, `sessions` and column-less tables left out, one section per
 * remaining table in table order, and the shape of each section.
 */
module DumpProperties {
  import opened Wrappers
  import opened Seqs
  import opened Text
  import opened Dump

  /** The file is written exactly when the table query succeeds and prints something. */
  lemma NoFileWithoutTables(db: Database)
    ensures DumpText(db).None? <==> (db(TablesQuery).None? || AllSpace(db(TablesQuery).value))
  {
    if db(TablesQuery).Some? {
      StripEmptyIffBlank(db(TablesQuery).value);
    }
  }

  /**
   * The insert query is its head, naming the table after `INSERT INTO`, then the
   * first column expression, ..., the last column expression, then its tail,
   * closing the statement with `);` and naming the table after `FROM`.
   */
  lemma InsertQueryLayout(table: string, exprs: seq<string>)
    requires exprs != []
    ensures |InsertQuery(table, exprs)| >= |InsertQueryHead(table) + exprs[0]|
    ensures |InsertQuery(table, exprs)| >= |exprs[|exprs| - 1] + InsertQueryTail(table)|
    ensures InsertQuery(table, exprs)[..|InsertQueryHead(table) + exprs[0]|]
      == InsertQueryHead(table) + exprs[0]
    ensures InsertQuery(table, exprs)[|InsertQuery(table, exprs)| - |exprs[|exprs| - 1] + InsertQueryTail(table)|..]
      == exprs[|exprs| - 1] + InsertQueryTail(table)
  {
    JoinEnds(exprs, ExprSeparator);
    Framed(InsertQueryHead(table), Join(exprs, ExprSeparator), InsertQueryTail(table), exprs[0], exprs[|exprs| - 1]);
  }

  /** Cleaning never yields an empty or blank table name, nor one holding a newline. */
  lemma TablesAreClean(db: Database)
    requires Truthy(RunSqlQuery(db, TablesQuery))
    ensures Tables(db) != []
    ensures forall k :: 0 <= k < |Tables(db)| ==>
      Tables(db)[k] != "" && IsStripped(Tables(db)[k]) && !AllSpace(Tables(db)[k]) && '\n' !in Tables(db)[k]
  {
    var out := RunSqlQuery(db, TablesQuery).value;
    StripFixesStripped(out);
    CleanedLinesNonEmpty(out);
    CleanedHasNoNewline(SplitLines(out));
    forall k | 0 <= k < |Tables(db)| ensures !AllSpace(Tables(db)[k]) {
      StripFixesStripped(Tables(db)[k]);
      StripEmptyIffBlank(Tables(db)[k]);
    }
  }

  /** A table that gets a section has at least one column, so its query has at least one expression. */
  lemma ProcessedTableHasColumns(db: Database, table: string)
    requires Truthy(RunSqlQuery(db, ColumnsQuery(table)))
    ensures CleanLines(RunSqlQuery(db, ColumnsQuery(table)).value) != []
  {
    var out := RunSqlQuery(db, ColumnsQuery(table)).value;
    StripFixesStripped(out);
    CleanedLinesNonEmpty(out);
  }

  /** The banner count is what the count query printed, stripped, or "0" when it failed or printed nothing. */
  lemma RowCountOfQuery(db: Database, table: string)
    ensures RowCount(RunSqlQuery(db, CountQuery(table)))
      == if db(CountQuery(table)).None? || AllSpace(db(CountQuery(table)).value) then "0"
         else Strip(db(CountQuery(table)).value)
  {
    if db(CountQuery(table)).Some? {
      StripEmptyIffBlank(db(CountQuery(table)).value);
      StripIdempotent(db(CountQuery(table)).value);
    }
  }

  /** Every insert line is a non-blank, stripped line of the insert result; none when it failed. */
  lemma InsertLinesAreClean(r: Option<string>)
    ensures !Truthy(r) ==> InsertLines(r) == []
    ensures forall k :: 0 <= k < |InsertLines(r)| ==>
      InsertLines(r)[k] != "" && IsStripped(InsertLines(r)[k]) && '\n' !in InsertLines(r)[k]
  {
    if Truthy(r) {
      CleanedHasNoNewline(SplitLines(r.value));
    }
  }

  /** The sections of two runs of tables, one after the other, are the sections of the joined run. */
  lemma {:induction false} SectionsConcat(db: Database, a: seq<string>, b: seq<string>)
    ensures Sections(db, a + b) == Sections(db, a) + Sections(db, b)
  {
    if b == [] {
      assert a + b == a;
    } else {
      var b' := b[..|b| - 1];
      assert (a + b)[..|a + b| - 1] == a + b';
      SectionsConcat(db, a, b');
      ConcatAssoc(Sections(db, a), Sections(db, b'), TableSection(db, b[|b| - 1]));
    }
  }

  /** Each table's section sits after those of the tables before it and before those after it. */
  lemma SectionOrder(db: Database, tables: seq<string>, i: nat)
    requires i < |tables|
    ensures Sections(db, tables)
      == Sections(db, tables[..i]) + TableSection(db, tables[i]) + Sections(db, tables[i + 1..])
  {
    TakeDrop(tables, i + 1);
    SectionsConcat(db, tables[..i + 1], tables[i + 1..]);
    SectionsSnoc(db, tables, i);
  }

  /** The tables other than `sessions`, in their order. */
  function WithoutExcluded(tables: seq<string>): (r: seq<string>)
    ensures forall t :: t in r <==> t in tables && t != ExcludedTable
    ensures |r| == |tables| - multiset(tables)[ExcludedTable]
    ensures multiset(r) == multiset(tables)[ExcludedTable := 0]
  {
    if tables == [] then []
    else
      var init := tables[..|tables| - 1];
      var last := tables[|tables| - 1];
      TakeSnoc(tables, |tables| - 1);
      TakeAll(tables);
      var rest := WithoutExcluded(init);
      if last == ExcludedTable then rest else rest + [last]
  }

  /** Filtering one table keeps it exactly when it is not `sessions`. */
  lemma WithoutExcludedSingle(t: string)
    ensures WithoutExcluded([t]) == if t == ExcludedTable then [] else [t]
  {
  }

  /** Filtering works run by run and keeps the order of the runs. */
  lemma {:induction false} WithoutExcludedAppend(a: seq<string>, b: seq<string>)
    ensures WithoutExcluded(a + b) == WithoutExcluded(a) + WithoutExcluded(b)
  {
    if b == [] {
      assert a + b == a;
    } else {
      var b' := b[..|b| - 1];
      var last := b[|b| - 1];
      assert (a + b)[..|a + b| - 1] == a + b';
      assert (a + b)[|a + b| - 1] == last;
      WithoutExcludedAppend(a, b');
      if last != ExcludedTable {
        ConcatAssoc(WithoutExcluded(a), WithoutExcluded(b'), [last]);
      }
    }
  }

  /** Leaving `sessions` out of the table list changes nothing in the dump. */
  lemma {:induction false} SessionsContributeNothing(db: Database, tables: seq<string>)
    ensures Sections(db, tables) == Sections(db, WithoutExcluded(tables))
  {
    if tables != [] {
      var init := tables[..|tables| - 1];
      var last := tables[|tables| - 1];
      SessionsContributeNothing(db, init);
      if last == ExcludedTable {
        SkippedTableSection(db, last);
      } else {
        var w := WithoutExcluded(init) + [last];
        assert w[..|w| - 1] == WithoutExcluded(init);
      }
    }
  }

  /** A table the loop passes over with `continue`: `sessions`, or one without columns. */
  predicate Skipped(db: Database, table: string) {
    table == ExcludedTable || !Truthy(RunSqlQuery(db, ColumnsQuery(table)))
  }

  /** When no table is left once `sessions` and column-less tables are skipped, there are no sections. */
  lemma {:induction false} NoSections(db: Database, tables: seq<string>)
    requires forall k :: 0 <= k < |tables| ==> Skipped(db, tables[k])
    ensures Sections(db, tables) == []
  {
    if tables != [] {
      var init := tables[..|tables| - 1];
      assert forall k :: 0 <= k < |init| ==> init[k] == tables[k];
      NoSections(db, init);
      SkippedTableSection(db, tables[|tables| - 1]);
    }
  }

  /** Every written file holds the 7 header lines first and the 6 footer lines last. */
  lemma DumpFraming(db: Database)
    requires DumpLines(db).Some?
    ensures |DumpLines(db).value| >= |Header| + |Footer| == 13
    ensures DumpLines(db).value[..|Header|] == Header
    ensures DumpLines(db).value[|DumpLines(db).value| - |Footer|..] == Footer
  {
    var s := Sections(db, Tables(db));
    SplitThree(Header, s, Footer);
  }

  /** The header and footer as the text at the start and end of the file. */
  function HeaderText(): string {
    Join(Header, "\n")
  }

  function FooterText(): string {
    Join(Footer, "\n")
  }

  /** The written text is the newline-join of the header, the sections and the footer. */
  lemma DumpTextIsJoin(db: Database)
    requires DumpText(db).Some?
    ensures DumpLines(db).Some?
    ensures DumpText(db).value == Join(Header + Sections(db, Tables(db)) + Footer, "\n")
  {
  }

  /**
   * A written text with at least one section is the header, a newline, the
   * sections joined by newlines, a newline and the footer.
   */
  lemma DumpTextLayout(db: Database)
    requires DumpText(db).Some? && Sections(db, Tables(db)) != []
    ensures DumpText(db).value
      == HeaderText() + "\n" + Join(Sections(db, Tables(db)), "\n") + "\n" + FooterText()
  {
    DumpTextIsJoin(db);
    var s := Sections(db, Tables(db));
    JoinAppend(Header + s, Footer, "\n");
    JoinAppend(Header, s, "\n");
  }

  /**
   * With no table left to dump (all skipped, or only `sessions`), the file is
   * the header immediately followed by the footer.
   */
  lemma EmptySchemaDump(db: Database)
    requires Truthy(RunSqlQuery(db, TablesQuery))
    requires forall k :: 0 <= k < |Tables(db)| ==> Skipped(db, Tables(db)[k])
    ensures DumpLines(db) == Some(Header + Footer)
    ensures DumpText(db) == Some(HeaderText() + "\n" + FooterText())
  {
    NoSections(db, Tables(db));
    EmptyMiddle(Header, Footer);
    JoinAppend(Header, Footer, "\n");
  }

  /** Splitting the written text at newlines gives back the lines, when no line holds a newline. */
  lemma DumpLinesRecoverable(db: Database)
    requires DumpLines(db).Some?
    requires forall k :: 0 <= k < |DumpLines(db).value| ==> '\n' !in DumpLines(db).value[k]
    ensures SplitLines(DumpText(db).value) == DumpLines(db).value
  {
    SplitJoinLines(DumpLines(db).value);
  }

  /** No line holds a newline. */
  predicate SingleLines(lines: seq<string>) {
    forall k :: 0 <= k < |lines| ==> '\n' !in lines[k]
  }

  lemma SingleLinesAppend(a: seq<string>, b: seq<string>)
    requires SingleLines(a) && SingleLines(b)
    ensures SingleLines(a + b)
  {
    forall k | 0 <= k < |a + b| ensures '\n' !in (a + b)[k] {
      if k >= |a| {
        assert (a + b)[k] == b[k - |a|];
      }
    }
  }

  /** `upper()` never introduces a newline. */
  lemma UpperKeepsNewlineOut(s: string)
    requires '\n' !in s
    ensures '\n' !in Upper(s)
  {
    forall i | 0 <= i < |s| ensures Upper(s)[i] != '\n' {
      assert s[i] != '\n';
    }
  }

  /** A banner is one line when the table name and the count are. */
  lemma BannerIsOneLine(table: string, count: string)
    requires '\n' !in table && '\n' !in count
    ensures '\n' !in Banner(table, count)
  {
    UpperKeepsNewlineOut(table);
  }

  /** The lines of a processed table are single lines when its name, its count and its insert lines are. */
  lemma BannerBlockIsSingleLines(table: string, count: string, inserted: seq<string>)
    requires '\n' !in table && '\n' !in count && SingleLines(inserted)
    ensures SingleLines([Rule, Banner(table, count), Rule] + inserted + [""])
  {
    BannerIsOneLine(table, count);
    assert SingleLines([Rule, Banner(table, count), Rule]);
    SingleLinesAppend([Rule, Banner(table, count), Rule], inserted);
    SingleLinesAppend([Rule, Banner(table, count), Rule] + inserted, [""]);
  }

  /** A table's section is single lines when its name and its count are. */
  lemma SectionIsSingleLines(db: Database, table: string)
    requires '\n' !in table
    requires '\n' !in RowCount(RunSqlQuery(db, CountQuery(table)))
    ensures SingleLines(TableSection(db, table))
  {
    if table == ExcludedTable || !Truthy(RunSqlQuery(db, ColumnsQuery(table))) {
      SkippedTableSection(db, table);
    } else {
      ProcessedTableSection(db, table);
      var columns := CleanLines(RunSqlQuery(db, ColumnsQuery(table)).value);
      var insertResult := RunSqlQuery(db, InsertQuery(table, ColumnExprs(columns)));
      InsertLinesAreClean(insertResult);
      BannerBlockIsSingleLines(table, RowCount(RunSqlQuery(db, CountQuery(table))), InsertLines(insertResult));
    }
  }

  lemma {:induction false} SectionsAreSingleLines(db: Database, tables: seq<string>)
    requires forall k :: 0 <= k < |tables| ==> '\n' !in tables[k]
    requires forall k :: 0 <= k < |tables| ==> '\n' !in RowCount(RunSqlQuery(db, CountQuery(tables[k])))
    ensures SingleLines(Sections(db, tables))
  {
    if tables != [] {
      var init := tables[..|tables| - 1];
      assert forall k :: 0 <= k < |init| ==> init[k] == tables[k];
      SectionsAreSingleLines(db, init);
      SectionIsSingleLines(db, tables[|tables| - 1]);
      SingleLinesAppend(Sections(db, init), TableSection(db, tables[|tables| - 1]));
    }
  }

  /**
   * When no table's stripped count answer holds a newline, no line of any
   * section holds one: the premise of `DumpLinesRecoverable` for everything
   * between the header and the footer.
   */
  lemma DumpSectionsAreSingleLines(db: Database)
    requires Truthy(RunSqlQuery(db, TablesQuery))
    requires forall k :: 0 <= k < |Tables(db)| ==> '\n' !in RowCount(RunSqlQuery(db, CountQuery(Tables(db)[k])))
    ensures SingleLines(Sections(db, Tables(db)))
  {
    TablesAreClean(db);
    SectionsAreSingleLines(db, Tables(db));
  }
}
