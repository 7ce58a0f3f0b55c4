# Complete production dump generator, modelled in Dafny

`generate_complete_dump.py` writes every row of every base table in the
`public` schema of a PostgreSQL database to `complete_production_dump.sql` as
`INSERT` statements. It leaves out the `sessions` table. The statements are
wrapped in commands that switch off referential-integrity checks while the
dump is replayed. The script asks `psql` for:

- the table list;
- each table's columns;
- each table's row count;
- each table's rows, already rendered as `INSERT INTO <t> VALUES (...);` text
  by a query that the script composes from the column names.

It then assembles a header, one section per table and a footer into one text.

The model has six modules:

- `Wrappers` (`wrappers.dfy`): `Option`, which stands for Python's `str | None`.
- `Seqs` (`seqs.dfy`): general facts about sequences (associativity, prefixes
  and suffixes of concatenations) that the other proofs use.
- `Text` (`text.dfy`): the Python string behaviour that the script relies on:
  - `str.strip()`, with its whitespace restricted to ASCII;
  - `split('\n')`;
  - `'sep'.join`;
  - `str.upper()` on ASCII;
  - `endswith`;
  - the cleaning comprehension `[x.strip() for x in out.split('\n') if x.strip()]`.

  Each comes with its round trips and characterisations: split/join in both
  directions, strip as the unique stripped core of a padded text, and cleaning
  piece by piece.
- `Dump` (`dump.dfy`): the script itself.
  - `psql` is a `Database`: a total function from the exact query text to the
    standard output Python receives from psql, `None` when psql fails. That
    output is already decoded, and its line endings are already normalised to
    `\n` (`text=True` on line 16).
  - `run_sql_query` strips that output.
  - The column loop of `generate_insert_statements` is the method `ColumnList`.
    It is proved against `ColumnExpr`.
  - `main` is the method `GenerateDump`. It builds `dump_content` in a `seq`
    accumulator. The table loop is the method `AppendTables`. One pass of that
    loop is the method `AppendTable`, where each `continue` becomes an early
    return. The statement loop is the method `AppendStatements`.
  - Each method is proved equal to a specification function:
    - `ColumnList` to `ColumnExpr` at every position;
    - `GenerateInsertStatements` to `RunSqlQuery` of `InsertQuery`;
    - `AppendStatements` to the old lines followed by `Cleaned` of the pieces;
    - `AppendTable` to the old lines followed by `TableSection`;
    - `AppendTables` to the old lines followed by `Sections`;
    - `GenerateDump` to `DumpText`.
- `DumpProperties` (`dump_properties.dfy`) and `Scenario` (`scenario.dfy`):
  what is proved about the written text for every database, and a worked
  `users`/`sessions` example.

The query texts are reproduced character for character, including the
indentation and trailing spaces of the triple-quoted strings. The oracle is
keyed on them.

Where the code is more specific than a plain reading of its intent, the model
follows the code:

- The banner count falls back to `"0"` both when the count query fails and when
  it prints nothing (`if count_result` is false for `""` too).
- Only the exact name `sessions` is skipped.
- The separator between column expressions is ` || ',' || `. That is what the
  f-string on line 37 produces. Python accepts that backslash inside an
  f-string expression only from version 3.12 on.

## Model

| member | source | states |
|---|---|---|
| `Dump.RunSqlQuery` | generate_complete_dump.py:11-21 | fails exactly when psql fails; otherwise yields exactly `Strip` of psql's output, which has no whitespace left at either end and is no longer |
| `Dump.ColumnExpr` | generate_complete_dump.py:29-33 | a column gets `quote_literal(col)` if and only if it ends in `::text` or is `id`, `created_at` or `updated_at`; every other column gets `COALESCE(quote_literal(col::text), 'NULL')` |
| `Dump.ColumnList` | generate_complete_dump.py:28-33 | the loop yields one expression per column, same length and same order, each the one `ColumnExpr` chooses |
| `Dump.InsertQuery` | generate_complete_dump.py:35-40 | the query opens with the head `SELECT 'INSERT INTO <table> VALUES ('` and a string concatenation, and closes with the tail `');' as insert_statement FROM <table>;` |
| `DumpProperties.InsertQueryLayout` | generate_complete_dump.py:35-40 | the query starts with the head naming the table after `INSERT INTO` followed by the first column expression, and ends with the last column expression followed by the tail that closes with `);` and names the table after `FROM` |
| `Dump.GenerateInsertStatements` | generate_complete_dump.py:23-42 | returns the database's stripped answer to the insert query built from the column expressions, in column order, joined by the comma-concatenation separator |
| `Dump.AppendStatements` | generate_complete_dump.py:106-109 | the statement loop appends exactly the stripped, non-blank pieces of the insert result, in order, after the lines already there |
| `Dump.SkippedTableSection` | generate_complete_dump.py:76-91 | a table named `sessions`, or one whose column query fails or prints nothing, contributes no lines |
| `Dump.ProcessedTableSection` | generate_complete_dump.py:98-111 | any other table contributes the rule, `-- <TABLE> (<count> records)` with the upper-cased name, the rule, its insert lines, and one blank line, in that order |
| `Dump.AppendTable` | generate_complete_dump.py:76-111 | one pass of the table loop appends exactly that table's section to what was built before |
| `Dump.AppendTables` | generate_complete_dump.py:75-111 | the table loop appends the sections of all tables, in table order, after the lines already there |
| `Dump.GenerateDump` | generate_complete_dump.py:44-125 | the text `main` writes is `'\n'`-joined header, sections of the cleaned table list in order, and footer; nothing is written when the table query fails or prints nothing |
| `DumpProperties.NoFileWithoutTables` | generate_complete_dump.py:56-59 | no text is produced if and only if the table query fails or prints only whitespace |
| `DumpProperties.TablesAreClean` | generate_complete_dump.py:61 | whenever the loop runs it has at least one table, and no table name is empty, blank, padded or holds a newline |
| `DumpProperties.ProcessedTableHasColumns` | generate_complete_dump.py:89-93 | a table that passes the column check has a non-empty column list, so its insert query has at least one expression |
| `DumpProperties.RowCountOfQuery` | generate_complete_dump.py:96-98 | the banner count is psql's stripped output of the count query, or `"0"` when that query fails or prints only whitespace |
| `DumpProperties.InsertLinesAreClean` | generate_complete_dump.py:105-109 | a failed insert query, or one that prints nothing (a table with no rows), adds no statement; every added statement is non-empty, stripped and a single line |
| `DumpProperties.SectionsConcat` | generate_complete_dump.py:75-111 | the sections of two runs of tables, one after the other, are the sections of the concatenated run, so the section order is the table order |
| `DumpProperties.SectionOrder` | generate_complete_dump.py:75-111 | each table's section lies after the sections of the tables before it and before those of the tables after it |
| `DumpProperties.WithoutExcluded` | generate_complete_dump.py:76-77 | the table list with `sessions` removed holds each other table as often as the original does and holds no `sessions`, so it is shorter by the number of times `sessions` occurs |
| `DumpProperties.WithoutExcludedSingle` | generate_complete_dump.py:76-77 | one table is kept exactly when it is not `sessions` |
| `DumpProperties.WithoutExcludedAppend` | generate_complete_dump.py:75-77 | filtering a concatenation is filtering each run and concatenating the results, so the order of the kept tables is kept |
| `DumpProperties.SessionsContributeNothing` | generate_complete_dump.py:75-77 | removing the `sessions` table from the list leaves the sections unchanged |
| `DumpProperties.NoSections` | generate_complete_dump.py:75-91 | when every table is `sessions` or has no columns, there are no sections |
| `DumpProperties.DumpFraming` | generate_complete_dump.py:64-121 | every produced line list begins with the 7 header lines and ends with the 6 footer lines |
| `DumpProperties.DumpTextLayout` | generate_complete_dump.py:114-125 | a written text with at least one section is the joined header, a newline, the newline-joined sections, a newline and the joined footer |
| `DumpProperties.EmptySchemaDump` | generate_complete_dump.py:64-121 | with no table left to dump, the text is the header immediately followed by the footer |
| `DumpProperties.DumpLinesRecoverable` | generate_complete_dump.py:124-125 | splitting the written text at newlines gives back the line list when no line holds a newline; that premise can fail, because a count answer such as `1\n2` puts a newline inside a banner |
| `DumpProperties.DumpSectionsAreSingleLines` | generate_complete_dump.py:98-111 | when no table's stripped count answer holds a newline, no line of any section holds one: table names and insert lines never do |
| `Scenario.UsersColumnExprs` | generate_complete_dump.py:29-33 | for `id`, `name`, `created_at`, only `name` is cast and coalesced |
| `Scenario.UsersAndSessionsDump` | generate_complete_dump.py:44-121 | for tables `sessions` and `users` (columns `id`, `name`, `created_at`, 2 rows), the dump is header, `-- USERS (2 records)` banner and the two statements, blank line, footer, with nothing for `sessions` |
| `Text.Strip` | generate_complete_dump.py:17 | `str.strip()` leaves no whitespace at either end and never lengthens |
| `Text.StripIsSlice` | generate_complete_dump.py:17 | what `strip()` keeps is a contiguous slice of the input with only whitespace before and after it |
| `Text.StripPadded` | generate_complete_dump.py:17 | a stripped non-empty text padded with whitespace strips back to that text |
| `Text.StripEmptyIffBlank` | generate_complete_dump.py:57 | `strip()` yields the empty (falsy) string if and only if the text is all whitespace |
| `Text.StripIdempotent` | generate_complete_dump.py:98 | stripping an already stripped result changes nothing |
| `Text.SplitLines` | generate_complete_dump.py:61 | `split('\n')` yields at least one piece and no piece contains a newline |
| `Text.JoinSplitLines` | generate_complete_dump.py:107 | joining the pieces of a split with newlines gives back the text |
| `Text.SplitJoinLines` | generate_complete_dump.py:125 | splitting a newline-join of newline-free lines gives back the lines |
| `Text.Join` | generate_complete_dump.py:125 | a join holds at least as many characters as its parts together |
| `Text.JoinLength` | generate_complete_dump.py:125 | a join of a non-empty list is exactly as long as its parts together plus one separator between each two neighbours |
| `Text.JoinAppend` | generate_complete_dump.py:125 | joining two non-empty lists is joining each and gluing them with one separator |
| `Text.JoinEnds` | generate_complete_dump.py:37 | a join of a non-empty list starts with its first element and ends with its last |
| `Text.Cleaned` | generate_complete_dump.py:61 | the cleaning comprehension yields only non-empty stripped strings and never more than its input |
| `Text.CleanedAppend` | generate_complete_dump.py:93 | cleaning works piece by piece and keeps order |
| `Text.CleanedNonEmpty` | generate_complete_dump.py:93 | a non-blank piece survives cleaning |
| `Text.CleanedLinesNonEmpty` | generate_complete_dump.py:93 | a text that does not strip to empty has at least one cleaned line |
| `Text.CleanedHasNoNewline` | generate_complete_dump.py:109 | cleaned pieces of a split hold no newline |
| `Text.NonBlankPiece` | generate_complete_dump.py:61 | a text with a non-whitespace character has a non-blank piece after splitting at newlines |
| `Text.Upper` | generate_complete_dump.py:101 | `upper()` keeps the length, turns every lower-case ASCII letter into its capital (32 code points lower), and keeps every other character |
| `Text.EndsWith` | generate_complete_dump.py:30 | a text ends with a suffix if and only if it is some text followed by that suffix |

## Left out

- Running `psql` in a subprocess, reading `DATABASE_URL`, and the captured
  stdout/stderr (lines 11-21). These are process I/O. They become the `Database`
  oracle from query text to `Option<string>`.
- All the `print` diagnostics (lines 19-20, 25, 58, 79, 127). They are console
  output and do not affect the result.
- Writing `complete_production_dump.sql` (lines 124-125). The model returns
  the text that would be written. `None` stands for "the file is not
  written".
- What the database computes: `quote_literal`, `COALESCE` producing `NULL` for
  null values, `information_schema`, `COUNT(*)`, and the ascending table
  order given by `ORDER BY table_name`. The model keeps whatever order the
  oracle prints, and proves that the sections follow it.
- Text.Strip: only ASCII whitespace counts (tab, newline, vertical tab, form
  feed, carriage return, 0x1C-0x1F, space). The other Unicode spaces that
  Python also strips are not modelled.
- Text.Upper: only ASCII `a`-`z` map to capitals. The Unicode case mapping of
  `str.upper()` is not modelled.
- The decoding of psql's bytes and the newline normalisation of `text=True`
  (line 16) happen before the `Database` answer. Whatever psql prints has its
  `\r\n` and `\r` turned into `\n` before the model sees it. How psql renders
  the values themselves is outside the model.
- Exceptions other than `CalledProcessError`: only that one is caught (line
  18). A missing `psql` (`FileNotFoundError`) or undecodable output
  (`UnicodeDecodeError`) ends `main` before anything is written, even when it
  happens on a later per-table query. The `Database` oracle is total and
  answers every query with output or `None`, so the model does not have this
  outcome.
- Identifier escaping: the script puts table and column names into the
  queries unescaped, and the model does the same.
- `Dump.GenerateDump`, `Dump.AppendTables`, `Dump.AppendTable`, `Dump.AppendStatements`: a Python
  list is modelled as a `seq` value that is passed along and returned. Nothing
  else holds a reference to `dump_content`, so no aliasing is lost.
