/**
 * A worked example: a schema with the tables `sessions` and `users`, where
 * `users` has the columns `id`, `name` and `created_at` and two rows. The dump
 * holds a `USERS (2 records)` section with the two statements and nothing at
 * all for `sessions`. The database's answers are written as psql prints them
 * with `-t`: one value per line, padded with spaces.
 */
module Scenario {
  import opened Wrappers
  import opened Seqs
  import opened Text
  import opened Dump

  // The words of the example as named constants, so that the proofs build the
  // database's answers from them instead of unfolding long literals.
  const Sessions: string := "sessions"
  const Users: string := "users"
  const Id: string := "id"
  const Name: string := "name"
  const CreatedAt: string := "created_at"
  const Two: string := "2"
  const Sp: string := " "
  const Nl: string := "\n"

  /** The expressions the users query is built from: `name` is cast and coalesced, the others are not. */
  lemma UsersColumnExprs()
    ensures ColumnExprs([Id, Name, CreatedAt])
      == ["quote_literal(id)", "COALESCE(quote_literal(name::text), 'NULL')", "quote_literal(created_at)"]
  {
    var cols := [Id, Name, CreatedAt];
    assert IsDirectlyQuoted(Id) && IsDirectlyQuoted(CreatedAt);
    assert !EndsWith(Name, "::text") && Name !in DirectColumns;
    assert ColumnExprs(cols)[0] == DirectQuote(Id);
    assert ColumnExprs(cols)[1] == CoalesceQuote(Name);
    assert ColumnExprs(cols)[2] == DirectQuote(CreatedAt);
    assert DirectQuote(Id) == "quote_literal(id)";
    assert CoalesceQuote(Name) == "COALESCE(quote_literal(name::text), 'NULL')";
    assert DirectQuote(CreatedAt) == "quote_literal(created_at)";
    ListOfThree(ColumnExprs(cols), DirectQuote(Id), CoalesceQuote(Name), DirectQuote(CreatedAt));
  }

  // Small list identities, stated on their own so that the lists of strings below
  // are never compared character by character.
  lemma Pair<T>(a: T, b: T)
    ensures [a, b] == [a] + [b] && [a, b][..1] == [a] && [a, b][1] == b
  {
  }

  lemma ListOfThree<T>(s: seq<T>, a: T, b: T, c: T)
    requires |s| == 3 && s[0] == a && s[1] == b && s[2] == c
    ensures s == [a, b, c]
  {
  }

  lemma SectionList<T>(a: T, b: T, c: T, d: T, e: T, f: T)
    ensures [a, b, c] + [d, e] + [f] == [a, b, c, d, e, f]
    ensures [] + ([] + [a, b, c, d, e, f]) == [a, b, c, d, e, f]
  {
  }

  lemma Triple<T>(a: T, b: T, c: T)
    ensures [a, b, c] == [a] + [b] + [c]
  {
  }

  /** The example's words are clean, and its padding is whitespace. */
  lemma Words()
    ensures Clean(Sessions) && Clean(Users) && Clean(Id) && Clean(Name) && Clean(CreatedAt)
    ensures Clean(Two)
    ensures AllSpace(Sp) && AllSpace(Nl) && AllSpace([]) && AllSpace("     ")
  {
  }

  /** A non-empty, stripped word without a newline, even behind a leading space. */
  predicate Clean(w: string) {
    IsStripped(w) && w != [] && '\n' !in w && '\n' !in Sp + w
  }

  /** A word the database pads with one leading space is cleaned back to the word. */
  lemma CleanWord(x: string)
    requires IsStripped(x) && x != []
    ensures Cleaned([Sp + x]) == [x] && Cleaned([x]) == [x]
  {
    CleanedSingle(Sp + x);
    CleanedSingle(x);
    StripFixesStripped(x);
    StripPadded(Sp, x, []);
    assert Sp + x + [] == Sp + x;
  }

  /** psql prints ` a\n b\n`: the cleaned lines are `a` and `b`. */
  lemma TwoLines(a: string, b: string)
    requires Clean(a) && Clean(b)
    ensures Strip(Sp + (a + Nl + (Sp + b)) + Nl) == a + Nl + (Sp + b)
    ensures CleanLines(a + Nl + (Sp + b)) == [a, b]
  {
    Words();
    assert IsStripped(a + Nl + (Sp + b)) by {
      assert (a + Nl + (Sp + b))[0] == a[0];
      assert (a + Nl + (Sp + b))[|a + Nl + (Sp + b)| - 1] == b[|b| - 1];
    }
    StripPadded(Sp, a + Nl + (Sp + b), Nl);
    SplitLinesCons(a, Sp + b);
    SplitLinesOfLine(Sp + b);
    CleanedAppend([a], [Sp + b]);
    CleanWord(a);
    CleanWord(b);
    Pair(a, Sp + b);
    Pair(a, b);
  }

  /** psql prints ` a\n b\n c\n`: the cleaned lines are `a`, `b` and `c`. */
  lemma ThreeLines(a: string, b: string, c: string)
    requires Clean(a) && Clean(b) && Clean(c)
    ensures Strip(Sp + (a + Nl + (Sp + b + Nl + (Sp + c))) + Nl) == a + Nl + (Sp + b + Nl + (Sp + c))
    ensures CleanLines(a + Nl + (Sp + b + Nl + (Sp + c))) == [a, b, c]
  {
    Words();
    var s := a + Nl + (Sp + b + Nl + (Sp + c));
    assert IsStripped(s) by {
      assert s[0] == a[0];
      assert s[|s| - 1] == c[|c| - 1];
    }
    StripPadded(Sp, s, Nl);
    ThreeSplit(a, b, c);
    ThreeClean(a, b, c);
  }

  lemma ThreeSplit(a: string, b: string, c: string)
    requires Clean(a) && Clean(b) && Clean(c)
    ensures SplitLines(a + Nl + (Sp + b + Nl + (Sp + c))) == [a] + [Sp + b] + [Sp + c]
  {
    SplitLinesCons(a, Sp + b + Nl + (Sp + c));
    SplitLinesCons(Sp + b, Sp + c);
    SplitLinesOfLine(Sp + c);
    ConcatAssoc([a], [Sp + b], [Sp + c]);
  }

  lemma ThreeClean(a: string, b: string, c: string)
    requires Clean(a) && Clean(b) && Clean(c)
    ensures Cleaned([a] + [Sp + b] + [Sp + c]) == [a, b, c]
  {
    CleanedAppend([a] + [Sp + b], [Sp + c]);
    CleanedAppend([a], [Sp + b]);
    CleanWord(a);
    CleanWord(b);
    CleanWord(c);
    Triple(a, b, c);
  }

  lemma UsersUpper()
    ensures Upper(Users) == "USERS"
  {
  }

  lemma TablesStep(db: Database)
    requires db(TablesQuery) == Some(" sessions\n users\n")
    ensures Truthy(RunSqlQuery(db, TablesQuery)) && Tables(db) == [Sessions, Users]
  {
    Words();
    assert " sessions\n users\n" == Sp + (Sessions + Nl + (Sp + Users)) + Nl;
    TwoLines(Sessions, Users);
  }

  lemma ColumnsStep(db: Database, query: string)
    requires db(query) == Some(" id\n name\n created_at\n")
    ensures Truthy(RunSqlQuery(db, query))
    ensures CleanLines(RunSqlQuery(db, query).value) == [Id, Name, CreatedAt]
  {
    Words();
    assert " id\n name\n created_at\n" == Sp + (Id + Nl + (Sp + Name + Nl + (Sp + CreatedAt))) + Nl;
    ThreeLines(Id, Name, CreatedAt);
  }

  lemma CountStep(db: Database)
    requires db(CountQuery("users")) == Some("     2\n")
    ensures RowCount(RunSqlQuery(db, CountQuery(Users))) == Two
  {
    Words();
    assert "     2\n" == "     " + Two + Nl;
    StripPadded("     ", Two, Nl);
    StripFixesStripped(Two);
  }

  lemma InsertStep(db: Database, query: string, row1: string, row2: string)
    requires Clean(row1) && Clean(row2)
    requires db(query) == Some(" " + row1 + "\n " + row2 + "\n")
    ensures InsertLines(RunSqlQuery(db, query)) == [row1, row2]
  {
    assert " " + row1 + "\n " + row2 + "\n" == Sp + (row1 + Nl + (Sp + row2)) + Nl;
    TwoLines(row1, row2);
  }

  lemma UsersSection(db: Database, row1: string, row2: string)
    requires db(ColumnsQuery("users")) == Some(" id\n name\n created_at\n")
    requires db(CountQuery("users")) == Some("     2\n")
    requires Clean(row1) && Clean(row2)
    requires db(InsertQuery("users", ColumnExprs(["id", "name", "created_at"])))
      == Some(" " + row1 + "\n " + row2 + "\n")
    ensures TableSection(db, Users) == [Rule, "-- USERS (2 records)", Rule] + [row1, row2] + [""]
  {
    ColumnsStep(db, ColumnsQuery(Users));
    CountStep(db);
    InsertStep(db, InsertQuery(Users, ColumnExprs([Id, Name, CreatedAt])), row1, row2);
    ProcessedTableSection(db, Users);
    BannerStep();
  }

  lemma BannerStep()
    ensures Banner(Users, Two) == "-- USERS (2 records)"
  {
    UsersUpper();
  }

  /**
   * For any database that answers the four queries the script sends for this
   * schema as below, whatever two single-line statements it prints for the rows
   * of `users`, the file holds the header, the `USERS (2 records)` section with
   * those two statements and a blank line, and the footer; `sessions` gets no
   * line at all.
   */
  lemma UsersAndSessionsDump(db: Database, row1: string, row2: string)
    requires db(TablesQuery) == Some(" sessions\n users\n")
    requires db(ColumnsQuery("users")) == Some(" id\n name\n created_at\n")
    requires db(CountQuery("users")) == Some("     2\n")
    requires Clean(row1) && Clean(row2)
    requires db(InsertQuery("users", ColumnExprs(["id", "name", "created_at"])))
      == Some(" " + row1 + "\n " + row2 + "\n")
    ensures DumpLines(db) == Some(Header + [Rule, "-- USERS (2 records)", Rule, row1, row2, ""] + Footer)
  {
    TablesStep(db);
    UsersSection(db, row1, row2);
    SkippedTableSection(db, Sessions);
    Pair(Sessions, Users);
    assert Sections(db, [Sessions, Users]) == Sections(db, [Sessions]) + TableSection(db, Users);
    assert Sections(db, [Sessions]) == Sections(db, []) + TableSection(db, Sessions);
    SectionList(Rule, "-- USERS (2 records)", Rule, row1, row2, "");
    ghost var section := [Rule, "-- USERS (2 records)", Rule, row1, row2, ""];
    assert Sections(db, Tables(db)) == section;
  }
}
