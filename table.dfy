/**
 * `generateCreateTable`: the `CREATE TABLE` statement for a list of columns and
 * a list of constraints, followed by the column comments and the
 * autoincrement statements.
 */
module Table {
  import opened Wrappers
  import opened JavaText
  import opened Syntax
  import opened Descriptors
  import opened DedupWalk
  import opened Constraints
  import opened ConstraintText
  import opened Columns

  // ---------------------------------------------------------------------------
  // what the column loop (lines 57-72) accumulates
  // ---------------------------------------------------------------------------

  /** The column definitions, separated by commas (`closing`: the last one ends the list). */
  function ColumnLines(cols: seq<ColumnData>, closing: bool, fmt: Formatter): string {
    if cols == [] then ""
    else
      ColumnLines(cols[..|cols| - 1], false, fmt) + DefinitionColumn(cols[|cols| - 1], true, fmt) +
      (if closing then "" else COMMA)
  }

  /** Some column is part of the primary key. */
  predicate AnyPrimary(cols: seq<ColumnData>) {
    if cols == [] then false else AnyPrimary(cols[..|cols| - 1]) || cols[|cols| - 1].primaryKey
  }

  /** The primary-key column list: a space before the first name, `, ` before each later one. */
  function PrimaryText(cols: seq<ColumnData>): string {
    if cols == [] then ""
    else
      var front := cols[..|cols| - 1];
      var x := cols[|cols| - 1];
      PrimaryText(front) + (if x.primaryKey then (if AnyPrimary(front) then ", " else " ") + x.formattedColumnName else "")
  }

  /** The formatted names of the primary-key columns, in column order. */
  function PrimaryNames(cols: seq<ColumnData>): seq<string> {
    if cols == [] then []
    else
      var x := cols[|cols| - 1];
      PrimaryNames(cols[..|cols| - 1]) + (if x.primaryKey then [x.formattedColumnName] else [])
  }

  /** The autoincrement statements of the columns, one after the other. */
  function AutoText(cols: seq<ColumnData>): string {
    if cols == [] then "" else AutoText(cols[..|cols| - 1]) + cols[|cols| - 1].autoincrement.sqlAutoincrement
  }

  // ---------------------------------------------------------------------------
  // the statement
  // ---------------------------------------------------------------------------

  /** `format(name)`: what the placeholder is replaced by. */
  function TableName(name: string, fmt: Formatter): string {
    fmt.formatObject(name)
  }

  /** Lines 37-46. */
  function TableHead(name: string, temporary: bool, externalFile: JString, adapter: JString, fmt: Formatter): string {
    (if temporary then CREATE_GLOBAL_TEMPORARY_TABLE else CREATE_TABLE) + TableName(name, fmt) +
    (if externalFile.Some? then NEW_LINE + "EXTERNAL FILE '" + Trim(externalFile.value) + "'" else "") +
    (if adapter.Some? then SPACE + " ADAPTER '" + Trim(adapter.value) + "'" else "") +
    SPACE + B_OPEN
  }

  /** Lines 48-51 and 73: the primary-key constraint named `PK_<table>`. */
  function PrimaryClause(name: string, cols: seq<ColumnData>, fmt: Formatter): string {
    ",\nCONSTRAINT " + fmt.formatObject("PK_" + name) + " PRIMARY KEY (" + PrimaryText(cols) + B_CLOSE
  }

  /** Lines 76-77: the primary-key constraint, written only for a new table with key columns. */
  function PrimarySegment(name: string, cols: seq<ColumnData>, existTable: bool, fmt: Formatter): (r: string)
    ensures r != "" <==> AnyPrimary(cols) && !existTable
  {
    if AnyPrimary(cols) && !existTable then PrimaryClause(name, cols, fmt) else ""
  }

  /** Lines 80-82: each constraint's clause, with the placeholder replaced by the table name. */
  function ConstraintClauses(cs: seq<Constraint>, editing: bool, name: string, fmt: Formatter): string {
    if cs == [] then ""
    else
      ConstraintClauses(cs[..|cs| - 1], editing, name, fmt) +
      Replace(DefinitionColumnConstraint(cs[|cs| - 1], editing, fmt), SUBSTITUTE_NAME, TableName(name, fmt))
  }

  /** Lines 73-77: the column definitions and the primary-key constraint. */
  function TableColumns(name: string, cols: seq<ColumnData>, existTable: bool, fmt: Formatter): string {
    Replace(ColumnLines(cols, true, fmt), SUBSTITUTE_NAME, TableName(name, fmt)) + PrimarySegment(name, cols, existTable, fmt)
  }

  /** Lines 86-93. */
  function TableOptions(tablespace: JString, sqlSecurity: JString, temporary: bool, typeTemporary: JString, fmt: Formatter): string {
    (if tablespace.Some? then "\nTABLESPACE " + fmt.formatObject(tablespace.value) else "") +
    (if !IsNull(sqlSecurity) then "\n" + SQL_SECURITY + sqlSecurity.value else "") +
    (if temporary then "\n" + Show(typeTemporary) else "") +
    SEMI_COLON + "\n"
  }

  /** Lines 95-97: the table comment, with the name and the text as given. */
  function TableComment(name: string, comment: JString): string {
    if comment.Some? then "COMMENT ON TABLE " + name + " IS '" + comment.value + "';\n" else ""
  }

  /** Lines 94-97. */
  function TableTrailer(name: string, cols: seq<ColumnData>, comment: JString, fmt: Formatter): string {
    ColumnComments(name, cols, "COLUMN", "^", fmt) + Replace(AutoText(cols), SUBSTITUTE_NAME, TableName(name, fmt)) +
    NEW_LINE + TableComment(name, comment)
  }

  /** Lines 80-97: what follows the primary key. */
  function TableRest(name: string, cols: seq<ColumnData>, cs: seq<Constraint>, existTable: bool, temporary: bool,
                     typeTemporary: JString, sqlSecurity: JString, tablespace: JString, comment: JString,
                     fmt: Formatter): string {
    ConstraintClauses(cs, existTable, name, fmt) + B_CLOSE +
    TableOptions(tablespace, sqlSecurity, temporary, typeTemporary, fmt) + TableTrailer(name, cols, comment, fmt)
  }

  /** What `generateCreateTable` returns once the constraints `cs` have been deduplicated. */
  function CreateTableText(name: string, cols: seq<ColumnData>, cs: seq<Constraint>, existTable: bool, temporary: bool,
                           typeTemporary: JString, externalFile: JString, adapter: JString, sqlSecurity: JString,
                           tablespace: JString, comment: JString, fmt: Formatter): string {
    TableHead(name, temporary, externalFile, adapter, fmt) + TableColumns(name, cols, existTable, fmt) +
    TableRest(name, cols, cs, existTable, temporary, typeTemporary, sqlSecurity, tablespace, comment, fmt)
  }

  // ---------------------------------------------------------------------------
  // the methods
  // ---------------------------------------------------------------------------

  /**
   * `generateCreateTable` (lines 29-100). The constraint objects are
   * deduplicated in place first; the statement is written from what remains.
   */
  method GenerateCreateTable(name: string, cols: seq<ColumnData>, constraints: seq<ColumnConstraint>, existTable: bool,
                             temporary: bool, typeTemporary: JString, externalFile: JString, adapter: JString,
                             sqlSecurity: JString, tablespace: JString, comment: JString, fmt: Formatter)
    returns (r: string)
    requires Distinct(constraints)
    modifies constraints
    ensures Snapshots(constraints) == Dedup(old(Snapshots(constraints)), fmt).cs
    ensures r == CreateTableText(name, cols, Output(Dedup(old(Snapshots(constraints)), fmt)), existTable, temporary,
                                 typeTemporary, externalFile, adapter, sqlSecurity, tablespace, comment, fmt)
  {
    var kept := RemoveDuplicatesConstraints(constraints, fmt);
    ghost var after := Snapshots(constraints);
    ghost var cs := Snapshots(kept);
    r := WriteTable(name, cols, kept, cs, existTable, temporary, typeTemporary, externalFile, adapter, sqlSecurity,
                    tablespace, comment, fmt);
    assert Snapshots(constraints) == after;
  }

  /**
   * The statement written from the columns and the deduplicated constraints
   * `kept`. The column pass reads nothing the deduplication changes, so doing
   * it after the deduplication rather than before gives the same text.
   */
  method WriteTable(name: string, cols: seq<ColumnData>, kept: seq<ColumnConstraint>, ghost cs: seq<Constraint>,
                    existTable: bool, temporary: bool, typeTemporary: JString, externalFile: JString, adapter: JString,
                    sqlSecurity: JString, tablespace: JString, comment: JString, fmt: Formatter)
    returns (r: string)
    requires cs == Snapshots(kept)
    ensures r == CreateTableText(name, cols, cs, existTable, temporary, typeTemporary, externalFile, adapter, sqlSecurity,
                                 tablespace, comment, fmt)
  {
    var head := TableHead(name, temporary, externalFile, adapter, fmt);
    var columns, autoText := WriteColumns(name, cols, existTable, fmt);
    var rest := WriteRest(name, cols, autoText, kept, cs, existTable, temporary, typeTemporary, sqlSecurity, tablespace,
                          comment, fmt);
    r := head + columns + rest;
  }

  /** Lines 57-77: the column loop, then the column definitions with the placeholder replaced and the primary key if any. */
  method WriteColumns(name: string, cols: seq<ColumnData>, existTable: bool, fmt: Formatter)
    returns (columns: string, autoText: string)
    ensures columns == TableColumns(name, cols, existTable, fmt) && autoText == AutoText(cols)
  {
    var sqlText, primaryText, primaryFlag, auto := ScanColumns(cols, fmt);
    autoText := auto;
    var primary := ",\nCONSTRAINT " + fmt.formatObject("PK_" + name) + " PRIMARY KEY (" + primaryText + B_CLOSE;
    columns := Replace(sqlText, SUBSTITUTE_NAME, fmt.formatObject(name));
    if primaryFlag && !existTable {
      columns := columns + primary;
    }
  }

  /** Lines 80-97: the constraint clauses, the closing parenthesis, the options and the trailer. */
  method WriteRest(name: string, cols: seq<ColumnData>, autoText: string, kept: seq<ColumnConstraint>,
                   ghost cs: seq<Constraint>, existTable: bool, temporary: bool, typeTemporary: JString, sqlSecurity: JString, tablespace: JString, comment: JString,
                   fmt: Formatter)
    returns (rest: string)
    requires autoText == AutoText(cols) && cs == Snapshots(kept)
    ensures rest == TableRest(name, cols, cs, existTable, temporary, typeTemporary, sqlSecurity, tablespace,
                              comment, fmt)
  {
    var clauses := WriteConstraintClauses(kept, existTable, name, fmt);
    var options := TableOptions(tablespace, sqlSecurity, temporary, typeTemporary, fmt);
    var trailer := WriteTrailer(name, cols, autoText, comment, fmt);
    rest := clauses + B_CLOSE + options + trailer;
  }

  /** Lines 94-97: the column comments, the autoincrement statements and the table comment. */
  method WriteTrailer(name: string, cols: seq<ColumnData>, autoText: string, comment: JString, fmt: Formatter)
    returns (trailer: string)
    requires autoText == AutoText(cols)
    ensures trailer == TableTrailer(name, cols, comment, fmt)
  {
    var comments := GenerateCommentForColumns(name, cols, "COLUMN", "^", fmt);
    trailer := comments + Replace(autoText, SUBSTITUTE_NAME, fmt.formatObject(name)) + NEW_LINE + TableComment(name, comment);
  }

  /** Lines 57-72: one pass over the columns, collecting four texts at once. */
  method ScanColumns(cols: seq<ColumnData>, fmt: Formatter)
    returns (sqlText: string, primaryText: string, primaryFlag: bool, autoText: string)
    ensures sqlText == ColumnLines(cols, true, fmt)
    ensures primaryText == PrimaryText(cols) && primaryFlag == AnyPrimary(cols)
    ensures autoText == AutoText(cols)
  {
    sqlText, primaryText, primaryFlag, autoText := "", "", false, "";
    var k := |cols|;
    for i := 0 to k
      invariant sqlText == ColumnLines(cols[..i], i == k, fmt)
      invariant primaryText == PrimaryText(cols[..i]) && primaryFlag == AnyPrimary(cols[..i])
      invariant autoText == AutoText(cols[..i])
    {
      sqlText, primaryText, primaryFlag, autoText := VisitColumn(cols, i, sqlText, primaryText, primaryFlag, autoText, fmt);
    }
    assert cols[..k] == cols;
  }

  /** Lines 59-71: what one column adds to each text. */
  method VisitColumn(cols: seq<ColumnData>, i: nat, sqlText: string, primaryText: string, primaryFlag: bool,
                     autoText: string, fmt: Formatter)
    returns (sqlText': string, primaryText': string, primaryFlag': bool, autoText': string)
    requires i < |cols|
    requires sqlText == ColumnLines(cols[..i], false, fmt)
    requires primaryText == PrimaryText(cols[..i]) && primaryFlag == AnyPrimary(cols[..i])
    requires autoText == AutoText(cols[..i])
    ensures sqlText' == ColumnLines(cols[..i + 1], i + 1 == |cols|, fmt)
    ensures primaryText' == PrimaryText(cols[..i + 1]) && primaryFlag' == AnyPrimary(cols[..i + 1])
    ensures autoText' == AutoText(cols[..i + 1])
  {
    var k := |cols|;
    var cd := cols[i];
    ColumnStep(cols, i, i + 1 == k, fmt);
    autoText' := autoText + cd.autoincrement.sqlAutoincrement;
    primaryText', primaryFlag' := primaryText, primaryFlag;
    if cd.primaryKey {
      primaryText' := primaryText' + ((if primaryFlag then ", " else " ") + cd.formattedColumnName);
      primaryFlag' := true;
    }
    sqlText' := sqlText + DefinitionColumn(cd, true, fmt);
    if i != k - 1 {
      sqlText' := sqlText' + COMMA;
    } else {
      assert sqlText' + "" == sqlText';
    }
  }

  /** The column-loop functions over one more column. */
  lemma ColumnStep(cols: seq<ColumnData>, i: nat, closing: bool, fmt: Formatter)
    requires i < |cols|
    ensures ColumnLines(cols[..i + 1], closing, fmt) ==
            ColumnLines(cols[..i], false, fmt) + DefinitionColumn(cols[i], true, fmt) + (if closing then "" else COMMA)
    ensures PrimaryText(cols[..i + 1]) ==
            PrimaryText(cols[..i]) +
            (if cols[i].primaryKey then (if AnyPrimary(cols[..i]) then ", " else " ") + cols[i].formattedColumnName else "")
    ensures AnyPrimary(cols[..i + 1]) == (AnyPrimary(cols[..i]) || cols[i].primaryKey)
    ensures AutoText(cols[..i + 1]) == AutoText(cols[..i]) + cols[i].autoincrement.sqlAutoincrement
  {
    assert cols[..i + 1][..i] == cols[..i] && cols[..i + 1][i] == cols[i];
  }

  /** The clauses of the first `n` constraints. */
  function ClausesUpTo(cs: seq<Constraint>, n: nat, editing: bool, name: string, fmt: Formatter): string
    requires n <= |cs|
  {
    ConstraintClauses(cs[..n], editing, name, fmt)
  }

  /** Lines 80-82: the clauses of the deduplicated constraints, in order. */
  method WriteConstraintClauses(kept: seq<ColumnConstraint>, editing: bool, name: string, fmt: Formatter) returns (r: string)
    ensures r == ConstraintClauses(Snapshots(kept), editing, name, fmt)
  {
    r := "";
    ghost var cs := Snapshots(kept);
    for i := 0 to |kept|
      invariant r == ClausesUpTo(cs, i, editing, name, fmt)
    {
      r := AppendClause(r, cs, i, kept[i].Snapshot(), editing, name, fmt);
    }
    assert cs[..|kept|] == cs;
  }

  /** Line 81: one constraint's clause, with the placeholder replaced. */
  method AppendClause(r: string, ghost cs: seq<Constraint>, i: nat, c: Constraint, editing: bool, name: string, fmt: Formatter)
    returns (r': string)
    requires i < |cs| && c == cs[i] && r == ClausesUpTo(cs, i, editing, name, fmt)
    ensures r' == ClausesUpTo(cs, i + 1, editing, name, fmt)
  {
    assert cs[..i + 1][..i] == cs[..i] && cs[..i + 1][i] == c;
    r' := r + Replace(DefinitionColumnConstraint(c, editing, fmt), SUBSTITUTE_NAME, fmt.formatObject(name));
  }

  // ---------------------------------------------------------------------------
  // properties of the statement
  // ---------------------------------------------------------------------------

  /**
   * The primary-key list names exactly the key columns, in column order,
   * separated by commas; it is empty exactly when no column is a key column.
   */
  lemma {:induction false} PrimaryColumnsInOrder(cols: seq<ColumnData>)
    ensures AnyPrimary(cols) <==> PrimaryNames(cols) != []
    ensures PrimaryText(cols) == if PrimaryNames(cols) == [] then "" else " " + Join(", ", PrimaryNames(cols))
  {
    if cols != [] {
      var front := cols[..|cols| - 1];
      var x := cols[|cols| - 1];
      PrimaryColumnsInOrder(front);
      if x.primaryKey && PrimaryNames(front) != [] {
        var j := Join(", ", PrimaryNames(front));
        assert PrimaryNames(cols) == PrimaryNames(front) + [x.formattedColumnName];
        JoinSnoc(", ", PrimaryNames(front), x.formattedColumnName);
        assert PrimaryText(cols) == (" " + j) + (", " + x.formattedColumnName);
        assert (" " + j) + (", " + x.formattedColumnName) == " " + (j + ", " + x.formattedColumnName);
      } else if x.primaryKey {
        assert PrimaryNames(cols) == [x.formattedColumnName];
        assert PrimaryText(cols) == "" + (" " + x.formattedColumnName) == " " + x.formattedColumnName;
      } else {
        assert PrimaryNames(cols) == PrimaryNames(front) + [] == PrimaryNames(front);
        assert PrimaryText(cols) == PrimaryText(front) + "" == PrimaryText(front);
      }
    }
  }

  /** A new table with key columns carries the `PK_<table>` constraint. */
  lemma PrimaryKeyWritten(name: string, cols: seq<ColumnData>, cs: seq<Constraint>, existTable: bool, temporary: bool,
                          typeTemporary: JString, externalFile: JString, adapter: JString, sqlSecurity: JString,
                          tablespace: JString, comment: JString, fmt: Formatter)
    requires AnyPrimary(cols) && !existTable
    ensures Contains(CreateTableText(name, cols, cs, existTable, temporary, typeTemporary, externalFile, adapter,
                                     sqlSecurity, tablespace, comment, fmt), PrimaryClause(name, cols, fmt))
  {
    var lines := Replace(ColumnLines(cols, true, fmt), SUBSTITUTE_NAME, TableName(name, fmt));
    ContainsRight(lines, PrimaryClause(name, cols, fmt));
    ContainsWithin(TableHead(name, temporary, externalFile, adapter, fmt), TableColumns(name, cols, existTable, fmt),
                   TableRest(name, cols, cs, existTable, temporary, typeTemporary, sqlSecurity, tablespace, comment, fmt),
                   PrimaryClause(name, cols, fmt));
  }

  /** An existing table never gets a primary-key constraint from its key columns. */
  lemma ExistingTableKeepsItsKey(name: string, cols: seq<ColumnData>, fmt: Formatter)
    ensures TableColumns(name, cols, true, fmt) == Replace(ColumnLines(cols, true, fmt), SUBSTITUTE_NAME, TableName(name, fmt))
  {
    assert PrimarySegment(name, cols, true, fmt) == "";
  }

  /** The statement opens with the right `CREATE` keyword and the formatted table name. */
  lemma TableStartsWithCreate(name: string, cols: seq<ColumnData>, cs: seq<Constraint>, existTable: bool, temporary: bool,
                              typeTemporary: JString, externalFile: JString, adapter: JString, sqlSecurity: JString,
                              tablespace: JString, comment: JString, fmt: Formatter)
    ensures StartsWith(CreateTableText(name, cols, cs, existTable, temporary, typeTemporary, externalFile, adapter,
                                       sqlSecurity, tablespace, comment, fmt),
                       (if temporary then "CREATE GLOBAL TEMPORARY TABLE " else "CREATE TABLE ") + fmt.formatObject(name))
  {
    var p := (if temporary then CREATE_GLOBAL_TEMPORARY_TABLE else CREATE_TABLE) + TableName(name, fmt);
    var e := if externalFile.Some? then NEW_LINE + "EXTERNAL FILE '" + Trim(externalFile.value) + "'" else "";
    var d := if adapter.Some? then SPACE + " ADAPTER '" + Trim(adapter.value) + "'" else "";
    AppendEnds(p, e);
    StartsWithLeft(p + e, d, p);
    StartsWithLeft(p + e + d, SPACE, p);
    StartsWithLeft(p + e + d + SPACE, B_OPEN, p);
    StartsWithLeft(TableHead(name, temporary, externalFile, adapter, fmt), TableColumns(name, cols, existTable, fmt), p);
    StartsWithLeft(TableHead(name, temporary, externalFile, adapter, fmt) + TableColumns(name, cols, existTable, fmt),
                   TableRest(name, cols, cs, existTable, temporary, typeTemporary, sqlSecurity, tablespace, comment, fmt), p);
  }

  /**
   * Every placeholder in a constraint clause (a reference to the table being
   * created) is replaced by the formatted table name: the text before the
   * first one is kept, and the rest is replaced in turn.
   */
  lemma PlaceholderReplaced(c: Constraint, editing: bool, name: string, fmt: Formatter, a: string, b: string)
    requires DefinitionColumnConstraint(c, editing, fmt) == a + SUBSTITUTE_NAME + b
    requires '<' !in a
    ensures ConstraintClauses([c], editing, name, fmt) ==
            a + fmt.formatObject(name) + Replace(b, SUBSTITUTE_NAME, fmt.formatObject(name))
  {
    assert [c][..0] == [];
    ReplaceFirst(a, SUBSTITUTE_NAME, b, TableName(name, fmt));
  }

  /** A constraint clause without a placeholder is written as it is. */
  lemma PlaceholderFreeClauseKept(c: Constraint, editing: bool, name: string, fmt: Formatter)
    requires !Contains(DefinitionColumnConstraint(c, editing, fmt), SUBSTITUTE_NAME)
    ensures ConstraintClauses([c], editing, name, fmt) == DefinitionColumnConstraint(c, editing, fmt)
  {
    assert [c][..0] == [];
    ReplaceAbsent(DefinitionColumnConstraint(c, editing, fmt), SUBSTITUTE_NAME, TableName(name, fmt));
  }
}
