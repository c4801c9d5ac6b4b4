/**
 * The fragments written for one typed attribute: a table column
 * (`generateDefinitionColumn`), a routine parameter or variable
 * (`formattedParameter`, `formattedParameters`) and the `COMMENT ON`
 * statements (`generateComment`, `generateCommentForColumns`).
 */
module Columns {
  import opened Wrappers
  import opened JavaText
  import opened Syntax
  import opened Descriptors

  const IDENTITY: string := " GENERATED BY DEFAULT AS IDENTITY"
  const START_WITH: string := " (START WITH "
  const COMPUTED_BY: string := "COMPUTED BY ( "
  const CHECK_OPEN: string := " CHECK ( "
  const COLLATE: string := " COLLATE "

  // ---------------------------------------------------------------------------
  // clauses shared by columns and parameters
  // ---------------------------------------------------------------------------

  /** Lines 123-124 and 402-404: a check expression, when there is one. */
  function CheckClause(check: JString): string {
    if !IsNull(check) then CHECK_OPEN + check.value + B_CLOSE else ""
  }

  /** Lines 135 and 406: the expression of a computed attribute. */
  function ComputedClause(expr: string): string {
    COMPUTED_BY + expr + B_CLOSE
  }

  function RequiredClause(required: bool): string {
    if required then NOT_NULL else ""
  }

  // ---------------------------------------------------------------------------
  // generateDefinitionColumn
  // ---------------------------------------------------------------------------

  /** Lines 106-108: the optional line break, the formatted name and a space. */
  function ColumnHead(cd: ColumnData, startWithNewLine: bool): string {
    (if startWithNewLine then NEW_LINE_2 else "") +
    (if cd.columnName.None? then "" else cd.formattedColumnName) + SPACE
  }

  /** Lines 112-115: the declared type, unless a user domain (not `RDB$...`) stands in for it. */
  function ColumnType(cd: ColumnData): string {
    if IsNull(cd.domain) || StartsWith(cd.domain.value, "RDB$") then cd.formattedDataType
    else cd.formattedDomain
  }

  /** Lines 117-121: the identity clause, with its start value when that is not 0. */
  function IdentityClause(isAutoincrement: bool, a: Autoincrement): string {
    if isAutoincrement && a.identity then
      IDENTITY + (if a.startValue != 0 then START_WITH + IntToString(a.startValue) + B_CLOSE else "")
    else ""
  }

  /** Lines 123-124: the formatted default, when the default value is not null. */
  function DefaultClause(dv: DefaultValue, sqlType: int, fmt: Formatter): string {
    if !IsNull(dv.value) then fmt.formattedDefaultValue(dv, sqlType) else ""
  }

  /** Lines 130-131: a collation other than `NONE`. */
  function CollateClause(collate: JString): string {
    if !IsNull(collate) && collate.value != NONE then COLLATE + collate.value else ""
  }

  /** Lines 110-131: everything a stored (not computed) column declares after its name. */
  function StoredColumn(cd: ColumnData, fmt: Formatter): string {
    ColumnType(cd) + IdentityClause(cd.isAutoincrement, cd.autoincrement) +
    DefaultClause(cd.defaultValue, cd.sqlType, fmt) + RequiredClause(cd.required) +
    CheckClause(cd.check) + CollateClause(cd.collate)
  }

  /** `generateDefinitionColumn` (lines 102-137): one column of a table definition. */
  function DefinitionColumn(cd: ColumnData, startWithNewLine: bool, fmt: Formatter): (r: string)
    ensures StartsWith(r, ColumnHead(cd, startWithNewLine))
  {
    var head := ColumnHead(cd, startWithNewLine);
    var tail := if IsNull(cd.computedBy) then StoredColumn(cd, fmt) else ComputedClause(cd.computedBy.value);
    AppendEnds(head, tail);
    head + tail
  }

  /**
   * A computed column is its name and its expression and nothing else: no
   * other attribute of the column reaches the text.
   */
  lemma ComputedColumnIsOnlyExpression(cd: ColumnData, other: ColumnData, startWithNewLine: bool, fmt: Formatter)
    requires !IsNull(cd.computedBy)
    requires other.computedBy == cd.computedBy && other.columnName == cd.columnName
    requires other.formattedColumnName == cd.formattedColumnName
    ensures DefinitionColumn(cd, startWithNewLine, fmt) ==
            ColumnHead(cd, startWithNewLine) + "COMPUTED BY ( " + cd.computedBy.value + ")"
    ensures DefinitionColumn(other, startWithNewLine, fmt) == DefinitionColumn(cd, startWithNewLine, fmt)
  {
  }

  /** A null, blank or `NONE` collation is written exactly as an absent one. */
  lemma CollateNoneIsSilent(cd: ColumnData, startWithNewLine: bool, fmt: Formatter)
    requires IsNull(cd.collate) || cd.collate.value == NONE
    ensures DefinitionColumn(cd, startWithNewLine, fmt) == DefinitionColumn(cd.(collate := None), startWithNewLine, fmt)
  {
    var bare := cd.(collate := None);
    assert ColumnHead(cd, startWithNewLine) == ColumnHead(bare, startWithNewLine);
    assert StoredColumn(cd, fmt) == StoredColumn(bare, fmt);
  }

  /** Any other collation of a stored column closes its definition. */
  lemma CollateIsWritten(cd: ColumnData, startWithNewLine: bool, fmt: Formatter)
    requires IsNull(cd.computedBy) && !IsNull(cd.collate) && cd.collate.value != NONE
    ensures EndsWith(DefinitionColumn(cd, startWithNewLine, fmt), " COLLATE " + cd.collate.value)
  {
    var front := ColumnType(cd) + IdentityClause(cd.isAutoincrement, cd.autoincrement) +
                 DefaultClause(cd.defaultValue, cd.sqlType, fmt) + RequiredClause(cd.required) + CheckClause(cd.check);
    var c := CollateClause(cd.collate);
    AppendEnds(front, c);
    EndsWithExtended(ColumnHead(cd, startWithNewLine), front + c, c);
  }

  /**
   * The identity clause carries ` (START WITH n)` exactly when the column is an
   * identity column whose start value is not 0, and `n` reads back as that value.
   */
  lemma StartWithOnlyWhenSet(isAutoincrement: bool, a: Autoincrement)
    ensures Contains(IdentityClause(isAutoincrement, a), " (START WITH ") <==>
            isAutoincrement && a.identity && a.startValue != 0
    ensures isAutoincrement && a.identity ==> StartsWith(IdentityClause(isAutoincrement, a), " GENERATED BY DEFAULT AS IDENTITY")
    ensures isAutoincrement && a.identity && a.startValue != 0 ==>
            EndsWith(IdentityClause(isAutoincrement, a), " (START WITH " + IntToString(a.startValue) + ")") &&
            ParseDecimal(IntToString(a.startValue)) == Some(a.startValue)
  {
    if isAutoincrement && a.identity && a.startValue != 0 {
      var num := IntToString(a.startValue);
      var n := START_WITH + num + B_CLOSE;
      ContainsSelf(START_WITH);
      ContainsLeft(START_WITH, num, START_WITH);
      ContainsLeft(START_WITH + num, B_CLOSE, START_WITH);
      ContainsPrefixed(IDENTITY, n, START_WITH);
      AppendEnds(IDENTITY, n);
      ParseIntToString(a.startValue);
    } else if isAutoincrement && a.identity {
      assert IdentityClause(isAutoincrement, a) == IDENTITY + "";
      assert IDENTITY + "" == IDENTITY;
      NotContainsChar(IDENTITY, START_WITH, '(');
      AppendEnds(IDENTITY, "");
    } else {
      NotContainsChar("", START_WITH, '(');
    }
  }

  /** A stored identity column with a non-zero start value declares that start value. */
  lemma StartWithIsWritten(cd: ColumnData, startWithNewLine: bool, fmt: Formatter)
    requires IsNull(cd.computedBy) && cd.isAutoincrement && cd.autoincrement.identity
    requires cd.autoincrement.startValue != 0
    ensures Contains(DefinitionColumn(cd, startWithNewLine, fmt), " (START WITH " + IntToString(cd.autoincrement.startValue) + ")")
  {
    var n := START_WITH + IntToString(cd.autoincrement.startValue) + B_CLOSE;
    var t := ColumnType(cd);
    var id := IdentityClause(cd.isAutoincrement, cd.autoincrement);
    var d := DefaultClause(cd.defaultValue, cd.sqlType, fmt);
    var q := RequiredClause(cd.required);
    var ch := CheckClause(cd.check);
    var co := CollateClause(cd.collate);
    ContainsRight(IDENTITY, n);
    ContainsPrefixed(t, id, n);
    ContainsLeft(t + id, d, n);
    ContainsLeft(t + id + d, q, n);
    ContainsLeft(t + id + d + q, ch, n);
    ContainsLeft(t + id + d + q + ch, co, n);
    ContainsPrefixed(ColumnHead(cd, startWithNewLine), t + id + d + q + ch + co, n);
  }

  // ---------------------------------------------------------------------------
  // formattedParameter
  // ---------------------------------------------------------------------------

  /** Lines 387-388: the name as given (not quoted) and a space. */
  function ParameterHead(cd: ColumnData): string {
    (if cd.columnName.None? then "" else cd.columnName.value) + SPACE
  }

  /**
   * Lines 390-398: without a domain, the declared type if there is one (or a
   * `TYPE OF` reference); with a domain, `TYPE OF` wins over the domain name.
   */
  function ParameterType(cd: ColumnData): string {
    if IsNull(cd.domain) then (if cd.columnType.Some? || cd.typeOf then cd.formattedDataType else "")
    else if cd.typeOf then cd.formattedDataType
    else cd.formattedDomain
  }

  /** Lines 401-403: output parameters take no default. */
  function ParameterDefault(cd: ColumnData, fmt: Formatter): string {
    if cd.typeParameter != OUTPUT_PARAMETER && !IsNull(cd.defaultValue.value) then
      fmt.formattedDefaultValue(cd.defaultValue, cd.sqlType)
    else ""
  }

  /** `formattedParameter` (lines 385-411): one parameter declaration. */
  function FormattedParameter(cd: ColumnData, fmt: Formatter): string {
    ParameterHead(cd) + ParameterTail(cd, fmt)
  }

  /** Lines 389-407: the declaration after the name. */
  function ParameterTail(cd: ColumnData, fmt: Formatter): string {
    if IsNull(cd.computedBy) then
      ParameterType(cd) + RequiredClause(cd.required) + ParameterDefault(cd, fmt) + CheckClause(cd.check)
    else ComputedClause(cd.computedBy.value)
  }

  /** An output parameter's default value never reaches its declaration. */
  lemma OutputParameterHasNoDefault(cd: ColumnData, dv: DefaultValue, fmt: Formatter)
    requires cd.typeParameter == OUTPUT_PARAMETER
    ensures FormattedParameter(cd.(defaultValue := dv), fmt) == FormattedParameter(cd, fmt)
  {
    assert ParameterDefault(cd.(defaultValue := dv), fmt) == ParameterDefault(cd, fmt);
  }

  /** A `TYPE OF` parameter is declared by its data type, whether or not it names a domain. */
  lemma TypeOfWritesDataType(cd: ColumnData, fmt: Formatter)
    requires IsNull(cd.computedBy) && cd.typeOf
    ensures StartsWith(FormattedParameter(cd, fmt), ParameterHead(cd) + cd.formattedDataType)
  {
    var t := cd.formattedDataType;
    var q := RequiredClause(cd.required);
    var d := ParameterDefault(cd, fmt);
    AppendEnds(t, q);
    StartsWithLeft(t + q, d, t);
    StartsWithLeft(t + q + d, CheckClause(cd.check), t);
    StartsWithJoin(ParameterHead(cd), t + q + d + CheckClause(cd.check), t);
  }

  /** A computed parameter is its name and its expression and nothing else. */
  lemma ComputedParameterIsOnlyExpression(cd: ColumnData, other: ColumnData, fmt: Formatter)
    requires !IsNull(cd.computedBy)
    requires other.computedBy == cd.computedBy && other.columnName == cd.columnName
    ensures FormattedParameter(cd, fmt) == ParameterHead(cd) + "COMPUTED BY ( " + cd.computedBy.value + ")"
    ensures FormattedParameter(other, fmt) == FormattedParameter(cd, fmt)
  {
  }

  // ---------------------------------------------------------------------------
  // formattedParameters
  // ---------------------------------------------------------------------------

  /** Lines 358-368: a cursor declaration, or the parameter itself (indented in a header). */
  function ParameterBody(cd: ColumnData, variable: bool, fmt: Formatter): string
    requires cd.columnName.Some?
  {
    if cd.cursor then
      cd.columnName.value + " CURSOR FOR " + (if cd.scroll then "SCROLL " else "") +
      B_OPEN + Show(cd.selectOperator) + B_CLOSE
    else (if variable then "" else "\t") + FormattedParameter(cd, fmt)
  }

  /** Lines 371-374: a variable's description, as a line comment or a block comment. */
  function DescriptionComment(cd: ColumnData): string {
    if cd.description.Some? && cd.description.value != "" then
      if cd.descriptionAsSingleComment then " --" + cd.description.value
      else " /*" + cd.description.value + "*/"
    else ""
  }

  /**
   * Lines 353-380: the line one attribute contributes; an attribute without a
   * name contributes nothing. A header parameter is followed by a comma unless
   * it sits at the last index of the whole list.
   */
  function ParameterLine(cd: ColumnData, atLastIndex: bool, variable: bool, fmt: Formatter): string {
    if IsNull(cd.columnName) then ""
    else (if variable then "DECLARE " else "") + ParameterBody(cd, variable, fmt) + LineEnd(cd, atLastIndex, variable)
  }

  /** Lines 369-380: what closes a parameter's line. */
  function LineEnd(cd: ColumnData, atLastIndex: bool, variable: bool): string {
    (if variable then SEMI_COLON + DescriptionComment(cd) else if !atLastIndex then COMMA else "") + NEW_LINE
  }

  /** The lines of `ps` in order; `closing` says whether its final element is at the list's last index. */
  function ParameterLines(ps: seq<ColumnData>, closing: bool, variable: bool, fmt: Formatter): string {
    if ps == [] then ""
    else ParameterLines(ps[..|ps| - 1], false, variable, fmt) + ParameterLine(ps[|ps| - 1], closing, variable, fmt)
  }

  /** What `formattedParameters` returns for the whole list. */
  function ParametersText(ps: seq<ColumnData>, variable: bool, fmt: Formatter): string {
    ParameterLines(ps, true, variable, fmt)
  }

  /** The text of the first `n` attributes of the list. */
  function ParametersUpTo(ps: seq<ColumnData>, n: nat, variable: bool, fmt: Formatter): string
    requires n <= |ps|
  {
    ParameterLines(ps[..n], n == |ps|, variable, fmt)
  }

  /** `formattedParameters` (lines 347-383). */
  method FormattedParameters(ps: seq<ColumnData>, variable: bool, fmt: Formatter) returns (r: string)
    ensures r == ParametersText(ps, variable, fmt)
  {
    r := "";
    var k := |ps|;
    for i := 0 to k
      invariant r == ParametersUpTo(ps, i, variable, fmt)
    {
      r := Advance(r, ps, i, variable, fmt);
    }
    assert ps[..k] == ps;
  }

  /** Lines 351-381: one pass of the loop, which skips an attribute without a name. */
  method Advance(r: string, ps: seq<ColumnData>, i: nat, variable: bool, fmt: Formatter) returns (r': string)
    requires i < |ps| && r == ParametersUpTo(ps, i, variable, fmt)
    ensures r' == ParametersUpTo(ps, i + 1, variable, fmt)
  {
    var k := |ps|;
    var cd := ps[i];
    assert ps[..i + 1] == ps[..i] + [cd];
    LinesSnoc(ps[..i], cd, i + 1 == k, variable, fmt);
    if !IsNull(cd.columnName) {
      var line := NamedLine(cd, i != k - 1, variable, fmt);
      r' := r + line;
    } else {
      r' := r;
    }
  }

  /** Lines 355-379: the line of one named attribute, put together piece by piece. */
  method NamedLine(cd: ColumnData, comma: bool, variable: bool, fmt: Formatter) returns (line: string)
    requires !IsNull(cd.columnName)
    ensures line == ParameterLine(cd, !comma, variable, fmt)
  {
    var declare := if variable then "DECLARE " else "";
    var body := CursorOrParameter(cd, variable, fmt);
    var end := "";
    if variable {
      end := SEMI_COLON + DescriptionComment(cd);
    } else if comma {
      end := COMMA;
    }
    line := declare + body + (end + NEW_LINE);
  }

  /** Lines 358-368. */
  method CursorOrParameter(cd: ColumnData, variable: bool, fmt: Formatter) returns (body: string)
    requires !IsNull(cd.columnName)
    ensures body == ParameterBody(cd, variable, fmt)
  {
    if cd.cursor {
      body := cd.columnName.value + " CURSOR FOR ";
      if cd.scroll {
        body := body + "SCROLL ";
      }
      body := body + B_OPEN + Show(cd.selectOperator) + B_CLOSE;
    } else {
      body := (if variable then "" else "\t") + FormattedParameter(cd, fmt);
    }
  }

  /** The attributes of `ps` that have a name, in order. */
  function NamedOnly(ps: seq<ColumnData>): (r: seq<ColumnData>)
    ensures |r| <= |ps|
    ensures forall j :: 0 <= j < |r| ==> !IsNull(r[j].columnName)
  {
    if ps == [] then []
    else NamedOnly(ps[..|ps| - 1]) + (if IsNull(ps[|ps| - 1].columnName) then [] else [ps[|ps| - 1]])
  }

  /** A list whose attributes all lack a name gives no text at all. */
  lemma {:induction false} UnnamedOnlyIsEmpty(ps: seq<ColumnData>, closing: bool, variable: bool, fmt: Formatter)
    requires forall j :: 0 <= j < |ps| ==> IsNull(ps[j].columnName)
    ensures ParameterLines(ps, closing, variable, fmt) == ""
  {
    if ps != [] {
      UnnamedOnlyIsEmpty(ps[..|ps| - 1], false, variable, fmt);
    }
  }

  /** A named attribute's line holds its name. */
  lemma LineNamesParameter(cd: ColumnData, atLastIndex: bool, variable: bool, fmt: Formatter)
    requires !IsNull(cd.columnName)
    ensures Contains(ParameterLine(cd, atLastIndex, variable, fmt), cd.columnName.value)
  {
    var name := cd.columnName.value;
    var body := ParameterBody(cd, variable, fmt);
    if cd.cursor {
      var a := name + " CURSOR FOR ";
      var b := a + (if cd.scroll then "SCROLL " else "");
      AppendEnds(name, " CURSOR FOR ");
      StartsWithLeft(a, if cd.scroll then "SCROLL " else "", name);
      StartsWithLeft(b, B_OPEN, name);
      StartsWithLeft(b + B_OPEN, Show(cd.selectOperator), name);
      StartsWithLeft(b + B_OPEN + Show(cd.selectOperator), B_CLOSE, name);
    } else {
      AppendEnds(name, SPACE);
      StartsWithLeft(ParameterHead(cd), ParameterTail(cd, fmt), name);
      ContainsPrefixed(if variable then "" else "\t", FormattedParameter(cd, fmt), name);
    }
    var declare := if variable then "DECLARE " else "";
    ContainsPrefixed(declare, body, name);
    ContainsLeft(declare + body, LineEnd(cd, atLastIndex, variable), name);
  }

  /** Every named attribute's name appears in the text of the list. */
  lemma {:induction false} NamedLineAppears(ps: seq<ColumnData>, closing: bool, variable: bool, fmt: Formatter, j: nat)
    requires j < |ps| && !IsNull(ps[j].columnName)
    ensures Contains(ParameterLines(ps, closing, variable, fmt), ps[j].columnName.value)
  {
    var front := ps[..|ps| - 1];
    var x := ps[|ps| - 1];
    var name := ps[j].columnName.value;
    if j == |ps| - 1 {
      LineNamesParameter(x, closing, variable, fmt);
      ContainsPrefixed(ParameterLines(front, false, variable, fmt), ParameterLine(x, closing, variable, fmt), name);
    } else {
      assert front[j] == ps[j];
      NamedLineAppears(front, false, variable, fmt, j);
      ContainsLeft(ParameterLines(front, false, variable, fmt), ParameterLine(x, closing, variable, fmt), name);
    }
  }

  /** A variable's line does not depend on where it sits in the list. */
  lemma VariableLineAnywhere(cd: ColumnData, a: bool, b: bool, fmt: Formatter)
    ensures ParameterLine(cd, a, true, fmt) == ParameterLine(cd, b, true, fmt)
  {
    assert LineEnd(cd, a, true) == LineEnd(cd, b, true);
  }

  /** Unfolds the lines of a list whose last element is `x`. */
  lemma LinesSnoc(front: seq<ColumnData>, x: ColumnData, closing: bool, variable: bool, fmt: Formatter)
    ensures ParameterLines(front + [x], closing, variable, fmt) ==
            ParameterLines(front, false, variable, fmt) + ParameterLine(x, closing, variable, fmt)
  {
    var ps := front + [x];
    assert ps[..|ps| - 1] == front && ps[|ps| - 1] == x;
  }

  /** Keeping only the named attributes of a list extended by one more. */
  lemma NamedOnlySnoc(front: seq<ColumnData>, x: ColumnData)
    ensures NamedOnly(front + [x]) == NamedOnly(front) + (if IsNull(x.columnName) then [] else [x])
  {
    var ps := front + [x];
    assert ps[..|ps| - 1] == front && ps[|ps| - 1] == x;
  }

  /** Declared variables: unnamed entries are skipped without a trace. */
  lemma {:induction false} VariablesSkipUnnamed(ps: seq<ColumnData>, closing: bool, closing': bool, fmt: Formatter)
    ensures ParameterLines(ps, closing, true, fmt) == ParameterLines(NamedOnly(ps), closing', true, fmt)
    decreases |ps|
  {
    if ps != [] {
      var front := ps[..|ps| - 1];
      var x := ps[|ps| - 1];
      assert ps == front + [x];
      LinesSnoc(front, x, closing, true, fmt);
      NamedOnlySnoc(front, x);
      var nf := NamedOnly(front);
      if IsNull(x.columnName) {
        VariablesSkipUnnamed(front, false, closing', fmt);
        assert ParameterLine(x, closing, true, fmt) == "";
        assert NamedOnly(ps) == nf + [];
        assert nf + [] == nf;
      } else {
        VariablesSkipUnnamed(front, false, false, fmt);
        LinesSnoc(nf, x, closing', true, fmt);
        VariableLineAnywhere(x, closing, closing', fmt);
      }
    }
  }

  /** Header parameters that are not at the last index: unnamed entries are skipped. */
  lemma {:induction false} InnerParametersSkipUnnamed(ps: seq<ColumnData>, fmt: Formatter)
    ensures ParameterLines(ps, false, false, fmt) == ParameterLines(NamedOnly(ps), false, false, fmt)
    decreases |ps|
  {
    if ps != [] {
      var front := ps[..|ps| - 1];
      var x := ps[|ps| - 1];
      assert ps == front + [x];
      LinesSnoc(front, x, false, false, fmt);
      NamedOnlySnoc(front, x);
      var nf := NamedOnly(front);
      InnerParametersSkipUnnamed(front, fmt);
      if IsNull(x.columnName) {
        assert ParameterLine(x, false, false, fmt) == "";
        assert NamedOnly(ps) == nf + [];
        assert nf + [] == nf;
      } else {
        LinesSnoc(nf, x, false, false, fmt);
      }
    }
  }

  /** When the last header parameter has a name, the unnamed ones leave no trace. */
  lemma ParametersSkipUnnamed(front: seq<ColumnData>, x: ColumnData, fmt: Formatter)
    requires !IsNull(x.columnName)
    ensures ParametersText(front + [x], false, fmt) == ParametersText(NamedOnly(front + [x]), false, fmt)
  {
    var nf := NamedOnly(front);
    NamedOnlySnoc(front, x);
    LinesSnoc(front, x, true, false, fmt);
    LinesSnoc(nf, x, true, false, fmt);
    InnerParametersSkipUnnamed(front, fmt);
  }

  /**
   * Every named header parameter but the one at the last index is followed by
   * a comma, so an unnamed last parameter leaves the comma of the one before
   * it dangling (line 376 tests the raw index, not the last named one).
   */
  lemma DanglingComma(front: seq<ColumnData>, x: ColumnData, y: ColumnData, fmt: Formatter)
    requires !IsNull(x.columnName) && IsNull(y.columnName)
    ensures EndsWith(ParametersText(front + [x] + [y], false, fmt), ",\n")
  {
    LinesSnoc(front + [x], y, true, false, fmt);
    LinesSnoc(front, x, false, false, fmt);
    var head := "" + ParameterBody(x, false, fmt);
    var end := LineEnd(x, false, false);
    assert end == ",\n";
    AppendEnds(head, end);
    EndsWithExtended(ParameterLines(front, false, false, fmt), head + end, end);
    assert ParameterLines(front + [x], false, false, fmt) + "" == ParameterLines(front + [x], false, false, fmt);
  }

  /** The last header parameter, when named, closes the text without a comma. */
  lemma LastParameterHasNoComma(front: seq<ColumnData>, x: ColumnData, fmt: Formatter)
    requires !IsNull(x.columnName)
    ensures EndsWith(ParametersText(front + [x], false, fmt), ParameterBody(x, false, fmt) + "\n")
  {
    LinesSnoc(front, x, true, false, fmt);
    LastParameterLine(x, fmt);
    AppendEnds(ParameterLines(front, false, false, fmt), ParameterLine(x, true, false, fmt));
  }

  /** The line of a named parameter at the list's last index ends the line without a comma. */
  lemma LastParameterLine(x: ColumnData, fmt: Formatter)
    requires !IsNull(x.columnName)
    ensures ParameterLine(x, true, false, fmt) == ParameterBody(x, false, fmt) + "\n"
  {
    assert LineEnd(x, true, false) == "\n";
  }

  /** A named variable is declared on a line of its own, with its description when it has one. */
  lemma VariableLineShape(cd: ColumnData, atLastIndex: bool, fmt: Formatter)
    requires !IsNull(cd.columnName)
    ensures var line := ParameterLine(cd, atLastIndex, true, fmt);
            StartsWith(line, "DECLARE ") && EndsWith(line, ";" + DescriptionComment(cd) + "\n")
    ensures cd.description.Some? && cd.description.value != "" && cd.descriptionAsSingleComment ==>
            DescriptionComment(cd) == " --" + cd.description.value
    ensures cd.description.Some? && cd.description.value != "" && !cd.descriptionAsSingleComment ==>
            DescriptionComment(cd) == " /*" + cd.description.value + "*/"
    ensures cd.description.None? || cd.description.value == "" ==> DescriptionComment(cd) == ""
  {
    var body := ParameterBody(cd, true, fmt);
    var end := LineEnd(cd, atLastIndex, true);
    AppendEnds("DECLARE ", body);
    StartsWithLeft("DECLARE " + body, end, "DECLARE ");
    AppendEnds("DECLARE " + body, end);
  }

  // ---------------------------------------------------------------------------
  // comments
  // ---------------------------------------------------------------------------

  /** Lines 264-270: `COMMENT ON <type> <name>`, the name quoted unless it already is. */
  function CommentHead(name: string, metaTag: string, nameAlreadyFormatted: bool, fmt: Formatter): string {
    "\nCOMMENT ON " + metaTag + " " + (if nameAlreadyFormatted then name else fmt.formatObject(name))
  }

  /** Lines 271-274: the comment text in quotes, or `NULL` unquoted. */
  function CommentLiteral(text: string): string {
    if text != "NULL" then "'" + text + "'" else "NULL"
  }

  /**
   * `generateComment` (lines 261-279): a `COMMENT ON` statement, or nothing
   * when there is no comment text. The text `NULL` clears the comment.
   */
  function Comment(name: string, metaTag: string, comment: JString, delimiter: string,
                   nameAlreadyFormatted: bool, fmt: Formatter): (r: string)
    ensures r == "" <==> comment.None? || comment.value == ""
  {
    if comment.Some? && comment.value != "" then
      CommentHead(name, metaTag, nameAlreadyFormatted, fmt) + (" IS " + CommentLiteral(comment.value) + delimiter + "\n")
    else ""
  }

  /** The value a comment statement assigns: the quoted text, or `NULL` for the text `NULL`. */
  lemma CommentValue(name: string, metaTag: string, comment: JString, delimiter: string,
                     nameAlreadyFormatted: bool, fmt: Formatter)
    requires comment.Some? && comment.value != ""
    ensures var shown := if nameAlreadyFormatted then name else fmt.formatObject(name);
            var value := if comment.value == "NULL" then "NULL" else "'" + comment.value + "'";
            EndsWith(Comment(name, metaTag, comment, delimiter, nameAlreadyFormatted, fmt), " IS " + value + delimiter + "\n") &&
            StartsWith(Comment(name, metaTag, comment, delimiter, nameAlreadyFormatted, fmt), "\nCOMMENT ON " + metaTag + " " + shown)
  {
    AppendEnds(CommentHead(name, metaTag, nameAlreadyFormatted, fmt), " IS " + CommentLiteral(comment.value) + delimiter + "\n");
  }

  /** The comment statement of one column of `relationName` (lines 255-256). */
  function ColumnComment(relationName: string, cd: ColumnData, metaTag: string, delimiter: string, fmt: Formatter): string {
    Comment(fmt.formatObject(relationName) + "." + cd.formattedColumnName, metaTag, cd.description, delimiter, true, fmt)
  }

  /** What `generateCommentForColumns` returns. */
  function ColumnComments(relationName: string, cols: seq<ColumnData>, metaTag: string, delimiter: string, fmt: Formatter): string {
    if cols == [] then ""
    else ColumnComments(relationName, cols[..|cols| - 1], metaTag, delimiter, fmt) +
         ColumnComment(relationName, cols[|cols| - 1], metaTag, delimiter, fmt)
  }

  /** `generateCommentForColumns` (lines 252-259). */
  method GenerateCommentForColumns(relationName: string, cols: seq<ColumnData>, metaTag: string, delimiter: string, fmt: Formatter)
    returns (r: string)
    ensures r == ColumnComments(relationName, cols, metaTag, delimiter, fmt)
  {
    r := "";
    for i := 0 to |cols|
      invariant r == ColumnComments(relationName, cols[..i], metaTag, delimiter, fmt)
    {
      assert cols[..i + 1][..i] == cols[..i];
      var cd := cols[i];
      var name := fmt.formatObject(relationName) + "." + cd.formattedColumnName;
      r := r + Comment(name, metaTag, cd.description, delimiter, true, fmt);
    }
    assert cols[..|cols|] == cols;
  }

  /** The column comments are empty exactly when no column has a description. */
  lemma {:induction false} NoDescriptionsNoComments(relationName: string, cols: seq<ColumnData>, metaTag: string, delimiter: string, fmt: Formatter)
    ensures ColumnComments(relationName, cols, metaTag, delimiter, fmt) == "" <==>
            forall j :: 0 <= j < |cols| ==> cols[j].description.None? || cols[j].description.value == ""
  {
    if cols != [] {
      var front := cols[..|cols| - 1];
      NoDescriptionsNoComments(relationName, front, metaTag, delimiter, fmt);
      assert forall j :: 0 <= j < |front| ==> front[j] == cols[j];
    }
  }

  /** Each column's comment statement appears in the column comments. */
  lemma {:induction false} ColumnCommentAppears(relationName: string, cols: seq<ColumnData>, metaTag: string, delimiter: string,
                                                fmt: Formatter, j: nat)
    requires j < |cols|
    ensures Contains(ColumnComments(relationName, cols, metaTag, delimiter, fmt), ColumnComment(relationName, cols[j], metaTag, delimiter, fmt))
  {
    var front := cols[..|cols| - 1];
    var last := ColumnComment(relationName, cols[|cols| - 1], metaTag, delimiter, fmt);
    var pre := ColumnComments(relationName, front, metaTag, delimiter, fmt);
    if j == |cols| - 1 {
      ContainsRight(pre, last);
    } else {
      ColumnCommentAppears(relationName, front, metaTag, delimiter, fmt, j);
      assert front[j] == cols[j];
      ContainsLeft(pre, last, ColumnComment(relationName, cols[j], metaTag, delimiter, fmt));
    }
  }
}
