/**
 * Stored procedures and stored functions: the `CREATE OR ALTER` header with its
 * parameter list, the `RETURNS` clause, the PSQL body or the external entry
 * point, and the trailing `COMMENT ON` statements (lines 203-345).
 */
module Routines {
  import opened Wrappers
  import opened JavaText
  import opened Syntax
  import opened Descriptors
  import opened Columns

  // ---------------------------------------------------------------------------
  // header
  // ---------------------------------------------------------------------------

  /**
   * Line 288: the input list is written in parentheses when there is more than
   * one input, or exactly one input that has a name.
   */
  predicate WantsParentheses(inputs: seq<ColumnData>) {
    |inputs| > 0 && ((|inputs| == 1 && !IsNull(inputs[0].columnName)) || |inputs| > 1)
  }

  /** Lines 283-287: `CREATE OR ALTER <type> <name>`, then `AUTHID` when one is given. */
  function HeaderStart(name: string, metaTag: string, authid: JString, fmt: Formatter): string {
    "CREATE OR ALTER " + metaTag + " " + fmt.formatObject(name) +
    (if !IsNull(authid) then "\nAUTHID " + authid.value + "\n" else "")
  }

  /** Lines 288-292: the parenthesised input list, or nothing. */
  function ParameterList(inputs: seq<ColumnData>, fmt: Formatter): string {
    if WantsParentheses(inputs) then " (\n" + ParametersText(inputs, false, fmt) + ")" else ""
  }

  /** What `generateCreateProcedureOrFunctionHeader` returns. */
  function HeaderText(name: string, inputs: seq<ColumnData>, metaTag: string, authid: JString, fmt: Formatter): string {
    HeaderStart(name, metaTag, authid, fmt) + ParameterList(inputs, fmt)
  }

  /** `generateCreateProcedureOrFunctionHeader` (lines 281-295). */
  method GenerateCreateProcedureOrFunctionHeader(name: string, inputs: seq<ColumnData>, metaTag: string, authid: JString,
                                                 fmt: Formatter) returns (r: string)
    ensures r == HeaderText(name, inputs, metaTag, authid, fmt)
  {
    r := "CREATE OR ALTER " + metaTag + " " + fmt.formatObject(name);
    if !IsNull(authid) {
      r := r + ("\nAUTHID " + authid.value + "\n");
    } else {
      r := r + "";
    }
    if |inputs| > 0 && ((|inputs| == 1 && !IsNull(inputs[0].columnName)) || |inputs| > 1) {
      var list := FormattedParameters(inputs, false, fmt);
      r := r + (" (\n" + list + ")");
    } else {
      r := r + "";
    }
  }

  /**
   * The header carries a parameter list exactly when there are several inputs
   * or a single named one; the list is closed by a parenthesis.
   */
  lemma HeaderParentheses(name: string, inputs: seq<ColumnData>, metaTag: string, authid: JString, fmt: Formatter)
    ensures HeaderText(name, inputs, metaTag, authid, fmt) != HeaderStart(name, metaTag, authid, fmt) <==> WantsParentheses(inputs)
    ensures WantsParentheses(inputs) ==> EndsWith(HeaderText(name, inputs, metaTag, authid, fmt), ")")
    ensures StartsWith(HeaderText(name, inputs, metaTag, authid, fmt), "CREATE OR ALTER " + metaTag + " " + fmt.formatObject(name))
  {
    var start := HeaderStart(name, metaTag, authid, fmt);
    var list := ParameterList(inputs, fmt);
    var head := "CREATE OR ALTER " + metaTag + " " + fmt.formatObject(name);
    AppendEnds(head, if !IsNull(authid) then "\nAUTHID " + authid.value + "\n" else "");
    StartsWithLeft(start, list, head);
    if WantsParentheses(inputs) {
      assert |start + list| > |start|;
      AppendEnds(" (\n" + ParametersText(inputs, false, fmt), ")");
      EndsWithExtended(start, list, ")");
    } else {
      assert start + list == start;
    }
  }

  /** A single input without a name gives no parameter list at all. */
  lemma SingleUnnamedInputHasNoList(name: string, cd: ColumnData, metaTag: string, authid: JString, fmt: Formatter)
    requires IsNull(cd.columnName)
    ensures HeaderText(name, [cd], metaTag, authid, fmt) == HeaderStart(name, metaTag, authid, fmt)
  {
    assert !WantsParentheses([cd]);
    assert HeaderStart(name, metaTag, authid, fmt) + "" == HeaderStart(name, metaTag, authid, fmt);
  }

  /**
   * Two or more inputs none of which has a name still open a parameter list,
   * which is then empty: the header ends in ` (` and `)` with nothing between.
   */
  lemma UnnamedInputsGiveEmptyList(name: string, inputs: seq<ColumnData>, metaTag: string, authid: JString, fmt: Formatter)
    requires |inputs| > 1
    requires forall j :: 0 <= j < |inputs| ==> IsNull(inputs[j].columnName)
    ensures HeaderText(name, inputs, metaTag, authid, fmt) == HeaderStart(name, metaTag, authid, fmt) + " (\n)"
  {
    UnnamedOnlyIsEmpty(inputs, true, false, fmt);
    assert " (\n" + "" + ")" == " (\n)";
  }

  /** Every named input appears in the header. */
  lemma NamedInputInHeader(name: string, inputs: seq<ColumnData>, metaTag: string, authid: JString, fmt: Formatter, j: nat)
    requires j < |inputs| && !IsNull(inputs[j].columnName)
    ensures Contains(HeaderText(name, inputs, metaTag, authid, fmt), inputs[j].columnName.value)
  {
    var p := inputs[j].columnName.value;
    assert WantsParentheses(inputs);
    NamedLineAppears(inputs, true, false, fmt, j);
    ContainsWithin(" (\n", ParametersText(inputs, false, fmt), ")", p);
    ContainsPrefixed(HeaderStart(name, metaTag, authid, fmt), ParameterList(inputs, fmt), p);
  }

  // ---------------------------------------------------------------------------
  // the parts after the header
  // ---------------------------------------------------------------------------

  /** `generateSQLBody` (lines 297-301): the body between `AS` and the `^` terminator. */
  function GenerateSQLBody(body: string): (r: string)
    ensures StartsWith(r, "\nAS\n") && EndsWith(r, "^")
    ensures |r| == |body| + 5 && r[4..|r| - 1] == body
  {
    var r := "\nAS\n" + body + "^";
    assert r[..4] == "\nAS\n" && r[|r| - 1..] == "^" && r[4..|r| - 1] == body;
    r
  }

  /** Lines 226-231: `RETURNS (...)` when the output list is not blank once trimmed. */
  function ReturnsClause(output: string): string {
    if !IsNull(Some(Trim(output))) then "\nRETURNS (\n" + output + ")" else ""
  }

  /** Lines 232-233 and 328-329: `SQL SECURITY <value>` when one is given. */
  function SecurityClause(sqlSecurity: JString): string {
    if !IsNull(sqlSecurity) then "\n" + SQL_SECURITY + sqlSecurity.value else ""
  }

  /**
   * Lines 234-238 and 331-335: an external routine names its entry point and
   * engine; otherwise the PSQL body follows. A `null` engine or body is written
   * as `null`, as `StringBuilder.append` does.
   */
  function RoutineBody(entryPoint: JString, engine: JString, fullBody: JString): string {
    if !IsNull(entryPoint) then "\nEXTERNAL NAME '" + entryPoint.value + "'" + " ENGINE " + Show(engine)
    else GenerateSQLBody(Show(fullBody))
  }

  /** A `RETURNS` clause is written exactly when some output parameter has a name. */
  lemma ReturnsIffNamedOutput(outputs: seq<ColumnData>, fmt: Formatter)
    ensures ReturnsClause(ParametersText(outputs, false, fmt)) != "" <==>
            exists j :: 0 <= j < |outputs| && !IsNull(outputs[j].columnName)
  {
    var output := ParametersText(outputs, false, fmt);
    TrimBlank(output);
    if exists j :: 0 <= j < |outputs| && !IsNull(outputs[j].columnName) {
      var j :| 0 <= j < |outputs| && !IsNull(outputs[j].columnName);
      NamedLineAppears(outputs, true, false, fmt, j);
      ContainsNotBlank(output, outputs[j].columnName.value);
    } else {
      UnnamedOnlyIsEmpty(outputs, true, false, fmt);
    }
  }

  /**
   * An external routine ignores the body it is given; a PSQL routine writes
   * it, so two bodies that print differently give different texts.
   */
  lemma ExternalRoutineIgnoresBody(entryPoint: JString, engine: JString, body: JString, otherBody: JString)
    ensures !IsNull(entryPoint) ==> RoutineBody(entryPoint, engine, body) == RoutineBody(entryPoint, engine, otherBody)
    ensures IsNull(entryPoint) && Show(body) != Show(otherBody) ==>
            RoutineBody(entryPoint, engine, body) != RoutineBody(entryPoint, engine, otherBody)
  {
    if IsNull(entryPoint) && Show(body) != Show(otherBody) {
      var a := GenerateSQLBody(Show(body));
      var b := GenerateSQLBody(Show(otherBody));
      assert a[4..|a| - 1] != b[4..|b| - 1];
    }
  }

  /** Writes what `RoutineBody` describes. */
  method WriteRoutineBody(entryPoint: JString, engine: JString, fullBody: JString) returns (r: string)
    ensures r == RoutineBody(entryPoint, engine, fullBody)
  {
    if !IsNull(entryPoint) {
      r := "\nEXTERNAL NAME '" + entryPoint.value + "'" + " ENGINE " + Show(engine);
    } else {
      r := GenerateSQLBody(Show(fullBody));
    }
  }

  // ---------------------------------------------------------------------------
  // procedures
  // ---------------------------------------------------------------------------

  /** Header, output list and security clause of a procedure. */
  function ProcedureSignature(name: string, inputs: seq<ColumnData>, outputs: seq<ColumnData>, sqlSecurity: JString,
                              authid: JString, fmt: Formatter): string {
    HeaderText(name, inputs, PROCEDURE, authid, fmt) + ReturnsClause(ParametersText(outputs, false, fmt)) +
    SecurityClause(sqlSecurity)
  }

  /** Lines 241-246: the procedure's own comment, then one per input and one per output parameter. */
  function ProcedureComments(name: string, inputs: seq<ColumnData>, outputs: seq<ColumnData>, comment: JString,
                             fmt: Formatter): string {
    Comment(name, PROCEDURE, comment, "^", false, fmt) + ColumnComments(name, inputs, "PARAMETER", "^", fmt) +
    ColumnComments(name, outputs, "PARAMETER", "^", fmt)
  }

  /** What `generateCreateProcedure` returns for a complete body. */
  function ProcedureText(name: string, entryPoint: JString, engine: JString, inputs: seq<ColumnData>,
                         outputs: seq<ColumnData>, sqlSecurity: JString, authid: JString, fullBody: JString,
                         comment: JString, fmt: Formatter): string {
    ProcedureSignature(name, inputs, outputs, sqlSecurity, authid, fmt) + RoutineBody(entryPoint, engine, fullBody) +
    ("\n" + ProcedureComments(name, inputs, outputs, comment, fmt))
  }

  /** Writes what `ProcedureSignature` describes. */
  method WriteProcedureSignature(name: string, inputs: seq<ColumnData>, outputs: seq<ColumnData>, sqlSecurity: JString,
                                 authid: JString, fmt: Formatter) returns (r: string)
    ensures r == ProcedureSignature(name, inputs, outputs, sqlSecurity, authid, fmt)
  {
    var header := GenerateCreateProcedureOrFunctionHeader(name, inputs, PROCEDURE, authid, fmt);
    var output := FormattedParameters(outputs, false, fmt);
    var returning := "";
    if !IsNull(Some(Trim(output))) {
      returning := "\nRETURNS (\n" + output + ")";
    }
    var security := "";
    if !IsNull(sqlSecurity) {
      security := "\n" + SQL_SECURITY + sqlSecurity.value;
    }
    r := header + returning + security;
  }

  /** Writes what `ProcedureComments` describes. */
  method WriteProcedureComments(name: string, inputs: seq<ColumnData>, outputs: seq<ColumnData>, comment: JString,
                                fmt: Formatter) returns (r: string)
    ensures r == ProcedureComments(name, inputs, outputs, comment, fmt)
  {
    var own := Comment(name, PROCEDURE, comment, "^", false, fmt);
    var ins := GenerateCommentForColumns(name, inputs, "PARAMETER", "^", fmt);
    var outs := GenerateCommentForColumns(name, outputs, "PARAMETER", "^", fmt);
    r := own + ins + outs;
  }

  /** `generateCreateProcedure` with a complete body (lines 224-250). */
  method GenerateCreateProcedure(name: string, entryPoint: JString, engine: JString, inputs: seq<ColumnData>,
                                 outputs: seq<ColumnData>, sqlSecurity: JString, authid: JString, fullBody: JString,
                                 comment: JString, fmt: Formatter) returns (r: string)
    ensures r == ProcedureText(name, entryPoint, engine, inputs, outputs, sqlSecurity, authid, fullBody, comment, fmt)
  {
    var signature := WriteProcedureSignature(name, inputs, outputs, sqlSecurity, authid, fmt);
    var body := WriteRoutineBody(entryPoint, engine, fullBody);
    var comments := WriteProcedureComments(name, inputs, outputs, comment, fmt);
    r := signature + body + ("\n" + comments);
  }

  /**
   * `generateCreateProcedure` with variables (lines 203-208): the variable
   * declarations are put in front of the body.
   */
  method GenerateCreateProcedureWithVariables(name: string, entryPoint: JString, engine: JString, inputs: seq<ColumnData>,
                                              outputs: seq<ColumnData>, variables: seq<ColumnData>, sqlSecurity: JString,
                                              authid: JString, procedureBody: JString, comment: JString, fmt: Formatter)
    returns (r: string)
    ensures r == ProcedureText(name, entryPoint, engine, inputs, outputs, sqlSecurity, authid,
                               Some(ParametersText(variables, true, fmt) + Show(procedureBody)), comment, fmt)
  {
    var declarations := FormattedParameters(variables, true, fmt);
    r := GenerateCreateProcedure(name, entryPoint, engine, inputs, outputs, sqlSecurity, authid,
                                 Some(declarations + Show(procedureBody)), comment, fmt);
  }

  /** A procedure's text starts with its header. */
  lemma ProcedureStartsWithHeader(name: string, entryPoint: JString, engine: JString, inputs: seq<ColumnData>,
                                  outputs: seq<ColumnData>, sqlSecurity: JString, authid: JString, fullBody: JString,
                                  comment: JString, fmt: Formatter)
    ensures StartsWith(ProcedureText(name, entryPoint, engine, inputs, outputs, sqlSecurity, authid, fullBody, comment, fmt),
                       HeaderText(name, inputs, PROCEDURE, authid, fmt))
  {
    var header := HeaderText(name, inputs, PROCEDURE, authid, fmt);
    var returning := ReturnsClause(ParametersText(outputs, false, fmt));
    var signature := ProcedureSignature(name, inputs, outputs, sqlSecurity, authid, fmt);
    AppendEnds(header, returning);
    StartsWithLeft(header + returning, SecurityClause(sqlSecurity), header);
    StartsWithLeft(signature, RoutineBody(entryPoint, engine, fullBody), header);
    StartsWithLeft(signature + RoutineBody(entryPoint, engine, fullBody),
                   "\n" + ProcedureComments(name, inputs, outputs, comment, fmt), header);
  }

  /** A PSQL procedure's text holds its body between `AS` and `^`. */
  lemma ProcedureHoldsBody(name: string, entryPoint: JString, engine: JString, inputs: seq<ColumnData>,
                           outputs: seq<ColumnData>, sqlSecurity: JString, authid: JString, fullBody: JString,
                           comment: JString, fmt: Formatter)
    requires IsNull(entryPoint)
    ensures Contains(ProcedureText(name, entryPoint, engine, inputs, outputs, sqlSecurity, authid, fullBody, comment, fmt),
                     "\nAS\n" + Show(fullBody) + "^")
  {
    ContainsSelf(GenerateSQLBody(Show(fullBody)));
    ContainsWithin(ProcedureSignature(name, inputs, outputs, sqlSecurity, authid, fmt), RoutineBody(entryPoint, engine, fullBody),
                   "\n" + ProcedureComments(name, inputs, outputs, comment, fmt), "\nAS\n" + Show(fullBody) + "^");
  }

  /** An external procedure names its entry point and engine, and its text does not depend on the body. */
  lemma ExternalProcedure(name: string, entryPoint: JString, engine: JString, inputs: seq<ColumnData>,
                          outputs: seq<ColumnData>, sqlSecurity: JString, authid: JString, fullBody: JString,
                          otherBody: JString, comment: JString, fmt: Formatter)
    requires !IsNull(entryPoint)
    ensures ProcedureText(name, entryPoint, engine, inputs, outputs, sqlSecurity, authid, fullBody, comment, fmt) ==
            ProcedureText(name, entryPoint, engine, inputs, outputs, sqlSecurity, authid, otherBody, comment, fmt)
    ensures Contains(ProcedureText(name, entryPoint, engine, inputs, outputs, sqlSecurity, authid, fullBody, comment, fmt),
                     "\nEXTERNAL NAME '" + entryPoint.value + "' ENGINE " + Show(engine))
  {
    ExternalRoutineIgnoresBody(entryPoint, engine, fullBody, otherBody);
    var body := RoutineBody(entryPoint, engine, fullBody);
    assert body == "\nEXTERNAL NAME '" + entryPoint.value + "' ENGINE " + Show(engine);
    ContainsSelf(body);
    ContainsWithin(ProcedureSignature(name, inputs, outputs, sqlSecurity, authid, fmt), body,
                   "\n" + ProcedureComments(name, inputs, outputs, comment, fmt), body);
  }

  // ---------------------------------------------------------------------------
  // functions
  // ---------------------------------------------------------------------------

  /** Lines 326-330: `RETURNS` with the return type when there is one, then `DETERMINISTIC` when asked for. */
  function FunctionReturns(returnType: Option<ColumnData>, deterministic: bool): string {
    "\nRETURNS " + (if returnType.Some? then returnType.value.formattedDataType else "") +
    (if deterministic then " DETERMINISTIC" else "")
  }

  /** Lines 325-333: the header (never with `AUTHID`), the return clause and the security clause. */
  function FunctionSignature(name: string, inputs: seq<ColumnData>, returnType: Option<ColumnData>, deterministic: bool,
                             sqlSecurity: JString, fmt: Formatter): string {
    HeaderText(name, inputs, FUNCTION, None, fmt) + FunctionReturns(returnType, deterministic) + SecurityClause(sqlSecurity)
  }

  /** Lines 337-339: the function's own comment, then one per argument. */
  function FunctionComments(name: string, inputs: seq<ColumnData>, comment: JString, fmt: Formatter): string {
    Comment(name, FUNCTION, comment, "^", false, fmt) + ColumnComments(name, inputs, "PARAMETER", "^", fmt)
  }

  /** What `generateCreateFunction` returns for a complete body. */
  function FunctionText(name: string, inputs: seq<ColumnData>, returnType: Option<ColumnData>, fullBody: JString,
                        entryPoint: JString, engine: JString, sqlSecurity: JString, comment: JString,
                        deterministic: bool, fmt: Formatter): string {
    FunctionSignature(name, inputs, returnType, deterministic, sqlSecurity, fmt) + RoutineBody(entryPoint, engine, fullBody) +
    ("\n" + FunctionComments(name, inputs, comment, fmt))
  }

  /** Writes what `FunctionSignature` describes. */
  method WriteFunctionSignature(name: string, inputs: seq<ColumnData>, returnType: Option<ColumnData>, deterministic: bool,
                                sqlSecurity: JString, fmt: Formatter) returns (r: string)
    ensures r == FunctionSignature(name, inputs, returnType, deterministic, sqlSecurity, fmt)
  {
    var header := GenerateCreateProcedureOrFunctionHeader(name, inputs, FUNCTION, None, fmt);
    var returning := "\nRETURNS " + (if returnType.Some? then returnType.value.formattedDataType else "");
    if deterministic {
      returning := returning + " DETERMINISTIC";
    } else {
      returning := returning + "";
    }
    var security := "";
    if !IsNull(sqlSecurity) {
      security := "\n" + SQL_SECURITY + sqlSecurity.value;
    }
    r := header + returning + security;
  }

  /** `generateCreateFunction` with a complete body (lines 323-345). */
  method GenerateCreateFunction(name: string, inputs: seq<ColumnData>, returnType: Option<ColumnData>, fullBody: JString,
                                entryPoint: JString, engine: JString, sqlSecurity: JString, comment: JString,
                                deterministic: bool, fmt: Formatter) returns (r: string)
    ensures r == FunctionText(name, inputs, returnType, fullBody, entryPoint, engine, sqlSecurity, comment, deterministic, fmt)
  {
    var signature := WriteFunctionSignature(name, inputs, returnType, deterministic, sqlSecurity, fmt);
    var body := WriteRoutineBody(entryPoint, engine, fullBody);
    var own := Comment(name, FUNCTION, comment, "^", false, fmt);
    var arguments := GenerateCommentForColumns(name, inputs, "PARAMETER", "^", fmt);
    r := signature + body + ("\n" + (own + arguments));
  }

  /**
   * `generateCreateFunction` with variables (lines 303-308): the variable
   * declarations are put in front of the body.
   */
  method GenerateCreateFunctionWithVariables(name: string, inputs: seq<ColumnData>, variables: seq<ColumnData>,
                                             returnType: Option<ColumnData>, functionBody: JString, entryPoint: JString,
                                             engine: JString, sqlSecurity: JString, comment: JString,
                                             deterministic: bool, fmt: Formatter) returns (r: string)
    ensures r == FunctionText(name, inputs, returnType, Some(ParametersText(variables, true, fmt) + Show(functionBody)),
                              entryPoint, engine, sqlSecurity, comment, deterministic, fmt)
  {
    var declarations := FormattedParameters(variables, true, fmt);
    r := GenerateCreateFunction(name, inputs, returnType, Some(declarations + Show(functionBody)), entryPoint, engine,
                                sqlSecurity, comment, deterministic, fmt);
  }

  /**
   * A function's text starts with its header, which never names an `AUTHID`:
   * the parameter list follows the name directly, and the return clause
   * follows the header.
   */
  lemma FunctionStartsWithSignature(name: string, inputs: seq<ColumnData>, returnType: Option<ColumnData>, fullBody: JString,
                                    entryPoint: JString, engine: JString, sqlSecurity: JString, comment: JString,
                                    deterministic: bool, fmt: Formatter)
    ensures StartsWith(FunctionText(name, inputs, returnType, fullBody, entryPoint, engine, sqlSecurity, comment, deterministic, fmt),
                       HeaderText(name, inputs, FUNCTION, None, fmt) + FunctionReturns(returnType, deterministic))
    ensures HeaderText(name, inputs, FUNCTION, None, fmt) ==
            "CREATE OR ALTER FUNCTION " + fmt.formatObject(name) + ParameterList(inputs, fmt)
  {
    var prefix := HeaderText(name, inputs, FUNCTION, None, fmt) + FunctionReturns(returnType, deterministic);
    var signature := FunctionSignature(name, inputs, returnType, deterministic, sqlSecurity, fmt);
    AppendEnds(prefix, SecurityClause(sqlSecurity));
    StartsWithLeft(signature, RoutineBody(entryPoint, engine, fullBody), prefix);
    StartsWithLeft(signature + RoutineBody(entryPoint, engine, fullBody),
                   "\n" + FunctionComments(name, inputs, comment, fmt), prefix);
  }

  /** An external function's text does not depend on the body; a PSQL function holds it. */
  lemma FunctionBody(name: string, inputs: seq<ColumnData>, returnType: Option<ColumnData>, fullBody: JString,
                     otherBody: JString, entryPoint: JString, engine: JString, sqlSecurity: JString, comment: JString,
                     deterministic: bool, fmt: Formatter)
    ensures !IsNull(entryPoint) ==>
            FunctionText(name, inputs, returnType, fullBody, entryPoint, engine, sqlSecurity, comment, deterministic, fmt) ==
            FunctionText(name, inputs, returnType, otherBody, entryPoint, engine, sqlSecurity, comment, deterministic, fmt)
    ensures IsNull(entryPoint) ==>
            Contains(FunctionText(name, inputs, returnType, fullBody, entryPoint, engine, sqlSecurity, comment, deterministic, fmt),
                     "\nAS\n" + Show(fullBody) + "^")
  {
    ExternalRoutineIgnoresBody(entryPoint, engine, fullBody, otherBody);
    var body := RoutineBody(entryPoint, engine, fullBody);
    if IsNull(entryPoint) {
      ContainsSelf(body);
      ContainsWithin(FunctionSignature(name, inputs, returnType, deterministic, sqlSecurity, fmt), body,
                     "\n" + FunctionComments(name, inputs, comment, fmt), body);
    }
  }
}
