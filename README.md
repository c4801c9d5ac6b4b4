# SQLUtils: a verified model of the Firebird statement builders

This project models `SQLUtils`. That class turns in-memory descriptions of database objects into Firebird DDL and DML text. The objects are tables, columns, constraints, parameters, procedures, functions, domains, users, sequences, views, triggers, collations, tablespaces and jobs.

The project covers four areas:

- **Constraint naming and deduplication.**
  - `removeDuplicatesConstraints` walks the constraint objects of a table. It names the unnamed ones, and folds every later constraint of an already-seen name into the first one. The folding grows the first one's column lists and its column count.
  - `generateNameForConstraint` and `generateNameForDBObject` produce `<stem><max+1>` names.
- **Statement synthesis.** The table, column, constraint, parameter, procedure, function, comment, domain, user, sequence, view, trigger, collation, tablespace, job and default DML builders. Each is a fixed-order sequence of optional clauses.
- **Alter diffs.** Both `generateAlterDomain` overloads and `generateAlterUser` write only the clauses that changed. They return the sentinel `/* there are no changes */` when nothing was written, and append a `COMMENT ON` statement independently of that.
- **Quirks kept as written.**
  - The domain diff compares default values by reference.
  - It compares `isDomainNotNull` with `isRequired`.
  - In plain mode, `formattedParameters` decides the trailing comma by the raw index.
  - The name scan uses `contains` and `replace` over every name.

## Layout

Modules follow the structure of the class:

- **`JavaText`**: the Java string operations the builders rely on, such as `trim`, `contains`, `replace`, `split`, `String.join`, `Integer.parseInt`, `"" + n`, and `int`/`long` wrap-around.
- **`Syntax`**: the keyword constants.
- **`Descriptors`**: `ColumnData`, `DefaultValue`, `User`, and the formatting routines, which are passed in as a `Formatter`.
- **`Naming`**: generated names.
- **`Constraints`**: the `ColumnConstraint` objects and the in-place deduplication.
- **`DedupWalk`** and **`DedupFacts`**: the deduplication stated on values, and its proved properties.
- **`ConstraintText`**, **`Columns`**, **`Table`**, **`Routines`**, **`Domains`**, **`AlterDiff`**, **`Users`** and **`Statements`**: the builders.

The code that accumulates text in loops is modelled as methods with loops. Each such method is proved against a specification function. That code is:

- the table column loop
- `formattedParameters`
- `generateCommentForColumns`
- the user tag loops
- the name scans
- the deduplication

The deduplication updates `ColumnConstraint` objects in place, so it is a method over a sequence of objects with `modifies`. Straight-line builders are functions.

### Behaviour worth knowing

- **Procedure and function headers (line 288).** The parameter list is opened for two or more inputs even when none has a name, which gives ` (\n)`. It is also opened for a single named input. See `Routines.UnnamedInputsGiveEmptyList`.
- **Plain parameter lists (line 376).** The comma test uses the raw index. An unnamed last entry leaves the comma of the entry before it. See `Columns.DanglingComma`.
- **`CREATE DOMAIN` (line 551).** The collation is compared only against null and for trimming to `NONE`. An empty collation gives an empty ` COLLATE ` clause. See `Domains.DomainCollate`.

## Model

| member | source | states |
|---|---|---|
| `Naming.StemShapes` | src/org/underworldlabs/util/SQLUtils.java:464-479 | Both stems, `NEW_<type>_` and `<KIND>_<TABLE_NAME>_`, end with `_` and are not blank. |
| `Naming.HighestSuffixIsMaximum` | src/org/underworldlabs/util/SQLUtils.java:445-458 | The scan's result bounds every number read from a name holding the stem, and is 0 or one of those numbers. |
| `Naming.SkipsNonNumeric` | src/org/underworldlabs/util/SQLUtils.java:450-455 | A name whose remainder is not a number leaves the maximum unchanged: a parse failure is skipped, not fatal. |
| `Naming.GeneratedSuffix` | src/org/underworldlabs/util/SQLUtils.java:448-452 | Removing the stem from a generated name and parsing the rest gives back the number it was made with. |
| `Naming.GeneratedNameIsFresh` | src/org/underworldlabs/util/SQLUtils.java:459-460 | The name `stem + (max + 1)` is not among the existing names. |
| `Naming.GenerateNameForDBObject` | src/org/underworldlabs/util/SQLUtils.java:440-461 | The loop over the sibling names returns `NEW_<type>_<max+1>`, and that name is not among them. |
| `Naming.ScanSuffix` | src/org/underworldlabs/util/SQLUtils.java:447-452 | One turn of the scan raises the running maximum to the maximum over one more name. |
| `Naming.NextTableName` | src/org/underworldlabs/util/SQLUtils.java:440-461 | After `NEW_TABLE_1`, `NEW_TABLE_3` and `foo`, the next name is `NEW_TABLE_4`. |
| `Naming.HighestSuffix32` | src/org/underworldlabs/util/SQLUtils.java:451-452 | With `Integer.parseInt`, the running maximum stays between 0 and the largest `int`. |
| `Naming.AsWrittenNameCollides` | src/org/underworldlabs/util/SQLUtils.java:459 | As written, `NEW_TABLE_2147483647` makes the increment wrap, and the name produced is one that already exists. |
| `Naming.AsWrittenAgreesInRange` | src/org/underworldlabs/util/SQLUtils.java:451-459 | When every number found lies below the largest `int`, the 32-bit scan and the unbounded scan produce the same name. |
| `Constraints.GenerateNameForConstraint` | src/org/underworldlabs/util/SQLUtils.java:463-498 | The loop returns the type's stem followed by one more than the largest number found in the names the list holds, and that name is new to the list. |
| `Constraints.RemoveDuplicatesConstraints` | src/org/underworldlabs/util/SQLUtils.java:500-535 | The objects end up holding the values of the deduplication walk. The returned list holds the objects at the kept positions, in order, and their values are the walk's output. |
| `Constraints.Visit` | src/org/underworldlabs/util/SQLUtils.java:503-533 | One pass of the loop advances the walk by one step. It keeps `cc_names` equal to the kept names and the output equal to the kept objects. |
| `Constraints.NameAt` | src/org/underworldlabs/util/SQLUtils.java:504-508 | Naming changes only the object at position `i`, which gets its generated name. |
| `Constraints.MergeAt` | src/org/underworldlabs/util/SQLUtils.java:510-527 | Folding changes only the first object of the name, which gets the merged column lists and count. |
| `Constraints.PickedOutput` | src/org/underworldlabs/util/SQLUtils.java:529-534 | The values of the objects collected at the kept positions are the walk's output. |
| `Constraints.AppendStep` | src/org/underworldlabs/util/SQLUtils.java:529-531 | A step whose name is new keeps its position and appends its name to `cc_names`. |
| `Constraints.FoldStep` | src/org/underworldlabs/util/SQLUtils.java:509-527 | A step whose name is already kept finds an earlier kept position and merges into it. The kept names stay as they were. |
| `DedupWalk.IndexOf` | src/org/underworldlabs/util/SQLUtils.java:509 | `indexOf` returns the first position holding the name, or -1 exactly when the name is absent. |
| `DedupWalk.Named` | src/org/underworldlabs/util/SQLUtils.java:504-508 | Naming a constraint keeps its column lists and its column count. |
| `DedupWalk.GeneratedNameIsNew` | src/org/underworldlabs/util/SQLUtils.java:506 | A generated constraint name differs from every name the list holds, and starts with its type's stem. |
| `DedupWalk.Step` | src/org/underworldlabs/util/SQLUtils.java:509-532 | A step keeps the list's length, and either keeps position `i` or keeps no new position. |
| `DedupWalk.StepAppends` | src/org/underworldlabs/util/SQLUtils.java:529-531 | A step whose name is not among the kept names keeps position `i` under that name. |
| `DedupWalk.StepFolds` | src/org/underworldlabs/util/SQLUtils.java:510-527 | A step whose name is kept folds position `i` into the kept position of that name. |
| `DedupWalk.StepKeepsInv` | src/org/underworldlabs/util/SQLUtils.java:503-533 | One step preserves the six facts of the walk's invariant. The facts are: untouched tail, distinct kept names, covered names, folded entries, settled names, and repeats left as they were. |
| `DedupWalk.StepKeepsGenerated` | src/org/underworldlabs/util/SQLUtils.java:504-508 | A blank-named constraint with a type name is kept, under its generated name. |
| `DedupWalk.Dedup` | src/org/underworldlabs/util/SQLUtils.java:503-533 | The kept positions of the whole walk lie within the list and increase. |
| `DedupWalk.Output` | src/org/underworldlabs/util/SQLUtils.java:534 | The returned list holds, in order, the constraint at each kept position. |
| `DedupFacts.RunKeepsInv` | src/org/underworldlabs/util/SQLUtils.java:503-533 | The invariant holds after every number of steps. |
| `DedupFacts.DedupNamesDistinct` | src/org/underworldlabs/util/SQLUtils.java:509-531 | No two returned constraints share a name. |
| `DedupFacts.DedupKeepsFirstOccurrences` | src/org/underworldlabs/util/SQLUtils.java:509-531 | A position is returned exactly when no earlier constraint has its name. Returned positions are in list order. |
| `DedupFacts.DedupCoversNames` | src/org/underworldlabs/util/SQLUtils.java:509-531 | Every name in the list is the name of some returned constraint. |
| `DedupFacts.DedupFolds` | src/org/underworldlabs/util/SQLUtils.java:510-527 | Each returned constraint is its first occurrence with every later constraint of that name folded in, in list order. |
| `DedupFacts.DedupLeavesRepeats` | src/org/underworldlabs/util/SQLUtils.java:510-527 | A constraint that is not returned is left exactly as it was. |
| `DedupFacts.DedupCountsColumns` | src/org/underworldlabs/util/SQLUtils.java:527 | A returned constraint's column count is its own plus one per later constraint of its name. |
| `DedupFacts.FoldMergeCount` | src/org/underworldlabs/util/SQLUtils.java:510-527 | Each fold adds exactly one to the count. It keeps the name, the generated flag, the type name and the kind. |
| `DedupFacts.FoldMergeColumns` | src/org/underworldlabs/util/SQLUtils.java:513-526 | Folding repeats into a one-column constraint makes its column text the formatted first column, then each repeat's formatted column, separated by `,`. The referenced columns follow the same rule. |
| `DedupFacts.DedupGeneratedNames` | src/org/underworldlabs/util/SQLUtils.java:504-508 | A blank-named constraint with a type name is returned, marked as generated, under a name with its type's stem. Every other constraint keeps its name and its mark. |
| `DedupFacts.NoRepeatsIdentity` | src/org/underworldlabs/util/SQLUtils.java:500-535 | A list whose names are all present and pairwise different comes back unchanged, in full. |
| `DedupFacts.MergesTwoColumns` | src/org/underworldlabs/util/SQLUtils.java:509-527 | Two one-column constraints of one name come back as one constraint with both formatted columns and a count of two. |
| `ConstraintText.FormatEach` | src/org/underworldlabs/util/SQLUtils.java:164 | `replaceAll(format)` keeps the length and formats every element in place. |
| `ConstraintText.DefinitionColumnConstraint` | src/org/underworldlabs/util/SQLUtils.java:139-202 | The clause is empty exactly when the constraint has no name. Otherwise it starts with `,\n\tCONSTRAINT <name> `. |
| `ConstraintText.RestrictUpdateIsSilent` | src/org/underworldlabs/util/SQLUtils.java:189-190 | An update action of `RESTRICT` gives the same text as no update action. |
| `ConstraintText.RestrictDeleteIsSilent` | src/org/underworldlabs/util/SQLUtils.java:191-192 | A delete action of `RESTRICT` gives the same text as no delete action. |
| `ConstraintText.ActionsAreWritten` | src/org/underworldlabs/util/SQLUtils.java:189-192 | A named foreign key writes `ON UPDATE` / `ON DELETE` with any action other than `RESTRICT`. |
| `ConstraintText.EditingKeepsDisplayList` | src/org/underworldlabs/util/SQLUtils.java:162-166 | With an identity formatter, editing mode's split, format and join gives back the display list, unless that list ends with the separator. |
| `ConstraintText.MergedColumnsFormattedOnce` | src/org/underworldlabs/util/SQLUtils.java:161 | A merged constraint's column list is written as the formatted first column and the formatted repeat columns. Every column is formatted exactly once. |
| `ConstraintText.ConstraintBalanced` | src/org/underworldlabs/util/SQLUtils.java:139-202 | The clause's parentheses are balanced when the text it quotes holds none and the check expression is itself balanced. |
| `Columns.DefinitionColumn` | src/org/underworldlabs/util/SQLUtils.java:102-137 | A column definition starts with the optional new line, the formatted name and a space. |
| `Columns.ComputedColumnIsOnlyExpression` | src/org/underworldlabs/util/SQLUtils.java:133-134 | A computed column is its name and `COMPUTED BY ( expr)`. No other attribute changes the text. |
| `Columns.CollateNoneIsSilent` | src/org/underworldlabs/util/SQLUtils.java:130-131 | A null, blank or `NONE` collation gives the same text as no collation. |
| `Columns.CollateIsWritten` | src/org/underworldlabs/util/SQLUtils.java:130-131 | Any other collation of a stored column ends its definition with ` COLLATE <name>`. |
| `Columns.StartWithOnlyWhenSet` | src/org/underworldlabs/util/SQLUtils.java:117-121 | ` (START WITH n)` appears exactly for identity columns with a non-zero start. `n` reads back as that start value. |
| `Columns.StartWithIsWritten` | src/org/underworldlabs/util/SQLUtils.java:117-121 | A stored identity column with a non-zero start declares its start value. |
| `Columns.OutputParameterHasNoDefault` | src/org/underworldlabs/util/SQLUtils.java:401-403 | An output parameter's default value never changes its declaration. |
| `Columns.TypeOfWritesDataType` | src/org/underworldlabs/util/SQLUtils.java:389-399 | A `TYPE OF` parameter is declared by its data type, whether or not it names a domain. |
| `Columns.ComputedParameterIsOnlyExpression` | src/org/underworldlabs/util/SQLUtils.java:407-409 | A computed parameter is its name and `COMPUTED BY ( expr)`, and nothing else. |
| `Columns.FormattedParameters` | src/org/underworldlabs/util/SQLUtils.java:347-383 | The loop writes exactly the parameter lines of the list. |
| `Columns.Advance` | src/org/underworldlabs/util/SQLUtils.java:349-381 | One pass of the loop writes the next entry's line, or nothing for an unnamed entry. |
| `Columns.NamedLine` | src/org/underworldlabs/util/SQLUtils.java:352-379 | A named entry's line is assembled piece by piece, with or without its comma. |
| `Columns.CursorOrParameter` | src/org/underworldlabs/util/SQLUtils.java:354-363 | The body is the cursor form or the plain definition. |
| `Columns.UnnamedOnlyIsEmpty` | src/org/underworldlabs/util/SQLUtils.java:351 | A list whose entries all lack a name gives no text. |
| `Columns.NamedLineAppears` | src/org/underworldlabs/util/SQLUtils.java:351-379 | Every named entry's name appears in the text of the list. |
| `Columns.VariableLineAnywhere` | src/org/underworldlabs/util/SQLUtils.java:364-376 | In variable mode, an entry's line does not depend on its position. |
| `Columns.VariablesSkipUnnamed` | src/org/underworldlabs/util/SQLUtils.java:351 | In variable mode, the text equals the text of the named entries alone. |
| `Columns.InnerParametersSkipUnnamed` | src/org/underworldlabs/util/SQLUtils.java:376 | In plain mode, unnamed entries before the last index leave no trace. |
| `Columns.ParametersSkipUnnamed` | src/org/underworldlabs/util/SQLUtils.java:376 | When the last entry has a name, the plain text equals the text of the named entries alone. |
| `Columns.DanglingComma` | src/org/underworldlabs/util/SQLUtils.java:376-378 | An unnamed last entry after a named one leaves the plain text ending in `,\n`. |
| `Columns.LastParameterHasNoComma` | src/org/underworldlabs/util/SQLUtils.java:376-379 | A named last entry closes the plain text without a comma. |
| `Columns.VariableLineShape` | src/org/underworldlabs/util/SQLUtils.java:364-375 | A variable line starts with `DECLARE ` and ends with `;`, the ` --desc` or ` /*desc*/` comment chosen by the flag, and a new line. |
| `Columns.Comment` | src/org/underworldlabs/util/SQLUtils.java:261-279 | The comment statement is empty exactly when the comment is null or empty. |
| `Columns.CommentValue` | src/org/underworldlabs/util/SQLUtils.java:263-277 | A comment statement starts `\nCOMMENT ON <tag> <name>` and assigns either the quoted text or `NULL` for the text `NULL`. |
| `Columns.GenerateCommentForColumns` | src/org/underworldlabs/util/SQLUtils.java:252-259 | The loop writes each column's comment statement, in order. |
| `Columns.NoDescriptionsNoComments` | src/org/underworldlabs/util/SQLUtils.java:252-259 | The column comments are empty exactly when no column has a non-empty description. |
| `Columns.ColumnCommentAppears` | src/org/underworldlabs/util/SQLUtils.java:254-257 | Each column's comment statement appears in the column comments. |
| `Routines.GenerateCreateProcedureOrFunctionHeader` | src/org/underworldlabs/util/SQLUtils.java:281-295 | The method writes the header that `HeaderText` describes. |
| `Routines.HeaderParentheses` | src/org/underworldlabs/util/SQLUtils.java:288-292 | A parameter list follows the name exactly when there are several inputs or one named input. The list closes with `)`, and the header starts `CREATE OR ALTER <tag> <name>`. |
| `Routines.SingleUnnamedInputHasNoList` | src/org/underworldlabs/util/SQLUtils.java:288 | A single unnamed input gives no parameter list. |
| `Routines.UnnamedInputsGiveEmptyList` | src/org/underworldlabs/util/SQLUtils.java:288-292 | Several inputs, none named, give the empty list ` (\n)`. |
| `Routines.NamedInputInHeader` | src/org/underworldlabs/util/SQLUtils.java:288-292 | Every named input appears in the header. |
| `Routines.GenerateSQLBody` | src/org/underworldlabs/util/SQLUtils.java:297-301 | The body sits between `\nAS\n` and `^`, unchanged. |
| `Routines.ReturnsIffNamedOutput` | src/org/underworldlabs/util/SQLUtils.java:227-232 | A `RETURNS` clause is written exactly when some output parameter has a name. |
| `Routines.ExternalRoutineIgnoresBody` | src/org/underworldlabs/util/SQLUtils.java:235-239 | An external routine ignores its body. A PSQL routine's text tells apart bodies that print differently. |
| `Routines.WriteRoutineBody` | src/org/underworldlabs/util/SQLUtils.java:235-239 | The method writes either the external clause or the SQL body. |
| `Routines.WriteProcedureSignature` | src/org/underworldlabs/util/SQLUtils.java:225-234 | The method writes the header, the `RETURNS` clause and the security clause. |
| `Routines.WriteProcedureComments` | src/org/underworldlabs/util/SQLUtils.java:242-247 | The method writes the procedure comment, then the input and output parameter comments. |
| `Routines.GenerateCreateProcedure` | src/org/underworldlabs/util/SQLUtils.java:224-250 | The method writes the procedure text that `ProcedureText` describes. |
| `Routines.GenerateCreateProcedureWithVariables` | src/org/underworldlabs/util/SQLUtils.java:204-209 | The variable declarations come in front of the body, then the full procedure is written. |
| `Routines.ProcedureStartsWithHeader` | src/org/underworldlabs/util/SQLUtils.java:226 | A procedure's text starts with its header. |
| `Routines.ProcedureHoldsBody` | src/org/underworldlabs/util/SQLUtils.java:239 | A PSQL procedure holds `\nAS\n<body>^`. |
| `Routines.ExternalProcedure` | src/org/underworldlabs/util/SQLUtils.java:235-238 | An external procedure names its entry point and engine, and does not depend on the body. |
| `Routines.WriteFunctionSignature` | src/org/underworldlabs/util/SQLUtils.java:325-333 | The method writes the header, `RETURNS`, `DETERMINISTIC` and the security clause. |
| `Routines.GenerateCreateFunction` | src/org/underworldlabs/util/SQLUtils.java:323-345 | The method writes the function text that `FunctionText` describes. |
| `Routines.GenerateCreateFunctionWithVariables` | src/org/underworldlabs/util/SQLUtils.java:303-308 | The variable declarations come in front of the body, then the full function is written. |
| `Routines.FunctionStartsWithSignature` | src/org/underworldlabs/util/SQLUtils.java:325-328 | A function starts with its header, which never carries `AUTHID`, followed by its return clause. |
| `Routines.FunctionBody` | src/org/underworldlabs/util/SQLUtils.java:335-339 | An external function does not depend on the body. A PSQL function holds it. |
| `Table.PrimarySegment` | src/org/underworldlabs/util/SQLUtils.java:75-76 | The primary-key constraint is written exactly when some column is a key column and the table is new. |
| `Table.GenerateCreateTable` | src/org/underworldlabs/util/SQLUtils.java:29-100 | The constraint objects are deduplicated in place. The text is the statement over the columns and the deduplicated constraints. |
| `Table.WriteTable` | src/org/underworldlabs/util/SQLUtils.java:34-99 | The method writes the whole statement from the columns and the kept constraints. |
| `Table.WriteColumns` | src/org/underworldlabs/util/SQLUtils.java:57-77 | The method writes the column definitions with the placeholder replaced, the primary key if any, and the autoincrement text. |
| `Table.WriteRest` | src/org/underworldlabs/util/SQLUtils.java:79-97 | The method writes the constraint clauses, the closing parenthesis, the options and the trailer. |
| `Table.WriteTrailer` | src/org/underworldlabs/util/SQLUtils.java:93-97 | The method writes the column comments, the autoincrement statements and the table comment. |
| `Table.ScanColumns` | src/org/underworldlabs/util/SQLUtils.java:57-71 | One pass over the columns collects the definitions, the key list, the key flag and the autoincrement text. |
| `Table.VisitColumn` | src/org/underworldlabs/util/SQLUtils.java:59-70 | One column extends each of the four texts by its own part. |
| `Table.WriteConstraintClauses` | src/org/underworldlabs/util/SQLUtils.java:79-81 | The loop writes each kept constraint's clause, in order. |
| `Table.AppendClause` | src/org/underworldlabs/util/SQLUtils.java:80-81 | One constraint's clause is appended with the placeholder replaced. |
| `Table.PrimaryColumnsInOrder` | src/org/underworldlabs/util/SQLUtils.java:62-66 | The key list names exactly the key columns, in column order, separated by `, `. It is empty exactly when no column is a key column. |
| `Table.PrimaryKeyWritten` | src/org/underworldlabs/util/SQLUtils.java:75-76 | A new table with key columns holds the `PK_<table>` constraint clause. |
| `Table.ExistingTableKeepsItsKey` | src/org/underworldlabs/util/SQLUtils.java:73-76 | An existing table's column part is the column definitions with the placeholder replaced, and no primary key. |
| `Table.TableStartsWithCreate` | src/org/underworldlabs/util/SQLUtils.java:37-40 | The statement opens with `CREATE [GLOBAL TEMPORARY] TABLE` and the formatted name. |
| `Table.PlaceholderReplaced` | src/org/underworldlabs/util/SQLUtils.java:80-81 | Every placeholder in a constraint clause is replaced by the formatted table name. The text before the first one is kept, and the rest of the clause is replaced in turn. |
| `Table.PlaceholderFreeClauseKept` | src/org/underworldlabs/util/SQLUtils.java:80-81 | A constraint clause without a placeholder is written unchanged. |
| `Domains.DomainCollate` | src/org/underworldlabs/util/SQLUtils.java:551-552 | The collation clause is empty exactly when the collation is null or trims to `NONE`. An empty collation gives ` COLLATE `. |
| `Domains.CreateDomainFraming` | src/org/underworldlabs/util/SQLUtils.java:537-559 | The statement starts with `CREATE DOMAIN <name> AS <type>\n` and ends with `;`. It is followed by the comment statement exactly when there is a description. |
| `Domains.GenerateAlterDomain` | src/org/underworldlabs/util/SQLUtils.java:561-621 | The comparison diff is never empty. |
| `Domains.NoChangeClauses` | src/org/underworldlabs/util/SQLUtils.java:564-605 | No change clause is written exactly when the compared fields agree. The comparison follows the source: default by reference, `isDomainNotNull` against `isRequired`. |
| `Domains.AlterDomainSentinel` | src/org/underworldlabs/util/SQLUtils.java:607-620 | The diff is the sentinel exactly when nothing compared differs and the description is the same. |
| `Domains.AlterDomainDescriptionOnly` | src/org/underworldlabs/util/SQLUtils.java:607-618 | A description change alone gives only `COMMENT ON DOMAIN … IS …`, with no `ALTER` header. |
| `Domains.DefaultComparedByReference` | src/org/underworldlabs/util/SQLUtils.java:570-583 | A different default object holding the same non-blank value still writes `SET DEFAULT`. |
| `Domains.NotNullComparesDifferentFlags` | src/org/underworldlabs/util/SQLUtils.java:586-595 | A domain compared with itself still writes `SET`/`DROP NOT NULL` when its two flags disagree. |
| `Domains.GenerateAlterDomainByFlags` | src/org/underworldlabs/util/SQLUtils.java:623-665 | The flag diff is never empty. |
| `Domains.AlterDomainByFlagsSentinel` | src/org/underworldlabs/util/SQLUtils.java:651-664 | The flag diff is the sentinel exactly when no flag is set. |
| `Domains.AlterDomainByFlagsDescriptionOnly` | src/org/underworldlabs/util/SQLUtils.java:651-662 | A flagged description alone gives only the comment statement. |
| `AlterDiff.CloseDiff` | src/org/underworldlabs/util/SQLUtils.java:607-620 | The closing step never gives "". It gives the sentinel when nothing was written and there is no comment. It gives the comment alone when only the comment changed. Otherwise it starts with the terminated `ALTER` statement. |
| `AlterDiff.ClosedDiffIsNotSentinel` | src/org/underworldlabs/util/SQLUtils.java:753-766 | A diff with a change clause, or a lone comment, is never the sentinel. |
| `Users.WriteTagList` | src/org/underworldlabs/util/SQLUtils.java:693-699 | The tag loop, with its `first` flag, writes the tags joined by `, `. |
| `Users.AppendTag` | src/org/underworldlabs/util/SQLUtils.java:695-698 | One turn of the tag loop extends the join by one tag. |
| `Users.GenerateCreateUser` | src/org/underworldlabs/util/SQLUtils.java:667-706 | The method writes the `CREATE USER` text that `CreateUserText` describes. |
| `Users.CreateUserListsTag` | src/org/underworldlabs/util/SQLUtils.java:691-701 | Every tag of a new user is written as `key = 'value'`. |
| `Users.LastIndexOf` | src/org/underworldlabs/util/SQLUtils.java:750 | `lastIndexOf` gives the last position holding the character, or -1. |
| `Users.DeleteCharAt` | src/org/underworldlabs/util/SQLUtils.java:750 | Deleting position `i` keeps the characters before `i` and moves the ones after it down by one. |
| `Users.TrailingCommaRemoved` | src/org/underworldlabs/util/SQLUtils.java:750 | The last comma is the one after the last entry. Deleting it leaves the entries joined by `, ` and one space. |
| `Users.TerminatedJoin` | src/org/underworldlabs/util/SQLUtils.java:743-748 | Writing each entry followed by `, ` is joining the entries with `, ` and adding one more `, `. |
| `Users.DifferentTagsHaveEntries` | src/org/underworldlabs/util/SQLUtils.java:740-748 | Two different tag maps always give at least one entry, so there is a comma to delete. |
| `Users.WriteDrops` | src/org/underworldlabs/util/SQLUtils.java:743-745 | The drop loop writes `DROP <key>, ` for every old key missing from the new map. |
| `Users.WriteDrop` | src/org/underworldlabs/util/SQLUtils.java:744-745 | One turn of the drop loop. |
| `Users.WriteSets` | src/org/underworldlabs/util/SQLUtils.java:747-748 | The second loop writes `key = 'value', ` for every new tag. |
| `Users.WriteSet` | src/org/underworldlabs/util/SQLUtils.java:748 | One turn of the second loop. |
| `Users.WriteTagsChange` | src/org/underworldlabs/util/SQLUtils.java:740-751 | The `TAGS` block is written and fixed up by `deleteCharAt`. |
| `Users.TagsFixUp` | src/org/underworldlabs/util/SQLUtils.java:750 | After both loops a comma exists, and the fix-up leaves exactly the `TAGS ( … )` clause. |
| `Users.GenerateAlterUser` | src/org/underworldlabs/util/SQLUtils.java:708-767 | The method writes the user diff that `AlterUserText` describes. |
| `Users.DropListed` | src/org/underworldlabs/util/SQLUtils.java:743-745 | Every old key missing from the new map has a `DROP` entry. |
| `Users.DroppedTagInClause` | src/org/underworldlabs/util/SQLUtils.java:740-751 | Every dropped key appears as `DROP <key>` inside the single `TAGS (…)` clause, whose entries are joined without a trailing comma. |
| `Users.NoUserChanges` | src/org/underworldlabs/util/SQLUtils.java:714-751 | No change clause is written exactly when nothing differs in a way the diff writes. |
| `Users.AlterUserSentinel` | src/org/underworldlabs/util/SQLUtils.java:753-766 | The user diff is the sentinel exactly when nothing differs and the comment is the same. |
| `Users.ChangedUserIsNotSentinel` | src/org/underworldlabs/util/SQLUtils.java:753-756 | A diff with a change clause keeps its `ALTER USER` statement. |
| `Users.ClearedPasswordIgnored` | src/org/underworldlabs/util/SQLUtils.java:723-725 | An empty new password is never written: the diff is as if the password were unchanged. |
| `Users.AlterUserCommentOnly` | src/org/underworldlabs/util/SQLUtils.java:753-764 | A comment change alone gives only `COMMENT ON USER … IS …`. |
| `Statements.GenerateCreateTablespace` | src/org/underworldlabs/util/SQLUtils.java:769-774 | The statement opens with `CREATE TABLESPACE <name>`, and the file name reads back from between ` FILE '` and `';\n`. |
| `Statements.TablespaceNamesItsFile` | src/org/underworldlabs/util/SQLUtils.java:771-772 | Two tablespaces of one name are written alike exactly when their file names print alike. |
| `Statements.TrimmedCommentWritten` | src/org/underworldlabs/util/SQLUtils.java:797-798 | The comment statement of a sequence or view is written exactly when the description is not blank. |
| `Statements.RestartValue` | src/org/underworldlabs/util/SQLUtils.java:793 | The printed restart value reads back as start plus increment when that fits a `long`. Past the largest `long` it wraps to the smallest. |
| `Statements.SequenceStatements` | src/org/underworldlabs/util/SQLUtils.java:781-795 | Which statements a sequence gets, by server version and existence. |
| `Statements.ViewHoldsQuery` | src/org/underworldlabs/util/SQLUtils.java:817 | A view holds `\nAS \n<trimmed query>;\n`. |
| `Statements.ViewIgnoresQueryBlanks` | src/org/underworldlabs/util/SQLUtils.java:817 | Blanks around the query do not change the view. |
| `Statements.ViewIgnoresFieldBlanks` | src/org/underworldlabs/util/SQLUtils.java:815-816 | Blanks around the column list do not change the view. |
| `Statements.DefaultStatementsIgnoreBlanks` | src/org/underworldlabs/util/SQLUtils.java:825-848 | Blanks around any argument do not change the default `UPDATE`, `INSERT` or `SELECT`. |
| `Statements.EscapeRoundTrip` | src/org/underworldlabs/util/SQLUtils.java:875 | Unescaping `''` undoes the quote escaping of a trigger comment. |
| `Statements.EscapedQuotesPaired` | src/org/underworldlabs/util/SQLUtils.java:875-876 | An escaped comment's quotes come in pairs, so it cannot end the literal early. |
| `Statements.TriggerCommentLiteral` | src/org/underworldlabs/util/SQLUtils.java:874-877 | A trigger ends with `COMMENT ON TRIGGER <name> IS '<escaped>'^`. |
| `Statements.ExternalTriggerIgnoresSource` | src/org/underworldlabs/util/SQLUtils.java:865-872 | An external trigger does not depend on its source code. |
| `Statements.CollationWithoutBase` | src/org/underworldlabs/util/SQLUtils.java:885-892 | Without a base collation, the external flag does not change the statement. |
| `Statements.CollationExternalBase` | src/org/underworldlabs/util/SQLUtils.java:885-892 | An external base collation follows `FOR <charset>`, quoted inside `EXTERNAL ('…')`, on a line of its own. |
| `Statements.CollationOwnBase` | src/org/underworldlabs/util/SQLUtils.java:885-892 | A base collation that is not external follows `FOR <charset>` as given, on a line of its own. |
| `Statements.CollationAttributesLast` | src/org/underworldlabs/util/SQLUtils.java:905-907 | The statement ends with a quoted attribute literal exactly when attributes are given, and that literal holds them. |
| `Statements.CollationDeterminesSettings` | src/org/underworldlabs/util/SQLUtils.java:893-904 | Two collations alike in everything else are written alike only when their pad, case and accent settings all agree. |
| `Statements.SettingsDistinct` | src/org/underworldlabs/util/SQLUtils.java:893-904 | Different pad, case or accent settings are written differently. |
| `Statements.JobEndsWithSource` | src/org/underworldlabs/util/SQLUtils.java:930-936 | A job ends with `COMMAND '<source>'^` for a shell job, or with `AS\n<source>^` otherwise. |
| `Statements.JobOpensWithName` | src/org/underworldlabs/util/SQLUtils.java:914 | A job opens with `CREATE JOB`, then the formatted name on a line of its own. |
| `Statements.DateLiteral` | src/org/underworldlabs/util/SQLUtils.java:920-928 | A date is written as `NULL` exactly when it is absent. Otherwise it is quoted, and reads back from between the quotes. |
| `Statements.DateLiteralPrefix` | src/org/underworldlabs/util/SQLUtils.java:920-929 | A date literal ends where the date ends, so the date and the text that follows it are both determined. |
| `Statements.JobDeterminesSchedule` | src/org/underworldlabs/util/SQLUtils.java:911-938 | Two jobs alike in name, schedule, type and source are written alike only when they agree on being active and on both dates, including absent dates. |
| `Statements.JobDatesDistinct` | src/org/underworldlabs/util/SQLUtils.java:920-929 | The dates part of a job determines both dates. |
| `JavaText.Show` | src/org/underworldlabs/util/SQLUtils.java:772 | Appending a reference writes its text, or `null` for a null reference. |
| `JavaText.Trim` | src/org/underworldlabs/util/SQLUtils.java:817 | `trim` gives the slice between a blank prefix and a blank suffix, and neither end of the result is blank. |
| `JavaText.TrimEmpty` | src/org/underworldlabs/util/SQLUtils.java:797 | A string trims to "" exactly when it is blank. |
| `JavaText.SplitJoin` | src/org/underworldlabs/util/SQLUtils.java:163-165 | Splitting at a separator and joining with it gives the string back, unless the string ends with the separator. |
| `JavaText.ReplaceLeading` | src/org/underworldlabs/util/SQLUtils.java:449 | Removing a leading stem whose last character does not occur later leaves the rest. |
| `JavaText.ParseIntToString` | src/org/underworldlabs/util/SQLUtils.java:459 | Reading back any printed integer gives that integer. |
| `JavaText.ParseInt32` | src/org/underworldlabs/util/SQLUtils.java:451 | `Integer.parseInt` succeeds exactly on numerals within the `int` range. |
| `JavaText.Wrap32` | src/org/underworldlabs/util/SQLUtils.java:459 | `int` arithmetic stays in range, and is exact there. |
| `JavaText.WrapPastMaximum` | src/org/underworldlabs/util/SQLUtils.java:459 | One past the largest `int` is the smallest. |
| `JavaText.Wrap64` | src/org/underworldlabs/util/SQLUtils.java:793 | `long` arithmetic stays in range, and is exact there. |
| `JavaText.UpperAscii` | src/org/underworldlabs/util/SQLUtils.java:578 | `toUpperCase` keeps the length, turns every lower-case ASCII letter into its upper-case form, and keeps every other character. No lower-case ASCII letter is left. |

## Left out

- `MiscUtils.getFormattedObject`, `formattedDefaultValue` and `formattedSQLValue` are not part of this model. They are arbitrary functions in a `Formatter`, so every property holds whatever they compute.
- The `ColumnData` formatting getters (`getFormattedDataType`, `getFormattedDomain`, `getFormattedColumnName`, the autoincrement SQL) are fields holding precomputed text. `ColumnData` itself is not part of this model.
- `MiscUtils.isNull` is not part of this model. It is taken to mean "null, or blank after `trim`".
- The constant values of `CreateTableSQLSyntax`, `TableDefinitionPanel`, `NamedObject`, `ColumnConstraint`, `ColumnData` and `DefaultDatabaseJob` are not part of this model. They are given their Firebird keywords, and the properties refer to them by name.
- `columnDataFromProcedureParameter` and the `DatabaseConnection` overloads (lines 211-222, 310-321, 413-438) are left out. They depend on connection type tables.
- The lookup of sibling names through the browser panel (line 444) is global GUI state. The names are a parameter. A null list is the empty sequence.
- `Log.debug` is left out. It has no effect on the result.
- `replaceAll` is modelled as literal substring replacement. The placeholder `<TABLE_NAME>` holds no regular-expression syntax, but Java's treatment of `$` and `\` in the replacement text is not modelled.
- A user's tags are a sequence of key/value pairs in the map's iteration order. `HashMap` order itself is not modelled. `containsKey` and map equality are taken on the map the pairs stand for.
- The `DateTimeFormatter` output in `generateCreateJob` is opaque: the formatted date is passed in as an optional string.
- `JavaText.UpperAscii` models `toUpperCase` on the ASCII letters only. Other lower-case letters, and letters whose upper-case form is longer, are kept as they are. The one use (line 578) compares the result with `NULL`.
- A null `Vector` or `List` argument, where the source would throw, is modelled as an empty sequence.
- `Constraints.RemoveDuplicatesConstraints` requires the list to hold distinct objects. A list holding the same object twice is aliasing that the model does not capture.
- `Table.GenerateCreateTable` requires distinct constraint objects, for the same reason.
- `Domains.GenerateAlterDomain` requires both domain names to be present. The source throws a `NullPointerException` otherwise, and that path is not modelled.
- `Users.GenerateCreateUser` requires a plugin to be present. The source throws a `NullPointerException` on a null plugin, and that path is not modelled.
- `Statements.GenerateCreateSequence` requires the start value and the increment to be `long` values, as the Java parameter types guarantee.

- `Naming.GenerateNameForDBObject` reads name suffixes without a size bound. `Integer.parseInt` rejects a suffix beyond the `int` range, and the source then skips that name, so `[NEW_TABLE_3000000000]` gives `NEW_TABLE_1` in the source but `NEW_TABLE_3000000001` here. The wider parse is part of the correction in "## Findings": with the 32-bit parse and an unbounded `+1`, the skipped `NEW_TABLE_2147483648` would still collide with the name produced after `NEW_TABLE_2147483647`. `Naming.NextNameAsWritten` keeps the source's parse.
- `Constraints.GenerateNameForConstraint` reads suffixes without a size bound, for the same reason as `Naming.GenerateNameForDBObject`. `DedupWalk.Named`, and through it `Table.GenerateCreateTable`, use this name.
- `JavaText.ParseDecimal` accepts ASCII digits only. `Integer.parseInt` also accepts other Unicode decimal digits, so a name whose suffix is written in such digits counts in the source but is skipped here.
- `Descriptors.Formatter.ObjectOrNull` assumes that `MiscUtils.getFormattedObject(null)` returns null, so a null referenced table or column is appended as `null`.
- `ConstraintText.KeyColumns`: in editing mode the source throws a `NullPointerException` on a null `columnDisplayList` (line 163). The model holds the display list as a string, so that path is not modelled.
- `Statements.JobDeterminesSchedule` requires the formatted dates to hold no quote. The `dd.MM.yyyy HH:mm` pattern never prints one.

## Findings

| source | as written | input that shows it | evidently intended | confidence | as-written member | corrected member |
|---|---|---|---|---|---|---|
| src/org/underworldlabs/util/SQLUtils.java:459 | `"" + (int_number + 1)` on a 32-bit `int`; the same code appears at line 496 | sibling names `NEW_TABLE_2147483647` and `NEW_TABLE_-2147483648`: the maximum is 2147483647, the increment wraps, and the result is `NEW_TABLE_-2147483648`, which already exists | a name that no sibling carries | not executed | `Naming.AsWrittenNameCollides` (over `Naming.NextNameAsWritten`) | `Naming.GeneratedNameIsFresh` (over `Naming.NextName`, used by `Naming.GenerateNameForDBObject` and `Constraints.GenerateNameForConstraint`). The correction also reads suffixes beyond the `int` range, so `[NEW_TABLE_3000000000]` gives `NEW_TABLE_3000000001` where the source gives `NEW_TABLE_1`; see "## Left out" |
