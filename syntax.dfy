/**
 * Keyword and punctuation constants the builders append. They belong to
 * `CreateTableSQLSyntax`, `TableDefinitionPanel`, `NamedObject`,
 * `ColumnConstraint`, `ColumnData` and `DefaultDatabaseJob`, whose source is not
 * part of this model; the values below are the Firebird keywords those names
 * stand for. The properties proved elsewhere refer to the constants by name.
 */
module Syntax {

  // CreateTableSQLSyntax
  const CREATE_TABLE: string := "CREATE TABLE "
  const CREATE_GLOBAL_TEMPORARY_TABLE: string := "CREATE GLOBAL TEMPORARY TABLE "
  const NEW_LINE: string := "\n"
  const NEW_LINE_2: string := "\n\t"
  const SPACE: string := " "
  const B_OPEN: string := "("
  const B_CLOSE: string := ")"
  const COMMA: string := ","
  const SEMI_COLON: string := ";"
  const NOT_NULL: string := " NOT NULL"
  const NONE: string := "NONE"
  const CONSTRAINT: string := "CONSTRAINT "
  const KEY: string := " KEY "
  const REFERENCES: string := " REFERENCES "
  const SQL_SECURITY: string := "SQL SECURITY "

  /** `TableDefinitionPanel.SUBSTITUTE_NAME`: stands for the table name until the statement is complete. */
  const SUBSTITUTE_NAME: string := "<TABLE_NAME>"

  /** `ColumnConstraint.UNIQUE` and `ColumnConstraint.RULES[RESTRICT]`. */
  const UNIQUE: string := "UNIQUE"
  const RESTRICT: string := "RESTRICT"

  /** Constraint type codes (`ColumnConstraint.getType()`); -1 is "no type". */
  const NO_TYPE: int := -1
  const PRIMARY_KEY: int := 0
  const FOREIGN_KEY: int := 1
  const UNIQUE_KEY: int := 2
  const CHECK_KEY: int := 3

  /** Constraint type names (`ColumnConstraint.getTypeName()`), the keys of the name generator's switch. */
  const PRIMARY_NAME: string := "PRIMARY"
  const FOREIGN_NAME: string := "FOREIGN"
  const CHECK_NAME: string := "CHECK"
  const UNIQUE_NAME: string := "UNIQUE"

  /** `NamedObject.META_TYPES[PROCEDURE]` and `META_TYPES[FUNCTION]`. */
  const PROCEDURE: string := "PROCEDURE"
  const FUNCTION: string := "FUNCTION"

  /** `ColumnData.OUTPUT_PARAMETER`. */
  const OUTPUT_PARAMETER: int := 1

  /** `DefaultDatabaseJob.BASH_TYPE`. */
  const BASH_TYPE: int := 1

  /** The text an alter builder returns when nothing differs. */
  const NO_CHANGES: string := "/* there are no changes */"
}
