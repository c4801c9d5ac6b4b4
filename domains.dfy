/**
 * Domains: `CREATE DOMAIN` from a descriptor, and the two `ALTER DOMAIN`
 * diffs, one comparing an old and a new descriptor field by field, the other
 * reading the editor's dirty flags (lines 537-665).
 */
module Domains {
  import opened Wrappers
  import opened JavaText
  import opened Syntax
  import opened Descriptors
  import opened AlterDiff

  // ---------------------------------------------------------------------------
  // CREATE DOMAIN
  // ---------------------------------------------------------------------------

  /** Lines 544-546: the default value, formatted, when it is not blank. */
  function DomainDefault(cd: ColumnData, fmt: Formatter): string {
    if !IsNull(cd.defaultValue.value) then fmt.formattedDefaultValue(cd.defaultValue, cd.sqlType) else ""
  }

  /** Lines 548-550: `CHECK (...)` when a check is given. */
  function DomainCheck(check: JString): string {
    if !IsNull(check) then " CHECK (" + check.value + ")" else ""
  }

  /**
   * Lines 551-552: `COLLATE` unless the collation is null or trims to `NONE`.
   * Unlike a column definition, an empty collation is written as an empty
   * `COLLATE` clause.
   */
  function DomainCollate(collate: JString): (r: string)
    ensures r == "" <==> collate.None? || Trim(collate.value) == NONE
    ensures collate == Some("") ==> r == " COLLATE "
  {
    if collate.Some? && Trim(collate.value) != NONE then " COLLATE " + collate.value else ""
  }

  /** Lines 554-557: the comment statement when a description is given. */
  function DomainComment(cd: ColumnData): string {
    if !IsNull(cd.description) then "\nCOMMENT ON DOMAIN " + cd.formattedColumnName + " IS '" + cd.description.value + "';"
    else ""
  }

  /** Lines 539-543: `CREATE DOMAIN <name> AS <type>`, the type taken from the domain or the column. */
  function DomainHead(cd: ColumnData, name: string, useDomainType: bool): string {
    "CREATE DOMAIN " + name + " AS " + (if useDomainType then cd.formattedDomainDataType else cd.formattedDataType) + "\n"
  }

  /** Lines 544-552: default, `NOT NULL`, check and collation. */
  function DomainOptions(cd: ColumnData, fmt: Formatter): string {
    DomainDefault(cd, fmt) + (if cd.required then NOT_NULL else "") + DomainCheck(cd.check) + DomainCollate(cd.collate)
  }

  /** `generateCreateDomain` (lines 537-559). */
  function GenerateCreateDomain(cd: ColumnData, name: string, useDomainType: bool, fmt: Formatter): string {
    DomainHead(cd, name, useDomainType) + DomainOptions(cd, fmt) + (SEMI_COLON + DomainComment(cd))
  }

  /**
   * A domain statement starts with its head and is terminated by `;`, followed
   * by the comment statement exactly when there is a description.
   */
  lemma CreateDomainFraming(cd: ColumnData, name: string, useDomainType: bool, fmt: Formatter)
    ensures StartsWith(GenerateCreateDomain(cd, name, useDomainType, fmt), DomainHead(cd, name, useDomainType))
    ensures !IsNull(cd.description) ==>
            EndsWith(GenerateCreateDomain(cd, name, useDomainType, fmt),
                     SEMI_COLON + ("\nCOMMENT ON DOMAIN " + cd.formattedColumnName + " IS '" + cd.description.value + "';"))
    ensures IsNull(cd.description) ==> EndsWith(GenerateCreateDomain(cd, name, useDomainType, fmt), SEMI_COLON)
  {
    var head := DomainHead(cd, name, useDomainType);
    var options := DomainOptions(cd, fmt);
    var tail := SEMI_COLON + DomainComment(cd);
    AppendEnds(head, options);
    StartsWithLeft(head + options, tail, head);
    AppendEnds(head + options, tail);
    assert IsNull(cd.description) ==> tail == SEMI_COLON;
  }

  // ---------------------------------------------------------------------------
  // ALTER DOMAIN by comparison
  // ---------------------------------------------------------------------------

  /** Line 563: the statement header. */
  function AlterHeader(thisDomain: ColumnData): string {
    "ALTER DOMAIN " + thisDomain.formattedColumnName + "\n"
  }

  /** Lines 566-567: `TO <new name>` when the names differ. */
  function RenameClause(thisDomain: ColumnData, domain: ColumnData): string
    requires thisDomain.columnName.Some? && domain.columnName.Some?
  {
    if thisDomain.columnName.value != domain.columnName.value then "TO " + domain.formattedColumnName + "\n" else ""
  }

  /** Lines 575-578: the new default text, `NULL` for a value reading `null` in any case. */
  function DefaultLiteral(domain: ColumnData, fmt: Formatter): string
    requires domain.defaultValue.value.Some?
  {
    if Trim(UpperAscii(domain.defaultValue.value.value)) == "NULL" then "NULL"
    else fmt.formattedSQLValue(domain.defaultValue, domain.sqlType)
  }

  /**
   * Lines 569-583: a change of default. The two defaults are compared as
   * objects (`!=` on references), so a different object holding the same
   * value still counts as a change.
   */
  function DefaultChange(thisDomain: ColumnData, domain: ColumnData, fmt: Formatter): string {
    if thisDomain.defaultValue != domain.defaultValue then
      if IsNull(domain.defaultValue.value) then "DROP DEFAULT\n"
      else "SET DEFAULT " + DefaultLiteral(domain, fmt) + "\n"
    else ""
  }

  /**
   * Lines 586-594: `SET` or `DROP NOT NULL`, written when the old domain's
   * `isDomainNotNull` differs from the new one's `isRequired`.
   */
  function NotNullChange(thisDomain: ColumnData, domain: ColumnData): string {
    if thisDomain.domainNotNull != domain.required then (if domain.required then "SET " else "DROP ") + "NOT NULL\n" else ""
  }

  /** Lines 595-600: a changed check is dropped, and re-added when the new one is not blank. */
  function CheckChange(oldCheck: JString, newCheck: JString): string {
    if oldCheck != newCheck then "DROP CONSTRAINT\n" + (if !IsNull(newCheck) then "ADD CHECK (" + newCheck.value + ")\n" else "")
    else ""
  }

  /** Lines 603-604: `TYPE <new type name>` when the type names differ. */
  function TypeChange(thisDomain: ColumnData, domain: ColumnData): string {
    if thisDomain.domainTypeName != domain.domainTypeName then "TYPE " + Show(domain.domainTypeName) else ""
  }

  /** Lines 566-604, in order. */
  function ChangeClauses(thisDomain: ColumnData, domain: ColumnData, fmt: Formatter): string
    requires thisDomain.columnName.Some? && domain.columnName.Some?
  {
    RenameClause(thisDomain, domain) + DefaultChange(thisDomain, domain, fmt) + NotNullChange(thisDomain, domain) +
    CheckChange(thisDomain.check, domain.check) + TypeChange(thisDomain, domain)
  }

  /** Lines 611-617: the comment statement when the descriptions differ; an empty or null one clears it. */
  function DescriptionChange(thisDomain: ColumnData, domain: ColumnData): string {
    if thisDomain.description != domain.description then
      "COMMENT ON DOMAIN " + thisDomain.formattedColumnName + " IS " +
      (if domain.description.Some? && domain.description.value != "" then "'" + domain.description.value + "'" else "NULL")
    else ""
  }

  /**
   * `generateAlterDomain(ColumnData, ColumnData)` (lines 561-621). Both names
   * must be present: the source calls `contentEquals` on them.
   */
  function GenerateAlterDomain(thisDomain: ColumnData, domain: ColumnData, fmt: Formatter): (r: string)
    requires thisDomain.columnName.Some? && domain.columnName.Some?
    ensures r != ""
  {
    var header := AlterHeader(thisDomain);
    CloseDiff(header, header + ChangeClauses(thisDomain, domain, fmt), DescriptionChange(thisDomain, domain))
  }

  /** What the comparison looks at, as the source compares it. */
  predicate Unchanged(thisDomain: ColumnData, domain: ColumnData)
    requires thisDomain.columnName.Some? && domain.columnName.Some?
  {
    thisDomain.columnName.value == domain.columnName.value &&
    thisDomain.defaultValue == domain.defaultValue &&
    thisDomain.domainNotNull == domain.required &&
    thisDomain.check == domain.check &&
    thisDomain.domainTypeName == domain.domainTypeName
  }

  /** No change clause is written exactly when nothing compared differs. */
  lemma NoChangeClauses(thisDomain: ColumnData, domain: ColumnData, fmt: Formatter)
    requires thisDomain.columnName.Some? && domain.columnName.Some?
    ensures ChangeClauses(thisDomain, domain, fmt) == "" <==> Unchanged(thisDomain, domain)
  {
    if Unchanged(thisDomain, domain) {
      assert RenameClause(thisDomain, domain) == "" && DefaultChange(thisDomain, domain, fmt) == "";
      assert NotNullChange(thisDomain, domain) == "" && CheckChange(thisDomain.check, domain.check) == "";
    }
  }

  /**
   * The comparison diff is the no-changes sentinel exactly when nothing
   * compared differs and the description is the same.
   */
  lemma AlterDomainSentinel(thisDomain: ColumnData, domain: ColumnData, fmt: Formatter)
    requires thisDomain.columnName.Some? && domain.columnName.Some?
    ensures GenerateAlterDomain(thisDomain, domain, fmt) == NO_CHANGES <==>
            Unchanged(thisDomain, domain) && thisDomain.description == domain.description
  {
    var header := AlterHeader(thisDomain);
    var written := header + ChangeClauses(thisDomain, domain, fmt);
    var comment := DescriptionChange(thisDomain, domain);
    NoChangeClauses(thisDomain, domain, fmt);
    if !Unchanged(thisDomain, domain) {
      assert written != header;
      AppendEnds("ALTER DOMAIN ", thisDomain.formattedColumnName);
      StartsWithLeft("ALTER DOMAIN " + thisDomain.formattedColumnName, "\n", "ALTER ");
      StartsWithLeft(header, ChangeClauses(thisDomain, domain, fmt), "ALTER ");
      ClosedDiffIsNotSentinel(header, written, comment);
    } else if thisDomain.description != domain.description {
      assert written == header;
      assert comment[..8] == "COMMENT ";
      ClosedDiffIsNotSentinel(header, written, comment);
    } else {
      assert written == header && comment == "";
    }
  }

  /** A change of description alone gives only the comment statement, without the `ALTER` header. */
  lemma AlterDomainDescriptionOnly(thisDomain: ColumnData, domain: ColumnData, fmt: Formatter)
    requires thisDomain.columnName.Some? && domain.columnName.Some?
    requires Unchanged(thisDomain, domain) && thisDomain.description != domain.description
    ensures GenerateAlterDomain(thisDomain, domain, fmt) ==
            "COMMENT ON DOMAIN " + thisDomain.formattedColumnName + " IS " +
            (if domain.description.Some? && domain.description.value != "" then "'" + domain.description.value + "'" else "NULL")
  {
    NoChangeClauses(thisDomain, domain, fmt);
    assert AlterHeader(thisDomain) + ChangeClauses(thisDomain, domain, fmt) == AlterHeader(thisDomain);
  }

  /**
   * The default is compared by reference: a new default object holding the
   * very same non-blank value still yields a `SET DEFAULT` clause.
   */
  lemma DefaultComparedByReference(thisDomain: ColumnData, domain: ColumnData, fmt: Formatter)
    requires thisDomain.defaultValue != domain.defaultValue
    requires thisDomain.defaultValue.value == domain.defaultValue.value && !IsNull(domain.defaultValue.value)
    ensures DefaultChange(thisDomain, domain, fmt) == "SET DEFAULT " + DefaultLiteral(domain, fmt) + "\n"
  {
  }

  /**
   * The `NOT NULL` check compares `isDomainNotNull` with `isRequired`: a domain
   * compared with itself, when the two flags disagree, still yields a
   * `SET NOT NULL` or `DROP NOT NULL` statement.
   */
  lemma NotNullComparesDifferentFlags(d: ColumnData, fmt: Formatter)
    requires d.columnName.Some? && d.domainNotNull != d.required
    ensures GenerateAlterDomain(d, d, fmt) ==
            AlterHeader(d) + (if d.required then "SET " else "DROP ") + "NOT NULL\n" + ";\n"
  {
    var clause := (if d.required then "SET " else "DROP ") + "NOT NULL\n";
    SelfClauses(d, fmt);
    var header := AlterHeader(d);
    assert |header + clause| > |header|;
    assert GenerateAlterDomain(d, d, fmt) == CloseDiff(header, header + clause, "");
  }

  /** A domain compared with itself can differ only in its not-null flag, and never in its description. */
  lemma SelfClauses(d: ColumnData, fmt: Formatter)
    requires d.columnName.Some?
    ensures ChangeClauses(d, d, fmt) == NotNullChange(d, d)
    ensures DescriptionChange(d, d) == ""
  {
    assert RenameClause(d, d) == "" && DefaultChange(d, d, fmt) == "";
    assert CheckChange(d.check, d.check) == "" && TypeChange(d, d) == "";
  }

  // ---------------------------------------------------------------------------
  // ALTER DOMAIN by dirty flags
  // ---------------------------------------------------------------------------

  /** Lines 628-643: the clauses whose dirty flag is set, in order. */
  function FlaggedClauses(cd: ColumnData, fmt: Formatter): string {
    (if cd.nameChanged then "TO " + cd.formattedColumnName + "\n" else "") +
    (if cd.defaultChanged then
       (if !IsNull(cd.defaultValue.value) then "SET DEFAULT " + fmt.formattedSQLValue(cd.defaultValue, cd.sqlType) + "\n"
        else "DROP DEFAULT\n")
     else "") +
    (if cd.requiredChanged then (if cd.required then "SET" else "DROP") + " NOT NULL\n" else "") +
    (if cd.checkChanged then "DROP CONSTRAINT\n" + (if !IsNull(cd.check) then "ADD CHECK (" + cd.check.value + ")\n" else "")
     else "") +
    (if cd.typeChanged then "TYPE " + cd.formattedDataType else "")
  }

  /** Lines 655-661: the comment statement when the description is flagged; a null one clears it. */
  function FlaggedDescription(cd: ColumnData): string {
    if cd.descriptionChanged then
      "COMMENT ON DOMAIN " + cd.formattedColumnName + " IS " +
      (if cd.description.Some? then "'" + cd.description.value + "'" else "NULL")
    else ""
  }

  /** `generateAlterDomain(ColumnData, String)` (lines 623-665). */
  function GenerateAlterDomainByFlags(cd: ColumnData, domainName: string, fmt: Formatter): (r: string)
    ensures r != ""
  {
    var header := "ALTER DOMAIN " + fmt.formatObject(domainName) + "\n";
    CloseDiff(header, header + FlaggedClauses(cd, fmt), FlaggedDescription(cd))
  }

  /** No dirty flag among name, default, required, check and type. */
  predicate NoFlags(cd: ColumnData) {
    !cd.nameChanged && !cd.defaultChanged && !cd.requiredChanged && !cd.checkChanged && !cd.typeChanged
  }

  /** The flag diff is the no-changes sentinel exactly when no flag is set. */
  lemma AlterDomainByFlagsSentinel(cd: ColumnData, domainName: string, fmt: Formatter)
    ensures GenerateAlterDomainByFlags(cd, domainName, fmt) == NO_CHANGES <==> NoFlags(cd) && !cd.descriptionChanged
  {
    var header := "ALTER DOMAIN " + fmt.formatObject(domainName) + "\n";
    var written := header + FlaggedClauses(cd, fmt);
    var comment := FlaggedDescription(cd);
    if !NoFlags(cd) {
      assert FlaggedClauses(cd, fmt) != "";
      assert written != header;
      AppendEnds("ALTER DOMAIN ", fmt.formatObject(domainName));
      StartsWithLeft("ALTER DOMAIN " + fmt.formatObject(domainName), "\n", "ALTER ");
      StartsWithLeft(header, FlaggedClauses(cd, fmt), "ALTER ");
      ClosedDiffIsNotSentinel(header, written, comment);
    } else if cd.descriptionChanged {
      assert written == header;
      assert comment[..8] == "COMMENT ";
      ClosedDiffIsNotSentinel(header, written, comment);
    } else {
      assert written == header && comment == "";
    }
  }

  /** A flagged description alone gives only the comment statement. */
  lemma AlterDomainByFlagsDescriptionOnly(cd: ColumnData, domainName: string, fmt: Formatter)
    requires NoFlags(cd) && cd.descriptionChanged
    ensures GenerateAlterDomainByFlags(cd, domainName, fmt) ==
            "COMMENT ON DOMAIN " + cd.formattedColumnName + " IS " +
            (if cd.description.Some? then "'" + cd.description.value + "'" else "NULL")
  {
    var header := "ALTER DOMAIN " + fmt.formatObject(domainName) + "\n";
    assert FlaggedClauses(cd, fmt) == "";
    assert header + FlaggedClauses(cd, fmt) == header;
  }
}
