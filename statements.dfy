/**
 * The remaining builders: tablespaces, sequences, views, triggers, collations,
 * jobs and the default `INSERT`, `UPDATE` and `SELECT` statements
 * (lines 769-938).
 */
module Statements {
  import opened Wrappers
  import opened JavaText
  import opened Syntax
  import opened Descriptors
  import opened Columns

  // ---------------------------------------------------------------------------
  // tablespace
  // ---------------------------------------------------------------------------

  /**
   * `generateCreateTablespace` (lines 769-774): the file name is written in
   * quotes as given, and reads back from between ` FILE '` and `';`.
   */
  function GenerateCreateTablespace(name: string, file: JString, fmt: Formatter): (r: string)
    ensures var head := "CREATE TABLESPACE " + fmt.formatObject(name);
            |r| == |head| + |Show(file)| + 10 && r[..|head|] == head && r[|head| + 7..|r| - 3] == Show(file)
  {
    var head := "CREATE TABLESPACE " + fmt.formatObject(name);
    var r := head + " FILE '" + Show(file) + "';\n";
    assert r[|head| + 7..|r| - 3] == Show(file);
    r
  }

  /** Two tablespaces of one name are written alike exactly when their files print alike. */
  lemma TablespaceNamesItsFile(name: string, file: JString, other: JString, fmt: Formatter)
    ensures GenerateCreateTablespace(name, file, fmt) == GenerateCreateTablespace(name, other, fmt) <==>
            Show(file) == Show(other)
  {
    var head := "CREATE TABLESPACE " + fmt.formatObject(name);
    var r := GenerateCreateTablespace(name, file, fmt);
    var s := GenerateCreateTablespace(name, other, fmt);
    if r == s {
      assert Show(file) == r[|head| + 7..|r| - 3] == s[|head| + 7..|s| - 3] == Show(other);
    }
  }

  // ---------------------------------------------------------------------------
  // comments on trimmed descriptions
  // ---------------------------------------------------------------------------

  /**
   * Lines 797-798 and 818-819: the comment statement for a description that is
   * not blank, written with the description trimmed and `;` as terminator.
   */
  function TrimmedComment(name: string, metaTag: string, description: JString, fmt: Formatter): string {
    if description.Some? && Trim(description.value) != "" then
      Comment(name, metaTag, Some(Trim(description.value)), SEMI_COLON, false, fmt)
    else ""
  }

  /** The comment statement is written exactly when the description is not blank. */
  lemma TrimmedCommentWritten(name: string, metaTag: string, description: JString, fmt: Formatter)
    ensures TrimmedComment(name, metaTag, description, fmt) != "" <==> !IsNull(description)
  {
    if description.Some? {
      TrimEmpty(description.value);
    }
  }

  // ---------------------------------------------------------------------------
  // sequence
  // ---------------------------------------------------------------------------

  const LONG_MIN: int := -0x8000_0000_0000_0000
  const LONG_MAX: int := 0x7FFF_FFFF_FFFF_FFFF

  /** A value of Java's `long`. */
  predicate IsLong(x: int) {
    LONG_MIN <= x <= LONG_MAX
  }

  /** Lines 783-786: one `CREATE OR ALTER SEQUENCE` statement with start and increment (Firebird 3 and later). */
  function CreateOrAlterSequence(name: string, startValue: int, increment: int, fmt: Formatter): string {
    "CREATE OR ALTER SEQUENCE " + fmt.formatObject(name) + " START WITH " + IntToString(startValue) +
    " INCREMENT BY " + IntToString(increment) + ";\n"
  }

  /**
   * Lines 790-793: before Firebird 3, a `CREATE SEQUENCE` unless the sequence
   * exists, then `ALTER SEQUENCE ... RESTART WITH` the 64-bit sum of start
   * and increment.
   */
  function RestartSequence(name: string, startValue: int, increment: int, existed: bool, fmt: Formatter): string {
    (if !existed then "CREATE SEQUENCE " + fmt.formatObject(name) + ";\n" else "") +
    ("ALTER SEQUENCE " + fmt.formatObject(name) + " RESTART WITH " + IntToString(Wrap64(startValue + increment)) + ";\n")
  }

  /** `generateCreateSequence` (lines 776-801). */
  function GenerateCreateSequence(name: string, startValue: int, increment: int, description: JString,
                                  databaseVersion: int, existed: bool, fmt: Formatter): string
    requires IsLong(startValue) && IsLong(increment)
  {
    (if databaseVersion >= 3 then CreateOrAlterSequence(name, startValue, increment, fmt)
     else RestartSequence(name, startValue, increment, existed, fmt)) +
    TrimmedComment(name, "SEQUENCE", description, fmt)
  }

  /**
   * The restart value printed before Firebird 3 reads back as the sum of start
   * and increment when that sum fits a `long`, and as the wrapped-around sum
   * otherwise: one past the largest `long` restarts at the smallest.
   */
  lemma RestartValue(startValue: int, increment: int)
    requires IsLong(startValue) && IsLong(increment)
    ensures ParseDecimal(IntToString(Wrap64(startValue + increment))) == Some(Wrap64(startValue + increment))
    ensures IsLong(startValue + increment) ==> Wrap64(startValue + increment) == startValue + increment
    ensures startValue == LONG_MAX && increment == 1 ==> Wrap64(startValue + increment) == LONG_MIN
  {
    ParseIntToString(Wrap64(startValue + increment));
  }

  /** Which statements a sequence gets, by server version and existence. */
  lemma SequenceStatements(name: string, startValue: int, increment: int, description: JString,
                           databaseVersion: int, existed: bool, fmt: Formatter)
    requires IsLong(startValue) && IsLong(increment)
    ensures databaseVersion >= 3 ==>
            StartsWith(GenerateCreateSequence(name, startValue, increment, description, databaseVersion, existed, fmt),
                       "CREATE OR ALTER SEQUENCE " + fmt.formatObject(name) + " START WITH " + IntToString(startValue))
    ensures databaseVersion < 3 && existed ==>
            StartsWith(GenerateCreateSequence(name, startValue, increment, description, databaseVersion, existed, fmt),
                       "ALTER SEQUENCE " + fmt.formatObject(name) + " RESTART WITH ")
    ensures databaseVersion < 3 && !existed ==>
            StartsWith(GenerateCreateSequence(name, startValue, increment, description, databaseVersion, existed, fmt),
                       "CREATE SEQUENCE " + fmt.formatObject(name) + ";\n")
  {
    var f := fmt.formatObject(name);
    var comment := TrimmedComment(name, "SEQUENCE", description, fmt);
    if databaseVersion >= 3 {
      var p := "CREATE OR ALTER SEQUENCE " + f + " START WITH " + IntToString(startValue);
      var a := p + " INCREMENT BY " + IntToString(increment);
      AppendEnds(p, " INCREMENT BY ");
      StartsWithLeft(p + " INCREMENT BY ", IntToString(increment), p);
      StartsWithLeft(a, ";\n", p);
      StartsWithLeft(a + ";\n", comment, p);
    } else {
      var restart := "ALTER SEQUENCE " + f + " RESTART WITH " + IntToString(Wrap64(startValue + increment)) + ";\n";
      var create := if !existed then "CREATE SEQUENCE " + f + ";\n" else "";
      if existed {
        assert create + restart == restart;
        var p := "ALTER SEQUENCE " + f + " RESTART WITH ";
        AppendEnds(p, IntToString(Wrap64(startValue + increment)));
        StartsWithLeft(p + IntToString(Wrap64(startValue + increment)), ";\n", p);
        StartsWithLeft(restart, comment, p);
      } else {
        AppendEnds(create, restart);
        StartsWithLeft(create + restart, comment, create);
      }
    }
  }

  // ---------------------------------------------------------------------------
  // view
  // ---------------------------------------------------------------------------

  /** Lines 808-813: `CREATE OR ALTER VIEW` from Firebird 3, else `CREATE VIEW` or `ALTER VIEW`. */
  function ViewHead(name: string, databaseVersion: int, existed: bool, fmt: Formatter): string {
    if databaseVersion >= 3 then "CREATE OR ALTER VIEW " + fmt.formatObject(name)
    else if !existed then "CREATE VIEW " + fmt.formatObject(name)
    else "ALTER VIEW " + fmt.formatObject(name)
  }

  /** Lines 815-816: the trimmed column list in parentheses when it is not blank. */
  function ViewFields(fields: JString): string {
    if fields.Some? && Trim(fields.value) != "" then " (" + Trim(fields.value) + ") " else ""
  }

  /** Line 817: the trimmed query after `AS`. */
  function ViewQuery(selectStatement: string): string {
    "\nAS \n" + Trim(selectStatement) + ";\n"
  }

  /** `generateCreateView` (lines 803-823). The query must be present: the source trims it. */
  function GenerateCreateView(name: string, fields: JString, selectStatement: string, description: JString,
                              databaseVersion: int, existed: bool, fmt: Formatter): string {
    ViewHead(name, databaseVersion, existed, fmt) + ViewFields(fields) + ViewQuery(selectStatement) +
    TrimmedComment(name, "VIEW", description, fmt)
  }

  /** A view holds its trimmed query. */
  lemma ViewHoldsQuery(name: string, fields: JString, selectStatement: string, description: JString,
                       databaseVersion: int, existed: bool, fmt: Formatter)
    ensures Contains(GenerateCreateView(name, fields, selectStatement, description, databaseVersion, existed, fmt),
                     "\nAS \n" + Trim(selectStatement) + ";\n")
  {
    var q := ViewQuery(selectStatement);
    ContainsSelf(q);
    ContainsWithin(ViewHead(name, databaseVersion, existed, fmt) + ViewFields(fields), q,
                   TrimmedComment(name, "VIEW", description, fmt), q);
  }

  /** Blanks around the query of a view do not matter. */
  lemma ViewIgnoresQueryBlanks(name: string, fields: JString, selectStatement: string, description: JString,
                               databaseVersion: int, existed: bool, fmt: Formatter)
    ensures GenerateCreateView(name, fields, Trim(selectStatement), description, databaseVersion, existed, fmt) ==
            GenerateCreateView(name, fields, selectStatement, description, databaseVersion, existed, fmt)
  {
    TrimTwice(selectStatement);
    assert ViewQuery(Trim(selectStatement)) == ViewQuery(selectStatement);
  }

  /** Blanks around the column list of a view do not matter. */
  lemma ViewIgnoresFieldBlanks(name: string, fields: string, selectStatement: string, description: JString,
                               databaseVersion: int, existed: bool, fmt: Formatter)
    ensures GenerateCreateView(name, Some(Trim(fields)), selectStatement, description, databaseVersion, existed, fmt) ==
            GenerateCreateView(name, Some(fields), selectStatement, description, databaseVersion, existed, fmt)
  {
    TrimTwice(fields);
    assert ViewFields(Some(Trim(fields))) == ViewFields(Some(fields));
  }

  // ---------------------------------------------------------------------------
  // default DML statements
  // ---------------------------------------------------------------------------

  /** `generateDefaultUpdateStatement` (lines 825-830). */
  function GenerateDefaultUpdateStatement(name: string, settings: string, fmt: Formatter): string {
    "UPDATE " + fmt.formatObject(Trim(name)) + " SET " + Trim(settings) + ";\n"
  }

  /** `generateDefaultInsertStatement` (lines 832-838). */
  function GenerateDefaultInsertStatement(name: string, fields: string, values: string, fmt: Formatter): string {
    "INSERT INTO " + fmt.formatObject(Trim(name)) + " (" + Trim(fields) + ")" + " VALUES (" + Trim(values) + ");\n"
  }

  /** `generateDefaultSelectStatement` (lines 840-848). */
  function GenerateDefaultSelectStatement(name: string, fields: string, fmt: Formatter): string {
    "SELECT " + Trim(fields) + " FROM " + fmt.formatObject(Trim(name)) + ";\n"
  }

  /** Blanks around any argument of the default statements do not change them. */
  lemma DefaultStatementsIgnoreBlanks(name: string, fields: string, values: string, fmt: Formatter)
    ensures GenerateDefaultUpdateStatement(Trim(name), Trim(fields), fmt) == GenerateDefaultUpdateStatement(name, fields, fmt)
    ensures GenerateDefaultInsertStatement(Trim(name), Trim(fields), Trim(values), fmt) ==
            GenerateDefaultInsertStatement(name, fields, values, fmt)
    ensures GenerateDefaultSelectStatement(Trim(name), Trim(fields), fmt) == GenerateDefaultSelectStatement(name, fields, fmt)
  {
    TrimTwice(name);
    TrimTwice(fields);
    TrimTwice(values);
  }

  /** Trimming twice is trimming once. */
  lemma TrimTwice(s: string)
    ensures Trim(Trim(s)) == Trim(s)
  {
    var r := Trim(s);
    if r != [] {
      assert LeadingBlanks(r) == 0;
      assert TrailingBlanks(r) == 0;
      assert r[0..][..|r| - 0] == r;
    }
  }

  // ---------------------------------------------------------------------------
  // trigger
  // ---------------------------------------------------------------------------

  /** Line 873: every quote of a comment doubled, as SQL string literals need. */
  function EscapeQuotes(s: string): string {
    Replace(s, "'", "''")
  }

  /** Reading an escaped literal back: every doubled quote stands for one. */
  function UnescapeQuotes(s: string): string {
    Replace(s, "''", "'")
  }

  /** A literal's body in which every quote is one of a doubled pair. */
  predicate QuotesPaired(s: string)
    decreases |s|
  {
    s == [] ||
    (s[0] != '\'' && QuotesPaired(s[1..])) ||
    (|s| >= 2 && s[0] == '\'' && s[1] == '\'' && QuotesPaired(s[2..]))
  }

  /** Unescaping undoes escaping. */
  lemma {:induction false} EscapeRoundTrip(s: string)
    ensures UnescapeQuotes(EscapeQuotes(s)) == s
    decreases |s|
  {
    if s != [] {
      EscapeRoundTrip(s[1..]);
      var e := EscapeQuotes(s[1..]);
      if s[0] == '\'' {
        assert s[..1] == "'";
        assert EscapeQuotes(s) == "''" + e;
        assert ("''" + e)[..2] == "''" && ("''" + e)[2..] == e;
        assert UnescapeQuotes("''" + e) == "'" + UnescapeQuotes(e);
        assert s == "'" + s[1..];
      } else {
        assert s[..1] != "'";
        assert EscapeQuotes(s) == [s[0]] + e;
        var t := [s[0]] + e;
        if |t| >= 2 {
          assert t[0] == s[0] && "''"[0] == '\'';
          assert t[..2][0] == t[0];
          assert t[..2] != "''";
          assert t[1..] == e;
        } else {
          assert e == [] && s[1..] == [];
        }
      }
    }
  }

  /** An escaped comment never ends the literal early: its quotes come in pairs. */
  lemma {:induction false} EscapedQuotesPaired(s: string)
    ensures QuotesPaired(EscapeQuotes(s))
    decreases |s|
  {
    if s != [] {
      EscapedQuotesPaired(s[1..]);
      var e := EscapeQuotes(s[1..]);
      if s[0] == '\'' {
        assert s[..1] == "'";
        var t := "''" + e;
        assert EscapeQuotes(s) == t;
        assert t[2..] == e;
      } else {
        assert s[..1] != "'";
        var t := [s[0]] + e;
        assert EscapeQuotes(s) == t;
        assert t[1..] == e;
      }
    }
  }

  /** Lines 853-860: the trigger head with its table, state, type and position. */
  function TriggerHead(name: string, tableName: JString, active: bool, triggerType: JString, position: int,
                       fmt: Formatter): string {
    "CREATE OR ALTER TRIGGER " + fmt.formatObject(name) +
    (if !IsNull(tableName) then " FOR " + fmt.formatObject(tableName.value) else "") + "\n" +
    (if active then "ACTIVE" else "INACTIVE") + " " + Show(triggerType) + " POSITION " + IntToString(position) + "\n"
  }

  /** Lines 861-863: `SQL SECURITY` when given. */
  function TriggerSecurity(sqlSecurity: JString): string {
    if !IsNull(sqlSecurity) then "\n" + SQL_SECURITY + sqlSecurity.value + "\n" else ""
  }

  /** Lines 864-871: the entry point (with its engine when given), else the source code when given. */
  function TriggerBody(sourceCode: JString, engine: JString, entryPoint: JString): string {
    if !IsNull(entryPoint) then
      "EXTERNAL NAME '" + entryPoint.value + "'" + (if !IsNull(engine) then "\n" + "ENGINE " + engine.value else "")
    else if !IsNull(sourceCode) then sourceCode.value
    else ""
  }

  /** Lines 872-876: the comment statement, its text escaped, when the comment is not blank. */
  function TriggerComment(name: string, comment: JString, fmt: Formatter): string {
    if !IsNull(comment) then "COMMENT ON TRIGGER " + fmt.formatObject(name) + " IS '" + EscapeQuotes(comment.value) + "'^"
    else ""
  }

  /** `generateCreateTriggerStatement` (lines 850-879). */
  function GenerateCreateTriggerStatement(name: string, tableName: JString, active: bool, triggerType: JString,
                                          position: int, sourceCode: JString, engine: JString, entryPoint: JString,
                                          sqlSecurity: JString, comment: JString, fmt: Formatter): string {
    TriggerHead(name, tableName, active, triggerType, position, fmt) + TriggerSecurity(sqlSecurity) +
    TriggerBody(sourceCode, engine, entryPoint) + "^" + TriggerComment(name, comment, fmt)
  }

  /**
   * A trigger's comment is written as a well-formed literal from which the
   * comment reads back unchanged.
   */
  lemma TriggerCommentLiteral(name: string, tableName: JString, active: bool, triggerType: JString, position: int,
                              sourceCode: JString, engine: JString, entryPoint: JString, sqlSecurity: JString,
                              comment: JString, fmt: Formatter)
    requires !IsNull(comment)
    ensures EndsWith(GenerateCreateTriggerStatement(name, tableName, active, triggerType, position, sourceCode, engine,
                                                    entryPoint, sqlSecurity, comment, fmt),
                     "COMMENT ON TRIGGER " + fmt.formatObject(name) + " IS '" + EscapeQuotes(comment.value) + "'^")
    ensures QuotesPaired(EscapeQuotes(comment.value)) && UnescapeQuotes(EscapeQuotes(comment.value)) == comment.value
  {
    AppendEnds(TriggerHead(name, tableName, active, triggerType, position, fmt) + TriggerSecurity(sqlSecurity) +
               TriggerBody(sourceCode, engine, entryPoint) + "^", TriggerComment(name, comment, fmt));
    EscapedQuotesPaired(comment.value);
    EscapeRoundTrip(comment.value);
  }

  /** An external trigger ignores its source code. */
  lemma ExternalTriggerIgnoresSource(name: string, tableName: JString, active: bool, triggerType: JString,
                                     position: int, sourceCode: JString, otherSource: JString, engine: JString,
                                     entryPoint: JString, sqlSecurity: JString, comment: JString, fmt: Formatter)
    requires !IsNull(entryPoint)
    ensures GenerateCreateTriggerStatement(name, tableName, active, triggerType, position, sourceCode, engine, entryPoint,
                                           sqlSecurity, comment, fmt) ==
            GenerateCreateTriggerStatement(name, tableName, active, triggerType, position, otherSource, engine, entryPoint,
                                           sqlSecurity, comment, fmt)
  {
  }

  // ---------------------------------------------------------------------------
  // collation
  // ---------------------------------------------------------------------------

  /** Lines 885-892: `FROM` the base collation, wrapped in `EXTERNAL ('...')` for an external one. */
  function CollationBase(baseCollation: JString, isExternal: bool): string {
    if IsNull(baseCollation) then ""
    else if isExternal then "\nFROM EXTERNAL ('" + baseCollation.value + "')"
    else "\nFROM " + baseCollation.value
  }

  /** Lines 893-904: the pad, case and accent settings, one per line. */
  function CollationSettings(padSpace: bool, caseSensitive: bool, accentSensitive: bool): string {
    PadLine(padSpace) + CaseLine(caseSensitive) + AccentLine(accentSensitive)
  }

  function PadLine(padSpace: bool): string {
    "\n" + (if padSpace then "PAD SPACE" else "NO PAD")
  }

  function CaseLine(caseSensitive: bool): string {
    "\n" + (if caseSensitive then "CASE SENSITIVE" else "CASE INSENSITIVE")
  }

  function AccentLine(accentSensitive: bool): string {
    "\n" + (if accentSensitive then "ACCENT SENSITIVE" else "ACCENT INSENSITIVE")
  }

  /** `generateCreateCollation` (lines 881-909). */
  function GenerateCreateCollation(name: string, charset: JString, baseCollation: JString, attributes: JString,
                                   padSpace: bool, caseSensitive: bool, accentSensitive: bool, isExternal: bool): string {
    CollationHead(name, charset, baseCollation, isExternal) + CollationSettings(padSpace, caseSensitive, accentSensitive) +
    CollationTail(attributes)
  }

  /** What `generateCreateCollation` writes before the pad, case and accent settings. */
  function CollationHead(name: string, charset: JString, baseCollation: JString, isExternal: bool): string {
    "CREATE COLLATION " + name + "\nFOR " + Show(charset) + CollationBase(baseCollation, isExternal)
  }

  /** What `generateCreateCollation` writes after the settings. */
  function CollationTail(attributes: JString): string {
    if !IsNull(attributes) then "\n'" + attributes.value + "';" else ";"
  }

  /** Without a base collation the external flag changes nothing. */
  lemma CollationWithoutBase(name: string, charset: JString, baseCollation: JString, attributes: JString,
                             padSpace: bool, caseSensitive: bool, accentSensitive: bool)
    requires IsNull(baseCollation)
    ensures GenerateCreateCollation(name, charset, baseCollation, attributes, padSpace, caseSensitive, accentSensitive, true) ==
            GenerateCreateCollation(name, charset, baseCollation, attributes, padSpace, caseSensitive, accentSensitive, false)
  {
  }

  /** An external base collation follows `FOR <charset>`, quoted inside `EXTERNAL (...)`, on a line of its own. */
  lemma CollationExternalBase(name: string, charset: JString, baseCollation: JString, attributes: JString,
                              padSpace: bool, caseSensitive: bool, accentSensitive: bool)
    requires !IsNull(baseCollation)
    ensures StartsWith(GenerateCreateCollation(name, charset, baseCollation, attributes, padSpace, caseSensitive,
                                               accentSensitive, true),
                       "CREATE COLLATION " + name + "\nFOR " + Show(charset) +
                       ("\nFROM EXTERNAL ('" + baseCollation.value + "')") + "\n")
  {
    var settings := CollationSettings(padSpace, caseSensitive, accentSensitive);
    assert settings[0] == '\n';
    var ext := CollationHead(name, charset, baseCollation, true);
    FollowedByNewline(ext, settings, CollationTail(attributes));
  }

  /** A base collation that is not external follows `FOR <charset>` as given, on a line of its own. */
  lemma CollationOwnBase(name: string, charset: JString, baseCollation: JString, attributes: JString,
                         padSpace: bool, caseSensitive: bool, accentSensitive: bool)
    requires !IsNull(baseCollation)
    ensures StartsWith(GenerateCreateCollation(name, charset, baseCollation, attributes, padSpace, caseSensitive,
                                               accentSensitive, false),
                       "CREATE COLLATION " + name + "\nFOR " + Show(charset) + ("\nFROM " + baseCollation.value) + "\n")
  {
    var settings := CollationSettings(padSpace, caseSensitive, accentSensitive);
    assert settings[0] == '\n';
    var own := CollationHead(name, charset, baseCollation, false);
    FollowedByNewline(own, settings, CollationTail(attributes));
  }

  /** A text followed by one that opens with a new line starts with that text and the new line. */
  lemma FollowedByNewline(h: string, s: string, t: string)
    requires |s| > 0 && s[0] == '\n'
    ensures StartsWith(h + s + t, h + "\n")
  {
    assert (h + s + t)[..|h| + 1] == h + "\n";
  }

  /** The statement ends with a quoted attribute literal exactly when attributes are given. */
  lemma CollationAttributesLast(name: string, charset: JString, baseCollation: JString, attributes: JString,
                                padSpace: bool, caseSensitive: bool, accentSensitive: bool, isExternal: bool)
    ensures var r := GenerateCreateCollation(name, charset, baseCollation, attributes, padSpace, caseSensitive,
                                             accentSensitive, isExternal);
            EndsWith(r, "';") <==> !IsNull(attributes)
    ensures !IsNull(attributes) ==>
            EndsWith(GenerateCreateCollation(name, charset, baseCollation, attributes, padSpace, caseSensitive,
                                             accentSensitive, isExternal), "\n'" + attributes.value + "';")
  {
    var settings := CollationSettings(padSpace, caseSensitive, accentSensitive);
    var head := CollationHead(name, charset, baseCollation, isExternal) + settings;
    SettingsEndInE(padSpace, caseSensitive, accentSensitive);
    assert head[|head| - 1] == settings[|settings| - 1];
    TailAfterSettings(head, attributes);
  }

  /** After a text ending in `E`, the tail ends with `';` exactly when it carries attributes. */
  lemma TailAfterSettings(head: string, attributes: JString)
    requires |head| > 0 && head[|head| - 1] == 'E'
    ensures EndsWith(head + CollationTail(attributes), "';") <==> !IsNull(attributes)
    ensures !IsNull(attributes) ==> EndsWith(head + CollationTail(attributes), "\n'" + attributes.value + "';")
  {
    var lit := CollationTail(attributes);
    var r := head + lit;
    if !IsNull(attributes) {
      AppendEnds(head, lit);
      assert lit[|lit| - 2..] == "';";
      EndsWithExtended(head, lit, "';");
    } else {
      assert r[|r| - 2] == 'E';
    }
  }

  /** The accent line, and so the settings, end in the letter `E`. */
  lemma SettingsEndInE(padSpace: bool, caseSensitive: bool, accentSensitive: bool)
    ensures var s := CollationSettings(padSpace, caseSensitive, accentSensitive); |s| > 0 && s[|s| - 1] == 'E'
  {
    var a := AccentLine(accentSensitive);
    assert a[|a| - 1] == 'E';
  }

  /**
   * The statement determines its pad, case and accent settings: two
   * collations alike in everything else are written alike only when their
   * settings agree.
   */
  lemma CollationDeterminesSettings(name: string, charset: JString, baseCollation: JString, attributes: JString,
                                    isExternal: bool, pad: bool, cs: bool, acc: bool, pad': bool, cs': bool, acc': bool)
    requires GenerateCreateCollation(name, charset, baseCollation, attributes, pad, cs, acc, isExternal) ==
             GenerateCreateCollation(name, charset, baseCollation, attributes, pad', cs', acc', isExternal)
    ensures pad == pad' && cs == cs' && acc == acc'
  {
    var head := CollationHead(name, charset, baseCollation, isExternal);
    var tail := CollationTail(attributes);
    assert GenerateCreateCollation(name, charset, baseCollation, attributes, pad, cs, acc, isExternal) ==
           head + CollationSettings(pad, cs, acc) + tail;
    assert GenerateCreateCollation(name, charset, baseCollation, attributes, pad', cs', acc', isExternal) ==
           head + CollationSettings(pad', cs', acc') + tail;
    CancelAround(head, CollationSettings(pad, cs, acc), CollationSettings(pad', cs', acc'), tail);
    SettingsDistinct(pad, cs, acc, pad', cs', acc');
  }

  /** Different settings are written differently. */
  lemma SettingsDistinct(pad: bool, cs: bool, acc: bool, pad': bool, cs': bool, acc': bool)
    requires CollationSettings(pad, cs, acc) == CollationSettings(pad', cs', acc')
    ensures pad == pad' && cs == cs' && acc == acc'
  {
    var s, s' := CollationSettings(pad, cs, acc), CollationSettings(pad', cs', acc');
    assert s[1] == (if pad then 'P' else 'N');
    assert s'[1] == (if pad' then 'P' else 'N');
    var k := |PadLine(pad)|;
    assert s[k + 6] == (if cs then 'S' else 'I');
    assert s'[k + 6] == (if cs' then 'S' else 'I');
    var k2 := k + |CaseLine(cs)|;
    assert s[k2 + 8] == (if acc then 'S' else 'I');
    assert s'[k2 + 8] == (if acc' then 'S' else 'I');
  }

  // ---------------------------------------------------------------------------
  // job
  // ---------------------------------------------------------------------------

  /**
   * Lines 920-928: a date in quotes, or `NULL` for none. The formatted date is
   * taken as given; it reads back from between the quotes.
   */
  function DateLiteral(date: Option<string>): (r: string)
    ensures r == "NULL" <==> date.None?
    ensures date.Some? ==> |r| == |date.value| + 2 && r[0] == '\'' == r[|r| - 1] && r[1..|r| - 1] == date.value
  {
    if date.Some? then
      var r := "'" + date.value + "'";
      assert r[1..|r| - 1] == date.value;
      r
    else "NULL"
  }

  /**
   * What `DateTimeFormatter.ofPattern("dd.MM.yyyy HH:mm")` can print: digits,
   * `.`, ` `, `:` and a year's sign, never a quote.
   */
  predicate FormattedDate(date: Option<string>) {
    date.Some? ==> '\'' !in date.value
  }

  /** A date literal ends where the date ends, so what follows it is known too. */
  lemma DateLiteralPrefix(d: Option<string>, d': Option<string>, x: string, y: string)
    requires FormattedDate(d) && FormattedDate(d')
    requires DateLiteral(d) + x == DateLiteral(d') + y
    ensures d == d' && x == y
  {
    assert (DateLiteral(d) + x)[0] == (if d.Some? then '\'' else 'N');
    assert (DateLiteral(d') + y)[0] == (if d'.Some? then '\'' else 'N');
    if d.Some? && d'.Some? {
      assert DateLiteral(d) == "'" + d.value + "'" && DateLiteral(d') == "'" + d'.value + "'";
      QuotedPrefix(d.value, d'.value, x, y);
    } else if d.None? && d'.None? {
      assert x == (DateLiteral(d) + x)[4..];
      assert y == (DateLiteral(d') + y)[4..];
    }
  }

  /** Lines 914-915: the name and the schedule. */
  function JobIntro(name: string, cronSchedule: JString, fmt: Formatter): string {
    "CREATE JOB " + fmt.formatObject(name) + "\n" + ("'" + Show(cronSchedule) + "'\n")
  }

  /** Lines 916-919: the state. */
  function JobState(active: bool): string {
    (if active then "ACTIVE" else "INACTIVE") + "\n"
  }

  /** Lines 920-929: the start and end dates. */
  function JobDates(startDate: Option<string>, endDate: Option<string>): string {
    "START DATE " + (DateLiteral(startDate) + EndDateLine(endDate))
  }

  /** Lines 925-929: the end date, on a line of its own. */
  function EndDateLine(endDate: Option<string>): string {
    "\nEND DATE " + (DateLiteral(endDate) + "\n")
  }

  /** Lines 916-929: state and dates. */
  function JobSchedule(active: bool, startDate: Option<string>, endDate: Option<string>): string {
    JobState(active) + JobDates(startDate, endDate)
  }

  /** Lines 930-935: a shell job quotes its command; any other job has a PSQL body after `AS`. */
  function JobSource(jobType: int, source: JString): string {
    (if jobType == BASH_TYPE then "COMMAND '" else "AS\n") + Show(source) + (if jobType == BASH_TYPE then "'" else "")
  }

  /** `generateCreateJob` (lines 911-938). */
  function GenerateCreateJob(name: string, cronSchedule: JString, active: bool, startDate: Option<string>,
                             endDate: Option<string>, jobType: int, source: JString, fmt: Formatter): string {
    JobIntro(name, cronSchedule, fmt) + JobSchedule(active, startDate, endDate) + (JobSource(jobType, source) + "^")
  }

  /** A job ends with its quoted command or its PSQL body, then the terminator. */
  lemma JobEndsWithSource(name: string, cronSchedule: JString, active: bool, startDate: Option<string>,
                          endDate: Option<string>, jobType: int, source: JString, fmt: Formatter)
    ensures jobType == BASH_TYPE ==>
            EndsWith(GenerateCreateJob(name, cronSchedule, active, startDate, endDate, jobType, source, fmt),
                     "COMMAND '" + Show(source) + "'" + "^")
    ensures jobType != BASH_TYPE ==>
            EndsWith(GenerateCreateJob(name, cronSchedule, active, startDate, endDate, jobType, source, fmt),
                     "AS\n" + Show(source) + "^")
  {
    var head := JobIntro(name, cronSchedule, fmt) + JobSchedule(active, startDate, endDate);
    var src := JobSource(jobType, source);
    AppendEnds(head, src + "^");
    if jobType != BASH_TYPE {
      assert src == "AS\n" + Show(source);
    }
  }

  /**
   * A job's statement determines its state and its dates: two jobs alike in
   * name, schedule, type and source are written alike only when they agree on
   * being active and on both dates, a missing date included.
   */
  lemma JobDeterminesSchedule(name: string, cronSchedule: JString, jobType: int, source: JString, fmt: Formatter,
                              active: bool, startDate: Option<string>, endDate: Option<string>,
                              active': bool, startDate': Option<string>, endDate': Option<string>)
    requires FormattedDate(startDate) && FormattedDate(endDate) && FormattedDate(startDate') && FormattedDate(endDate')
    requires GenerateCreateJob(name, cronSchedule, active, startDate, endDate, jobType, source, fmt) ==
             GenerateCreateJob(name, cronSchedule, active', startDate', endDate', jobType, source, fmt)
    ensures active == active' && startDate == startDate' && endDate == endDate'
  {
    var intro := JobIntro(name, cronSchedule, fmt);
    var tail := JobSource(jobType, source) + "^";
    var m := JobSchedule(active, startDate, endDate);
    var m' := JobSchedule(active', startDate', endDate');
    CancelAround(intro, m, m', tail);
    assert m[0] == (if active then 'A' else 'I') && m'[0] == (if active' then 'A' else 'I');
    CancelPrefix(JobState(active), JobDates(startDate, endDate), JobDates(startDate', endDate'));
    JobDatesDistinct(startDate, endDate, startDate', endDate');
  }

  /** The dates part determines both dates. */
  lemma JobDatesDistinct(startDate: Option<string>, endDate: Option<string>,
                         startDate': Option<string>, endDate': Option<string>)
    requires FormattedDate(startDate) && FormattedDate(endDate) && FormattedDate(startDate') && FormattedDate(endDate')
    requires JobDates(startDate, endDate) == JobDates(startDate', endDate')
    ensures startDate == startDate' && endDate == endDate'
  {
    var x, x' := EndDateLine(endDate), EndDateLine(endDate');
    CancelPrefix("START DATE ", DateLiteral(startDate) + x, DateLiteral(startDate') + x');
    DateLiteralPrefix(startDate, startDate', x, x');
    CancelPrefix("\nEND DATE ", DateLiteral(endDate) + "\n", DateLiteral(endDate') + "\n");
    DateLiteralPrefix(endDate, endDate', "\n", "\n");
  }

  /** A job's statement opens with `CREATE JOB` and the formatted name, on a line of its own. */
  lemma JobOpensWithName(name: string, cronSchedule: JString, active: bool, startDate: Option<string>,
                         endDate: Option<string>, jobType: int, source: JString, fmt: Formatter)
    ensures var r := GenerateCreateJob(name, cronSchedule, active, startDate, endDate, jobType, source, fmt);
            StartsWith(r, "CREATE JOB " + fmt.formatObject(name) + "\n") && r[11..11 + |fmt.formatObject(name)|] == fmt.formatObject(name)
  {
    var f := fmt.formatObject(name);
    var opening := "CREATE JOB " + f + "\n";
    AppendEnds(opening, "'" + Show(cronSchedule) + "'\n");
    StartsWithLeft(JobIntro(name, cronSchedule, fmt), JobSchedule(active, startDate, endDate), opening);
    StartsWithLeft(JobIntro(name, cronSchedule, fmt) + JobSchedule(active, startDate, endDate),
                   JobSource(jobType, source) + "^", opening);
    assert opening[11..11 + |f|] == f;
  }
}
