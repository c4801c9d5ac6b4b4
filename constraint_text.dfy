/**
 * `generateDefinitionColumnConstraint`: the `CONSTRAINT` clause of a table
 * definition, built from one (already deduplicated) constraint.
 */
module ConstraintText {
  import opened Wrappers
  import opened JavaText
  import opened Syntax
  import opened Descriptors
  import opened Parens
  import opened DedupWalk
  import DedupFacts

  /** `list.replaceAll(SQLUtils::format)`: every element formatted, in place. */
  function FormatEach(parts: seq<string>, fmt: Formatter): (r: seq<string>)
    ensures |r| == |parts| && forall i :: 0 <= i < |parts| ==> r[i] == fmt.formatObject(parts[i])
  {
    seq(|parts|, i requires 0 <= i < |parts| => fmt.formatObject(parts[i]))
  }

  /**
   * The column list of a key (lines 161-166 and 184-189): when editing, the
   * display list split at ", ", each name formatted, joined again; otherwise
   * the column text, formatted only while it still names a single column (a
   * merged list was formatted column by column as it was built).
   */
  function KeyColumns(column: JString, displayList: string, countCols: int, editing: bool, fmt: Formatter): string {
    if editing then Join(", ", FormatEach(Split(displayList, ", "), fmt))
    else Show(if countCols > 1 then column else fmt.ObjectOrNull(column))
  }

  /** Lines 191-194: a referential action, unless it is null or `RESTRICT`. */
  function RuleClause(keyword: string, rule: JString): string {
    if rule.Some? && rule.value != RESTRICT then keyword + rule.value else ""
  }

  /** Lines 197-198. */
  function TablespaceClause(tablespace: JString, fmt: Formatter): string {
    if !IsNull(tablespace) then " TABLESPACE " + fmt.formatObject(tablespace.value) else ""
  }

  /** Lines 172-195: `UNIQUE (...)`, or `<type> KEY (...)` followed for a foreign key by its reference. */
  function KeyClause(cc: Constraint, editing: bool, fmt: Formatter): string {
    var cols := KeyColumns(cc.column, cc.columnDisplayList, cc.countCols, editing, fmt);
    if cc.kind == UNIQUE_KEY then UNIQUE + SPACE + B_OPEN + cols + B_CLOSE
    else
      Show(cc.typeName) + KEY + B_OPEN + cols + B_CLOSE +
      (if cc.kind == FOREIGN_KEY then
         REFERENCES + Show(fmt.ObjectOrNull(cc.refTable)) + SPACE + B_OPEN +
         KeyColumns(cc.refColumn, cc.refColumnDisplayList, cc.countCols, editing, fmt) + B_CLOSE +
         RuleClause(" ON UPDATE ", cc.updateRule) + RuleClause(" ON DELETE ", cc.deleteRule)
       else "")
  }

  /** What follows `CONSTRAINT <name> ` (lines 154-200): nothing without a type, the check text, or the key. */
  function ConstraintBody(cc: Constraint, editing: bool, fmt: Formatter): string {
    if cc.kind == NO_TYPE then ""
    else if cc.kind == CHECK_KEY then Show(cc.check)
    else KeyClause(cc, editing, fmt) + TablespaceClause(cc.tablespace, fmt)
  }

  /** The head of a named constraint's clause. */
  function ConstraintHead(cc: Constraint, fmt: Formatter): string
    requires cc.name.Some?
  {
    COMMA + NEW_LINE_2 + CONSTRAINT + fmt.formatObject(cc.name.value) + SPACE
  }

  /**
   * `generateDefinitionColumnConstraint` (lines 139-202): a constraint without
   * a name contributes nothing; a named one contributes its head and body.
   */
  function DefinitionColumnConstraint(cc: Constraint, editing: bool, fmt: Formatter): (r: string)
    ensures r == "" <==> IsNull(cc.name)
    ensures !IsNull(cc.name) ==> StartsWith(r, ConstraintHead(cc, fmt))
  {
    if IsNull(cc.name) then ""
    else
      var head := ConstraintHead(cc, fmt);
      var r := head + ConstraintBody(cc, editing, fmt);
      assert r[..|head|] == head;
      r
  }

  /** A `RESTRICT` update action is written exactly as an absent one. */
  lemma RestrictUpdateIsSilent(cc: Constraint, editing: bool, fmt: Formatter)
    ensures DefinitionColumnConstraint(cc.(updateRule := Some(RESTRICT)), editing, fmt) ==
            DefinitionColumnConstraint(cc.(updateRule := None), editing, fmt)
  {
    assert RuleClause(" ON UPDATE ", Some(RESTRICT)) == RuleClause(" ON UPDATE ", None);
  }

  /** A `RESTRICT` delete action is written exactly as an absent one. */
  lemma RestrictDeleteIsSilent(cc: Constraint, editing: bool, fmt: Formatter)
    ensures DefinitionColumnConstraint(cc.(deleteRule := Some(RESTRICT)), editing, fmt) ==
            DefinitionColumnConstraint(cc.(deleteRule := None), editing, fmt)
  {
    assert RuleClause(" ON DELETE ", Some(RESTRICT)) == RuleClause(" ON DELETE ", None);
  }

  /** Any other action of a named foreign key is written, after its keyword. */
  lemma ActionsAreWritten(cc: Constraint, editing: bool, fmt: Formatter)
    requires !IsNull(cc.name) && cc.kind == FOREIGN_KEY
    ensures cc.updateRule.Some? && cc.updateRule.value != RESTRICT ==>
            Contains(DefinitionColumnConstraint(cc, editing, fmt), " ON UPDATE " + cc.updateRule.value)
    ensures cc.deleteRule.Some? && cc.deleteRule.value != RESTRICT ==>
            Contains(DefinitionColumnConstraint(cc, editing, fmt), " ON DELETE " + cc.deleteRule.value)
  {
    var upd := RuleClause(" ON UPDATE ", cc.updateRule);
    var del := RuleClause(" ON DELETE ", cc.deleteRule);
    var refPart := REFERENCES + Show(fmt.ObjectOrNull(cc.refTable)) + SPACE + B_OPEN +
                   KeyColumns(cc.refColumn, cc.refColumnDisplayList, cc.countCols, editing, fmt) + B_CLOSE;
    ContainsMiddle(refPart, upd, del);
    ContainsMiddle(refPart + upd, del, "");
    assert refPart + upd + del + "" == refPart + upd + del;
    ActionsLifted(cc, editing, fmt, upd);
    ActionsLifted(cc, editing, fmt, del);
  }

  /** A fragment of a foreign key's reference part is a fragment of the whole clause. */
  lemma ActionsLifted(cc: Constraint, editing: bool, fmt: Formatter, x: string)
    requires !IsNull(cc.name) && cc.kind == FOREIGN_KEY
    requires Contains(REFERENCES + Show(fmt.ObjectOrNull(cc.refTable)) + SPACE + B_OPEN +
                      KeyColumns(cc.refColumn, cc.refColumnDisplayList, cc.countCols, editing, fmt) + B_CLOSE +
                      RuleClause(" ON UPDATE ", cc.updateRule) + RuleClause(" ON DELETE ", cc.deleteRule), x)
    ensures Contains(DefinitionColumnConstraint(cc, editing, fmt), x)
  {
    var y := REFERENCES + Show(fmt.ObjectOrNull(cc.refTable)) + SPACE + B_OPEN +
             KeyColumns(cc.refColumn, cc.refColumnDisplayList, cc.countCols, editing, fmt) + B_CLOSE +
             RuleClause(" ON UPDATE ", cc.updateRule) + RuleClause(" ON DELETE ", cc.deleteRule);
    var cols := KeyColumns(cc.column, cc.columnDisplayList, cc.countCols, editing, fmt);
    var keyPart := Show(cc.typeName) + KEY + B_OPEN + cols + B_CLOSE;
    assert KeyClause(cc, editing, fmt) == keyPart + y;
    var ts := TablespaceClause(cc.tablespace, fmt);
    ContainsWithin(keyPart, y, ts, x);
    var body := ConstraintBody(cc, editing, fmt);
    assert body == keyPart + y + ts;
    var head := ConstraintHead(cc, fmt);
    ContainsWithin(head, body, "", x);
    assert head + body + "" == head + body;
  }

  /**
   * With an identity formatter, editing mode writes the display list back as
   * it was, unless it ends with the separator.
   */
  lemma EditingKeepsDisplayList(displayList: string, column: JString, countCols: int, fmt: Formatter)
    requires forall x :: fmt.formatObject(x) == x
    requires !EndsWith(displayList, ", ")
    ensures KeyColumns(column, displayList, countCols, true, fmt) == displayList
  {
    var parts := Split(displayList, ", ");
    assert FormatEach(parts, fmt) == parts;
    SplitJoin(displayList, ", ");
  }

  /**
   * The column list of a constraint into which repeats were folded (lines
   * 512-528) is written as the formatted first column followed by each
   * repeat's formatted column: every column is formatted exactly once.
   */
  lemma MergedColumnsFormattedOnce(origin: Constraint, reps: seq<Constraint>, fmt: Formatter)
    requires origin.countCols == 1 && |reps| > 0
    requires forall j :: 0 <= j < |reps| ==> reps[j].column.Some?
    ensures var m := FoldMerge(origin, reps, fmt);
            KeyColumns(m.column, m.columnDisplayList, m.countCols, false, fmt) ==
            Join(",", [Show(fmt.ObjectOrNull(origin.column))] + DedupFacts.FormattedColumns(reps, false, fmt))
  {
    assert forall j :: 0 <= j < |reps| ==> DedupFacts.Columns(reps[j], false).Some?;
    DedupFacts.FoldMergeColumns(origin, reps, false, fmt);
    DedupFacts.FoldMergeCount(origin, reps, fmt);
  }

  /**
   * The clause keeps its parentheses balanced whenever the names, columns
   * and actions it quotes hold no parentheses and a check expression is
   * itself balanced.
   */
  lemma ConstraintBalanced(cc: Constraint, editing: bool, fmt: Formatter)
    requires !IsNull(cc.name) ==> ParenFree(fmt.formatObject(cc.name.value))
    requires cc.kind == CHECK_KEY ==> Balanced(Show(cc.check))
    requires ParenFree(Show(cc.typeName)) && ParenFree(Show(fmt.ObjectOrNull(cc.refTable)))
    requires ParenFree(KeyColumns(cc.column, cc.columnDisplayList, cc.countCols, editing, fmt))
    requires ParenFree(KeyColumns(cc.refColumn, cc.refColumnDisplayList, cc.countCols, editing, fmt))
    requires ParenFree(Show(cc.updateRule)) && ParenFree(Show(cc.deleteRule))
    requires !IsNull(cc.tablespace) ==> ParenFree(fmt.formatObject(cc.tablespace.value))
    ensures Balanced(DefinitionColumnConstraint(cc, editing, fmt))
  {
    if IsNull(cc.name) {
      ParenFreeBalanced("");
    } else {
      var head := ConstraintHead(cc, fmt);
      assert ParenFree(head);
      ParenFreeBalanced(head);
      BodyBalanced(cc, editing, fmt);
      BalancedConcat(head, ConstraintBody(cc, editing, fmt));
    }
  }

  lemma BodyBalanced(cc: Constraint, editing: bool, fmt: Formatter)
    requires cc.kind == CHECK_KEY ==> Balanced(Show(cc.check))
    requires ParenFree(Show(cc.typeName)) && ParenFree(Show(fmt.ObjectOrNull(cc.refTable)))
    requires ParenFree(KeyColumns(cc.column, cc.columnDisplayList, cc.countCols, editing, fmt))
    requires ParenFree(KeyColumns(cc.refColumn, cc.refColumnDisplayList, cc.countCols, editing, fmt))
    requires ParenFree(Show(cc.updateRule)) && ParenFree(Show(cc.deleteRule))
    requires !IsNull(cc.tablespace) ==> ParenFree(fmt.formatObject(cc.tablespace.value))
    ensures Balanced(ConstraintBody(cc, editing, fmt))
  {
    if cc.kind == NO_TYPE {
      ParenFreeBalanced("");
    } else if cc.kind != CHECK_KEY {
      KeyBalanced(cc, editing, fmt);
      var ts := TablespaceClause(cc.tablespace, fmt);
      assert ParenFree(ts);
      ParenFreeBalanced(ts);
      BalancedConcat(KeyClause(cc, editing, fmt), ts);
    }
  }

  lemma KeyBalanced(cc: Constraint, editing: bool, fmt: Formatter)
    requires ParenFree(Show(cc.typeName)) && ParenFree(Show(fmt.ObjectOrNull(cc.refTable)))
    requires ParenFree(KeyColumns(cc.column, cc.columnDisplayList, cc.countCols, editing, fmt))
    requires ParenFree(KeyColumns(cc.refColumn, cc.refColumnDisplayList, cc.countCols, editing, fmt))
    requires ParenFree(Show(cc.updateRule)) && ParenFree(Show(cc.deleteRule))
    ensures Balanced(KeyClause(cc, editing, fmt))
  {
    var cols := KeyColumns(cc.column, cc.columnDisplayList, cc.countCols, editing, fmt);
    if cc.kind == UNIQUE_KEY {
      Bracketed(UNIQUE + SPACE, cols);
    } else {
      var key := Show(cc.typeName) + KEY;
      Bracketed(key, cols);
      var a := key + B_OPEN + cols + B_CLOSE;
      if cc.kind == FOREIGN_KEY {
        var refCols := KeyColumns(cc.refColumn, cc.refColumnDisplayList, cc.countCols, editing, fmt);
        var ref := REFERENCES + Show(fmt.ObjectOrNull(cc.refTable)) + SPACE;
        Bracketed(ref, refCols);
        var b := ref + B_OPEN + refCols + B_CLOSE;
        var upd := RuleClause(" ON UPDATE ", cc.updateRule);
        var del := RuleClause(" ON DELETE ", cc.deleteRule);
        RuleParenFree(" ON UPDATE ", cc.updateRule);
        RuleParenFree(" ON DELETE ", cc.deleteRule);
        ActionsBalanced(b, upd, del);
        BalancedConcat(a, b + upd + del);
        assert KeyClause(cc, editing, fmt) == a + (b + upd + del);
      } else {
        assert KeyClause(cc, editing, fmt) == a + "";
        assert a + "" == a;
      }
    }
  }

  lemma RuleParenFree(keyword: string, rule: JString)
    requires ParenFree(keyword) && ParenFree(Show(rule))
    ensures ParenFree(RuleClause(keyword, rule))
  {
  }

  lemma ActionsBalanced(b: string, upd: string, del: string)
    requires Balanced(b) && ParenFree(upd) && ParenFree(del)
    ensures Balanced(b + upd + del)
  {
    ParenFreeBalanced(upd);
    ParenFreeBalanced(del);
    BalancedConcat(b, upd);
    BalancedConcat(b + upd, del);
  }

  /** Parenthesis-free text, then a parenthesised parenthesis-free list. */
  lemma Bracketed(pre: string, inner: string)
    requires ParenFree(pre) && ParenFree(inner)
    ensures Balanced(pre + B_OPEN + inner + B_CLOSE)
  {
    ParenFreeBalanced(pre);
    ParenFreeBalanced(inner);
    Parenthesised(inner);
    BalancedConcat(pre, "(" + inner + ")");
    assert pre + B_OPEN + inner + B_CLOSE == pre + ("(" + inner + ")");
  }
}
