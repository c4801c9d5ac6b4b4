/**
 * Generated names: `NEW_<type>_<n>` for new database objects and
 * `<KIND>_<TABLE_NAME>_<n>` for unnamed constraints, where `n` is one more than
 * the largest number found after removing the stem from the names already in
 * use.
 */
module Naming {
  import opened Wrappers
  import opened JavaText
  import opened Syntax

  /** The stem of a generated object name (line 441). */
  function DBObjectPrefix(metaTag: string): string {
    "NEW_" + metaTag + "_"
  }

  /** The stem of a generated constraint name, chosen by the constraint's type name (lines 464-479). */
  function ConstraintPrefix(typeName: string): string {
    (if typeName == PRIMARY_NAME then "PK"
     else if typeName == FOREIGN_NAME then "FK"
     else if typeName == CHECK_NAME then "CHECK"
     else if typeName == UNIQUE_NAME then "UQ"
     else "") + "_<TABLE_NAME>" + "_"
  }

  /** Every stem ends in `_` and holds a character that is not blank. */
  lemma StemShapes(metaTag: string, typeName: string)
    ensures IsStem(DBObjectPrefix(metaTag)) && IsStem(ConstraintPrefix(typeName))
  {
    var p := DBObjectPrefix(metaTag);
    assert p[0] == 'N';
    var q := ConstraintPrefix(typeName);
    assert q[|q| - 1] == '_';
    assert '<' in q;
  }

  /** What the uniqueness argument needs of a stem. */
  predicate IsStem(prefix: string) {
    |prefix| > 0 && prefix[|prefix| - 1] == '_' && !IsBlank(prefix)
  }

  /**
   * What one existing name contributes to the scan (lines 447-452, 484-489):
   * a name that is not null, contains the stem, and leaves a number once every
   * occurrence of the stem is removed, contributes that number; any other
   * name contributes nothing. Numbers are read without a size bound (see
   * `SuffixOf32` for the source's `Integer.parseInt`).
   */
  function SuffixOf(prefix: string, name: JString): Option<int>
    requires |prefix| > 0
  {
    if IsNull(name) || !Contains(name.value, prefix) then None
    else ParseDecimal(Replace(name.value, prefix, ""))
  }

  /** The running maximum the scan ends with: it starts at 0 and is raised by every larger number. */
  function HighestSuffix(prefix: string, names: seq<JString>): nat
    requires |prefix| > 0
  {
    if names == [] then 0
    else
      var m := HighestSuffix(prefix, names[..|names| - 1]);
      match SuffixOf(prefix, names[|names| - 1])
      case Some(v) => if v > m then v else m
      case None => m
  }

  /** The name the scan produces. */
  function NextName(prefix: string, names: seq<JString>): string
    requires |prefix| > 0
  {
    prefix + NatToString(HighestSuffix(prefix, names) + 1)
  }

  /** The maximum bounds every number found, and is 0 or one of them. */
  lemma {:induction false} HighestSuffixIsMaximum(prefix: string, names: seq<JString>)
    requires |prefix| > 0
    ensures forall i, v :: 0 <= i < |names| && SuffixOf(prefix, names[i]) == Some(v) ==> v <= HighestSuffix(prefix, names)
    ensures HighestSuffix(prefix, names) == 0 ||
            exists i :: 0 <= i < |names| && SuffixOf(prefix, names[i]) == Some(HighestSuffix(prefix, names))
  {
    if names != [] {
      var front := names[..|names| - 1];
      HighestSuffixIsMaximum(prefix, front);
      assert forall i :: 0 <= i < |front| ==> front[i] == names[i];
    }
  }

  /** A name that yields no number does not move the maximum: malformed names are skipped. */
  lemma {:induction false} SkipsNonNumeric(prefix: string, names: seq<JString>, extra: JString)
    requires |prefix| > 0 && SuffixOf(prefix, extra) == None
    ensures HighestSuffix(prefix, names + [extra]) == HighestSuffix(prefix, names)
  {
    assert (names + [extra])[..|names|] == names;
  }

  /** The generated name is not among the existing names. */
  lemma GeneratedNameIsFresh(prefix: string, names: seq<JString>)
    requires IsStem(prefix)
    ensures Some(NextName(prefix, names)) !in names
  {
    GeneratedSuffix(prefix, HighestSuffix(prefix, names));
    HighestSuffixIsMaximum(prefix, names);
  }

  /** The scan reads back the number a generated name was made with. */
  lemma GeneratedSuffix(prefix: string, m: nat)
    requires IsStem(prefix)
    ensures SuffixOf(prefix, Some(prefix + NatToString(m + 1))) == Some(m + 1)
  {
    var digits := NatToString(m + 1);
    var g := prefix + digits;
    assert g[..|prefix|] == prefix;
    assert Contains(g, prefix);
    assert !IsBlank(g) by {
      var k :| 0 <= k < |prefix| && !IsTrimmable(prefix[k]);
      assert g[k] == prefix[k];
    }
    assert prefix[|prefix| - 1] !in digits;
    ReplaceLeading(prefix, digits);
    ParseNatToString(m + 1);
  }

  /** `generateNameForDBObject`, with the sibling names passed in (a null list is the empty sequence). */
  method GenerateNameForDBObject(metaTag: string, keys: seq<JString>) returns (r: string)
    ensures r == NextName(DBObjectPrefix(metaTag), keys)
    ensures Some(r) !in keys
  {
    var name := "NEW_" + metaTag + "_";
    var intNumber: nat := 0;
    for i := 0 to |keys|
      invariant intNumber == HighestSuffix(name, keys[..i])
    {
      intNumber := ScanSuffix(name, keys, i, keys[i], intNumber);
    }
    assert keys[..|keys|] == keys;
    r := name + NatToString(intNumber + 1);
    StemShapes(metaTag, "");
    GeneratedNameIsFresh(name, keys);
  }

  /**
   * One turn of the scan loop (lines 447-452, 484-489): a name holding the stem
   * whose remainder parses as a larger number raises the running maximum.
   */
  method ScanSuffix(prefix: string, ghost names: seq<JString>, i: nat, key: JString, intNumber: nat) returns (m: nat)
    requires |prefix| > 0 && i < |names| && key == names[i]
    requires intNumber == HighestSuffix(prefix, names[..i])
    ensures m == HighestSuffix(prefix, names[..i + 1])
  {
    assert names[..i + 1][..i] == names[..i] && names[..i + 1][i] == key;
    m := intNumber;
    if !IsNull(key) {
      if Contains(key.value, prefix) {
        var number := Replace(key.value, prefix, "");
        match ParseDecimal(number) {
          case Some(v) =>
            if v > m {
              m := v;
            }
          case None =>
        }
      }
    }
  }

  /** After `NEW_TABLE_1`, `NEW_TABLE_3` and `foo` comes `NEW_TABLE_4`. */
  lemma NextTableName()
    ensures NextName(DBObjectPrefix("TABLE"), [Some("NEW_TABLE_1"), Some("NEW_TABLE_3"), Some("foo")]) == "NEW_TABLE_4"
  {
    var p := DBObjectPrefix("TABLE");
    var names: seq<JString> := [Some("NEW_TABLE_1"), Some("NEW_TABLE_3"), Some("foo")];
    assert p == "NEW_TABLE_";
    assert NatToString(1) == "1" && NatToString(3) == "3" && NatToString(4) == "4";
    ScannedTableNames(p, names);
    assert names[..2][..1] == names[..1] && names[..1][..0] == [];
    assert names[..2] == names[..|names| - 1];
    assert HighestSuffix(p, names[..1]) == 1;
    assert HighestSuffix(p, names[..2]) == 3;
  }

  /** What the scan reads from each name of the example. */
  lemma ScannedTableNames(p: string, names: seq<JString>)
    requires p == DBObjectPrefix("TABLE") && names == [Some("NEW_TABLE_1"), Some("NEW_TABLE_3"), Some("foo")]
    ensures SuffixOf(p, names[0]) == Some(1) && SuffixOf(p, names[1]) == Some(3) && SuffixOf(p, names[2]) == None
  {
    ScannedNumbered(p, 1, "NEW_TABLE_1");
    ScannedNumbered(p, 3, "NEW_TABLE_3");
    assert |"foo"| < |p|;
    ShorterNotContains("foo", p);
  }

  /** A table name made of the stem and a one-digit number reads back as that number. */
  lemma ScannedNumbered(p: string, n: nat, name: string)
    requires p == DBObjectPrefix("TABLE") && 1 <= n <= 9 && name == p + NatToString(n)
    ensures SuffixOf(p, Some(name)) == Some(n)
  {
    StemShapes("TABLE", "");
    GeneratedSuffix(p, n - 1);
  }

  // ---------------------------------------------------------------------------
  // The scan as written: 32-bit parse and 32-bit increment
  // ---------------------------------------------------------------------------

  /** `SuffixOf` with `Integer.parseInt`: numbers outside the `int` range are skipped like words. */
  function SuffixOf32(prefix: string, name: JString): Option<int>
    requires |prefix| > 0
  {
    if IsNull(name) || !Contains(name.value, prefix) then None
    else ParseInt32(Replace(name.value, prefix, ""))
  }

  function HighestSuffix32(prefix: string, names: seq<JString>): (m: int)
    requires |prefix| > 0
    ensures 0 <= m <= INT_MAX
  {
    if names == [] then 0
    else
      var m := HighestSuffix32(prefix, names[..|names| - 1]);
      match SuffixOf32(prefix, names[|names| - 1])
      case Some(v) => if v > m then v else m
      case None => m
  }

  /** Lines 459-460 and 496-497 as written: `int_number + 1` wraps around. */
  function NextNameAsWritten(prefix: string, names: seq<JString>): string
    requires |prefix| > 0
  {
    prefix + IntToString(Wrap32(HighestSuffix32(prefix, names) + 1))
  }

  /**
   * With `NEW_TABLE_2147483647` present the increment wraps to the most
   * negative `int`, and the name produced can be one that already exists.
   */
  lemma AsWrittenNameCollides()
    ensures var names := [Some("NEW_TABLE_2147483647"), Some("NEW_TABLE_-2147483648")];
            NextNameAsWritten(DBObjectPrefix("TABLE"), names) == "NEW_TABLE_-2147483648" &&
            Some(NextNameAsWritten(DBObjectPrefix("TABLE"), names)) in names
  {
    var p := DBObjectPrefix("TABLE");
    var top := "NEW_TABLE_2147483647";
    var low := "NEW_TABLE_-2147483648";
    BoundaryNumerals();
    assert p == "NEW_TABLE_";
    assert top == p + NatToString(INT_MAX);
    assert low == p + "-" + NatToString(-INT_MIN);
    WrappedMaximum(p, top, Some(low));
  }

  /** The scan over a name carrying `int`'s largest value and any second name. */
  lemma WrappedMaximum(p: string, top: string, other: JString)
    requires p == DBObjectPrefix("TABLE") && top == p + NatToString(INT_MAX)
    ensures NextNameAsWritten(p, [Some(top), other]) == p + "-" + NatToString(-INT_MIN)
  {
    var names := [Some(top), other];
    assert top[..|p|] == p;
    assert !IsBlank(top) by { assert top[0] == 'N'; }
    ReplaceLeading(p, NatToString(INT_MAX));
    ParseNatToString(INT_MAX);
    assert SuffixOf32(p, names[0]) == Some(INT_MAX);
    assert names[..1] == [Some(top)];
    assert [Some(top)][..0] == [];
    assert HighestSuffix32(p, [Some(top)]) == INT_MAX;
    assert names[..|names| - 1] == [Some(top)];
    assert HighestSuffix32(p, names) == INT_MAX;
    WrapPastMaximum();
    assert IntToString(INT_MIN) == "-" + NatToString(-INT_MIN);
  }

  lemma BoundaryNumerals()
    ensures NatToString(INT_MAX) == "2147483647"
    ensures NatToString(-INT_MIN) == "2147483648"
  {
    assert NatToString(2) == "2";
    assert NatToString(21) == "21";
    assert NatToString(214) == "214";
    assert NatToString(2147) == "2147";
    assert NatToString(21474) == "21474";
    assert NatToString(214748) == "214748";
    assert NatToString(2147483) == "2147483";
    assert NatToString(21474836) == "21474836";
    assert NatToString(214748364) == "214748364";
    assert NatToString(2147483647) == "2147483647";
    assert NatToString(2147483648) == "2147483648";
  }

  /** Away from the `int` boundary the scan as written and the unbounded scan agree. */
  lemma {:induction false} AsWrittenAgreesInRange(prefix: string, names: seq<JString>)
    requires |prefix| > 0
    requires forall i, v :: 0 <= i < |names| && SuffixOf(prefix, names[i]) == Some(v) ==> INT_MIN <= v < INT_MAX
    ensures HighestSuffix32(prefix, names) == HighestSuffix(prefix, names) < INT_MAX
    ensures NextNameAsWritten(prefix, names) == NextName(prefix, names)
  {
    if names != [] {
      var front := names[..|names| - 1];
      assert forall i :: 0 <= i < |front| ==> front[i] == names[i];
      AsWrittenAgreesInRange(prefix, front);
      var last := names[|names| - 1];
      assert SuffixOf32(prefix, last) == SuffixOf(prefix, last);
    }
  }
}
