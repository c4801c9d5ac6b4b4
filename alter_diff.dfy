/**
 * The closing step shared by the three `ALTER` diffs (domain by comparison,
 * domain by dirty flags, user): the `ALTER` statement is kept only when some
 * clause was written after its header, the `COMMENT ON` statement is appended
 * on its own, and an empty result becomes the no-changes sentinel.
 */
module AlterDiff {
  import opened JavaText
  import opened Syntax

  /**
   * Lines 606-620, 650-664 and 754-766: `written` is the builder's text after
   * the change clauses, `header` what it held before them, `comment` the
   * comment statement (or "").
   */
  function CloseDiff(header: string, written: string, comment: string): (r: string)
    ensures r != ""
    ensures written == header && comment == "" ==> r == NO_CHANGES
    ensures written == header && comment != "" ==> r == comment
    ensures written != header ==> StartsWith(r, written + ";\n")
  {
    var kept := if header == written then "" else written + ";\n";
    var r := kept + comment;
    AppendEnds(kept, comment);
    if r != "" then r else NO_CHANGES
  }

  /**
   * A diff that wrote a change clause after a header starting with `ALTER`
   * never yields the sentinel, and neither does a lone comment statement
   * starting with `COMMENT`.
   */
  lemma ClosedDiffIsNotSentinel(header: string, written: string, comment: string)
    requires (written != header && StartsWith(written, "ALTER ")) || (written == header && StartsWith(comment, "COMMENT "))
    ensures CloseDiff(header, written, comment) != NO_CHANGES
  {
    var r := CloseDiff(header, written, comment);
    if written != header {
      StartsWithLeft(written, ";\n" + comment, "ALTER ");
      assert (written + ";\n" + comment)[..6] == "ALTER ";
      assert r[0] == 'A';
    } else {
      assert r == comment && comment[..8][0] == comment[0];
      assert r[0] == 'C';
    }
    assert NO_CHANGES[0] == '/';
  }
}
