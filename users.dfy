/**
 * Database users: `CREATE USER` from a user description, and the `ALTER USER`
 * diff between an old and a new description (lines 667-767). A user's tags
 * are a map; the model lists its entries in the map's iteration order.
 */
module Users {
  import opened Wrappers
  import opened JavaText
  import opened Syntax
  import opened Descriptors
  import opened AlterDiff

  // ---------------------------------------------------------------------------
  // tags
  // ---------------------------------------------------------------------------

  /** Lines 695 and 738: one tag written as `<key> = '<value>'`. */
  function TagItem(tag: (string, string)): string {
    tag.0 + " = '" + tag.1 + "'"
  }

  /** The items of a tag list, in order. */
  function TagItems(tags: seq<(string, string)>): (r: seq<string>)
    ensures |r| == |tags| && forall i :: 0 <= i < |tags| ==> r[i] == TagItem(tags[i])
  {
    if tags == [] then [] else TagItems(tags[..|tags| - 1]) + [TagItem(tags[|tags| - 1])]
  }

  /** The text of `entries`, each followed by `, `, as the alter diff's loops write them. */
  function Terminated(entries: seq<string>): string {
    if entries == [] then "" else Terminated(entries[..|entries| - 1]) + (entries[|entries| - 1] + ", ")
  }

  /** Writing each entry with a trailing `, ` is joining them with `, ` and adding one more. */
  lemma {:induction false} TerminatedJoin(entries: seq<string>)
    requires entries != []
    ensures Terminated(entries) == Join(", ", entries) + ", "
  {
    var front := entries[..|entries| - 1];
    var x := entries[|entries| - 1];
    if front == [] {
      assert entries == [x];
    } else {
      TerminatedJoin(front);
      assert front + [x] == entries;
      JoinSnoc(", ", front, x);
    }
  }

  // ---------------------------------------------------------------------------
  // CREATE USER
  // ---------------------------------------------------------------------------

  /** Lines 671-678: `<attribute> '<value>'` on a new line when the value is not blank. */
  function NameClause(attribute: string, value: JString): string {
    if !IsNull(value) then "\n" + attribute + " '" + value.value + "'" else ""
  }

  /** Lines 670-690: names, password, status, administrator role and plugin. */
  function CreateUserOptions(user: User): string
    requires user.plugin.Some?
  {
    NameClause("FIRSTNAME", user.firstName) + NameClause("MIDDLENAME", user.middleName) +
    NameClause("LASTNAME", user.lastName) + NameClause("PASSWORD", user.password) +
    (if user.active then "\nACTIVE" else "\nINACTIVE") +
    (if user.administrator then "\nGRANT ADMIN ROLE" else "") +
    (if user.plugin.value != "" then "\nUSING PLUGIN " + user.plugin.value else "")
  }

  /** Lines 691-699: the tags, separated by `, `, in one `TAGS (...)` clause when there are any. */
  function CreateTagsClause(tags: seq<(string, string)>): string {
    if |tags| > 0 then "\nTAGS (" + Join(", ", TagItems(tags)) + " )" else ""
  }

  /** Lines 701-702: the comment statement when the comment is not blank. */
  function UserComment(user: User, fmt: Formatter): string {
    if !IsNull(user.comment) then "COMMENT ON USER " + fmt.formatObject(user.name) + " is '" + user.comment.value + "'" else ""
  }

  /** What `generateCreateUser` returns. */
  function CreateUserText(user: User, fmt: Formatter): string
    requires user.plugin.Some?
  {
    "CREATE USER " + fmt.formatObject(user.name) + CreateUserOptions(user) + CreateTagsClause(user.tags) +
    (";\n" + UserComment(user, fmt))
  }

  /** Lines 693-697: the tag loop, with its `first` flag deciding the separator. */
  method WriteTagList(tags: seq<(string, string)>) returns (r: string)
    ensures r == Join(", ", TagItems(tags))
  {
    r := "";
    var first := true;
    var i := 0;
    while i < |tags|
      invariant i <= |tags|
      invariant first <==> i == 0
      invariant r == Join(", ", TagItems(tags[..i]))
    {
      r := AppendTag(r, tags, i, first);
      first := false;
      i := i + 1;
    }
    assert tags[..i] == tags;
  }

  /** One turn of the tag loop. */
  method AppendTag(r: string, tags: seq<(string, string)>, i: nat, first: bool) returns (r': string)
    requires i < |tags| && (first <==> i == 0)
    requires r == Join(", ", TagItems(tags[..i]))
    ensures r' == Join(", ", TagItems(tags[..i + 1]))
  {
    assert tags[..i + 1][..i] == tags[..i];
    assert TagItems(tags[..i + 1]) == TagItems(tags[..i]) + [TagItem(tags[i])];
    if first {
      r' := r + (tags[i].0 + " = '" + tags[i].1 + "'");
    } else {
      JoinSnoc(", ", TagItems(tags[..i]), TagItem(tags[i]));
      r' := r + ", " + (tags[i].0 + " = '" + tags[i].1 + "'");
    }
  }

  /**
   * `generateCreateUser` (lines 667-706). The plugin must be present: the
   * source calls `equals` on it.
   */
  method GenerateCreateUser(user: User, fmt: Formatter) returns (r: string)
    requires user.plugin.Some?
    ensures r == CreateUserText(user, fmt)
  {
    r := "CREATE USER " + fmt.formatObject(user.name) + CreateUserOptions(user);
    if |user.tags| > 0 {
      var list := WriteTagList(user.tags);
      r := r + ("\nTAGS (" + list + " )");
    } else {
      r := r + "";
    }
    r := r + (";\n" + UserComment(user, fmt));
  }

  /** Every tag of a new user is written with its value. */
  lemma CreateUserListsTag(user: User, fmt: Formatter, j: nat)
    requires user.plugin.Some? && j < |user.tags|
    ensures Contains(CreateUserText(user, fmt), TagItem(user.tags[j]))
  {
    var items := TagItems(user.tags);
    var head := "CREATE USER " + fmt.formatObject(user.name) + CreateUserOptions(user);
    JoinContains(", ", items, j);
    ContainsWithin("\nTAGS (", Join(", ", items), " )", TagItem(user.tags[j]));
    ContainsWithin(head, CreateTagsClause(user.tags), ";\n" + UserComment(user, fmt), TagItem(user.tags[j]));
  }

  // ---------------------------------------------------------------------------
  // ALTER USER
  // ---------------------------------------------------------------------------

  /** Line 711: the statement header. */
  function AlterUserHeader(thisUser: User, fmt: Formatter): string {
    "ALTER USER " + fmt.formatObject(thisUser.name)
  }

  /** Lines 714-721: a changed name part, written with its new value (`null` when there is none). */
  function FieldChange(attribute: string, before: JString, after: JString): string {
    if before != after then "\n\t" + attribute + " '" + Show(after) + "'" else ""
  }

  /** Lines 723-725: a changed password, unless the new one is empty. */
  function PasswordChange(before: JString, after: JString): string {
    if before != after then (if after != Some("") then "\n\tPASSWORD '" + Show(after) + "'" else "") else ""
  }

  /** Lines 727-731: a changed flag, written as its new setting. */
  function FlagChange(before: bool, after: bool, on: string, off: string): string {
    if before != after then (if after then on else off) else ""
  }

  /** Lines 733-735: a changed plugin, unless the new one is empty or null. */
  function PluginChange(before: JString, after: JString): string {
    if before != after then (if after != Some("") && after.Some? then "\nUSING PLUGIN " + after.value else "") else ""
  }

  /** Lines 714-735, in order. */
  function AttributeChanges(thisUser: User, compareUser: User): string {
    FieldChange("FIRSTNAME", thisUser.firstName, compareUser.firstName) +
    FieldChange("MIDDLENAME", thisUser.middleName, compareUser.middleName) +
    FieldChange("LASTNAME", thisUser.lastName, compareUser.lastName) +
    PasswordChange(thisUser.password, compareUser.password) +
    FlagChange(thisUser.active, compareUser.active, "\n\tACTIVE", "\n\tINACTIVE") +
    FlagChange(thisUser.administrator, compareUser.administrator, "\n\tGRANT ADMIN ROLE", "\n\tREVOKE ADMIN ROLE") +
    PluginChange(thisUser.plugin, compareUser.plugin)
  }

  /** Lines 743-745: `DROP <key>` for every old tag whose key the new map lacks, in the old map's order. */
  function DropEntries(oldTags: seq<(string, string)>, newTags: seq<(string, string)>): seq<string> {
    if oldTags == [] then []
    else
      var last := oldTags[|oldTags| - 1];
      DropEntries(oldTags[..|oldTags| - 1], newTags) + (if last.0 in TagMap(newTags) then [] else ["DROP " + last.0])
  }

  /** The entries of the `TAGS` clause: the dropped keys, then every new tag with its value. */
  function TagEntries(oldTags: seq<(string, string)>, newTags: seq<(string, string)>): seq<string> {
    DropEntries(oldTags, newTags) + TagItems(newTags)
  }

  /**
   * Lines 740-750: when the tag maps differ, one `TAGS (...)` clause lists the
   * entries separated by `, `; the comma after the last entry is removed and
   * the space after it stays.
   */
  function TagsChange(oldTags: seq<(string, string)>, newTags: seq<(string, string)>): string {
    if TagMap(oldTags) != TagMap(newTags) then "\n\tTAGS (" + Join(", ", TagEntries(oldTags, newTags)) + " " + " )" else ""
  }

  /** Lines 758-764: the comment statement when the comments differ; an empty or null one clears it. */
  function AlterUserComment(thisUser: User, compareUser: User, fmt: Formatter): string {
    if thisUser.comment != compareUser.comment then
      "COMMENT ON USER " + fmt.formatObject(thisUser.name) + " IS " +
      (if compareUser.comment != Some("") && compareUser.comment.Some? then "'" + compareUser.comment.value + "'" else "NULL")
    else ""
  }

  /** What `generateAlterUser` returns. */
  function AlterUserText(thisUser: User, compareUser: User, fmt: Formatter): string {
    var header := AlterUserHeader(thisUser, fmt);
    CloseDiff(header, header + AttributeChanges(thisUser, compareUser) + TagsChange(thisUser.tags, compareUser.tags),
              AlterUserComment(thisUser, compareUser, fmt))
  }

  /** `lastIndexOf` on a single character: the last position holding `c`, or -1. */
  function LastIndexOf(s: string, c: char): (r: int)
    ensures -1 <= r < |s|
    ensures r >= 0 ==> s[r] == c
    ensures forall j :: r < j < |s| ==> s[j] != c
  {
    if s == [] then -1 else if s[|s| - 1] == c then |s| - 1 else LastIndexOf(s[..|s| - 1], c)
  }

  /** `StringBuilder.deleteCharAt`: the characters before `i` stay, the ones after it move down by one. */
  function DeleteCharAt(s: string, i: nat): (r: string)
    requires i < |s|
    ensures |r| == |s| - 1
    ensures forall j :: 0 <= j < |r| ==> r[j] == (if j < i then s[j] else s[j + 1])
  {
    s[..i] + s[i + 1..]
  }

  /**
   * The fix-up at line 749: in a text ending with entries each followed by
   * `, `, the last comma is the one after the last entry, and deleting it
   * leaves the entries joined by `, ` and one space.
   */
  lemma TrailingCommaRemoved(prefix: string, entries: seq<string>)
    requires entries != []
    ensures LastIndexOf(prefix + Terminated(entries), ',') == |prefix + Terminated(entries)| - 2
    ensures DeleteCharAt(prefix + Terminated(entries), |prefix + Terminated(entries)| - 2) ==
            prefix + Join(", ", entries) + " "
  {
    TerminatedJoin(entries);
    var j := prefix + Join(", ", entries);
    assert prefix + Terminated(entries) == j + ", ";
    LastCommaOfTail(j);
    DropCommaOfTail(j);
  }

  /** In a text ending with `, `, the last comma is the one before the final space. */
  lemma LastCommaOfTail(j: string)
    ensures LastIndexOf(j + ", ", ',') == |j|
  {
    var s := j + ", ";
    assert s[|s| - 1] == ' ';
    assert s[..|s| - 1] == j + ",";
  }

  /** Deleting the comma of a final `, ` leaves the final space. */
  lemma DropCommaOfTail(j: string)
    ensures DeleteCharAt(j + ", ", |j|) == j + " "
  {
    var s := j + ", ";
    assert s[..|j|] == j && s[|j| + 1..] == " ";
  }

  /** Two different tag maps always give at least one entry. */
  lemma {:induction false} DifferentTagsHaveEntries(oldTags: seq<(string, string)>, newTags: seq<(string, string)>)
    requires TagMap(oldTags) != TagMap(newTags)
    ensures TagEntries(oldTags, newTags) != []
  {
    if newTags == [] {
      assert oldTags != [];
      assert TagMap(newTags) == map[];
      var last := oldTags[|oldTags| - 1];
      assert DropEntries(oldTags, newTags)[|DropEntries(oldTags, newTags)| - 1] == "DROP " + last.0;
    }
  }

  /** Lines 743-745: the drop loop. */
  method WriteDrops(s: string, oldTags: seq<(string, string)>, newTags: seq<(string, string)>) returns (s': string)
    ensures s' == s + Terminated(DropEntries(oldTags, newTags))
  {
    s' := s;
    for i := 0 to |oldTags|
      invariant s' == s + Terminated(DropEntries(oldTags[..i], newTags))
    {
      s' := WriteDrop(s', s, oldTags, newTags, i);
    }
    assert oldTags[..|oldTags|] == oldTags;
  }

  /** One turn of the drop loop. */
  method WriteDrop(s': string, s: string, oldTags: seq<(string, string)>, newTags: seq<(string, string)>, i: nat)
    returns (s'': string)
    requires i < |oldTags| && s' == s + Terminated(DropEntries(oldTags[..i], newTags))
    ensures s'' == s + Terminated(DropEntries(oldTags[..i + 1], newTags))
  {
    DropStep(oldTags, newTags, i);
    var tag := oldTags[i].0;
    if tag !in TagMap(newTags) {
      var d := DropEntries(oldTags[..i], newTags);
      TerminatedSnoc(d, "DROP " + tag);
      AppendRight(s, Terminated(d), "DROP " + tag + ", ");
      s'' := s' + ("DROP " + tag + ", ");
    } else {
      assert DropEntries(oldTags[..i], newTags) + [] == DropEntries(oldTags[..i], newTags);
      s'' := s';
    }
  }

  /** `DropEntries` over one more old tag. */
  lemma DropStep(oldTags: seq<(string, string)>, newTags: seq<(string, string)>, i: nat)
    requires i < |oldTags|
    ensures DropEntries(oldTags[..i + 1], newTags) ==
            DropEntries(oldTags[..i], newTags) + (if oldTags[i].0 in TagMap(newTags) then [] else ["DROP " + oldTags[i].0])
  {
    assert oldTags[..i + 1][..i] == oldTags[..i];
  }

  /** `Terminated` over one more entry. */
  lemma TerminatedSnoc(entries: seq<string>, x: string)
    ensures Terminated(entries + [x]) == Terminated(entries) + (x + ", ")
  {
    assert (entries + [x])[..|entries|] == entries;
  }

  /** Lines 747-748: the loop writing every new tag with its value, after the entries already written. */
  method WriteSets(s: string, prefix: string, done: seq<string>, newTags: seq<(string, string)>) returns (s': string)
    requires s == prefix + Terminated(done)
    ensures s' == prefix + Terminated(done + TagItems(newTags))
  {
    s' := s;
    assert done + TagItems(newTags[..0]) == done;
    for i := 0 to |newTags|
      invariant s' == prefix + Terminated(done + TagItems(newTags[..i]))
    {
      s' := WriteSet(s', prefix, done, newTags, i);
    }
    assert newTags[..|newTags|] == newTags;
  }

  /** One turn of the loop writing the new tags. */
  method WriteSet(s': string, prefix: string, done: seq<string>, newTags: seq<(string, string)>, i: nat) returns (s'': string)
    requires i < |newTags| && s' == prefix + Terminated(done + TagItems(newTags[..i]))
    ensures s'' == prefix + Terminated(done + TagItems(newTags[..i + 1]))
  {
    var e := done + TagItems(newTags[..i]);
    SetStep(done, newTags, i);
    TerminatedSnoc(e, TagItem(newTags[i]));
    AppendRight(prefix, Terminated(e), TagItem(newTags[i]) + ", ");
    s'' := s' + (newTags[i].0 + " = '" + newTags[i].1 + "'" + ", ");
  }

  /** The entries written after one more new tag. */
  lemma SetStep(done: seq<string>, newTags: seq<(string, string)>, i: nat)
    requires i < |newTags|
    ensures done + TagItems(newTags[..i + 1]) == done + TagItems(newTags[..i]) + [TagItem(newTags[i])]
  {
    assert newTags[..i + 1][..i] == newTags[..i];
  }

  /** Lines 740-750: the `TAGS` clause, written into the builder and fixed up by `deleteCharAt`. */
  method WriteTagsChange(sb: string, oldTags: seq<(string, string)>, newTags: seq<(string, string)>) returns (r: string)
    requires TagMap(oldTags) != TagMap(newTags)
    ensures r == sb + TagsChange(oldTags, newTags)
  {
    var prefix := sb + "\n\tTAGS (";
    var s := WriteDrops(prefix, oldTags, newTags);
    s := WriteSets(s, prefix, DropEntries(oldTags, newTags), newTags);
    TagsFixUp(sb, s, oldTags, newTags);
    r := DeleteCharAt(s, LastIndexOf(s, ',')) + " )";
  }

  /** The builder after both tag loops, fixed up by `deleteCharAt`, ends with the `TAGS` clause. */
  lemma TagsFixUp(sb: string, s: string, oldTags: seq<(string, string)>, newTags: seq<(string, string)>)
    requires TagMap(oldTags) != TagMap(newTags)
    requires s == sb + "\n\tTAGS (" + Terminated(TagEntries(oldTags, newTags))
    ensures LastIndexOf(s, ',') >= 0
    ensures DeleteCharAt(s, LastIndexOf(s, ',')) + " )" == sb + TagsChange(oldTags, newTags)
  {
    var prefix := sb + "\n\tTAGS (";
    var entries := TagEntries(oldTags, newTags);
    DifferentTagsHaveEntries(oldTags, newTags);
    TrailingCommaRemoved(prefix, entries);
    RegroupTail(sb, "\n\tTAGS (", Join(", ", entries), " ", " )");
  }

  /** `generateAlterUser` (lines 708-767). */
  method GenerateAlterUser(thisUser: User, compareUser: User, fmt: Formatter) returns (r: string)
    ensures r == AlterUserText(thisUser, compareUser, fmt)
  {
    var header := AlterUserHeader(thisUser, fmt);
    var sb := header + AttributeChanges(thisUser, compareUser);
    if TagMap(thisUser.tags) != TagMap(compareUser.tags) {
      sb := WriteTagsChange(sb, thisUser.tags, compareUser.tags);
    } else {
      sb := sb + "";
    }
    if header == sb {
      sb := "";
    } else {
      sb := sb + ";\n";
    }
    sb := sb + AlterUserComment(thisUser, compareUser, fmt);
    r := if sb != "" then sb else NO_CHANGES;
  }

  // ---------------------------------------------------------------------------
  // properties of the user diff
  // ---------------------------------------------------------------------------

  /** Every key of a tag list is a key of the map it stands for. */
  lemma {:induction false} TagMapHasKey(tags: seq<(string, string)>, j: nat)
    requires j < |tags|
    ensures tags[j].0 in TagMap(tags)
  {
    if j > 0 {
      TagMapHasKey(tags[1..], j - 1);
    }
  }

  /** Every old key missing from the new map is dropped. */
  lemma {:induction false} DropListed(oldTags: seq<(string, string)>, newTags: seq<(string, string)>, j: nat)
    requires j < |oldTags| && oldTags[j].0 !in TagMap(newTags)
    ensures "DROP " + oldTags[j].0 in DropEntries(oldTags, newTags)
  {
    var front := oldTags[..|oldTags| - 1];
    if j < |oldTags| - 1 {
      assert front[j] == oldTags[j];
      DropListed(front, newTags, j);
    }
  }

  /**
   * Every old tag whose key the new map lacks is written as `DROP <key>`
   * inside the single `TAGS (...)` clause.
   */
  lemma DroppedTagInClause(oldTags: seq<(string, string)>, newTags: seq<(string, string)>, j: nat)
    requires j < |oldTags| && oldTags[j].0 !in TagMap(newTags)
    ensures TagsChange(oldTags, newTags) == "\n\tTAGS (" + Join(", ", TagEntries(oldTags, newTags)) + " " + " )"
    ensures Contains(TagsChange(oldTags, newTags), "DROP " + oldTags[j].0)
  {
    TagMapHasKey(oldTags, j);
    assert TagMap(oldTags) != TagMap(newTags);
    var entries := TagEntries(oldTags, newTags);
    DropListed(oldTags, newTags, j);
    var k :| 0 <= k < |DropEntries(oldTags, newTags)| && DropEntries(oldTags, newTags)[k] == "DROP " + oldTags[j].0;
    assert entries[k] == "DROP " + oldTags[j].0;
    JoinContains(", ", entries, k);
    ContainsWithin("\n\tTAGS (", Join(", ", entries), " " + " )", "DROP " + oldTags[j].0);
    assert "\n\tTAGS (" + Join(", ", entries) + (" " + " )") == "\n\tTAGS (" + Join(", ", entries) + " " + " )";
  }

  /** What the diff compares, as the source compares it. */
  predicate UserUnchanged(thisUser: User, compareUser: User) {
    thisUser.firstName == compareUser.firstName &&
    thisUser.middleName == compareUser.middleName &&
    thisUser.lastName == compareUser.lastName &&
    (thisUser.password == compareUser.password || compareUser.password == Some("")) &&
    thisUser.active == compareUser.active &&
    thisUser.administrator == compareUser.administrator &&
    (thisUser.plugin == compareUser.plugin || compareUser.plugin == Some("") || compareUser.plugin.None?) &&
    TagMap(thisUser.tags) == TagMap(compareUser.tags)
  }

  /** No change clause is written exactly when nothing compared differs in a way the diff writes. */
  lemma NoUserChanges(thisUser: User, compareUser: User)
    ensures AttributeChanges(thisUser, compareUser) + TagsChange(thisUser.tags, compareUser.tags) == "" <==>
            UserUnchanged(thisUser, compareUser)
  {
  }

  /**
   * The user diff is the no-changes sentinel exactly when nothing compared
   * differs and the comment is the same.
   */
  lemma AlterUserSentinel(thisUser: User, compareUser: User, fmt: Formatter)
    ensures AlterUserText(thisUser, compareUser, fmt) == NO_CHANGES <==>
            UserUnchanged(thisUser, compareUser) && thisUser.comment == compareUser.comment
  {
    var header := AlterUserHeader(thisUser, fmt);
    var written := header + AttributeChanges(thisUser, compareUser) + TagsChange(thisUser.tags, compareUser.tags);
    var comment := AlterUserComment(thisUser, compareUser, fmt);
    NoUserChanges(thisUser, compareUser);
    if !UserUnchanged(thisUser, compareUser) {
      ChangedUserIsNotSentinel(thisUser, compareUser, fmt);
    } else if thisUser.comment != compareUser.comment {
      assert written == header;
      assert comment[..8] == "COMMENT ";
      ClosedDiffIsNotSentinel(header, written, comment);
    } else {
      assert written == header && comment == "";
    }
  }

  /** A diff with a change clause keeps its `ALTER USER` statement. */
  lemma ChangedUserIsNotSentinel(thisUser: User, compareUser: User, fmt: Formatter)
    requires !UserUnchanged(thisUser, compareUser)
    ensures AlterUserText(thisUser, compareUser, fmt) != NO_CHANGES
  {
    var header := AlterUserHeader(thisUser, fmt);
    var changes := AttributeChanges(thisUser, compareUser) + TagsChange(thisUser.tags, compareUser.tags);
    var written := header + AttributeChanges(thisUser, compareUser) + TagsChange(thisUser.tags, compareUser.tags);
    NoUserChanges(thisUser, compareUser);
    assert written == header + changes && changes != "";
    AppendEnds("ALTER USER ", fmt.formatObject(thisUser.name));
    StartsWithLeft("ALTER USER ", fmt.formatObject(thisUser.name), "ALTER ");
    StartsWithLeft(header, changes, "ALTER ");
    ClosedDiffIsNotSentinel(header, written, AlterUserComment(thisUser, compareUser, fmt));
  }

  /** A new password that is empty is never written: the diff is as if the password had not changed. */
  lemma ClearedPasswordIgnored(thisUser: User, compareUser: User, fmt: Formatter)
    requires compareUser.password == Some("")
    ensures AlterUserText(thisUser, compareUser, fmt) ==
            AlterUserText(thisUser, compareUser.(password := thisUser.password), fmt)
  {
    var other := compareUser.(password := thisUser.password);
    assert PasswordChange(thisUser.password, compareUser.password) == "";
    assert AttributeChanges(thisUser, compareUser) == AttributeChanges(thisUser, other);
  }

  /** A change of comment alone gives only the comment statement, without the `ALTER` header. */
  lemma AlterUserCommentOnly(thisUser: User, compareUser: User, fmt: Formatter)
    requires UserUnchanged(thisUser, compareUser) && thisUser.comment != compareUser.comment
    ensures AlterUserText(thisUser, compareUser, fmt) ==
            "COMMENT ON USER " + fmt.formatObject(thisUser.name) + " IS " +
            (if compareUser.comment != Some("") && compareUser.comment.Some? then "'" + compareUser.comment.value + "'" else "NULL")
  {
    NoUserChanges(thisUser, compareUser);
    var header := AlterUserHeader(thisUser, fmt);
    assert header + AttributeChanges(thisUser, compareUser) + TagsChange(thisUser.tags, compareUser.tags) == header;
  }
}
