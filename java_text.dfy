/**
 * The parts of Java's `String`, `StringBuilder` and `Integer` that the statement
 * builders rely on, written out over `seq<char>`: null references, `trim`,
 * `contains`, literal `replace`, `split` on a literal separator, `parseInt`,
 * decimal printing and 32/64-bit wrap-around.
 */
module JavaText {
  import opened Wrappers

  /** A Java `String` reference: `None` is `null`. */
  type JString = Option<string>

  // ---------------------------------------------------------------------------
  // null, blank and trim
  // ---------------------------------------------------------------------------

  /** The code units `String.trim` removes: everything up to U+0020. */
  predicate IsTrimmable(c: char) {
    c <= ' '
  }

  predicate IsBlank(s: string) {
    forall i :: 0 <= i < |s| ==> IsTrimmable(s[i])
  }

  /** `MiscUtils.isNull`: a null reference, or a string that trims to "". */
  predicate IsNull(o: JString) {
    o.None? || IsBlank(o.value)
  }

  /** What `StringBuilder.append(String)` writes for a possibly-null reference. */
  function Show(o: JString): (r: string)
    ensures o.Some? ==> r == o.value
    ensures o.None? ==> r == "null"
  {
    if o.Some? then o.value else "null"
  }

  /** Number of leading code units `trim` removes. */
  function LeadingBlanks(s: string): (n: nat)
    ensures n <= |s| && IsBlank(s[..n])
    ensures n < |s| ==> !IsTrimmable(s[n])
  {
    if s == [] || !IsTrimmable(s[0]) then 0
    else
      var n := 1 + LeadingBlanks(s[1..]);
      assert s[..n] == [s[0]] + s[1..][..n - 1];
      n
  }

  /** Number of trailing code units `trim` removes. */
  function TrailingBlanks(s: string): (n: nat)
    ensures n <= |s| && IsBlank(s[|s| - n..])
    ensures n < |s| ==> !IsTrimmable(s[|s| - 1 - n])
  {
    if s == [] || !IsTrimmable(s[|s| - 1]) then 0
    else
      var n := 1 + TrailingBlanks(s[..|s| - 1]);
      assert s[|s| - n..] == s[..|s| - 1][|s| - n..] + [s[|s| - 1]];
      n
  }

  /** `String.trim`: the slice between the leading and the trailing blanks. */
  function Trim(s: string): (r: string)
    ensures exists i, j :: 0 <= i <= j <= |s| && r == s[i..j] && IsBlank(s[..i]) && IsBlank(s[j..])
    ensures r != [] ==> !IsTrimmable(r[0]) && !IsTrimmable(r[|r| - 1])
  {
    var i := LeadingBlanks(s);
    var rest := s[i..];
    var j := TrailingBlanks(rest);
    var r := rest[..|rest| - j];
    var k := i + |rest| - j;
    assert r == s[i..k];
    assert s[k..] == rest[|rest| - j..];
    assert r != [] ==> r[0] == s[i] && r[|r| - 1] == rest[|rest| - 1 - j];
    r
  }

  /** A string trims to "" exactly when it is blank. */
  lemma TrimEmpty(s: string)
    ensures Trim(s) == [] <==> IsBlank(s)
  {
    if Trim(s) == [] {
      EmptyTrimIsBlank(s);
    }
    if IsBlank(s) {
      BlankTrimsEmpty(s);
    }
  }

  /** Helper of `TrimEmpty`: nothing is left once the blanks around are removed. */
  lemma EmptyTrimIsBlank(s: string)
    requires Trim(s) == []
    ensures IsBlank(s)
  {
    var i, j :| 0 <= i <= j <= |s| && Trim(s) == s[i..j] && IsBlank(s[..i]) && IsBlank(s[j..]);
    assert |s[i..j]| == j - i;
    BlankAround(s, i);
  }

  /** Helper of `TrimEmpty`: trimming a blank string leaves nothing. */
  lemma BlankTrimsEmpty(s: string)
    requires IsBlank(s)
    ensures Trim(s) == []
  {
    var i, j :| 0 <= i <= j <= |s| && Trim(s) == s[i..j] && IsBlank(s[..i]) && IsBlank(s[j..]);
    BlankSlice(s, i, j);
  }

  /** Every slice of a blank string is blank. */
  lemma BlankSlice(s: string, i: nat, j: nat)
    requires i <= j <= |s| && IsBlank(s)
    ensures IsBlank(s[i..j])
  {
    forall x | 0 <= x < j - i ensures IsTrimmable(s[i..j][x]) {
      assert s[i..j][x] == s[i + x];
    }
  }

  /** A string made of a blank prefix and a blank suffix is blank. */
  lemma BlankAround(s: string, i: nat)
    requires i <= |s| && IsBlank(s[..i]) && IsBlank(s[i..])
    ensures IsBlank(s)
  {
    forall x | 0 <= x < |s| ensures IsTrimmable(s[x]) {
      if x < i {
        assert s[..i][x] == s[x];
      } else {
        assert s[i..][x - i] == s[x];
      }
    }
  }

  /** A string's trimmed form is blank exactly when the string is. */
  lemma TrimBlank(s: string)
    ensures IsBlank(Trim(s)) <==> IsBlank(s)
  {
    TrimEmpty(s);
  }

  // ---------------------------------------------------------------------------
  // searching and replacing
  // ---------------------------------------------------------------------------

  predicate StartsWith(s: string, p: string) {
    |p| <= |s| && s[..|p|] == p
  }

  /** A concatenation starts with its left part and ends with its right part. */
  lemma AppendEnds(a: string, b: string)
    ensures StartsWith(a + b, a) && EndsWith(a + b, b)
  {
    assert (a + b)[..|a|] == a;
    assert (a + b)[|a|..] == b;
  }

  /** `String.contains`: `p` occurs somewhere in `s`. */
  predicate Contains(s: string, p: string)
    decreases |s|
  {
    StartsWith(s, p) || (s != [] && Contains(s[1..], p))
  }

  /** Nothing longer than a string occurs in it. */
  lemma {:induction false} ShorterNotContains(s: string, p: string)
    requires |s| < |p|
    ensures !Contains(s, p)
    decreases |s|
  {
    if s != [] {
      ShorterNotContains(s[1..], p);
    }
  }

  /** `p` occurs in `s` starting at index `i`. */
  predicate OccursAt(s: string, p: string, i: int) {
    0 <= i && i + |p| <= |s| && s[i..i + |p|] == p
  }

  /** A string that holds a non-blank part is not blank. */
  lemma ContainsNotBlank(s: string, t: string)
    requires Contains(s, t) && !IsBlank(t)
    ensures !IsBlank(s)
  {
    ContainsAt(s, t);
    var i :| OccursAt(s, t, i);
    var k :| 0 <= k < |t| && !IsTrimmable(t[k]);
    assert s[i..i + |t|][k] == s[i + k];
  }

  /** `Contains` says the same as "there is an index where `p` starts". */
  lemma {:induction false} ContainsAt(s: string, p: string)
    ensures Contains(s, p) <==> exists i :: OccursAt(s, p, i)
    decreases |s|
  {
    if StartsWith(s, p) {
      assert s[0..0 + |p|] == s[..|p|];
      assert OccursAt(s, p, 0);
    }
    if s != [] {
      ContainsAt(s[1..], p);
      if exists i :: OccursAt(s, p, i) {
        var i :| OccursAt(s, p, i);
        if i > 0 {
          assert s[1..][i - 1..i - 1 + |p|] == s[i..i + |p|];
          assert OccursAt(s[1..], p, i - 1);
        } else {
          assert s[..|p|] == s[0..0 + |p|];
        }
      }
      if Contains(s[1..], p) {
        var i :| OccursAt(s[1..], p, i);
        assert s[1..][i..i + |p|] == s[i + 1..i + 1 + |p|];
        assert OccursAt(s, p, i + 1);
      }
    }
  }

  /**
   * `String.replace(target, replacement)`: every occurrence of the non-empty
   * `p`, found left to right without overlap, is replaced by `r`.
   */
  function Replace(s: string, p: string, r: string): string
    requires |p| > 0
    decreases |s|
  {
    if |s| < |p| then s
    else if s[..|p|] == p then r + Replace(s[|p|..], p, r)
    else [s[0]] + Replace(s[1..], p, r)
  }

  /** Text without an occurrence of the pattern passes through `Replace` unchanged. */
  lemma {:induction false} ReplaceAbsent(s: string, p: string, r: string)
    requires |p| > 0 && !Contains(s, p)
    ensures Replace(s, p, r) == s
    decreases |s|
  {
    if |s| >= |p| {
      ReplaceAbsent(s[1..], p, r);
      assert [s[0]] + s[1..] == s;
    }
  }

  /**
   * The first occurrence of the pattern, with no earlier character that could
   * start it, is replaced; the text before it is kept and the text after it
   * is replaced in turn.
   */
  lemma {:induction false} ReplaceFirst(a: string, p: string, b: string, r: string)
    requires |p| > 0 && p[0] !in a
    ensures Replace(a + p + b, p, r) == a + r + Replace(b, p, r)
    decreases |a|
  {
    if a == [] {
      assert a + p + b == p + b;
      ReplaceHit(p, b, r);
    } else {
      ReplaceFirst(a[1..], p, b, r);
      ReplaceFirstStep(a, p, b, r);
    }
  }

  /** The inductive step of `ReplaceFirst`: one more code unit before the occurrence. */
  lemma ReplaceFirstStep(a: string, p: string, b: string, r: string)
    requires |p| > 0 && |a| > 0 && a[0] != p[0]
    requires Replace(a[1..] + p + b, p, r) == a[1..] + r + Replace(b, p, r)
    ensures Replace(a + p + b, p, r) == a + r + Replace(b, p, r)
  {
    ConsThrough(a, p, b);
    ConsThrough(a, r, Replace(b, p, r));
    ReplaceMiss(a + p + b, p, r);
  }

  /** The first code unit of a non-empty left part leads the whole concatenation. */
  lemma ConsThrough(a: string, m: string, b: string)
    requires |a| > 0
    ensures a + m + b == [a[0]] + (a[1..] + m + b)
  {
    assert a == [a[0]] + a[1..];
  }

  /** An occurrence at the front is replaced. */
  lemma ReplaceHit(p: string, b: string, r: string)
    requires |p| > 0
    ensures Replace(p + b, p, r) == r + Replace(b, p, r)
  {
    assert (p + b)[..|p|] == p && (p + b)[|p|..] == b;
  }

  /** A first code unit that cannot start the pattern is kept. */
  lemma ReplaceMiss(s: string, p: string, r: string)
    requires |p| > 0 && |s| > 0 && s[0] != p[0]
    ensures Replace(s, p, r) == [s[0]] + Replace(s[1..], p, r)
  {
    if |s| >= |p| {
      assert s[..|p|][0] == s[0];
    } else {
      assert Replace(s[1..], p, r) == s[1..];
      assert s == [s[0]] + s[1..];
    }
  }


  /** A string whose characters avoid `c` does not contain a pattern holding `c`. */
  lemma NotContainsChar(s: string, p: string, c: char)
    requires c in p && c !in s
    ensures !Contains(s, p)
  {
    ContainsAt(s, p);
  }

  /** Removing a leading pattern whose last character does not occur after it. */
  lemma ReplaceLeading(p: string, d: string)
    requires |p| > 0 && p[|p| - 1] !in d
    ensures Replace(p + d, p, "") == d
  {
    assert (p + d)[..|p|] == p;
    assert (p + d)[|p|..] == d;
    NotContainsChar(d, p, p[|p| - 1]);
    ReplaceAbsent(d, p, "");
  }

  // ---------------------------------------------------------------------------
  // joining and splitting
  // ---------------------------------------------------------------------------

  /** `String.join(sep, parts)`. */
  function Join(sep: string, parts: seq<string>): string {
    if |parts| == 0 then ""
    else if |parts| == 1 then parts[0]
    else parts[0] + sep + Join(sep, parts[1..])
  }

  /** The pieces of `s` between the non-overlapping occurrences of `sep`, all of them kept. */
  function Pieces(s: string, sep: string): (r: seq<string>)
    requires |sep| > 0
    ensures |r| >= 1
    decreases |s|
  {
    if |s| < |sep| then [s]
    else if s[..|sep|] == sep then [""] + Pieces(s[|sep|..], sep)
    else
      var rest := Pieces(s[1..], sep);
      [[s[0]] + rest[0]] + rest[1..]
  }

  function DropTrailingEmpty(parts: seq<string>): (r: seq<string>)
    ensures |r| <= |parts| && r == parts[..|r|]
    ensures r != [] ==> r[|r| - 1] != ""
  {
    if parts == [] || parts[|parts| - 1] != "" then parts
    else DropTrailingEmpty(parts[..|parts| - 1])
  }

  /**
   * `String.split(sep)` for a separator without regular-expression meta
   * characters: the pieces, with trailing empty pieces dropped, except that a
   * string without any separator yields itself.
   */
  function Split(s: string, sep: string): seq<string>
    requires |sep| > 0
  {
    if !Contains(s, sep) then [s] else DropTrailingEmpty(Pieces(s, sep))
  }

  /** Joining the pieces again gives back the string. */
  lemma {:induction false} JoinPieces(s: string, sep: string)
    requires |sep| > 0
    ensures Join(sep, Pieces(s, sep)) == s
    decreases |s|
  {
    if |s| >= |sep| {
      if s[..|sep|] == sep {
        JoinPieces(s[|sep|..], sep);
        JoinPiecesAtSep(s, sep);
      } else {
        JoinPieces(s[1..], sep);
        JoinPiecesSkip(s, sep);
      }
    }
  }

  /** Step of `JoinPieces` at an occurrence of the separator. */
  lemma JoinPiecesAtSep(s: string, sep: string)
    requires 0 < |sep| <= |s| && s[..|sep|] == sep
    requires Join(sep, Pieces(s[|sep|..], sep)) == s[|sep|..]
    ensures Join(sep, Pieces(s, sep)) == s
  {
    PiecesAtSep(s, sep);
    JoinEmptyFirst(sep, Pieces(s[|sep|..], sep));
    assert s == s[..|sep|] + s[|sep|..];
  }

  /** An occurrence of the separator at the front opens an empty piece. */
  lemma PiecesAtSep(s: string, sep: string)
    requires 0 < |sep| <= |s| && s[..|sep|] == sep
    ensures Pieces(s, sep) == [""] + Pieces(s[|sep|..], sep)
  {
  }

  /** Joining after an empty first part starts with the separator. */
  lemma JoinEmptyFirst(sep: string, ps: seq<string>)
    requires |ps| >= 1
    ensures Join(sep, [""] + ps) == sep + Join(sep, ps)
  {
    assert ([""] + ps)[1..] == ps;
  }

  /** Step of `JoinPieces` past a code unit that does not start the separator. */
  lemma JoinPiecesSkip(s: string, sep: string)
    requires 0 < |sep| <= |s| && s[..|sep|] != sep
    requires Join(sep, Pieces(s[1..], sep)) == s[1..]
    ensures Join(sep, Pieces(s, sep)) == s
  {
    var rest := Pieces(s[1..], sep);
    assert Pieces(s, sep) == [[s[0]] + rest[0]] + rest[1..];
    JoinFirst(sep, s[0], rest);
    assert s == [s[0]] + s[1..];
  }


  /** Joining one more part appends the separator and the part. */
  lemma {:induction false} JoinSnoc(sep: string, parts: seq<string>, x: string)
    requires |parts| >= 1
    ensures Join(sep, parts + [x]) == Join(sep, parts) + sep + x
  {
    if |parts| > 1 {
      JoinSnoc(sep, parts[1..], x);
      assert (parts + [x])[1..] == parts[1..] + [x];
    }
  }

  /** Every part appears in the joined text. */
  lemma {:induction false} JoinContains(sep: string, parts: seq<string>, j: nat)
    requires j < |parts|
    ensures Contains(Join(sep, parts), parts[j])
  {
    if |parts| == 1 {
      ContainsSelf(parts[0]);
    } else if j == 0 {
      ContainsSelf(parts[0]);
      ContainsLeft(parts[0], sep, parts[0]);
      ContainsLeft(parts[0] + sep, Join(sep, parts[1..]), parts[0]);
    } else {
      JoinContains(sep, parts[1..], j - 1);
      ContainsPrefixed(parts[0] + sep, Join(sep, parts[1..]), parts[j]);
    }
  }

  lemma {:induction false} JoinFirst(sep: string, c: char, parts: seq<string>)
    requires |parts| >= 1
    ensures Join(sep, [[c] + parts[0]] + parts[1..]) == [c] + Join(sep, parts)
  {
    var q := [[c] + parts[0]] + parts[1..];
    if |parts| > 1 {
      assert q[1..] == parts[1..];
    }
  }

  predicate EndsWith(s: string, p: string) {
    |p| <= |s| && s[|s| - |p|..] == p
  }

  /**
   * Splitting at a separator and joining with the same separator gives the
   * string back, unless the string ends with the separator (`split` drops the
   * trailing empty piece).
   */
  lemma SplitJoin(s: string, sep: string)
    requires |sep| > 0 && !EndsWith(s, sep)
    ensures Join(sep, Split(s, sep)) == s
  {
    if Contains(s, sep) {
      SplitJoinPieces(s, sep);
    } else {
      assert Split(s, sep) == [s];
    }
  }

  /** `SplitJoin` for a string holding the separator: `split` returns all of its pieces. */
  lemma SplitJoinPieces(s: string, sep: string)
    requires |sep| > 0 && Contains(s, sep) && !EndsWith(s, sep)
    ensures Split(s, sep) == Pieces(s, sep) && Join(sep, Split(s, sep)) == s
  {
    LastPieceNotEmpty(s, sep);
    KeepsLastPiece(Pieces(s, sep));
    JoinPieces(s, sep);
  }

  /** Nothing is dropped from a list whose last part is not empty. */
  lemma KeepsLastPiece(parts: seq<string>)
    requires |parts| >= 1 && parts[|parts| - 1] != ""
    ensures DropTrailingEmpty(parts) == parts
  {
  }

  /** A string that does not end with the separator has a non-empty last piece. */
  lemma LastPieceNotEmpty(s: string, sep: string)
    requires |sep| > 0 && Contains(s, sep) && !EndsWith(s, sep)
    ensures Pieces(s, sep)[|Pieces(s, sep)| - 1] != ""
  {
    var ps := Pieces(s, sep);
    var n := |ps|;
    JoinPieces(s, sep);
    if n == 1 {
      ContainsAt(s, sep);
      assert s != "";
      assert ps[0] == s;
    } else {
      var front := ps[..n - 1];
      assert ps == front + [ps[n - 1]];
      JoinSnoc(sep, front, ps[n - 1]);
      assert ps[n - 1] == "" ==> s == Join(sep, front) + sep;
      assert ps[n - 1] == "" ==> EndsWith(s, sep);
    }
  }

  /** A fragment placed between two others is contained in the result. */
  lemma ContainsMiddle(a: string, p: string, b: string)
    ensures Contains(a + p + b, p)
  {
    var s := a + p + b;
    assert s[|a|..|a| + |p|] == p;
    assert OccursAt(s, p, |a|);
    ContainsAt(s, p);
  }

  /** Text containing a fragment still contains it once more text is put around it. */
  lemma ContainsWithin(a: string, s: string, b: string, p: string)
    requires Contains(s, p)
    ensures Contains(a + s + b, p)
  {
    ContainsAt(s, p);
    var i :| OccursAt(s, p, i);
    var t := a + s + b;
    assert t[|a| + i..|a| + i + |p|] == s[i..i + |p|];
    assert OccursAt(t, p, |a| + i);
    ContainsAt(t, p);
  }

  /** Text contains what is appended to it. */
  lemma ContainsRight(a: string, b: string)
    ensures Contains(a + b, b)
  {
    ContainsMiddle(a, b, "");
    assert a + b + "" == a + b;
  }

  /** Appending text keeps what the text already contains. */
  lemma ContainsLeft(a: string, b: string, p: string)
    requires Contains(a, p)
    ensures Contains(a + b, p)
  {
    ContainsWithin("", a, b, p);
    assert "" + a + b == a + b;
  }

  /** Text contains what is put in front of it. */
  lemma ContainsPrefixed(a: string, b: string, p: string)
    requires Contains(b, p)
    ensures Contains(a + b, p)
  {
    ContainsWithin(a, b, "", p);
    assert a + b + "" == a + b;
  }

  lemma ContainsSelf(s: string)
    ensures Contains(s, s)
  {
    assert s[..|s|] == s;
  }

  /** A suffix of the right part is a suffix of the whole. */
  lemma EndsWithExtended(a: string, b: string, c: string)
    requires EndsWith(b, c)
    ensures EndsWith(a + b, c)
  {
    assert (a + b)[|a + b| - |c|..] == b[|b| - |c|..];
  }

  /** Appending to a concatenation appends to its second part. */
  lemma AppendRight(a: string, b: string, c: string)
    ensures a + b + c == a + (b + c)
  {
  }

  /** Regrouping a concatenation of five texts after its first part. */
  lemma RegroupTail(a: string, b: string, c: string, d: string, e: string)
    ensures a + b + c + d + e == a + (b + c + d + e)
  {
  }

  /** A prefix of the left part is a prefix of the whole. */
  lemma StartsWithLeft(a: string, b: string, p: string)
    requires StartsWith(a, p)
    ensures StartsWith(a + b, p)
  {
    assert (a + b)[..|p|] == a[..|p|];
  }

  /** Text between the same prefix and the same suffix is the same text. */
  lemma CancelAround(p: string, a: string, b: string, t: string)
    requires p + a + t == p + b + t
    ensures a == b
  {
    assert |a| == |b|;
    assert (p + a + t)[|p|..|p| + |a|] == a;
    assert (p + b + t)[|p|..|p| + |b|] == b;
  }

  /** Text after the same prefix is the same text. */
  lemma CancelPrefix(p: string, a: string, b: string)
    requires p + a == p + b
    ensures a == b
  {
    assert (p + a)[|p|..] == a;
    assert (p + b)[|p|..] == b;
  }

  /**
   * A quoted text holding no quote ends at its first closing quote, so what
   * follows the literal is known too.
   */
  lemma QuotedPrefix(u: string, v: string, x: string, y: string)
    requires '\'' !in u && '\'' !in v
    requires "'" + u + "'" + x == "'" + v + "'" + y
    ensures u == v && x == y
  {
    var l := "'" + u + "'" + x;
    var r := "'" + v + "'" + y;
    assert l[|u| + 1] == '\'' && r[|v| + 1] == '\'';
    assert forall j :: 1 <= j <= |u| ==> l[j] == u[j - 1] && l[j] != '\'';
    assert forall j :: 1 <= j <= |v| ==> r[j] == v[j - 1] && r[j] != '\'';
    assert |u| == |v|;
    assert u == l[1..|u| + 1];
    assert v == r[1..|v| + 1];
    assert x == l[|u| + 2..];
    assert y == r[|v| + 2..];
  }

  /** Putting the same text in front keeps a prefix a prefix. */
  lemma StartsWithJoin(a: string, b: string, p: string)
    requires StartsWith(b, p)
    ensures StartsWith(a + b, a + p)
  {
    assert (a + b)[..|a + p|] == a + b[..|p|];
  }

  // ---------------------------------------------------------------------------
  // integers: parsing, printing, wrap-around
  // ---------------------------------------------------------------------------

  const INT_MIN: int := -0x8000_0000
  const INT_MAX: int := 0x7FFF_FFFF

  predicate IsDigit(c: char) {
    '0' <= c <= '9'
  }

  predicate AllDigits(s: string) {
    forall i :: 0 <= i < |s| ==> IsDigit(s[i])
  }

  function DigitsValue(s: string): nat
    requires AllDigits(s)
  {
    if s == [] then 0
    else DigitsValue(s[..|s| - 1]) * 10 + (s[|s| - 1] as int - '0' as int)
  }

  /**
   * The value of a decimal numeral with an optional `+` or `-` sign, without a
   * bound on its size (what `Integer.parseInt` reads before its range check).
   */
  function ParseDecimal(s: string): Option<int> {
    if |s| > 1 && (s[0] == '-' || s[0] == '+') && AllDigits(s[1..]) then
      var v: int := DigitsValue(s[1..]);
      Some(if s[0] == '-' then -v else v)
    else if |s| > 0 && AllDigits(s) then Some(DigitsValue(s))
    else None
  }

  /** `Integer.parseInt(s)`: `None` where Java throws `NumberFormatException`. */
  function ParseInt32(s: string): (r: Option<int>)
    ensures r.Some? ==> INT_MIN <= r.value <= INT_MAX && ParseDecimal(s) == r
  {
    match ParseDecimal(s)
    case Some(v) => if INT_MIN <= v <= INT_MAX then Some(v) else None
    case None => None
  }

  function DigitChar(d: nat): (c: char)
    requires d < 10
    ensures IsDigit(c) && c as int - '0' as int == d
  {
    ('0' as int + d) as char
  }

  /** The decimal numeral of `n`, as `"" + n` prints it. */
  function NatToString(n: nat): (r: string)
    ensures |r| > 0 && AllDigits(r)
  {
    if n < 10 then [DigitChar(n)] else NatToString(n / 10) + [DigitChar(n % 10)]
  }

  /** `"" + i` for any integer. */
  function IntToString(i: int): (r: string)
    ensures |r| > 0
  {
    if i < 0 then "-" + NatToString(-i) else NatToString(i)
  }

  /** Reading back a printed natural number gives the number. */
  lemma {:induction false} DigitsOfNatToString(n: nat)
    ensures DigitsValue(NatToString(n)) == n
  {
    if n >= 10 {
      DigitsOfNatToString(n / 10);
      var s := NatToString(n);
      assert s[..|s| - 1] == NatToString(n / 10);
    }
  }

  lemma ParseNatToString(n: nat)
    ensures ParseDecimal(NatToString(n)) == Some(n)
  {
    DigitsOfNatToString(n);
  }

  /** Reading back any printed integer gives the integer. */
  lemma ParseIntToString(i: int)
    ensures ParseDecimal(IntToString(i)) == Some(i)
  {
    if i < 0 {
      var s := IntToString(i);
      DigitsOfNatToString(-i);
      assert s[1..] == NatToString(-i);
    } else {
      ParseNatToString(i);
    }
  }

  /** Two's-complement wrap-around of a Java `int`. */
  function Wrap32(x: int): (r: int)
    ensures INT_MIN <= r <= INT_MAX
    ensures INT_MIN <= x <= INT_MAX ==> r == x
  {
    (x - INT_MIN) % 0x1_0000_0000 + INT_MIN
  }

  /** One past `int`'s largest value is its smallest. */
  lemma WrapPastMaximum()
    ensures Wrap32(INT_MAX + 1) == INT_MIN
  {
  }

  /** Two's-complement wrap-around of a Java `long`. */
  function Wrap64(x: int): (r: int)
    ensures -0x8000_0000_0000_0000 <= r < 0x8000_0000_0000_0000
    ensures -0x8000_0000_0000_0000 <= x < 0x8000_0000_0000_0000 ==> r == x
  {
    (x + 0x8000_0000_0000_0000) % 0x1_0000_0000_0000_0000 - 0x8000_0000_0000_0000
  }

  // ---------------------------------------------------------------------------
  // case
  // ---------------------------------------------------------------------------

  /** `toUpperCase` on the ASCII letters; every other character is kept. */
  function UpperAscii(s: string): (r: string)
    ensures |r| == |s|
    ensures forall i :: 0 <= i < |s| ==> r[i] == (if 'a' <= s[i] <= 'z' then (s[i] as int - 32) as char else s[i])
    ensures forall i :: 0 <= i < |r| ==> !('a' <= r[i] <= 'z')
  {
    seq(|s|, i requires 0 <= i < |s| => if 'a' <= s[i] <= 'z' then (s[i] as int - 32) as char else s[i])
  }
}
