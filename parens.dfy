/**
 * Balanced parentheses: the token-counting check that a generated statement is
 * syntactically sane (every `(` is closed by a later `)`), usable without a SQL
 * parser.
 */
module Parens {

  /** Opening minus closing parentheses. */
  function Net(s: string): int {
    if s == [] then 0
    else Net(s[..|s| - 1]) + (if s[|s| - 1] == '(' then 1 else if s[|s| - 1] == ')' then -1 else 0)
  }

  /** No prefix closes more parentheses than it opens. */
  predicate NeverNegative(s: string) {
    forall k :: 0 <= k <= |s| ==> Net(s[..k]) >= 0
  }

  predicate Balanced(s: string) {
    Net(s) == 0 && NeverNegative(s)
  }

  predicate ParenFree(s: string) {
    '(' !in s && ')' !in s
  }

  lemma {:induction false} NetConcat(a: string, b: string)
    ensures Net(a + b) == Net(a) + Net(b)
    decreases |b|
  {
    if b != [] {
      NetConcat(a, b[..|b| - 1]);
      assert (a + b)[..|a + b| - 1] == a + b[..|b| - 1];
    } else {
      assert a + b == a;
    }
  }

  lemma {:induction false} ParenFreeNet(s: string)
    requires ParenFree(s)
    ensures Net(s) == 0
    decreases |s|
  {
    if s != [] {
      assert s[|s| - 1] in s;
      assert forall c :: c in s[..|s| - 1] ==> c in s;
      ParenFreeNet(s[..|s| - 1]);
    }
  }

  lemma ParenFreeBalanced(s: string)
    requires ParenFree(s)
    ensures Balanced(s)
  {
    forall k | 0 <= k <= |s| ensures Net(s[..k]) >= 0 {
      assert forall c :: c in s[..k] ==> c in s;
      ParenFreeNet(s[..k]);
    }
    ParenFreeNet(s);
  }

  lemma BalancedConcat(a: string, b: string)
    requires Balanced(a) && Balanced(b)
    ensures Balanced(a + b)
  {
    NetConcat(a, b);
    forall k | 0 <= k <= |a + b| ensures Net((a + b)[..k]) >= 0 {
      if k <= |a| {
        assert (a + b)[..k] == a[..k];
      } else {
        assert (a + b)[..k] == a + b[..k - |a|];
        NetConcat(a, b[..k - |a|]);
      }
    }
  }

  /** Wrapping balanced text in one pair of parentheses keeps it balanced. */
  lemma Parenthesised(s: string)
    requires Balanced(s)
    ensures Balanced("(" + s + ")")
  {
    NetConcat("(", s);
    NetConcat("(" + s, ")");
    forall k | 0 <= k <= |"(" + s + ")"| ensures Net(("(" + s + ")")[..k]) >= 0 {
      if k == 0 {
      } else if k <= |s| + 1 {
        assert ("(" + s + ")")[..k] == "(" + s[..k - 1];
        NetConcat("(", s[..k - 1]);
      } else {
        assert ("(" + s + ")")[..k] == "(" + s + ")";
      }
    }
  }
}
