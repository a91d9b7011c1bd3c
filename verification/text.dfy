/**
 The two string operations the chat turn relies on: JavaScript's
 `String.prototype.trim` (used to reject blank prompts and to name a thread)
 and `slice(0, n)` (used to cut the thread name to its maximum length).
 Strings are sequences of characters.
 */
module Text {

  /** The characters ECMAScript's `trim` removes: the WhiteSpace and
      LineTerminator productions of the ECMAScript language specification
      (TAB, VT, FF, SP, NBSP, ZWNBSP, the Unicode space separators, LF, CR,
      LINE SEPARATOR and PARAGRAPH SEPARATOR). */
  predicate IsWhitespace(c: char) {
    || c == '\t' || c == '\U{000B}' || c == '\U{000C}' || c == ' '
    || c == '\U{00A0}' || c == '\U{FEFF}' || c == '\U{1680}'
    || ('\U{2000}' <= c <= '\U{200A}')
    || c == '\U{202F}' || c == '\U{205F}' || c == '\U{3000}'
    || c == '\n' || c == '\r' || c == '\U{2028}' || c == '\U{2029}'
  }

  predicate AllWhitespace(s: string) {
    forall i :: 0 <= i < |s| ==> IsWhitespace(s[i])
  }

  /** Number of whitespace characters at the start of `s`. */
  function LeadingWhitespace(s: string): (k: nat)
    ensures k <= |s|
    ensures AllWhitespace(s[..k])
    ensures k < |s| ==> !IsWhitespace(s[k])
  {
    if |s| == 0 || !IsWhitespace(s[0]) then 0
    else
      var k' := LeadingWhitespace(s[1..]);
      assert s[1..][..k'] == s[1..k' + 1];
      k' + 1
  }

  /** Number of whitespace characters at the end of `s`. */
  function TrailingWhitespace(s: string): (k: nat)
    ensures k <= |s|
    ensures AllWhitespace(s[|s| - k..])
    ensures k < |s| ==> !IsWhitespace(s[|s| - k - 1])
  {
    if |s| == 0 || !IsWhitespace(s[|s| - 1]) then 0
    else
      var k' := TrailingWhitespace(s[..|s| - 1]);
      assert s[..|s| - 1][|s| - 1 - k'..] == s[|s| - 1 - k'..|s| - 1];
      k' + 1
  }

  /** `s.trimStart()`: `s` without its leading whitespace. */
  function TrimStart(s: string): (r: string)
    ensures |r| <= |s| && r == s[|s| - |r|..]
    ensures AllWhitespace(s[..|s| - |r|])
    ensures r != [] ==> !IsWhitespace(r[0])
  {
    s[LeadingWhitespace(s)..]
  }

  /** `s.trimEnd()`: `s` without its trailing whitespace. */
  function TrimEnd(s: string): (r: string)
    ensures |r| <= |s| && r == s[..|r|]
    ensures AllWhitespace(s[|r|..])
    ensures r != [] ==> !IsWhitespace(r[|r| - 1])
  {
    s[..|s| - TrailingWhitespace(s)]
  }

  /** `s.trim()`: `s` without its leading and trailing whitespace. The
      result is blank exactly when `s` is made of whitespace only. */
  function Trim(s: string): (r: string)
    ensures |r| <= |s|
    ensures r == [] <==> AllWhitespace(s)
    ensures r != [] ==> !IsWhitespace(r[0]) && !IsWhitespace(r[|r| - 1])
    ensures exists a :: (0 <= a <= |s| - |r| && r == s[a..a + |r|]
                         && AllWhitespace(s[..a]) && AllWhitespace(s[a + |r|..]))
  {
    var mid := TrimStart(s);
    var r := TrimEnd(mid);
    TrimSplit(s, mid, r);
    r
  }

  /** Trimming the start and then the end cuts `s` into leading whitespace,
      the result, and trailing whitespace, with the cut after the leading
      part at `|s| - |mid|`. */
  lemma TrimSplit(s: string, mid: string, r: string)
    requires mid == TrimStart(s) && r == TrimEnd(mid)
    ensures |r| <= |s|
    ensures r == [] <==> AllWhitespace(s)
    ensures r != [] ==> !IsWhitespace(r[0]) && !IsWhitespace(r[|r| - 1])
    ensures var a := |s| - |mid|;
      && 0 <= a <= |s| - |r| && r == s[a..a + |r|]
      && AllWhitespace(s[..a]) && AllWhitespace(s[a + |r|..])
  {
    var a := |s| - |mid|;
    assert r == s[a..a + |r|];
    assert s[a + |r|..] == mid[|r|..];
    if r == [] {
      EmptyMiddle(s, a);
    } else {
      assert r[0] == mid[0];
    }
  }

  /** `s.slice(0, n)`: the first `n` characters of `s`, or all of `s` when it
      is shorter. */
  function Prefix(s: string, n: nat): (r: string)
    ensures |r| == if |s| <= n then |s| else n
    ensures r <= s
  {
    if |s| <= n then s else s[..n]
  }

  /** A non-whitespace character preceded only by whitespace ends the
      leading whitespace. */
  lemma {:induction false} LeadingEndsAt(s: string, a: nat)
    requires a < |s| && AllWhitespace(s[..a]) && !IsWhitespace(s[a])
    ensures LeadingWhitespace(s) == a
    decreases a
  {
    if a > 0 {
      assert s[..a][0] == s[0];
      assert s[1..][..a - 1] == s[1..a];
      assert s[1..a] == s[..a][1..];
      LeadingEndsAt(s[1..], a - 1);
    }
  }

  /** A non-whitespace character followed only by whitespace ends the
      trailing whitespace. */
  lemma {:induction false} TrailingStartsAfter(s: string, e: nat)
    requires e < |s| && AllWhitespace(s[e + 1..]) && !IsWhitespace(s[e])
    ensures TrailingWhitespace(s) == |s| - 1 - e
    decreases |s| - e
  {
    if e < |s| - 1 {
      assert s[e + 1..][|s| - e - 2] == s[|s| - 1];
      var s' := s[..|s| - 1];
      assert s'[e + 1..] == s[e + 1..][..|s| - e - 2];
      TrailingStartsAfter(s', e);
    }
  }

  /** A split whose middle part is empty means `s` is all whitespace. */
  lemma EmptyMiddle(s: string, a: nat)
    requires a <= |s| && AllWhitespace(s[..a]) && AllWhitespace(s[a..])
    ensures AllWhitespace(s)
  {
    forall i | 0 <= i < |s| ensures IsWhitespace(s[i]) {
      assert i < a ==> s[..a][i] == s[i];
      assert i >= a ==> s[a..][i - a] == s[i];
    }
  }

  /** `Trim` is the only way to split `s` into leading whitespace, a part
      that is empty or has non-whitespace ends, and trailing whitespace: any
      such middle part is `Trim(s)`. */
  lemma TrimUnique(s: string, a: nat, t: string)
    requires a + |t| <= |s| && t == s[a..a + |t|]
    requires AllWhitespace(s[..a]) && AllWhitespace(s[a + |t|..])
    requires t != [] ==> !IsWhitespace(t[0]) && !IsWhitespace(t[|t| - 1])
    ensures t == Trim(s)
  {
    if t == [] {
      EmptyMiddle(s, a);
    } else {
      assert s[a] == t[0];
      LeadingEndsAt(s, a);
      var mid := TrimStart(s);
      assert mid == s[a..];
      assert mid[|t| - 1] == t[|t| - 1];
      assert mid[|t|..] == s[a + |t|..];
      TrailingStartsAfter(mid, |t| - 1);
      assert t == mid[..|t|];
    }
  }
}
