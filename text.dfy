/** String primitives the quick filter relies on: JavaScript's `String.prototype.trim`,
    `String.prototype.toLowerCase` (restricted to ASCII letters) and
    `String.prototype.includes`. */
module Text {

  /** The characters `trim` removes: the WhiteSpace and LineTerminator code points of
      ECMAScript (TAB, VT, FF, SP, NBSP, ZWNBSP, every space separator of category Zs,
      LF, CR, LINE SEPARATOR and PARAGRAPH SEPARATOR). */
  predicate IsWhitespace(c: char)
  {
    || c == '\t' || c == '\U{000B}' || c == '\U{000C}' || c == ' ' || c == '\U{00A0}'
    || c == '\U{FEFF}' || c == '\U{1680}' || ('\U{2000}' <= c <= '\U{200A}')
    || c == '\U{202F}' || c == '\U{205F}' || c == '\U{3000}'
    || c == '\n' || c == '\r' || c == '\U{2028}' || c == '\U{2029}'
  }

  /** True when every character of `s` is whitespace (in particular when `s` is empty). */
  predicate IsBlank(s: string): (r: bool)
    ensures r ==> Lower(s) == s
  {
    forall i :: 0 <= i < |s| ==> IsWhitespace(s[i])
  }

  /** The index of the first character at or after `i` that is not whitespace, or `|s|`
      when there is none. */
  function SkipSpace(s: string, i: nat): (n: nat)
    requires i <= |s|
    ensures i <= n <= |s|
    ensures forall j :: i <= j < n ==> IsWhitespace(s[j])
    ensures n == |s| || !IsWhitespace(s[n])
    decreases |s| - i
  {
    if i < |s| && IsWhitespace(s[i]) then SkipSpace(s, i + 1) else i
  }

  /** The end of `s[lo..n]` once its trailing whitespace is dropped. */
  function SkipSpaceBack(s: string, lo: nat, n: nat): (m: nat)
    requires lo <= n <= |s|
    ensures lo <= m <= n
    ensures forall j :: m <= j < n ==> IsWhitespace(s[j])
    ensures m == lo || !IsWhitespace(s[m - 1])
    decreases n
  {
    if lo < n && IsWhitespace(s[n - 1]) then SkipSpaceBack(s, lo, n - 1) else n
  }

  /** `s.trim()`: `s` without its leading and its trailing whitespace. */
  function Trim(s: string): (r: string)
    ensures |r| <= |s|
  {
    var a := SkipSpace(s, 0);
    s[a..SkipSpaceBack(s, a, |s|)]
  }

  /** The trimmed string is empty exactly when `s` is blank. */
  lemma TrimEmptyIffBlank(s: string)
    ensures Trim(s) == [] <==> IsBlank(s)
  {
    var a := SkipSpace(s, 0);
    var b := SkipSpaceBack(s, a, |s|);
    assert |Trim(s)| == b - a;
    if a < b {
      assert !IsWhitespace(s[b - 1]);
    }
  }

  /** `Trim(s)` is the slice `s[a..a + |Trim(s)|]`, which neither starts nor ends with
      whitespace, and every character outside it is whitespace. */
  lemma TrimIsSlice(s: string) returns (a: nat)
    ensures a + |Trim(s)| <= |s| && Trim(s) == s[a..a + |Trim(s)|]
    ensures Trim(s) != [] ==> !IsWhitespace(Trim(s)[0]) && !IsWhitespace(Trim(s)[|Trim(s)| - 1])
    ensures forall i :: 0 <= i < a ==> IsWhitespace(s[i])
    ensures forall i :: a + |Trim(s)| <= i < |s| ==> IsWhitespace(s[i])
  {
    a := SkipSpace(s, 0);
    var b := SkipSpaceBack(s, a, |s|);
    assert Trim(s) == s[a..b];
    if a < b {
      assert Trim(s)[0] == s[a] && Trim(s)[b - a - 1] == s[b - 1];
    }
  }

  /** The lower-case form of one character: ASCII `A`..`Z` become `a`..`z`; every other
      character, including non-ASCII letters, is left as it is. */
  function LowerChar(c: char): (r: char)
    ensures !('A' <= r <= 'Z')
    ensures 'A' <= c <= 'Z' ==> r as int == c as int + 32
    ensures !('A' <= c <= 'Z') ==> r == c
  {
    if 'A' <= c <= 'Z' then (c as int + 32) as char else c
  }

  /** `s.toLowerCase()` for ASCII letters, character by character. */
  function Lower(s: string): (r: string)
    ensures |r| == |s|
  {
    seq(|s|, i requires 0 <= i < |s| => LowerChar(s[i]))
  }

  /** `q` occurs in `s` starting at index `i`. */
  predicate OccursAt(s: string, q: string, i: nat)
  {
    i + |q| <= |s| && s[i..i + |q|] == q
  }

  /** `s.includes(q)`: `q` is a contiguous substring of `s`. The empty string is a
      substring of every string. */
  predicate Contains(s: string, q: string): (r: bool)
    ensures r ==> |q| <= |s|
  {
    exists i: nat | i <= |s| :: OccursAt(s, q, i)
  }

  /** Lower-casing twice is lower-casing once. */
  lemma LowerIdempotent(s: string)
    ensures Lower(Lower(s)) == Lower(s)
  {
  }

  /** Lower-casing leaves whitespace alone and never produces whitespace from a
      non-whitespace character, so a string is blank exactly when its lower-case form is. */
  lemma LowerKeepsBlank(s: string)
    ensures IsBlank(Lower(s)) <==> IsBlank(s)
  {
    forall i | 0 <= i < |s|
      ensures IsWhitespace(Lower(s)[i]) <==> IsWhitespace(s[i])
    {
      assert Lower(s)[i] == LowerChar(s[i]);
    }
  }

  /** Two strings with the same lower-case form are both blank or both not blank. */
  lemma SameLowerSameBlank(s: string, t: string)
    requires Lower(s) == Lower(t)
    ensures IsBlank(s) <==> IsBlank(t)
  {
    LowerKeepsBlank(s);
    LowerKeepsBlank(t);
  }

  /** Lower-casing distributes over concatenation. */
  lemma LowerAppend(a: string, b: string)
    ensures Lower(a + b) == Lower(a) + Lower(b)
  {
    assert forall i | 0 <= i < |a + b| :: Lower(a + b)[i] == (Lower(a) + Lower(b))[i];
  }

  /** Every string contains the empty string. */
  lemma ContainsEmpty(s: string)
    ensures Contains(s, [])
  {
    assert OccursAt(s, [], 0);
  }

  /** `s` contains `q` if `s` is `q` with something before and after it. */
  lemma ContainsInfix(a: string, q: string, b: string)
    ensures Contains(a + q + b, q)
  {
    assert (a + q + b)[|a|..|a| + |q|] == q;
    assert OccursAt(a + q + b, q, |a|);
  }

  /** A string contains whatever either of its parts contains. */
  lemma ContainsInAppend(a: string, b: string, q: string)
    requires Contains(a, q) || Contains(b, q)
    ensures Contains(a + b, q)
  {
    if Contains(a, q) {
      var i: nat :| i <= |a| && OccursAt(a, q, i);
      assert (a + b)[i..i + |q|] == a[i..i + |q|];
      assert OccursAt(a + b, q, i);
    } else {
      var i: nat :| i <= |b| && OccursAt(b, q, i);
      assert (a + b)[|a| + i..|a| + i + |q|] == b[i..i + |q|];
      assert OccursAt(a + b, q, |a| + i);
    }
  }

  /** An occurrence of `q` in `s` puts every character of `q` into `s`. */
  lemma OccurrenceChars(s: string, q: string, i: nat, j: nat)
    requires OccursAt(s, q, i) && j < |q|
    ensures i + j < |s| && s[i + j] == q[j]
  {
    assert s[i..i + |q|][j] == q[j];
  }

  /** If some character of `q` does not occur in `s`, then `s` does not contain `q`. */
  lemma {:induction false} NotContainsByChar(s: string, q: string, j: nat)
    requires j < |q| && q[j] !in s
    ensures !Contains(s, q)
  {
    if Contains(s, q) {
      var i: nat :| i <= |s| && OccursAt(s, q, i);
      OccurrenceChars(s, q, i, j);
    }
  }

  /** No character `x` of `s` is immediately followed by `y`. */
  ghost predicate PairFree(s: string, x: char, y: char)
  {
    forall i :: 0 <= i < |s| - 1 ==> !(s[i] == x && s[i + 1] == y)
  }

  /** A string that lacks `x` or lacks `y` never has `x` right before `y`. */
  lemma PairFreeByMissing(s: string, x: char, y: char)
    requires x !in s || y !in s
    ensures PairFree(s, x, y)
  {
  }

  /** If two adjacent characters of `q` never appear adjacently in `s`, then `s` does not
      contain `q`. */
  lemma {:induction false} NotContainsByPair(s: string, q: string, j: nat)
    requires j + 1 < |q| && PairFree(s, q[j], q[j + 1])
    ensures !Contains(s, q)
  {
    if Contains(s, q) {
      var i: nat :| i <= |s| && OccursAt(s, q, i);
      OccurrenceChars(s, q, i, j);
      OccurrenceChars(s, q, i, j + 1);
    }
  }

  /** Pair freedom of a concatenation follows from that of its parts and of the seam. */
  lemma PairFreeAppend(a: string, b: string, x: char, y: char)
    requires PairFree(a, x, y) && PairFree(b, x, y)
    requires a == [] || b == [] || !(a[|a| - 1] == x && b[0] == y)
    ensures PairFree(a + b, x, y)
  {
    var s := a + b;
    forall i | 0 <= i < |s| - 1
      ensures !(s[i] == x && s[i + 1] == y)
    {
      if i + 1 < |a| {
        assert s[i] == a[i] && s[i + 1] == a[i + 1];
      } else if i >= |a| {
        assert s[i] == b[i - |a|] && s[i + 1] == b[i + 1 - |a|];
      } else {
        assert s[i] == a[|a| - 1] && s[i + 1] == b[0];
      }
    }
  }
}
