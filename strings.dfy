/**
 * String comparisons used by the core: the lexicographic order Swift applies to
 * `updatedAt` timestamps, and the ASCII case-insensitive substring test of the
 * task search.
 */
module Strings {

  /**
   * `a <= b` in lexicographic order by character code: the first differing
   * character decides, and a proper prefix comes first.
   */
  predicate LexLeq(a: string, b: string)
    decreases |a|
  {
    |a| == 0 || (|b| > 0 && (a[0] < b[0] || (a[0] == b[0] && LexLeq(a[1..], b[1..]))))
  }

  /** `a < b` in the same order. */
  predicate LexLess(a: string, b: string) {
    LexLeq(a, b) && a != b
  }

  lemma {:induction false} LexLeqReflexive(a: string)
    ensures LexLeq(a, a)
  {
    if |a| > 0 { LexLeqReflexive(a[1..]); }
  }

  lemma {:induction false} LexLeqAntisymmetric(a: string, b: string)
    requires LexLeq(a, b) && LexLeq(b, a)
    ensures a == b
  {
    if |a| > 0 {
      LexLeqAntisymmetric(a[1..], b[1..]);
      assert a == [a[0]] + a[1..];
      assert b == [b[0]] + b[1..];
    }
  }

  lemma {:induction false} LexLeqTransitive(a: string, b: string, c: string)
    requires LexLeq(a, b) && LexLeq(b, c)
    ensures LexLeq(a, c)
  {
    if |a| > 0 && a[0] == b[0] && b[0] == c[0] {
      LexLeqTransitive(a[1..], b[1..], c[1..]);
    }
  }

  lemma {:induction false} LexLeqTotal(a: string, b: string)
    ensures LexLeq(a, b) || LexLeq(b, a)
  {
    if |a| > 0 && |b| > 0 && a[0] == b[0] {
      LexLeqTotal(a[1..], b[1..]);
    }
  }

  /** A strict step followed by a weak one is strict. */
  lemma LexLessLeqTransitive(a: string, b: string, c: string)
    requires LexLess(a, b) && LexLeq(b, c)
    ensures LexLess(a, c)
  {
    LexLeqTransitive(a, b, c);
    if a == c {
      LexLeqAntisymmetric(a, b);
    }
  }

  /** Not `b <= a` means `a < b`: the order is total. */
  lemma NotLeqIsLess(a: string, b: string)
    requires !LexLeq(b, a)
    ensures LexLess(a, b)
  {
    LexLeqTotal(a, b);
    if a == b { LexLeqReflexive(a); }
  }

  /** A strictly smaller string is not also greater or equal. */
  lemma LessExcludesLeq(a: string, b: string)
    ensures LexLess(a, b) ==> !LexLeq(b, a)
  {
    if LexLess(a, b) && LexLeq(b, a) {
      LexLeqAntisymmetric(a, b);
    }
  }

  // ------------------------------------------------------------ case folding

  /** ASCII lower-casing of one character; every other character is kept. */
  function ToLowerChar(c: char): (r: char)
    ensures !('A' <= r <= 'Z')
  {
    if 'A' <= c <= 'Z' then ((c as int) - ('A' as int) + ('a' as int)) as char else c
  }

  /** ASCII `ToLowerInvariant`. */
  function ToLower(s: string): (r: string)
    ensures |r| == |s|
    ensures forall i :: 0 <= i < |s| ==> r[i] == ToLowerChar(s[i])
  {
    if s == [] then [] else [ToLowerChar(s[0])] + ToLower(s[1..])
  }

  /** Text without upper-case ASCII letters is its own lower-casing. */
  lemma ToLowerKeepsLowerCase(s: string)
    requires forall i :: 0 <= i < |s| ==> !('A' <= s[i] <= 'Z')
    ensures ToLower(s) == s
  {
    assert forall i :: 0 <= i < |s| ==> ToLower(s)[i] == s[i];
  }

  /** `q` occurs in `s` starting at position `i`. */
  predicate OccursAt(s: string, q: string, i: nat) {
    i + |q| <= |s| && s[i..i + |q|] == q
  }

  /** Ordinal `s.Contains(q)`, by scanning each start position. */
  predicate Contains(s: string, q: string)
    decreases |s|
  {
    q <= s || (|s| > 0 && Contains(s[1..], q))
  }

  /** The scan finds `q` exactly when it occurs at some position of `s`. */
  lemma {:induction false} ContainsIffOccurs(s: string, q: string)
    ensures Contains(s, q) <==> exists i: nat :: OccursAt(s, q, i)
  {
    if q <= s {
      assert OccursAt(s, q, 0);
    } else if |s| > 0 {
      ContainsIffOccurs(s[1..], q);
      if Contains(s[1..], q) {
        var i: nat :| OccursAt(s[1..], q, i);
        assert s[1..][i..i + |q|] == s[i + 1..i + 1 + |q|];
        assert OccursAt(s, q, i + 1);
      }
      if i: nat :| OccursAt(s, q, i) && i > 0 {
        assert s[1..][i - 1..i - 1 + |q|] == s[i..i + |q|];
        assert OccursAt(s[1..], q, i - 1);
      }
    }
  }

  /** `s.Contains(q, StringComparison.OrdinalIgnoreCase)` with ASCII case folding. */
  predicate ContainsIgnoreCase(s: string, q: string) {
    Contains(ToLower(s), ToLower(q))
  }

  lemma ContainsEmpty(s: string)
    ensures ContainsIgnoreCase(s, "")
  {
  }
}
