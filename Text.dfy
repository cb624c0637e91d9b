/**
 * The two Python string operations the agent relies on: `str.lower()` and the
 * substring test `p in s`. Strings are sequences of Unicode code points, as in
 * Python; lowering is modelled on the ASCII letters only.
 */
module Text {

  /** str.lower on one character, for the ASCII range: A-Z become a-z, everything else is kept. */
  function LowerChar(c: char): char {
    if 'A' <= c <= 'Z' then (c as int + 32) as char else c
  }

  /** str.lower, character by character. */
  function Lower(s: string): (r: string)
    ensures |r| == |s|
    ensures forall i | 0 <= i < |s| :: r[i] == LowerChar(s[i])
  {
    seq(|s|, i requires 0 <= i < |s| => LowerChar(s[i]))
  }

  /** Lowering twice is lowering once. */
  lemma LowerIdempotent(s: string)
    ensures Lower(Lower(s)) == Lower(s)
  {
    assert forall i | 0 <= i < |s| :: LowerChar(LowerChar(s[i])) == LowerChar(s[i]);
  }

  /** Lowering commutes with dropping the first character. */
  lemma LowerTail(s: string)
    requires s != []
    ensures Lower(s)[1..] == Lower(s[1..])
  {
  }

  /** p starts s. */
  predicate IsPrefix(p: string, s: string) {
    |p| <= |s| && s[..|p|] == p
  }

  /** Python's `p in s` on strings: p occurs in s as a contiguous run; the empty string occurs in every string. */
  predicate Contains(s: string, p: string)
    decreases |s|
  {
    IsPrefix(p, s) || (|s| > 0 && Contains(s[1..], p))
  }

  /** p occurs in s starting at position i. */
  predicate OccursAt(s: string, p: string, i: int) {
    0 <= i <= |s| - |p| && s[i..i + |p|] == p
  }

  /** The search agrees with the positional definition of an occurrence, in both directions. */
  lemma {:induction false} ContainsAt(s: string, p: string)
    ensures Contains(s, p) <==> exists i :: OccursAt(s, p, i)
    decreases |s|
  {
    if IsPrefix(p, s) {
      assert OccursAt(s, p, 0);
    } else if |s| > 0 {
      ContainsAt(s[1..], p);
      if Contains(s[1..], p) {
        var i :| OccursAt(s[1..], p, i);
        assert s[i + 1..i + 1 + |p|] == s[1..][i..i + |p|];
        assert OccursAt(s, p, i + 1);
      } else if i :| OccursAt(s, p, i) {
        assert i != 0;
        assert s[1..][i - 1..i - 1 + |p|] == s[i..i + |p|];
        assert OccursAt(s[1..], p, i - 1);
      }
    }
  }

  /** A string with no ASCII letters: lowering cannot map anything onto or off its characters. */
  predicate Caseless(p: string) {
    forall i | 0 <= i < |p| :: !('A' <= p[i] <= 'Z') && !('a' <= p[i] <= 'z')
  }

  lemma PrefixIgnoresLower(s: string, p: string)
    requires Caseless(p)
    ensures IsPrefix(p, Lower(s)) <==> IsPrefix(p, s)
  {
    if |p| <= |s| {
      if IsPrefix(p, Lower(s)) {
        forall i | 0 <= i < |p| ensures s[i] == p[i] {
          assert LowerChar(s[i]) == p[i];
        }
        assert s[..|p|] == p;
      }
      if IsPrefix(p, s) {
        forall i | 0 <= i < |p| ensures Lower(s)[i] == p[i] {
          assert s[i] == p[i];
        }
        assert Lower(s)[..|p|] == p;
      }
    }
  }

  /** For a caseless p, `p in s.lower()` holds exactly when `p in s` does. */
  lemma {:induction false} CaselessMatchIgnoresLower(s: string, p: string)
    requires Caseless(p)
    ensures Contains(Lower(s), p) <==> Contains(s, p)
    decreases |s|
  {
    PrefixIgnoresLower(s, p);
    if |s| > 0 {
      LowerTail(s);
      CaselessMatchIgnoresLower(s[1..], p);
    }
  }

  /** A caseless string is its own lower-case form. */
  lemma CaselessIsLower(p: string)
    requires Caseless(p)
    ensures Lower(p) == p
  {
    assert forall i | 0 <= i < |p| :: LowerChar(p[i]) == p[i];
  }
}
