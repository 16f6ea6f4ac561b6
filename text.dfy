/** The string primitives the program relies on: prefix tests, substring
    containment (`str::contains`) and lower-casing (`str::to_lowercase`). */
module Text {

  /** `prefix` is an initial segment of `s`. */
  predicate StartsWith(s: string, prefix: string) {
    |prefix| <= |s| && s[..|prefix|] == prefix
  }

  /** `t` occurs in `s` as a contiguous substring, case-sensitively. */
  predicate Contains(s: string, t: string)
    decreases |s|
  {
    StartsWith(s, t) || (|s| > 0 && Contains(s[1..], t))
  }

  /** The position-based meaning of containment: some window of `s` spells `t`. */
  ghost predicate OccursAt(s: string, t: string, i: int) {
    0 <= i && i + |t| <= |s| && s[i..i + |t|] == t
  }

  lemma {:induction false} ContainsOccurrence(s: string, t: string)
    ensures Contains(s, t) <==> exists i :: OccursAt(s, t, i)
    decreases |s|
  {
    assert OccursAt(s, t, 0) <==> StartsWith(s, t) by {
      if |t| <= |s| { assert s[0..|t|] == s[..|t|]; }
    }
    if |s| > 0 {
      ContainsOccurrence(s[1..], t);
      forall i | 1 <= i && i + |t| <= |s|
        ensures OccursAt(s, t, i) <==> OccursAt(s[1..], t, i - 1)
      {
        assert s[1..][i - 1..i - 1 + |t|] == s[i..i + |t|];
      }
      if !StartsWith(s, t) && Contains(s[1..], t) {
        var j :| OccursAt(s[1..], t, j);
        assert OccursAt(s, t, j + 1);
      }
    }
  }

  /** Every character of a contained string is a character of the container. */
  lemma {:induction false} ContainedCharacters(s: string, t: string, k: nat)
    requires Contains(s, t) && k < |t|
    ensures t[k] in s
    decreases |s|
  {
    if StartsWith(s, t) {
      assert s[..|t|][k] == t[k];
    } else {
      ContainedCharacters(s[1..], t, k);
    }
  }

  /** Lower-casing of one character. Only ASCII letters are mapped; this is
      the assumption the model makes about `to_lowercase`. */
  function LowerChar(c: char): char {
    if 'A' <= c <= 'Z' then (c as int + 32) as char else c
  }

  function Lower(s: string): string {
    seq(|s|, i requires 0 <= i < |s| => LowerChar(s[i]))
  }
}
