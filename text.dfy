/**
 * String helpers the core relies on: ASCII lower-casing (`String.prototype.toLowerCase`
 * restricted to ASCII letters) and substring search (`String.prototype.includes`).
 */
module Text {

  /** Lower-cases one ASCII letter; every other character is kept. */
  function LowerChar(c: char): char {
    if 'A' <= c <= 'Z' then (c as int - 'A' as int + 'a' as int) as char else c
  }

  function Lower(s: string): string {
    seq(|s|, i requires 0 <= i < |s| => LowerChar(s[i]))
  }

  /** `t` occurs in `s` starting at index `i`. */
  ghost predicate OccursAt(s: string, t: string, i: int) {
    0 <= i && i + |t| <= |s| && s[i..i + |t|] == t
  }

  /** `t` occurs in `s` at index `i` once `s` is lower-cased, stated character by character. */
  ghost predicate FoldedAt(s: string, t: string, i: int) {
    0 <= i && i + |t| <= |s| && forall k :: 0 <= k < |t| ==> LowerChar(s[i + k]) == t[k]
  }

  /** `s.includes(t)`: the empty string is contained in every string. */
  function Contains(s: string, t: string): bool
    decreases |s|
  {
    if t <= s then true
    else if s == [] then false
    else Contains(s[1..], t)
  }

  /** Contains is exactly "occurs at some index". */
  lemma {:induction false} ContainsIff(s: string, t: string)
    ensures Contains(s, t) <==> exists i :: OccursAt(s, t, i)
    decreases |s|
  {
    if t <= s {
      assert OccursAt(s, t, 0);
    } else if s == [] {
    } else {
      ContainsIff(s[1..], t);
      if exists i :: OccursAt(s[1..], t, i) {
        var i :| OccursAt(s[1..], t, i);
        assert s[1..][i..i + |t|] == s[i + 1..i + 1 + |t|];
        assert OccursAt(s, t, i + 1);
      }
      if exists i :: OccursAt(s, t, i) {
        var i :| OccursAt(s, t, i);
        assert i != 0;
        assert s[1..][i - 1..i - 1 + |t|] == s[i..i + |t|];
        assert OccursAt(s[1..], t, i - 1);
      }
    }
  }

  /** Searching the lower-cased string finds exactly the case-folded occurrences. */
  lemma ContainsLowerIff(s: string, t: string)
    ensures Contains(Lower(s), t) <==> exists i :: FoldedAt(s, t, i)
  {
    ContainsIff(Lower(s), t);
    forall i ensures OccursAt(Lower(s), t, i) <==> FoldedAt(s, t, i) {
      if 0 <= i && i + |t| <= |s| {
        if OccursAt(Lower(s), t, i) {
          forall k | 0 <= k < |t| ensures LowerChar(s[i + k]) == t[k] {
            assert Lower(s)[i..i + |t|][k] == t[k];
          }
        }
        if FoldedAt(s, t, i) {
          assert Lower(s)[i..i + |t|] == t;
        }
      }
    }
  }
}
