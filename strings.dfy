/** The two string operations the station search uses: `toLowerCase` and
    `includes`. */
module Strings {

  /** Lower-cases one character (letters A-Z only). */
  function LowerChar(c: char): char {
    if 'A' <= c <= 'Z' then (c as int + 32) as char else c
  }

  /** `s.toLowerCase()`, character by character. */
  function ToLower(s: string): (r: string)
    ensures |r| == |s|
  {
    if s == [] then [] else [LowerChar(s[0])] + ToLower(s[1..])
  }

  /** `q` occurs in `s` starting at position `i`. */
  ghost predicate OccursAt(s: string, q: string, i: int) {
    0 <= i && i + |q| <= |s| && s[i..i + |q|] == q
  }

  /** `s.includes(q)`: `q` is a prefix of `s` or occurs in its tail. */
  predicate Includes(s: string, q: string)
    decreases |s|
  {
    q <= s || (s != [] && Includes(s[1..], q))
  }

  /** `Includes` holds exactly when `q` occurs at some position of `s`. */
  lemma {:induction false} IncludesIffOccurs(s: string, q: string)
    ensures Includes(s, q) <==> exists i :: OccursAt(s, q, i)
  {
    if Includes(s, q) {
      if q <= s {
        assert s[0..|q|] == q;
        assert OccursAt(s, q, 0);
      } else {
        IncludesIffOccurs(s[1..], q);
        var i :| OccursAt(s[1..], q, i);
        assert s[i + 1..i + 1 + |q|] == s[1..][i..i + |q|];
        assert OccursAt(s, q, i + 1);
      }
    }
    if exists i :: OccursAt(s, q, i) {
      var i :| OccursAt(s, q, i);
      if i == 0 {
        assert q <= s;
      } else {
        assert s[1..][i - 1..i - 1 + |q|] == s[i..i + |q|];
        assert OccursAt(s[1..], q, i - 1);
        IncludesIffOccurs(s[1..], q);
      }
    }
  }

  /** Every string includes the empty string. */
  lemma IncludesEmpty(s: string)
    ensures Includes(s, "")
  {
  }

  /** Lower-casing twice is lower-casing once. */
  lemma {:induction false} ToLowerIdempotent(s: string)
    ensures ToLower(ToLower(s)) == ToLower(s)
  {
    if s != [] {
      ToLowerIdempotent(s[1..]);
      var t := ToLower(s);
      assert t[0] == LowerChar(s[0]) && t[1..] == ToLower(s[1..]);
    }
  }
}
