/** The two string operations the views rely on: `toLowerCase`, restricted
    to ASCII letters, and `includes`. */
module Text {

  predicate IsUpper(c: char) { 'A' <= c <= 'Z' }

  /** ASCII lower-casing of one character. */
  function Lower(c: char): (d: char)
    ensures !IsUpper(d)
    ensures IsUpper(c) ==> d as int == c as int + 32
    ensures !IsUpper(c) ==> d == c
  {
    if IsUpper(c) then (c as int + 32) as char else c
  }

  /** `s.toLowerCase()` over ASCII. */
  function LowerStr(s: string): (r: string)
    ensures |r| == |s|
    ensures forall i :: 0 <= i < |s| ==> r[i] == Lower(s[i])
  {
    seq(|s|, i requires 0 <= i < |s| => Lower(s[i]))
  }

  lemma LowerStrIdempotent(s: string)
    ensures LowerStr(LowerStr(s)) == LowerStr(s)
  {
  }

  /** `q` occurs in `s` starting at offset `i`. */
  predicate OccursAt(s: string, q: string, i: int)
  {
    0 <= i && i + |q| <= |s| && s[i..i + |q|] == q
  }

  /** `s.includes(q)`: scan the offsets of `s` from left to right. */
  function Includes(s: string, q: string): (b: bool)
    ensures b ==> |q| <= |s|
    ensures q == [] ==> b
    decreases |s|
  {
    (|q| <= |s| && s[..|q|] == q) || (|s| > 0 && Includes(s[1..], q))
  }

  /** `Includes` holds exactly when some offset of `s` starts a copy of `q`. */
  lemma {:induction false} IncludesIffOccurs(s: string, q: string)
    ensures Includes(s, q) <==> exists i :: OccursAt(s, q, i)
    decreases |s|
  {
    if |s| == 0 {
      if Includes(s, q) {
        assert OccursAt(s, q, 0);
      }
      if exists i :: OccursAt(s, q, i) {
        var i :| OccursAt(s, q, i);
        assert q == s[i..i + |q|] == [];
        assert s[..|q|] == q;
      }
    } else {
      IncludesIffOccurs(s[1..], q);
      if Includes(s, q) {
        if |q| <= |s| && s[..|q|] == q {
          assert OccursAt(s, q, 0);
        } else {
          var i :| OccursAt(s[1..], q, i);
          assert s[1..][i..i + |q|] == s[i + 1..i + 1 + |q|];
          assert OccursAt(s, q, i + 1);
        }
      }
      if exists i :: OccursAt(s, q, i) {
        var i :| OccursAt(s, q, i);
        if i > 0 {
          assert s[1..][i - 1..i - 1 + |q|] == s[i..i + |q|];
          assert OccursAt(s[1..], q, i - 1);
        }
      }
    }
  }

  /** Every string includes the empty string. */
  lemma IncludesEmpty(s: string)
    ensures Includes(s, "")
  {
    assert OccursAt(s, "", 0);
    IncludesIffOccurs(s, "");
  }

  /** The case-insensitive containment test every filter applies:
      `name.toLowerCase().includes(query.toLowerCase())`. */
  function Matches(name: string, query: string): (b: bool)
    ensures b ==> |query| <= |name|
  {
    Includes(LowerStr(name), LowerStr(query))
  }

  /** The test ignores case on both sides, and any name matches the empty query. */
  lemma MatchesIgnoresCase(name: string, query: string)
    ensures Matches(name, query) == Matches(LowerStr(name), LowerStr(query))
    ensures Matches(name, "")
  {
    LowerStrIdempotent(name);
    LowerStrIdempotent(query);
    IncludesEmpty(LowerStr(name));
  }
}
