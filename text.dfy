/**
 * ASCII text helpers used by the suggestion resolver and the catalog tag
 * lookup: `String.prototype.toLowerCase` restricted to the letters A-Z, and
 * `String.prototype.includes` as a plain substring test.
 */
module Text {

  predicate IsUpper(c: char) {
    'A' <= c <= 'Z'
  }

  /** Lower-cases one ASCII capital; every other character is kept. */
  function LowerChar(c: char): (d: char)
    ensures !IsUpper(d)
    ensures IsUpper(c) || d == c
    ensures IsUpper(c) ==> d as int - c as int == 'a' as int - 'A' as int
  {
    if IsUpper(c) then (c as int - 'A' as int + 'a' as int) as char else c
  }

  /** `toLowerCase` on ASCII: the same length, each character lowered on its own. */
  function Lower(s: string): (r: string)
    ensures |r| == |s|
    ensures forall i :: 0 <= i < |s| ==> r[i] == LowerChar(s[i])
  {
    seq(|s|, i requires 0 <= i < |s| => LowerChar(s[i]))
  }

  /** Two strings that differ only in the case of their letters. */
  predicate SameIgnoringCase(p: string, q: string) {
    |p| == |q| && forall i :: 0 <= i < |p| ==> LowerChar(p[i]) == LowerChar(q[i])
  }

  lemma LowerIdempotent(s: string)
    ensures Lower(Lower(s)) == Lower(s)
  {
  }

  lemma LowerIgnoresCase(p: string, q: string)
    ensures SameIgnoringCase(p, q) <==> Lower(p) == Lower(q)
  {
    if Lower(p) == Lower(q) {
      assert |p| == |q|;
      forall i | 0 <= i < |p| ensures LowerChar(p[i]) == LowerChar(q[i]) {
        assert Lower(p)[i] == Lower(q)[i];
      }
    }
  }

  /** Strings whose letters differ at some position, ignoring case, lower-case differently. */
  lemma DiffersAt(a: string, b: string, i: nat)
    requires i < |a| && i < |b| && LowerChar(a[i]) != LowerChar(b[i])
    ensures Lower(a) != Lower(b)
  {
    assert Lower(a)[i] != Lower(b)[i];
  }

  /** Strings of different lengths lower-case differently. */
  lemma DiffersLength(a: string, b: string)
    requires |a| != |b|
    ensures Lower(a) != Lower(b)
  {
    assert |Lower(a)| != |Lower(b)|;
  }

  /** A string with no capital letter is its own lower-case form. */
  lemma LowerKeeps(s: string)
    requires forall i :: 0 <= i < |s| ==> !IsUpper(s[i])
    ensures Lower(s) == s
  {
  }

  /** `sub` sits in `s` starting at position `i`. */
  ghost predicate OccursAt(s: string, sub: string, i: int) {
    0 <= i && i + |sub| <= |s| && s[i..i + |sub|] == sub
  }

  /** `s.includes(sub)`: some position of `s` starts a copy of `sub`. */
  function Contains(s: string, sub: string): (r: bool)
    ensures r <==> exists i :: OccursAt(s, sub, i)
    decreases |s|
  {
    if |sub| > |s| then false
    else if s[..|sub|] == sub then
      assert OccursAt(s, sub, 0); true
    else
      OccursLater(s, sub); Contains(s[1..], sub)
  }

  /** When `sub` is not a prefix of `s`, its occurrences are those in the tail. */
  lemma OccursLater(s: string, sub: string)
    requires |sub| <= |s| && s[..|sub|] != sub
    ensures |s| > 0
    ensures (exists i :: OccursAt(s, sub, i)) <==> (exists j :: OccursAt(s[1..], sub, j))
  {
    forall i | OccursAt(s, sub, i) ensures OccursAt(s[1..], sub, i - 1) {
      assert s[1..][i - 1..i - 1 + |sub|] == s[i..i + |sub|];
    }
    forall j | OccursAt(s[1..], sub, j) ensures OccursAt(s, sub, j + 1) {
      assert s[1..][j..j + |sub|] == s[j + 1..j + 1 + |sub|];
    }
  }

  /** Every character of a contained string appears in the containing one. */
  lemma {:induction false} ContainsChars(s: string, sub: string)
    ensures Contains(s, sub) ==> forall c :: c in sub ==> c in s
  {
    if Contains(s, sub) {
      var i :| OccursAt(s, sub, i);
      forall c | c in sub ensures c in s {
        var k :| 0 <= k < |sub| && sub[k] == c;
        assert s[i + k] == s[i..i + |sub|][k];
      }
    }
  }

  /** Containment is by raw substring: a keyword inside a longer word still counts. */
  lemma ContainsWithin(s: string, sub: string, i: nat)
    requires i + |sub| <= |s| && s[i..i + |sub|] == sub
    ensures Contains(s, sub)
  {
    assert OccursAt(s, sub, i);
  }
}
