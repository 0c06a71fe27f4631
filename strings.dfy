/** The two java.lang.String operations the tick hook relies on:
    `contains` (substring search) and `toLowerCase`. */
module JavaStrings {

  /** Specification of substring containment: `sub` occurs in `s` at some offset. */
  ghost predicate IsSubstring(sub: string, s: string)
  {
    exists i :: OccursAt(sub, s, i)
  }

  /** `sub` occurs in `s` starting at index `i`. */
  predicate OccursAt(sub: string, s: string, i: int)
  {
    0 <= i <= |s| - |sub| && s[i..i + |sub|] == sub
  }

  predicate StartsWith(s: string, prefix: string)
  {
    |prefix| <= |s| && s[..|prefix|] == prefix
  }

  /** `s.contains(sub)`: true when `sub` occurs in `s`; the empty string occurs everywhere. */
  function Contains(s: string, sub: string): (r: bool)
    ensures r <==> IsSubstring(sub, s)
    decreases |s|
  {
    if StartsWith(s, sub) then
      assert OccursAt(sub, s, 0);
      true
    else if |s| == 0 then
      false
    else
      SubstringOfTail(s, sub);
      Contains(s[1..], sub)
  }

  /** When `sub` is not a prefix of a non-empty `s`, it occurs in `s` exactly when it
      occurs in the tail of `s`. */
  lemma SubstringOfTail(s: string, sub: string)
    requires |s| > 0 && !StartsWith(s, sub)
    ensures IsSubstring(sub, s) <==> IsSubstring(sub, s[1..])
  {
    if IsSubstring(sub, s) {
      var i :| OccursAt(sub, s, i);
      assert i != 0;
      assert OccursAt(sub, s[1..], i - 1);
    }
    if IsSubstring(sub, s[1..]) {
      var i :| OccursAt(sub, s[1..], i);
      assert OccursAt(sub, s, i + 1);
    }
  }

  /** A string is a substring of itself. */
  lemma SubstringOfSelf(s: string)
    ensures IsSubstring(s, s)
  {
    assert OccursAt(s, s, 0);
  }

  /** Substring is transitive: an occurrence of `outer` carries every occurrence inside it. */
  lemma {:induction false} SubstringTransitive(inner: string, outer: string, s: string)
    requires IsSubstring(inner, outer) && IsSubstring(outer, s)
    ensures IsSubstring(inner, s)
  {
    var j :| OccursAt(inner, outer, j);
    var i :| OccursAt(outer, s, i);
    forall k | 0 <= k < |inner|
      ensures s[i + j..i + j + |inner|][k] == inner[k]
    {
      assert inner[k] == outer[j + k] == s[i + j + k];
    }
    assert OccursAt(inner, s, i + j);
  }

  predicate IsUpper(c: char)
  {
    'A' <= c <= 'Z'
  }

  /** Lower-cases one character; only the letters A-Z have a lower-case form here. */
  function LowerChar(c: char): (r: char)
    ensures !IsUpper(r)
    ensures IsUpper(c) ==> r as int == c as int + 32
    ensures !IsUpper(c) ==> r == c
  {
    if IsUpper(c) then (c as int + 32) as char else c
  }

  /** `s.toLowerCase()`: same length, every letter A-Z replaced by its lower-case form,
      everything else kept. */
  function ToLower(s: string): (r: string)
    ensures |r| == |s|
    ensures forall i :: 0 <= i < |s| ==> r[i] == LowerChar(s[i])
  {
    if s == [] then [] else [LowerChar(s[0])] + ToLower(s[1..])
  }

  /** Lower-casing is idempotent: a lower-cased name is its own lower-case form. */
  lemma ToLowerIdempotent(s: string)
    ensures ToLower(ToLower(s)) == ToLower(s)
  {
  }

  /** Lower-casing keeps every occurrence of a string that has no upper-case letters. */
  lemma LowerSubstringSurvivesToLower(sub: string, s: string)
    requires forall k :: 0 <= k < |sub| ==> !IsUpper(sub[k])
    requires IsSubstring(sub, s)
    ensures IsSubstring(sub, ToLower(s))
  {
    var i :| OccursAt(sub, s, i);
    forall k | 0 <= k < |sub| ensures ToLower(s)[i + k] == sub[k] {
      assert s[i + k] == sub[k];
    }
    assert ToLower(s)[i..i + |sub|] == sub;
    assert OccursAt(sub, ToLower(s), i);
  }
}
