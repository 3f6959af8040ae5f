/** The two string tests the middleware relies on: Python's substring test
    `sub in s` and `s.startswith(p)`, each proved against a declarative
    definition. */
module Text {

  /** `sub` occurs in `s` at offset `i`. */
  ghost predicate OccursAt(sub: string, s: string, i: int)
  {
    0 <= i && i + |sub| <= |s| && s[i..i + |sub|] == sub
  }

  /** `sub` occurs somewhere in `s` (the empty string occurs everywhere). */
  ghost predicate IsSubstring(sub: string, s: string)
  {
    exists i :: OccursAt(sub, s, i)
  }

  /** `p` is a prefix of `s`. */
  ghost predicate IsPrefix(p: string, s: string)
  {
    |p| <= |s| && s[..|p|] == p
  }

  /** `s.startswith(p)`. */
  function StartsWith(s: string, p: string): (r: bool)
    ensures r <==> IsPrefix(p, s)
  {
    if p == [] then true
    else if s == [] then false
    else s[0] == p[0] && StartsWith(s[1..], p[1..])
  }

  /** Dropping the first character of `s` moves every occurrence after offset 0 one place left. */
  lemma {:induction false} OccursAfterFirst(sub: string, s: string)
    requires s != [] && !OccursAt(sub, s, 0)
    ensures IsSubstring(sub, s) <==> IsSubstring(sub, s[1..])
  {
    if IsSubstring(sub, s) {
      var i :| OccursAt(sub, s, i);
      assert i != 0;
      assert s[1..][i - 1..i - 1 + |sub|] == s[i..i + |sub|];
      assert OccursAt(sub, s[1..], i - 1);
    }
    if IsSubstring(sub, s[1..]) {
      var j :| OccursAt(sub, s[1..], j);
      assert s[1..][j..j + |sub|] == s[j + 1..j + 1 + |sub|];
      assert OccursAt(sub, s, j + 1);
    }
  }

  /** `sub in s`. */
  function Contains(s: string, sub: string): (r: bool)
    ensures r <==> IsSubstring(sub, s)
    decreases |s|
  {
    if |sub| > |s| then
      false
    else if StartsWith(s, sub) then
      assert OccursAt(sub, s, 0);
      true
    else
      OccursAfterFirst(sub, s);
      Contains(s[1..], sub)
  }

  /** Text placed around an occurrence keeps it an occurrence. */
  lemma {:induction false} SubstringOfConcat(pre: string, sub: string, post: string)
    ensures IsSubstring(sub, pre + sub + post)
  {
    var s := pre + sub + post;
    assert s[|pre|..|pre| + |sub|] == sub;
    assert OccursAt(sub, s, |pre|);
  }
}
