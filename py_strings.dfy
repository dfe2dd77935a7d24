/** The two Python string operations the plugin relies on when it resolves a
    source location: the substring test `sub in s` and `s.strip(c)` with a
    one-character argument. */
module PyStrings {

  /** `sub` occurs in `s` starting at index `i`. */
  predicate OccursAt(s: string, sub: string, i: int) {
    0 <= i <= |s| - |sub| && s[i..i + |sub|] == sub
  }

  /** Python's `sub in s` on strings: `sub` occurs at some position of `s`. */
  predicate Contains(s: string, sub: string) {
    exists i | 0 <= i <= |s| - |sub| :: OccursAt(s, sub, i)
  }

  /** Python's `s.lstrip(c)`: drops every leading `c`. */
  function LStrip(s: string, c: char): (r: string)
    ensures |r| <= |s| && r == s[|s| - |r|..]
    ensures forall k :: 0 <= k < |s| - |r| ==> s[k] == c
    ensures r == [] || r[0] != c
  {
    if s != [] && s[0] == c then LStrip(s[1..], c) else s
  }

  /** Python's `s.rstrip(c)`: drops every trailing `c`. */
  function RStrip(s: string, c: char): (r: string)
    ensures |r| <= |s| && r == s[..|r|]
    ensures forall k :: |r| <= k < |s| ==> s[k] == c
    ensures r == [] || r[|r| - 1] != c
  {
    if s != [] && s[|s| - 1] == c then RStrip(s[..|s| - 1], c) else s
  }

  /** `r` is the slice `s[i..j]`, every character of `s` outside that slice is
      `c`, and `r` neither starts nor ends with `c`. */
  ghost predicate StripsTo(s: string, c: char, i: int, j: int, r: string) {
    && 0 <= i <= j <= |s|
    && r == s[i..j]
    && (forall k :: 0 <= k < i ==> s[k] == c)
    && (forall k :: j <= k < |s| ==> s[k] == c)
    && (r == [] || (r[0] != c && r[|r| - 1] != c))
  }

  /** Declarative meaning of `s.strip(c)`: the longest run of `s` that is
      surrounded only by `c` characters and neither starts nor ends with one. */
  ghost predicate IsStripOf(s: string, c: char, r: string) {
    exists i, j :: StripsTo(s, c, i, j, r)
  }

  /** Python's `s.strip(c)`: removes every leading and every trailing `c`,
      not just one enclosing pair. */
  function Strip(s: string, c: char): (r: string)
    ensures IsStripOf(s, c, r)
  {
    var left := LStrip(s, c);
    var r := RStrip(left, c);
    assert StripsTo(s, c, |s| - |left|, |s| - |left| + |r|, r) by {
      assert left[..|r|] == s[|s| - |left|..|s| - |left| + |r|];
      forall k | |s| - |left| + |r| <= k < |s| ensures s[k] == c {
        assert s[k] == left[k - (|s| - |left|)];
      }
    }
    r
  }

  /** At most one string is a strip of `s`. */
  lemma StripsToUnique(s: string, c: char, i1: int, j1: int, r1: string, i2: int, j2: int, r2: string)
    requires StripsTo(s, c, i1, j1, r1) && StripsTo(s, c, i2, j2, r2)
    ensures r1 == r2
  {
    if r1 != [] && r2 != [] {
      // both start at the first non-`c` character and end after the last one
      assert s[i1] == r1[0] && s[i2] == r2[0];
      assert i1 == i2;
      assert s[j1 - 1] == r1[|r1| - 1] && s[j2 - 1] == r2[|r2| - 1];
      assert j1 == j2;
    }
  }

  /** `Strip` computes exactly the declarative strip: it is a strip of `s`, and
      any string that is a strip of `s` is the one `Strip` returns. */
  lemma StripCharacterized(s: string, c: char, r: string)
    ensures IsStripOf(s, c, r) <==> r == Strip(s, c)
  {
    if IsStripOf(s, c, r) {
      var i1, j1 :| StripsTo(s, c, i1, j1, r);
      var i2, j2 :| StripsTo(s, c, i2, j2, Strip(s, c));
      StripsToUnique(s, c, i1, j1, r, i2, j2, Strip(s, c));
    }
  }

  /** Stripping twice is stripping once. */
  lemma StripIdempotent(s: string, c: char)
    ensures Strip(Strip(s, c), c) == Strip(s, c)
  {
    var r := Strip(s, c);
    var i, j :| StripsTo(s, c, i, j, r);
    assert StripsTo(r, c, 0, |r|, r);
    StripCharacterized(r, c, r);
  }

  /** A string that neither starts nor ends with `c` is left as it is. */
  lemma StripUnquoted(s: string, c: char)
    requires s == [] || (s[0] != c && s[|s| - 1] != c)
    ensures Strip(s, c) == s
  {
    assert StripsTo(s, c, 0, |s|, s);
    StripCharacterized(s, c, s);
  }
}
