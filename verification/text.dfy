/**
 * The JavaScript string operations the components rely on: `startsWith`,
 * `includes`, truthiness of an optional string, the `${base}/${path}` join
 * and `split(c)[0]`. Strings are sequences of characters; comparisons are
 * case-sensitive, as in JavaScript.
 */
module Text {
  import opened Wrappers

  /** `s.startsWith(p)` */
  predicate StartsWith(s: string, p: string)
  {
    |p| <= |s| && s[..|p|] == p
  }

  /** `s.includes(p)`, defined by scanning the start positions of `s` left to right. */
  predicate Includes(s: string, p: string)
    decreases |s|
  {
    StartsWith(s, p) || (|s| > 0 && Includes(s[1..], p))
  }

  /** `p` occurs in `s` at index `i`. */
  ghost predicate OccursAt(s: string, p: string, i: int)
  {
    0 <= i && i + |p| <= |s| && s[i..i + |p|] == p
  }

  /** The scanning definition of `Includes` agrees with "occurs at some index". */
  lemma {:induction false} IncludesIffOccurs(s: string, p: string)
    ensures Includes(s, p) <==> exists i :: OccursAt(s, p, i)
    decreases |s|
  {
    if StartsWith(s, p) {
      assert OccursAt(s, p, 0);
    } else if |s| == 0 {
    } else {
      IncludesIffOccurs(s[1..], p);
      if Includes(s[1..], p) {
        var j :| OccursAt(s[1..], p, j);
        assert s[1..][j..j + |p|] == s[j + 1..j + 1 + |p|];
        assert OccursAt(s, p, j + 1);
      }
      if exists i :: OccursAt(s, p, i) {
        var i :| OccursAt(s, p, i);
        assert i != 0;
        assert s[1..][i - 1..i - 1 + |p|] == s[i..i + |p|];
        assert OccursAt(s[1..], p, i - 1);
      }
    }
  }

  /** An occurrence at a known index makes `includes` true. */
  lemma IncludesAt(s: string, p: string, i: int)
    requires OccursAt(s, p, i)
    ensures Includes(s, p)
  {
    IncludesIffOccurs(s, p);
  }

  /** Anything that contains `q` contains every substring of `q`. */
  lemma IncludesTransitive(s: string, q: string, p: string)
    requires Includes(s, q) && Includes(q, p)
    ensures Includes(s, p)
  {
    IncludesIffOccurs(s, q);
    IncludesIffOccurs(q, p);
    var i :| OccursAt(s, q, i);
    var j :| OccursAt(q, p, j);
    forall k | 0 <= k < |p|
      ensures s[i + j + k] == p[k]
    {
      assert q[j + k] == p[k];
      assert s[i + (j + k)] == q[j + k];
    }
    assert s[i + j..i + j + |p|] == p;
    IncludesAt(s, p, i + j);
  }

  /** A string that starts with `p` includes `p`. */
  lemma IncludesPrefix(s: string, p: string)
    requires StartsWith(s, p)
    ensures Includes(s, p)
  {
  }

  /** JavaScript truthiness of an optional string: neither absent nor empty. */
  predicate Truthy(o: Option<string>)
  {
    o.Some? && o.value != ""
  }

  /** JavaScript truthiness of an optional number: neither absent nor zero. */
  predicate TruthyNumber(o: Option<int>)
  {
    o.Some? && o.value != 0
  }

  /**
   * `${base}/${path}`: plain concatenation around a single slash, with no
   * normalisation of slashes already present in either part.
   */
  function JoinPath(base: string, path: string): (r: string)
    ensures |r| == |base| + 1 + |path|
    ensures StartsWith(r, base) && r[|base|] == '/' && r[|base| + 1..] == path
  {
    base + "/" + path
  }

  /** `s.slice(1)`: everything after the first character (empty stays empty). */
  function DropFirst(s: string): (r: string)
    ensures |s| > 0 ==> r == s[1..]
    ensures |s| == 0 ==> r == ""
  {
    if |s| == 0 then s else s[1..]
  }

  /** `s.split(c)[0]`: the longest prefix of `s` free of `c`. */
  function CutAt(s: string, c: char): (r: string)
    ensures |r| <= |s| && r == s[..|r|]
    ensures c !in r
    ensures |r| < |s| ==> s[|r|] == c
    decreases |s|
  {
    if |s| == 0 then ""
    else if s[0] == c then ""
    else [s[0]] + CutAt(s[1..], c)
  }

  /** Cutting a string with no `c` in it returns the whole string. */
  lemma CutAtNoSeparator(s: string, c: char)
    requires c !in s
    ensures CutAt(s, c) == s
  {
  }
}
