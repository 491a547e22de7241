/** String operations on route paths: `cleanPath` (which lives in
    src/util/path.js, not part of this model, and is given here the one role
    the route map relies on), the two trailing-slash regular expressions of
    src/util/route.js and src/create-route-map.js, and `String.prototype.indexOf`. */
module Paths {

  /** No two adjacent `/` characters. */
  predicate NoDoubleSlash(s: string) {
    forall i :: 0 <= i < |s| - 1 ==> !(s[i] == '/' && s[i + 1] == '/')
  }

  predicate EndsWithSlash(s: string) {
    |s| > 0 && s[|s| - 1] == '/'
  }

  predicate StartsWithSlash(s: string) {
    |s| > 0 && s[0] == '/'
  }

  /** `cleanPath(path)`: ASSUMED to collapse every run of `/` into a single `/`
      and to change nothing else. */
  function CleanPath(s: string): (r: string)
    ensures NoDoubleSlash(r)
    ensures |r| <= |s|
    ensures |s| > 0 ==> |r| > 0 && r[0] == s[0]
    ensures NoDoubleSlash(s) ==> r == s
    decreases |s|
  {
    if |s| < 2 then s
    else if s[0] == '/' && s[1] == '/' then CleanPath(s[1..])
    else [s[0]] + CleanPath(s[1..])
  }

  /** Cleaning is idempotent: a cleaned path is its own clean form. */
  lemma CleanPathIdempotent(s: string)
    ensures CleanPath(CleanPath(s)) == CleanPath(s)
  {
  }

  /** Joining onto a clean prefix keeps that prefix: a child path built by
      `cleanPath(parent + '/' + child)` begins with the (clean) parent path. */
  lemma {:induction false} CleanPathKeepsPrefix(x: string, y: string)
    requires NoDoubleSlash(x)
    ensures x <= CleanPath(x + y)
    decreases |x|
  {
    if |x| == 0 {
    } else if |x| == 1 {
      assert (x + y)[0] == x[0];
    } else {
      assert (x + y)[1..] == x[1..] + y;
      assert !(x[0] == '/' && x[1] == '/');
      assert NoDoubleSlash(x[1..]);
      CleanPathKeepsPrefix(x[1..], y);
    }
  }

  /** `s.replace(/\/$/, '')`, and also `s.replace(/\/?$/, '')`: remove one
      trailing slash, if there is one. */
  function StripTrailingSlash(s: string): (r: string)
    ensures EndsWithSlash(s) ==> s == r + "/"
    ensures !EndsWithSlash(s) ==> r == s
  {
    if EndsWithSlash(s) then s[..|s| - 1] else s
  }

  /** `s.replace(/\/?$/, '/')`: make sure the string ends with one slash. */
  function EnsureTrailingSlash(s: string): (r: string)
    ensures EndsWithSlash(r)
    ensures r == StripTrailingSlash(s) + "/"
  {
    if EndsWithSlash(s) then s else s + "/"
  }

  /** Appending a slash to a clean path that does not end in one keeps it clean. */
  lemma SlashKeepsClean(x: string)
    requires NoDoubleSlash(x) && !EndsWithSlash(x)
    ensures NoDoubleSlash(x + "/")
  {
    var head := x + "/";
    forall i | 0 <= i < |head| - 1
      ensures !(head[i] == '/' && head[i + 1] == '/')
    {
      if i < |x| - 1 {
        assert head[i] == x[i] && head[i + 1] == x[i + 1];
      }
    }
  }

  /** `cleanPath(x + '/' + p)` under a clean `x`: the result is clean, starts
      with `x` followed by a slash, and is absolute when `x` is. */
  lemma JoinUnderClean(x: string, p: string)
    requires NoDoubleSlash(x)
    ensures var r := CleanPath(x + "/" + p);
      && EnsureTrailingSlash(x) <= r
      && (StartsWithSlash(x) ==> StartsWithSlash(r))
  {
    if EndsWithSlash(x) {
      JoinAfterSlash(x, p);
    } else {
      JoinAddsSlash(x, p);
    }
    var head, r := EnsureTrailingSlash(x), CleanPath(x + "/" + p);
    if StartsWithSlash(x) {
      assert r[0] == head[0] == x[0];
    }
  }

  lemma JoinAfterSlash(x: string, p: string)
    requires NoDoubleSlash(x) && EndsWithSlash(x)
    ensures x <= CleanPath(x + "/" + p) && EnsureTrailingSlash(x) == x
  {
    assert x + "/" + p == x + ("/" + p);
    CleanPathKeepsPrefix(x, "/" + p);
  }

  lemma JoinAddsSlash(x: string, p: string)
    requires NoDoubleSlash(x) && !EndsWithSlash(x)
    ensures x + "/" <= CleanPath(x + "/" + p) && EnsureTrailingSlash(x) == x + "/"
  {
    SlashKeepsClean(x);
    CleanPathKeepsPrefix(x + "/", p);
  }

  /** `t + "/"` is a prefix of `c` with a slash ensured only when `c` is `t`
      itself or lies below `t` at a segment boundary. */
  lemma SlashPrefixAtBoundary(c: string, t: string)
    requires !EndsWithSlash(t)
    requires EnsureTrailingSlash(t) <= EnsureTrailingSlash(c)
    ensures c == t || t + "/" <= c
  {
    var ts := t + "/";
    if !EndsWithSlash(c) {
      var cs := c + "/";
      if |ts| < |cs| {
        assert cs[..|ts|] == c[..|ts|];
      } else {
        assert t == ts[..|t|] == cs[..|c|] == c;
      }
    }
  }

  /** `x` occurs in `s` starting at position `k`. */
  predicate OccursAt(s: string, x: string, k: nat) {
    k + |x| <= |s| && s[k..k + |x|] == x
  }

  /** `s.indexOf(x)`: the first position at which `x` occurs in `s`, or -1. */
  function IndexOf(s: string, x: string): (r: int)
    ensures r == -1 || (r >= 0 && OccursAt(s, x, r))
    ensures r == -1 ==> forall k: nat :: !OccursAt(s, x, k)
    ensures r != -1 ==> forall k: nat :: k < r ==> !OccursAt(s, x, k)
  {
    IndexOfFrom(s, x, 0)
  }

  function IndexOfFrom(s: string, x: string, k: nat): (r: int)
    ensures r == -1 || (k <= r && OccursAt(s, x, r))
    ensures r == -1 ==> forall j: nat :: k <= j ==> !OccursAt(s, x, j)
    ensures r != -1 ==> forall j: nat :: k <= j < r ==> !OccursAt(s, x, j)
    decreases |s| + 1 - k
  {
    if k + |x| > |s| then -1
    else if s[k..k + |x|] == x then k
    else IndexOfFrom(s, x, k + 1)
  }

  /** `s.indexOf(x) === 0` holds exactly when `x` is a prefix of `s`. */
  lemma IndexOfZeroIsPrefix(s: string, x: string)
    ensures IndexOf(s, x) == 0 <==> x <= s
  {
    if x <= s {
      assert s[0..|x|] == x;
    }
  }
}
