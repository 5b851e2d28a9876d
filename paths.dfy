/**
 * The three functions of Python's `posixpath` that the load dialog code
 * uses: `dirname`, `basename` and `join` (with two arguments).
 */
module Paths {
  import opened Text

  predicate AllSlashes(s: String) {
    forall k :: 0 <= k < |s| ==> s[k] == '/'
  }

  /** `p.rfind('/') + 1`: the index just after the last slash, 0 when there is none. */
  function AfterLastSlash(p: String): (i: nat)
    ensures i <= |p|
    ensures '/' !in p[i..]
    ensures i > 0 ==> p[i - 1] == '/'
    ensures '/' !in p ==> i == 0
  {
    if p == [] then 0
    else if p[|p| - 1] == '/' then |p|
    else
      var i := AfterLastSlash(p[..|p| - 1]);
      assert p[i..] == p[..|p| - 1][i..] + [p[|p| - 1]];
      i
  }

  /** `s.rstrip('/')`. */
  function TrimRightSlashes(s: String): (r: String)
    ensures r <= s
    ensures r != [] ==> r[|r| - 1] != '/'
    ensures forall k :: |r| <= k < |s| ==> s[k] == '/'
  {
    if s != [] && s[|s| - 1] == '/' then TrimRightSlashes(s[..|s| - 1]) else s
  }

  /** A directory that `dirname` can return: empty, only slashes, or not ending in a slash. */
  predicate CanonicalDir(d: String) {
    d == [] || d[|d| - 1] != '/' || AllSlashes(d)
  }

  /** `os.path.basename(p)`: what follows the last slash. */
  function Basename(p: String): (r: String)
    ensures '/' !in r
    ensures |r| <= |p| && r == p[|p| - |r|..]
  {
    p[AfterLastSlash(p)..]
  }

  /**
   * `os.path.dirname(p)`: everything up to the last slash, with the
   * trailing slashes removed unless nothing but slashes is left.
   */
  function Dirname(p: String): (r: String)
    ensures r <= p
    ensures CanonicalDir(r)
  {
    var head := p[..AfterLastSlash(p)];
    if head != [] && !AllSlashes(head) then TrimRightSlashes(head) else head
  }

  /** `os.path.join(a, b)`. */
  function PathJoin(a: String, b: String): String {
    if StartsWith(b, "/") then b
    else if a == [] || a[|a| - 1] == '/' then a + b
    else a + "/" + b
  }

  lemma {:induction false} AfterLastSlashAppend(x: String, n: String)
    requires x != [] && x[|x| - 1] == '/'
    requires '/' !in n
    ensures AfterLastSlash(x + n) == |x|
  {
    if n == [] {
      assert x + n == x;
    } else {
      var p := x + n;
      assert p[..|p| - 1] == x + n[..|n| - 1];
      assert p[|p| - 1] == n[|n| - 1];
      AfterLastSlashAppend(x, n[..|n| - 1]);
    }
  }

  /**
   * A file name without slashes joined to a directory that `dirname` could
   * have produced splits back into that directory and that name.
   */
  lemma DirnameBasenameOfJoin(d: String, n: String)
    requires CanonicalDir(d)
    requires '/' !in n
    ensures Dirname(PathJoin(d, n)) == d
    ensures Basename(PathJoin(d, n)) == n
  {
    assert !StartsWith(n, "/") by {
      if n != [] { assert n[0] in n; }
    }
    if d == [] {
      assert PathJoin(d, n) == n;
      assert AfterLastSlash(n) == 0;
    } else if d[|d| - 1] == '/' {
      AfterLastSlashAppend(d, n);
      assert (d + n)[..|d|] == d;
    } else {
      var x := d + "/";
      assert PathJoin(d, n) == x + n;
      AfterLastSlashAppend(x, n);
      assert (x + n)[..|x|] == x;
      assert !AllSlashes(x) by {
        assert x[|d| - 1] != '/';
      }
      assert x[..|x| - 1] == d;
    }
  }

  /** A path whose directory is canonical is rebuilt by joining its directory and its base name. */
  lemma DirnameOfRejoin(p: String)
    ensures Dirname(PathJoin(Dirname(p), Basename(p))) == Dirname(p)
    ensures Basename(PathJoin(Dirname(p), Basename(p))) == Basename(p)
  {
    DirnameBasenameOfJoin(Dirname(p), Basename(p));
  }
}
