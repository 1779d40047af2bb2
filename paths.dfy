/**
 * POSIX `os.path` as the source uses it: `basename`, `dirname`, two-argument
 * `join`, and the extension part of `splitext`.
 */
module Paths {

  /** `p.rfind('/') + 1`: where the last component starts. */
  function TailStart(p: string): (k: nat)
    ensures k <= |p|
    ensures k > 0 ==> p[k - 1] == '/'
    ensures forall i :: k <= i < |p| ==> p[i] != '/'
  {
    if p == [] then 0
    else if p[|p| - 1] == '/' then |p|
    else TailStart(p[..|p| - 1])
  }

  function Basename(p: string): (b: string)
    ensures '/' !in b
  {
    p[TailStart(p)..]
  }

  predicate AllSlashes(s: string) {
    forall i :: 0 <= i < |s| ==> s[i] == '/'
  }

  function RStripSlashes(s: string): string {
    if s != [] && s[|s| - 1] == '/' then RStripSlashes(s[..|s| - 1]) else s
  }

  /** The head up to the last '/', with trailing slashes removed unless it is all slashes. */
  function Dirname(p: string): string {
    var head := p[..TailStart(p)];
    if head != [] && !AllSlashes(head) then RStripSlashes(head) else head
  }

  /** `os.path.join(a, b)`. */
  function Join(a: string, b: string): string {
    if b != [] && b[0] == '/' then b
    else if a == [] || a[|a| - 1] == '/' then a + b
    else a + "/" + b
  }

  /** Index of the last '.' of `s`, or -1. */
  function LastDot(s: string): (k: int)
    ensures -1 <= k < |s|
    ensures k >= 0 ==> s[k] == '.'
    ensures forall i :: k < i < |s| ==> s[i] != '.'
  {
    if s == [] then -1
    else if s[|s| - 1] == '.' then |s| - 1
    else LastDot(s[..|s| - 1])
  }

  predicate HasNonDotBefore(s: string, k: int)
    requires k <= |s|
  {
    exists j :: 0 <= j < k && s[j] != '.'
  }

  /**
   * `os.path.splitext(p)[1]`: from the last '.' of the last component, unless
   * only dots precede that '.' in the component (a hidden file has no extension).
   */
  function Extension(p: string): (e: string)
    ensures '/' !in e
    ensures e != [] ==> e[0] == '.' && forall i :: 1 <= i < |e| ==> e[i] != '.'
    ensures |e| <= |Basename(p)| && Basename(p)[|Basename(p)| - |e|..] == e
  {
    var b := Basename(p);
    var d := LastDot(b);
    if d > 0 && HasNonDotBefore(b, d) then b[d..] else ""
  }

  /** `os.path.splitext(os.path.basename(p))[0]`: the last component without its extension. */
  function Stem(p: string): (s: string)
    ensures s + Extension(p) == Basename(p)
  {
    var b, e := Basename(p), Extension(p);
    var s := b[..|b| - |e|];
    assert b == s + b[|b| - |e|..];
    s
  }

  // ---------------------------------------------------------------- lemmas

  /** What `dirname` can return: nothing, only slashes, or a path not ending in '/'. */
  predicate DirShape(d: string) {
    d == [] || AllSlashes(d) || d[|d| - 1] != '/'
  }

  lemma {:induction false} RStripNotAllSlashes(s: string)
    requires !AllSlashes(s)
    ensures RStripSlashes(s) != [] && RStripSlashes(s)[|RStripSlashes(s)| - 1] != '/'
  {
    if s != [] && s[|s| - 1] == '/' {
      RStripNotAllSlashes(s[..|s| - 1]);
    }
  }

  lemma DirnameShape(p: string)
    ensures DirShape(Dirname(p))
  {
    var head := p[..TailStart(p)];
    if head != [] && !AllSlashes(head) {
      RStripNotAllSlashes(head);
    }
  }

  lemma TailStartAfter(s: string, x: string)
    requires s == [] || s[|s| - 1] == '/'
    requires '/' !in x
    ensures TailStart(s + x) == |s|
  {
    var p := s + x;
    if s != [] {
      assert p[|s| - 1] == '/';
    }
    assert forall i :: |s| <= i < |p| ==> p[i] == x[i - |s|];
  }

  /** Joining a directory with a plain file name: the file name is the basename, the directory the dirname. */
  lemma JoinPlainName(d: string, x: string)
    requires DirShape(d)
    requires '/' !in x
    ensures Basename(Join(d, x)) == x
    ensures Dirname(Join(d, x)) == d
  {
    if d == [] {
      assert Join(d, x) == [] + x;
      TailStartAfter([], x);
    } else if d[|d| - 1] == '/' {
      assert Join(d, x) == d + x;
      TailStartAfter(d, x);
      assert (d + x)[..|d|] == d;
    } else {
      var s := d + "/";
      assert Join(d, x) == s + x;
      TailStartAfter(s, x);
      assert (s + x)[..|s|] == s;
      assert s[..|s| - 1] == d;
      assert !AllSlashes(s) by { assert s[|d| - 1] != '/'; }
      assert RStripSlashes(s) == RStripSlashes(d) == d;
    }
  }
}
