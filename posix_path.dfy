/** The two `os.path` operations the config reader uses, as POSIX Python
    defines them. */
module PosixPath {
  import opened PyStr

  /** `os.path.join(a, b)`: an absolute `b` replaces `a`; otherwise a `/` is
      inserted unless `a` is empty or already ends in one. */
  function Join(a: string, b: string): (r: string)
    ensures EndsWith(r, b)
    ensures !StartsWith(b, "/") ==> StartsWith(r, a)
    ensures StartsWith(b, "/") ==> r == b
    ensures !StartsWith(b, "/") ==> |r| == |a| + |b| + (if a == [] || EndsWith(a, "/") then 0 else 1)
    ensures !StartsWith(b, "/") && a != [] && |r| > |a| + |b| ==> r[|a|] == '/'
  {
    if StartsWith(b, "/") then b
    else if a == [] || EndsWith(a, "/") then
      assert (a + b)[|a + b| - |b|..] == b;
      assert (a + b)[..|a|] == a;
      a + b
    else
      assert (a + "/" + b)[|a + "/" + b| - |b|..] == b;
      assert (a + "/" + b)[..|a|] == a;
      a + "/" + b
  }

  /** `os.path.split(p)[1]`: everything after the last `/`. */
  function Basename(p: string): (r: string)
    ensures '/' !in r
    ensures EndsWith(p, r)
    ensures |r| < |p| ==> p[|p| - |r| - 1] == '/'
    ensures '/' !in p ==> r == p
    decreases |p|
  {
    if p == [] || p[|p| - 1] == '/' then []
    else
      var r := Basename(p[..|p| - 1]) + [p[|p| - 1]];
      assert p == p[..|p| - 1] + [p[|p| - 1]];
      r
  }
}
