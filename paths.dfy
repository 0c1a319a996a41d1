/** The POSIX `os.path` operations the pipeline uses to lay out its files. */
module Paths {

  /** `os.path.join(a, b)` on POSIX: an absolute `b` replaces `a`; otherwise a single
      separator is inserted unless `a` is empty or already ends with one. */
  function Join(a: string, b: string): string
  {
    if |b| > 0 && b[0] == '/' then b
    else if a == "" || a[|a| - 1] == '/' then a + b
    else a + "/" + b
  }

  /** A join ends with its second component, starts with its first unless the second
      is absolute, and is their concatenation around one separator when neither
      supplies one. */
  lemma JoinShape(a: string, b: string)
    ensures |Join(a, b)| >= |b| && Join(a, b)[|Join(a, b)| - |b|..] == b
    ensures (b == "" || b[0] != '/') ==> |Join(a, b)| >= |a| && Join(a, b)[..|a|] == a
    ensures (a != "" && a[|a| - 1] != '/' && (b == "" || b[0] != '/')) ==> Join(a, b) == a + "/" + b
  {
  }

  /** `os.path.abspath(p)` relative to the working directory `cwd` (without normalisation). */
  function AbsPath(cwd: string, p: string): (r: string)
    ensures (|p| > 0 && p[0] == '/') ==> r == p
  {
    Join(cwd, p)
  }

  /** Index just after the last `/` of `p`, or 0 when `p` has none. */
  function BaseStart(p: string): (i: nat)
    ensures i <= |p|
    ensures i > 0 ==> p[i - 1] == '/'
    ensures forall k :: i <= k < |p| ==> p[k] != '/'
  {
    if p == [] then 0
    else if p[|p| - 1] == '/' then |p|
    else BaseStart(p[..|p| - 1])
  }

  /** `os.path.basename(p)`: everything after the last separator. */
  function Basename(p: string): string
  {
    p[BaseStart(p)..]
  }

  predicate AllSlashes(s: string)
  {
    forall k :: 0 <= k < |s| ==> s[k] == '/'
  }

  /** `s.rstrip('/')`. */
  function StripTrailingSlashes(s: string): (r: string)
    ensures r <= s
    ensures r == "" || r[|r| - 1] != '/'
    ensures AllSlashes(s[|r|..])
  {
    if s == [] || s[|s| - 1] != '/' then s
    else StripTrailingSlashes(s[..|s| - 1])
  }

  /** `os.path.dirname(p)` on POSIX: the head up to the last separator, with trailing
      separators removed unless the head consists of separators only. */
  function Dirname(p: string): string
  {
    var head := p[..BaseStart(p)];
    if head != "" && !AllSlashes(head) then StripTrailingSlashes(head) else head
  }

  /** `name.split('.')[0]`: the part of `name` before its first dot. */
  function Stem(name: string): (r: string)
    ensures r <= name
    ensures '.' !in r
    ensures |r| < |name| ==> name[|r|] == '.'
  {
    if name == [] || name[0] == '.' then [] else [name[0]] + Stem(name[1..])
  }

  /** The basename carries no separator, and the path is its directory part followed by it. */
  lemma BasenameSplits(p: string)
    ensures '/' !in Basename(p)
    ensures p == p[..BaseStart(p)] + Basename(p)
    ensures BaseStart(p) == 0 || p[BaseStart(p) - 1] == '/'
  {
  }

  /** Nothing after a separator (or the start) has a separator: the basename starts there. */
  lemma {:induction false} BaseStartAfter(x: string, b: string)
    requires x == "" || x[|x| - 1] == '/'
    requires '/' !in b
    ensures BaseStart(x + b) == |x|
  {
    if b == [] {
      assert x + b == x;
    } else {
      var p := x + b;
      assert p[|p| - 1] == b[|b| - 1];
      assert p[..|p| - 1] == x + b[..|b| - 1];
      BaseStartAfter(x, b[..|b| - 1]);
    }
  }

  /** The basename of a join with a component that carries no separator is that component. */
  lemma BasenameJoin(a: string, b: string)
    requires '/' !in b
    ensures Basename(Join(a, b)) == b
  {
    if a == "" || a[|a| - 1] == '/' {
      BaseStartAfter(a, b);
    } else {
      assert a + "/" + b == (a + "/") + b;
      BaseStartAfter(a + "/", b);
    }
  }

  /** The directory of a path is empty exactly when the path has no separator at all. */
  lemma DirnameEmptyIff(p: string)
    ensures Dirname(p) == "" <==> '/' !in p
  {
    var i := BaseStart(p);
    var head := p[..i];
    if '/' in p {
      var k :| 0 <= k < |p| && p[k] == '/';
      assert i > k;
      assert head != "";
    }
  }

  /** A join ends with the last character of a non-empty second component. */
  lemma JoinLast(a: string, b: string)
    requires b != ""
    ensures |Join(a, b)| > 0 && Join(a, b)[|Join(a, b)| - 1] == b[|b| - 1]
  {
    var r := Join(a, b);
    if !(b[0] == '/') && !(a == "" || a[|a| - 1] == '/') {
      assert r == (a + "/") + b;
    }
  }

  /** Two joins onto the same directory that end in different characters are different paths. */
  lemma JoinEndsWith(a: string, b: string, c: string)
    requires b != "" && c != "" && b[|b| - 1] != c[|c| - 1]
    ensures Join(a, b) != Join(a, c)
  {
    JoinLast(a, b);
    JoinLast(a, c);
  }
}
