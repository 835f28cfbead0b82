/**
 * The string operations the pipeline takes from Python's standard library:
 * POSIX `os.path.join` and `os.path.basename`, `str.lower` (ASCII letters)
 * and `str.endswith`.
 */
module Paths {

  predicate StartsWith(s: string, prefix: string) {
    |prefix| <= |s| && s[..|prefix|] == prefix
  }

  predicate EndsWith(s: string, suffix: string) {
    |suffix| <= |s| && s[|s| - |suffix|..] == suffix
  }

  /** `os.path.join(a, b)` on POSIX: an absolute `b` replaces `a`; a separator is added only when `a` lacks one. */
  function Join(a: string, b: string): (r: string)
    ensures StartsWith(b, "/") ==> r == b
    ensures !StartsWith(b, "/") ==> StartsWith(r, a) && EndsWith(r, b)
    ensures !StartsWith(b, "/") && a != [] && a[|a| - 1] != '/' ==> r == a + "/" + b
    ensures !StartsWith(b, "/") && (a == [] || a[|a| - 1] == '/') ==> r == a + b
  {
    if StartsWith(b, "/") then b
    else if a == [] || a[|a| - 1] == '/' then a + b
    else a + "/" + b
  }

  /** Joining two non-empty relative parts, the first not ending in '/', puts exactly one separator between them. */
  lemma JoinSeparated(a: string, b: string)
    requires a != [] && a[|a| - 1] != '/'
    requires b != [] && b[0] != '/'
    ensures Join(a, b) == a + "/" + b
  {
    assert !StartsWith(b, "/") by { assert b[..1] != "/"; }
  }

  /** `os.path.basename(p)`: everything after the last '/'. */
  function Basename(p: string): (r: string)
    ensures '/' !in r
    ensures EndsWith(p, r)
    ensures |r| < |p| ==> p[|p| - |r| - 1] == '/'
  {
    if p == [] then []
    else if p[|p| - 1] == '/' then []
    else Basename(p[..|p| - 1]) + [p[|p| - 1]]
  }

  /** `str.lower` restricted to the ASCII letters A-Z. */
  function LowerChar(c: char): char {
    if 'A' <= c <= 'Z' then (c as int + 32) as char else c
  }

  function Lower(s: string): (r: string)
    ensures |r| == |s| && forall i :: 0 <= i < |s| ==> r[i] == LowerChar(s[i])
  {
    seq(|s|, i requires 0 <= i < |s| => LowerChar(s[i]))
  }

  /**
   * Lower-casing leaves no ASCII capital behind, keeps every other character,
   * and lower-casing again changes nothing.
   */
  lemma LowerFacts(s: string)
    ensures forall i :: 0 <= i < |s| ==> !('A' <= Lower(s)[i] <= 'Z')
    ensures forall i :: 0 <= i < |s| && !('A' <= s[i] <= 'Z') ==> Lower(s)[i] == s[i]
    ensures Lower(Lower(s)) == Lower(s)
  {
  }

  /**
   * When `b` and `d` contain no '/', the last separator of `a + "/" + b`
   * marks where `b` starts, so the two halves can be recovered.
   */
  lemma SplitAtLastSlash(a: string, b: string, c: string, d: string)
    requires '/' !in b && '/' !in d
    requires a + "/" + b == c + "/" + d
    ensures a == c && b == d
  {
    var x := a + "/" + b;
    assert x[|x| - |b| - 1] == '/';
    assert x[|x| - |d| - 1] == '/';
    assert b == x[|a| + 1..] == d;
    assert a == x[..|a|] == c;
  }
}
