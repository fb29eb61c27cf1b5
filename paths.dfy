/**
 The POSIX path operations the collectors use on strings:
 `str.rstrip('/')`, `os.path.basename` and two-argument `os.path.join`.
 */
module Paths {

  const Sep: char := '/'

  /** `s.rstrip('/')`: `s` without its trailing separators. */
  function RStrip(s: string): (r: string)
    ensures |r| <= |s| && r == s[..|r|]
    ensures r == [] || r[|r| - 1] != Sep
    ensures forall i | |r| <= i < |s| :: s[i] == Sep
  {
    if s != [] && s[|s| - 1] == Sep then RStrip(s[..|s| - 1]) else s
  }

  /** `os.path.basename(p)`: everything after the last separator. */
  function Basename(p: string): (r: string)
    ensures |r| <= |p| && r == p[|p| - |r|..]
    ensures Sep !in r
    ensures |r| < |p| ==> p[|p| - |r| - 1] == Sep
  {
    if p == [] || p[|p| - 1] == Sep then []
    else Basename(p[..|p| - 1]) + [p[|p| - 1]]
  }

  /** `os.path.join(a, b)`: an absolute `b` replaces `a`; otherwise a
      separator is inserted unless `a` is empty or already ends in one. */
  function Join(a: string, b: string): (r: string)
    ensures |b| <= |r| && b == r[|r| - |b|..]
    ensures b != [] && b[0] == Sep ==> r == b
    ensures (b == [] || b[0] != Sep) ==> |a| <= |r| && a == r[..|a|]
  {
    if b != [] && b[0] == Sep then b
    else if a == [] || a[|a| - 1] == Sep then a + b
    else a + [Sep] + b
  }

  /** Joining a plain file name to a directory gives a path whose last
      component is that file name. */
  lemma JoinedBasename(dir: string, file: string)
    requires file != [] && Sep !in file
    ensures Basename(Join(dir, file)) == file
  {
    var p := Join(dir, file);
    var b := Basename(p);
    assert file[0] != Sep;
    // `b` cannot stop inside `file`, which has no separator
    assert |b| >= |file|;
    // nor reach past it: `file` starts `p` or follows a separator
    assert |b| <= |file| by {
      if |p| > |file| {
        assert p[|p| - |file| - 1] == Sep;
        assert p[|p| - |file| - 1] !in b;
      }
    }
  }

  /** Trailing separators after a path that does not end in one are exactly
      what `rstrip('/')` removes. */
  lemma RStripSeparators(s: string, seps: string)
    requires s == [] || s[|s| - 1] != Sep
    requires forall i | 0 <= i < |seps| :: seps[i] == Sep
    ensures RStrip(s + seps) == s
  {
    var r := RStrip(s + seps);
    assert |r| >= |s| by {
      if s != [] {
        assert (s + seps)[|s| - 1] != Sep;
      }
    }
    assert |r| <= |s|;
  }

  /** The last component of `dir/file` is `file`. */
  lemma BasenameAfterSep(dir: string, file: string)
    requires Sep !in file
    ensures Basename(dir + [Sep] + file) == file
  {
    var p := dir + [Sep] + file;
    var b := Basename(p);
    assert p[|p| - |file|..] == file;
    assert |b| >= |file|;
    assert |b| <= |file| by {
      assert p[|p| - |file| - 1] == Sep;
      assert p[|p| - |file| - 1] !in b;
    }
  }
}
