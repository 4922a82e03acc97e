/**
 * The three `os.path` functions the OCR handlers use to name their output, with
 * the POSIX semantics of Python's `posixpath`: `basename`, `dirname` and
 * `splitext`, over `/`-separated keys.
 */
module PosixPath {

  /** `p.rfind(c)`: the index of the last occurrence of `c`, or -1. */
  function RFind(p: string, c: char): (r: int)
    ensures -1 <= r < |p|
    ensures r >= 0 ==> p[r] == c
    ensures forall j :: r < j < |p| ==> p[j] != c
  {
    if p == [] then -1 else if p[|p| - 1] == c then |p| - 1 else RFind(p[..|p| - 1], c)
  }

  /** `posixpath.basename`: everything after the last `/`. */
  function Basename(p: string): (r: string)
    ensures '/' !in r
  {
    p[RFind(p, '/') + 1..]
  }

  predicate AllSlashes(s: string)
  {
    forall k :: 0 <= k < |s| ==> s[k] == '/'
  }

  /** `s.rstrip('/')`. */
  function RStripSlashes(s: string): (r: string)
    ensures |r| <= |s| && r == s[..|r|]
    ensures r == [] || r[|r| - 1] != '/'
  {
    if s != [] && s[|s| - 1] == '/' then RStripSlashes(s[..|s| - 1]) else s
  }

  /**
   * `posixpath.dirname`: everything up to and including the last `/`, with the
   * trailing slashes stripped unless that is all there is.
   */
  function Dirname(p: string): string
  {
    var head := p[..RFind(p, '/') + 1];
    if head != [] && !AllSlashes(head) then RStripSlashes(head) else head
  }

  /** Some character of `p[lo..hi]` is not a dot. */
  predicate HasNonDot(p: string, lo: int, hi: int)
    requires 0 <= lo <= hi <= |p|
  {
    exists k :: lo <= k < hi && p[k] != '.'
  }

  /**
   * `posixpath.splitext`: the extension starts at the last dot after the last `/`,
   * provided the file name has something other than dots before it (leading dots
   * do not start an extension).
   */
  function SplitExt(p: string): (string, string)
  {
    var sepIndex := RFind(p, '/');
    var dotIndex := RFind(p, '.');
    if dotIndex > sepIndex && HasNonDot(p, sepIndex + 1, dotIndex) then (p[..dotIndex], p[dotIndex..]) else (p, [])
  }

  /** `splitext(p)[0]`. */
  function Stem(p: string): string
  {
    SplitExt(p).0
  }

  /** `splitext` cuts `p` in two; the extension is empty or one dot followed by neither dot nor slash. */
  lemma SplitExtParts(p: string)
    ensures SplitExt(p).0 + SplitExt(p).1 == p
    ensures var ext := SplitExt(p).1;
      ext == [] || (ext[0] == '.' && '.' !in ext[1..] && '/' !in ext)
  {
    var sepIndex := RFind(p, '/');
    var dotIndex := RFind(p, '.');
    if dotIndex > sepIndex && HasNonDot(p, sepIndex + 1, dotIndex) {
      var ext := p[dotIndex..];
      assert p[..dotIndex] + ext == p;
      forall k | 0 <= k < |ext| - 1 ensures ext[1..][k] != '.' && ext[1..][k] != '/' {
        assert ext[1..][k] == p[dotIndex + 1 + k];
      }
    } else {
      assert p + [] == p;
    }
  }

  /** Neither half of a slash-free file name has a slash. */
  lemma StemHasNoSlash(p: string)
    requires '/' !in p
    ensures '/' !in Stem(p)
  {
    SplitExtParts(p);
    var stem := Stem(p);
    forall k | 0 <= k < |stem| ensures stem[k] != '/' {
      assert stem[k] == (stem + SplitExt(p).1)[k];
    }
  }

  lemma NoSlashInConcat(a: string, b: string)
    requires '/' !in a && '/' !in b
    ensures '/' !in a + b
  {
    forall k | 0 <= k < |a + b| ensures (a + b)[k] != '/' {
      if k < |a| {
        assert (a + b)[k] == a[k];
      } else {
        assert (a + b)[k] == b[k - |a|];
      }
    }
  }

  /** A file name `s + e` whose extension `e` is a dot and a dot-free suffix has stem `s`, when `s` is not all dots. */
  lemma StemOfExtension(s: string, e: string)
    requires '/' !in s && '/' !in e
    requires |e| > 0 && e[0] == '.' && '.' !in e[1..]
    requires exists k :: 0 <= k < |s| && s[k] != '.'
    ensures Stem(s + e) == s
  {
    var p := s + e;
    assert RFind(p, '/') == -1;
    assert p[|s|] == '.';
    forall j | |s| < j < |p| ensures p[j] != '.' {
      assert p[j] == e[1..][j - |s| - 1];
    }
    assert RFind(p, '.') == |s|;
    var k :| 0 <= k < |s| && s[k] != '.';
    assert p[k] != '.';
    assert p[..|s|] == s;
  }

  /** A file name without a dot has no extension: its stem is all of it. */
  lemma StemWithoutDot(p: string)
    requires '.' !in p
    ensures Stem(p) == p
  {
    assert RFind(p, '.') == -1;
  }

  /** A file name whose only dot is its first character (`.bashrc`) has no extension either. */
  lemma StemOfDotFile(p: string)
    requires |p| > 0 && p[0] == '.' && '.' !in p[1..] && '/' !in p
    ensures Stem(p) == p
  {
    forall j | 0 < j < |p| ensures p[j] != '.' {
      assert p[j] == p[1..][j - 1];
    }
    assert RFind(p, '.') == 0;
    assert !HasNonDot(p, RFind(p, '/') + 1, 0);
  }

  /** A slash-free name under a directory that does not end in a slash: dirname and basename take it apart again. */
  lemma DirnameBasename(d: string, f: string)
    requires d != [] && d[|d| - 1] != '/'
    requires '/' !in f
    ensures Dirname(d + "/" + f) == d
    ensures Basename(d + "/" + f) == f
  {
    var p := d + "/" + f;
    assert p[|d|] == '/';
    forall j | |d| < j < |p| ensures p[j] != '/' {
      assert p[j] == f[j - |d| - 1];
    }
    assert RFind(p, '/') == |d|;
    var head := p[..|d| + 1];
    assert head == d + "/";
    assert head[|head| - 2] != '/';
    assert !AllSlashes(head);
    assert head[..|head| - 1] == d;
    assert RStripSlashes(head) == RStripSlashes(d) == d;
    assert p[|d| + 1..] == f;
  }

  /** A key without any slash has an empty dirname. */
  lemma DirnameOfPlain(p: string)
    requires '/' !in p
    ensures Dirname(p) == []
    ensures Basename(p) == p
  {
    assert RFind(p, '/') == -1;
  }
}
