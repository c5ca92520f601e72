/**
  The three functions of Python 2.7's `os.path` (POSIX flavour) that the run
  bookkeeping uses. A path is a string; `/` is the separator.
 */
module PosixPath {
  import opened PyStr

  /** `os.path.join(a, b)`: an absolute `b` replaces `a`; otherwise one `/` is
      inserted unless `a` is empty or already ends with one. */
  function Join(a: string, b: string): string
  {
    if |b| > 0 && b[0] == '/' then b
    else if |a| == 0 || a[|a| - 1] == '/' then a + b
    else a + "/" + b
  }

  /** `os.path.join(a, b, c)` joins from left to right. */
  function Join3(a: string, b: string, c: string): string
  {
    Join(Join(a, b), c)
  }

  /** `os.path.basename(p)`: what follows the last `/`. */
  function Basename(p: string): string
  {
    p[RFind(p, '/') + 1..]
  }

  /** The basename is slash-free, ends the path, and is preceded by a `/` when
      it is not the whole path. */
  lemma BasenameSpec(p: string)
    ensures var r := Basename(p);
      && '/' !in r
      && |r| <= |p| && p[|p| - |r|..] == r
      && (|r| < |p| ==> p[|p| - |r| - 1] == '/')
  {
    RFindSpec(p, '/');
    var i := RFind(p, '/') + 1;
    var r := p[i..];
    assert Basename(p) == r;
    assert |p| - |r| == i;
    assert '/' !in r by {
      forall k | 0 <= k < |r| ensures r[k] != '/' {
        assert r[k] == p[i + k];
      }
    }
  }

  predicate AllSlashes(s: string)
  {
    forall k :: 0 <= k < |s| ==> s[k] == '/'
  }

  /** `s.rstrip(c)`: the longest prefix of `s` that does not end with `c`. */
  function RStrip(s: string, c: char): string
    decreases |s|
  {
    if |s| > 0 && s[|s| - 1] == c then RStrip(s[..|s| - 1], c) else s
  }

  /** What `rstrip` removes is a run of `c` at the end, and what is left does
      not end with `c`. */
  lemma {:induction false} RStripSpec(s: string, c: char)
    ensures var r := RStrip(s, c);
      && |r| <= |s| && s[..|r|] == r
      && (|r| == 0 || r[|r| - 1] != c)
      && (forall k :: |r| <= k < |s| ==> s[k] == c)
    decreases |s|
  {
    if |s| > 0 && s[|s| - 1] == c {
      var init := s[..|s| - 1];
      RStripSpec(init, c);
      var r := RStrip(init, c);
      assert s[..|r|] == init[..|r|];
      forall k | |r| <= k < |init| ensures s[k] == c {
        assert s[k] == init[k];
      }
    }
  }

  /** What `Dirname` can return: empty, all slashes, or not ending with a slash. */
  predicate IsDirname(d: string)
  {
    |d| == 0 || AllSlashes(d) || d[|d| - 1] != '/'
  }

  /** `os.path.dirname(p)`: everything up to the last `/`, with trailing slashes
      removed unless nothing but slashes is left. */
  function Dirname(p: string): string
  {
    TrimHead(p[..RFind(p, '/') + 1])
  }

  /** The second half of `Dirname`, applied to `head`, the text up to and
      including the last `/`. */
  function TrimHead(head: string): string
  {
    if |head| > 0 && !AllSlashes(head) then RStrip(head, '/') else head
  }

  /** The dirname is a prefix of the path and has the shape IsDirname names. */
  lemma DirnameSpec(p: string)
    ensures var r := Dirname(p);
      && IsDirname(r)
      && |r| <= |p| && p[..|r|] == r
  {
    var head := p[..RFind(p, '/') + 1];
    if |head| > 0 && !AllSlashes(head) {
      RStripSpec(head, '/');
    }
  }

  /** Joining a slash-free name onto any path leaves that name as the basename. */
  lemma BasenameOfJoin(a: string, b: string)
    requires '/' !in b
    ensures Basename(Join(a, b)) == b
  {
    if |a| == 0 {
      assert Join(a, b) == b;
      RFindUnique(b, '/', -1);
    } else if a[|a| - 1] == '/' {
      var a' := a[..|a| - 1];
      assert a + b == a' + ['/'] + b;
      RFindAtSeparator(a', '/', b);
    } else {
      assert a + "/" + b == a + ['/'] + b;
      RFindAtSeparator(a, '/', b);
    }
  }

  /** Joining a slash-free name onto a directory name and taking the dirname
      gives the directory name back. */
  lemma DirnameOfJoin(d: string, b: string)
    requires IsDirname(d)
    requires '/' !in b
    ensures Dirname(Join(d, b)) == d
  {
    var p := Join(d, b);
    if |d| == 0 {
      assert p == b;
      RFindUnique(b, '/', -1);
    } else if AllSlashes(d) {
      var d' := d[..|d| - 1];
      assert p == d' + ['/'] + b;
      RFindAtSeparator(d', '/', b);
      assert p[..|d|] == d;
    } else {
      assert p == d + ['/'] + b;
      RFindAtSeparator(d, '/', b);
      var head := p[..|d| + 1];
      assert head == d + ['/'];
      assert !AllSlashes(head) by {
        assert head[|d| - 1] != '/';
      }
      assert head[..|d|] == d;
      assert RStrip(head, '/') == RStrip(d, '/');
    }
  }

  /** Replacing the last component of `p` by a slash-free `b`: the result has
      the parent of `p` as its parent and `b` as its last component. */
  lemma SameParent(p: string, b: string)
    requires '/' !in b
    ensures Dirname(Join(Dirname(p), b)) == Dirname(p)
    ensures Basename(Join(Dirname(p), b)) == b
  {
    DirnameSpec(p);
    DirnameOfJoin(Dirname(p), b);
    BasenameOfJoin(Dirname(p), b);
  }

  /** Appending text free of `/` changes neither the dirname nor the part of the
      basename that was already there. */
  lemma AppendWithinBasename(p: string, t: string)
    requires '/' !in t
    ensures Dirname(p + t) == Dirname(p)
    ensures Basename(p + t) == Basename(p) + t
  {
    RFindAppendFree(p, t, '/');
    var i := RFind(p, '/') + 1;
    assert (p + t)[..i] == p[..i];
    assert (p + t)[i..] == p[i..] + t;
    assert Dirname(p + t) == TrimHead(p[..i]);
  }
}
