/** String helpers with the meaning Python gives them on POSIX paths:
    str.startswith, str.endswith, str.lstrip('/') and os.path.basename. */
module Paths {

  /** A path relative to the server's root directory; "" is the root itself. */
  type Path = string

  predicate StartsWith(s: string, prefix: string) {
    prefix <= s
  }

  predicate EndsWith(s: string, suffix: string) {
    |suffix| <= |s| && s[|s| - |suffix|..] == suffix
  }

  /** os.path.basename: the text after the last '/', or all of p when p has none. */
  function Basename(p: string): (name: string)
    ensures EndsWith(p, name)
    ensures '/' !in name
    ensures |name| < |p| ==> p[|p| - |name| - 1] == '/'
  {
    if p == [] || p[|p| - 1] == '/' then []
    else Basename(p[..|p| - 1]) + [p[|p| - 1]]
  }

  /** The three facts Basename ensures determine its result: any suffix of p
      without a '/' that is all of p or is preceded by a '/' is the basename. */
  lemma {:induction false} BasenameUnique(p: string, name: string)
    requires EndsWith(p, name)
    requires '/' !in name
    requires |name| < |p| ==> p[|p| - |name| - 1] == '/'
    ensures Basename(p) == name
  {
    if p == [] {
    } else if p[|p| - 1] == '/' {
    } else {
      assert name != [];
      var q, m := p[..|p| - 1], name[..|name| - 1];
      assert q[|q| - |m|..] == m;
      assert |m| < |q| ==> q[|q| - |m| - 1] == p[|p| - |name| - 1];
      BasenameUnique(q, m);
      assert name == m + [p[|p| - 1]];
    }
  }

  /** The basename of d + "/" + name is name, whatever d holds. */
  lemma BasenameAfterSlash(d: string, name: string)
    requires '/' !in name
    ensures Basename(d + "/" + name) == name
  {
    var p := d + "/" + name;
    assert p[|p| - |name|..] == name;
    assert p[|p| - |name| - 1] == '/';
    BasenameUnique(p, name);
  }

  /** str.lstrip('/'): drops every leading '/', not only the first one. */
  function StripLeadingSlashes(s: string): (r: string)
    ensures EndsWith(s, r)
    ensures r == [] || r[0] != '/'
    ensures forall i :: 0 <= i < |s| - |r| ==> s[i] == '/'
  {
    if s != [] && s[0] == '/' then StripLeadingSlashes(s[1..]) else s
  }

  /** Stripping is the identity on a string that does not start with '/',
      and therefore idempotent. */
  lemma {:induction false} StripLeadingSlashesIdempotent(s: string)
    ensures s == [] || s[0] != '/' ==> StripLeadingSlashes(s) == s
    ensures StripLeadingSlashes(StripLeadingSlashes(s)) == StripLeadingSlashes(s)
  {
    var r := StripLeadingSlashes(s);
    assert StripLeadingSlashes(r) == r;
  }

  /** c is a component of p starting at index i: it is preceded by the start
      of p or a '/', and followed by the end of p or a '/'. */
  predicate ComponentAt(p: string, i: int, c: string) {
    0 <= i && i + |c| <= |p| && p[i..i + |c|] == c
    && (i == 0 || p[i - 1] == '/') && (i + |c| == |p| || p[i + |c|] == '/')
  }

  /** The canonical form of a relative path to a stored file: no NUL
      character (which no POSIX path can hold), and no component empty (no
      leading, trailing or doubled '/'), "." or "..". */
  predicate NamesFile(p: string) {
    && '\0' !in p
    && forall i :: 0 <= i <= |p| ==>
         !ComponentAt(p, i, "") && !ComponentAt(p, i, ".") && !ComponentAt(p, i, "..")
  }

  /** A single component that is not empty, "." or ".." and holds no NUL is
      canonical. */
  lemma SingleComponentNamesFile(n: string)
    requires '/' !in n && '\0' !in n && n != "" && n != "." && n != ".."
    ensures NamesFile(n)
  {
    forall i | 0 <= i <= |n|
      ensures !ComponentAt(n, i, "") && !ComponentAt(n, i, ".") && !ComponentAt(n, i, "..")
    {
      if i > 0 {
        assert n[i - 1] in n;
      }
      if i < |n| {
        assert n[i] in n;
      }
    }
  }

  /** A slice equal to a '/'-free string holds no '/'. */
  lemma NoSlashInside(p: string, i: int, c: string, k: int)
    requires '/' !in c && 0 <= i <= k < i + |c| <= |p| && p[i..i + |c|] == c
    ensures p[k] != '/'
  {
    assert p[k] == c[k - i];
  }

  /** A component of a + "/" + b lies wholly inside a or wholly inside b. */
  lemma ComponentOfJoin(a: string, b: string, i: int, c: string)
    requires '/' !in c
    requires ComponentAt(a + "/" + b, i, c)
    ensures ComponentAt(a, i, c) || ComponentAt(b, i - |a| - 1, c)
  {
    var p := a + "/" + b;
    if i + |c| <= |a| {
      assert p[i..i + |c|] == a[i..i + |c|];
      assert i > 0 ==> p[i - 1] == a[i - 1];
      assert i + |c| < |a| ==> p[i + |c|] == a[i + |c|];
    } else if i <= |a| {
      NoSlashInside(p, i, c, |a|);
    } else {
      var j := i - |a| - 1;
      assert p[i..i + |c|] == b[j..j + |c|];
      assert j > 0 ==> p[i - 1] == b[j - 1];
      assert i + |c| < |p| ==> p[i + |c|] == b[j + |c|];
    }
  }

  /** Joining two canonical paths with '/' gives a canonical path. */
  lemma JoinNamesFile(a: string, b: string)
    requires NamesFile(a) && NamesFile(b)
    ensures NamesFile(a + "/" + b)
  {
    var p := a + "/" + b;
    forall i | 0 <= i <= |p|
      ensures !ComponentAt(p, i, "") && !ComponentAt(p, i, ".") && !ComponentAt(p, i, "..")
    {
      if ComponentAt(p, i, "") { ComponentOfJoin(a, b, i, ""); }
      if ComponentAt(p, i, ".") { ComponentOfJoin(a, b, i, "."); }
      if ComponentAt(p, i, "..") { ComponentOfJoin(a, b, i, ".."); }
    }
  }

  /** The basename of a file path is its last component, so it is not
      empty, "." or "..". */
  lemma NamesFileBasename(p: string)
    requires NamesFile(p)
    ensures Basename(p) != "" && Basename(p) != "." && Basename(p) != ".."
  {
    var name := Basename(p);
    var i := |p| - |name|;
    assert p[i..i + |name|] == name;
    assert ComponentAt(p, i, name);
  }
}
