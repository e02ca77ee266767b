/** How SaveHandler.do_GET maps its request path to a file under the
    server's root (echoAdsDemo/server.py, lines 53-67). The handler sees the
    request target as http.server hands it on (RequestPath): no query string
    is removed and nothing is URL-decoded. */
module Routing {
  import opened Paths

  const TestCreativesPrefix := "/test-creatives/"
  const CreativesPrefix := "/creatives/"

  /** self.path for a request target: http.server's parse_request reduces a
      leading run of slashes to a single '/', so that "//x" is not taken for
      a URL without a scheme; any other target is kept as sent. */
  function RequestPath(target: string): (path: string)
    ensures !StartsWith(path, "//")
    ensures !StartsWith(target, "//") ==> path == target
    ensures StartsWith(target, "//") ==>
              path != [] && path[0] == '/' && StripLeadingSlashes(path) == StripLeadingSlashes(target)
  {
    if StartsWith(target, "//") then
      var rest := StripLeadingSlashes(target);
      StripLeadingSlashesIdempotent(rest);
      assert rest != [] ==> ("/" + rest)[1] == rest[0];
      "/" + rest
    else target
  }

  /** The root-relative file the request path names; the five branches are
      tried in order and the first that matches decides. */
  function ResolvePath(path: string): (file: Path)
    ensures file == [] || file[0] != '/'
  {
    if path == "/" || path == "/index.html" then
      "index.html"
    else if StartsWith(path, TestCreativesPrefix) then
      "test-creatives/" + Basename(path)
    else if StartsWith(path, CreativesPrefix) then
      "creatives/" + Basename(path)
    else if path == "/prebid.js" then
      "prebid.js"
    else
      StripLeadingSlashes(path)
  }

  /** file is dir + "/" + name for a single path component name. A name
      that is empty or "." names dir itself, and ".." names dir's parent:
      directories, never a regular file. */
  predicate DirectlyIn(file: Path, dir: string) {
    StartsWith(file, dir + "/") && '/' !in file[|dir| + 1..]
  }

  lemma FixedFiles()
    ensures ResolvePath("/") == "index.html"
    ensures ResolvePath("/index.html") == "index.html"
    ensures ResolvePath("/prebid.js") == "prebid.js"
  {
  }

  /** A request under /test-creatives/ keeps only its last component, so
      whatever the rest of the path says, it names an entry of test-creatives,
      or with a last component "", "." or "..", a directory. */
  lemma TestCreativesContained(path: string)
    requires StartsWith(path, TestCreativesPrefix)
    ensures ResolvePath(path) == "test-creatives/" + Basename(path)
    ensures DirectlyIn(ResolvePath(path), "test-creatives")
  {
    assert path[1] == 't';
    assert path != "/" && path != "/index.html" by {
      assert "/index.html"[1] == 'i';
    }
    var file := ResolvePath(path);
    assert file[|"test-creatives"| + 1..] == Basename(path);
  }

  /** The same for /creatives/. */
  lemma CreativesContained(path: string)
    requires StartsWith(path, CreativesPrefix)
    ensures ResolvePath(path) == "creatives/" + Basename(path)
    ensures DirectlyIn(ResolvePath(path), "creatives")
  {
    assert path[1] == 'c';
    assert path != "/" && path != "/index.html" && !StartsWith(path, TestCreativesPrefix) by {
      assert "/index.html"[1] == 'i' && TestCreativesPrefix[1] == 't';
    }
    var file := ResolvePath(path);
    assert file[|"creatives"| + 1..] == Basename(path);
  }

  /** Whatever comes between the directory prefix and the last '/' (for
      instance "../../etc") is discarded: a request such as
      /test-creatives/../../etc/passwd names test-creatives/passwd. */
  lemma TraversalDiscarded(rest: string, name: string)
    requires '/' !in name
    ensures ResolvePath(TestCreativesPrefix + rest + "/" + name) == "test-creatives/" + name
    ensures ResolvePath(CreativesPrefix + rest + "/" + name) == "creatives/" + name
  {
    var p := TestCreativesPrefix + rest + "/" + name;
    assert p[..|TestCreativesPrefix|] == TestCreativesPrefix;
    TestCreativesContained(p);
    BasenameAfterSlash(TestCreativesPrefix + rest, name);
    var q := CreativesPrefix + rest + "/" + name;
    assert q[..|CreativesPrefix|] == CreativesPrefix;
    CreativesContained(q);
    BasenameAfterSlash(CreativesPrefix + rest, name);
  }

  /** Outside the two directory routes and "/", resolution is the catch-all:
      /index.html and /prebid.js resolve exactly as the catch-all would
      resolve them. The catch-all keeps ".." segments: it does not confine. */
  lemma OtherPathsStripSlashes(path: string)
    requires path != "/"
    requires !StartsWith(path, TestCreativesPrefix) && !StartsWith(path, CreativesPrefix)
    ensures ResolvePath(path) == StripLeadingSlashes(path)
  {
    if path == "/index.html" {
      assert path[1..] == "index.html";
      StripLeadingSlashesIdempotent(path[1..]);
    } else if path == "/prebid.js" {
      assert path[1..] == "prebid.js";
      StripLeadingSlashesIdempotent(path[1..]);
    }
  }

  lemma CatchAllKeepsDotDot()
    ensures ResolvePath("/../secret") == "../secret"
    ensures ResolvePath("../secret") == "../secret"
  {
    assert "/../secret"[1..] == "../secret";
  }

  /** The rewrite is idempotent: a path http.server hands on is its own
      rewrite. */
  lemma RequestPathIdempotent(target: string)
    ensures RequestPath(RequestPath(target)) == RequestPath(target)
  {
  }

  /** A request target is a word of the request line, so never empty, and no
      target then resolves to the empty path: the only path whose slashes
      the catch-all would strip down to nothing is "/", which has its own
      branch. Other spellings of a directory, such as "." or
      "test-creatives/..", remain possible. */
  lemma NoRequestResolvesEmpty(target: string)
    requires target != ""
    ensures ResolvePath(RequestPath(target)) != ""
  {
    var path := RequestPath(target);
    assert path != "";
  }

  /** A target made only of slashes is served as "/": index.html. */
  lemma SlashesOnlyServeIndex(target: string)
    requires target != "" && forall i :: 0 <= i < |target| ==> target[i] == '/'
    ensures ResolvePath(RequestPath(target)) == "index.html"
  {
    if |target| >= 2 {
      assert StartsWith(target, "//");
      assert RequestPath(target) == "/";
    } else {
      assert target == "/";
    }
  }

  /** In a directory route the resolved file's last component is the
      request's: a request ending in '/' resolves to the directory itself
      (an empty last component), one ending in "/." or "/.." to a last
      component "." or "..". */
  lemma DirectoryRouteLastComponent(path: string, d: string, name: string)
    requires StartsWith(path, TestCreativesPrefix) || StartsWith(path, CreativesPrefix)
    requires '/' !in name
    requires path == d + "/" + name
    ensures Basename(ResolvePath(path)) == name
  {
    BasenameAfterSlash(d, name);
    var dir := if StartsWith(path, TestCreativesPrefix) then "test-creatives" else "creatives";
    if StartsWith(path, TestCreativesPrefix) {
      TestCreativesContained(path);
    } else {
      CreativesContained(path);
    }
    assert ResolvePath(path) == dir + "/" + name;
    BasenameAfterSlash(dir, name);
  }

  /** A single file name under /test-creatives/ maps to that name in test-creatives. */
  lemma FileUnderTestCreatives(name: string)
    requires '/' !in name
    ensures ResolvePath(TestCreativesPrefix + name) == "test-creatives/" + name
  {
    var path := TestCreativesPrefix + name;
    assert path[..|TestCreativesPrefix|] == TestCreativesPrefix;
    TestCreativesContained(path);
    assert path == "/test-creatives" + "/" + name;
    BasenameAfterSlash("/test-creatives", name);
  }
}
