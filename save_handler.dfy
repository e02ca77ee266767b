/** SaveHandler (echoAdsDemo/server.py, lines 10-99): answers OPTIONS, POST
    and GET requests over the files below the server's directory. The file
    system is a map from root-relative path to contents; os.path.isfile is
    membership in that map. */
module SaveServer {
  import opened Paths
  import opened Routing
  import opened ContentTypes
  import opened Http
  import opened Wrappers
  import opened Bytes

  type Files = map<Path, seq<byte>>

  /** The store holds regular files only, each under a path without
      aliases (see NamesFile), and no stored file is also used as a directory
      of another: "a" and "a/b" are never both keys. Directories are implicit:
      the proper prefixes of the keys that end before a '/'. */
  predicate WellFormed(files: Files) {
    && (forall p :: p in files ==> NamesFile(p))
    && (forall p, q :: p in files && q in files ==> !StartsWith(q, p + "/"))
  }

  /** p is a directory: some stored file lies below it. */
  predicate IsDirectory(files: Files, p: Path) {
    exists k :: k in files && StartsWith(k, p + "/")
  }

  /** A stored file stands where a directory on the way to p should be. */
  predicate ParentIsFile(files: Files, p: Path) {
    exists k :: k in files && StartsWith(p, k + "/")
  }

  /** The error open(p, 'w') raises, as str(e) renders it, if any: p is a
      directory, or one of its parents is a regular file. */
  function OpenForWriteError(files: Files, p: Path): Option<string> {
    if IsDirectory(files, p) then Some("[Errno 21] Is a directory: '" + p + "'")
    else if ParentIsFile(files, p) then Some("[Errno 20] Not a directory: '" + p + "'")
    else None
  }

  const SavePath := "/test-creatives/save"
  const CreativesFileName := "creatives.json"
  const CreativesFile: Path := "test-creatives/" + CreativesFileName
  /** The GET request that fetches the saved creatives. */
  const CreativesRequest := TestCreativesPrefix + CreativesFileName
  /** What json.dump writes for an empty list: "[]". */
  const EmptyJsonArray: seq<byte> := [0x5B, 0x5D]
  const SavedMessage := "Creatives saved successfully"
  const NotFoundText := "File not found"

  const JsonHeaders := [Header("Content-Type", JsonType), Header("Access-Control-Allow-Origin", "*")]
  const CorsHeaders := [Header("Access-Control-Allow-Origin", "*"),
                        Header("Access-Control-Allow-Methods", "POST, OPTIONS"),
                        Header("Access-Control-Allow-Headers", "Content-Type")]
  const NotFound := Response(404, [Header("Content-Type", "text/plain")], Text(NotFoundText))

  /** A POST body as json.loads and data.get leave it: either the error they
      raised (not valid UTF-8 or JSON, or not a JSON object), or the body's
      "creatives" field if present, as the text json.dump(indent=2) writes
      for it. */
  datatype RequestBody =
    | Unparsable(error: string)
    | Parsed(creatives: Option<seq<byte>>)

  /** do_GET's answer for a path, given the files present. */
  function GetResponse(files: Files, path: string): Response {
    var file := ResolvePath(path);
    if file in files then Response(200, [Header("Content-Type", ContentTypeFor(file))], Raw(files[file]))
    else NotFound
  }

  /** do_POST's answer and the files afterwards. */
  function PostResult(files: Files, path: string, body: RequestBody): (Response, Files) {
    if path != SavePath then
      (Response(404, [], NoBody), files)
    else
      match body
      case Unparsable(e) => (Response(500, JsonHeaders, SaveStatus(false, e)), files)
      case Parsed(c) =>
        match OpenForWriteError(files, CreativesFile)
        case Some(e) => (Response(500, JsonHeaders, SaveStatus(false, e)), files)
        case None =>
          (Response(200, JsonHeaders, SaveStatus(true, SavedMessage)),
           files[CreativesFile := c.GetOr(EmptyJsonArray)])
  }

  /** do_OPTIONS's answer, the same for every path. */
  function OptionsResponse(): Response {
    Response(200, CorsHeaders, NoBody)
  }

  /** The files below the server's directory. */
  class FileSystem {
    var files: Files

    ghost predicate Valid()
      reads this
    {
      WellFormed(files)
    }

    constructor (initial: Files)
      requires WellFormed(initial)
      ensures Valid() && files == initial
    {
      files := initial;
    }

    /** os.path.isfile: the path names a regular file. */
    method IsFile(p: Path) returns (b: bool)
      ensures b <==> p in files
    {
      b := p in files;
    }

    /** Reads the whole file in binary mode. */
    method ReadAll(p: Path) returns (data: seq<byte>)
      requires p in files
      ensures data == files[p]
    {
      data := files[p];
    }

    /** Opens p for writing and writes data in full, creating or replacing
        p; fails, changing nothing, with the error open raises when p is a
        directory or a parent of p is a regular file. */
    method WriteAll(p: Path, data: seq<byte>) returns (error: Option<string>)
      requires Valid() && NamesFile(p)
      modifies this
      ensures Valid()
      ensures error == OpenForWriteError(old(files), p)
      ensures files == if error.None? then old(files)[p := data] else old(files)
    {
      error := OpenForWriteError(files, p);
      if error.None? {
        WriteKeepsWellFormed(files, p, data);
        files := files[p := data];
      }
    }
  }

  /** The request handler, with the file system it serves from. Each method
      takes the request path as self.path holds it, which is RequestPath of
      the target the client sent. */
  class SaveHandler {
    const fs: FileSystem

    constructor (fs: FileSystem)
      ensures this.fs == fs
    {
      this.fs := fs;
    }

    method DoOptions() returns (r: Response)
      ensures r == OptionsResponse()
    {
      r := Response(200, CorsHeaders, NoBody);
    }

    method DoPost(path: string, body: RequestBody) returns (r: Response)
      requires fs.Valid()
      modifies fs
      ensures fs.Valid()
      ensures (r, fs.files) == PostResult(old(fs.files), path, body)
    {
      if path == SavePath {
        match body
        case Unparsable(e) =>
          r := Response(500, JsonHeaders, SaveStatus(false, e));
        case Parsed(c) =>
          var creatives := c.GetOr(EmptyJsonArray);
          CreativesFileNamesFile();
          var error := fs.WriteAll(CreativesFile, creatives);
          match error
          case Some(e) =>
            r := Response(500, JsonHeaders, SaveStatus(false, e));
          case None =>
            r := Response(200, JsonHeaders, SaveStatus(true, SavedMessage));
      } else {
        r := Response(404, [], NoBody);
      }
    }

    /** Reads the file system and changes nothing (no modifies clause). */
    method DoGet(path: string) returns (r: Response)
      ensures r == GetResponse(fs.files, path)
    {
      var filePath := ResolvePath(path);
      var isFile := fs.IsFile(filePath);
      if isFile {
        var content := fs.ReadAll(filePath);
        var contentType := ContentTypeFor(filePath);
        r := Response(200, [Header("Content-Type", contentType)], Raw(content));
      } else {
        r := Response(404, [Header("Content-Type", "text/plain")], Text(NotFoundText));
      }
    }
  }

  /** A write that open allows keeps the store well formed. */
  lemma WriteKeepsWellFormed(files: Files, p: Path, data: seq<byte>)
    requires WellFormed(files) && NamesFile(p) && OpenForWriteError(files, p).None?
    ensures WellFormed(files[p := data])
  {
    var after := files[p := data];
    forall q, k | q in after && k in after
      ensures !StartsWith(k, q + "/")
    {
      if q == p && k == p {
        assert |k| < |q + "/"|;
      }
    }
  }

  /** Writing p does not change whether p can be opened for writing. */
  lemma WriteErrorUnchangedByWrite(files: Files, p: Path, data: seq<byte>)
    ensures OpenForWriteError(files[p := data], p) == OpenForWriteError(files, p)
  {
    assert !StartsWith(p, p + "/") && |p| < |p + "/"|;
    assert IsDirectory(files[p := data], p) == IsDirectory(files, p);
    assert ParentIsFile(files[p := data], p) == ParentIsFile(files, p);
  }

  /** For a file d/n with single components d and n, some file stands where
      a directory of d/n should be exactly when d itself is a stored file. */
  lemma ParentIsFileOfJoin(files: Files, d: string, n: string)
    requires '/' !in d && '/' !in n
    ensures ParentIsFile(files, d + "/" + n) <==> d in files
  {
    var p := d + "/" + n;
    if ParentIsFile(files, p) {
      var k :| k in files && StartsWith(p, k + "/");
      assert p[|k|] == '/';
      assert k == p[..|k|] == d;
    }
    if d in files {
      assert StartsWith(p, d + "/");
    }
  }

  lemma CreativesFileNamesFile()
    ensures NamesFile(CreativesFile)
  {
    assert CreativesFile == "test-creatives" + "/" + CreativesFileName;
    SingleComponentNamesFile("test-creatives");
    SingleComponentNamesFile(CreativesFileName);
    JoinNamesFile("test-creatives", CreativesFileName);
  }

  /** A save can be refused by open in two ways only: a stored file named
      test-creatives stands where the directory should be (Not a directory),
      or test-creatives/creatives.json is itself a directory (Is a directory). */
  lemma SaveBlockedExactly(files: Files)
    ensures OpenForWriteError(files, CreativesFile).Some? <==>
              "test-creatives" in files || IsDirectory(files, CreativesFile)
  {
    assert CreativesFile == "test-creatives" + "/" + CreativesFileName;
    ParentIsFileOfJoin(files, "test-creatives", CreativesFileName);
  }

  /** GET answers 200 exactly when the resolved path is a stored file, and
      then with exactly its bytes and the type its suffix selects; otherwise
      404 with a plain-text "File not found". */
  lemma GetServesStoredFiles(files: Files, path: string)
    ensures GetResponse(files, path).status == 200 <==> ResolvePath(path) in files
    ensures ResolvePath(path) in files ==>
              GetResponse(files, path).body == Raw(files[ResolvePath(path)])
              && GetResponse(files, path).headers == [Header("Content-Type", ContentTypeFor(ResolvePath(path)))]
    ensures ResolvePath(path) !in files ==> GetResponse(files, path) == NotFound
  {
  }

  /** A GET under /test-creatives/ or /creatives/ can only serve a file
      directly inside that directory, named by the request's last component. */
  lemma GetDirectoryRoutesContained(files: Files, path: string)
    ensures StartsWith(path, TestCreativesPrefix) && GetResponse(files, path).status == 200 ==>
              var file := "test-creatives/" + Basename(path);
              file in files && DirectlyIn(file, "test-creatives") && GetResponse(files, path).body == Raw(files[file])
    ensures StartsWith(path, CreativesPrefix) && GetResponse(files, path).status == 200 ==>
              var file := "creatives/" + Basename(path);
              file in files && DirectlyIn(file, "creatives") && GetResponse(files, path).body == Raw(files[file])
  {
    if StartsWith(path, TestCreativesPrefix) {
      TestCreativesContained(path);
    }
    if StartsWith(path, CreativesPrefix) {
      CreativesContained(path);
    }
  }

  /** A directory-route request whose last component is empty ("/test-creatives/"),
      "." or ".." resolves to a directory, which is never a file: 404. */
  lemma GetDirectoryItselfNotFound(files: Files, path: string, d: string, name: string)
    requires WellFormed(files)
    requires StartsWith(path, TestCreativesPrefix) || StartsWith(path, CreativesPrefix)
    requires name == "" || name == "." || name == ".."
    requires path == d + "/" + name
    ensures GetResponse(files, path) == NotFound
  {
    DirectoryRouteLastComponent(path, d, name);
    if ResolvePath(path) in files {
      NamesFileBasename(ResolvePath(path));
    }
  }

  /** On every route, a resolved path whose last component is empty, "." or
      ".." names a directory (the route's own, its parent, or the server's
      directory), so GET answers 404: "/.", "/test-creatives/.." and
      "/creatives/" among them. */
  lemma GetDirectoryNameNotFound(files: Files, path: string)
    requires WellFormed(files)
    ensures (Basename(ResolvePath(path)) == "" || Basename(ResolvePath(path)) == "."
             || Basename(ResolvePath(path)) == "..") ==> GetResponse(files, path) == NotFound
  {
    if ResolvePath(path) in files {
      NamesFileBasename(ResolvePath(path));
    }
  }

  /** In a well-formed store, GET answers 404 for every request whose
      resolved path names a directory: a directory is never a regular file. */
  lemma GetDirectoryNotFound(files: Files, path: string)
    requires WellFormed(files)
    ensures IsDirectory(files, ResolvePath(path)) ==> GetResponse(files, path) == NotFound
  {
  }

  /** A parsed POST to /test-creatives/save that open allows answers 200
      with success: true and sets test-creatives/creatives.json to the
      creatives field, or to "[]" when the field is absent; every other file
      is unchanged. */
  lemma SaveWritesOnlyCreatives(files: Files, body: RequestBody)
    requires body.Parsed?
    ensures OpenForWriteError(files, CreativesFile).None? ==>
              var (r, after) := PostResult(files, SavePath, body);
              && r.status == 200 && r.headers == JsonHeaders && r.body == SaveStatus(true, SavedMessage)
              && after.Keys == files.Keys + {CreativesFile}
              && after[CreativesFile] == (if body.creatives.Some? then body.creatives.value else EmptyJsonArray)
              && forall k :: k in files && k != CreativesFile ==> after[k] == files[k]
  {
  }

  /** Any POST elsewhere answers 404 with no headers and no body. On the
      save path, an unparsable body, or a file open refuses to create,
      answers 500 with success: false and the error. No file changes. */
  lemma PostFailuresChangeNothing(files: Files, path: string, body: RequestBody)
    ensures path != SavePath ==> PostResult(files, path, body) == (Response(404, [], NoBody), files)
    ensures path == SavePath && body.Unparsable? ==>
              PostResult(files, path, body) == (Response(500, JsonHeaders, SaveStatus(false, body.error)), files)
    ensures path == SavePath && body.Parsed? && OpenForWriteError(files, CreativesFile).Some? ==>
              PostResult(files, path, body)
              == (Response(500, JsonHeaders,
                           SaveStatus(false, OpenForWriteError(files, CreativesFile).value)), files)
  {
  }

  /** POST only ever writes a regular file, so the store stays well formed. */
  lemma PostPreservesWellFormed(files: Files, path: string, body: RequestBody)
    requires WellFormed(files)
    ensures WellFormed(PostResult(files, path, body).1)
  {
    if path == SavePath && body.Parsed? && OpenForWriteError(files, CreativesFile).None? {
      CreativesFileNamesFile();
      WriteKeepsWellFormed(files, CreativesFile, body.creatives.GetOr(EmptyJsonArray));
    }
  }

  /** The request path that names the saved creatives file. */
  lemma CreativesFileRequest()
    ensures ResolvePath(CreativesRequest) == CreativesFile
  {
    FileUnderTestCreatives(CreativesFileName);
  }

  lemma CreativesFileIsJson()
    ensures ContentTypeFor(CreativesFile) == JsonType
  {
    JsonFileType("test-creatives", "creatives");
    assert CreativesFile == "test-creatives" + "/" + "creatives" + ".json";
  }

  /** Saving then fetching /test-creatives/creatives.json gives back exactly
      the saved creatives, as application/json. When open refuses the save,
      a well-formed store has no such file and the fetch answers 404. */
  lemma SaveThenGetRoundTrip(files: Files, body: RequestBody)
    requires body.Parsed?
    ensures OpenForWriteError(files, CreativesFile).None? ==>
              GetResponse(PostResult(files, SavePath, body).1, CreativesRequest)
              == Response(200, [Header("Content-Type", JsonType)], Raw(body.creatives.GetOr(EmptyJsonArray)))
    ensures WellFormed(files) && OpenForWriteError(files, CreativesFile).Some? ==>
              GetResponse(PostResult(files, SavePath, body).1, CreativesRequest) == NotFound
  {
    CreativesFileRequest();
    CreativesFileIsJson();
    SaveBlockedExactly(files);
  }

  /** Each save replaces the whole file: after two saves only the second
      body's creatives remain. */
  lemma LastSaveWins(files: Files, first: RequestBody, second: RequestBody)
    requires second.Parsed?
    ensures PostResult(PostResult(files, SavePath, first).1, SavePath, second).1
            == PostResult(files, SavePath, second).1
  {
    if first.Parsed? {
      WriteErrorUnchangedByWrite(files, CreativesFile, first.creatives.GetOr(EmptyJsonArray));
    }
  }

  /** OPTIONS answers every path with 200, the three CORS headers and no body. */
  lemma OptionsAllowsCors()
    ensures OptionsResponse().status == 200 && OptionsResponse().body == NoBody
    ensures OptionsResponse().headers == CorsHeaders && |CorsHeaders| == 3
  {
  }
}
