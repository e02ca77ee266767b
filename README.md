# Echo Ads Demo save server: request dispatch

A Dafny model of `SaveHandler`, the request handler behind the Echo Ads Demo
server in `echoAdsDemo/server.py`. The handler does three things:

- It answers CORS preflight requests (OPTIONS).
- It saves the page's list of creatives (POST `/test-creatives/save`).
- It serves static files (GET).

The model has seven modules:

- `Wrappers` and `Bytes` (`common.dfy`): an optional value, and the byte type of file contents and response bodies.
- `Paths` (`paths.dfy`): the Python string operations the handler relies on, with POSIX meaning. These are `str.startswith`, `str.endswith`, `str.lstrip('/')` and `os.path.basename`.
- `Routing` (`routing.dfy`): how a GET request path becomes a file path relative to the server's directory. This covers `http.server`'s rewrite of a leading run of slashes, the five ordered branches, basename containment for the two directory routes, and the catch-all.
- `ContentTypes` (`content_type.dfy`): the Content-Type chosen by file suffix.
- `Http` (`http.dfy`): responses as values. A response is a status, the headers the handler sends itself, and a body.
- `SaveServer` (`save_handler.dfy`): the file system and the handler.
  - The file system is a class `FileSystem` whose field `files` maps each root-relative path to the file's bytes. `os.path.isfile` is a membership test on that map.
  - The handler is a class `SaveHandler` with methods `DoGet`, `DoPost` and `DoOptions`. Each is proved equal to a specification function (`GetResponse`, `PostResult`, `OptionsResponse`), and the lemmas state what the handler promises about those functions.

Paths are root-relative strings; `""` is the server's directory itself. The
file system's invariant (`WellFormed`) says that it holds regular files only,
each under its one canonical path, and that no file doubles as a directory:
- A stored path is relative and holds no NUL character. It has no empty
  component, so no leading, trailing or doubled `/`, and no `.` or `..`
  component (`Paths.NamesFile`).
- No stored path followed by `/` starts another stored path, so `a` and `a/b`
  are never both stored. Directories are implicit: they are the prefixes of
  stored paths that end before a `/`.

A POST body is the outcome of `json.loads` and `data.get`: either the error
they raised, or the body's optional `creatives` field. The field is given as
the bytes that `json.dump(..., indent=2)` writes for it, and an absent field
is written as `[]`.

Some consequences of the code as written:

- `server.py` defines no `/api/selected-creative` routes.
- The catch-all GET branch serves any path relative to the server's directory, including paths above it through `..`. Only the two directory routes are confined.
- The handler compares `self.path`, the request target as `http.server`'s `parse_request` hands it on. That step reduces a leading run of slashes to a single `/` and keeps every other target as sent (`Routing.RequestPath`). So `//test-creatives/../../x` reaches the handler as a directory-route request. `urlparse` is imported but never used, so a query string stays part of the file name.
- The `/index.html` and `/prebid.js` branches give the same file as the catch-all would. `Routing.OtherPathsStripSlashes` proves this. The only path that reaches `index.html` in a way the catch-all would not is `/`, which is also what every target made only of slashes becomes.

## Model

| member | source | states |
|---|---|---|
| `Paths.Basename` | echoAdsDemo/server.py:55-62 | The result is a suffix of the path, contains no `/`, and is either the whole path or preceded by a `/`: the text after the last `/` |
| `Paths.BasenameUnique` | echoAdsDemo/server.py:55-62 | Those three facts determine the basename: any suffix meeting them is `Basename`'s result |
| `Paths.BasenameAfterSlash` | echoAdsDemo/server.py:55-62 | For any prefix `d` and any `/`-free `name`, the basename of `d + "/" + name` is `name` |
| `Paths.StripLeadingSlashes` | echoAdsDemo/server.py:65-67 | `lstrip('/')`: the result is a suffix of the input, does not start with `/`, and every character dropped was a `/` (all of them, not one) |
| `Paths.StripLeadingSlashesIdempotent` | echoAdsDemo/server.py:65-67 | Stripping leaves a string without a leading `/` unchanged, so stripping twice equals stripping once |
| `Paths.SingleComponentNamesFile` | echoAdsDemo/server.py:30 | A single component other than the empty string, `.` and `..` is a canonical file path |
| `Paths.JoinNamesFile` | echoAdsDemo/server.py:30 | `os.path.join` of two canonical paths is canonical: every component of `a/b` lies wholly inside `a` or inside `b` |
| `Paths.NamesFileBasename` | echoAdsDemo/server.py:55-62 | The basename of a canonical path is never empty, `.` or `..` |
| `Routing.ResolvePath` | echoAdsDemo/server.py:53-67 | The resolved file is never an absolute path, so joining it to the server's directory stays anchored there |
| `Routing.FixedFiles` | echoAdsDemo/server.py:53-64 | `/` and `/index.html` resolve to `index.html`, and `/prebid.js` resolves to `prebid.js` |
| `Routing.TestCreativesContained` | echoAdsDemo/server.py:55-58 | Every path starting with `/test-creatives/` resolves to `test-creatives/` plus its basename, a single component after `test-creatives/`. That names an entry of `test-creatives`, or a directory when the component is empty, `.` or `..` |
| `Routing.CreativesContained` | echoAdsDemo/server.py:59-62 | Every path starting with `/creatives/` resolves to `creatives/` plus its basename, a single component after `creatives/`. That names an entry of `creatives`, or a directory when the component is empty, `.` or `..` |
| `Routing.TraversalDiscarded` | echoAdsDemo/server.py:55-62 | Whatever lies between a directory prefix and the last `/` (such as `../../etc`) is discarded: `/test-creatives/<rest>/<name>` names `test-creatives/<name>` |
| `Routing.OtherPathsStripSlashes` | echoAdsDemo/server.py:53-67 | Every path except `/` and the two directory routes resolves to itself with all leading slashes removed, so the first matching branch decides and the fixed-file branches agree with the catch-all |
| `Routing.CatchAllKeepsDotDot` | echoAdsDemo/server.py:65-67 | The catch-all does not confine: `/../secret` and `../secret` both name `../secret`, above the server's directory |
| `Routing.RequestPath` | echoAdsDemo/server.py:50-53 | The rewrite that CPython's `http.server` module applies in `BaseHTTPRequestHandler.parse_request`, following its 2022 fix for gh-87389 (CPython 3.11 and later, and the security releases of older branches that took the fix). Without that fix, `//` reaches `do_GET` unchanged and the catch-all answers 404. `self.path` never starts with `//`. A target not starting with `//` is kept as sent; one that does keeps a single leading `/` and the same text after its slashes |
| `Routing.RequestPathIdempotent` | echoAdsDemo/server.py:50-53 | A path `http.server` hands on is unchanged by the rewrite |
| `Routing.NoRequestResolvesEmpty` | echoAdsDemo/server.py:53-67 | No non-empty request target resolves to the empty path. Other spellings of a directory, such as `.` or `test-creatives/..`, can still result; `SaveServer.GetDirectoryNameNotFound` answers them 404 |
| `Routing.SlashesOnlyServeIndex` | echoAdsDemo/server.py:53-54 | A target made only of slashes, such as `//`, names `index.html` |
| `Routing.DirectoryRouteLastComponent` | echoAdsDemo/server.py:55-62 | The resolved file of a directory-route request has the request's last component as its own. So a request ending in `/`, `/.` or `/..` names a path whose last component is empty, `.` or `..` |
| `Routing.FileUnderTestCreatives` | echoAdsDemo/server.py:55-58 | `/test-creatives/<name>` with a `/`-free name resolves to `test-creatives/<name>` |
| `ContentTypes.ContentTypeFor` | echoAdsDemo/server.py:76-87 | The selection is total and always yields one of the six fixed types |
| `ContentTypes.ExtensionsExclusive` | echoAdsDemo/server.py:76-87 | No path ends in two of `.html`, `.js`, `.json`, `.png`, `.jpg`/`.jpeg`, so the order of the tests never changes the result |
| `ContentTypes.ContentTypeByExtension` | echoAdsDemo/server.py:76-87 | Each type is chosen if and only if the path has that type's suffix (`image/jpeg` for `.jpg` or `.jpeg`), and `application/octet-stream` exactly when no listed suffix applies |
| `ContentTypes.JsonFileType` | echoAdsDemo/server.py:80-81 | Any `<dir>/<stem>.json` is served as `application/json` |
| `SaveServer.FileSystem.IsFile` | echoAdsDemo/server.py:70 | The result is true exactly when the path is a stored file |
| `SaveServer.FileSystem.ReadAll` | echoAdsDemo/server.py:71-72 | Returns exactly the stored bytes of the file |
| `SaveServer.FileSystem.WriteAll` | echoAdsDemo/server.py:30-32 | When `p` is neither a directory nor below a stored file, creates or replaces exactly the entry `p` and changes nothing else. Otherwise it returns the error `open(p, 'w')` raises (`Is a directory` or `Not a directory`) and changes nothing. The store stays well formed either way |
| `SaveServer.SaveHandler.DoOptions` | echoAdsDemo/server.py:11-17 | The response equals `OptionsResponse()` for every request |
| `SaveServer.SaveHandler.DoPost` | echoAdsDemo/server.py:19-48 | The response and the new file map equal `PostResult` of the old map, and the store stays well formed |
| `SaveServer.SaveHandler.DoGet` | echoAdsDemo/server.py:50-94 | The response equals `GetResponse` of the current files; the method has no modifies clause, so GET changes nothing |
| `SaveServer.WriteKeepsWellFormed` | echoAdsDemo/server.py:31-32 | A write that `open` allows, to a canonical path, keeps the store well formed |
| `SaveServer.WriteErrorUnchangedByWrite` | echoAdsDemo/server.py:31-32 | Writing `p` does not change whether `p` can be opened for writing next time |
| `SaveServer.ParentIsFileOfJoin` | echoAdsDemo/server.py:30-31 | For single components `d` and `n`, a stored file stands in the way of `d/n` exactly when `d` itself is a stored file |
| `SaveServer.CreativesFileNamesFile` | echoAdsDemo/server.py:30 | `test-creatives/creatives.json` is a canonical file path |
| `SaveServer.SaveBlockedExactly` | echoAdsDemo/server.py:30-31 | `open` refuses the save exactly when a file named `test-creatives` stands where the directory should be, or when `test-creatives/creatives.json` is a directory |
| `SaveServer.GetServesStoredFiles` | echoAdsDemo/server.py:69-94 | GET answers 200 if and only if the resolved path is stored, and then sends exactly its bytes with the suffix's type; otherwise it answers 404, `text/plain`, `File not found` |
| `SaveServer.GetDirectoryRoutesContained` | echoAdsDemo/server.py:55-74 | A 200 answer to a directory-route GET serves the stored file named by the request's basename, directly inside that directory |
| `SaveServer.GetDirectoryItselfNotFound` | echoAdsDemo/server.py:55-94 | In a well-formed store, a directory-route GET ending in `/`, `/.` or `/..` names a directory and answers 404 |
| `SaveServer.GetDirectoryNameNotFound` | echoAdsDemo/server.py:53-94 | In a well-formed store, every GET whose resolved path ends in an empty, `.` or `..` component answers 404, on every route |
| `SaveServer.GetDirectoryNotFound` | echoAdsDemo/server.py:69-94 | In a well-formed store, GET answers 404 whenever the resolved path names a directory |
| `SaveServer.SaveWritesOnlyCreatives` | echoAdsDemo/server.py:21-38 | A parsed save that `open` allows answers 200 with `success: true`. It sets `test-creatives/creatives.json` to the `creatives` field, or `[]` when the field is absent, and it leaves every other file unchanged and adds no other key |
| `SaveServer.PostFailuresChangeNothing` | echoAdsDemo/server.py:19-48 | A POST to any other path answers 404 with no headers or body. An unparsable save, or one that `open` refuses, answers 500 with `success: false` and the error. None of them changes any file |
| `SaveServer.PostPreservesWellFormed` | echoAdsDemo/server.py:21-45 | Every POST keeps the store well formed |
| `SaveServer.CreativesFileRequest` | echoAdsDemo/server.py:55-58 | GET `/test-creatives/creatives.json` names the file the save endpoint writes |
| `SaveServer.CreativesFileIsJson` | echoAdsDemo/server.py:80-81 | That file is served as `application/json` |
| `SaveServer.SaveThenGetRoundTrip` | echoAdsDemo/server.py:21-89 | After a parsed save that `open` allows, GET `/test-creatives/creatives.json` answers 200, `application/json`, with exactly the saved bytes. After a refused save it answers 404 in a well-formed store |
| `SaveServer.LastSaveWins` | echoAdsDemo/server.py:30-32 | A save replaces the file wholesale: after two saves, only the second body's creatives remain |
| `SaveServer.OptionsAllowsCors` | echoAdsDemo/server.py:11-17 | OPTIONS answers 200 with exactly the three CORS headers (`Allow-Origin: *`, `Allow-Methods: POST, OPTIONS`, `Allow-Headers: Content-Type`) and no body |

## Left out

- Socket handling, `HTTPServer`, `serve_forever`, the port and the `KeyboardInterrupt` shutdown (lines 105-116) are process I/O.
- `json.loads`, `json.dump`, `json.dumps` and the 2-space indentation are library calls. The decoded body is an input (`RequestBody`), the saved field comes as its serialised bytes, and JSON response bodies are the abstract `SaveStatus(success, detail)`.
- Reading `Content-Length` and the request body (lines 22-23) is not modelled. It happens outside the `try`, so a bad length is not turned into a 500; the model assumes a well-formed length.
- The 500 branch of `do_GET` (lines 95-99) is not modelled. It covers I/O faults such as a permission error: the map-based file system has none.
- SaveServer.SaveHandler.DoPost: of the failures the `except` on lines 40-45 catches after parsing, only `open` refusing a path that is a directory or lies below a regular file is modelled. The model takes the `test-creatives` directory to exist unless a file stands in its place, so the `No such file or directory` error of a missing directory is not modelled. Permission errors, a full disk, a failure inside `json.dump`, and the truncated `creatives.json` such a failure leaves behind are not modelled either. The error text names the root-relative path where Python names the absolute one. The store cannot hold an empty directory, since a directory exists only as a prefix of a stored file. So an empty directory named `test-creatives/creatives.json`, for which `open` raises `Is a directory` and the handler answers 500, is not modelled.
- SaveServer.SaveHandler.DoGet: the resolved path is looked up literally, without resolving `.`, `..` or repeated slashes, and there are no symbolic links or files outside the server's directory. `os.path.isfile` resolves all of these. So a catch-all GET whose path has such segments answers 404 in the model, though the operating system may find a file there: `/a/../index.html` with `a` a directory, `/a//x`, `/./index.html`, or a file above the server's directory. The two directory routes are unaffected, since their resolved name is a single component below a fixed directory.
- The rewrite of a leading run of slashes belongs to `http.server` (its `parse_request`, since the fix for gh-87389), not to this file. The model follows an interpreter that has the fix. `Routing.RequestPath` states it, and the handler's methods take its result as their path.
- Content-type is chosen on the root-relative path rather than on the absolute path joined to the server's directory. Both end in the same suffix whenever the file exists.
- The `Server` and `Date` headers that `send_response` adds are not modelled. Neither is the 501 answer `http.server` gives for methods without a `do_` handler, nor `log_message` (lines 101-103).
- `os.path.dirname(__file__)` is the implicit root of every path.
