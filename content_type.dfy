/** The Content-Type do_GET sends for a file it serves, chosen by the file's
    suffix alone (echoAdsDemo/server.py, lines 76-87). */
module ContentTypes {
  import opened Paths

  const HtmlType := "text/html; charset=utf-8"
  const JavaScriptType := "application/javascript"
  const JsonType := "application/json"
  const PngType := "image/png"
  const JpegType := "image/jpeg"
  const OctetStreamType := "application/octet-stream"

  /** The suffix tests in the order the handler tries them. */
  function ContentTypeFor(file: Path): (t: string)
    ensures t in {HtmlType, JavaScriptType, JsonType, PngType, JpegType, OctetStreamType}
  {
    if EndsWith(file, ".html") then HtmlType
    else if EndsWith(file, ".js") then JavaScriptType
    else if EndsWith(file, ".json") then JsonType
    else if EndsWith(file, ".png") then PngType
    else if EndsWith(file, ".jpg") || EndsWith(file, ".jpeg") then JpegType
    else OctetStreamType
  }

  /** The k-th character from the end of a string ending in suffix is the
      suffix's k-th character from the end. */
  lemma CharFromEnd(s: string, suffix: string, k: nat)
    requires EndsWith(s, suffix) && 0 < k <= |suffix|
    ensures s[|s| - k] == suffix[|suffix| - k]
  {
    assert s[|s| - |suffix|..][|suffix| - k] == s[|s| - k];
  }

  /** No file ends in two of the recognised extensions, so the order of the
      tests never matters: ".html", ".js" and ".json" end in 'l', 's' and 'n',
      which no other extension does, and ".png", ".jpg", ".jpeg" differ in
      their second character from the end. */
  lemma {:induction false} ExtensionsExclusive(file: Path)
    ensures EndsWith(file, ".html") ==>
              (!EndsWith(file, ".js") && !EndsWith(file, ".json") && !EndsWith(file, ".png")
               && !EndsWith(file, ".jpg") && !EndsWith(file, ".jpeg"))
    ensures EndsWith(file, ".js") ==>
              (!EndsWith(file, ".json") && !EndsWith(file, ".png")
               && !EndsWith(file, ".jpg") && !EndsWith(file, ".jpeg"))
    ensures EndsWith(file, ".json") ==>
              (!EndsWith(file, ".png") && !EndsWith(file, ".jpg") && !EndsWith(file, ".jpeg"))
    ensures EndsWith(file, ".png") ==> (!EndsWith(file, ".jpg") && !EndsWith(file, ".jpeg"))
  {
    if EndsWith(file, ".html") { CharFromEnd(file, ".html", 1); }
    if EndsWith(file, ".js") { CharFromEnd(file, ".js", 1); }
    if EndsWith(file, ".json") { CharFromEnd(file, ".json", 1); }
    if EndsWith(file, ".png") { CharFromEnd(file, ".png", 1); CharFromEnd(file, ".png", 2); }
    if EndsWith(file, ".jpg") { CharFromEnd(file, ".jpg", 1); CharFromEnd(file, ".jpg", 2); }
    if EndsWith(file, ".jpeg") { CharFromEnd(file, ".jpeg", 1); CharFromEnd(file, ".jpeg", 2); }
  }

  /** Each type is sent exactly for its extensions, in both directions, and
      application/octet-stream for every file with none of them. */
  lemma ContentTypeByExtension(file: Path)
    ensures ContentTypeFor(file) == HtmlType <==> EndsWith(file, ".html")
    ensures ContentTypeFor(file) == JavaScriptType <==> EndsWith(file, ".js")
    ensures ContentTypeFor(file) == JsonType <==> EndsWith(file, ".json")
    ensures ContentTypeFor(file) == PngType <==> EndsWith(file, ".png")
    ensures ContentTypeFor(file) == JpegType <==> EndsWith(file, ".jpg") || EndsWith(file, ".jpeg")
    ensures ContentTypeFor(file) == OctetStreamType <==>
              !EndsWith(file, ".html") && !EndsWith(file, ".js") && !EndsWith(file, ".json")
              && !EndsWith(file, ".png") && !EndsWith(file, ".jpg") && !EndsWith(file, ".jpeg")
  {
    ExtensionsExclusive(file);
  }

  /** A JSON file directly inside a directory is served as application/json. */
  lemma JsonFileType(dir: string, stem: string)
    ensures ContentTypeFor(dir + "/" + stem + ".json") == JsonType
  {
    var file := dir + "/" + stem + ".json";
    assert file[|file| - |".json"|..] == ".json";
    ContentTypeByExtension(file);
  }
}
