/**
  The generated-file cache: named generators, regeneration into one of two
  backends (a file under the upload directory, or a transient with a
  one-year expiry), and serving with a 304 when either the
  If-Modified-Since date or the If-None-Match tag says the client is
  current. The two tests are ORed, unlike sections 3.2 and 3.3 of RFC 7232,
  where If-Modified-Since is ignored once If-None-Match is present.
 */
module ServeFile {
  import opened Common

  const YEAR_IN_SECONDS := 31536000
  const DAY_IN_SECONDS := 86400
  const TRANSIENT_PREFIX := "wpservefile_files_"
  /** The query of the cache's own dispatch action, up to the file name. */
  const ACTION_QUERY := "?action=wpservefile&wpservefile_file="
  /** The caching header: public, for `DAY_IN_SECONDS` written in decimal. */
  const CACHE_CONTROL := "Cache-Control: max-age=86400, public"

  /** A registered generator, by identity; what it returns is the server's `run`. */
  datatype Generator = Generator(id: string)

  /** What a generator returns; it may leave `lastModified` empty. */
  datatype Generated = Generated(content: string, contentType: string, lastModified: Option<int>)

  /** A stored entry: its `lastModified` is always set. */
  datatype FileEntry = FileEntry(content: string, contentType: string, lastModified: int)

  datatype Transient = Transient(value: FileEntry, expiration: int)

  /**
    A request for a file: its name (`wpservefile_file`) and the conditional
    headers, `If-Modified-Since` already read as a timestamp.
   */
  datatype Request = Request(file: string, ifModifiedSince: Option<int>, ifNoneMatch: Option<string>)

  datatype Response = NoResponse | Response(status: int, headers: seq<string>, body: string)

  /** Fill in the generation time when the generator gave no `lastModified`. */
  function Complete(g: Generated, now: int): FileEntry {
    FileEntry(g.content, g.contentType, if g.lastModified.Some? then g.lastModified.value else now)
  }

  /** A supplied timestamp is kept; only a missing one becomes the current time. */
  lemma CompleteKeepsSupplied(g: Generated, now: int)
    ensures var e := Complete(g, now);
            && e.content == g.content && e.contentType == g.contentType
            && (g.lastModified.Some? ==> e.lastModified == g.lastModified.value)
            && (g.lastModified.None? ==> e.lastModified == now)
  {
  }

  function TransientKey(name: string): string {
    TRANSIENT_PREFIX + name
  }

  lemma TransientKeyInjective(a: string, b: string)
    ensures TransientKey(a) == TransientKey(b) ==> a == b
  {
    if TransientKey(a) == TransientKey(b) {
      assert a == TransientKey(a)[|TRANSIENT_PREFIX|..];
      assert b == TransientKey(b)[|TRANSIENT_PREFIX|..];
    }
  }

  /** `trailingslashit(basedir) . 'wpservefile_files/'`. */
  function FilesDir(site: Site): string {
    TrailingSlashIt(site.uploadBaseDir) + "wpservefile_files/"
  }

  /** The entity tag: the hash of the `Last-Modified` value. */
  function ETag(lastModified: int): string {
    Md5(HttpDate(lastModified))
  }

  /** Entries of different times carry different tags (with `md5` taken as collision-free). */
  lemma ETagInjective(a: int, b: int)
    ensures ETag(a) == ETag(b) ==> a == b
  {
    if ETag(a) == ETag(b) {
      assert HttpDate(a) == ETag(a)[|"md5:"|..] && HttpDate(b) == ETag(b)[|"md5:"|..];
      HttpDateInjective(a, b);
    }
  }

  /** The 304 condition: If-Modified-Since not before the entry, or If-None-Match equal to its tag. */
  predicate NotModified(req: Request, lastModified: int) {
    || (req.ifModifiedSince.Some? && req.ifModifiedSince.value >= lastModified)
    || (req.ifNoneMatch.Some? && req.ifNoneMatch.value == ETag(lastModified))
  }

  function FullHeaders(e: FileEntry, now: int): seq<string> {
    [ "HTTP/1.1 200 OK",
      "Expires: " + HttpDate(now + DAY_IN_SECONDS),
      CACHE_CONTROL,
      "Last-Modified: " + HttpDate(e.lastModified),
      "ETag: " + ETag(e.lastModified),
      "Pragma: cache",
      "Content-Type: " + e.contentType ]
  }

  /** The response `serve_file` gives for an entry it has found or regenerated. */
  function Respond(e: FileEntry, req: Request, now: int): (r: Response)
    ensures r.Response?
    ensures r.status == 304 <==> NotModified(req, e.lastModified)
    ensures r.status == 304 ==> r.body == "" && r.headers == ["HTTP/1.1 304 Not Modified"]
    ensures r.status != 304 ==>
              && r.status == 200 && r.body == e.content
              && CACHE_CONTROL in r.headers
              && "Last-Modified: " + HttpDate(e.lastModified) in r.headers
              && "ETag: " + ETag(e.lastModified) in r.headers
              && "Content-Type: " + e.contentType in r.headers
  {
    if NotModified(req, e.lastModified) then Response(304, ["HTTP/1.1 304 Not Modified"], "")
    else
      var h := FullHeaders(e, now);
      assert h[2] == CACHE_CONTROL;
      Response(200, h, e.content)
  }

  /**
    The two tests are alternatives: a current If-Modified-Since date gives a
    304 even when the request also carries a tag that does not match.
   */
  lemma FreshDateOverridesStaleTag(e: FileEntry, name: string, tag: string, now: int)
    ensures Respond(e, Request(name, Some(e.lastModified), Some(tag)), now).status == 304
  {
  }

  /** A request presenting the entry's own tag is answered 304 whatever its date header says. */
  lemma MatchingTagIsNotModified(e: FileEntry, name: string, ims: Option<int>, now: int)
    ensures Respond(e, Request(name, ims, Some(ETag(e.lastModified))), now).status == 304
  {
  }

  /** Without conditional headers the full body is sent. */
  lemma UnconditionalIsFull(e: FileEntry, name: string, now: int)
    ensures Respond(e, Request(name, None, None), now) == Response(200, FullHeaders(e, now), e.content)
  {
  }

  /**
    `get_relative_to_host_root_url`: the static file URL under the upload
    URL, or the cache's own dispatch action; both end with the name.
   */
  function HostRootUrl(useFS: bool, site: Site, name: string): (r: string)
    ensures |name| <= |r| && r[|r| - |name|..] == name
    ensures useFS ==> TrailingSlashIt(site.uploadBaseUrl) <= r
    ensures !useFS ==> AdminUrl(site, "admin-ajax.php") <= r
  {
    if useFS then
      var u := TrailingSlashIt(site.uploadBaseUrl);
      assert u + "wpservefile_files/" + name == u + ("wpservefile_files/" + name);
      u + "wpservefile_files/" + name
    else AdminUrl(site, "admin-ajax.php") + ACTION_QUERY + name
  }

  /**
    With the filesystem backend, the URL of a file and the path it is
    stored at are the upload URL and upload directory followed by the same
    relative path, so the URL names the file `regenerate_file` wrote.
   */
  lemma StaticUrlNamesStoredFile(site: Site, name: string)
    ensures var rel := "wpservefile_files/" + name;
            && HostRootUrl(true, site, name) == TrailingSlashIt(site.uploadBaseUrl) + rel
            && FilesDir(site) + name == TrailingSlashIt(site.uploadBaseDir) + rel
  {
    var rel := "wpservefile_files/" + name;
    assert TrailingSlashIt(site.uploadBaseDir) + "wpservefile_files/" + name == TrailingSlashIt(site.uploadBaseDir) + rel;
    assert TrailingSlashIt(site.uploadBaseUrl) + "wpservefile_files/" + name == TrailingSlashIt(site.uploadBaseUrl) + rel;
  }

  /** `get_relative_to_wp_root_url`: the host-relative URL without the site prefix, when it has it. */
  function WpRootUrl(useFS: bool, site: Site, name: string): (r: string)
    ensures var url := HostRootUrl(useFS, site, name);
            && (SiteUrl(site, "") <= url ==> SiteUrl(site, "") + r == url)
            && (!(SiteUrl(site, "") <= url) ==> r == url)
  {
    StripPrefix(HostRootUrl(useFS, site, name), SiteUrl(site, ""))
  }

  /** The dispatch URL is the site path, the admin-ajax endpoint and the action query. */
  lemma ActionUrlShape(site: Site, name: string)
    ensures HostRootUrl(false, site, name) == site.sitePath + ("/wp-admin/admin-ajax.php" + ACTION_QUERY + name)
  {
    var admin := "/wp-admin/admin-ajax.php";
    assert "/wp-admin/" + "admin-ajax.php" == admin;
    assert AdminUrl(site, "admin-ajax.php") == site.sitePath + admin;
  }

  /** The dispatch URL always starts with the site path, so the site-relative URL is what follows it. */
  lemma WpRootUrlOfAction(site: Site, name: string)
    ensures site.sitePath + WpRootUrl(false, site, name) == HostRootUrl(false, site, name)
    ensures WpRootUrl(false, site, name) == "/wp-admin/admin-ajax.php" + ACTION_QUERY + name
  {
    ActionUrlShape(site, name);
    var url := HostRootUrl(false, site, name);
    var r := WpRootUrl(false, site, name);
    assert SiteUrl(site, "") == site.sitePath;
    assert site.sitePath + r == url;
    assert r == url[|site.sitePath|..];
  }

  /** The names of `names` that have a generator, in order: the generator calls of `invalidate_files`. */
  function Registered(names: seq<string>, files: map<string, Generator>): (r: seq<string>)
    ensures forall n :: n in r <==> n in names && n in files
  {
    if names == [] then []
    else
      var rest := Registered(names[..|names| - 1], files);
      var n := names[|names| - 1];
      assert names == names[..|names| - 1] + [n];
      if n in files then rest + [n] else rest
  }

  /** The transients after regenerating each of `names` in turn. */
  function TransientsAfter(t: map<string, Transient>, names: seq<string>, files: map<string, Generator>,
                           run: Generator -> Generated, now: int): map<string, Transient>
  {
    if names == [] then t
    else
      var t' := TransientsAfter(t, names[..|names| - 1], files, run, now);
      var n := names[|names| - 1];
      if n in files then t'[TransientKey(n) := Transient(Complete(run(files[n]), now), YEAR_IN_SECONDS)] else t'
  }

  /** The stored files after regenerating each of `names` in turn. */
  function FsFilesAfter(fs: map<string, string>, site: Site, names: seq<string>, files: map<string, Generator>,
                        run: Generator -> Generated, now: int): map<string, string>
  {
    if names == [] then fs
    else
      var fs' := FsFilesAfter(fs, site, names[..|names| - 1], files, run, now);
      var n := names[|names| - 1];
      if n in files then fs'[FilesDir(site) + n := Complete(run(files[n]), now).content] else fs'
  }

  /**
    After invalidation every named file with a generator holds its fresh
    entry, and a key of no named file keeps its old transient.
   */
  lemma {:induction false} TransientsAfterRefreshes(t: map<string, Transient>, names: seq<string>,
                                                  files: map<string, Generator>, run: Generator -> Generated,
                                                  now: int, key: string)
    ensures var t' := TransientsAfter(t, names, files, run, now);
            && (forall n :: n in names && n in files ==>
                  TransientKey(n) in t' && t'[TransientKey(n)] == Transient(Complete(run(files[n]), now), YEAR_IN_SECONDS))
            && ((forall n :: n in names && n in files ==> key != TransientKey(n)) ==>
                  (key in t' <==> key in t) && (key in t ==> t'[key] == t[key]))
  {
    if names != [] {
      var init := names[..|names| - 1];
      var last := names[|names| - 1];
      TransientsAfterRefreshes(t, init, files, run, now, key);
      assert names == init + [last];
      forall n | n in names && n in files && n != last
        ensures TransientKey(n) != TransientKey(last)
      {
        TransientKeyInjective(n, last);
      }
    }
  }

  class FileServer {
    /** The backend chosen once at start-up by the filesystem probe. */
    const useFS: bool
    const site: Site
    /** What each generator returns when called. */
    const run: Generator -> Generated
    var files: map<string, Generator>
    var transients: map<string, Transient>
    /** The file store: full path to content. */
    var fsFiles: map<string, string>
    /** The names whose generator was called, in order. */
    var generatorCalls: seq<string>

    /**
      A server for one request: no generator is registered yet, and the
      transients and stored files are what earlier requests left.
     */
    constructor (useFS: bool, site: Site, run: Generator -> Generated,
                 transients: map<string, Transient>, fsFiles: map<string, string>)
      ensures this.useFS == useFS && this.site == site && this.run == run
      ensures files == map[] && generatorCalls == []
      ensures this.transients == transients && this.fsFiles == fsFiles
    {
      this.useFS := useFS;
      this.site := site;
      this.run := run;
      files, generatorCalls := map[], [];
      this.transients, this.fsFiles := transients, fsFiles;
    }

    /** `add_file`: register a generator; nothing is generated yet. */
    method AddFile(name: string, generator: Generator)
      modifies this
      ensures files == old(files)[name := generator]
      ensures transients == old(transients) && fsFiles == old(fsFiles) && generatorCalls == old(generatorCalls)
    {
      files := files[name := generator];
    }

    /**
      The state change of one regeneration of `name` yielding `e`: one
      generator call, and `e` written to exactly one backend.
     */
    twostate predicate Regenerated(name: string, e: FileEntry)
      reads this
    {
      && files == old(files)
      && generatorCalls == old(generatorCalls) + [name]
      && (useFS ==> fsFiles == old(fsFiles)[FilesDir(site) + name := e.content] && transients == old(transients))
      && (!useFS ==> transients == old(transients)[TransientKey(name) := Transient(e, YEAR_IN_SECONDS)]
                     && fsFiles == old(fsFiles))
    }

    /** `regenerate_file`: nothing for an unregistered name, else the stored fresh entry. */
    method RegenerateFile(name: string, now: int) returns (r: Option<FileEntry>)
      modifies this
      ensures name !in old(files) ==> r == None && unchanged(this)
      ensures name in old(files) ==> r == Some(Complete(run(old(files)[name]), now)) && Regenerated(name, r.value)
    {
      if name !in files {
        return None;
      }
      var generated := run(files[name]);
      generatorCalls := generatorCalls + [name];
      var e := Complete(generated, now);
      if useFS {
        fsFiles := fsFiles[FilesDir(site) + name := e.content];
      } else {
        transients := transients[TransientKey(name) := Transient(e, YEAR_IN_SECONDS)];
      }
      r := Some(e);
    }

    /**
      `serve_file`: a cached transient is answered without calling the
      generator; on a miss the file is regenerated, and an unknown file gets
      no response.
     */
    method ServeFile(req: Request, now: int) returns (resp: Response)
      modifies this
      ensures TransientKey(req.file) in old(transients) ==>
                resp == Respond(old(transients)[TransientKey(req.file)].value, req, now) && unchanged(this)
      ensures TransientKey(req.file) !in old(transients) && req.file !in old(files) ==>
                resp == NoResponse && unchanged(this)
      ensures TransientKey(req.file) !in old(transients) && req.file in old(files) ==>
                var e := Complete(run(old(files)[req.file]), now);
                resp == Respond(e, req, now) && Regenerated(req.file, e)
    {
      var key := TransientKey(req.file);
      var e: FileEntry;
      if key in transients {
        e := transients[key].value;
      } else {
        var r := RegenerateFile(req.file, now);
        if r.None? {
          return NoResponse;
        }
        e := r.value;
      }
      resp := Respond(e, req, now);
    }

    /** `invalidate_files`: regenerate each name in order, discarding the results. */
    method InvalidateFiles(names: seq<string>, now: int)
      modifies this
      ensures files == old(files)
      ensures generatorCalls == old(generatorCalls) + Registered(names, files)
      ensures useFS ==> transients == old(transients) && fsFiles == FsFilesAfter(old(fsFiles), site, names, files, run, now)
      ensures !useFS ==> fsFiles == old(fsFiles) && transients == TransientsAfter(old(transients), names, files, run, now)
    {
      var i := 0;
      while i < |names|
        invariant 0 <= i <= |names|
        invariant files == old(files)
        invariant generatorCalls == old(generatorCalls) + Registered(names[..i], files)
        invariant useFS ==> transients == old(transients) && fsFiles == FsFilesAfter(old(fsFiles), site, names[..i], files, run, now)
        invariant !useFS ==> fsFiles == old(fsFiles) && transients == TransientsAfter(old(transients), names[..i], files, run, now)
      {
        assert names[..i + 1][..i] == names[..i];
        var _ := RegenerateFile(names[i], now);
        i := i + 1;
      }
      assert names[..i] == names;
    }
  }

  /**
    The first request for a registered file regenerates it; a second
    request presenting the tag of the first answer is a 304 that does not
    call the generator again.
   */
  method ServeTwice(content: string)
  {
    var run := (g: Generator) => Generated(content, "application/javascript", None);
    var server := new FileServer(false, Site("", "", "/var/www/wp-content/uploads", "/wp-content/uploads"), run, map[], map[]);
    server.AddFile("foo.js", Generator("gen"));
    var first := server.ServeFile(Request("foo.js", None, None), 1000);
    assert first.status == 200 && first.body == content;
    assert server.generatorCalls == ["foo.js"];
    var second := server.ServeFile(Request("foo.js", None, Some(ETag(1000))), 2000);
    assert second.status == 304 && second.body == "";
    assert server.generatorCalls == ["foo.js"];
  }

  /**
    A later request finds the transient an earlier request stored: it is
    answered from it, and the generator is not called.
   */
  method ServeWarm(e: FileEntry, run: Generator -> Generated, now: int)
  {
    var site := Site("", "", "/var/www/wp-content/uploads", "/wp-content/uploads");
    var server := new FileServer(false, site, run, map[TransientKey("foo.js") := Transient(e, YEAR_IN_SECONDS)], map[]);
    server.AddFile("foo.js", Generator("gen"));
    var resp := server.ServeFile(Request("foo.js", None, None), now);
    assert resp.status == 200 && resp.body == e.content;
    assert server.generatorCalls == [];
  }
}
