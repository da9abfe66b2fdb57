/**
 * The request handler of handler.go: a closure over the service's static
 * configuration that answers one API Gateway request with 405 (not a GET),
 * 307 (no package named), 404 (package unknown) or 200 (a page of
 * go-import / go-source meta tags pointing at the package's repository).
 *
 * Executing the page template belongs to Go's `html/template`, which is not
 * part of this model: the handler is given the template as a function from
 * the template's input record to the text it wrote and whether it failed.
 * The meta tag contents are modelled as the plain field layouts of the
 * template, before any escaping the template library might apply.
 */
module Handler {
  import opened Strings
  import opened Http

  /** What `handler` closes over: the vanity domain, the path prefix, the index URL and the package table. */
  datatype Config = Config(domain: string, prefix: string, redirectURL: string, pkgMap: map<string, string>)

  /** The record the page template is executed with. */
  datatype TemplateData = TemplateData(domain: string, prefix: string, head: string, tail: string, repo: string)

  /** What executing the template produced: the text written so far, and whether execution failed. */
  datatype Rendered = Rendered(body: string, failed: bool)

  const CacheControl := "public, max-age=300"
  const MethodNotAllowedBody := "Method not allowed"

  /**
   * The package name (`head`) and the sub-path after it (`tail`) that a
   * request path names: the prefix is stripped when present, and what is
   * left is split at its first `/`.
   */
  function Route(prefix: string, path: string): (r: (string, string))
    ensures r.0 + r.1 == TrimPrefix(path, prefix)
    ensures '/' !in r.0
    ensures r.1 == [] || r.1[0] == '/'
  {
    Cut(TrimPrefix(path, prefix), '/')
  }

  /** The route is the only split of the stripped path into a slash-free name and a sub-path starting at `/`. */
  lemma RouteUnique(prefix: string, path: string, head: string, tail: string)
    requires head + tail == TrimPrefix(path, prefix)
    requires '/' !in head
    requires tail == [] || tail[0] == '/'
    ensures Route(prefix, path) == (head, tail)
  {
    CutUnique(TrimPrefix(path, prefix), '/', head, tail);
  }

  /** Building a path from the prefix, a slash-free name and a sub-path, and routing it, gives that name and sub-path back. */
  lemma RouteOfBuiltPath(prefix: string, head: string, tail: string)
    requires '/' !in head
    requires tail == [] || tail[0] == '/'
    ensures Route(prefix, prefix + (head + tail)) == (head, tail)
  {
    DropPrefix(prefix, head + tail);
    RouteUnique(prefix, prefix + (head + tail), head, tail);
  }

  /**
   * The handler. Only GET is served; an empty package name redirects to the
   * index URL; an unknown one is 404; a known one gets status 200, a
   * five-minute public cache header and whatever the template wrote, even
   * when template execution failed. The error result is always nil.
   */
  function Handle(cfg: Config, render: TemplateData -> Rendered, req: Request): (r: Reply)
    ensures r.err == None
    ensures r.response.statusCode in {StatusMethodNotAllowed, StatusTemporaryRedirect, StatusNotFound, StatusOK}
    ensures r.response.statusCode == StatusMethodNotAllowed <==> req.httpMethod != MethodGet
    ensures req.httpMethod != MethodGet ==>
      r == HttpError(req, MethodNotAllowedBody, StatusMethodNotAllowed)
    ensures req.httpMethod == MethodGet ==>
      var (head, tail) := Route(cfg.prefix, req.path);
      && (r.response.statusCode == StatusTemporaryRedirect <==> head == "")
      && (r.response.statusCode == StatusNotFound <==> head != "" && head !in cfg.pkgMap)
      && (r.response.statusCode == StatusOK <==> head != "" && head in cfg.pkgMap)
      && (head == "" ==>
            && r == HttpRedirect(req, cfg.redirectURL, StatusTemporaryRedirect)
            && r.response.headers["Location"] == cfg.redirectURL)
      && (head != "" && head !in cfg.pkgMap ==>
            && r == HttpNotFound(req)
            && r.response.body == NotFoundBody)
      && (head != "" && head in cfg.pkgMap ==>
            && r.response.headers == map["Cache-Control" := CacheControl]
            && r.response.body == render(TemplateData(cfg.domain, cfg.prefix, head, tail, cfg.pkgMap[head])).body)
  {
    if req.httpMethod != MethodGet then
      HttpError(req, MethodNotAllowedBody, StatusMethodNotAllowed)
    else
      var (head, tail) := Route(cfg.prefix, req.path);
      if head == "" then
        HttpRedirect(req, cfg.redirectURL, StatusTemporaryRedirect)
      else if head !in cfg.pkgMap then
        HttpNotFound(req)
      else
        var data := TemplateData(cfg.domain, cfg.prefix, head, tail, cfg.pkgMap[head]);
        var out := render(data);
        Reply(Response(StatusOK, map["Cache-Control" := CacheControl], out.body), None)
  }

  /** A template failure never shows in the status, the headers or the error result. */
  lemma RenderFailureIsInvisible(cfg: Config, render: TemplateData -> Rendered, req: Request)
    requires req.httpMethod == MethodGet
    requires var (head, _) := Route(cfg.prefix, req.path); head != "" && head in cfg.pkgMap
    ensures var r := Handle(cfg, render, req);
      var failing := (d: TemplateData) => Rendered(render(d).body, true);
      var succeeding := (d: TemplateData) => Rendered(render(d).body, false);
      && r.response.statusCode == StatusOK
      && r.err == None
      && Handle(cfg, failing, req) == r
      && Handle(cfg, succeeding, req) == r
  {
  }

  /** The outcome of a GET whose path routes to the given name and sub-path. */
  lemma HandleGet(cfg: Config, render: TemplateData -> Rendered, path: string, head: string, tail: string)
    requires Route(cfg.prefix, path) == (head, tail)
    ensures var r := Handle(cfg, render, Request(MethodGet, path));
      && (head == "" ==>
            r.response.statusCode == StatusTemporaryRedirect && r.response.headers["Location"] == cfg.redirectURL)
      && (head != "" && head !in cfg.pkgMap ==>
            r.response.statusCode == StatusNotFound && r.response.body == NotFoundBody)
      && (head != "" && head in cfg.pkgMap ==>
            && r.response.statusCode == StatusOK
            && r.response.body == render(TemplateData(cfg.domain, cfg.prefix, head, tail, cfg.pkgMap[head])).body)
  {
  }

  // ---------------------------------------------------------------------
  // The meta tag contents of the page (the go command's remote import path
  // convention: go-import is "import-prefix vcs repo-root", go-source is
  // "import-prefix home directory file").
  // ---------------------------------------------------------------------

  const GitHub := "https://github.com/"
  const GoDoc := "https://godoc.org/"

  /** `{{.Domain}}{{.Prefix}}{{.Head}}`: the import path the meta tags declare. */
  function ImportPrefix(d: TemplateData): string {
    d.domain + d.prefix + d.head
  }

  function RepoRoot(d: TemplateData): string {
    GitHub + d.repo
  }

  function GoImportContent(d: TemplateData): string {
    Join([ImportPrefix(d), "git", RepoRoot(d)], ' ')
  }

  function GoSourceContent(d: TemplateData): string {
    Join([ImportPrefix(d),
          RepoRoot(d) + "/",
          RepoRoot(d) + "/tree/master{/dir}",
          RepoRoot(d) + "/blob/master{/dir}/{file}#L{line}"], ' ')
  }

  /** The documentation page for the requested path, sub-path included. */
  function DocURL(d: TemplateData): string {
    GoDoc + ImportPrefix(d) + d.tail
  }

  function RefreshContent(d: TemplateData): string {
    "0; url=" + DocURL(d)
  }

  /** The go-import content is the template's `{{.Domain}}{{.Prefix}}{{.Head}} git https://github.com/{{.Repo}}`. */
  lemma GoImportLayout(d: TemplateData)
    ensures GoImportContent(d) == ImportPrefix(d) + " git " + RepoRoot(d)
    ensures RepoRoot(d) == GitHub + d.repo
  {
    var root := RepoRoot(d);
    var f := [ImportPrefix(d), "git", root];
    assert f[1..] == ["git", root] && f[1..][1..] == [root];
    assert Join(f[1..], ' ') == "git" + [' '] + root;
    assert Join(f, ' ') == ImportPrefix(d) + [' '] + ("git" + [' '] + root);
    assert " git " == [' '] + "git" + [' '];
  }

  /** The go-source content is the template's four fields, home, directory and file URLs, separated by single spaces. */
  lemma GoSourceLayout(d: TemplateData)
    ensures GoSourceContent(d) ==
      ImportPrefix(d) + " " + (RepoRoot(d) + "/") + " " + (RepoRoot(d) + "/tree/master{/dir}") + " "
      + (RepoRoot(d) + "/blob/master{/dir}/{file}#L{line}")
  {
    var root := RepoRoot(d);
    JoinFour(ImportPrefix(d), root + "/", root + "/tree/master{/dir}", root + "/blob/master{/dir}/{file}#L{line}", ' ');
  }

  /** The fields of a go-import or go-source content: no field holds a space. */
  predicate SpaceFree(fields: seq<string>) {
    forall k | 0 <= k < |fields| :: ' ' !in fields[k]
  }

  predicate PlainTemplateData(d: TemplateData) {
    ' ' !in d.domain && ' ' !in d.prefix && ' ' !in d.head && ' ' !in d.repo
  }

  /**
   * When none of the configured strings and the package name holds a space,
   * a reader splitting the go-import content at spaces gets exactly the
   * import prefix, "git" and the repository root.
   */
  lemma GoImportFields(d: TemplateData)
    requires PlainTemplateData(d)
    ensures SplitOn(GoImportContent(d), ' ') == [ImportPrefix(d), "git", RepoRoot(d)]
  {
    var fields := [ImportPrefix(d), "git", RepoRoot(d)];
    assert SpaceFree(fields) by {
      assert ' ' !in ImportPrefix(d);
      assert ' ' !in RepoRoot(d);
    }
    SplitOnJoin(fields, ' ');
  }

  /** Likewise the go-source content splits into exactly its four fields: import prefix, home, directory and file templates. */
  lemma GoSourceFields(d: TemplateData)
    requires PlainTemplateData(d)
    ensures SplitOn(GoSourceContent(d), ' ') ==
      [ImportPrefix(d), RepoRoot(d) + "/", RepoRoot(d) + "/tree/master{/dir}", RepoRoot(d) + "/blob/master{/dir}/{file}#L{line}"]
  {
    var root := RepoRoot(d);
    var fields := [ImportPrefix(d), root + "/", root + "/tree/master{/dir}", root + "/blob/master{/dir}/{file}#L{line}"];
    assert SpaceFree(fields) by {
      assert ' ' !in ImportPrefix(d);
      assert ' ' !in root;
      assert ' ' !in "/tree/master{/dir}";
      assert ' ' !in "/blob/master{/dir}/{file}#L{line}";
    }
    SplitOnJoin(fields, ' ');
  }

  /** A path that carries the prefix is the prefix followed by its route's head and tail. */
  lemma PathIsPrefixHeadTail(prefix: string, path: string)
    requires HasPrefix(path, prefix)
    ensures path == prefix + (Route(prefix, path).0 + Route(prefix, path).1)
  {
    assert prefix + TrimPrefix(path, prefix) == path;
  }

  /** The target of the page body's "move along" link, `https://godoc.org/{{.Domain}}{{.Prefix}}{{.Head}}{{.Tail}}`. */
  function BodyLinkHref(d: TemplateData): string {
    GoDoc + d.domain + d.prefix + d.head + d.tail
  }

  /** The refresh meta tag sends the browser to the same page as the body's link. */
  lemma RefreshMatchesBodyLink(d: TemplateData)
    ensures DocURL(d) == BodyLinkHref(d)
    ensures RefreshContent(d) == "0; url=" + BodyLinkHref(d)
  {
    assert ImportPrefix(d) + d.tail == d.domain + d.prefix + d.head + d.tail;
  }

  /** A record whose prefix, head and tail make up `path` declares the import path domain+path, and refreshes to its documentation. */
  lemma RecordSpellsPath(d: TemplateData, path: string)
    requires path == d.prefix + (d.head + d.tail)
    ensures ImportPrefix(d) + d.tail == d.domain + path
    ensures RefreshContent(d) == "0; url=" + GoDoc + d.domain + path
    ensures BodyLinkHref(d) == GoDoc + d.domain + path
  {
    var whole := d.domain + path;
    assert ImportPrefix(d) + d.tail == whole;
    assert DocURL(d) == GoDoc + whole;
    RefreshMatchesBodyLink(d);
  }

  /**
   * For the template record of a request whose path carries the prefix, the
   * import prefix the meta tags declare is the requested import path (domain
   * followed by the path) cut at a path-element boundary, and the refresh
   * target is the documentation page of the whole requested path.
   */
  lemma FoundPageMatchesRequest(cfg: Config, path: string, d: TemplateData)
    requires HasPrefix(path, cfg.prefix)
    requires d.domain == cfg.domain && d.prefix == cfg.prefix
    requires (d.head, d.tail) == Route(cfg.prefix, path)
    ensures ImportPrefix(d) + d.tail == cfg.domain + path
    ensures d.tail == [] || d.tail[0] == '/'
    ensures RefreshContent(d) == "0; url=" + GoDoc + cfg.domain + path
    ensures BodyLinkHref(d) == GoDoc + cfg.domain + path
  {
    PathIsPrefixHeadTail(cfg.prefix, path);
    RecordSpellsPath(d, path);
  }

  /**
   * Two requests for the same package that differ only in the sub-path get
   * the same go-import and go-source contents; only the documentation link
   * follows the sub-path.
   */
  lemma SubPathKeepsMeta(cfg: Config, path1: string, path2: string)
    requires Route(cfg.prefix, path1).0 == Route(cfg.prefix, path2).0
    requires Route(cfg.prefix, path1).0 in cfg.pkgMap
    ensures var (head, tail1) := Route(cfg.prefix, path1);
      var tail2 := Route(cfg.prefix, path2).1;
      var d1 := TemplateData(cfg.domain, cfg.prefix, head, tail1, cfg.pkgMap[head]);
      var d2 := TemplateData(cfg.domain, cfg.prefix, head, tail2, cfg.pkgMap[head]);
      && GoImportContent(d1) == GoImportContent(d2)
      && GoSourceContent(d1) == GoSourceContent(d2)
      && (DocURL(d1) == DocURL(d2) <==> tail1 == tail2)
  {
    var (head, tail1) := Route(cfg.prefix, path1);
    var tail2 := Route(cfg.prefix, path2).1;
    var d1 := TemplateData(cfg.domain, cfg.prefix, head, tail1, cfg.pkgMap[head]);
    var d2 := TemplateData(cfg.domain, cfg.prefix, head, tail2, cfg.pkgMap[head]);
    if DocURL(d1) == DocURL(d2) {
      var p := GoDoc + ImportPrefix(d1);
      assert tail1 == DocURL(d1)[|p|..];
    }
  }

  // ---------------------------------------------------------------------
  // Configurations and worked requests
  // ---------------------------------------------------------------------

  /** The configuration `main` starts the service with. */
  const Production := Config("go.brbe.net", "/", "https://github.com/nemith",
    map["blowme" := "nemith/blowme", "goline" := "nemith/goline", "he" := "nemith/he",
        "mipples" := "nemith/mipples", "tictac" := "nemith/tictac", "tvdb" := "nemith/tvdb",
        "splendor" := "nemith/splendor"])

  /** A configuration with a multi-character prefix and three packages. */
  const Example := Config("go.example.com", "/x/", "github.com/go/packages",
    map["pkg1" := "me/pkg1", "pkg2" := "org/pkg2", "pkg3" := "org/otherreponame"])

  /** A GET for a known package is served the page built from its template record. */
  lemma ExamplePackagePage(render: TemplateData -> Rendered, path: string)
    requires path == "/x/pkg1"
    ensures var r := Handle(Example, render, Request("GET", path));
      && r.response.statusCode == 200
      && r.response.body == render(TemplateData("go.example.com", "/x/", "pkg1", "", "me/pkg1")).body
  {
    assert "pkg1" in Example.pkgMap && Example.pkgMap["pkg1"] == "me/pkg1";
    var head, tail := "pkg1", "";
    assert Route(Example.prefix, path) == (head, tail) by {
      assert path == "/x/" + (head + tail);
      RouteOfBuiltPath("/x/", head, tail);
    }
    HandleGet(Example, render, path, head, tail);
  }

  /** The go-import and refresh contents of that page, piece by piece. */
  lemma ExamplePackageMeta(d: TemplateData)
    requires d == TemplateData("go.example.com", "/x/", "pkg1", "", "me/pkg1")
    ensures ImportPrefix(d) == "go.example.com/x/pkg1"
    ensures GoImportContent(d) == "go.example.com/x/pkg1" + " git " + "https://github.com/me/pkg1"
    ensures RefreshContent(d) == "0; url=" + "https://godoc.org/" + "go.example.com/x/pkg1"
  {
    var ip, root := "go.example.com/x/pkg1", "https://github.com/me/pkg1";
    assert ImportPrefix(d) == ip;
    assert RepoRoot(d) == root;
    GoImportLayout(d);
    assert DocURL(d) == GoDoc + ip by {
      assert ImportPrefix(d) + d.tail == ip;
    }
  }

  /** The go-source content of that page, piece by piece. */
  lemma ExamplePackageSource(d: TemplateData)
    requires d == TemplateData("go.example.com", "/x/", "pkg1", "", "me/pkg1")
    ensures var root := "https://github.com/me/pkg1";
      GoSourceContent(d) == "go.example.com/x/pkg1" + " " + (root + "/") + " " + (root + "/tree/master{/dir}") + " "
                            + (root + "/blob/master{/dir}/{file}#L{line}")
  {
    assert ImportPrefix(d) == "go.example.com/x/pkg1";
    assert RepoRoot(d) == "https://github.com/me/pkg1";
    GoSourceLayout(d);
  }

  /** A sub-package path is served the same package's page, with the sub-path as the record's tail. */
  lemma ExampleSubPackagePage(render: TemplateData -> Rendered, path: string)
    requires path == "/x/pkg1/sub/pkg"
    ensures var r := Handle(Example, render, Request("GET", path));
      && r.response.statusCode == 200
      && r.response.body == render(TemplateData("go.example.com", "/x/", "pkg1", "/sub/pkg", "me/pkg1")).body
  {
    assert "pkg1" in Example.pkgMap && Example.pkgMap["pkg1"] == "me/pkg1";
    var head, tail := "pkg1", "/sub/pkg";
    assert Route(Example.prefix, path) == (head, tail) by {
      assert path == "/x/" + (head + tail);
      RouteOfBuiltPath("/x/", head, tail);
    }
    HandleGet(Example, render, path, head, tail);
  }

  /** That page keeps the package's go-import content; only the refresh target follows the sub-path. */
  lemma ExampleSubPackageMeta(d: TemplateData)
    requires d == TemplateData("go.example.com", "/x/", "pkg1", "/sub/pkg", "me/pkg1")
    ensures GoImportContent(d) == "go.example.com/x/pkg1" + " git " + "https://github.com/me/pkg1"
    ensures RefreshContent(d) == "0; url=" + "https://godoc.org/" + "go.example.com/x/pkg1" + "/sub/pkg"
    ensures var root := "https://github.com/me/pkg1";
      GoSourceContent(d) == "go.example.com/x/pkg1" + " " + (root + "/") + " " + (root + "/tree/master{/dir}") + " "
                            + (root + "/blob/master{/dir}/{file}#L{line}")
  {
    var ip, root := "go.example.com/x/pkg1", "https://github.com/me/pkg1";
    assert ImportPrefix(d) == ip;
    assert RepoRoot(d) == root;
    GoImportLayout(d);
    GoSourceLayout(d);
  }

  /** A package whose repository has another name: the meta tags follow the table entry, not the package name. */
  lemma ExampleOtherRepoPage(render: TemplateData -> Rendered, path: string)
    requires path == "/x/pkg3"
    ensures var r := Handle(Example, render, Request("GET", path));
      && r.response.statusCode == 200
      && r.response.body == render(TemplateData("go.example.com", "/x/", "pkg3", "", "org/otherreponame")).body
  {
    assert "pkg3" in Example.pkgMap && Example.pkgMap["pkg3"] == "org/otherreponame";
    var head, tail := "pkg3", "";
    assert Route(Example.prefix, path) == (head, tail) by {
      assert path == "/x/" + (head + tail);
      RouteOfBuiltPath("/x/", head, tail);
    }
    HandleGet(Example, render, path, head, tail);
  }

  /** The go-import, go-source and refresh contents of that page, piece by piece. */
  lemma ExampleOtherRepoMeta(d: TemplateData)
    requires d == TemplateData("go.example.com", "/x/", "pkg3", "", "org/otherreponame")
    ensures GoImportContent(d) == "go.example.com/x/pkg3" + " git " + "https://github.com/org/otherreponame"
    ensures var root := "https://github.com/org/otherreponame";
      GoSourceContent(d) == "go.example.com/x/pkg3" + " " + (root + "/") + " " + (root + "/tree/master{/dir}") + " "
                            + (root + "/blob/master{/dir}/{file}#L{line}")
    ensures RefreshContent(d) == "0; url=" + "https://godoc.org/" + "go.example.com/x/pkg3"
  {
    var ip, root := "go.example.com/x/pkg3", "https://github.com/org/otherreponame";
    assert ImportPrefix(d) == ip;
    assert RepoRoot(d) == root;
    GoImportLayout(d);
    GoSourceLayout(d);
    assert DocURL(d) == GoDoc + ip by {
      assert ImportPrefix(d) + d.tail == ip;
    }
  }

  /** The bare prefix redirects to the index URL. */
  lemma ExampleNoPackage(render: TemplateData -> Rendered, path: string)
    requires path == "/x/"
    ensures var r := Handle(Example, render, Request("GET", path));
      r.response.statusCode == 307 && r.response.headers["Location"] == "github.com/go/packages"
  {
    var head, tail := "", "";
    assert Route(Example.prefix, path) == (head, tail) by {
      assert path == "/x/" + (head + tail);
      RouteOfBuiltPath("/x/", head, tail);
    }
    HandleGet(Example, render, path, head, tail);
  }

  /** An unknown package name is not found. */
  lemma ExampleUnknownPackage(render: TemplateData -> Rendered, path: string)
    requires path == "/x/willnevereverexist"
    ensures var r := Handle(Example, render, Request("GET", path));
      r.response.statusCode == 404 && r.response.body == "404 page not found"
  {
    var head, tail := "willnevereverexist", "";
    assert head !in Example.pkgMap;
    assert Route(Example.prefix, path) == (head, tail) by {
      assert path == "/x/" + (head + tail);
      RouteOfBuiltPath("/x/", head, tail);
    }
    HandleGet(Example, render, path, head, tail);
  }

  /** Only GET is served: the other standard methods are refused even for a known package. */
  lemma ExampleMethods(render: TemplateData -> Rendered, verb: string, path: string)
    requires verb in ["GET", "HEAD", "POST", "PUT", "DELETE", "TRACE", "OPTIONS"]
    requires path == "/x/pkg1"
    ensures var r := Handle(Example, render, Request(verb, path));
      r.response.statusCode == if verb == "GET" then 200 else 405
  {
    if verb == "GET" {
      ExamplePackagePage(render, path);
    }
  }

  /** The production table serves this repository's own package. */
  lemma ProductionServesSplendor(render: TemplateData -> Rendered, path: string)
    requires path == "/splendor"
    ensures var r := Handle(Production, render, Request("GET", path));
      && r.response.statusCode == 200
      && r.response.body == render(TemplateData("go.brbe.net", "/", "splendor", "", "nemith/splendor")).body
  {
    assert "splendor" in Production.pkgMap && Production.pkgMap["splendor"] == "nemith/splendor";
    var head, tail := "splendor", "";
    assert Route(Production.prefix, path) == (head, tail) by {
      assert path == "/" + (head + tail);
      RouteOfBuiltPath("/", head, tail);
    }
    HandleGet(Production, render, path, head, tail);
  }
}
