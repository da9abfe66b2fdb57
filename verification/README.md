# Vanity import path handler — a Dafny model

This project models the request handler of a small AWS Lambda service that
serves Go "vanity" import paths. A request for `<domain><prefix><name>[/sub/path]`
is answered with one of four outcomes:

- 405 for any method other than GET;
- a 307 redirect to an index URL when no package name is given;
- 404 when the name is not in the static package table;
- 200 with a page of `go-import` / `go-source` meta tags pointing at the package's
  GitHub repository, plus a refresh to its godoc.org page.

The HTTP side is modelled too: the HTML escaper used in redirect pages, and the
builders for redirect, error and not-found responses.

Everything in the source is pure, so everything here is a datatype, a function or
a lemma. There are three modules:

- `Strings` (strings.dfy) covers the parts of Go's `strings` package the handler
  uses: `TrimPrefix`, and `Index` with a one-character separator. It also holds
  the "split at the first `/`" idiom, as `Cut`, and a field splitter (`SplitOn`,
  `Join`) for reading meta contents back.
- `Http` (http.dfy) covers http.go: `Request`, `Response`, and `Reply` (the
  response and the error result, which is always nil). It defines `HtmlEscape`,
  with a decoder `Unescape` that serves as its inverse. It defines the three
  builders, and `ParseAnchor`, which reads a redirect page back.
- `Handler` (handler.dfy) covers handler.go. `Config` holds what the closure
  captures. `TemplateData` is the template's input record. `Handle` is the
  handler itself. The functions after it give the meta-tag contents, and the
  module ends with worked requests taken from the tests.

Notes on how the model is built:

- **Template execution is a parameter.** `Handle` receives the page template
  as a function `TemplateData -> Rendered`. A `Rendered` value holds the text
  written and a failure flag. This is how the model states that a template
  failure does not change the outcome.
- **Go strings.** Go strings are byte strings; the model uses `seq<char>`. A
  position returned by `Index` therefore counts characters, while Go's
  `strings.Index` counts bytes: for `é/x` Go gives 2 and the model gives 1.
  What the handler does with the position is cut the string there, and the
  pieces do agree. Every character the code searches for or replaces is
  ASCII, and in UTF-8 an ASCII byte never occurs inside another character's
  encoding, so `head[:i]` and `head[i:]` are the same strings either way.

Behaviour worth knowing:

- The error responses' second header is spelled `X-Context_type-Options`
  (http.go:50), not `X-Content-Type-Options`.
- When the path does not start with the prefix, `TrimPrefix` leaves it unchanged
  and routing goes on with the whole path (handler.go:39).
- `httpRedirect` sets `Content-Type` for HEAD as well as GET (http.go:29). Only
  GET gets a body. The handler never reaches `httpRedirect` with HEAD, because
  any method other than GET is answered 405 first (handler.go:35-37). So a HEAD
  for the bare prefix gets 405, not a header-only redirect.
- The 405 body is `Method not allowed` (handler.go:36).

## Model

| member | source | states |
|---|---|---|
| `Strings.TrimPrefix` | handler.go:39 | when the path starts with the prefix, prefix + result is the path; otherwise the path is returned unchanged |
| `Strings.Index` | handler.go:40 | the result is -1 exactly when the character is absent; otherwise it is a position holding the character with no earlier occurrence (a character position; Go's is a byte offset) |
| `Strings.Cut` | handler.go:39-42 | the two pieces concatenate to the input, the first holds no separator, and the second is empty or starts with the separator |
| `Strings.CutUnique` | handler.go:39-42 | any split with those three properties is the one `Cut` returns, so the head/tail split is unique |
| `Strings.DropPrefix` | handler.go:39 | helper for `RouteOfBuiltPath` and `ParseAnchorOfPage`: a string made of the prefix and a rest starts with the prefix, and trimming the prefix leaves exactly the rest |
| `Strings.SplitOnJoin` | handler.go:76-78 | splitting at spaces recovers the fields of a space-joined meta content when no field holds a space |
| `Strings.JoinSplitOn` | handler.go:76-78 | joining the pieces of a split gives back the original string |
| `Strings.SplitOnFreePrefix` | handler.go:86-87 | helper for `SplitOnJoin`, which reads the meta contents back: a separator-free prefix of a string becomes the front of the first field, and the other fields are those of the rest |
| `Strings.JoinFour` | handler.go:87 | helper for `GoSourceLayout`: joining four pieces puts exactly one separator between neighbours |
| `Strings.JoinFirst` | handler.go:86-87 | helper for `JoinSplitOn`: a character put in front of the first piece comes out in front of the joined string |
| `Http.StatusText` | http.go:35 | the reason phrase used as link text never contains `<`, so it cannot end the link text early |
| `Http.EscapeChar` | http.go:10-18 | a non-special character is kept as itself; each of `& < > " '` becomes an entity that starts with `&`, has at least four characters and holds no markup character |
| `Http.HtmlEscape` | http.go:20-22 | the output is at least as long as the input and contains no `<`, `>`, `"` or `'` |
| `Http.HtmlEscapeRoundTrip` | http.go:10-22 | decoding the five entities in the escaped text gives the original string back, so nothing is lost |
| `Http.HtmlEscapeInjective` | http.go:10-22 | different strings never escape to the same text |
| `Http.HtmlEscapeConcat` | http.go:10-21 | escaping distributes over concatenation, because the replacement is per character in a single pass |
| `Http.HtmlEscapeLength` | http.go:10-18 | the output has the input's length exactly when the input holds none of the five special characters |
| `Http.HtmlEscapeIdentity` | http.go:10-22 | escaping returns its input unchanged if and only if the input holds none of `& < > " '` |
| `Http.HttpRedirect` | http.go:24-44 | status is `code` and the error is nil; `Location` is the URL unescaped; `Content-Type: text/html; charset=utf-8` is present if and only if the method is GET or HEAD; there are no other headers; the body is empty if and only if the method is not GET |
| `Http.ParseAnchorOfPage` | http.go:35 | a page `<a href="H">T</a>.\n` whose H holds no `"` and whose T holds no `<` reads back as exactly (H, T) |
| `Http.RedirectPageLinksToUrl` | http.go:33-37 | for GET, the redirect body is a well-formed link whose target is the escaped URL, which decodes back to the URL, and whose text is the status code's reason phrase |
| `Http.HttpError` | http.go:46-55 | status is `code`, the body is the message verbatim, and the error is nil; the headers are exactly `Content-Type: text/plain; charset=utf-8` and `X-Context_type-Options: nosniff` |
| `Http.HttpNotFound` | http.go:57-59 | the result equals the error response with body `404 page not found` and status 404, and the error is nil |
| `Handler.Route` | handler.go:39-42 | head + tail equals the path with the prefix trimmed; head holds no `/`; tail is empty or starts at the first `/` |
| `Handler.RouteUnique` | handler.go:39-42 | the route is the only such split of the trimmed path |
| `Handler.RouteOfBuiltPath` | handler.go:39-42 | a path built as prefix, then a slash-free name, then a sub-path that is empty or starts with `/`, routes back to exactly that name and sub-path |
| `Handler.PathIsPrefixHeadTail` | handler.go:39-42 | helper for `FoundPageMatchesRequest`: a path that starts with the prefix is the prefix followed by its route's head and tail |
| `Handler.Handle` | handler.go:33-70 | the error is always nil and the status is one of 405, 307, 404, 200. 405 if and only if the method is not GET, with body `Method not allowed`. For GET: 307 if and only if the head is empty, with `Location` equal to the redirect URL. 404 if and only if the head is non-empty and not in the table, with body `404 page not found`. 200 if and only if the head is non-empty and in the table; then the headers are exactly `Cache-Control: public, max-age=300` and the body is the template's output for (domain, prefix, head, tail, repo) |
| `Handler.RenderFailureIsInvisible` | handler.go:57-68 | whether template execution fails or not, a found package gets the same response: status 200 and a nil error |
| `Handler.HandleGet` | handler.go:39-68 | for a GET whose path routes to (head, tail): an empty head gives 307 to the index URL, an unknown head 404 with `404 page not found`, a known head 200 with the template's output for (domain, prefix, head, tail, repo) |
| `Handler.GoImportLayout` | handler.go:86 | `GoImportContent`, the go-import content, is domain+prefix+head, then ` git `, then the repository root, which is `https://github.com/` followed by the repo |
| `Handler.GoSourceLayout` | handler.go:87 | `GoSourceContent`, the go-source content, is the import prefix, then the repository root followed by `/`, by `/tree/master{/dir}` and by `/blob/master{/dir}/{file}#L{line}`, separated by single spaces |
| `Handler.GoImportFields` | handler.go:76-86 | with space-free configuration, the go-import content splits into exactly [import prefix, `git`, repository root] |
| `Handler.GoSourceFields` | handler.go:76-87 | with space-free configuration, the go-source content splits into exactly four fields: the import prefix, the repository home (root + `/`), the directory template and the file template |
| `Handler.RefreshMatchesBodyLink` | handler.go:88-91 | the refresh meta tag (handler.go:88, `DocURL`/`RefreshContent`) and the body's link (handler.go:91, `BodyLinkHref`), written out separately, send the reader to the same page: `RefreshContent` is `0; url=` followed by exactly the body link's target |
| `Handler.RecordSpellsPath` | handler.go:86-91 | helper for `FoundPageMatchesRequest`: for a record whose prefix, head and tail make up the path, the import prefix plus tail is domain+path, the refresh content is `0; url=https://godoc.org/` followed by domain+path, and the body link's target is `https://godoc.org/` followed by domain+path |
| `Handler.FoundPageMatchesRequest` | handler.go:86-91 | for a prefixed path, the declared import prefix plus the tail is domain+path, and the tail is empty or starts with `/`, so the prefix ends at a path-element boundary; `RefreshContent` is `0; url=https://godoc.org/` followed by domain+path, and so is the body link's target |
| `Handler.SubPathKeepsMeta` | handler.go:86-91 | two paths naming the same package get the same go-import and go-source contents; their `DocURL`s (the refresh and link target) are equal if and only if their sub-paths are |
| `Handler.ExamplePackagePage` | handler_test.go:26-31 | GET `/x/pkg1` under the test configuration is 200 with the page for (go.example.com, /x/, pkg1, "", me/pkg1) |
| `Handler.ExamplePackageMeta` | handler_test.go:26-31 | that page's import prefix is `go.example.com/x/pkg1`, its go-import content is `go.example.com/x/pkg1 git https://github.com/me/pkg1` and its refresh content is `0; url=https://godoc.org/go.example.com/x/pkg1` |
| `Handler.ExamplePackageSource` | handler_test.go:29 | that page's go-source content is the one the test expects |
| `Handler.ExampleSubPackagePage` | handler_test.go:32-37 | GET `/x/pkg1/sub/pkg` is 200 with tail `/sub/pkg` |
| `Handler.ExampleSubPackageMeta` | handler_test.go:32-37 | that page has the same go-import and go-source contents as `/x/pkg1`, and its refresh content ends in `/x/pkg1/sub/pkg` |
| `Handler.ExampleOtherRepoPage` | handler_test.go:38-43 | GET `/x/pkg3` is 200 with the page for (go.example.com, /x/, pkg3, "", org/otherreponame): the record takes the repository from the table, not from the package name |
| `Handler.ExampleOtherRepoMeta` | handler_test.go:38-43 | that page's go-import, go-source and refresh contents are the three strings the test expects, all naming `org/otherreponame` |
| `Handler.ExampleNoPackage` | handler_test.go:79-103 | GET `/x/` is 307 with `Location: github.com/go/packages` |
| `Handler.ExampleUnknownPackage` | handler_test.go:105-118 | GET `/x/willnevereverexist` is 404 with body `404 page not found` |
| `Handler.ExampleMethods` | handler_test.go:120-150 | for `/x/pkg1`, GET is 200 and HEAD, POST, PUT, DELETE, TRACE and OPTIONS are 405 |
| `Handler.ProductionServesSplendor` | handler.go:14-29 | under the production constants, GET `/splendor` is 200 with the page for nemith/splendor |

## Left out

- `main` and `lambda.Start` (handler.go:72-74) are Lambda runtime plumbing. The production constants are kept as `Handler.Production`.
- Executing `respTmpl` with `html/template` (handler.go:57-58, 82-94) is not modelled. It is a library with context-dependent escaping. The template is a parameter of `Handle` instead. The meta contents are modelled as the template's plain field layout, before any escaping the library may apply, so the rendered page is not claimed byte for byte.
- `Handler.Handle`: for a found package, the body is stated as the output of the supplied template function, not as the rendered page bytes, because template execution is not part of this model.
- `log.Printf` on a template failure (handler.go:59) is a logging side effect only.
- `Http.StatusText`: knows the reason phrases of 200, 301, 302, 303, 307, 308, 404 and 405, and gives "" for every other code. Go's `http.StatusText` covers the full table.
- The `events.APIGatewayProxyRequest` and `events.APIGatewayProxyResponse` types are replaced by `Request` (method and path) and `Response` (status, header map, body). Their other fields are not consulted by the code.
- The test harness's HTML tokenizer (`parseDoc` and `getAttr`, handler_test.go:152-196) is not modelled. `ParseAnchor` and `SplitOn` are the model's own readers.
- `Strings.Index`: returns a character position, not the byte offset Go's `strings.Index` returns; the two differ once a multi-byte character precedes the match. The handler only uses the position to cut the string (handler.go:41), and the pieces agree because every separator is ASCII.
