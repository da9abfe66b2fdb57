/**
 * The HTTP response layer of http.go: the HTML escaper used for redirect
 * bodies, and the three response builders `httpRedirect`, `httpError` and
 * `httpNotFound`.
 *
 * A Lambda handler returns a pair (response, error); every builder here
 * returns a nil error, which `Reply.err == None` records.
 */
module Http {
  import opened Strings

  datatype Option<+T> = None | Some(value: T)

  /** An API Gateway proxy request, reduced to the two fields the handler reads. */
  datatype Request = Request(httpMethod: string, path: string)

  /** An API Gateway proxy response: status code, header map and body. */
  datatype Response = Response(statusCode: int, headers: map<string, string>, body: string)

  /** What a handler gives back to the Lambda runtime: the response and the error result. */
  datatype Reply = Reply(response: Response, err: Option<string>)

  const MethodGet := "GET"
  const MethodHead := "HEAD"

  const StatusOK := 200
  const StatusTemporaryRedirect := 307
  const StatusNotFound := 404
  const StatusMethodNotAllowed := 405

  const HtmlContentType := "text/html; charset=utf-8"
  const PlainContentType := "text/plain; charset=utf-8"

  /** The header key exactly as http.go spells it (not the usual `X-Content-Type-Options`). */
  const NoSniffHeader := "X-Context_type-Options"

  const NotFoundBody := "404 page not found"

  /** Reason phrases of `http.StatusText` for the codes this service can produce, and "" otherwise. */
  function StatusText(code: int): (text: string)
    ensures '<' !in text
  {
    if code == 200 then "OK"
    else if code == 301 then "Moved Permanently"
    else if code == 302 then "Found"
    else if code == 303 then "See Other"
    else if code == 307 then "Temporary Redirect"
    else if code == 308 then "Permanent Redirect"
    else if code == 404 then "Not Found"
    else if code == 405 then "Method Not Allowed"
    else ""
  }

  // ---------------------------------------------------------------------
  // htmlEscape
  // ---------------------------------------------------------------------

  /** The five characters `htmlReplacer` rewrites. */
  predicate IsSpecial(c: char) {
    c == '&' || c == '<' || c == '>' || c == '"' || c == '\''
  }

  /** Characters that would open a tag or end an attribute value. */
  predicate IsMarkup(c: char) {
    c == '<' || c == '>' || c == '"' || c == '\''
  }

  /** A string holding none of the five special characters. */
  predicate Safe(s: string) {
    forall k | 0 <= k < |s| :: !IsSpecial(s[k])
  }

  predicate NoMarkup(s: string) {
    forall k | 0 <= k < |s| :: !IsMarkup(s[k])
  }

  /** The replacement of one character, as listed in `htmlReplacer`. */
  function EscapeChar(c: char): (e: string)
    ensures |e| >= 1 && NoMarkup(e)
    ensures !IsSpecial(c) ==> e == [c]
    ensures IsSpecial(c) ==> |e| >= 4 && e[0] == '&'
  {
    if c == '&' then "&amp;"
    else if c == '<' then "&lt;"
    else if c == '>' then "&gt;"
    else if c == '"' then "&#34;"
    else if c == '\'' then "&#39;"
    else [c]
  }

  /**
   * `htmlEscape`: one left-to-right pass in which every character is
   * replaced by its entry in `htmlReplacer` (replacements are never
   * rescanned). The result never grows shorter and holds no character
   * that could end an attribute value or open a tag.
   */
  function HtmlEscape(s: string): (r: string)
    ensures |r| >= |s|
    ensures NoMarkup(r)
  {
    if s == [] then [] else EscapeChar(s[0]) + HtmlEscape(s[1..])
  }

  /**
   * A decoder for the five entities `htmlEscape` produces; any other
   * character, including a `&` that starts none of them, is kept as it is.
   */
  function Unescape(t: string): (s: string)
    ensures |s| <= |t|
    decreases |t|
  {
    if t == [] then []
    else if "&amp;" <= t then "&" + Unescape(t[5..])
    else if "&lt;" <= t then "<" + Unescape(t[4..])
    else if "&gt;" <= t then ">" + Unescape(t[4..])
    else if "&#34;" <= t then "\"" + Unescape(t[5..])
    else if "&#39;" <= t then "'" + Unescape(t[5..])
    else [t[0]] + Unescape(t[1..])
  }

  /** Decoding the replacement of one character gives that character back, whatever follows. */
  lemma UnescapeEscapeChar(c: char, rest: string)
    ensures Unescape(EscapeChar(c) + rest) == [c] + Unescape(rest)
  {
    var t := EscapeChar(c) + rest;
    if c == '&' {
      assert t[5..] == rest;
    } else if c == '<' {
      assert t[1] == 'l';
      assert t[4..] == rest;
    } else if c == '>' {
      assert t[1] == 'g';
      assert t[4..] == rest;
    } else if c == '"' {
      assert t[1] == '#' && t[3] == '4';
      assert t[5..] == rest;
    } else if c == '\'' {
      assert t[1] == '#' && t[3] == '9';
      assert t[5..] == rest;
    } else {
      assert t[0] == c;
      assert t[1..] == rest;
    }
  }

  /** Escaping loses nothing: decoding the escaped string gives the original back. */
  lemma {:induction false} HtmlEscapeRoundTrip(s: string)
    ensures Unescape(HtmlEscape(s)) == s
  {
    if s != [] {
      UnescapeEscapeChar(s[0], HtmlEscape(s[1..]));
      HtmlEscapeRoundTrip(s[1..]);
    }
  }

  /** Hence two different strings never escape to the same text. */
  lemma HtmlEscapeInjective(a: string, b: string)
    requires HtmlEscape(a) == HtmlEscape(b)
    ensures a == b
  {
    HtmlEscapeRoundTrip(a);
    HtmlEscapeRoundTrip(b);
  }

  /** The replacement is per character, so escaping distributes over concatenation. */
  lemma {:induction false} HtmlEscapeConcat(a: string, b: string)
    ensures HtmlEscape(a + b) == HtmlEscape(a) + HtmlEscape(b)
  {
    if a == [] {
      assert a + b == b;
    } else {
      assert (a + b)[1..] == a[1..] + b;
      HtmlEscapeConcat(a[1..], b);
    }
  }

  /** The output is exactly as long as the input precisely when nothing needed escaping. */
  lemma {:induction false} HtmlEscapeLength(s: string)
    ensures |HtmlEscape(s)| == |s| <==> Safe(s)
  {
    if s != [] {
      HtmlEscapeLength(s[1..]);
      assert Safe(s) <==> !IsSpecial(s[0]) && Safe(s[1..]) by {
        if !IsSpecial(s[0]) && Safe(s[1..]) {
          forall k | 0 <= k < |s| ensures !IsSpecial(s[k]) {
            if k > 0 { assert s[k] == s[1..][k - 1]; }
          }
        }
      }
    }
  }

  /** `htmlEscape` leaves a string alone exactly when it holds none of `& < > " '`. */
  lemma {:induction false} HtmlEscapeIdentity(s: string)
    ensures HtmlEscape(s) == s <==> Safe(s)
  {
    HtmlEscapeLength(s);
    if s != [] && Safe(s) {
      assert Safe(s[1..]) by {
        forall k | 0 <= k < |s| - 1 ensures !IsSpecial(s[1..][k]) {
          assert s[1..][k] == s[k + 1];
        }
      }
      HtmlEscapeIdentity(s[1..]);
      assert s == [s[0]] + s[1..];
    }
  }

  // ---------------------------------------------------------------------
  // Response builders
  // ---------------------------------------------------------------------

  const AnchorOpen := "<a href=\""
  const AnchorMiddle := "\">"
  const AnchorClose := "</a>.\n"

  /**
   * `httpRedirect`: status `code`, a `Location` header holding `url` as given,
   * a `Content-Type` header for GET and HEAD, and for GET only a one-line page
   * linking to the escaped `url`.
   */
  function HttpRedirect(req: Request, url: string, code: int): (r: Reply)
    ensures r.err == None
    ensures r.response.statusCode == code
    ensures "Location" in r.response.headers && r.response.headers["Location"] == url
    ensures ("Content-Type" in r.response.headers) <==> (req.httpMethod == MethodGet || req.httpMethod == MethodHead)
    ensures "Content-Type" in r.response.headers ==> r.response.headers["Content-Type"] == HtmlContentType
    ensures r.response.headers.Keys <= {"Location", "Content-Type"}
    ensures req.httpMethod != MethodGet <==> r.response.body == ""
  {
    var location := map["Location" := url];
    var headers :=
      if req.httpMethod == MethodGet || req.httpMethod == MethodHead
      then location["Content-Type" := HtmlContentType]
      else location;
    var body :=
      if req.httpMethod == MethodGet
      then AnchorOpen + HtmlEscape(url) + AnchorMiddle + StatusText(code) + AnchorClose
      else "";
    Reply(Response(code, headers, body), None)
  }

  /**
   * Reads a page of the form `<a href="H">T</a>.\n` back into its link
   * target `H` (still escaped) and its link text `T`; `H` ends at the first
   * `"` and `T` at the first `<`, as an HTML tokenizer would read them.
   */
  function ParseAnchor(page: string): Option<(string, string)>
  {
    if !(AnchorOpen <= page) then None
    else
      var (href, afterHref) := Cut(page[|AnchorOpen|..], '"');
      if !(AnchorMiddle <= afterHref) then None
      else
        var (text, close) := Cut(afterHref[|AnchorMiddle|..], '<');
        if close != AnchorClose then None else Some((href, text))
  }

  /** A page built from a link target without `"` and a text without `<` reads back into exactly those two. */
  lemma ParseAnchorOfPage(href: string, text: string)
    requires '"' !in href && '<' !in text
    ensures ParseAnchor(AnchorOpen + href + AnchorMiddle + text + AnchorClose) == Some((href, text))
  {
    var afterHref := AnchorMiddle + (text + AnchorClose);
    var page := AnchorOpen + href + AnchorMiddle + text + AnchorClose;
    assert page == AnchorOpen + (href + afterHref);
    DropPrefix(AnchorOpen, href + afterHref);
    CutUnique(href + afterHref, '"', href, afterHref);
    DropPrefix(AnchorMiddle, text + AnchorClose);
    CutUnique(text + AnchorClose, '<', text, AnchorClose);
  }

  /**
   * The page a GET redirect carries is a well-formed link whose target,
   * once its entities are decoded, is exactly the redirect URL, and whose
   * text is the status code's reason phrase.
   */
  lemma RedirectPageLinksToUrl(req: Request, url: string, code: int)
    requires req.httpMethod == MethodGet
    ensures var page := HttpRedirect(req, url, code).response.body;
      && ParseAnchor(page) == Some((HtmlEscape(url), StatusText(code)))
      && Unescape(ParseAnchor(page).value.0) == url
  {
    var e := HtmlEscape(url);
    ParseAnchorOfPage(e, StatusText(code));
    HtmlEscapeRoundTrip(url);
  }

  /**
   * `httpError`: status `code`, the message as the body with nothing added,
   * and exactly the two headers http.go lists; the request is not consulted.
   */
  function HttpError(req: Request, error: string, code: int): (r: Reply)
    ensures r.err == None
    ensures r.response.statusCode == code
    ensures r.response.body == error
    ensures r.response.headers.Keys == {"Content-Type", NoSniffHeader}
    ensures r.response.headers["Content-Type"] == PlainContentType
    ensures r.response.headers[NoSniffHeader] == "nosniff"
  {
    Reply(
      Response(code, map["Content-Type" := PlainContentType, NoSniffHeader := "nosniff"], error),
      None)
  }

  /** `httpNotFound`: the error response for 404 with the standard "404 page not found" text. */
  function HttpNotFound(req: Request): (r: Reply)
    ensures r == HttpError(req, NotFoundBody, StatusNotFound)
    ensures r.err == None && r.response.statusCode == 404 && r.response.body == "404 page not found"
  {
    HttpError(req, NotFoundBody, StatusNotFound)
  }
}
