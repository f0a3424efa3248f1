/** The risk-scoring service client of `api.py`: the base URL, URL assembly,
    the single retry at the URL with its trailing slash toggled, body
    handling, the `{"items": [...]}` envelope, the percent-encoded category
    segment and the endpoint wrappers.  The network is a parameter: what the
    service answers at each URL. */
module ApiClient {
  import opened Text
  import opened JsonValue

  // ------------------------------------------------------------------ the URL

  const DefaultBase: string := "https://abfzxwlwbqbrsdd-dev.adb.ap-sydney-1.oraclecloudapps.com/ords/uws_project/riskapi"

  /** `s.rstrip("/")`: the text without its run of trailing slashes. */
  function RStripSlash(s: string): (r: string)
    ensures r <= s
    ensures r == [] || r[|r| - 1] != '/'
    ensures forall i :: |r| <= i < |s| ==> s[i] == '/'
  {
    if s != [] && s[|s| - 1] == '/' then RStripSlash(s[..|s| - 1]) else s
  }

  /** `BASE`: the `RISK_API_BASE` override or the default, without trailing slashes. */
  function Base(env: Option<string>): string
  {
    RStripSlash(match env case Some(b) => b case None => DefaultBase)
  }

  /** The path with one leading slash added when it has none. */
  function Rooted(path: string): (r: string)
    ensures StartsWith(r, "/")
    ensures EndsWith(r, path)
  {
    if StartsWith(path, "/") then path else "/" + path
  }

  /** The full URL `_get` requests first. */
  function Url(base: string, path: string): string
  {
    base + Rooted(path)
  }

  lemma BaseNoTrailingSlash(env: Option<string>)
    ensures Base(env) == [] || Base(env)[|Base(env)| - 1] != '/'
  {
  }

  /** The URL is the base, then exactly one slash at the join, and ends with
      the path. */
  lemma UrlJoin(b: string, path: string)
    requires b == [] || b[|b| - 1] != '/'
    ensures var u := Url(b, path);
      u[..|b|] == b && u[|b|] == '/' && (|b| == 0 || u[|b| - 1] != '/') && EndsWith(u, path)
  {
    var r := Rooted(path);
    var u := b + r;
    assert Url(b, path) == u;
    assert r[..1][0] == r[0] == '/';
    assert u[..|b|] == b;
    assert u[|b|] == r[0];
    assert |b| > 0 ==> u[|b| - 1] == b[|b| - 1];
    assert r[|r| - |path|..] == path;
    assert u[|u| - |path|..] == r[|r| - |path|..];
  }

  /** The retry URL: one trailing slash dropped, or one appended. */
  function Alt(url: string): (r: string)
    ensures r != url
  {
    if EndsWith(url, "/") then url[..|url| - 1] else url + "/"
  }

  /** Toggling twice restores a URL that does not end in two slashes. */
  lemma AltInvolution(url: string)
    requires !EndsWith(url, "//")
    ensures Alt(Alt(url)) == url
    ensures EndsWith(Alt(url), "/") <==> !EndsWith(url, "/")
  {
    if EndsWith(url, "/") {
      var a := url[..|url| - 1];
      assert |url| >= 2 ==> url[|url| - 2..] != "//";
      assert !EndsWith(a, "/") by {
        if |a| >= 1 {
          assert url[|url| - 2..] == [a[|a| - 1], '/'];
        }
      }
      assert a + "/" == url;
    } else {
      assert (url + "/")[..|url|] == url;
    }
  }

  // ---------------------------------------------------------- the network

  datatype Response = Response(status: int, reason: string, text: string, json: Option<Json>)

  /** What one GET meets: no answer (connection failure, timeout) or a response
      whose body decodes as JSON (`json`) or not (`None`). */
  datatype Exchange = NoAnswer | Answered(response: Response)

  /** What the service answers at each URL; an absent URL does not answer. */
  type Net = map<string, Exchange>

  function Send(net: Net, url: string): Exchange
  {
    if url in net then net[url] else NoAnswer
  }

  datatype ErrorKind = ConnectionError | HTTPError(status: int) | RuntimeError | RiskAPIError

  datatype Error = Error(kind: ErrorKind, message: string)

  datatype Fetched = Ok(value: Json) | Err(error: Error)

  /** `r.raise_for_status()` raises for client and server error statuses. */
  predicate HttpFailure(status: int)
  {
    400 <= status < 600
  }

  /** `t[:800]`. */
  function Snippet(t: string): (r: string)
    ensures |r| <= 800 && r <= t
    ensures |t| <= 800 ==> r == t
  {
    if |t| <= 800 then t else t[..800]
  }

  /** The body of a successful response: its JSON, else the stripped text as a
      float; `None` when neither. */
  function BodyValue(resp: Response): (r: Option<Json>)
    ensures resp.json.Some? ==> r == resp.json
    ensures resp.json.None? ==> (r.Some? <==> ParseFloat(Strip(resp.text)).Some?)
  {
    match resp.json
    case Some(v) => Some(v)
    case None =>
      match ParseFloat(Strip(resp.text))
      case Some(x) => Some(JNum(x))
      case None => None
  }

  /** An error message that quotes the URL and then at most 800 characters of
      body text on a line of their own. */
  function Message(head: string, url: string, t: string): (r: string)
    ensures EndsWith(r, "\n" + Snippet(t))
    ensures |r| <= |head| + |url| + 801
  {
    var tail := "\n" + Snippet(t);
    var r := head + url + tail;
    assert r[|r| - |tail|..] == tail;
    r
  }

  /** `api._request(url)`. */
  function Request(net: Net, url: string): (r: Fetched)
  {
    match Send(net, url)
    case NoAnswer => Err(Error(ConnectionError, url))
    case Answered(resp) =>
      if HttpFailure(resp.status) then Err(Error(HTTPError(resp.status), url))
      else
        match BodyValue(resp)
        case Some(v) => Ok(v)
        case None => Err(Error(RuntimeError, Message("Non-JSON response from ", url, Strip(resp.text))))
  }

  /** A request's outcome and the URLs requested, in order. */
  datatype Call = Call(result: Fetched, requested: seq<string>)

  /** `api._get(path)`: any failure of the first request leads to exactly one
      more at the toggled URL, whose outcome is the call's. */
  function GetWithRetry(base: string, net: Net, path: string): Call
  {
    var url := Url(base, path);
    match Request(net, url)
    case Ok(v) => Call(Ok(v), [url])
    case Err(e) =>
      var alt := Alt(url);
      if alt != url then Call(Request(net, alt), [url, alt]) else Call(Err(e), [url])
  }

  /** A first-attempt success makes one request; a failure makes exactly two,
      the second at the toggled URL, and its outcome is the call's. */
  lemma GetRequests(base: string, net: Net, path: string)
    ensures var url := Url(base, path); var c := GetWithRetry(base, net, path);
      (Request(net, url).Ok? ==> c.requested == [url] && c.result == Request(net, url)) &&
      (Request(net, url).Err? ==> c.requested == [url, Alt(url)] && c.result == Request(net, Alt(url)))
  {
  }

  /** The call succeeds iff the service answers successfully at the URL or at
      the toggled URL. */
  lemma GetOkIff(base: string, net: Net, path: string)
    ensures var url := Url(base, path);
      GetWithRetry(base, net, path).result.Ok? <==> Request(net, url).Ok? || Request(net, Alt(url)).Ok?
  {
  }

  // -------------------------------------------------------- the envelope

  /** `_items(x)`: a dict's `items` value when the key is present, even when it
      is null; the dict itself otherwise; any other value unchanged. */
  function Items(x: Json): (r: Json)
    ensures !x.JObj? ==> r == x
    ensures x.JObj? && !Has(x, "items") ==> r == x
    ensures Has(x, "items") ==> r == At(x, "items")
  {
    if x.JObj? then (match Get(x.fields, "items") case Some(v) => v case None => x) else x
  }

  /** Unwrapping the envelope `{"items": v, ...}` yields `v`. */
  lemma ItemsEnvelope(v: Json, rest: seq<(string, Json)>)
    ensures Items(JObj([("items", v)] + rest)) == v
  {
    var fs := [("items", v)] + rest;
    assert fs[0] == ("items", v);
  }

  // ------------------------------------------------------- percent-encoding

  /** The unreserved characters of section 2.3 of RFC 3986, the only ones
      `quote(s, safe='')` keeps. */
  predicate Unreserved(c: char)
  {
    'A' <= c <= 'Z' || 'a' <= c <= 'z' || '0' <= c <= '9' || c == '-' || c == '.' || c == '_' || c == '~'
  }

  predicate IsByte(b: int) { 0 <= b < 256 }

  /** The UTF-8 octets of one character. */
  function Utf8(c: char): (bs: seq<int>)
    ensures 1 <= |bs| <= 4
    ensures forall i :: 0 <= i < |bs| ==> IsByte(bs[i])
    ensures c as int < 0x80 <==> |bs| == 1
  {
    var n := c as int;
    if n < 0x80 then [n]
    else if n < 0x800 then [0xC0 + n / 64, 0x80 + n % 64]
    else if n < 0x10000 then [0xE0 + n / 4096, 0x80 + (n / 64) % 64, 0x80 + n % 64]
    else [0xF0 + n / 262144, 0x80 + (n / 4096) % 64, 0x80 + (n / 64) % 64, 0x80 + n % 64]
  }

  /** The UTF-8 encoding of a text. */
  function Utf8Text(s: string): seq<int>
  {
    if s == [] then [] else Utf8(s[0]) + Utf8Text(s[1..])
  }

  const HexDigits: string := "0123456789ABCDEF"

  predicate IsHexDigit(c: char)
  {
    '0' <= c <= '9' || 'A' <= c <= 'F'
  }

  function HexDigit(d: int): (c: char)
    requires 0 <= d < 16
    ensures IsHexDigit(c)
  {
    HexDigits[d]
  }

  function HexValue(c: char): (d: int)
    requires IsHexDigit(c)
    ensures 0 <= d < 16
  {
    if c <= '9' then c as int - '0' as int else c as int - 'A' as int + 10
  }

  lemma HexRoundTrip(d: int)
    requires 0 <= d < 16
    ensures HexValue(HexDigit(d)) == d
  {
    assert HexDigits == ['0', '1', '2', '3', '4', '5', '6', '7', '8', '9', 'A', 'B', 'C', 'D', 'E', 'F'];
  }

  /** `%XX` for each octet. */
  function PercentOctets(bs: seq<int>): (r: string)
    requires forall i :: 0 <= i < |bs| ==> IsByte(bs[i])
    ensures |r| == 3 * |bs|
  {
    if bs == [] then []
    else
      assert IsByte(bs[0]);
      ['%', HexDigit(bs[0] / 16), HexDigit(bs[0] % 16)] + PercentOctets(bs[1..])
  }

  function QuoteChar(c: char): string
  {
    if Unreserved(c) then [c] else PercentOctets(Utf8(c))
  }

  /** `urllib.parse.quote(s, safe='')`. */
  function Quote(s: string): string
  {
    if s == [] then [] else QuoteChar(s[0]) + Quote(s[1..])
  }

  /** A character that may appear in `quote`'s output. */
  predicate QuotedChar(c: char)
  {
    Unreserved(c) || c == '%' || IsHexDigit(c)
  }

  lemma {:induction false} PercentOctetsAlphabet(bs: seq<int>)
    requires forall i :: 0 <= i < |bs| ==> IsByte(bs[i])
    ensures forall i :: 0 <= i < |PercentOctets(bs)| ==> QuotedChar(PercentOctets(bs)[i])
  {
    if bs != [] {
      PercentOctetsAlphabet(bs[1..]);
    }
  }

  /** Only unreserved characters, `%` and hex digits come out; in particular
      no `/`, so an encoded category stays one path segment. */
  lemma {:induction false} QuoteAlphabet(s: string)
    ensures forall i :: 0 <= i < |Quote(s)| ==> QuotedChar(Quote(s)[i])
    ensures '/' !in Quote(s)
  {
    if s != [] {
      QuoteAlphabet(s[1..]);
      if !Unreserved(s[0]) {
        PercentOctetsAlphabet(Utf8(s[0]));
      }
      assert Quote(s) == QuoteChar(s[0]) + Quote(s[1..]);
    }
    assert forall i :: 0 <= i < |Quote(s)| ==> Quote(s)[i] != '/';
  }

  /** A text of unreserved characters is left as it is. */
  lemma {:induction false} QuoteUnreserved(s: string)
    requires forall i :: 0 <= i < |s| ==> Unreserved(s[i])
    ensures Quote(s) == s
  {
    if s != [] {
      QuoteUnreserved(s[1..]);
    }
  }

  /** Percent-decoding to octets: `%XX` gives its octet, any other character
      its UTF-8 octets. */
  function Unquote(q: string): seq<int>
  {
    if q == [] then []
    else if q[0] == '%' && |q| >= 3 && IsHexDigit(q[1]) && IsHexDigit(q[2]) then
      [16 * HexValue(q[1]) + HexValue(q[2])] + Unquote(q[3..])
    else Utf8(q[0]) + Unquote(q[1..])
  }

  /** One `%XX` decodes to its octet. */
  lemma UnquoteOne(b: int, rest: string)
    requires IsByte(b)
    ensures Unquote(['%', HexDigit(b / 16), HexDigit(b % 16)] + rest) == [b] + Unquote(rest)
  {
    HexRoundTrip(b / 16);
    HexRoundTrip(b % 16);
    var q := ['%', HexDigit(b / 16), HexDigit(b % 16)] + rest;
    assert q[0] == '%' && q[1] == HexDigit(b / 16) && q[2] == HexDigit(b % 16);
    assert q[3..] == rest;
  }

  lemma {:induction false} UnquotePercent(bs: seq<int>, rest: string)
    requires forall i :: 0 <= i < |bs| ==> IsByte(bs[i])
    ensures Unquote(PercentOctets(bs) + rest) == bs + Unquote(rest)
  {
    if bs != [] {
      var b := bs[0];
      assert IsByte(b);
      var head := ['%', HexDigit(b / 16), HexDigit(b % 16)];
      var tail := PercentOctets(bs[1..]);
      assert PercentOctets(bs) == head + tail;
      AppendAssoc(head, tail, rest);
      UnquoteOne(b, tail + rest);
      UnquotePercent(bs[1..], rest);
      AppendAssoc([b], bs[1..], Unquote(rest));
      assert [b] + bs[1..] == bs;
    } else {
      assert PercentOctets(bs) + rest == rest;
    }
  }

  /** Percent-decoding the quoted text gives back the UTF-8 octets of the
      original (section 2.1 of RFC 3986). */
  lemma {:induction false} UnquoteQuote(s: string)
    ensures Unquote(Quote(s)) == Utf8Text(s)
  {
    if s != [] {
      UnquoteQuote(s[1..]);
      var c := s[0];
      if Unreserved(c) {
        assert ([c] + Quote(s[1..]))[1..] == Quote(s[1..]);
      } else {
        UnquotePercent(Utf8(c), Quote(s[1..]));
      }
    }
  }

  // ------------------------------------------------------- the endpoints

  datatype Endpoint =
    | Companies
    | Domains
    | CategoryGpa(companyId: Json, category: string)
    | RiskGrade(companyId: Json)
    | DomainScore(domainId: Json)
    | FindingsByCategory(domainId: Json, category: string)

  /** The path each wrapper requests; ids print with `str`, categories are
      quoted. */
  function Path(e: Endpoint): string
  {
    match e
    case Companies => "/get_companies"
    case Domains => "/get_domains"
    case CategoryGpa(c, name) => "/get_category_gpa/" + Str(c) + "/" + Quote(name) + "/"
    case RiskGrade(c) => "/get_company_risk_grade/" + Str(c) + "/"
    case DomainScore(d) => "/get_domain_score/" + Str(d) + "/"
    case FindingsByCategory(d, name) => "/get_findings_by_category/" + Str(d) + "/" + Quote(name) + "/"
  }

  /** The wrappers that pass the response through `_items`. */
  predicate Unwraps(e: Endpoint)
  {
    !e.RiskGrade? && !e.DomainScore?
  }

  function Unwrapped(e: Endpoint, r: Fetched): Fetched
  {
    match r
    case Ok(v) => Ok(if Unwraps(e) then Items(v) else v)
    case Err(x) => Err(x)
  }

  /** An endpoint wrapper of `api.py`. */
  function Fetch(base: string, net: Net, e: Endpoint): Fetched
  {
    Unwrapped(e, GetWithRetry(base, net, Path(e)).result)
  }

  /** Companies, domains, category GPA and findings come out of an envelope;
      risk grade and domain score are returned as the service sent them. */
  lemma FetchUnwraps(base: string, net: Net, e: Endpoint, v: Json)
    requires GetWithRetry(base, net, Path(e)).result == Ok(ItemsEnvelopeOf(v))
    ensures Fetch(base, net, e) == Ok(if e.RiskGrade? || e.DomainScore? then ItemsEnvelopeOf(v) else v)
  {
    ItemsEnvelope(v, []);
  }

  function ItemsEnvelopeOf(v: Json): Json
  {
    JObj([("items", v)])
  }

  function CountChar(s: string, c: char): nat
  {
    if s == [] then 0 else (if s[0] == c then 1 else 0) + CountChar(s[1..], c)
  }

  lemma {:induction false} CountAppend(a: string, b: string, c: char)
    ensures CountChar(a + b, c) == CountChar(a, c) + CountChar(b, c)
  {
    if a != [] {
      assert (a + b)[0] == a[0];
      assert (a + b)[1..] == a[1..] + b;
      CountAppend(a[1..], b, c);
    } else {
      assert a + b == b;
    }
  }

  lemma {:induction false} CountAbsent(s: string, c: char)
    requires c !in s
    ensures CountChar(s, c) == 0
  {
    if s != [] {
      CountAbsent(s[1..], c);
    }
  }

  lemma OneSlash()
    ensures CountChar("/", '/') == 1
  {
  }

  /** A path head `/name/` holds two slashes. */
  lemma HeadSlashes(head: string, name: string)
    requires head == "/" + name + "/" && '/' !in name
    ensures CountChar(head, '/') == 2
  {
    OneSlash();
    CountAbsent(name, '/');
    CountAppend("/", name, '/');
    CountAppend("/" + name, "/", '/');
  }

  /** A path `/name/<id>/<quoted category>/` has the head's two slashes, the
      id's, the separator's and the trailing one. */
  lemma SegmentSlashes(name: string, id: string, category: string)
    requires '/' !in name
    ensures CountChar("/" + name + "/" + id + "/" + Quote(category) + "/", '/') == 4 + CountChar(id, '/')
  {
    var head := "/" + name + "/";
    HeadSlashes(head, name);
    QuoteAlphabet(category);
    CountAbsent(Quote(category), '/');
    OneSlash();
    CountAppend(head, id, '/');
    CountAppend(head + id, "/", '/');
    CountAppend(head + id + "/", Quote(category), '/');
    CountAppend(head + id + "/" + Quote(category), "/", '/');
  }

  lemma GpaHead()
    ensures "/get_category_gpa/" == "/" + "get_category_gpa" + "/" && '/' !in "get_category_gpa"
  {
  }

  lemma FindingsHead()
    ensures "/get_findings_by_category/" == "/" + "get_findings_by_category" + "/" && '/' !in "get_findings_by_category"
  {
  }

  /** Whatever the category name, the category paths have the same number of
      segments: the name's slashes are encoded. */
  lemma CategoryPathSegments(e: Endpoint)
    requires e.CategoryGpa? || e.FindingsByCategory?
    ensures var id := if e.CategoryGpa? then e.companyId else e.domainId;
      CountChar(Path(e), '/') == 4 + CountChar(Str(id), '/')
  {
    if e.CategoryGpa? {
      GpaHead();
      SegmentSlashes("get_category_gpa", Str(e.companyId), e.category);
    } else {
      FindingsHead();
      SegmentSlashes("get_findings_by_category", Str(e.domainId), e.category);
    }
  }
}
