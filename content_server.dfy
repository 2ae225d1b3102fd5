/**
 * The companion content server (`server.js`): a middleware that adds
 * permissive cross-origin headers to every response, and a handler for
 * `GET /api/general/...` that turns the request path into a slug and answers
 * with the stored document (200) or with 404.
 */
module ContentServer {
  import opened Wrappers
  import opened JsStrings

  const ApiPrefix: string := "/api/general/"
  const AllowOriginHeader: string := "Access-Control-Allow-Origin"
  const AllowHeadersHeader: string := "Access-Control-Allow-Headers"
  const AllowedOrigin: string := "*"
  const AllowedHeaders: string := "Origin, X-Requested-With, Content-Type, Accept"

  /**
   * `slug.split("?")[0]`: everything before the first "?". Express's
   * `req.path` never holds the query string, so on a real request nothing
   * is cut; the model takes the path as a plain string.
   */
  function CutQuery(s: string): (r: string)
    ensures '?' !in r
    ensures |r| <= |s| && r == s[..|r|]
    ensures |r| < |s| ==> s[|r|] == '?'
    ensures '?' !in s ==> r == s
  {
    if '?' in s then
      SplitAtFirst(s, '?');
      Split(s, '?')[0]
    else Split(s, '?')[0]
  }

  /** `slug.replace(/\/+$/, "")`: every trailing "/" removed. */
  function StripTrailingSlashes(s: string): (r: string)
    ensures |r| <= |s| && r == s[..|r|]
    ensures r == [] || r[|r| - 1] != '/'
    ensures forall k :: |r| <= k < |s| ==> s[k] == '/'
  {
    if s != [] && s[|s| - 1] == '/' then StripTrailingSlashes(s[..|s| - 1]) else s
  }

  /** The slug the handler looks up for a request path. */
  function SlugFromPath(path: string): (slug: string)
    ensures '?' !in slug
    ensures slug == [] || slug[|slug| - 1] != '/'
  {
    var q := CutQuery(ReplaceFirst(path, ApiPrefix, ""));
    var slug := StripTrailingSlashes(q);
    assert forall k :: 0 <= k < |slug| ==> slug[k] == q[k];
    slug
  }

  /** The handler's two outcomes. */
  datatype Outcome<D> = Found(doc: D) | NotFound

  /** An empty slug is 404; an own key of the table is its document; anything else is 404. */
  function Resolve<D>(path: string, table: map<string, D>): (o: Outcome<D>)
    ensures o.Found? <==> SlugFromPath(path) != "" && SlugFromPath(path) in table
    ensures o.Found? ==> o.doc == table[SlugFromPath(path)]
  {
    var slug := SlugFromPath(path);
    if slug == "" then NotFound
    else if slug in table then Found(table[slug])
    else NotFound
  }

  function StatusOf<D>(o: Outcome<D>): int {
    if o.Found? then 200 else 404
  }

  function BodyOf<D>(o: Outcome<D>): Option<D> {
    if o.Found? then Some(o.doc) else None
  }

  /** The headers every response carries. */
  predicate HasCorsHeaders(headers: map<string, string>) {
    && AllowOriginHeader in headers && headers[AllowOriginHeader] == AllowedOrigin
    && AllowHeadersHeader in headers && headers[AllowHeadersHeader] == AllowedHeaders
  }

  /** An Express response: its header map, its status and the document sent, if any. */
  class Response<D> {
    var headers: map<string, string>
    var status: int
    var body: Option<D>

    constructor ()
      ensures headers == map[] && status == 200 && body == None
    {
      headers := map[];
      status := 200;
      body := None;
    }

    /** `res.header(name, value)`. */
    method Header(name: string, value: string)
      modifies this
      ensures headers == old(headers)[name := value]
      ensures status == old(status) && body == old(body)
    {
      headers := headers[name := value];
    }

    /** `res.sendStatus(code)`: the status, with no document. */
    method SendStatus(code: int)
      modifies this
      ensures status == code && body == None && headers == old(headers)
    {
      status := code;
      body := None;
    }

    /** `res.send(doc)`: the document, with the current status. */
    method Send(doc: D)
      modifies this
      ensures body == Some(doc) && status == old(status) && headers == old(headers)
    {
      body := Some(doc);
    }
  }

  /** The CORS middleware. */
  method Cors<D>(res: Response<D>)
    modifies res
    ensures res.headers ==
            old(res.headers)[AllowOriginHeader := AllowedOrigin][AllowHeadersHeader := AllowedHeaders]
    ensures HasCorsHeaders(res.headers)
    ensures res.status == old(res.status) && res.body == old(res.body)
  {
    res.Header(AllowOriginHeader, AllowedOrigin);
    res.Header(AllowHeadersHeader, AllowedHeaders);
  }

  /** The handler for paths under `/api/general/`. */
  method HandleGeneral<D>(path: string, table: map<string, D>, res: Response<D>)
    modifies res
    ensures res.status == if Resolve(path, table).Found? then old(res.status) else 404
    ensures res.body == BodyOf(Resolve(path, table))
    ensures res.headers == old(res.headers)
  {
    var slug := ReplaceFirst(path, ApiPrefix, "");
    slug := CutQuery(slug);
    slug := StripTrailingSlashes(slug);
    assert slug == SlugFromPath(path);
    if slug == "" {
      res.SendStatus(404);
      return;
    }
    if slug in table {
      res.Send(table[slug]);
    } else {
      res.SendStatus(404);
    }
  }

  /** One request: a fresh response passes through the middleware, then the handler. */
  method Serve<D>(path: string, table: map<string, D>) returns (res: Response<D>)
    ensures fresh(res)
    ensures HasCorsHeaders(res.headers)
    ensures res.status == StatusOf(Resolve(path, table))
    ensures res.body == BodyOf(Resolve(path, table))
  {
    res := new Response();
    Cors(res);
    HandleGeneral(path, table, res);
  }

  /** For a path under the API prefix, the slug is the rest of the path, query cut and trailing slashes stripped. */
  lemma SlugOfApiPath(rest: string)
    ensures SlugFromPath(ApiPrefix + rest) == StripTrailingSlashes(CutQuery(rest))
  {
    assert StartsWith(ApiPrefix + rest, ApiPrefix);
    ReplaceFirstAtStart(ApiPrefix + rest, ApiPrefix, "");
    assert (ApiPrefix + rest)[|ApiPrefix|..] == rest;
    assert "" + rest == rest;
  }

  /** The first piece of a concatenation comes from the left part when that part holds the separator. */
  lemma {:induction false} SplitFirstOfConcat(s: string, t: string, d: char)
    ensures Split(s + t, d)[0] == if d in s then Split(s, d)[0] else s + Split(t, d)[0]
  {
    if s != [] {
      assert s + t == [s[0]] + (s[1..] + t);
      assert s == [s[0]] + s[1..];
      SplitCons(s[0], s[1..] + t, d);
      SplitCons(s[0], s[1..], d);
      SplitFirstOfConcat(s[1..], t, d);
      assert (d in s) == (s[0] == d || d in s[1..]);
    } else {
      assert s + t == t;
    }
  }

  /** The query cut and the trailing-slash strip together are idempotent. */
  lemma NormalisationIdempotent(s: string)
    ensures var n := StripTrailingSlashes(CutQuery(s));
            StripTrailingSlashes(CutQuery(n)) == n
  {
    var n := StripTrailingSlashes(CutQuery(s));
    assert '?' !in n;
  }

  /** Appending "/" to the rest of the path leaves its normalised slug unchanged. */
  lemma TrailingSlashNormalised(rest: string)
    ensures StripTrailingSlashes(CutQuery(rest + "/")) == StripTrailingSlashes(CutQuery(rest))
  {
    SplitFirstOfConcat(rest, "/", '?');
    if '?' !in rest {
      assert Split("/", '?')[0] == "/";
      assert CutQuery(rest + "/") == rest + "/";
      assert (rest + "/")[..|rest|] == rest;
    }
  }

  /** A trailing "/" never changes the outcome, so "about", "about/" and "about//" resolve alike. */
  lemma TrailingSlashIgnored<D>(rest: string, table: map<string, D>)
    ensures Resolve(ApiPrefix + rest + "/", table) == Resolve(ApiPrefix + rest, table)
  {
    assert ApiPrefix + rest + "/" == ApiPrefix + (rest + "/");
    SlugOfApiPath(rest + "/");
    SlugOfApiPath(rest);
    TrailingSlashNormalised(rest);
  }

  /** A query string never changes the outcome (a case `req.path` does not produce in Express, where the query is already split off). */
  lemma QueryIgnored<D>(rest: string, query: string, table: map<string, D>)
    ensures Resolve(ApiPrefix + rest + "?" + query, table) == Resolve(ApiPrefix + rest, table)
  {
    assert ApiPrefix + rest + "?" + query == ApiPrefix + (rest + ['?'] + query);
    SlugOfApiPath(rest + ['?'] + query);
    SlugOfApiPath(rest);
    SplitConcat(rest, query, '?');
  }

  /** Inner slashes are kept: a nested slug such as "works/case-1" is looked up whole. */
  lemma NestedSlugKeptWhole(rest: string)
    requires '?' !in rest
    requires rest == [] || rest[|rest| - 1] != '/'
    ensures SlugFromPath(ApiPrefix + rest) == rest
  {
    SlugOfApiPath(rest);
  }

  /** The prefix alone, or followed only by slashes, is 404 whatever the table holds. */
  lemma EmptySlugNotFound<D>(slashes: nat, table: map<string, D>)
    ensures Resolve(ApiPrefix + seq(slashes, _ => '/'), table) == NotFound
  {
    var rest := seq(slashes, _ => '/');
    SlugOfApiPath(rest);
    assert '?' !in rest;
  }

  /**
   * A stored slug such as "about" is found as "/api/general/about", with a
   * trailing "/" and with a query string; a slug not stored is 404.
   */
  lemma LookupScenario<D>(slug: string, query: string, table: map<string, D>)
    requires slug != [] && '?' !in slug && slug[|slug| - 1] != '/'
    ensures slug in table ==> Resolve(ApiPrefix + slug, table) == Found(table[slug])
    ensures slug in table ==> Resolve(ApiPrefix + slug + "/", table) == Found(table[slug])
    ensures slug in table ==> Resolve(ApiPrefix + slug + "?" + query, table) == Found(table[slug])
    ensures slug !in table ==> Resolve(ApiPrefix + slug, table) == NotFound
  {
    NestedSlugKeptWhole(slug);
    TrailingSlashIgnored(slug, table);
    QueryIgnored(slug, query, table);
  }
}
