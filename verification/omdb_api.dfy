/**
 The `OmdbApi` client: its immutable configuration, the poster URL, and
 the two network-backed lookups `byIdOrTitle` and `search`, each of which
 builds a filtered query, merges the caller's cURL options with its own,
 and hands one exchange to the shared normalisation cascade.

 Two things outside the class are parameters here: `http_build_query`
 (an `Encoder`, whose character-level output is not modelled) and the
 network (a `Transport` that maps the option map a call sends to the
 outcome of that exchange).
 */
module OmdbApi {
  import opened PhpValues
  import opened PhpArrays
  import opened Curl

  const DEFAULT_BASE_URL: string := "https://www.omdbapi.com/"
  const DEFAULT_IMG_URL: string := "https://img.omdbapi.com/"
  const VALIDATION_MESSAGE: string := "Either $title or $imdbID must be provided."

  /** The default `$CURLOPT` argument of both lookups: a 10-second timeout. */
  const DEFAULT_CURLOPT: Options := map[CURLOPT_TIMEOUT := PInt(10)]

  /** The keys of the detail query, in the order the source lists them. */
  const DETAIL_KEYS: seq<string> := ["i", "t", "type", "y", "plot", "r", "callback", "v", "apikey"]

  /** The keys of the search query, in the order the source lists them. */
  const SEARCH_KEYS: seq<string> := ["s", "type", "y", "r", "page", "callback", "v", "apikey"]

  /** `http_build_query`: renders a query array as a URL query string. */
  type Encoder = Query -> string

  /** The network: the outcome of sending one request with the given cURL options. */
  type Transport = Options -> Exchange

  /**
   The client's three public properties, read at call time. In PHP they are
   untyped and can be reassigned after construction; the model takes the
   values they hold when a method runs, and only string values.
   */
  datatype Client = Client(apikey: string, baseUrl: string, imgUrl: string)

  /** Arguments of `byIdOrTitle`; `kind` is the `$type` parameter. */
  datatype DetailParams = DetailParams(
    title: Option<string>,
    imdbID: Option<string>,
    kind: Option<string>,
    year: Option<int>,
    fullPlot: Option<bool>,
    callback: PhpValue,
    version: Option<string>,
    curlopt: Options)

  /** Arguments of `search`; `kind` is the `$type` parameter. */
  datatype SearchParams = SearchParams(
    title: string,
    kind: Option<string>,
    year: Option<int>,
    page: Option<int>,
    callback: PhpValue,
    version: Option<string>,
    curlopt: Options)

  /** A lookup's result together with every option map it handed to the transport, in order. */
  datatype Call = Call(result: ApiResult, sent: seq<Options>)

  /** `new OmdbApi($apikey, ...)`: an omitted URL argument takes its default. */
  function NewClient(apikey: string, baseUrl: Option<string>, imgUrl: Option<string>): (c: Client)
    ensures c.apikey == apikey
    ensures baseUrl.None? ==> c.baseUrl == DEFAULT_BASE_URL
    ensures baseUrl.Some? ==> c.baseUrl == baseUrl.value
    ensures imgUrl.None? ==> c.imgUrl == DEFAULT_IMG_URL
    ensures imgUrl.Some? ==> c.imgUrl == imgUrl.value
  {
    Client(
      apikey,
      match baseUrl case None => DEFAULT_BASE_URL case Some(u) => u,
      match imgUrl case None => DEFAULT_IMG_URL case Some(u) => u)
  }

  /** `byIdOrTitle` called with only a title and/or an id, every other argument at its default. */
  function DetailDefaults(title: Option<string>, imdbID: Option<string>): (p: DetailParams)
    ensures p.title == title && p.imdbID == imdbID
    ensures p.kind == None && p.year == None && p.version == None
    ensures p.fullPlot == Some(false) && p.callback == PNull
    ensures p.curlopt == map[CURLOPT_TIMEOUT := PInt(10)]
  {
    DetailParams(title, imdbID, None, None, Some(false), PNull, None, DEFAULT_CURLOPT)
  }

  /** `search` called with only a title, every other argument at its default. */
  function SearchDefaults(title: string): (p: SearchParams)
    ensures p.title == title
    ensures p.kind == None && p.year == None && p.version == None
    ensures p.page == Some(1) && p.callback == PNull
    ensures p.curlopt == map[CURLOPT_TIMEOUT := PInt(10)]
  {
    SearchParams(title, None, None, Some(1), PNull, None, DEFAULT_CURLOPT)
  }

  /** `$base . '?' . http_build_query($query)`. */
  function BuildUrl(base: string, q: Query, enc: Encoder): (url: string)
    ensures |url| == |base| + 1 + |enc(q)|
    ensures url[..|base|] == base && url[|base|] == '?'
    ensures url[|base| + 1..] == enc(q)
  {
    base + "?" + enc(q)
  }

  /** Every value of the query is a string, as in the poster query. */
  predicate StringValued(q: Query) {
    forall i :: 0 <= i < |q| ==> q[i].1.PString?
  }

  /**
   `http_build_query` never confuses two different query arrays whose values
   are all strings. (Over arbitrary values it does: `1`, `'1'` and `true`
   encode alike, and `null` entries are skipped.)
   */
  ghost predicate Injective(enc: Encoder) {
    forall q1, q2 :: StringValued(q1) && StringValued(q2) && enc(q1) == enc(q2) ==> q1 == q2
  }

  /** The poster query: the key and the id, in that order, with no filtering. */
  function PosterQuery(c: Client, imdbID: string): (q: Query)
    ensures Keys(q) == ["apikey", "i"]
    ensures StringValued(q)
    ensures Get(q, "apikey") == Some(PString(c.apikey))
    ensures Get(q, "i") == Some(PString(imdbID))
  {
    [("apikey", PString(c.apikey)), ("i", PString(imdbID))]
  }

  /** `poster($imdbID)`: a URL on the image endpoint; no I/O and no validation. */
  function Poster(c: Client, imdbID: string, enc: Encoder): (url: string)
    ensures |url| > |c.imgUrl|
    ensures url[..|c.imgUrl|] == c.imgUrl && url[|c.imgUrl|] == '?'
    ensures url[|c.imgUrl| + 1..] == enc(PosterQuery(c, imdbID))
  {
    BuildUrl(c.imgUrl, PosterQuery(c, imdbID), enc)
  }

  /** The literal array `byIdOrTitle` passes to `array_filter`, before filtering. */
  function DetailCandidates(c: Client, p: DetailParams): (q: Query)
    ensures Keys(q) == DETAIL_KEYS
    ensures DistinctKeys(q)
  {
    [ ("i", OfString(p.imdbID)),
      ("t", OfString(p.title)),
      ("type", OfString(p.kind)),
      ("y", OfInt(p.year)),
      ("plot", if p.fullPlot == Some(true) then PString("full") else PNull),
      ("r", PString("json")),
      ("callback", p.callback),
      ("v", OfString(p.version)),
      ("apikey", PString(c.apikey)) ]
  }

  /** The literal array `search` passes to `array_filter`, before filtering. */
  function SearchCandidates(c: Client, p: SearchParams): (q: Query)
    ensures Keys(q) == SEARCH_KEYS
    ensures DistinctKeys(q)
  {
    [ ("s", PString(p.title)),
      ("type", OfString(p.kind)),
      ("y", OfInt(p.year)),
      ("r", PString("json")),
      ("page", OfInt(p.page)),
      ("callback", p.callback),
      ("v", OfString(p.version)),
      ("apikey", PString(c.apikey)) ]
  }

  /** The query `byIdOrTitle` encodes: the truthy entries of its candidate array. */
  function DetailQuery(c: Client, p: DetailParams): (q: Query)
    ensures forall e :: e in q <==> e in DetailCandidates(c, p) && Truthy(e.1)
    ensures IsSubseq(q, DetailCandidates(c, p))
  {
    var s := DetailCandidates(c, p);
    FilterMembers(s);
    FilterSubseq(s);
    ArrayFilter(s)
  }

  /** The query `search` encodes: the truthy entries of its candidate array. */
  function SearchQuery(c: Client, p: SearchParams): (q: Query)
    ensures forall e :: e in q <==> e in SearchCandidates(c, p) && Truthy(e.1)
    ensures IsSubseq(q, SearchCandidates(c, p))
  {
    var s := SearchCandidates(c, p);
    FilterMembers(s);
    FilterSubseq(s);
    ArrayFilter(s)
  }

  /**
   `$CURLOPT + [CURLOPT_URL => $url, CURLOPT_RETURNTRANSFER => true]`: the
   caller's options win every collision, the built URL included.
   */
  function RequestOptions(curlopt: Options, url: string): (o: Options)
    ensures o.Keys == curlopt.Keys + {CURLOPT_URL, CURLOPT_RETURNTRANSFER}
    ensures forall k :: k in curlopt ==> o[k] == curlopt[k]
    ensures CURLOPT_URL !in curlopt ==> o[CURLOPT_URL] == PString(url)
    ensures CURLOPT_RETURNTRANSFER !in curlopt ==> o[CURLOPT_RETURNTRANSFER] == PBool(true)
  {
    PhpUnion(curlopt, map[CURLOPT_URL := PString(url), CURLOPT_RETURNTRANSFER := PBool(true)])
  }

  /**
   The option map `byIdOrTitle` hands to `curl`: the caller's options, plus
   the URL of the base endpoint with the detail query and `RETURNTRANSFER`
   wherever the caller left them unset.
   */
  function DetailRequest(c: Client, p: DetailParams, enc: Encoder): (o: Options)
    ensures o.Keys == p.curlopt.Keys + {CURLOPT_URL, CURLOPT_RETURNTRANSFER}
    ensures forall k :: k in p.curlopt ==> o[k] == p.curlopt[k]
    ensures CURLOPT_URL !in p.curlopt ==> o[CURLOPT_URL] == PString(BuildUrl(c.baseUrl, DetailQuery(c, p), enc))
    ensures CURLOPT_RETURNTRANSFER !in p.curlopt ==> o[CURLOPT_RETURNTRANSFER] == PBool(true)
  {
    RequestOptions(p.curlopt, BuildUrl(c.baseUrl, DetailQuery(c, p), enc))
  }

  /**
   The option map `search` hands to `curl`: the caller's options, plus the
   URL of the base endpoint with the search query and `RETURNTRANSFER`
   wherever the caller left them unset.
   */
  function SearchRequest(c: Client, p: SearchParams, enc: Encoder): (o: Options)
    ensures o.Keys == p.curlopt.Keys + {CURLOPT_URL, CURLOPT_RETURNTRANSFER}
    ensures forall k :: k in p.curlopt ==> o[k] == p.curlopt[k]
    ensures CURLOPT_URL !in p.curlopt ==> o[CURLOPT_URL] == PString(BuildUrl(c.baseUrl, SearchQuery(c, p), enc))
    ensures CURLOPT_RETURNTRANSFER !in p.curlopt ==> o[CURLOPT_RETURNTRANSFER] == PBool(true)
  {
    RequestOptions(p.curlopt, BuildUrl(c.baseUrl, SearchQuery(c, p), enc))
  }

  /**
   Neither a title nor an id was given in a usable (truthy) form: each of
   them is `null`, `""` or `"0"`.
   */
  predicate MissingIdentity(p: DetailParams)
    ensures MissingIdentity(p) <==>
              (p.title == None || p.title == Some("") || p.title == Some("0")) &&
              (p.imdbID == None || p.imdbID == Some("") || p.imdbID == Some("0"))
  {
    !Truthy(OfString(p.title)) && !Truthy(OfString(p.imdbID))
  }

  /**
   `byIdOrTitle`: without a truthy title or id it returns the validation
   record and sends nothing; otherwise it sends exactly one request and
   returns what the cascade makes of its outcome.
   */
  function ByIdOrTitle(c: Client, p: DetailParams, enc: Encoder, transport: Transport): (call: Call)
    ensures |call.sent| <= 1
    ensures |call.sent| == 0 <==> MissingIdentity(p)
    ensures MissingIdentity(p) ==> call.result == Err("validation", PString(VALIDATION_MESSAGE), None)
    ensures call.result.Err? && call.result.errorType == "validation" <==> MissingIdentity(p)
    ensures |call.sent| == 1 ==>
              call.sent[0] == DetailRequest(c, p, enc) && call.result == Normalise(transport(call.sent[0]))
  {
    if MissingIdentity(p) then
      Call(Err("validation", PString(VALIDATION_MESSAGE), None), [])
    else
      var options := DetailRequest(c, p, enc);
      Call(Normalise(transport(options)), [options])
  }

  /**
   `search`: always sends exactly one request, since it validates nothing,
   and never reports a validation error.
   */
  function Search(c: Client, p: SearchParams, enc: Encoder, transport: Transport): (call: Call)
    ensures |call.sent| == 1
    ensures call.sent[0] == SearchRequest(c, p, enc)
    ensures call.result == Normalise(transport(call.sent[0]))
    ensures call.result.Err? ==> call.result.errorType != "validation"
  {
    var options := SearchRequest(c, p, enc);
    Call(Normalise(transport(options)), [options])
  }
}
