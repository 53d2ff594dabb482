/**
 Properties of the `OmdbApi` client that relate several of its members:
 which query entries survive and in what order, how the caller's cURL
 options combine with the built ones, that validation keeps the network
 out of the picture, and what the poster URL determines.
 */
module OmdbProperties {
  import opened PhpValues
  import opened PhpArrays
  import opened Curl
  import opened OmdbApi

  /** The detail query lists a subset of its nine keys, each at most once, in the source's order. */
  lemma DetailQueryOrder(c: Client, p: DetailParams)
    ensures IsSubseq(Keys(DetailQuery(c, p)), DETAIL_KEYS)
    ensures DistinctKeys(DetailQuery(c, p))
    ensures forall k :: k in Keys(DetailQuery(c, p)) ==> k in DETAIL_KEYS
  {
    SubseqKeys(DetailQuery(c, p), DetailCandidates(c, p));
    SubseqDistinct(DetailQuery(c, p), DetailCandidates(c, p));
    SubseqKeysIncluded(DetailQuery(c, p), DetailCandidates(c, p));
  }

  /**
   What the detail query holds under each key: every parameter whose value
   is truthy, unchanged; `r` always `json`; `plot` = `full` exactly when a
   full plot was asked for; nothing under any other key.
   */
  lemma DetailQueryEntries(c: Client, p: DetailParams)
    ensures Get(DetailQuery(c, p), "i") == Keep(Some(OfString(p.imdbID)))
    ensures Get(DetailQuery(c, p), "t") == Keep(Some(OfString(p.title)))
    ensures Get(DetailQuery(c, p), "type") == Keep(Some(OfString(p.kind)))
    ensures Get(DetailQuery(c, p), "y") == Keep(Some(OfInt(p.year)))
    ensures Get(DetailQuery(c, p), "plot") == if p.fullPlot == Some(true) then Some(PString("full")) else None
    ensures Get(DetailQuery(c, p), "r") == Some(PString("json"))
    ensures Get(DetailQuery(c, p), "callback") == Keep(Some(p.callback))
    ensures Get(DetailQuery(c, p), "v") == Keep(Some(OfString(p.version)))
    ensures Get(DetailQuery(c, p), "apikey") == Keep(Some(PString(c.apikey)))
    ensures forall k :: k !in DETAIL_KEYS ==> Get(DetailQuery(c, p), k) == None
  {
    var s := DetailCandidates(c, p);
    FilteredEntry(s, 0);
    FilteredEntry(s, 1);
    FilteredEntry(s, 2);
    FilteredEntry(s, 3);
    FilteredEntry(s, 4);
    FilteredEntry(s, 5);
    FilteredEntry(s, 6);
    FilteredEntry(s, 7);
    FilteredEntry(s, 8);
    assert Truthy(PString("json")) by { assert "json"[0] == 'j'; }
    assert Truthy(PString("full")) by { assert "full"[0] == 'f'; }
    forall k | k !in DETAIL_KEYS
      ensures Get(DetailQuery(c, p), k) == None
    {
      FilterGet(s, k);
    }
  }

  /**
   Falsy values are omitted rather than sent: a year of 0, an empty type
   and a title or id of `"0"` leave no entry; a request that passed
   validation always carries `i` or `t`.
   */
  lemma DetailQueryDropsFalsy(c: Client, p: DetailParams)
    ensures p.year == Some(0) ==> "y" !in Keys(DetailQuery(c, p))
    ensures p.kind == Some("") ==> "type" !in Keys(DetailQuery(c, p))
    ensures p.title == Some("0") ==> "t" !in Keys(DetailQuery(c, p))
    ensures p.imdbID == Some("0") ==> "i" !in Keys(DetailQuery(c, p))
    ensures !MissingIdentity(p) <==> "i" in Keys(DetailQuery(c, p)) || "t" in Keys(DetailQuery(c, p))
  {
    DetailQueryEntries(c, p);
  }

  /** The search query lists a subset of its eight keys, each at most once, in the source's order. */
  lemma SearchQueryOrder(c: Client, p: SearchParams)
    ensures IsSubseq(Keys(SearchQuery(c, p)), SEARCH_KEYS)
    ensures DistinctKeys(SearchQuery(c, p))
    ensures forall k :: k in Keys(SearchQuery(c, p)) ==> k in SEARCH_KEYS
  {
    SubseqKeys(SearchQuery(c, p), SearchCandidates(c, p));
    SubseqDistinct(SearchQuery(c, p), SearchCandidates(c, p));
    SubseqKeysIncluded(SearchQuery(c, p), SearchCandidates(c, p));
  }

  /**
   What the search query holds under each key: every truthy parameter,
   unchanged, `r` always `json`, and nothing under any other key. A title
   of `""` or `"0"` is silently dropped, not rejected.
   */
  lemma SearchQueryEntries(c: Client, p: SearchParams)
    ensures Get(SearchQuery(c, p), "s") == Keep(Some(PString(p.title)))
    ensures Get(SearchQuery(c, p), "type") == Keep(Some(OfString(p.kind)))
    ensures Get(SearchQuery(c, p), "y") == Keep(Some(OfInt(p.year)))
    ensures Get(SearchQuery(c, p), "r") == Some(PString("json"))
    ensures Get(SearchQuery(c, p), "page") == Keep(Some(OfInt(p.page)))
    ensures Get(SearchQuery(c, p), "callback") == Keep(Some(p.callback))
    ensures Get(SearchQuery(c, p), "v") == Keep(Some(OfString(p.version)))
    ensures Get(SearchQuery(c, p), "apikey") == Keep(Some(PString(c.apikey)))
    ensures forall k :: k !in SEARCH_KEYS ==> Get(SearchQuery(c, p), k) == None
    ensures p.title == "" || p.title == "0" ==> "s" !in Keys(SearchQuery(c, p))
    ensures p.page == Some(0) ==> "page" !in Keys(SearchQuery(c, p))
  {
    var s := SearchCandidates(c, p);
    FilteredEntry(s, 0);
    FilteredEntry(s, 1);
    FilteredEntry(s, 2);
    FilteredEntry(s, 3);
    FilteredEntry(s, 4);
    FilteredEntry(s, 5);
    FilteredEntry(s, 6);
    FilteredEntry(s, 7);
    assert Truthy(PString("json")) by { assert "json"[0] == 'j'; }
    forall k | k !in SEARCH_KEYS
      ensures Get(SearchQuery(c, p), k) == None
    {
      FilterGet(s, k);
    }
  }

  /**
   `search($title)` with every other argument at its default sends exactly
   `s`, `r`, `page` (= 1) and `apikey`, in that order, provided the title
   and the key are truthy.
   */
  lemma SearchDefaultQuery(c: Client, title: string)
    requires Truthy(PString(title)) && Truthy(PString(c.apikey))
    ensures Keys(SearchQuery(c, SearchDefaults(title))) == ["s", "r", "page", "apikey"]
    ensures Get(SearchQuery(c, SearchDefaults(title)), "page") == Some(PInt(1))
  {
    var s := SearchCandidates(c, SearchDefaults(title));
    DefaultSearchPattern(c, title);
    FilterPattern(s);
    var q := [s[0], s[3], s[4], s[7]];
    assert Keys(q) == ["s", "r", "page", "apikey"];
    assert q[2] == ("page", PInt(1));
  }

  /** Which entries of the default search array are truthy, given a truthy title and key. */
  lemma DefaultSearchPattern(c: Client, title: string)
    requires Truthy(PString(title)) && Truthy(PString(c.apikey))
    ensures var s := SearchCandidates(c, SearchDefaults(title));
            Truthy(s[0].1) && !Truthy(s[1].1) && !Truthy(s[2].1) && Truthy(s[3].1) &&
            Truthy(s[4].1) && !Truthy(s[5].1) && !Truthy(s[6].1) && Truthy(s[7].1)
  {
  }

  /** `array_filter` over eight entries of which the 1st, 4th, 5th and 8th are truthy. */
  lemma FilterPattern(s: Query)
    requires |s| == 8
    requires Truthy(s[0].1) && !Truthy(s[1].1) && !Truthy(s[2].1) && Truthy(s[3].1)
    requires Truthy(s[4].1) && !Truthy(s[5].1) && !Truthy(s[6].1) && Truthy(s[7].1)
    ensures ArrayFilter(s) == [s[0], s[3], s[4], s[7]]
  {
    assert s[8..] == [];
    FilterSuffix(s, 7);
    FilterSuffix(s, 6);
    FilterSuffix(s, 5);
    FilterSuffix(s, 4);
    FilterSuffix(s, 3);
    FilterSuffix(s, 2);
    FilterSuffix(s, 1);
    FilterSuffix(s, 0);
    assert s[0..] == s;
  }

  /** One step of `array_filter` over a suffix of an array. */
  lemma FilterSuffix(s: Query, i: int)
    requires 0 <= i < |s|
    ensures ArrayFilter(s[i..]) == (if Truthy(s[i].1) then [s[i]] else []) + ArrayFilter(s[i + 1..])
  {
    assert s[i..][1..] == s[i + 1..];
  }

  /**
   With the default `$CURLOPT`, a request carries exactly the 10-second
   timeout, the built URL and `RETURNTRANSFER = true`.
   */
  lemma DefaultRequestOptions(url: string)
    ensures RequestOptions(DEFAULT_CURLOPT, url) ==
              map[CURLOPT_TIMEOUT := PInt(10), CURLOPT_URL := PString(url), CURLOPT_RETURNTRANSFER := PBool(true)]
  {
    var o := RequestOptions(DEFAULT_CURLOPT, url);
    var m := map[CURLOPT_TIMEOUT := PInt(10), CURLOPT_URL := PString(url), CURLOPT_RETURNTRANSFER := PBool(true)];
    assert o.Keys == m.Keys;
  }

  /**
   A caller who supplies `CURLOPT_URL` overrides the URL the client built:
   the request goes wherever the caller said, whatever the query.
   */
  lemma CallerUrlWins(c: Client, p: DetailParams, enc: Encoder)
    requires CURLOPT_URL in p.curlopt
    ensures DetailRequest(c, p, enc)[CURLOPT_URL] == p.curlopt[CURLOPT_URL]
  {
  }

  /**
   A failed validation never consults the transport: any two networks give
   the same call. A successful one consults it exactly once, on the request
   it built.
   */
  lemma ValidationSkipsTransport(c: Client, p: DetailParams, enc: Encoder, t1: Transport, t2: Transport)
    ensures MissingIdentity(p) ==> ByIdOrTitle(c, p, enc, t1) == ByIdOrTitle(c, p, enc, t2)
    ensures !MissingIdentity(p) && t1(DetailRequest(c, p, enc)) == t2(DetailRequest(c, p, enc)) ==>
              ByIdOrTitle(c, p, enc, t1) == ByIdOrTitle(c, p, enc, t2)
    ensures !MissingIdentity(p) ==> ByIdOrTitle(c, p, enc, t1).sent == [DetailRequest(c, p, enc)]
  {
  }

  /**
   `byIdOrTitle($title, $imdbID)` with every other argument at its default
   sends only `i`, `t`, `r` and `apikey`: no `plot` (the default is a short
   plot), no `type`, `y`, `callback` or `v`; and its options are exactly the
   10-second timeout, the built URL and `RETURNTRANSFER = true`.
   */
  lemma DetailDefaultQuery(c: Client, title: Option<string>, imdbID: Option<string>, enc: Encoder)
    ensures forall k :: k in Keys(DetailQuery(c, DetailDefaults(title, imdbID))) ==> k in ["i", "t", "r", "apikey"]
    ensures Get(DetailQuery(c, DetailDefaults(title, imdbID)), "r") == Some(PString("json"))
    ensures "plot" !in Keys(DetailQuery(c, DetailDefaults(title, imdbID)))
    ensures DetailRequest(c, DetailDefaults(title, imdbID), enc) ==
              map[CURLOPT_TIMEOUT := PInt(10),
                  CURLOPT_URL := PString(BuildUrl(c.baseUrl, DetailQuery(c, DetailDefaults(title, imdbID)), enc)),
                  CURLOPT_RETURNTRANSFER := PBool(true)]
  {
    var p := DetailDefaults(title, imdbID);
    var q := DetailQuery(c, p);
    DetailQueryEntries(c, p);
    DefaultRequestOptions(BuildUrl(c.baseUrl, q, enc));
  }

  /**
   With an encoder that tells queries apart, the poster URL determines the
   id: different ids give different URLs.
   */
  lemma PosterInjective(c: Client, id1: string, id2: string, enc: Encoder)
    requires Injective(enc)
    requires Poster(c, id1, enc) == Poster(c, id2, enc)
    ensures id1 == id2
  {
    var n := |c.imgUrl| + 1;
    assert enc(PosterQuery(c, id1)) == Poster(c, id1, enc)[n..];
    assert enc(PosterQuery(c, id2)) == Poster(c, id2, enc)[n..];
    assert PosterQuery(c, id1) == PosterQuery(c, id2);
    assert PosterQuery(c, id1)[1].1 == PString(id1);
  }

  /**
   The poster URL depends only on the image endpoint, the key and the id;
   it is never filtered, so an empty id still contributes its `i` entry.
   */
  lemma PosterDependsOnly(c1: Client, c2: Client, imdbID: string, enc: Encoder)
    requires c1.imgUrl == c2.imgUrl && c1.apikey == c2.apikey
    ensures Poster(c1, imdbID, enc) == Poster(c2, imdbID, enc)
    ensures Get(PosterQuery(c1, ""), "i") == Some(PString(""))
    ensures PosterQuery(c1, imdbID) != ArrayFilter(PosterQuery(c1, imdbID)) <==>
              !Truthy(PString(c1.apikey)) || !Truthy(PString(imdbID))
  {
    var q := PosterQuery(c1, imdbID);
    if Truthy(PString(c1.apikey)) && Truthy(PString(imdbID)) {
      assert ArrayFilter(q) == q;
    } else if !Truthy(PString(c1.apikey)) {
      assert q[0] in q && q[0] !in ArrayFilter(q);
    } else {
      assert q[1] in q && q[1] !in ArrayFilter(q);
    }
  }

  /** `new OmdbApi('apiKey')` stores the key unchanged and the two default endpoints. */
  lemma ConstructorDefaults(apikey: string)
    ensures NewClient(apikey, None, None) == Client(apikey, "https://www.omdbapi.com/", "https://img.omdbapi.com/")
    ensures NewClient("apiKey", None, None).apikey == "apiKey"
  {
  }
}
