# OMDb API client — Dafny model

This project models `OmdbApi`, a small PHP client for the OMDb movie
metadata service (https://www.omdbapi.com/). The client holds an API key
and two endpoints. It offers three operations:

- `poster` builds an image URL.
- `byIdOrTitle` fetches one title's details.
- `search` searches titles by keyword.

Both lookups build an ordered query array, drop its falsy entries with
`array_filter`, encode it with `http_build_query`, and merge the caller's
cURL options with their own. They then pass one HTTP exchange through a
fixed cascade, which turns the exchange into either the decoded payload or
an error record `{ErrorType, message, extra?}`.

The model is functional. The client is a datatype holding the values its
properties have when a method runs, and every operation is a pure
function. Two things outside the class are parameters:

- `http_build_query` is an `Encoder` (`Query -> string`). Its
  character-level output is not modelled.
- The network is a `Transport` (`Options -> Exchange`). It maps the cURL
  option map a call sends to the outcome of that exchange.

A lookup returns a `Call`. A `Call` holds the result and the list of option
maps the lookup handed to the transport. "The transport is never invoked"
therefore means that the list is empty.

Modules:

- `PhpValues` (`php_values.dfy`): PHP values and PHP's boolean conversion.
  In that conversion `null`, `false`, `0`, `0.0`, `""`, `"0"` and the empty
  array are false.
- `PhpArrays` (`php_arrays.dfy`): ordered string-keyed arrays, `array_filter`
  without a callback, key lookup, subsequences, and PHP's left-biased array
  union `+`.
- `Curl` (`curl.dfy`): the exchange outcome, the result type and the
  normalisation cascade of the private `curl` method.
- `OmdbApi` (`omdb_api.dfy`): the client, its constructor, `poster`, the two
  query builders, the option merge, `byIdOrTitle` and `search`.
- `OmdbProperties` (`omdb_properties.dfy`): lemmas relating these members.
- `Scenarios` (`scenarios.dfy`): whole-lookup lemmas for concrete exchanges.

Four facts about the code that are easy to misremember:

- Transport failures and non-200 statuses carry `ErrorType` `'curl'`; there
  is no separate `'transport'` kind.
- The validation message is literally `Either $title or $imdbID must be
  provided.`, with the PHP variable names in it.
- Query entries are dropped by PHP truthiness, not only when empty: a value
  of `"0"`, `0` or `false` is dropped too, and so is a `"0"` API key.
- `search` validates nothing, yet an empty or `"0"` title is not sent:
  `array_filter` drops the `s` entry and the request goes out without it.

## Model

| member | source | states |
|---|---|---|
| `PhpArrays.ArrayFilter` | src/OmdbApi.php:123-133 | every entry `array_filter` keeps has a truthy value, and the result is no longer than the input |
| `PhpArrays.FilterMembers` | src/OmdbApi.php:123-133 | an entry survives `array_filter` if and only if it was in the input and its value is truthy |
| `PhpArrays.FilterSubseq` | src/OmdbApi.php:123-133 | `array_filter` keeps the surviving entries in their original relative order |
| `PhpArrays.FilterGet` | src/OmdbApi.php:123-133 | on an array with distinct keys, reading a key after filtering gives the original value when it is truthy, and nothing otherwise |
| `PhpArrays.SubseqKeys` | src/OmdbApi.php:123-133 | deleting entries keeps the keys of the survivors in order, so the filtered query's keys follow the literal array's order |
| `PhpArrays.SubseqDistinct` | src/OmdbApi.php:123-133 | a filtered array with distinct keys still has distinct keys |
| `PhpArrays.SubseqKeysIncluded` | src/OmdbApi.php:123-133 | every key of a filtered array is a key of the original, so filtering never introduces a query key |
| `PhpArrays.PhpUnion` | src/OmdbApi.php:121-136 | `$left + $right` has the keys of both arrays; every key of `$left` keeps its value, and `$right` supplies only the keys `$left` lacks |
| `PhpValues.Truthy` | src/OmdbApi.php:113 | PHP's boolean conversion: `null`, `false`, `0`, `0.0`, `""`, `"0"` and empty arrays are false; `true`, non-zero integers and strings longer than one character are true |
| `PhpValues.StringTruthiness` | src/OmdbApi.php:113 | a string is falsy exactly when it is `""` or `"0"`; `"false"`, `"0.0"` and `" "` are truthy |
| `Curl.Normalise` | src/OmdbApi.php:198-252 | the cascade in order: init failure, then exec failure with cURL's text, then a non-200 status with the code as `extra`, then a JSON error with the parser's message as `extra`, then `Response === 'False'` with the whole payload as `extra`, else the payload unchanged; the error kind is always `'curl'` or `'server'` |
| `Curl.Index` | src/OmdbApi.php:243 | reading `$data[$key]` gives the stored value, or `null` when the key is missing |
| `Curl.ReportsFailure` | src/OmdbApi.php:243 | the service signal, as written with `!empty(...)`, fires only when `Response` is present and is the string `"False"` |
| `Curl.ServerMessage` | src/OmdbApi.php:246 | the message is the payload's `Error` entry unless that entry is missing or `null`, in which case it is `'Unknown server error.'` |
| `Curl.ReportsFailureExact` | src/OmdbApi.php:243 | the `!empty(...)` test is redundant: the service signal fires exactly when `Response` is the string `"False"`; boolean `false`, `true`, `"false"` and `"FALSE"` never fire it |
| `Curl.NormaliseKinds` | src/OmdbApi.php:198-252 | `'curl'` if and only if no 200 response arrived; `'server'` if and only if a 200 body failed to decode or signalled failure; success if and only if neither happened, and then the payload is returned unchanged |
| `Curl.StatusPrecedesBody` | src/OmdbApi.php:223-241 | with a non-200 status the result does not depend on the body at all, and it carries the status code |
| `Curl.ParseErrorPrecedesService` | src/OmdbApi.php:234-241 | a specialisation of `Curl.Normalise` to a 200 response that failed to decode: the fixed message, with the parser's text as `extra` |
| `OmdbApi.NewClient` | src/OmdbApi.php:34-42 | the key is stored unchanged; an omitted endpoint takes its default `https://www.omdbapi.com/` or `https://img.omdbapi.com/`, and a given one is stored as is |
| `OmdbApi.DetailDefaults` | src/OmdbApi.php:104-111 | the defaults of `byIdOrTitle`: `$type`, `$year`, `$callback` and `$version` are `null`, `$full_plot` is `false`, and `$CURLOPT` is `[CURLOPT_TIMEOUT => 10]`; title and id are passed through |
| `OmdbApi.SearchDefaults` | src/OmdbApi.php:171-177 | the defaults of `search`: `$type`, `$year`, `$callback` and `$version` are `null`, `$page` is `1`, and `$CURLOPT` is `[CURLOPT_TIMEOUT => 10]`; the title is passed through |
| `OmdbApi.BuildUrl` | src/OmdbApi.php:122 | the URL is the base, then `?`, then the encoded query, and nothing else |
| `OmdbApi.PosterQuery` | src/OmdbApi.php:52 | the poster query holds exactly `apikey` then `i`, with the stored key and the given id, unfiltered |
| `OmdbApi.Poster` | src/OmdbApi.php:50-53 | the poster URL starts with the image endpoint and `?`; the rest is the encoding of the unfiltered `[apikey, i]` query |
| `OmdbApi.DetailCandidates` | src/OmdbApi.php:123-133 | the detail array lists the keys `i, t, type, y, plot, r, callback, v, apikey` in that order, each once |
| `OmdbApi.SearchCandidates` | src/OmdbApi.php:182-191 | the search array lists the keys `s, type, y, r, page, callback, v, apikey` in that order, each once |
| `OmdbApi.DetailQuery` | src/OmdbApi.php:122-134 | the detail query is an order-preserving subsequence of the detail array and holds exactly its truthy entries |
| `OmdbApi.SearchQuery` | src/OmdbApi.php:181-192 | the search query is an order-preserving subsequence of the search array and holds exactly its truthy entries |
| `OmdbApi.RequestOptions` | src/OmdbApi.php:120-136 | the options sent are the caller's keys plus `CURLOPT_URL` and `CURLOPT_RETURNTRANSFER`; the caller's value wins every collision; the built URL and `true` fill in only where the caller gave nothing |
| `OmdbApi.DetailRequest` | src/OmdbApi.php:120-136 | the options `byIdOrTitle` sends are the caller's, plus the base URL with the detail query and `RETURNTRANSFER = true` wherever the caller left them unset |
| `OmdbApi.SearchRequest` | src/OmdbApi.php:179-195 | the options `search` sends are the caller's, plus the base URL with the search query and `RETURNTRANSFER = true` wherever the caller left them unset |
| `OmdbApi.MissingIdentity` | src/OmdbApi.php:113 | validation fails exactly when the title and the id are each `null`, `""` or `"0"` |
| `OmdbApi.ByIdOrTitle` | src/OmdbApi.php:103-138 | with neither a truthy title nor a truthy id, the result is exactly the validation record and nothing is sent; otherwise exactly one request, the built one, is sent, and its outcome goes through the cascade; a validation error occurs if and only if nothing was sent |
| `OmdbApi.Search` | src/OmdbApi.php:170-196 | exactly one request, the built one, is always sent; the result is the cascade applied to its outcome, and it is never a validation error |
| `OmdbProperties.DetailQueryOrder` | src/OmdbApi.php:122-134 | the detail query's keys are a subsequence of `i, t, type, y, plot, r, callback, v, apikey`, with no key repeated |
| `OmdbProperties.DetailQueryEntries` | src/OmdbApi.php:122-134 | under each key the detail query holds the caller's value when truthy and nothing otherwise; `r` is always `json`; `plot` is `full` if and only if a full plot was requested; no other key appears |
| `OmdbProperties.DetailQueryDropsFalsy` | src/OmdbApi.php:113-133 | year 0, an empty type, and a title or id of `"0"` leave no entry; a lookup passes validation if and only if its query carries `i` or `t` |
| `OmdbProperties.SearchQueryOrder` | src/OmdbApi.php:181-192 | the search query's keys are a subsequence of `s, type, y, r, page, callback, v, apikey`, with no key repeated |
| `OmdbProperties.SearchQueryEntries` | src/OmdbApi.php:181-192 | under each key the search query holds the caller's value when truthy and nothing otherwise; `r` is always `json`; an empty or `"0"` title and page 0 are dropped silently |
| `OmdbProperties.SearchDefaultQuery` | src/OmdbApi.php:170-192 | `search($title)` with defaults and a truthy title and key sends exactly `s, r, page, apikey` in that order, with page 1 |
| `OmdbProperties.FilterPattern` | src/OmdbApi.php:182-191 | filtering eight entries of which the 1st, 4th, 5th and 8th are truthy leaves exactly those four, in order |
| `OmdbProperties.DefaultRequestOptions` | src/OmdbApi.php:111-136 | with the default `$CURLOPT`, the options are exactly the 10-second timeout, the built URL and `RETURNTRANSFER = true` |
| `OmdbProperties.CallerUrlWins` | src/OmdbApi.php:120-136 | a caller-supplied `CURLOPT_URL` replaces the URL the client built |
| `OmdbProperties.ValidationSkipsTransport` | src/OmdbApi.php:113-137 | after failed validation the result is the same for any network; after passed validation the only request sent is the built one, and only the network's answer to it matters |
| `OmdbProperties.DetailDefaultQuery` | src/OmdbApi.php:104-136 | `byIdOrTitle($title, $imdbID)` with every other argument at its default sends no key but `i`, `t`, `r` and `apikey`, always `r=json` and never `plot`, with exactly the timeout, the built URL and `RETURNTRANSFER = true` as options |
| `OmdbProperties.PosterInjective` | src/OmdbApi.php:50-53 | with an encoder that tells string-valued queries apart, two poster URLs of one client are equal only for equal ids |
| `OmdbProperties.PosterDependsOnly` | src/OmdbApi.php:50-53 | the poster URL depends only on the image endpoint, the key and the id; an empty id still contributes `i`; filtering would have changed the query if and only if the key or the id is falsy |
| `OmdbProperties.ConstructorDefaults` | tests/Unit/OmdbTest.php:12-19 | `new OmdbApi('apiKey')` stores `apiKey` and the two default endpoints |
| `Scenarios.ConnectionRefused` | src/OmdbApi.php:211-221 | a connection failure reaches both lookups as a `'curl'` error with cURL's text and no `extra` |
| `Scenarios.NotFoundStatus` | src/OmdbApi.php:223-232 | a 404 yields `'curl'` and `'Unexpected HTTP code.'` with `extra` 404, whatever the body |
| `Scenarios.MovieNotFound` | src/OmdbApi.php:243-249 | `{"Response":"False","Error":"Movie not found!"}` yields `'server'` with the service's message and the whole payload as `extra` |
| `Scenarios.FailureWithoutMessage` | src/OmdbApi.php:243-249 | a failure signal whose `Error` entry is missing or `null` yields the message `'Unknown server error.'` |
| `Scenarios.AnswerPassesThrough` | src/OmdbApi.php:243-251 | a normal answer is returned exactly as decoded; so is one with `Response` set to `false` or `"false"` |
| `Scenarios.MalformedBody` | src/OmdbApi.php:234-241 | a malformed 200 body yields `'server'` and `'Invalid JSON returned from server.'`, with the parser's text as `extra` |

## Left out

- The cURL calls are left out because they are foreign I/O. These are `curl_init`, `curl_setopt`, `curl_exec`, `curl_error`, `curl_getinfo` and `curl_close`, together with timeouts and handle cleanup. The `Exchange` datatype stands for their combined outcome.
- The effect of the options on the transfer is not modelled. This includes a caller's `CURLOPT_RETURNTRANSFER => false`, which makes `curl_exec` return `true` instead of the body. The transport parameter receives the options, so any such effect belongs to it.
- `json_decode` and `json_last_error_msg` are left out because they are a library whose code is not available here. They are modelled as `ParseOk(object) | ParseErr(message)`.
- A body that decodes without error to something other than an object is not modelled. Examples are `null`, a number or a JSON list. For most of these, PHP would fail on the `array` return type.
- Curl.Normalise: "returned unchanged" means equal as a key-to-value map. The decoded payload is a `map`, so the order of its members, which `json_decode` keeps and the source returns as is, is not modelled. The same holds for `Curl.NormaliseKinds` and `Scenarios.AnswerPassesThrough`.
- Numeric-string keys becoming integer keys in a decoded PHP array is not modelled. Payload keys stay strings.
- The character-level output of `http_build_query` and URL encoding is not modelled, because they are foreign library code. `Encoder` is a parameter. `PosterInjective` assumes only that it tells apart queries whose values are all strings. It cannot tell apart arbitrary queries, since `1`, `'1'` and `true` encode alike and `null` entries are skipped.
- The client's properties `$apikey`, `$base_url` and `$img_url` are public and untyped (src/OmdbApi.php:15-23), so a caller can reassign them after construction, to `null` or an integer among other values. The model reads them at call time as a `Client` of three strings, and non-string values are not modelled. For example, with `$apikey = null`, `http_build_query` skips the entry and `poster` returns `img?i=<id>`, which no `Client` produces.
- A `null` `$CURLOPT` is not modelled. `null + array` throws in PHP, so `curlopt` is always a map.
- The order in which `curl_setopt` is applied is not modelled. The source applies the caller's options first, then `CURLOPT_URL`, then `CURLOPT_RETURNTRANSFER`. The model hands the transport an unordered map, so effects that depend on the order are not modelled. One example is `CURLOPT_FILE` against `CURLOPT_RETURNTRANSFER`, where the one set later wins.
- Floating-point NAN and INF are not modelled. `PFloat` holds a real, and PHP treats NAN as truthy.
- `src/OmdbApiInterface.php` has no row because it holds only signatures and doc comments.
- The documented shapes of success payloads (`Title`, `Ratings`, `totalResults`, …) are not modelled, because the client never checks them and passes the payload through verbatim.
- The PHP array shape of results is not modelled. An error record is a tagged `Err` value, not a PHP array. A success payload that happens to contain an `ErrorType` key therefore stays distinguishable from an error, which it is not in PHP.
