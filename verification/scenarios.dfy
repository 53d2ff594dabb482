/**
 Concrete exchanges the client is documented to handle, stated against the
 whole lookup rather than the cascade alone: a refused connection, a 404,
 the service's "not found" answer, a normal answer, and a malformed body.
 */
module Scenarios {
  import opened PhpValues
  import opened PhpArrays
  import opened Curl
  import opened OmdbApi

  /** A network on which every request fails in `curl_exec` with the same error text. */
  function Refusing(error: string): Transport {
    (o: Options) => ExecFailed(error)
  }

  /** A network on which every request completes with the same status and decoded body. */
  function Answering(code: int, decoded: Decoded): Transport {
    (o: Options) => Completed(code, decoded)
  }

  /**
   A connection failure reaches both lookups as a `'curl'` error carrying
   the transport's own text, with no `extra`.
   */
  lemma ConnectionRefused(c: Client, p: DetailParams, sp: SearchParams, enc: Encoder, error: string)
    requires !MissingIdentity(p)
    ensures ByIdOrTitle(c, p, enc, Refusing(error)).result == Err("curl", PString(error), None)
    ensures Search(c, sp, enc, Refusing(error)).result == Err("curl", PString(error), None)
  {
  }

  /** A 404 is reported with the fixed message and the status code as `extra`, whatever the body. */
  lemma NotFoundStatus(c: Client, sp: SearchParams, enc: Encoder, decoded: Decoded)
    ensures Search(c, sp, enc, Answering(404, decoded)).result ==
              Err("curl", PString("Unexpected HTTP code."), Some(PInt(404)))
  {
  }

  /**
   The service's `{"Response":"False","Error":"Movie not found!"}` becomes a
   `'server'` error whose message is the service's text and whose `extra`
   is the whole payload.
   */
  lemma MovieNotFound(c: Client, p: DetailParams, enc: Encoder)
    requires !MissingIdentity(p)
    ensures var data := map["Response" := PString("False"), "Error" := PString("Movie not found!")];
            ByIdOrTitle(c, p, enc, Answering(200, ParseOk(data))).result ==
              Err("server", PString("Movie not found!"), Some(PDict(data)))
  {
    var data := map["Response" := PString("False"), "Error" := PString("Movie not found!")];
    ReportsFailureExact(data);
  }

  /** A failure signal without a usable `Error` entry falls back to `'Unknown server error.'`. */
  lemma FailureWithoutMessage(c: Client, sp: SearchParams, enc: Encoder, rest: map<string, PhpValue>)
    requires "Error" !in rest || rest["Error"] == PNull
    ensures var data := rest["Response" := PString("False")];
            Search(c, sp, enc, Answering(200, ParseOk(data))).result ==
              Err("server", PString("Unknown server error."), Some(PDict(data)))
  {
    var data := rest["Response" := PString("False")];
    ReportsFailureExact(data);
  }

  /**
   A normal answer, `{"Response":"True","Title":"Avatar","imdbID":"tt0499549"}`,
   is returned exactly as decoded; so is one whose `Response` is boolean
   `false` or the lower-case string `"false"`.
   */
  lemma AnswerPassesThrough(c: Client, p: DetailParams, enc: Encoder, flag: PhpValue)
    requires !MissingIdentity(p)
    requires flag in {PString("True"), PBool(false), PString("false")}
    ensures var data := map["Response" := flag, "Title" := PString("Avatar"), "imdbID" := PString("tt0499549")];
            ByIdOrTitle(c, p, enc, Answering(200, ParseOk(data))).result == Ok(data)
  {
    var data := map["Response" := flag, "Title" := PString("Avatar"), "imdbID" := PString("tt0499549")];
    ReportsFailureExact(data);
    assert "True" != "False" by { assert "True"[0] != "False"[0]; }
  }

  /**
   A malformed 200 body is a `'server'` error with the fixed message; the
   parser's message is carried in `extra`, so it is non-empty whenever the
   parser's is.
   */
  lemma MalformedBody(c: Client, sp: SearchParams, enc: Encoder, msg: string)
    requires msg != ""
    ensures Search(c, sp, enc, Answering(200, ParseErr(msg))).result.errorType == "server"
    ensures Search(c, sp, enc, Answering(200, ParseErr(msg))).result.message == PString("Invalid JSON returned from server.")
    ensures Search(c, sp, enc, Answering(200, ParseErr(msg))).result.extra == Some(PString(msg))
    ensures Truthy(Search(c, sp, enc, Answering(200, ParseErr(msg))).result.extra.value) <==> msg != "0"
  {
  }
}
