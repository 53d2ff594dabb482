/**
 The private `curl` routine of `OmdbApi`: one HTTP exchange, abstracted to
 its outcome, and the strict precedence cascade that turns that outcome
 into either the decoded payload or an error record.
 */
module Curl {
  import opened PhpValues
  import opened PhpArrays

  /** cURL options keyed by libcurl's option numbers, as in `[CURLOPT_TIMEOUT => 10]`. */
  type Options = map<int, PhpValue>

  const CURLOPT_TIMEOUT: int := 13
  const CURLOPT_URL: int := 10002
  const CURLOPT_RETURNTRANSFER: int := 19913

  /** What `json_decode($response, true)` produced: a JSON object, or the parser's error message. */
  datatype Decoded = ParseOk(data: map<string, PhpValue>) | ParseErr(msg: string)

  /**
   The outcome of one exchange: `curl_init` failed, `curl_exec` failed with
   the text of `curl_error`, or a response arrived with an HTTP status and a
   body that was then decoded.
   */
  datatype Exchange =
    | InitFailed
    | ExecFailed(error: string)
    | Completed(code: int, decoded: Decoded)

  /**
   What a network-backed call returns: the payload passed through, or the
   record `['ErrorType' => …, 'message' => …, 'extra' => …]` with `extra`
   present only when the source sets it.
   */
  datatype ApiResult =
    | Ok(payload: map<string, PhpValue>)
    | Err(errorType: string, message: PhpValue, extra: Option<PhpValue>)

  const INIT_FAILED_MESSAGE: string := "Unable to initialize cURL."
  const HTTP_CODE_MESSAGE: string := "Unexpected HTTP code."
  const INVALID_JSON_MESSAGE: string := "Invalid JSON returned from server."
  const UNKNOWN_SERVER_ERROR: string := "Unknown server error."

  /** `$data[$key]` on a decoded object: a missing key reads as `null`. */
  function Index(data: map<string, PhpValue>, key: string): (v: PhpValue)
    ensures key !in data ==> v == PNull
    ensures key in data ==> v == data[key]
  {
    if key in data then data[key] else PNull
  }

  /**
   The service's own failure signal, written as the source tests it:
   `!empty($data['Response']) && $data['Response'] === 'False'`.
   */
  predicate ReportsFailure(data: map<string, PhpValue>)
    ensures ReportsFailure(data) ==> "Response" in data && data["Response"] == PString("False")
  {
    !Empty(Index(data, "Response")) && Index(data, "Response") == PString("False")
  }

  /** `$data['Error'] ?? 'Unknown server error.'`: the `Error` entry unless it is missing or `null`. */
  function ServerMessage(data: map<string, PhpValue>): (m: PhpValue)
    ensures "Error" in data && data["Error"] != PNull ==> m == data["Error"]
    ensures "Error" !in data || data["Error"] == PNull ==> m == PString(UNKNOWN_SERVER_ERROR)
  {
    if "Error" in data && data["Error"] != PNull then data["Error"] else PString(UNKNOWN_SERVER_ERROR)
  }

  /**
   The decision cascade of `curl`: initialisation failure, then execution
   failure, then a status other than 200, then a JSON error, then the
   service's `Response === 'False'` signal; anything that passes every check
   is returned unchanged.
   */
  function Normalise(ex: Exchange): (r: ApiResult)
    ensures ex.InitFailed? ==> r == Err("curl", PString(INIT_FAILED_MESSAGE), None)
    ensures ex.ExecFailed? ==> r == Err("curl", PString(ex.error), None)
    ensures ex.Completed? && ex.code != 200 ==> r == Err("curl", PString(HTTP_CODE_MESSAGE), Some(PInt(ex.code)))
    ensures ex.Completed? && ex.code == 200 && ex.decoded.ParseErr? ==>
              r == Err("server", PString(INVALID_JSON_MESSAGE), Some(PString(ex.decoded.msg)))
    ensures ex.Completed? && ex.code == 200 && ex.decoded.ParseOk? ==>
              if ReportsFailure(ex.decoded.data)
              then r == Err("server", ServerMessage(ex.decoded.data), Some(PDict(ex.decoded.data)))
              else r == Ok(ex.decoded.data)
    ensures r.Err? ==> r.errorType == "curl" || r.errorType == "server"
  {
    match ex
    case InitFailed => Err("curl", PString(INIT_FAILED_MESSAGE), None)
    case ExecFailed(error) => Err("curl", PString(error), None)
    case Completed(code, decoded) =>
      if code != 200 then Err("curl", PString(HTTP_CODE_MESSAGE), Some(PInt(code)))
      else match decoded
        case ParseErr(msg) => Err("server", PString(INVALID_JSON_MESSAGE), Some(PString(msg)))
        case ParseOk(data) =>
          if ReportsFailure(data) then Err("server", ServerMessage(data), Some(PDict(data)))
          else Ok(data)
  }

  /**
   The `!empty(...)` half of the service check is implied by the other: the
   signal is raised exactly when `Response` holds the string `"False"`, and
   neither boolean `false` nor any other spelling raises it.
   */
  lemma ReportsFailureExact(data: map<string, PhpValue>)
    ensures ReportsFailure(data) <==> "Response" in data && data["Response"] == PString("False")
    ensures "Response" in data && data["Response"] in {PBool(false), PString("false"), PString("FALSE"), PBool(true)} ==>
              !ReportsFailure(data)
  {
    if "Response" in data && data["Response"] == PString("False") {
      assert "False" != "" && "False" != "0" by { assert "False"[0] == 'F'; }
    }
    assert "false" != "False" by { assert "false"[0] != "False"[0]; }
    assert "FALSE" != "False" by { assert "FALSE"[1] != "False"[1]; }
  }

  /**
   Every error kind is fixed by the outcome alone: `'curl'` exactly when no
   HTTP 200 response arrived, `'server'` exactly when a 200 response failed
   to decode or signalled failure, and a success exactly otherwise, with the
   payload unchanged.
   */
  lemma NormaliseKinds(ex: Exchange)
    ensures Normalise(ex).Err? && Normalise(ex).errorType == "curl" <==> !(ex.Completed? && ex.code == 200)
    ensures Normalise(ex).Err? && Normalise(ex).errorType == "server" <==>
              ex.Completed? && ex.code == 200 && (ex.decoded.ParseErr? || ReportsFailure(ex.decoded.data))
    ensures Normalise(ex).Ok? <==>
              ex.Completed? && ex.code == 200 && ex.decoded.ParseOk? && !ReportsFailure(ex.decoded.data)
    ensures Normalise(ex).Ok? ==> Normalise(ex).payload == ex.decoded.data
  {
    assert "curl" != "server";
  }

  /**
   Precedence: once a non-200 status is seen, the body is never looked at,
   so the result does not depend on how (or whether) it decoded.
   */
  lemma StatusPrecedesBody(code: int, d1: Decoded, d2: Decoded)
    requires code != 200
    ensures Normalise(Completed(code, d1)) == Normalise(Completed(code, d2))
    ensures Normalise(Completed(code, d1)).extra == Some(PInt(code))
  {
  }

  /**
   Precedence: a decoding error hides whatever the service would have said;
   an invalid body always yields the same record, carrying only the parser's
   message.
   */
  lemma ParseErrorPrecedesService(msg: string)
    ensures Normalise(Completed(200, ParseErr(msg))).message == PString(INVALID_JSON_MESSAGE)
    ensures Normalise(Completed(200, ParseErr(msg))).extra == Some(PString(msg))
  {
  }
}
