/** The two dispatchers (`send_api_request`, `send_private_api_request`):
    the outbound request each builds, the response envelope check both
    apply, and the lazy credential load and nonce injection of the private
    one. The transport and the JSON decoder are outside the model: the
    decoded reply is an input. */
module Dispatch {
  import opened Wrappers
  import opened PyValues
  import opened Signing

  const KrakUrl := "https://api.kraken.com"
  const Version := "0"
  const KeyFileName := "key.asc"

  function PublicPath(operation: string): string {
    "/" + Version + "/public/" + operation
  }

  function PrivatePath(operation: string): string {
    "/" + Version + "/private/" + operation
  }

  /** The request handed to the HTTP client: a GET with its query map, or a
      POST with its form map and the signed headers. The client itself
      drops entries holding None before encoding, so these maps are what
      is signed, not byte for byte what is posted. */
  datatype Request =
    | Get(url: string, query: map<string, Value>)
    | Post(url: string, body: map<string, Value>, apiKey: string, apiSign: string)

  /** The envelope check shared by both dispatchers: the decoded reply is
      returned unchanged when its `error` is the empty list and it has a
      `result`; otherwise `APIError(reply["error"])` is raised (or the
      lookup of `error` itself fails). */
  function Normalize(reply: Json): (r: Result<Json, Error>)
    ensures r.Success? <==>
      reply.JObject? && "error" in reply.fields && "result" in reply.fields && reply.fields["error"] == JArray([])
    ensures r.Success? ==> r.value == reply
    ensures reply.JObject? && "error" in reply.fields && r.Failure? ==> r.error == ApiError(reply.fields["error"])
    ensures reply.JObject? && "error" !in reply.fields ==> r == Failure(KeyError("error"))
    ensures !reply.JObject? ==> r == Failure(TypeError)
  {
    match Index(reply, "error")
    case Failure(e) => Failure(e)
    case Success(error) =>
      if error != JArray([]) || "result" !in reply.fields then Failure(ApiError(error)) else Success(reply)
  }

  /** The two stripped lines of the key file, or its absence. */
  datatype KeyFile = NoKeyFile | KeyLines(keyLine: string, secretLine: string)

  datatype Credentials = Credentials(key: string, secret: string)

  const MissingKeyFileMessage := "File " + KeyFileName + " does not exist. Unable to load api key and private key."
  const EmptyKeyMessage := "No api key or no private key in file " + KeyFileName

  /** `load_key`: the credentials afterwards and the exception, if any. The
      fields are assigned before the emptiness check, so a file with an
      empty line still overwrites them. */
  function LoadKey(creds: Credentials, file: KeyFile): (r: (Credentials, Option<Error>))
    // a missing file raises before any field changes
    ensures file.NoKeyFile? ==> r == (creds, Some(Failed(MissingKeyFileMessage)))
    // otherwise both lines replace the credentials, even when one of them is empty
    ensures file.KeyLines? ==> r.0 == Credentials(file.keyLine, file.secretLine)
    ensures file.KeyLines? ==> (r.1.Some? <==> file.keyLine == "" || file.secretLine == "")
    ensures file.KeyLines? && r.1.Some? ==> r.1.value == Failed(EmptyKeyMessage)
  {
    match file
    case NoKeyFile => (creds, Some(Failed(MissingKeyFileMessage)))
    case KeyLines(k, s) =>
      (Credentials(k, s), if k == "" || s == "" then Some(Failed(EmptyKeyMessage)) else None)
  }

  /** What a private call leaves behind: its outcome, the request it sent
      (if any), and the client's credentials afterwards. */
  datatype Private = Private(outcome: Result<Json, Error>, sent: Option<Request>, creds: Credentials)

  /** `send_private_api_request(path, data)` with the clock reading `nonce`,
      the key file `file` and the decoded reply `reply`. */
  function PrivateDispatch(p: Primitives, creds: Credentials, path: string, data: map<string, Value>,
                           nonce: int, file: KeyFile, reply: Json): (d: Private)
    // the key file is read only when a credential is empty, and then replaces both
    ensures creds.key != "" && creds.secret != "" ==> d.creds == creds
    ensures (creds.key == "" || creds.secret == "") && file.KeyLines? ==>
      d.creds == Credentials(file.keyLine, file.secretLine)
    ensures (creds.key == "" || creds.secret == "") && file.NoKeyFile? ==>
      d == Private(Failure(Failed(MissingKeyFileMessage)), None, creds)
    // a request goes out only with non-empty credentials and a decodable secret
    ensures d.sent.Some? <==>
      d.creds.key != "" && d.creds.secret != "" && IsAscii(d.creds.secret) && p.b64decode(d.creds.secret).Some?
    // the form map handed to the client is the caller's data with the nonce added, and it is what was signed
    ensures d.sent.Some? ==>
      && d.sent.value.Post?
      && d.sent.value.url == KrakUrl + path
      && d.sent.value.body == data["nonce" := Number(nonce)]
      && d.sent.value.apiKey == d.creds.key
      && Sign(p, d.creds.secret, d.sent.value.body, path) == Success(d.sent.value.apiSign)
    ensures d.sent.Some? ==> d.outcome == Normalize(reply)
    ensures d.sent.None? ==> d.outcome.Failure?
    // an empty line in the key file raises the key-file Exception after the assignment
    ensures (creds.key == "" || creds.secret == "") && file.KeyLines? && (file.keyLine == "" || file.secretLine == "") ==>
      d == Private(Failure(Failed(EmptyKeyMessage)), None, Credentials(file.keyLine, file.secretLine))
    // with usable credentials, a refused secret raises what decoding it raises
    ensures d.sent.None? && d.creds.key != "" && d.creds.secret != "" ==>
      DecodeSecret(p, d.creds.secret).Failure? && d.outcome == Failure(DecodeSecret(p, d.creds.secret).error)
  {
    var (c, err) := if creds.secret == "" || creds.key == "" then LoadKey(creds, file) else (creds, None);
    if err.Some? then Private(Failure(err.value), None, c)
    else
      var body := data["nonce" := Number(nonce)];
      match Sign(p, c.secret, body, path)
      case Failure(e) => Private(Failure(e), None, c)
      case Success(signature) => Private(Normalize(reply), Some(Post(KrakUrl + path, body, c.key, signature)), c)
  }

  /** A private endpoint wrapper: when its local checks refuse the
      arguments (`params` is a failure) it raises before loading keys or
      sending anything; otherwise it dispatches the parameter map. */
  function PrivateCall(p: Primitives, creds: Credentials, path: string, params: Result<map<string, Value>, Error>,
                       nonce: int, file: KeyFile, reply: Json): (d: Private)
    ensures params.Failure? ==> d.outcome == Failure(params.error) && d.sent.None? && d.creds == creds
    ensures params.Success? ==> d == PrivateDispatch(p, creds, path, params.value, nonce, file, reply)
  {
    match params
    case Failure(e) => Private(Failure(e), None, creds)
    case Success(data) => PrivateDispatch(p, creds, path, data, nonce, file, reply)
  }

  /** The signed text of a dispatched request starts with the decimal nonce
      that the body carries: the same clock reading is signed and posted. */
  lemma SignedNonceIsPostedNonce(p: Primitives, creds: Credentials, path: string, data: map<string, Value>,
                                 nonce: int, file: KeyFile, reply: Json)
    requires PrivateDispatch(p, creds, path, data, nonce, file, reply).sent.Some?
    ensures var d := PrivateDispatch(p, creds, path, data, nonce, file, reply);
      d.sent.value.body["nonce"] == Number(nonce) &&
      d.sent.value.apiSign ==
        Signature(p, p.b64decode(d.creds.secret).value, path, IntToString(nonce), p.urlencode(d.sent.value.body))
  {
  }
}
