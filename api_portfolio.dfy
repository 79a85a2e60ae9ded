/**
 * The portfolio-data endpoint: public reads of one blob, writes gated by a
 * static bearer secret. The blob service is a mutable map from path names to
 * contents; whether one of its calls throws (network, quota) is an input.
 */
module PortfolioApi {
  import opened Wrappers
  import opened JsString
  import opened Json
  import opened Http

  const BlobPath := "portfolio/data.json"
  const DefaultSecret := "myportfolio"
  const BearerPrefix := "Bearer "
  const AllowedMethods := "GET, POST, PUT"

  /** `process.env.PORTFOLIO_API_SECRET || 'myportfolio'`: an unset or empty variable falls back. */
  function Secret(env: Option<string>): (r: string)
    ensures r != ""
    ensures env.Some? && env.value != "" ==> r == env.value
    ensures env.None? || env.value == "" ==> r == DefaultSecret
  {
    if env.Some? && env.value != "" then env.value else DefaultSecret
  }

  /** `auth && auth.startsWith('Bearer ') ? auth.slice(7) : ''`. */
  function BearerToken(authorization: Option<string>): (token: string)
    ensures authorization.Some? && StartsWith(authorization.value, BearerPrefix) ==>
              authorization.value == BearerPrefix + token
    ensures !(authorization.Some? && StartsWith(authorization.value, BearerPrefix)) ==> token == ""
  {
    if authorization.Some? && StartsWith(authorization.value, BearerPrefix) then
      authorization.value[|BearerPrefix|..]
    else ""
  }

  /** The header a client builds from a token is read back as that token. */
  lemma {:induction false} BearerRoundTrip(token: string)
    ensures BearerToken(Some(BearerPrefix + token)) == token
  {
    var h := BearerPrefix + token;
    assert h[..|BearerPrefix|] == BearerPrefix;
    assert h[|BearerPrefix|..] == token;
  }

  /** What the handler does with a request, decided before any blob call. */
  datatype Route = ReadBlob | WriteBlob | Unauthorized | MethodNotAllowed

  /** The method dispatch and the bearer check. */
  function Dispatch(verb: string, authorization: Option<string>, secret: string): (r: Route)
    ensures r == ReadBlob <==> verb == "GET"
    ensures r == WriteBlob <==> (verb == "POST" || verb == "PUT") && secret != "" && BearerToken(authorization) == secret
    ensures r == Unauthorized <==> (verb == "POST" || verb == "PUT") && (secret == "" || BearerToken(authorization) != secret)
    ensures r == MethodNotAllowed <==> verb != "GET" && verb != "POST" && verb != "PUT"
  {
    if verb == "GET" then ReadBlob
    else if verb == "POST" || verb == "PUT" then
      if secret == "" || BearerToken(authorization) != secret then Unauthorized else WriteBlob
    else MethodNotAllowed
  }

  /**
   * The `!SECRET` test never fires: with the configured secret, a write is
   * authorised exactly when the bearer token equals it.
   */
  lemma SecretNeverEmpty(verb: string, authorization: Option<string>, env: Option<string>)
    requires verb == "POST" || verb == "PUT"
    ensures Dispatch(verb, authorization, Secret(env)) == WriteBlob <==> BearerToken(authorization) == Secret(env)
  {
  }

  /** A write whose header is missing or not a bearer header is refused, whatever the secret. */
  lemma MissingBearerIsUnauthorized(verb: string, authorization: Option<string>, env: Option<string>)
    requires verb == "POST" || verb == "PUT"
    requires authorization.None? || !StartsWith(authorization.value, BearerPrefix)
    ensures Dispatch(verb, authorization, Secret(env)) == Unauthorized
  {
  }

  /** `req.body`: the platform hands over either raw text or an already parsed JSON value. */
  datatype Body<J> = RawText(text: string) | Parsed(value: J)

  datatype Request<J> = Request(verb: string, authorization: Option<string>, body: Body<J>)

  /** The blob store of the deployment: path name -> stored text. */
  class BlobStore {
    var blobs: map<string, string>

    constructor ()
      ensures blobs == map[]
    {
      blobs := map[];
    }
  }

  /**
   * The GET branch: 404 without a blob at the path; otherwise the blob is
   * fetched and parsed and sent back re-serialised; a failing service call
   * or an unparsable blob is a 500.
   */
  function ReadResponse<J>(blobs: map<string, string>, codec: Codec<J>, fault: bool): (r: Response)
    ensures BlobPath !in blobs ==> r.status == 404 || r.status == 500
    ensures !fault && BlobPath !in blobs ==> r == Response(404, map[], NoBody)
    ensures r.status == 404 <==> !fault && BlobPath !in blobs
    ensures r.status == 200 <==> !fault && BlobPath in blobs && codec.parse(blobs[BlobPath]).Some?
    ensures r.status == 200 ==> r.headers == map["Content-Type" := "application/json"]
    ensures r.status != 200 && r.status != 404 ==> r == Response(500, map[], ErrorJson("Failed to load portfolio"))
    ensures r.status == 200 ==> BlobPath in blobs && codec.parse(blobs[BlobPath]).Some?
                                && r.payload == JsonText(codec.stringify(codec.parse(blobs[BlobPath]).value))
  {
    if fault then Response(500, map[], ErrorJson("Failed to load portfolio"))
    else if BlobPath !in blobs then Response(404, map[], NoBody)
    else match codec.parse(blobs[BlobPath])
      case None => Response(500, map[], ErrorJson("Failed to load portfolio"))
      case Some(v) => Response(200, map["Content-Type" := "application/json"], JsonText(codec.stringify(v)))
  }

  /** The value a write stores: a text body is parsed first, an already decoded body is taken as it is. */
  function BodyValue<J>(body: Body<J>, codec: Codec<J>): Option<J> {
    match body
    case RawText(t) => codec.parse(t)
    case Parsed(v) => Some(v)
  }

  /**
   * The authorised POST/PUT branch: the body (parsed first when it is text)
   * is serialised and put at the path, overwriting; a body that does not
   * parse or a failing `put` is a 500 and the store is unchanged.
   */
  function WriteResult<J>(blobs: map<string, string>, body: Body<J>, codec: Codec<J>, fault: bool)
    : (r: (Response, map<string, string>))
    ensures r.0.status == 200 || r.0 == Response(500, map[], ErrorJson("Failed to save portfolio"))
    ensures r.0.status != 200 ==> r.1 == blobs
    ensures r.0.status == 200 ==> r.0 == Response(200, map[], OkJson)
    ensures r.0.status == 200 <==> !fault && BodyValue(body, codec).Some?
    ensures r.0.status == 200 ==> r.1 == blobs[BlobPath := codec.stringify(BodyValue(body, codec).value)]
    ensures forall k | k != BlobPath :: (k in r.1 <==> k in blobs) && (k in blobs ==> r.1[k] == blobs[k])
  {
    var value := BodyValue(body, codec);
    if value.None? || fault then (Response(500, map[], ErrorJson("Failed to save portfolio")), blobs)
    else (Response(200, map[], OkJson), blobs[BlobPath := codec.stringify(value.value)])
  }

  /**
   * The handler. `env` is `PORTFOLIO_API_SECRET`; `fault` says whether the
   * blob service call made on this request throws.
   */
  method Handler<J>(store: BlobStore, req: Request<J>, env: Option<string>, codec: Codec<J>, fault: bool)
    returns (res: Response)
    modifies store
    ensures var route := Dispatch(req.verb, req.authorization, Secret(env));
      && (route == ReadBlob ==> res == ReadResponse(old(store.blobs), codec, fault) && store.blobs == old(store.blobs))
      && (route == WriteBlob ==> (res, store.blobs) == WriteResult(old(store.blobs), req.body, codec, fault))
      && (route == Unauthorized ==> res == Response(401, map[], ErrorJson("Unauthorized")) && store.blobs == old(store.blobs))
      && (route == MethodNotAllowed ==>
            res == Response(405, map["Allow" := AllowedMethods], Text("Method Not Allowed"))
            && store.blobs == old(store.blobs))
  {
    match Dispatch(req.verb, req.authorization, Secret(env))
    case ReadBlob =>
      res := ReadResponse(store.blobs, codec, fault);
    case WriteBlob =>
      var result := WriteResult(store.blobs, req.body, codec, fault);
      res := result.0;
      store.blobs := result.1;
    case Unauthorized =>
      res := Response(401, map[], ErrorJson("Unauthorized"));
    case MethodNotAllowed =>
      res := Response(405, map["Allow" := AllowedMethods], Text("Method Not Allowed"));
  }

  /**
   * An authorised write followed by a GET: the GET answers 200 with the JSON
   * text of the body's value, for a decoded body and for a text body that
   * parses alike, given that serialise-then-parse is the identity and
   * neither service call fails.
   */
  lemma WriteThenRead<J(!new)>(blobs: map<string, string>, body: Body<J>, v: J, codec: Codec<J>)
    requires Lawful(codec)
    requires BodyValue(body, codec) == Some(v)
    ensures var (res, after) := WriteResult(blobs, body, codec, false);
      && res.status == 200
      && ReadResponse(after, codec, false)
         == Response(200, map["Content-Type" := "application/json"], JsonText(codec.stringify(v)))
  {
    assert codec.parse(codec.stringify(v)) == Some(v);
  }

  /** A GET needs no authorisation: any header, or none, is routed to the read. */
  lemma ReadsArePublic(authorization: Option<string>, env: Option<string>)
    ensures Dispatch("GET", authorization, Secret(env)) == ReadBlob
  {
  }
}
