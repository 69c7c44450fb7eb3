/** The request/response layer of the Payright client (class Payright):
    pre-flight key checks, choice of GET or POST, the headers and signature
    put on each request, and the handling of the status code and the signed
    envelope that comes back. */
module Payright {
  import opened JavaLang
  import opened StringUtils
  import opened Http

  /** SignConfig: the three keys, each possibly null. */
  datatype SignConfig = SignConfig(secretKey: Option<string>, privateKey: Option<string>, payrightPublicKey: Option<string>)

  /** PayrightConfig: the charset, the name used both for the signature header
      and for the envelope's signature field (SIGN), and the name of the
      envelope's data field (RESDATA). */
  datatype PayrightConfig = PayrightConfig(charset: string, sign: string, resData: string)

  /** com.payright.sign.RSA, whose code is not part of this model: signing a
      text with a key, and checking a signature of a text with a key. No law
      relating the two is assumed. */
  datatype Rsa = Rsa(sign: (string, Option<string>) -> string,
                     verify: (Option<string>, Option<string>, Option<string>) -> bool)

  /** Everything a call reads besides its arguments: the keys, the constants,
      the JVM's system properties, the RSA routines, and which texts
      java.net.URI.create accepts (its parser is not part of this model). */
  datatype Context = Context(keys: SignConfig, config: PayrightConfig, properties: map<string, string>, rsa: Rsa,
                             uriAccepts: string -> bool)

  /** What fastjson's JSON.parseObject(text, clazz) yields for non-null text:
      an object, null, or a JSONException. */
  datatype Parsed<T> = Object(value: T) | Null | Malformed

  /** What JSONObject.parse(text) followed by the cast to a map yields: the
      envelope's string members, or anything else (null, a non-object, a
      syntax error), which the code cannot go on with. */
  datatype Envelope = Fields(fields: map<string, string>) | NotAMap

  /** fastjson, with `Class<T> clazz` folded into `parseObject`. */
  datatype Json<T> = Json(parseObject: string -> Parsed<T>, parseEnvelope: string -> Envelope)

  datatype LocalKey = SecretKey | PrivateKey

  /** The exceptions a call can end with. */
  datatype Failure =
    | AuthorizationError(key: LocalKey)   // AuthorizationException
    | InvalidRequest                      // InvalidRequestException
    | IoError                             // IOException from the transport
    | NumberFormatError                   // Integer.valueOf on a missing code
    | JsonError                           // JSONException from parseObject
    | MalformedEnvelope                   // a success body that is not a map
    | InvalidUrl                          // URI.create on a null or unparsable url

  /** What `request` returns or throws: a parsed object, null, or an exception. */
  datatype Outcome<T> = Value(value: T) | Empty | Thrown(failure: Failure)

  /** What buildGetRequest / buildPostRequest return or throw. */
  datatype Built = Built(result: map<string, string>) | Raised(failure: Failure)

  /** One call seen from outside: its outcome and the requests it put on the wire. */
  datatype Exchanged<T> = Exchanged(outcome: Outcome<T>, sent: seq<OutboundRequest>)

  const ContentTypeHeader := "Content-Type"
  const AuthorizationHeader := "Authorization"
  const UserAgentHeader := "X-Payright-Client-User-Agent"

  /** The system properties reported in the client-agent header. */
  const PropertyNames: seq<string> :=
    ["os.name", "os.version", "os.arch", "java.version", "java.vendor", "java.vm.version", "java.vm.vendor"]

  /** The key checks of `request`, in their order: the first blank key decides. */
  function Preflight(keys: SignConfig): (r: Option<Failure>)
    ensures r.None? <==> !IsBlank(keys.secretKey) && !IsBlank(keys.privateKey) && !IsBlank(keys.payrightPublicKey)
    ensures r.Some? ==> r.value in {AuthorizationError(SecretKey), AuthorizationError(PrivateKey), InvalidRequest}
  {
    if IsBlank(keys.secretKey) then Some(AuthorizationError(SecretKey))
    else if IsBlank(keys.privateKey) then Some(AuthorizationError(PrivateKey))
    else if IsBlank(keys.payrightPublicKey) then Some(InvalidRequest)
    else None
  }

  /** The client-agent map: each listed property (null when unset), then
      lang and publisher. */
  function ClientAgent(properties: map<string, string>): map<string, Option<string>>
  {
    (map name | name in PropertyNames :: Lookup(properties, name))["lang" := Some("Java")]["publisher" := Some("Payright")]
  }

  /** new HttpGet(url) and new HttpPost(url) go through URI.create(url), which
      throws on a null url and on text it does not accept as a URI. */
  predicate UrlAccepted(ctx: Context, url: Option<string>)
  {
    url.Some? && ctx.uriAccepts(url.value)
  }

  /** The headers every request gets, in the order they are added. */
  function CustomHeaders(ctx: Context): seq<Header>
  {
    [ Header(ContentTypeHeader, Text(Some("application/json; charset=" + ctx.config.charset))),
      Header(AuthorizationHeader, Text(ctx.keys.secretKey)),
      Header(UserAgentHeader, Serialized(ClientAgent(ctx.properties))) ]
  }

  /** The GET sent for `url`: no entity, the common headers only. */
  function GetRequest(ctx: Context, url: string): OutboundRequest
  {
    OutboundRequest(Get, url, None, CustomHeaders(ctx))
  }

  /** The POST sent for `url` and `reqData`: the body, the common headers, and
      the signature of the body under the private key. */
  function PostRequest(ctx: Context, url: string, reqData: string): OutboundRequest
  {
    OutboundRequest(Post, url, Some(Entity(reqData, ctx.config.charset)),
            CustomHeaders(ctx) + [Header(ctx.config.sign, Text(Some(ctx.rsa.sign(reqData, ctx.keys.privateKey))))])
  }

  /** The request a call that passed its key checks puts on the wire. */
  function ChosenRequest(ctx: Context, url: string, reqData: Option<string>): OutboundRequest
  {
    if IsBlank(reqData) then GetRequest(ctx, url) else PostRequest(ctx, url, reqData.value)
  }

  /** The map build*Request returns for a response: `code` and `data` when the
      response has an entity, nothing otherwise; or the IOException. */
  function ResultMap(response: Response): (r: Built)
    ensures r.Raised? <==> response.IoFailure?
    ensures r.Raised? ==> r.failure == IoError
    ensures r.Built? ==> r.result.Keys <= {"code", "data"}
  {
    match response
    case IoFailure => Raised(IoError)
    case Response(status, entity) =>
      if entity.Some? then Built(map["code" := DecimalString(status), "data" := entity.value])
      else Built(map[])
  }

  /** JSON.parseObject(text, clazz), where null text gives null. */
  function ParseObject<T>(json: Json<T>, text: Option<string>): (r: Outcome<T>)
    ensures text.None? ==> r == Empty
    ensures r.Thrown? ==> r.failure == JsonError
  {
    match text
    case None => Empty
    case Some(s) =>
      match json.parseObject(s)
      case Object(v) => Value(v)
      case Null => Empty
      case Malformed => Thrown(JsonError)
  }

  /** dealWithResult: an error status is parsed as it came; otherwise the
      envelope's data is parsed only if its signature checks out under the
      Payright public key, and a failed check gives null. */
  function DealWithResult<T>(ctx: Context, json: Json<T>, result: map<string, string>): (r: Outcome<T>)
    ensures "code" !in result ==> r == Thrown(NumberFormatError)
    ensures r.Thrown? ==> r.failure in {NumberFormatError, JsonError, MalformedEnvelope}
  {
    match ParseInt(Lookup(result, "code"))
    case None => Thrown(NumberFormatError)
    case Some(code) =>
      var resultData := Lookup(result, "data");
      if code >= 400 then ParseObject(json, resultData)
      else if resultData.None? then Thrown(MalformedEnvelope)
      else
        match json.parseEnvelope(resultData.value)
        case NotAMap => Thrown(MalformedEnvelope)
        case Fields(fields) =>
          var data := Lookup(fields, ctx.config.resData);
          if !ctx.rsa.verify(data, Lookup(fields, ctx.config.sign), ctx.keys.payrightPublicKey) then Empty
          else ParseObject(json, data)
  }

  /** The whole of `request` as a value: the key checks, then, for a url
      URI.create accepts, one request answered by `reply` and handed to
      dealWithResult. */
  function Exchange<T>(ctx: Context, json: Json<T>, reply: OutboundRequest -> Response,
                       url: Option<string>, reqData: Option<string>): (r: Exchanged<T>)
    ensures r.sent != [] <==> Preflight(ctx.keys).None? && UrlAccepted(ctx, url)
    ensures r.sent != [] ==> UrlAccepted(ctx, url) && r.sent == [ChosenRequest(ctx, url.value, reqData)]
    ensures r.sent == [] ==> r.outcome.Thrown?
    ensures r.sent == [] ==>
              r.outcome.failure in {AuthorizationError(SecretKey), AuthorizationError(PrivateKey), InvalidRequest, InvalidUrl}
    ensures r.outcome.Thrown? && r.outcome.failure == IoError ==> r.sent != []
  {
    match Preflight(ctx.keys)
    case Some(failure) => Exchanged(Thrown(failure), [])
    case None =>
      if !UrlAccepted(ctx, url) then Exchanged(Thrown(InvalidUrl), [])
      else
        var request := ChosenRequest(ctx, url.value, reqData);
        var outcome := match ResultMap(reply(request))
          case Raised(failure) => Thrown(failure)
          case Built(result) => DealWithResult(ctx, json, result);
        Exchanged(outcome, [request])
  }

  /** setCustomHeaders: content type, the secret key as Authorization, and the
      client-agent map filled from the system properties. */
  method SetCustomHeaders(request: HttpRequest, ctx: Context)
    modifies request
    ensures request.headers == old(request.headers) + CustomHeaders(ctx)
    ensures request.entity == old(request.entity)
  {
    request.AddHeader(ContentTypeHeader, Text(Some("application/json; charset=" + ctx.config.charset)));
    request.AddHeader(AuthorizationHeader, Text(ctx.keys.secretKey));
    var propertyMap: map<string, Option<string>> := map[];
    for i := 0 to |PropertyNames|
      invariant propertyMap == map name | name in PropertyNames[..i] :: Lookup(ctx.properties, name)
    {
      propertyMap := propertyMap[PropertyNames[i] := Lookup(ctx.properties, PropertyNames[i])];
    }
    assert PropertyNames[..|PropertyNames|] == PropertyNames;
    propertyMap := propertyMap["lang" := Some("Java")];
    propertyMap := propertyMap["publisher" := Some("Payright")];
    request.AddHeader(UserAgentHeader, Serialized(propertyMap));
  }

  /** buildGetRequest: one GET through the transport, its answer as a map;
      a url URI.create rejects throws before anything is sent. */
  method BuildGetRequest(transport: Transport, ctx: Context, url: Option<string>) returns (result: Built)
    modifies transport
    ensures !UrlAccepted(ctx, url) ==> transport.sent == old(transport.sent) && result == Raised(InvalidUrl)
    ensures UrlAccepted(ctx, url) ==> transport.sent == old(transport.sent) + [GetRequest(ctx, url.value)]
    ensures UrlAccepted(ctx, url) ==>
              result == ResultMap(transport.network(|old(transport.sent)|, GetRequest(ctx, url.value)))
  {
    if !UrlAccepted(ctx, url) {
      return Raised(InvalidUrl);
    }
    var httpGet := new HttpRequest(Get, url.value);
    SetCustomHeaders(httpGet, ctx);
    assert httpGet.Snapshot() == GetRequest(ctx, url.value);
    var response := transport.Execute(httpGet);
    if response.IoFailure? {
      return Raised(IoError);
    }
    var m: map<string, string> := map[];
    if response.entity.Some? {
      m := m["code" := DecimalString(response.status)];
      m := m["data" := response.entity.value];
    }
    result := Built(m);
  }

  /** buildPostRequest: one signed POST through the transport, its answer as
      a map; a url URI.create rejects throws before anything is sent. */
  method BuildPostRequest(transport: Transport, ctx: Context, url: Option<string>, reqData: string) returns (result: Built)
    modifies transport
    ensures !UrlAccepted(ctx, url) ==> transport.sent == old(transport.sent) && result == Raised(InvalidUrl)
    ensures UrlAccepted(ctx, url) ==> transport.sent == old(transport.sent) + [PostRequest(ctx, url.value, reqData)]
    ensures UrlAccepted(ctx, url) ==>
              result == ResultMap(transport.network(|old(transport.sent)|, PostRequest(ctx, url.value, reqData)))
  {
    if !UrlAccepted(ctx, url) {
      return Raised(InvalidUrl);
    }
    var httpPost := new HttpRequest(Post, url.value);
    httpPost.SetEntity(Entity(reqData, ctx.config.charset));
    SetCustomHeaders(httpPost, ctx);
    var sign := ctx.rsa.sign(reqData, ctx.keys.privateKey);
    httpPost.AddHeader(ctx.config.sign, Text(Some(sign)));
    assert httpPost.Snapshot() == PostRequest(ctx, url.value, reqData);
    var response := transport.Execute(httpPost);
    if response.IoFailure? {
      return Raised(IoError);
    }
    var m: map<string, string> := map[];
    if response.entity.Some? {
      var data := response.entity.value;
      m := m["code" := DecimalString(response.status)];
      m := m["data" := data];
    }
    result := Built(m);
  }

  /** request: the key checks in order, then GET for a blank body or a signed
      POST otherwise, then dealWithResult on what came back. */
  method Request<T>(transport: Transport, ctx: Context, json: Json<T>, url: Option<string>, reqData: Option<string>)
    returns (outcome: Outcome<T>)
    modifies transport
    ensures var x := Exchange(ctx, json, transport.ReplyAt(|old(transport.sent)|), url, reqData);
            outcome == x.outcome && transport.sent == old(transport.sent) + x.sent
    ensures |transport.sent| == |old(transport.sent)| + (if Preflight(ctx.keys).None? && UrlAccepted(ctx, url) then 1 else 0)
  {
    if IsBlank(ctx.keys.secretKey) {
      return Thrown(AuthorizationError(SecretKey));
    }
    if IsBlank(ctx.keys.privateKey) {
      return Thrown(AuthorizationError(PrivateKey));
    }
    if IsBlank(ctx.keys.payrightPublicKey) {
      return Thrown(InvalidRequest);
    }
    var result;
    if IsBlank(reqData) {
      result := BuildGetRequest(transport, ctx, url);
    } else {
      result := BuildPostRequest(transport, ctx, url, reqData.value);
    }
    match result
    case Raised(failure) => outcome := Thrown(failure);
    case Built(m) => outcome := DealWithResult(ctx, json, m);
  }
}
