/** What the Payright client promises about one call: which key check fails
    first, that a failed check never reaches the network, which verb and
    headers go out, and how the status code and the envelope signature decide
    the result. */
module PayrightProperties {
  import opened JavaLang
  import opened StringUtils
  import opened Http
  import opened Payright

  /** The key checks run in a fixed order and the first blank key alone
      decides the exception. */
  lemma PreflightFirstBlankDecides(keys: SignConfig)
    ensures Preflight(keys) == Some(AuthorizationError(SecretKey)) <==> IsBlank(keys.secretKey)
    ensures Preflight(keys) == Some(AuthorizationError(PrivateKey))
            <==> !IsBlank(keys.secretKey) && IsBlank(keys.privateKey)
    ensures Preflight(keys) == Some(InvalidRequest)
            <==> !IsBlank(keys.secretKey) && !IsBlank(keys.privateKey) && IsBlank(keys.payrightPublicKey)
    ensures Preflight(keys) == None
            <==> !IsBlank(keys.secretKey) && !IsBlank(keys.privateKey) && !IsBlank(keys.payrightPublicKey)
  {
  }

  /** A blank secret key throws AuthorizationException whatever else is set,
      and no request is built or sent. */
  lemma BlankSecretKeyFailsWithoutCall<T>(ctx: Context, json: Json<T>, reply: OutboundRequest -> Response,
                                          url: Option<string>, reqData: Option<string>)
    requires IsBlank(ctx.keys.secretKey)
    ensures Exchange(ctx, json, reply, url, reqData).outcome == Thrown(AuthorizationError(SecretKey))
    ensures Exchange(ctx, json, reply, url, reqData).sent == []
  {
  }

  /** Whichever key check fails, the call ends with that check's exception
      and puts nothing on the wire, however the network would have answered. */
  lemma KeyFailureMakesNoCall<T>(ctx: Context, json: Json<T>, reply: OutboundRequest -> Response,
                                 url: Option<string>, reqData: Option<string>)
    requires Preflight(ctx.keys).Some?
    ensures Exchange(ctx, json, reply, url, reqData).outcome == Thrown(Preflight(ctx.keys).value)
    ensures Exchange(ctx, json, reply, url, reqData).sent == []
    ensures Preflight(ctx.keys).value in {AuthorizationError(SecretKey), AuthorizationError(PrivateKey), InvalidRequest}
  {
  }

  /** With all three keys set and a url URI.create accepts, exactly one
      request goes out, the one chosen for the body: a GET when the body is
      blank (null, empty or whitespace) and a POST otherwise. */
  lemma KeysPresentMakesOneCall<T>(ctx: Context, json: Json<T>, reply: OutboundRequest -> Response,
                                   url: Option<string>, reqData: Option<string>)
    requires Preflight(ctx.keys).None?
    requires UrlAccepted(ctx, url)
    ensures Exchange(ctx, json, reply, url, reqData).sent == [ChosenRequest(ctx, url.value, reqData)]
    ensures Exchange(ctx, json, reply, url, reqData).sent[0].url == url.value
    ensures Exchange(ctx, json, reply, url, reqData).sent[0].verb == Get <==> IsBlank(reqData)
    ensures Exchange(ctx, json, reply, url, reqData).sent[0].verb == Post <==> !IsBlank(reqData)
  {
  }

  /** With all three keys set, a null url or one URI.create rejects throws
      while the request object is being made, so nothing is sent. */
  lemma RejectedUrlMakesNoCall<T>(ctx: Context, json: Json<T>, reply: OutboundRequest -> Response,
                                  url: Option<string>, reqData: Option<string>)
    requires Preflight(ctx.keys).None?
    requires url.None? || !ctx.uriAccepts(url.value)
    ensures Exchange(ctx, json, reply, url, reqData).outcome == Thrown(InvalidUrl)
    ensures Exchange(ctx, json, reply, url, reqData).sent == []
  {
  }

  /** A POST carries its body text unchanged, the common headers, and last a
      signature header holding RSA.sign of exactly that text under the
      private key. */
  lemma PostCarriesSignedBody(ctx: Context, url: string, reqData: string)
    requires !IsBlank(Some(reqData))
    ensures ChosenRequest(ctx, url, Some(reqData)).verb == Post
    ensures ChosenRequest(ctx, url, Some(reqData)).entity == Some(Entity(reqData, ctx.config.charset))
    ensures |ChosenRequest(ctx, url, Some(reqData)).headers| == 4
    ensures ChosenRequest(ctx, url, Some(reqData)).headers[..3] == CustomHeaders(ctx)
    ensures ChosenRequest(ctx, url, Some(reqData)).headers[3]
            == Header(ctx.config.sign, Text(Some(ctx.rsa.sign(reqData, ctx.keys.privateKey))))
  {
  }

  /** A GET carries no entity and only the common headers, so no signature
      header unless the signature header's name is one of the common ones. */
  lemma GetCarriesNoBodyNorSignature(ctx: Context, url: string, reqData: Option<string>)
    requires IsBlank(reqData)
    ensures ChosenRequest(ctx, url, reqData).verb == Get
    ensures ChosenRequest(ctx, url, reqData).entity == None
    ensures ChosenRequest(ctx, url, reqData).headers == CustomHeaders(ctx)
    ensures ctx.config.sign !in {ContentTypeHeader, AuthorizationHeader, UserAgentHeader} ==>
              forall h :: h in ChosenRequest(ctx, url, reqData).headers ==> h.name != ctx.config.sign
  {
  }

  /** Every request, GET or POST, carries the content type with the configured
      charset, the secret key as Authorization, and the client-agent map. */
  lemma EveryRequestHasCommonHeaders(ctx: Context, url: string, reqData: Option<string>)
    ensures Header(ContentTypeHeader, Text(Some("application/json; charset=" + ctx.config.charset)))
            in ChosenRequest(ctx, url, reqData).headers
    ensures Header(AuthorizationHeader, Text(ctx.keys.secretKey)) in ChosenRequest(ctx, url, reqData).headers
    ensures Header(UserAgentHeader, Serialized(ClientAgent(ctx.properties))) in ChosenRequest(ctx, url, reqData).headers
  {
  }

  /** The client-agent map holds the seven system properties (null when
      unset), lang = Java and publisher = Payright, and nothing else. */
  lemma ClientAgentFields(properties: map<string, string>)
    ensures ClientAgent(properties).Keys == (set name | name in PropertyNames) + {"lang", "publisher"}
    ensures ClientAgent(properties)["lang"] == Some("Java")
    ensures ClientAgent(properties)["publisher"] == Some("Payright")
    ensures forall name :: name in PropertyNames ==> ClientAgent(properties)[name] == Lookup(properties, name)
  {
  }

  /** The builders' result map gets both `code` and `data` when the response
      has an entity and neither when it has none; the status code written
      there as text reads back as the same number. */
  lemma ResultMapFilledOnlyWithEntity(status: int32, entity: Option<string>)
    ensures ResultMap(Response(status, entity)).Built?
    ensures entity.None? ==> ResultMap(Response(status, entity)).result == map[]
    ensures entity.Some? ==> ResultMap(Response(status, entity)).result.Keys == {"code", "data"}
    ensures entity.Some? ==> ResultMap(Response(status, entity)).result["data"] == entity.value
    ensures entity.Some? ==> ParseInt(Some(ResultMap(Response(status, entity)).result["code"])) == Some(status)
  {
    ParseIntOfDecimalString(status);
  }

  /** A response without an entity leaves the map empty, so reading its code
      throws NumberFormatException. */
  lemma NoEntityIsNumberFormatError<T>(ctx: Context, json: Json<T>, status: int32)
    ensures DealWithResult(ctx, json, ResultMap(Response(status, None)).result) == Thrown(NumberFormatError)
  {
  }

  /** An error status (400 or more) is parsed straight from the body, and the
      result is the same whatever the signature check would have said. */
  lemma ErrorStatusSkipsVerification<T>(ctx: Context, json: Json<T>, status: int32, body: string,
                                        verify: (Option<string>, Option<string>, Option<string>) -> bool)
    requires status >= 400
    ensures DealWithResult(ctx, json, ResultMap(Response(status, Some(body))).result) == ParseObject(json, Some(body))
    ensures DealWithResult(ctx.(rsa := ctx.rsa.(verify := verify)), json, ResultMap(Response(status, Some(body))).result)
            == DealWithResult(ctx, json, ResultMap(Response(status, Some(body))).result)
  {
    ParseIntOfDecimalString(status);
  }

  /** Below 400, an envelope whose signature does not verify under the
      Payright public key yields null and no exception. */
  lemma UnverifiedEnvelopeIsEmpty<T>(ctx: Context, json: Json<T>, status: int32, body: string, fields: map<string, string>)
    requires status < 400
    requires json.parseEnvelope(body) == Fields(fields)
    requires !ctx.rsa.verify(Lookup(fields, ctx.config.resData), Lookup(fields, ctx.config.sign), ctx.keys.payrightPublicKey)
    ensures DealWithResult(ctx, json, ResultMap(Response(status, Some(body))).result) == Empty
  {
    ParseIntOfDecimalString(status);
  }

  /** Below 400, an envelope whose signature verifies yields the parse of its
      data member, and only of that member. */
  lemma VerifiedEnvelopeParsesData<T>(ctx: Context, json: Json<T>, status: int32, body: string, fields: map<string, string>)
    requires status < 400
    requires json.parseEnvelope(body) == Fields(fields)
    requires ctx.rsa.verify(Lookup(fields, ctx.config.resData), Lookup(fields, ctx.config.sign), ctx.keys.payrightPublicKey)
    ensures DealWithResult(ctx, json, ResultMap(Response(status, Some(body))).result)
            == ParseObject(json, Lookup(fields, ctx.config.resData))
    ensures ctx.config.resData in fields ==>
              DealWithResult(ctx, json, ResultMap(Response(status, Some(body))).result)
              == ParseObject(json, Some(fields[ctx.config.resData]))
  {
    ParseIntOfDecimalString(status);
  }

  /** The whole call, keys set and an answer with a body: the outcome is the
      direct parse of the body for an error status, and otherwise decided by
      the envelope's signature alone. */
  lemma CallDispatchesOnStatus<T>(ctx: Context, json: Json<T>, reply: OutboundRequest -> Response,
                                  url: Option<string>, reqData: Option<string>, status: int32, body: string)
    requires Preflight(ctx.keys).None?
    requires UrlAccepted(ctx, url)
    requires reply(ChosenRequest(ctx, url.value, reqData)) == Response(status, Some(body))
    ensures status >= 400 ==> Exchange(ctx, json, reply, url, reqData).outcome == ParseObject(json, Some(body))
    ensures status < 400 && json.parseEnvelope(body).NotAMap? ==>
              Exchange(ctx, json, reply, url, reqData).outcome == Thrown(MalformedEnvelope)
    ensures status < 400 && json.parseEnvelope(body).Fields? ==>
              var fields := json.parseEnvelope(body).fields;
              var data := Lookup(fields, ctx.config.resData);
              Exchange(ctx, json, reply, url, reqData).outcome
              == if ctx.rsa.verify(data, Lookup(fields, ctx.config.sign), ctx.keys.payrightPublicKey)
                 then ParseObject(json, data) else Empty
  {
    ParseIntOfDecimalString(status);
  }

  /** A transport failure surfaces as the IOException, after exactly one call. */
  lemma TransportFailureSurfaces<T>(ctx: Context, json: Json<T>, reply: OutboundRequest -> Response,
                                    url: Option<string>, reqData: Option<string>)
    requires Preflight(ctx.keys).None?
    requires UrlAccepted(ctx, url)
    requires reply(ChosenRequest(ctx, url.value, reqData)) == IoFailure
    ensures Exchange(ctx, json, reply, url, reqData) == Exchanged(Thrown(IoError), [ChosenRequest(ctx, url.value, reqData)])
  {
  }
}
