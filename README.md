# Payright client request layer, in Dafny

This project models the request/response decision layer of the Payright Java
server SDK (class `com.payright.model.Payright`). A call to `request`:

1. checks three keys in a fixed order: the secret key and then the RSA
   private key, either of which throws `AuthorizationException`; then the
   Payright public key, which throws `InvalidRequestException`. A key fails
   when it is blank in the sense of `StringUtils.isBlank`: null, empty, or
   only whitespace;
2. sends a GET when the request body is blank, and a signed POST otherwise;
3. puts the same three headers on every request: content type,
   `Authorization` carrying the secret key, and `X-Payright-Client-User-Agent`
   carrying a map of system properties. A POST also carries its body and a
   header, named by `PayrightConfig.SIGN`, holding `RSA.sign` of the body
   text under the private key;
4. turns the response into a map with `code` and `data` entries. It fills
   the map only when the response has an entity;
5. handles that map in `dealWithResult`. A status of 400 or more is parsed
   straight from the body. Any other status is read as an envelope, and the
   envelope's data is parsed only if its signature verifies under the
   Payright public key. When the check fails, the result is null and no
   exception is thrown.

Files:

- `lang.dfy` (module `JavaLang`): nullable values, `Map.get`,
  `Character.isWhitespace`, and the decimal text form of an `int` written by
  `String.valueOf` and read back by `Integer.valueOf`. The round trip between
  those two is proved.
- `string_utils.dfy` (module `StringUtils`): `isBlank`.
- `http.dfy` (module `Http`): request and response values. It also holds
  `HttpRequest`, a class whose entity and headers are set in place, and
  `Transport`, the injected client. `Transport` logs every request it
  executes, so the length of its log is the number of network calls.
- `payright.dfy` (module `Payright`): the configuration, the outcome type,
  the specification functions, and the imperative methods `Request`,
  `BuildGetRequest`, `BuildPostRequest` and `SetCustomHeaders`.
- `payright_properties.dfy` (module `PayrightProperties`): the properties of
  a call, stated as lemmas.

The collaborators whose code is not part of this model are parameters with
no laws assumed about them:

- `RSA.sign` and `RSA.verify` are the two function fields of `Rsa`.
- fastjson's `JSON.parseObject(text, clazz)` and `JSONObject.parse` are the
  two function fields of `Json<T>`. The `Class<T>` argument is folded into
  the type parameter.
- `URI.create`'s parser is `Context.uriAccepts`, which says which url texts
  it accepts.
- The network is `Transport.network`, which gives the answer to the k-th
  call for a given request.
- `System.getProperty` reads a map of system properties.
- The header written by `JSON.toJSONString(propertyMap)` is kept as the map
  it serialises.

`request` is specified by the pure function `Exchange`, which gives the
call's outcome and the list of requests it put on the wire. The method
`Request` is proved to produce exactly that outcome and that list against a
`Transport`. The lemmas about `Exchange` then carry over to the method.

Some facts about the code that the model keeps:

- The client-agent header is `X-Payright-Client-User-Agent`.
- A blank secret or private key throws `AuthorizationException`; a blank
  Payright public key throws `InvalidRequestException`.
- The body is signed as a Java string (`RSA.sign(reqData, …)`), not as the
  encoded bytes that are sent.
- A failed signature check yields `JSON.parseObject(null, clazz)`, which
  is null. This is the outcome `Empty`.
- A response without an entity leaves the map empty, so
  `Integer.valueOf(null)` throws `NumberFormatException`. This is the
  outcome `Thrown(NumberFormatError)`.
- `new HttpGet(url)` and `new HttpPost(url)` go through `URI.create(url)`,
  which throws on a null url and on text it does not accept. Nothing is
  sent then. This is the outcome `Thrown(InvalidUrl)`; which texts
  `URI.create` accepts is the opaque `Context.uriAccepts`.

## Model

| member | source | states |
|---|---|---|
| `StringUtils.IsBlank` | src/main/java/com/payright/model/Payright.java:93-105 | a string is blank exactly when it is null or every character is whitespace; a string whose first character is not whitespace is not blank |
| `StringUtils.AllWhitespace` | src/main/java/com/payright/model/Payright.java:105 | the character scan behind `isBlank` is true exactly when every character satisfies `Character.isWhitespace` |
| `JavaLang.ParseIntOfDecimalString` | src/main/java/com/payright/model/Payright.java:123 | `Integer.valueOf` of the text `String.valueOf` wrote for a status code gives back the same int |
| `JavaLang.DigitsValueOfDigits` | src/main/java/com/payright/model/Payright.java:165 | the decimal digits written for a natural number read back as that number |
| `PayrightProperties.PreflightFirstBlankDecides` | src/main/java/com/payright/model/Payright.java:93-103 | the secret key is checked first, then the private key, then the Payright public key; each exception occurs exactly when its key is the first blank one, and none occurs exactly when all three are set |
| `PayrightProperties.BlankSecretKeyFailsWithoutCall` | src/main/java/com/payright/model/Payright.java:93-95 | a blank secret key ends the call with AuthorizationException whatever the other keys and the body, and no request is sent |
| `PayrightProperties.KeyFailureMakesNoCall` | src/main/java/com/payright/model/Payright.java:93-103 | a failing key check ends the call with that check's exception and nothing on the wire, for every network behaviour |
| `PayrightProperties.KeysPresentMakesOneCall` | src/main/java/com/payright/model/Payright.java:104-109 | with all keys set and a url URI.create accepts, exactly one request goes out, the one chosen for the body, to that url; it is a GET if and only if the body is blank and a POST if and only if it is not |
| `PayrightProperties.RejectedUrlMakesNoCall` | src/main/java/com/payright/model/Payright.java:148-189 | with all keys set, a null url or one URI.create rejects throws while the request object is made (`new HttpPost(url)` at line 148, `new HttpGet(url)` at line 189), and nothing is sent |
| `PayrightProperties.PostCarriesSignedBody` | src/main/java/com/payright/model/Payright.java:145-157 | a POST's entity is the body text in the configured charset; its headers are the common three followed by the SIGN header holding `RSA.sign` of exactly that text under the private key |
| `PayrightProperties.GetCarriesNoBodyNorSignature` | src/main/java/com/payright/model/Payright.java:186-191 | a GET has no entity and only the common headers, so no header named SIGN unless SIGN names a common header |
| `PayrightProperties.EveryRequestHasCommonHeaders` | src/main/java/com/payright/model/Payright.java:216-229 | every request carries `Content-Type: application/json; charset=<CHARSET>`, `Authorization: <secret key>` and the client-agent header |
| `PayrightProperties.ClientAgentFields` | src/main/java/com/payright/model/Payright.java:220-228 | the client-agent map has exactly the seven property names plus lang and publisher; lang is Java, publisher is Payright, each property is its system value or null |
| `PayrightProperties.ResultMapFilledOnlyWithEntity` | src/main/java/com/payright/model/Payright.java:160-203 | for the POST's map (lines 160-170) and the GET's (lines 194-203) alike, the result map has both code and data when the response has an entity and is empty when it has none; data is the body, and code reads back as the status |
| `PayrightProperties.NoEntityIsNumberFormatError` | src/main/java/com/payright/model/Payright.java:123 | a response without an entity makes dealWithResult throw NumberFormatException |
| `PayrightProperties.ErrorStatusSkipsVerification` | src/main/java/com/payright/model/Payright.java:123-127 | for a status of 400 or more the result is the direct parse of the body, and it is the same whatever the signature check would say |
| `PayrightProperties.UnverifiedEnvelopeIsEmpty` | src/main/java/com/payright/model/Payright.java:129-133 | below 400, an envelope whose data does not verify against its signature under the Payright public key gives null, not an exception |
| `PayrightProperties.VerifiedEnvelopeParsesData` | src/main/java/com/payright/model/Payright.java:129-135 | below 400, an envelope whose signature verifies gives the parse of its data member |
| `PayrightProperties.CallDispatchesOnStatus` | src/main/java/com/payright/model/Payright.java:111-135 | over a whole call, the status and the signature check alone decide between the direct parse, null, the parse of the data, and a malformed-envelope failure |
| `PayrightProperties.TransportFailureSurfaces` | src/main/java/com/payright/model/Payright.java:159 | an IOException from the transport ends the call with that exception after exactly one request |
| `JavaLang.ParseInt` | src/main/java/com/payright/model/Payright.java:123 | `Integer.valueOf` on null or on empty text throws NumberFormatException; what it reads back from `String.valueOf` is stated by `ParseIntOfDecimalString` |
| `JavaLang.DecimalString` | src/main/java/com/payright/model/Payright.java:165 | `String.valueOf` of the status code, as written at line 165 for the POST and line 198 for the GET: non-empty text that starts with a minus sign exactly when the code is negative; read back by `ParseIntOfDecimalString` |
| `Payright.Preflight` | src/main/java/com/payright/model/Payright.java:93-103 | the key checks throw nothing exactly when all three keys are set, and otherwise only AuthorizationException for the secret or private key or InvalidRequestException; which key decides is stated by `PreflightFirstBlankDecides` |
| `Payright.ClientAgent` | src/main/java/com/payright/model/Payright.java:220-228 | definition of the client-agent map; its contents are stated by `ClientAgentFields` |
| `Payright.CustomHeaders` | src/main/java/com/payright/model/Payright.java:216-229 | definition of the three common headers in the order they are added; see `EveryRequestHasCommonHeaders` and `SetCustomHeaders` |
| `Payright.GetRequest` | src/main/java/com/payright/model/Payright.java:186-191 | definition of the GET as sent; see `GetCarriesNoBodyNorSignature` and `BuildGetRequest` |
| `Payright.PostRequest` | src/main/java/com/payright/model/Payright.java:145-157 | definition of the signed POST as sent; see `PostCarriesSignedBody` and `BuildPostRequest` |
| `Payright.ChosenRequest` | src/main/java/com/payright/model/Payright.java:104-109 | definition of the verb choice on a blank body; see `KeysPresentMakesOneCall` |
| `Payright.ResultMap` | src/main/java/com/payright/model/Payright.java:159-203 | the builders' answer is an IOException exactly when the transport fails, and otherwise a map with no keys but code and data; see `ResultMapFilledOnlyWithEntity` |
| `Payright.ParseObject` | src/main/java/com/payright/model/Payright.java:126-135 | `JSON.parseObject` of null text is null, and the only exception it adds is JSONException |
| `Payright.DealWithResult` | src/main/java/com/payright/model/Payright.java:122-136 | a map without code throws NumberFormatException, and the only exceptions are NumberFormatException, JSONException and a malformed envelope; its cases are stated by `NoEntityIsNumberFormatError`, `ErrorStatusSkipsVerification`, `UnverifiedEnvelopeIsEmpty` and `VerifiedEnvelopeParsesData` |
| `Payright.Exchange` | src/main/java/com/payright/model/Payright.java:92-113 | a request goes on the wire exactly when the keys are set and the url is accepted, and it is then the one chosen for the body; when nothing is sent the call throws a key exception or the url exception, and an IOException comes only after a call |
| `Payright.Request` | src/main/java/com/payright/model/Payright.java:92-113 | the method gives the outcome `Exchange` specifies and appends to the transport log exactly the requests `Exchange` lists: one call when the keys are set and the url is accepted, none otherwise |
| `Payright.BuildGetRequest` | src/main/java/com/payright/model/Payright.java:186-210 | a rejected or null url throws with nothing sent; otherwise one GET with the common headers goes through the transport, and the returned map is the result map of its answer |
| `Payright.BuildPostRequest` | src/main/java/com/payright/model/Payright.java:145-178 | a rejected or null url throws with nothing sent; otherwise one POST with body, common headers and signature goes through the transport, and the returned map is the result map of its answer |
| `Payright.SetCustomHeaders` | src/main/java/com/payright/model/Payright.java:216-230 | the loop fills the property map in place; the request ends with the three common headers appended in order and its entity unchanged |
| `Http.Transport.Execute` | src/main/java/com/payright/model/Payright.java:159 | one network call: the request as built is appended to the log and the network's answer for that call number is returned |

## Left out

- The static initializer: the pooled `CloseableHttpClient`, the pool bound of 500, the TLS context, the trust-everything strategy and the hostname verifier. These are transport configuration and concurrency. One consequence for a single call is not captured: when the initializer's `try` fails, the exception is printed at lines 76-78, `httpsClient` stays null, and every later call that passes the key and url checks throws NullPointerException at `execute` (line 159 or 193).
- Network I/O, reading the entity as text, and releasing the response, the entity and the connection. The transport returns either an IOException or a status and an optional body text.
- The internals of `RSA.sign` and `RSA.verify`. Their code is not part of this model, and no law relating `sign` and `verify` is stated.
- `RSA.sign` throwing on a malformed key: the model treats signing as total.
- fastjson internals. `parseObject`, `JSONObject.parse` and `toJSONString` are opaque. The header is modelled by the map it serialises, so fastjson's omission of null-valued entries is not modelled.
- `Charset.forName(CHARSET)` throwing on an unsupported charset name: the configured charset is taken to be supported.
- An entity whose content is null, for which `EntityUtils.toString` returns null and the map gets `code` with a null `data`: `Response` cannot express it, since an entity always reads as text.
- The rules by which `URI.create` accepts a url: `Context.uriAccepts` is opaque.
- Encoding the body in the configured charset: the entity keeps the text and the charset name. The entity's own content type, application/json, is not recorded.
- The different Java exceptions for a success body that is not a usable envelope (a JSON syntax error, a `null` document, a non-object) are one outcome, `MalformedEnvelope`. An envelope member that is not a string, which would throw `ClassCastException` at the verify call, is not modelled: the envelope holds only string members.
- `ParseInt` accepts ASCII digits only, whereas `Integer.parseInt` also accepts other Unicode decimal digits. Only the output of `String.valueOf` is ever read back, so this does not matter here.
- `IsWhitespace` follows current Unicode data, in which U+180E is not whitespace. Older JDKs treated it as whitespace.
- The exception messages, and the `AuthorizationException` class itself, which is the outcome tag `AuthorizationError`.
- Java strings are sequences of UTF-16 code units, while a Dafny `string` is a sequence of Unicode scalar values, so a lone surrogate cannot be represented. `IsBlank` and `ParseInt` are unaffected: no surrogate and no supplementary character is whitespace or an ASCII digit.
- Concurrency between calls. Each call is modelled on its own against a transport that answers by call number and request.
