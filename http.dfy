/** The parts of Apache HttpClient that the Payright client touches: a request
    object whose entity and headers are set in place, and the pooled client
    that executes it, here an injected transport that records every request
    put on the wire and answers from a network model. */
module Http {
  import opened JavaLang

  /** The two request kinds the client builds: HttpGet and HttpPost. */
  datatype Verb = Get | Post

  /** A header value. `Text(None)` is a header added with a null value;
      `Serialized(fields)` is the JSON text fastjson writes for a map whose
      entries are `fields` (the serialiser itself is not modelled). */
  datatype HeaderValue = Text(text: Option<string>) | Serialized(fields: map<string, Option<string>>)

  datatype Header = Header(name: string, value: HeaderValue)

  /** A ByteArrayEntity holding `text` encoded in `charset`, of content type
      application/json. */
  datatype Entity = Entity(text: string, charset: string)

  /** What is put on the wire for one call. */
  datatype OutboundRequest = OutboundRequest(verb: Verb, url: string, entity: Option<Entity>, headers: seq<Header>)

  /** What execute yields: an IOException, or a status line and, when the
      response has one, its entity read as text. */
  datatype Response = IoFailure | Response(status: int32, entity: Option<string>)

  /** HttpGet / HttpPost: built empty, then given an entity and headers. */
  class HttpRequest {
    const verb: Verb
    const url: string
    var entity: Option<Entity>
    var headers: seq<Header>

    constructor (verb: Verb, url: string)
      ensures this.verb == verb && this.url == url
      ensures entity == None && headers == []
    {
      this.verb := verb;
      this.url := url;
      entity := None;
      headers := [];
    }

    /** The request as it would go on the wire now. */
    function Snapshot(): OutboundRequest
      reads this
    {
      OutboundRequest(verb, url, entity, headers)
    }

    /** addHeader: appends, never replaces a header of the same name. */
    method AddHeader(name: string, value: HeaderValue)
      modifies this
      ensures headers == old(headers) + [Header(name, value)]
      ensures entity == old(entity)
    {
      headers := headers + [Header(name, value)];
    }

    /** setEntity: only an HttpPost has an entity. */
    method SetEntity(e: Entity)
      requires verb == Post
      modifies this
      ensures entity == Some(e)
      ensures headers == old(headers)
    {
      entity := Some(e);
    }
  }

  /** The shared client. `sent` is every request executed so far, so its
      length is the number of network calls; the reply to the k-th call is
      `network(k, request)`. */
  class Transport {
    var sent: seq<OutboundRequest>
    const network: (nat, OutboundRequest) -> Response

    constructor (network: (nat, OutboundRequest) -> Response)
      ensures sent == [] && this.network == network
    {
      sent := [];
      this.network := network;
    }

    /** How the network answers the call numbered `k`. */
    function ReplyAt(k: nat): OutboundRequest -> Response
    {
      r => network(k, r)
    }

    /** execute: one network call carrying the request exactly as built. */
    method Execute(request: HttpRequest) returns (response: Response)
      modifies this
      ensures sent == old(sent) + [request.Snapshot()]
      ensures response == network(|old(sent)|, request.Snapshot())
    {
      response := network(|sent|, request.Snapshot());
      sent := sent + [request.Snapshot()];
    }
  }
}
