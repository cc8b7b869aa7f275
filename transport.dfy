/** The HTTP side of the plugin: the requests the strategies submit and the
    `uri_opener` that carries them to the vulnerable host. */
module Transport {

  /** One submission through the opener: the HTTP method the vulnerability was
      found with, its URL and the full parameter container. */
  datatype Request = Request(httpMethod: string, url: string, params: map<string, string>)

  /** What a submission yields: a response body, or the `w3afException` the
      opener raises when the request cannot be completed. */
  datatype Response = Body(body: string) | TransportError(message: string)

  /** The URL opener shared by every strategy and shell built for one vulnerability.
      The remote host is not modelled: `respond(n, r)` is whatever the host answers
      to request `r` when it is the `n`-th request sent through this opener.
      `log` records every request sent, in order. */
  class UriOpener {
    var log: seq<Request>
    const respond: (nat, Request) -> Response

    constructor (respond: (nat, Request) -> Response)
      ensures this.respond == respond && log == []
    {
      this.respond := respond;
      log := [];
    }

    /** `getattr(uri_opener, method)(url, params)`: one request, answered by the host. */
    method Open(httpMethod: string, url: string, params: map<string, string>) returns (response: Response)
      modifies this
      ensures log == old(log) + [Request(httpMethod, url, params)]
      ensures response == respond(|old(log)|, Request(httpMethod, url, params))
    {
      response := respond(|log|, Request(httpMethod, url, params));
      log := log + [Request(httpMethod, url, params)];
    }
  }
}
