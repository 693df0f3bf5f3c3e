/**
 * What the two TypeScript proxies (src/main.ts, src/server.ts) share: the
 * incoming request with its one-shot body, the `RequestBatch` record of
 * src/types.ts, and what a call of `handleRequest` comes to.
 */
module Batches {
  import opened Wrappers
  import opened Payloads

  /** The resolver of one `responsePromise`; a fresh one is made on every call of `handleRequest`. */
  type ReplyHandle = nat

  /** A `setTimeout` id. */
  type TimerId = nat

  /**
   * `RequestBatch` (src/types.ts). `serial` stands for the identity of the
   * batch object, so that a batch can be followed from the map to the
   * delivery log; `created` is the `Date` reading, an opaque number.
   * `searchParams` is not declared by the interface: it is the extra
   * property the object literal of src/main.ts:37 sets.
   */
  datatype RequestBatch = RequestBatch(
    serial: nat,
    reply: ReplyHandle,
    batchId: string,
    payloads: seq<Payload>,
    webhookToken: string,
    webhookId: string,
    created: nat,
    searchParams: Option<string>)

  /**
   * The incoming `Request` as far as the proxies look at it: its URL,
   * whether `request.body` is non-null, what its body text parses to
   * (`None` when it is not JSON), and whether the body has been read.
   */
  datatype RequestValue = RequestValue(url: string, hasBody: bool, parsed: Option<Payload>, bodyUsed: bool)

  /**
   * `request.json()`: a body can be read once; reading it again, or reading
   * a null body (whose text is empty), rejects. A non-null body is used
   * after any call; a null body is never marked used.
   */
  function ReadJson(r: RequestValue): (res: (Option<Payload>, RequestValue))
    ensures res.1 == r.(bodyUsed := r.bodyUsed || r.hasBody)
    ensures res.0.Some? <==> !r.bodyUsed && r.hasBody && r.parsed.Some?
    ensures res.0.Some? ==> res.0 == r.parsed
  {
    if !r.bodyUsed && r.hasBody then (r.parsed, r.(bodyUsed := true))
    else (None, r)
  }

  /** The request object; `Json` is `request.json()`. */
  class Request {
    const url: string
    const hasBody: bool
    const parsed: Option<Payload>
    var bodyUsed: bool

    constructor(url: string, hasBody: bool, parsed: Option<Payload>)
      ensures Value() == RequestValue(url, hasBody, parsed, false)
    {
      this.url := url;
      this.hasBody := hasBody;
      this.parsed := parsed;
      this.bodyUsed := false;
    }

    function Value(): RequestValue
      reads this
    {
      RequestValue(url, hasBody, parsed, bodyUsed)
    }

    method Json() returns (payload: Option<Payload>)
      modifies this
      ensures (payload, Value()) == ReadJson(old(Value()))
    {
      if !bodyUsed && hasBody {
        payload := parsed;
        bodyUsed := true;
      } else {
        payload := None;
      }
    }
  }

  /** What the promise `handleRequest` returns comes to. */
  datatype Outcome =
    | Refused(status: nat, body: string)  // an error `Response`
    | Rejected                            // `request.json()` rejected, and with it the handler
    | Waits(reply: ReplyHandle)           // `await responsePromise`, whose resolver the new batch holds
    | Hangs(reply: ReplyHandle)           // `await responsePromise`, whose resolver nothing holds

  const NotFoundStatus: nat := 404
}
