/**
 * src/helpers/deliver-batch.ts: `deliverBatch` posts the merged batch to
 * the webhook endpoint and answers the batch's creator with the upstream
 * response, decorated with three `X-Batch-*` headers. The `fetch` itself is
 * a parameter: the upstream response, or `None` when `fetch` rejects. The
 * decoration is shared with `executeBatch` in src/server.ts.
 */
module DeliverBatch {
  import opened Wrappers
  import opened Payloads
  import opened Batches
  import opened UrlGrammar
  import Decimal
  import Constants
  import ValidatePath
  import MergeBatchBody

  datatype Header = Header(name: string, value: string)

  /** The response `fetch` resolves to. */
  datatype Upstream = Upstream(status: nat, statusText: string, headers: seq<Header>, body: string)

  /** The `Response` handed to `batch.reply`. */
  datatype Reply = Reply(status: nat, statusText: string, headers: seq<Header>, body: string)

  /** The request `fetch` is given: a POST of the JSON body to the endpoint. */
  datatype Outbound = Outbound(endpoint: string, body: Payload)

  /** `` `${DISCORD_WEBHOOK_ENDPOINT}/${webhookId}/${webhookToken}` ``: no query string. */
  function Endpoint(base: string, webhookId: string, webhookToken: string): string {
    base + "/" + webhookId + "/" + webhookToken
  }

  /** A `Headers` object: its entries in insertion order; `append` keeps earlier entries of the same name. */
  class Headers {
    var entries: seq<Header>

    /** `new Headers(init)`. */
    constructor(init: seq<Header>)
      ensures entries == init
    {
      entries := init;
    }

    method Append(name: string, value: string)
      modifies this
      ensures entries == old(entries) + [Header(name, value)]
    {
      entries := entries + [Header(name, value)];
    }
  }

  /**
   * The three headers appended to the upstream ones, in order: the batch
   * id, the payload count in decimal (read back, it is the count), and the
   * creation time's ISO text, which the clock supplies.
   */
  function BatchHeaders(batch: RequestBatch, createdText: string): (hs: seq<Header>)
    ensures |hs| == 3
    ensures hs[0] == Header("X-Batch-Id", batch.batchId)
    ensures hs[1].name == "X-Batch-Size" && Decimal.AllDigits(hs[1].value)
            && Decimal.DecimalValue(hs[1].value) == |batch.payloads|
    ensures hs[2] == Header("X-Batch-Created", createdText)
  {
    Decimal.DecimalRoundTrip(|batch.payloads|);
    [Header("X-Batch-Id", batch.batchId),
     Header("X-Batch-Size", Decimal.NatToDecimal(|batch.payloads|)),
     Header("X-Batch-Created", createdText)]
  }

  /**
   * The reply: status, status text and body as upstream sent them, the
   * upstream headers kept in order, then the batch headers.
   */
  function Decorated(u: Upstream, batch: RequestBatch, createdText: string): (r: Reply)
    ensures r.status == u.status && r.statusText == u.statusText && r.body == u.body
    ensures |r.headers| == |u.headers| + 3
    ensures r.headers[..|u.headers|] == u.headers
    ensures r.headers[|u.headers|..] == BatchHeaders(batch, createdText)
  {
    Reply(u.status, u.statusText, u.headers + BatchHeaders(batch, createdText), u.body)
  }

  /** Lines 17-25: copy the upstream headers, append the three batch headers, build the reply. */
  method DecorateReply(u: Upstream, batch: RequestBatch, createdText: string) returns (reply: Reply)
    ensures reply == Decorated(u, batch, createdText)
  {
    var headers := new Headers(u.headers);
    headers.Append("X-Batch-Id", batch.batchId);
    headers.Append("X-Batch-Size", Decimal.NatToDecimal(|batch.payloads|));
    headers.Append("X-Batch-Created", createdText);
    reply := Reply(u.status, u.statusText, headers.entries, u.body);
  }

  /**
   * `deliverBatch`: the outbound request carries the batch merged in batch
   * order and goes to the batch's webhook; the creator's handle is answered
   * exactly once with the decorated response, and not at all when `fetch`
   * rejects.
   */
  method Deliver(batch: RequestBatch, endpointBase: string, createdText: string, upstream: Option<Upstream>)
    returns (request: Outbound, answer: Option<(ReplyHandle, Reply)>)
    ensures request == Outbound(Endpoint(endpointBase, batch.webhookId, batch.webhookToken),
                                MergeBatchBody.MergeBatch(batch.payloads))
    ensures upstream.None? <==> answer.None?
    ensures upstream.Some? ==> answer == Some((batch.reply, Decorated(upstream.value, batch, createdText)))
  {
    request := Outbound(Endpoint(endpointBase, batch.webhookId, batch.webhookToken),
                        MergeBatchBody.MergeBatch(batch.payloads));
    match upstream {
      case None =>
        answer := None;
      case Some(u) =>
        var reply := DecorateReply(u, batch, createdText);
        answer := Some((batch.reply, reply));
    }
  }

  /** The scheme and host of the default endpoint, in front of its `/api/`. */
  const DefaultHostPart: string := "https://discord.com"

  /**
   * With the default endpoint, the URL a batch is posted to passes path
   * validation again with the batch's own id and token: `validateRequestPath`
   * inverts `Endpoint` on every id and token it can produce.
   */
  lemma EndpointRevalidates(webhookId: string, webhookToken: string)
    requires IdShape(webhookId) && TokenShape(webhookToken)
    ensures ValidatePath.ValidateRequestPath(Endpoint(Constants.DefaultEndpoint, webhookId, webhookToken))
            == ValidatePath.ValidatedRequest(true, None, Some(webhookId), Some(webhookToken))
  {
    var c := Captures(webhookId, webhookToken);
    assert Endpoint(Constants.DefaultEndpoint, webhookId, webhookToken) == DefaultHostPart + TailText(c);
    HostedTailMatches(c);
  }

  /** The default host part followed by the pattern's text is matched there, and nowhere earlier. */
  lemma HostedTailMatches(c: Captures)
    requires IdShape(c.id) && TokenShape(c.token)
    ensures Constants.RequestUrlMatch(DefaultHostPart + TailText(c)) == Some(c)
  {
    var s := DefaultHostPart + TailText(c);
    var h := |DefaultHostPart|;
    assert LiteralAt(s, h, TailText(c)) by {
      assert s[h..h + |TailText(c)|] == TailText(c);
    }
    TailOfText(s, h, c);
    assert s[h - 1] == 'm';
    assert s[..h] == DefaultHostPart;
    NoApiInHostPart(s);
    Constants.MatchFoundAt(s, h);
  }

  lemma NoApiInHostPart(s: string)
    requires |DefaultHostPart| < |s| && s[..|DefaultHostPart|] == DefaultHostPart
    ensures forall q :: 0 <= q < |DefaultHostPart| ==> Constants.MatchAt(s, q).None?
  {
    forall q: nat | q < |DefaultHostPart| && LiteralAt(s, q, Api)
      ensures false
    {
      Constants.ApiChars(s, q);
      assert s[q] == DefaultHostPart[q];
      HostPartSlashes(q);
    }
  }

  lemma HostPartSlashes(q: nat)
    requires q < |DefaultHostPart| && DefaultHostPart[q] == '/'
    ensures q == 6 || q == 7
  {
  }
}
