/**
 * src/webhook.rs: `validate_request`, a chain of early-return guards over
 * the request head, the `PATH_RE` search it relies on, the `WebhookParts`
 * it produces (whose derived equality and hash cover all three fields) and
 * the delivery URI that `deliver` formats from them.
 */
module Webhook {
  import opened Wrappers
  import opened UrlGrammar
  import Constants

  /** The request head as `validate_request` reads it: the method, the first `content-type` value, the URI path and query. */
  datatype RequestParts = RequestParts(
    httpMethod: string,
    contentType: Option<string>,
    path: string,
    query: Option<string>)

  datatype ValidateError = ValidateError(code: nat, message: string)

  datatype WebhookParts = WebhookParts(webhookId: string, params: Option<string>, webhookToken: string)

  /** `WebhookPayload`: the fields the Rust proxy reads from a request body; JSON values are kept as their text. */
  datatype WebhookPayload = WebhookPayload(
    content: Option<string>,
    username: Option<string>,
    avatarUrl: Option<string>,
    embeds: Option<seq<string>>,
    allowedMentions: Option<string>,
    components: Option<seq<string>>,
    tts: Option<bool>,
    threadName: Option<string>)

  /** `WebhookBatch`; `created` is the `SystemTime` reading, kept as an opaque number. */
  datatype WebhookBatch = WebhookBatch(created: nat, parts: WebhookParts, payloads: seq<WebhookPayload>)

  const Post: string := "POST"
  const JsonContentType: string := "application/json"

  const MethodNotAllowed: nat := 405
  const BadRequest: nat := 400
  const NotFound: nat := 404

  const MethodMessage: string := "Method not supported."
  const ContentTypeMessage: string :=
    "Expected \"Content-Type\" header to be one of {'application/json', 'application/x-www-form-urlencoded', 'multipart/form-data'}."
  const PathMessage: string := "Invalid path."
  const IdMessage: string := "Webhook ID could not be identified."
  const TokenMessage: string := "Webhook token could not be identified."

  /**
   * The first position from `from` on where `PATH_RE` matches. The pattern
   * begins with `/api/` itself, so a match starting at `q` is the pattern
   * tried at `q`; the optional `?params` group after the token never
   * changes the two captures.
   */
  function FirstTail(s: string, from: nat): (r: Option<nat>)
    requires from <= |s|
    ensures r.Some? ==> from <= r.value <= |s| && TailAt(s, r.value).Some?
                        && forall k :: from <= k < r.value ==> TailAt(s, k).None?
    ensures r.None? ==> forall k :: from <= k <= |s| ==> TailAt(s, k).None?
    decreases |s| - from
  {
    if TailAt(s, from).Some? then Some(from)
    else if from == |s| then None
    else FirstTail(s, from + 1)
  }

  /** `PATH_REGEX.captures(path)`, reduced to the two named groups. */
  function PathMatch(path: string): Option<Captures> {
    match FirstTail(path, 0)
    case None => None
    case Some(q) => TailAt(path, q)
  }

  /**
   * `validate_request`. The method is checked first, then the content
   * type (which must be exactly `application/json`), then the path; the
   * first failing check decides the error. On success the id and token are
   * the captures and `params` is the raw query. The two "could not be
   * identified" errors are out of reach: both groups are mandatory.
   */
  function ValidateRequest(parts: RequestParts): (r: Result<WebhookParts, ValidateError>)
    ensures parts.httpMethod != Post ==> r == Err(ValidateError(MethodNotAllowed, MethodMessage))
    ensures parts.httpMethod == Post && parts.contentType != Some(JsonContentType) ==>
              r == Err(ValidateError(BadRequest, ContentTypeMessage))
    ensures parts.httpMethod == Post && parts.contentType == Some(JsonContentType) && PathMatch(parts.path).None? ==>
              r == Err(ValidateError(NotFound, PathMessage))
    ensures r.Ok? <==> parts.httpMethod == Post && parts.contentType == Some(JsonContentType) && PathMatch(parts.path).Some?
    ensures r.Ok? ==> r.value == WebhookParts(PathMatch(parts.path).value.id, parts.query,
                                                   PathMatch(parts.path).value.token)
    ensures r.Err? ==> r.error.message != IdMessage && r.error.message != TokenMessage
  {
    if parts.httpMethod != Post then
      Err(ValidateError(MethodNotAllowed, MethodMessage))
    else if parts.contentType != Some(JsonContentType) then
      Err(ValidateError(BadRequest, ContentTypeMessage))
    else
      match PathMatch(parts.path)
      case None => Err(ValidateError(NotFound, PathMessage))
      case Some(caps) =>
        Ok(WebhookParts(caps.id, parts.query, caps.token))
  }

  /** A successful validation yields an id and a token of the shapes of their groups. */
  lemma ValidPartsShape(parts: RequestParts)
    requires ValidateRequest(parts).Ok?
    ensures IdShape(ValidateRequest(parts).value.webhookId)
    ensures TokenShape(ValidateRequest(parts).value.webhookToken)
  {
    CapturesShape(parts.path, FirstTail(parts.path, 0).value);
  }

  /**
   * Validation inverts the path a delivery puts on the wire: a POST of JSON
   * to `/api/webhooks/<id>/<token>` with the parts' query is validated back
   * to the same parts.
   */
  lemma ValidateRoundTrip(p: WebhookParts)
    requires IdShape(p.webhookId) && TokenShape(p.webhookToken)
    ensures ValidateRequest(RequestParts(Post, Some(JsonContentType), TailText(Captures(p.webhookId, p.webhookToken)), p.params))
            == Ok(p)
  {
    var c := Captures(p.webhookId, p.webhookToken);
    var s := TailText(c);
    assert LiteralAt(s, 0, s) by {
      assert s[0..|s|] == s;
    }
    TailOfText(s, 0, c);
  }

  /**
   * `REQUEST_URL_REGEX` asks for more than `PATH_RE` (a host character
   * before `/api/`), so every URL it accepts `PATH_RE` accepts too, and the
   * two agree whenever the first place `PATH_RE` matches has a host
   * character in front of it.
   */
  lemma PathMatchAgrees(s: string)
    ensures Constants.RequestUrlMatch(s).Some? ==> PathMatch(s).Some?
    ensures PathMatch(s).Some? && Constants.HostBefore(s, FirstTail(s, 0).value) ==>
              Constants.RequestUrlMatch(s) == PathMatch(s)
  {
    Constants.FirstMatchLeast(s, 0);
    var m := Constants.FirstMatch(s, 0);
    var f := FirstTail(s, 0);
    if m.Some? {
      assert TailAt(s, m.value).Some?;
      assert f.Some? && f.value <= m.value;
    }
    if f.Some? && Constants.HostBefore(s, f.value) {
      assert Constants.MatchAt(s, f.value).Some?;
      assert m.Some? && m.value <= f.value;
    }
  }

  const BarePath: string := "/api/webhooks/12/ab"

  /** A bare path: `PATH_RE` accepts it, `REQUEST_URL_REGEX` does not. */
  lemma BarePathSplitsValidators()
    ensures PathMatch(BarePath) == Some(Captures("12", "ab"))
    ensures Constants.RequestUrlMatch(BarePath).None?
  {
    var c := Captures("12", "ab");
    assert BarePath == TailText(c);
    assert LiteralAt(BarePath, 0, BarePath) by {
      assert BarePath[0..|BarePath|] == BarePath;
    }
    assert IdShape(c.id) && TokenShape(c.token);
    TailOfText(BarePath, 0, c);
    BarePathHasOneApi();
    Constants.BarePathRejected(BarePath);
  }

  lemma BarePathHasOneApi()
    ensures forall q :: 0 < q <= |BarePath| ==> !LiteralAt(BarePath, q, Api)
  {
    forall q | 0 < q <= |BarePath| && LiteralAt(BarePath, q, Api)
      ensures false
    {
      Constants.ApiChars(BarePath, q);
      OnlySlashes(q);
    }
  }

  lemma OnlySlashes(q: nat)
    requires q < |BarePath| && BarePath[q] == '/'
    ensures q == 0 || q == 4 || q == 13 || q == 16
  {
  }

  // ---------------------------------------------------------------------
  // The delivery URI.
  // ---------------------------------------------------------------------

  /** `DEFAULT_WEBHOOK_ENDPOINT` in src/env.rs, with its trailing slash. */
  const DefaultHost: string := "https://discord.com/api/webhooks/"

  /** `format!("{}{}/{}?{}", host, id, token, params.unwrap_or(""))`. */
  function DeliveryUri(host: string, p: WebhookParts): (uri: string)
    ensures |uri| == |host| + |p.webhookId| + |p.webhookToken| + |p.params.GetOr("")| + 2
    ensures uri[..|host|] == host
  {
    host + p.webhookId + "/" + p.webhookToken + "?" + p.params.GetOr("")
  }

  /** The pieces a delivery URI is read back into. */
  datatype UriParts = UriParts(webhookId: string, webhookToken: string, query: string)

  /** The first index from `from` on that holds `ch`, or `|s|`. */
  function IndexOf(s: string, from: nat, ch: char): (i: nat)
    requires from <= |s|
    ensures from <= i <= |s| && (i < |s| ==> s[i] == ch)
    ensures forall k :: from <= k < i ==> s[k] != ch
    decreases |s| - from
  {
    if from == |s| || s[from] == ch then from else IndexOf(s, from + 1, ch)
  }

  /** Reads a URI below `host` as `<id>/<token>?<query>`, splitting at the first `/` and the first `?` after it. */
  function ParseUri(host: string, uri: string): Option<UriParts> {
    if |host| <= |uri| && uri[..|host|] == host then
      var i := IndexOf(uri, |host|, '/');
      if i == |uri| then None
      else
        var j := IndexOf(uri, i + 1, '?');
        if j == |uri| then None
        else Some(UriParts(uri[|host|..i], uri[i + 1..j], uri[j + 1..]))
    else None
  }

  /**
   * The delivery URI reads back into the id, the token and the query text
   * it was built from: an id holds no `/` and a token no `?`.
   */
  lemma DeliveryUriRoundTrip(host: string, p: WebhookParts)
    requires IdShape(p.webhookId) && TokenShape(p.webhookToken)
    ensures ParseUri(host, DeliveryUri(host, p)) == Some(UriParts(p.webhookId, p.webhookToken, p.params.GetOr("")))
  {
    var uri := DeliveryUri(host, p);
    var id, token, query := p.webhookId, p.webhookToken, p.params.GetOr("");
    var i := |host| + |id|;
    var j := i + 1 + |token|;
    assert uri == host + id + "/" + token + "?" + query;
    assert forall k :: |host| <= k < i ==> uri[k] == id[k - |host|];
    assert uri[i] == '/';
    assert forall k :: i + 1 <= k < j ==> uri[k] == token[k - i - 1];
    assert forall k :: 0 <= k < |token| ==> token[k] != '?';
    assert uri[j] == '?';
    assert IndexOf(uri, |host|, '/') == i;
    assert IndexOf(uri, i + 1, '?') == j;
    assert uri[|host|..i] == id;
    assert uri[i + 1..j] == token;
    assert uri[j + 1..] == query;
  }

  /**
   * Parts without a query and parts with an empty query are different
   * `WebhookParts` values, yet they deliver to the same URI.
   */
  lemma EmptyQueryCollapses(host: string, id: string, token: string)
    ensures WebhookParts(id, None, token) != WebhookParts(id, Some(""), token)
    ensures DeliveryUri(host, WebhookParts(id, None, token)) == DeliveryUri(host, WebhookParts(id, Some(""), token))
  {
  }

  /** With the default endpoint the delivery URI is the host, the path validation reads, and the query. */
  lemma DefaultDeliveryUri(p: WebhookParts)
    ensures DeliveryUri(DefaultHost, p)
            == "https://discord.com" + TailText(Captures(p.webhookId, p.webhookToken)) + "?" + p.params.GetOr("")
  {
  }
}
