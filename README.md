# alligator — a Dafny model of the batching webhook proxy

alligator sits between clients and Discord's webhook API. It collects the
messages posted to one webhook for a short while, merges them into one
message, posts that message upstream and answers the waiting clients with
the upstream response. The repository holds three variants:

- src/main.ts, the current Deno proxy;
- src/server.ts, the older Deno proxy;
- a Rust proxy, src/webhook.rs and src/payload.rs.

This project models the sequential core of all three and proves what the
code promises about it, quirks included.

| module | file | models |
|---|---|---|
| `Payloads` | payloads.dfy | the webhook payload with JavaScript's missing / `null` / value distinction, and reference definitions of merged content and arrays |
| `MergeBatchBody` | merge_batch_body.dfy | `mergeBatchBody`: a fold on values plus the in-place loop over an array, including the arrays it adopts from callers' payloads |
| `MergeRequestBody` | merge_request_body.dfy | `mergeRequestBody`, with its `continue`s |
| `UrlGrammar` | url_grammar.dfy | the `/api/…/webhooks/<id>/<token>` pattern shared by both URL regexes, parsed deterministically, and proved sound and complete against a declarative reading |
| `Constants` | constants.dfy | the settings as functions of the environment, and the unanchored search with its host character before `/api/` |
| `ValidatePath` | validate_path.dfy | `validateRequestPath` |
| `Decimal` | decimal.dfy | the decimal text of a count, and its inverse |
| `DeliverBatch` | deliver_batch.dfy | `deliverBatch` with `fetch` as a parameter, and the `Headers` object it appends to |
| `Batches` | batches.dfy | `RequestBatch`, the request with its one-shot body, and what a call of `handleRequest` comes to |
| `Accumulator` | accumulator.dfy | the two module-level maps, the pending timers and the delivery log as one state, with the steps both proxies share |
| `MainProxy` | main_proxy.dfy | `handleRequest`, `removeTimeout` and the timer callback of src/main.ts, as functions and as the methods of a `Proxy` class |
| `ServerProxy` | server_proxy.dfy | the same three for src/server.ts, plus `executeBatch` |
| `Webhook` | webhook.dfy | `validate_request`, `PATH_RE`, `WebhookParts` and the delivery URI of src/webhook.rs |
| `PayloadTable` | payload_table.dfy | `get_insert` on the batch table, and `form_response` |

Where the code does something other than what a reader of the project
would expect, the model follows the code:

- **Scalar fields.** One would expect the merged payload to keep the first payload's username, avatar, mentions and tts. `mergeBatchBody` copies a scalar field only when the incoming value is `null`, so no value ever survives (`MergeBatchDropsScalars`). `mergeRequestBody` drops scalar fields altogether.
- **Who gets an answer.** The comment at src/main.ts:18-20 says the promise replies to all requests in the batch. Each call of `handleRequest` makes its own reply resolver, and only the creator's is stored in the batch. A request that joins an existing batch therefore waits on a resolver that nothing holds (`JoinerNeverHeld`).
- **Transport failure.** No response is synthesized for a failed `fetch`. The rejection propagates, and no reply is made (`Deliver`, `ExecuteBatch`).
- **Missing id or token messages.** src/helpers/validate-path.ts:13-27 has distinct messages for a missing id and a missing token. They cannot occur, because both named groups are mandatory in the pattern (`ValidateRequestPath`, `ValidateRequest`).
- **Query options.** The TypeScript endpoint carries no query string. The batch object built at src/main.ts:32-40 gets a `searchParams` property read from a `ValidatedRequest` that has none, so it is always undefined (`OpenBatch` requires it to be `None`). The Rust URI always has a `?`.
- **Re-submission after a full batch.** The comment at src/main.ts:51-52 says the request that filled a batch is then added to a new batch. By the time of the re-submission its body has already been read, and `request.json()` on a used body rejects. So the second call rejects before it touches any state (`ResubmissionRejected`, `HandleAdmitted`). This also holds when the limit is 1 or less, so the recursion always ends after one level.
- **Batch keys.** src/main.ts keys a batch by the webhook id alone. Two tokens of one webhook therefore share a batch, which is posted with the creator's token. src/server.ts keys by id and token (`BatchKeyInjective`, `JoinsOwnWebhook`).
- **The guard at src/main.ts line 12.** As written, it refuses every request that has a body, so nothing is ever batched; see Findings. `MainProxy.HandleWith` models `handleRequest` with either reading of the guard. `MainProxy.HandleAsWritten` is the code as written, and `MainProxy.Handle` is the guard read as intended (`!request.body`). The batching properties of src/main.ts are proved about `Handle`, because under the code as written no batch ever exists. The `Proxy` class runs either reading, chosen by its `asWritten` flag.

## Model

| member | source | states |
|---|---|---|
| `Decimal.NatToDecimal` | src/helpers/deliver-batch.ts:19 | the count's text is non-empty, all digits, and starts with `0` only for zero |
| `Decimal.DecimalRoundTrip` | src/helpers/deliver-batch.ts:19 | reading the decimal text of a count back gives the count |
| `Decimal.NatToDecimalInjective` | src/helpers/deliver-batch.ts:19 | different counts have different decimal texts |
| `MergeBatchBody.MergeBatchBody` | src/helpers/merge-batch-body.ts:3-46 | the loop over the caller's array returns the fold `MergeBatch` of the payloads; afterwards every payload that lent an array to the result holds the whole merged array, and every other field and payload is unchanged |
| `MergeBatchBody.MergeBatch` | src/helpers/merge-batch-body.ts:4-45 | the loop of `mergeBatchBody` as a left fold from `{}`; what it computes is stated by `MergeBatchContent`, `MergeBatchList`, `MergeBatchDropsScalars` and `MergeBatchSplit` |
| `MergeBatchBody.MergeOne` | src/helpers/merge-batch-body.ts:6-42 | one iteration takes the accumulator, the lenders and the caller's array from prefix `i` to prefix `i + 1` |
| `MergeBatchBody.MergeList` | src/helpers/merge-batch-body.ts:15-37 | one array block appends the incoming array or adopts it, and a push is seen through the payload that lent the array |
| `MergeBatchBody.MergeBatchContent` | src/helpers/merge-batch-body.ts:7-13 | merged content is the non-empty contents joined by "\n" in input order, and absent when there are none |
| `MergeBatchBody.MergeBatchList` | src/helpers/merge-batch-body.ts:15-37 | each merged array is present exactly when some payload has one (an empty array counts), and is then the in-order concatenation |
| `MergeBatchBody.MergeBatchDropsScalars` | src/helpers/merge-batch-body.ts:39-42 | username, avatar URL, allowed mentions and tts are always null or missing in the result, even when every payload sets them |
| `MergeBatchBody.MergeBatchEmptyAndSingle` | src/helpers/merge-batch-body.ts:4-45 | no payloads merge to `{}`; one payload merges to its own non-empty content and its own arrays |
| `MergeBatchBody.MergeBatchSplit` | src/helpers/merge-batch-body.ts:5-37 | merging `xs + ys` gives the same content and arrays as merging the two partial merges |
| `MergeBatchBody.HolderIsFirst` | src/helpers/merge-batch-body.ts:15-36 | the payload whose array is adopted and extended in place is the first one that carries that array |
| `MergeBatchBody.HolderBound` | src/helpers/merge-batch-body.ts:15-37 | an array is adopted exactly when the merged array exists, and the lender is a payload of the input that has that array |
| `MergeRequestBody.MergeRequestBody` | src/helpers/merge-request-body.ts:3-35 | the loop returns the fold `MergeRequest`, and every payload that lent an array holds the merged array afterwards |
| `MergeRequestBody.MergeRequest` | src/helpers/merge-request-body.ts:4-34 | the loop of `mergeRequestBody` as a left fold from `{}`; what it computes is stated by `MergeRequestMeaning` and the lemmas after it |
| `MergeRequestBody.MergeRequestMeaning` | src/helpers/merge-request-body.ts:4-34 | the result is the joined non-empty contents, the embeds of the payloads that reach the embeds block, and the components of those that reach the components block; attachments and scalar fields are always missing |
| `MergeRequestBody.MergeRequestSkipsAfterContent` | src/helpers/merge-request-body.ts:7-10 | a payload whose content is appended to earlier content contributes neither embeds nor components |
| `MergeRequestBody.MergeRequestSkipsAfterEmbeds` | src/helpers/merge-request-body.ts:16-19 | a payload whose embeds are pushed onto earlier embeds contributes no components |
| `MergeRequestBody.MergeRequestSeed` | src/helpers/merge-request-body.ts:6-31 | the first payload with non-empty content seeds content and still contributes its embeds, and its components unless its embeds were pushed |
| `MergeRequestBody.MergeRequestEmptyAndSingle` | src/helpers/merge-request-body.ts:4-34 | no payloads give `{}`; one payload gives its own content, embeds and components and nothing else |
| `MergeRequestBody.MergersAgree` | src/helpers/merge-request-body.ts:5-31 | the two mergers agree on content; without content they agree on embeds, and without content or embeds on components |
| `MergeRequestBody.RequestHolderBound` | src/helpers/merge-request-body.ts:15-31 | an array is adopted exactly when the merged array exists, and the lender lies inside the input |
| `MergeRequestBody.BlocksWithoutContent` | src/helpers/merge-request-body.ts:5-31 | with no content every payload reaches the embeds block, and with no embeds either, every payload reaches the components block |
| `UrlGrammar.TailSound` | src/constants.ts:5 | what the deterministic parse finds is a parse of the pattern: `/api/`, optional `v` plus 1-3 digits plus `/`, `webhooks/`, a digit then word characters, `/`, and a token of 1-100 characters cut only at a non-token character, the end of the text, or 100 characters |
| `UrlGrammar.TailComplete` | src/constants.ts:5 | every parse of the pattern at a position is found, with the same version and id and a token at least as long |
| `UrlGrammar.VersionUnique` | src/constants.ts:5 | the version group matches in at most one way when `webhooks/` follows |
| `UrlGrammar.IdTokenSound` | src/webhook.rs:42 | the id-token part found is a parse of `[0-9]\w+/[A-z0-9-]{1,100}` |
| `UrlGrammar.IdTokenComplete` | src/webhook.rs:42 | every parse of the id-token part is found, and the token found is at least as long |
| `UrlGrammar.TailIgnoresSuffix` | src/constants.ts:5 | text after a match that does not continue the token, such as a query string or more path, leaves the captures unchanged |
| `UrlGrammar.CapturesShape` | src/constants.ts:5 | a captured id is a digit followed by at least one word character, so it has no `-` and no `/`; a captured token is 1-100 token characters |
| `UrlGrammar.TailOfText` | src/constants.ts:5 | writing an id and a token of the right shapes into `/api/webhooks/<id>/<token>` reads them back exactly |
| `Constants.Coerce` | src/constants.ts:1 | unary `+` gives a number exactly for digit text, and 0 for the empty text |
| `Constants.Limit` | src/constants.ts:2 | the limit is 10 when unset; a set value that is not a number makes `length >= limit` always false, so a batch never fills |
| `Constants.TimeoutMs` | src/constants.ts:1 | the timeout is 2000 when the variable is unset, and otherwise the setting coerced to a number (NaN when it is not digits); `LimitReadsDecimal` shows a decimal setting reads as its value |
| `Constants.RequestUrlMatch` | src/helpers/validate-path.ts:5 | `url.match(REQUEST_URL_REGEX)` reduced to its two groups: the captures at the first position a match can begin; `FirstMatchLeast` and `LeftmostMatch` prove that position is the leftmost match |
| `Constants.LimitReadsDecimal` | src/constants.ts:1-2 | a limit or a timeout written in decimal is read as that number |
| `Constants.FirstMatchLeast` | src/helpers/validate-path.ts:5 | the search finds the least position where a match's `/api/` begins, and finds none only when there is none |
| `Constants.LeftmostMatch` | src/constants.ts:4-5 | the match that starts leftmost, scheme and host included, is the one whose groups the search returns |
| `Constants.EarlierTailFirst` | src/constants.ts:5 | a match whose `/api/` begins earlier also starts no later, because neither the host part nor the scheme can cover that `/` |
| `Constants.MatchFoundAt` | src/helpers/validate-path.ts:5 | a match with none before it is the one `path.match` returns |
| `Constants.BarePathRejected` | src/constants.ts:5 | a URL with `/api/` only at its very start has no match, because a host character must come before `/api/` |
| `ValidatePath.ValidateRequestPath` | src/helpers/validate-path.ts:4-34 | "Invalid path." exactly when the regex matches nowhere; otherwise valid with the two named captures. The missing-id and missing-token messages never occur. `valid` holds iff both id and token are set, and fails iff a message is set |
| `ValidatePath.ValidCapturesShape` | src/helpers/validate-path.ts:29-33 | the id and token of a valid result have the shapes of their groups |
| `DeliverBatch.Headers.constructor` | src/helpers/deliver-batch.ts:17 | `new Headers(init)` starts with the upstream entries in order |
| `DeliverBatch.Headers.Append` | src/helpers/deliver-batch.ts:18-20 | `append` adds one entry at the end and keeps the earlier ones |
| `DeliverBatch.BatchHeaders` | src/helpers/deliver-batch.ts:18-20 | the three headers in order: the batch id, the payload count in decimal (reading it back gives the count), and the creation time text |
| `DeliverBatch.Endpoint` | src/helpers/deliver-batch.ts:15 | endpoint, `/`, id, `/`, token, with no query string; `EndpointRevalidates` shows validation reads the id and token back |
| `DeliverBatch.Decorated` | src/helpers/deliver-batch.ts:17-25 | the reply keeps the upstream status, status text and body, keeps the upstream headers in order, and then has the three batch headers |
| `DeliverBatch.DecorateReply` | src/helpers/deliver-batch.ts:17-25 | building the reply by appending to a `Headers` object gives `Decorated` |
| `DeliverBatch.Deliver` | src/helpers/deliver-batch.ts:5-28 | the outbound body is `mergeBatchBody` of the payloads in batch order, sent to endpoint/id/token with no query; the creator's handle is answered exactly once with the decorated reply, and not at all when `fetch` rejects |
| `DeliverBatch.EndpointRevalidates` | src/helpers/deliver-batch.ts:15 | with the default endpoint, validating the URL a batch is posted to gives back the batch's own id and token |
| `DeliverBatch.HostedTailMatches` | src/constants.ts:3-5 | the default host followed by the webhook path is matched at the host, and nowhere earlier |
| `Batches.ReadJson` | src/main.ts:30 | `request.json()` yields the payload only for an unread, non-null body that parses, marks a non-null body used, and leaves a null body untouched |
| `Batches.Request.Json` | src/server.ts:31 | reading the body on the object agrees with `ReadJson` |
| `Accumulator.RemoveTimeout` | src/main.ts:68-72 | the key leaves the timer map, its stored timer stops being pending, and no other key, timer or batch changes |
| `Accumulator.Rearm` | src/main.ts:57-64 | the key's old timer is cleared and a fresh one is stored and pending for that key; other keys keep their timers |
| `Accumulator.Enter` | src/main.ts:31-45 | an open batch gets the payload appended and keeps its creator's reply, token and serial; otherwise a new batch holds this payload alone; no other batch changes |
| `Accumulator.Flush` | src/main.ts:48-53 | the batch leaves the map, its timer is cleared, and it is appended to the delivery log |
| `Accumulator.TrackedEnter` | src/main.ts:31-45 | entering a payload keeps serials distinct and issued, and keeps reply handles issued |
| `Accumulator.TrackedFlush` | src/main.ts:49-53 | flushing delivers a batch not delivered before, so no batch is delivered twice |
| `Accumulator.TrackedRearm` | src/main.ts:57-64 | re-arming keeps every pending timer issued |
| `Accumulator.ConservesEnter` | src/main.ts:31-45 | entering a payload loses no open batch |
| `Accumulator.ConservesFlush` | src/main.ts:49-53 | a flushed batch is in the delivery log |
| `Accumulator.HeldEnter` | src/main.ts:32-44 | the only reply handle entering a payload can add is the creator's |
| `Accumulator.HeldFlush` | src/main.ts:49-53 | a flush adds no reply handle |
| `Accumulator.JoinerUnheld` | src/main.ts:21-44 | a request that joins an open batch gets a reply handle that no batch holds |
| `MainProxy.InitialInv` | src/main.ts:7-8 | the empty maps satisfy the invariant |
| `MainProxy.HandleWith` | src/main.ts:10-66 | `handleRequest` as one atomic step, with line 12 as written or as intended; `HandleKeepsInv`, `HandleAdmitted` and `AsWrittenAdmitsNothing` state its effect |
| `MainProxy.HandleAsWritten` | src/main.ts:10-66 | `handleRequest` with the guard of line 12 as written; `AsWrittenAdmitsNothing` gives its outcome for every request |
| `MainProxy.Handle` | src/main.ts:10-66 | `handleRequest` with the guard of line 12 read as `!request.body`; `HandleAdmitted`, `HandleNotAdmitted` and `HandleKeepsInv` state its effect |
| `MainProxy.Fire` | src/main.ts:58-62 | the timer callback removes the batch and the timer entry of its key and delivers the batch; `FireKeepsInv` and `FireFlushes` state its effect |
| `MainProxy.HandleKeepsInv` | src/main.ts:10-66 | between events the two maps have the same keys, every open batch holds 1 to limit - 1 payloads under its own id, and every key has exactly one pending timer; `handleRequest` keeps all this and loses no batch, both as written (`HandleAsWritten`) and with line 12 read as intended (`Handle`) |
| `MainProxy.FlushedKeepsInv` | src/main.ts:47-55 | a full batch is flushed and the invariant holds again, through the second call |
| `MainProxy.RearmedKeepsInv` | src/main.ts:57-65 | a batch still open gets its timer re-armed and the invariant holds |
| `MainProxy.FireKeepsInv` | src/main.ts:58-62 | a firing timer belongs to an open batch; the callback removes the batch and the timer entry, delivers that batch, and keeps the invariant |
| `MainProxy.FireFlushes` | src/main.ts:58-62 | under the invariant, a timer firing is a flush of its own key |
| `MainProxy.HandleNotAdmitted` | src/main.ts:12-16 | with line 12 read as intended: a request without a body or with an invalid path gets 404 `{"error":"Invalid proxy request","code":100}` and the state and request are unchanged; one that passes the guard but whose body cannot be read takes a reply handle and is rejected, with nothing else changed |
| `MainProxy.HandleAdmitted` | src/main.ts:26-65 | if the batch is not yet full, it gets the payload appended after the earlier ones and keeps its creator's token and reply; the key gets a fresh pending timer, and only the creator waits on a held reply. If it is full, it leaves both maps and is delivered with this payload last, and the second call rejects |
| `MainProxy.ResubmissionRejected` | src/main.ts:54 | handling a request whose body was already read changes no map and no log, and rejects or is refused |
| `MainProxy.JoinerNeverHeld` | src/main.ts:21-45 | a request that joins an existing batch waits on a handle that no batch holds; every handle held afterwards was held before or is new |
| `MainProxy.HeldFresh` | src/main.ts:21-65 | for an admitted request, the handle a joiner waits on is held by no batch, and no handle older than the request becomes held |
| `MainProxy.AsWrittenAdmitsNothing` | src/main.ts:12-16 | the code as written: any request with a body, or with an invalid path, gets 404 `{"error":"Invalid proxy request","code":100}` with state and request unchanged; a bodyless request with a valid path takes a reply handle and is rejected at `request.json()`; so no batch, timer or delivery ever results |
| `MainProxy.IntendedAdmits` | src/main.ts:12-45 | with the guard read as intended, a request with a valid path and a JSON body changes the batches or is delivered |
| `MainProxy.Proxy.constructor` | src/main.ts:7-8 | the proxy starts with empty maps and nothing delivered, with the given limit and reading of line 12 |
| `MainProxy.Proxy.RemoveTimeout` | src/main.ts:68-72 | the new state is `Accumulator.RemoveTimeout` of the old one |
| `MainProxy.Proxy.HandleRequest` | src/main.ts:10-66 | the new state, the request and the outcome are those of `HandleAsWritten` (the code) when `asWritten` is set, and those of `Handle` (line 12 as intended) otherwise; the properties of both are proved above |
| `MainProxy.Proxy.EnterPayload` | src/main.ts:29-45 | the new state is `Enter` of the old one |
| `MainProxy.Proxy.FlushBatch` | src/main.ts:49-53 | the new state is `Flush` of the old one |
| `MainProxy.Proxy.ArmTimeout` | src/main.ts:57-64 | the new state is `Rearm` of the old one |
| `MainProxy.Proxy.FireTimer` | src/main.ts:58-62 | the new state is `Fire` of the old one |
| `ServerProxy.BatchKeyInjective` | src/server.ts:29 | `${id}-${token}` determines id and token, since a captured id holds no `-` |
| `ServerProxy.BatchKey` | src/server.ts:29 | `${webhookId}-${webhookToken}`; `BatchKeyInjective` shows it determines both parts |
| `ServerProxy.Handle` | src/server.ts:11-65 | `handleRequest` as one atomic step; `HandleAdmitted`, `HandleNotAdmitted` and `HandleKeepsInv` state its effect |
| `ServerProxy.Fire` | src/server.ts:58-61 | the timer callback removes the batch and delivers it, leaving its timer entry; `FireKeepsInv` states its effect |
| `ServerProxy.InitialInv` | src/server.ts:8-9 | the empty maps satisfy the invariant |
| `ServerProxy.HandleKeepsInv` | src/server.ts:11-65 | between events every open batch holds 1 to limit - 1 payloads under the key of its own id and token and has one pending timer; the timer map may also hold stale keys. `handleRequest` keeps all this and loses no batch |
| `ServerProxy.FlushedKeepsInv` | src/server.ts:47-55 | a full batch is flushed and the invariant holds again, through the second call |
| `ServerProxy.RearmedKeepsInv` | src/server.ts:57-64 | a batch still open gets its timer re-armed and the invariant holds |
| `ServerProxy.FireKeepsInv` | src/server.ts:58-61 | the callback removes and delivers the batch but leaves the timer map as it was, so the key keeps an entry whose timer already fired |
| `ServerProxy.HandleNotAdmitted` | src/server.ts:12-17 | an invalid path gets 404 `{"error":"Not Found","code":0}` with state and request unchanged, whatever the body (there is no body check); a valid path whose body cannot be read takes a reply handle and is rejected, with nothing else changed |
| `ServerProxy.HandleAdmitted` | src/server.ts:27-64 | if the batch is not yet full, it gets the payload appended and the key gets a fresh pending timer, and only the creator waits on a held reply; if it is full, it leaves the map and is delivered with this payload last, and the second call rejects |
| `ServerProxy.JoinsOwnWebhook` | src/server.ts:29-42 | a request joins only a batch of its own id and token |
| `ServerProxy.ResubmissionRejected` | src/server.ts:54 | handling a request whose body was already read changes no map and no log |
| `ServerProxy.JoinerNeverHeld` | src/server.ts:22-45 | a request that joins an existing batch waits on a handle that no batch holds |
| `ServerProxy.ExecuteBatch` | src/server.ts:73-97 | the body is `mergeRequestBody` of the payloads, sent to endpoint/id/token; the creator is answered once with the decorated reply, and not at all when `fetch` rejects |
| `ServerProxy.Server.constructor` | src/server.ts:8-9 | the server starts with empty maps and nothing delivered |
| `ServerProxy.Server.RemoveTimeout` | src/server.ts:67-71 | the new state is `Accumulator.RemoveTimeout` of the old one |
| `ServerProxy.Server.HandleRequest` | src/server.ts:11-65 | the new state, the request and the outcome are those of `ServerProxy.Handle`, whose properties are proved above |
| `ServerProxy.Server.EnterPayload` | src/server.ts:30-45 | the new state is `Enter` of the old one |
| `ServerProxy.Server.FlushBatch` | src/server.ts:49-53 | the new state is `Flush` of the old one |
| `ServerProxy.Server.ArmTimeout` | src/server.ts:57-63 | the new state is `Rearm` of the old one |
| `ServerProxy.Server.FireTimer` | src/server.ts:58-61 | the new state is `ServerProxy.Fire` of the old one |
| `Webhook.FirstTail` | src/webhook.rs:67 | `PATH_RE` is found at the least position where the pattern matches, and not found only when it matches nowhere |
| `Webhook.PathMatch` | src/webhook.rs:66-75 | `PATH_RE.captures(path)` reduced to its two groups, at the least matching position `FirstTail` finds; `PathMatchAgrees` relates it to `REQUEST_URL_REGEX` |
| `Webhook.ValidateRequest` | src/webhook.rs:49-101 | method first (405), then a content type of exactly `application/json` (400), then the path (404); on success the id and token are the captures and `params` is the raw query; the "could not be identified" errors never occur |
| `Webhook.ValidPartsShape` | src/webhook.rs:77-100 | a validated id and token have the shapes of their groups |
| `Webhook.ValidateRoundTrip` | src/webhook.rs:49-101 | a POST of JSON to `/api/webhooks/<id>/<token>` with a query validates back to the same parts |
| `Webhook.PathMatchAgrees` | src/webhook.rs:42 | every URL `REQUEST_URL_REGEX` accepts, `PATH_RE` accepts too, and they capture the same groups when a host character precedes the first match |
| `Webhook.BarePathSplitsValidators` | src/webhook.rs:42 | a bare `/api/webhooks/12/ab` is accepted by `PATH_RE` and rejected by `REQUEST_URL_REGEX` |
| `Webhook.DeliveryUri` | src/webhook.rs:110-116 | the URI starts with the host, and its length is that of the host, id, token and query plus 2 |
| `Webhook.DeliveryUriRoundTrip` | src/webhook.rs:110-116 | the URI reads back into the id, the token and the query text it was built from |
| `Webhook.EmptyQueryCollapses` | src/webhook.rs:23-28 | parts with no query and parts with an empty query are different `WebhookParts` values (so different keys of a hash that covers all three fields) but deliver to the same URI |
| `Webhook.DefaultDeliveryUri` | src/webhook.rs:105-116 | with the default host, the URI is the host, the path validation reads, `?` and the query |
| `PayloadTable.Inserted` | src/payload.rs:20-34 | a vacant key gets a batch of the one payload; an occupied key gets the payload appended and keeps its parts and creation time; no key is removed and no other entry changes; the key's count grows by one |
| `PayloadTable.BatchTable.constructor` | src/payload.rs:14-16 | the table starts empty |
| `PayloadTable.BatchTable.GetInsert` | src/payload.rs:18-37 | the table becomes `Inserted` of the old one, and the returned batch equals the stored entry |
| `PayloadTable.InsertAllKeeps` | src/payload.rs:18-37 | a run of calls on one key leaves that key present and every other entry unchanged |
| `PayloadTable.InsertAllCollects` | src/payload.rs:20-34 | a run of calls on one key collects every payload in call order after those stored, and keeps the parts and time of the call that created the entry |
| `PayloadTable.FormResponseRoundTrip` | src/payload.rs:39-41 | the code and the unquoted message read back from the body, whatever the message holds |
| `PayloadTable.FormResponse` | src/payload.rs:39-41 | `{ code: <code>, message: <message> }` with the message unquoted; `FormResponseRoundTrip` reads both back |

## Left out

- HTTP I/O: `fetch`, the hyper client in `deliver`, `serve`, and the hyper server. The upstream response is a parameter (`None` when `fetch` rejects).
- Timers and clocks. `setTimeout` and `clearTimeout` become opaque timer ids in a pending set, and the callback is a `FireTimer` event. `new Date()` and `SystemTime::now()` are a `now` parameter, and `toISOString` is a text parameter.
- The interleaving across `await request.json()`: the batch is looked up before the await. `handleRequest` is modelled as one atomic step, so two requests that interleave there are not modelled.
- The timer callback closes over its batch object; the model reaches the batch through its key. Under the proved invariant the key's batch is that object, since a key's timer is cleared whenever its batch leaves the map by a flush.
- JSON parsing and serialisation. Payloads are already-parsed records; embed, component and attachment objects are opaque text. The `Content-Type` request header of the outbound POST is not modelled.
- Promises. A reply is an opaque handle, and the model records which handles a batch holds and which batch is delivered.
- Header names are compared as written; `Headers` case-insensitivity is not modelled.
- Rust's `\w` is Unicode-aware; the model reads it as ASCII letters, digits and `_`.
- The optional `?params` group of `PATH_RE` is not modelled, because it never changes the two captures. `params` comes from the URI's query, as in the code.
- `Constants.Coerce`: a setting's text is a number only when it is decimal digits (or empty). Other texts that JavaScript's `+` accepts (signs, spaces, fractions, hexadecimal) are treated as NaN.
- src/body.rs (streaming body reading), src/main.rs (server plumbing; its `hash_parts` is not part of this model), src/env.rs and src/err.rs: thin wrappers around I/O and the environment. `merge_body` and `body_to_string` are not part of this model.
- The Rust table's lock: `get_insert` is one atomic update.
- Concurrency between the Rust proxy's tasks.

## Findings

| source | as written | input that shows it | evidently intended | confidence | as-written member | corrected member |
|---|---|---|---|---|---|---|
| src/main.ts:12 | `if (!!request.body \|\| !validatedRequest.valid)` refuses every request that has a body; a bodyless request passes, and then `request.json()` rejects on its null body | any POST with a JSON body to a valid webhook URL is refused with 404; a bodyless one rejects | `!request.body \|\| !validatedRequest.valid`, matching the logged "No request body provided." | not executed | `MainProxy.AsWrittenAdmitsNothing` | `MainProxy.IntendedAdmits` |
