/**
 * src/server.ts, the older proxy: the same accumulator as src/main.ts, but
 * a batch is keyed by webhook id and token together, only the path is
 * checked before the body is read, the timer callback forgets the batch and
 * not its timer, and a batch is merged with `mergeRequestBody` and posted
 * by `executeBatch`.
 */
module ServerProxy {
  import opened Wrappers
  import opened Payloads
  import opened Batches
  import opened Accumulator
  import opened UrlGrammar
  import Constants
  import ValidatePath
  import DeliverBatch
  import MergeRequestBody

  /** `JSON.stringify({ error: "Not Found", code: 0 })`. */
  const NotFoundBody: string := "{\"error\":\"Not Found\",\"code\":0}"

  /** `` `${webhookId}-${webhookToken}` ``. */
  function BatchKey(webhookId: string, webhookToken: string): string {
    webhookId + "-" + webhookToken
  }

  /**
   * No two webhooks share a batch: an id the path pattern captures has no
   * `-`, so the first `-` of a key ends the id, and the id and token can be
   * read back from the key.
   */
  lemma BatchKeyInjective(id1: string, token1: string, id2: string, token2: string)
    requires IdShape(id1) && IdShape(id2)
    requires BatchKey(id1, token1) == BatchKey(id2, token2)
    ensures id1 == id2 && token1 == token2
  {
    var k := BatchKey(id1, token1);
    FirstDash(id1, token1);
    FirstDash(id2, token2);
    assert |id1| == |id2|;
    assert id1 == k[..|id1|] == id2;
    assert token1 == k[|id1| + 1..] == token2;
  }

  /** The first `-` of a key is the one after the id. */
  lemma FirstDash(webhookId: string, webhookToken: string)
    requires '-' !in webhookId
    ensures var k := BatchKey(webhookId, webhookToken);
      k[|webhookId|] == '-' && forall i :: 0 <= i < |webhookId| ==> k[i] != '-'
  {
    var k := BatchKey(webhookId, webhookToken);
    forall i | 0 <= i < |webhookId|
      ensures k[i] != '-'
    {
      assert k[i] == webhookId[i];
    }
  }

  /**
   * `handleRequest` as one atomic step: validate the URL, make a reply
   * handle, read the body, enter the payload under the id-token key, then
   * either flush a full batch and handle the same request again, or
   * re-arm the key's timer and wait.
   */
  function Handle(s: State, r: RequestValue, limit: Constants.Threshold, now: nat): (State, RequestValue, Outcome)
    decreases if r.bodyUsed then 0 else 1
  {
    var v := ValidatePath.ValidateRequestPath(r.url);
    if !v.valid then (s, r, Refused(NotFoundStatus, NotFoundBody))
    else
      var key := BatchKey(v.webhookId.value, v.webhookToken.value);
      var json := ReadJson(r);
      if json.0.None? then (s.(nextReply := s.nextReply + 1), json.1, Rejected)
      else
        var s1 := Entering(s, key, v.webhookId.value, v.webhookToken.value, json.0.value, now);
        if Constants.Reached(|s1.batches[key].payloads|, limit) then
          Handle(Flush(s1, key), json.1, limit, now)
        else
          (Rearm(s1, key), json.1, if key in s.batches then Hangs(s.nextReply) else Waits(s.nextReply))
  }

  /** The timer callback of lines 58-61: forget the batch, deliver it; the key's timer entry stays behind. */
  function Fire(s: State, t: TimerId): State
    requires t in s.armed && s.armed[t] in s.batches
  {
    var key := s.armed[t];
    s.(batches := s.batches - {key}, armed := s.armed - {t}, delivered := s.delivered + [s.batches[key]])
  }

  // ---------------------------------------------------------------------
  // The invariant between events.
  // ---------------------------------------------------------------------

  /** An open batch: named by its webhook's key, holding between 1 and limit - 1 payloads, without search parameters. */
  predicate OpenBatch(b: RequestBatch, key: string, limit: Constants.Threshold) {
    && b.batchId == key && key == BatchKey(b.webhookId, b.webhookToken) && IdShape(b.webhookId)
    && b.searchParams.None?
    && 1 <= |b.payloads| && !Constants.Reached(|b.payloads|, limit)
  }

  /**
   * Each pending timer works on an open batch and is the one stored for
   * its key; a stored timer was handed out already, and if it is pending
   * it works on its own key (a stale entry holds a timer that already fired).
   */
  predicate TimersPaired(s: State) {
    && (forall t :: t in s.armed ==> s.armed[t] in s.batches && s.armed[t] in s.timers && s.timers[s.armed[t]] == t)
    && (forall k :: k in s.timers ==> s.timers[k] < s.nextTimer)
    && (forall k :: k in s.timers && s.timers[k] in s.armed ==> s.armed[s.timers[k]] == k)
  }

  /**
   * Between events every open batch is well formed and has a pending
   * timer; the timer map may also hold keys whose batch a timer already
   * delivered.
   */
  predicate Inv(s: State, limit: Constants.Threshold) {
    && Tracked(s)
    && (forall k :: k in s.batches ==> OpenBatch(s.batches[k], k, limit))
    && (forall k :: k in s.batches ==> k in s.timers && s.timers[k] in s.armed)
    && TimersPaired(s)
  }

  lemma InitialInv(limit: Constants.Threshold)
    ensures Inv(Initial, limit)
  {
  }

  /** The invariant in the middle of a request: the key just entered may lack a pending timer and may be full. */
  predicate Entered(s: State, key: string, limit: Constants.Threshold) {
    && Tracked(s)
    && key in s.batches
    && (forall k :: k in s.batches && k != key ==> OpenBatch(s.batches[k], k, limit))
    && (forall k :: k in s.batches && k != key ==> k in s.timers && s.timers[k] in s.armed)
    && (var b := s.batches[key];
        b.batchId == key && key == BatchKey(b.webhookId, b.webhookToken) && IdShape(b.webhookId)
        && b.searchParams.None? && 1 <= |b.payloads|)
    && TimersPaired(s)
  }

  lemma EnterKeeps(s: State, key: string, payload: Payload, c: Creator, limit: Constants.Threshold)
    requires Inv(s, limit) && c.reply < s.nextReply && c.searchParams.None?
    requires key == BatchKey(c.webhookId, c.webhookToken) && IdShape(c.webhookId)
    ensures Entered(Enter(s, key, payload, c), key, limit)
  {
    TrackedEnter(s, key, payload, c);
  }

  lemma InvIssueReply(s: State, limit: Constants.Threshold)
    requires Inv(s, limit)
    ensures Inv(s.(nextReply := s.nextReply + 1), limit)
  {
    TrackedIssueReply(s);
  }

  lemma EnteringKeeps(s: State, webhookId: string, webhookToken: string, payload: Payload, now: nat,
                      limit: Constants.Threshold)
    requires Inv(s, limit) && IdShape(webhookId)
    ensures var key := BatchKey(webhookId, webhookToken);
      Entered(Entering(s, key, webhookId, webhookToken, payload, now), key, limit)
  {
    var key := BatchKey(webhookId, webhookToken);
    var s0 := s.(nextReply := s.nextReply + 1);
    var c := Creator(webhookId, webhookToken, s.nextReply, now, None);
    InvIssueReply(s, limit);
    EnterKeeps(s0, key, payload, c, limit);
    assert Entering(s, key, webhookId, webhookToken, payload, now) == Enter(s0, key, payload, c);
  }

  lemma FlushRestores(s: State, key: string, limit: Constants.Threshold)
    requires Entered(s, key, limit)
    ensures Inv(Flush(s, key), limit)
  {
    TrackedFlush(s, key);
    var r := Flush(s, key);
    forall k | k in r.batches
      ensures k in r.timers && r.timers[k] in r.armed
    {
      assert k in s.batches && k != key;
      if key in s.timers {
        assert s.timers[key] != s.timers[k];
      }
    }
    assert TimersPaired(r) by {
      forall t | t in r.armed
        ensures r.armed[t] in r.batches && r.armed[t] in r.timers && r.timers[r.armed[t]] == t
      {
        assert t in s.armed;
      }
    }
  }

  lemma RearmRestores(s: State, key: string, limit: Constants.Threshold)
    requires Entered(s, key, limit) && !Constants.Reached(|s.batches[key].payloads|, limit)
    ensures Inv(Rearm(s, key), limit)
  {
    TrackedRearm(s, key);
    var r := Rearm(s, key);
    forall k | k in r.batches
      ensures k in r.timers && r.timers[k] in r.armed
    {
      if k != key {
        assert s.armed[s.timers[k]] == k;
        assert s.timers[k] != s.nextTimer;
      }
    }
    RearmPaired(s, key);
  }

  lemma RearmPaired(s: State, key: string)
    requires TimersPaired(s) && TimersIssued(s) && key in s.batches
    ensures TimersPaired(Rearm(s, key))
  {
    var r := Rearm(s, key);
    forall t | t in r.armed
      ensures r.armed[t] in r.batches && r.armed[t] in r.timers && r.timers[r.armed[t]] == t
    {
      if t != s.nextTimer {
        assert t in s.armed;
        assert s.armed[t] != key by {
          assert key in s.timers ==> s.timers[key] !in RemoveTimeout(s, key).armed;
        }
      }
    }
    forall k | k in r.timers && r.timers[k] in r.armed
      ensures r.armed[r.timers[k]] == k
    {
      if k != key {
        assert r.timers[k] == s.timers[k] < s.nextTimer;
      }
    }
  }

  /**
   * A timer firing keeps the invariant and hands the batch of its key to
   * delivery; the key's timer entry stays, holding a timer no longer pending.
   */
  lemma FireKeepsInv(s: State, t: TimerId, limit: Constants.Threshold)
    requires Inv(s, limit) && t in s.armed
    ensures s.armed[t] in s.batches
    ensures var s' := Fire(s, t);
      && Inv(s', limit) && Conserves(s, s')
      && s.armed[t] !in s'.batches
      && s'.timers == s.timers && s'.timers[s.armed[t]] == t && t !in s'.armed
      && s'.delivered == s.delivered + [s.batches[s.armed[t]]]
  {
    var key := s.armed[t];
    var r := Fire(s, t);
    FireTracked(s, t);
    FirePaired(s, t);
    assert r.delivered[|s.delivered|] == s.batches[key];
  }

  lemma FirePaired(s: State, t: TimerId)
    requires TimersPaired(s) && t in s.armed
    requires forall k :: k in s.batches ==> k in s.timers && s.timers[k] in s.armed
    ensures TimersPaired(Fire(s, t))
    ensures var r := Fire(s, t); forall k :: k in r.batches ==> k in r.timers && r.timers[k] in r.armed
  {
    var r := Fire(s, t);
    forall k | k in r.batches
      ensures k in r.timers && r.timers[k] in r.armed
    {
      assert s.armed[s.timers[k]] == k;
    }
  }

  lemma FireTracked(s: State, t: TimerId)
    requires Tracked(s) && t in s.armed && s.armed[t] in s.batches
    ensures Tracked(Fire(s, t))
  {
    var key := s.armed[t];
    var r := Fire(s, t);
    assert SerialsDistinct(r) by {
      forall i, j | 0 <= i < j < |r.delivered|
        ensures r.delivered[i].serial != r.delivered[j].serial
      {
        if j == |s.delivered| {
          assert r.delivered[j] == s.batches[key];
        }
      }
      forall k, i | k in r.batches && 0 <= i < |r.delivered|
        ensures r.batches[k].serial != r.delivered[i].serial
      {
        if i == |s.delivered| {
          assert r.delivered[i] == s.batches[key];
        }
      }
    }
  }

  // ---------------------------------------------------------------------
  // What one request does.
  // ---------------------------------------------------------------------

  /** A request with a valid path and a JSON payload, seen for the first time. */
  predicate Admitted(r: RequestValue) {
    && !r.bodyUsed && r.hasBody && r.parsed.Some?
    && ValidatePath.ValidateRequestPath(r.url).valid
  }

  function IdOf(r: RequestValue): string
    requires Admitted(r)
  {
    ValidatePath.ValidateRequestPath(r.url).webhookId.value
  }

  function TokenOf(r: RequestValue): string
    requires Admitted(r)
  {
    ValidatePath.ValidateRequestPath(r.url).webhookToken.value
  }

  /** The key an admitted request is batched under. */
  function Key(r: RequestValue): string
    requires Admitted(r)
  {
    BatchKey(IdOf(r), TokenOf(r))
  }

  /** The state once an admitted request has taken its reply handle and entered its payload. */
  function EnteredBy(s: State, r: RequestValue, now: nat): (s1: State)
    requires Admitted(r)
    ensures Key(r) in s1.batches
  {
    Entering(s, Key(r), IdOf(r), TokenOf(r), r.parsed.value, now)
  }

  /** The payload of an admitted request fills its batch. */
  predicate Fills(s: State, r: RequestValue, limit: Constants.Threshold, now: nat)
    requires Admitted(r)
  {
    Constants.Reached(|EnteredBy(s, r, now).batches[Key(r)].payloads|, limit)
  }

  /**
   * A request that is not admitted changes at most the reply counter: an
   * invalid path gets the 404 and changes nothing (there is no body
   * check); a valid path whose body cannot be read is rejected after
   * taking a reply handle.
   */
  lemma HandleNotAdmitted(s: State, r: RequestValue, limit: Constants.Threshold, now: nat)
    requires !Admitted(r)
    ensures var s' := Handle(s, r, limit, now).0; s' == s || s' == s.(nextReply := s.nextReply + 1)
    ensures !ValidatePath.ValidateRequestPath(r.url).valid ==>
              Handle(s, r, limit, now) == (s, r, Refused(NotFoundStatus, NotFoundBody))
    ensures ValidatePath.ValidateRequestPath(r.url).valid ==>
              Handle(s, r, limit, now) == (s.(nextReply := s.nextReply + 1), ReadJson(r).1, Rejected)
  {
  }

  /** Unfolds `Handle` on an admitted request whose payload fills its batch. */
  lemma HandleFlushes(s: State, r: RequestValue, limit: Constants.Threshold, now: nat)
    requires Admitted(r) && Fills(s, r, limit, now)
    ensures Handle(s, r, limit, now) == Handle(Flush(EnteredBy(s, r, now), Key(r)), ReadJson(r).1, limit, now)
  {
  }

  /** Unfolds `Handle` on an admitted request whose batch stays open. */
  lemma HandleRearms(s: State, r: RequestValue, limit: Constants.Threshold, now: nat)
    requires Admitted(r) && !Fills(s, r, limit, now)
    ensures Handle(s, r, limit, now)
            == (Rearm(EnteredBy(s, r, now), Key(r)), ReadJson(r).1,
                if Key(r) in s.batches then Hangs(s.nextReply) else Waits(s.nextReply))
  {
  }

  /**
   * `handleRequest` keeps the invariant and loses no batch: a batch that
   * leaves the map is handed to delivery.
   */
  lemma {:induction false} HandleKeepsInv(s: State, r: RequestValue, limit: Constants.Threshold, now: nat)
    requires Inv(s, limit)
    ensures var s' := Handle(s, r, limit, now).0; Inv(s', limit) && Conserves(s, s')
    decreases if r.bodyUsed then 0 else 1, 1
  {
    if !Admitted(r) {
      HandleNotAdmitted(s, r, limit, now);
      InvIssueReply(s, limit);
      ConservesIssueReply(s);
    } else if Fills(s, r, limit, now) {
      FlushedKeepsInv(s, r, limit, now);
    } else {
      RearmedKeepsInv(s, r, limit, now);
    }
  }

  /** The branch of a full batch: flush it, then the invariant holds again for the second call. */
  lemma {:induction false} FlushedKeepsInv(s: State, r: RequestValue, limit: Constants.Threshold, now: nat)
    requires Inv(s, limit) && Admitted(r) && Fills(s, r, limit, now)
    ensures var s' := Handle(s, r, limit, now).0; Inv(s', limit) && Conserves(s, s')
    decreases if r.bodyUsed then 0 else 1, 0
  {
    var key := Key(r);
    var s1 := EnteredBy(s, r, now);
    var s2 := Flush(s1, key);
    ValidatePath.ValidCapturesShape(r.url);
    EnteringKeeps(s, IdOf(r), TokenOf(r), r.parsed.value, now, limit);
    EnteringConserves(s, key, IdOf(r), TokenOf(r), r.parsed.value, now);
    FlushRestores(s1, key, limit);
    ConservesFlush(s1, key);
    ConservesTrans(s, s1, s2);
    HandleKeepsInv(s2, ReadJson(r).1, limit, now);
    ConservesTrans(s, s2, Handle(s2, ReadJson(r).1, limit, now).0);
    HandleFlushes(s, r, limit, now);
  }

  /** The branch of a batch still open: re-arming its timer restores the invariant. */
  lemma RearmedKeepsInv(s: State, r: RequestValue, limit: Constants.Threshold, now: nat)
    requires Inv(s, limit) && Admitted(r) && !Fills(s, r, limit, now)
    ensures var s' := Handle(s, r, limit, now).0; Inv(s', limit) && Conserves(s, s')
  {
    var key := Key(r);
    var s1 := EnteredBy(s, r, now);
    HandleRearms(s, r, limit, now);
    ValidatePath.ValidCapturesShape(r.url);
    EnteringKeeps(s, IdOf(r), TokenOf(r), r.parsed.value, now, limit);
    EnteringConserves(s, key, IdOf(r), TokenOf(r), r.parsed.value, now);
    RearmRestores(s1, key, limit);
    ConservesRearm(s1, key);
    ConservesTrans(s, s1, Rearm(s1, key));
  }

  /**
   * An admitted request enters its payload under its id-token key. If the
   * batch is not full yet, its payloads are the earlier ones followed by
   * this one, the key gets a fresh pending timer, and the request waits on
   * a reply only when it created the batch. If the batch is full, it
   * leaves the map and is delivered with this payload last, and handling
   * the request again fails at `request.json()`.
   */
  lemma HandleAdmitted(s: State, r: RequestValue, limit: Constants.Threshold, now: nat)
    requires Inv(s, limit) && Admitted(r)
    ensures var key := BatchKey(ValidatePath.ValidateRequestPath(r.url).webhookId.value,
                                ValidatePath.ValidateRequestPath(r.url).webhookToken.value);
      var res := Handle(s, r, limit, now);
      var s' := res.0;
      var before := if key in s.batches then s.batches[key].payloads else [];
      if Constants.Reached(|before| + 1, limit) then
        && key !in s'.batches && key !in s'.timers
        && |s'.delivered| == |s.delivered| + 1 && s'.delivered[..|s.delivered|] == s.delivered
        && s'.delivered[|s.delivered|].payloads == before + [r.parsed.value]
        && res.2 == Rejected
      else
        && key in s'.batches && s'.batches[key].payloads == before + [r.parsed.value]
        && key in s'.timers && s'.timers[key] == s.nextTimer && s'.armed[s.nextTimer] == key
        && s'.delivered == s.delivered
        && res.2 == (if key in s.batches then Hangs(s.nextReply) else Waits(s.nextReply))
  {
    var key := Key(r);
    var s1 := EnteredBy(s, r, now);
    if Fills(s, r, limit, now) {
      HandleFlushes(s, r, limit, now);
      ResubmissionRejected(Flush(s1, key), ReadJson(r).1, limit, now);
    } else {
      HandleRearms(s, r, limit, now);
    }
  }

  /**
   * Every open batch holds the id and token its key was made of; so a
   * request joins only a batch of its own webhook, and every payload is
   * posted with the token it arrived with.
   */
  lemma JoinsOwnWebhook(s: State, r: RequestValue, limit: Constants.Threshold)
    requires Inv(s, limit) && Admitted(r) && Key(r) in s.batches
    ensures s.batches[Key(r)].webhookId == ValidatePath.ValidateRequestPath(r.url).webhookId.value
    ensures s.batches[Key(r)].webhookToken == ValidatePath.ValidateRequestPath(r.url).webhookToken.value
  {
    var b := s.batches[Key(r)];
    ValidatePath.ValidCapturesShape(r.url);
    BatchKeyInjective(b.webhookId, b.webhookToken, IdOf(r), TokenOf(r));
  }

  /** Handling a request whose body was already read changes nothing but the reply counter, and rejects. */
  lemma ResubmissionRejected(s: State, r: RequestValue, limit: Constants.Threshold, now: nat)
    requires r.bodyUsed
    ensures var res := Handle(s, r, limit, now);
      res.0.batches == s.batches && res.0.timers == s.timers && res.0.armed == s.armed
      && res.0.delivered == s.delivered && res.2 in {Rejected, Refused(NotFoundStatus, NotFoundBody)}
  {
  }

  /**
   * Requests that join an existing batch are never answered: the handle
   * they wait on is held by no batch, and a handle held later was held
   * already or is newer than any handed out before.
   */
  lemma JoinerNeverHeld(s: State, r: RequestValue, limit: Constants.Threshold, now: nat)
    requires Inv(s, limit)
    ensures var res := Handle(s, r, limit, now);
      && (res.2.Hangs? ==> !Held(res.0, res.2.reply) && res.2.reply < res.0.nextReply)
      && (forall h :: Held(res.0, h) ==> Held(s, h) || s.nextReply <= h)
  {
    if !Admitted(r) {
      HandleNotAdmitted(s, r, limit, now);
      HeldSame(s, Handle(s, r, limit, now).0);
    } else if Fills(s, r, limit, now) {
      HeldFreshFlushed(s, r, limit, now);
    } else {
      HeldFreshRearmed(s, r, limit, now);
    }
  }

  lemma HeldFreshFlushed(s: State, r: RequestValue, limit: Constants.Threshold, now: nat)
    requires Admitted(r) && Fills(s, r, limit, now)
    ensures var res := Handle(s, r, limit, now);
      && !res.2.Hangs?
      && (forall h :: Held(res.0, h) ==> Held(s, h) || s.nextReply <= h)
  {
    var key := Key(r);
    var s1 := EnteredBy(s, r, now);
    var s2 := Flush(s1, key);
    HandleFlushes(s, r, limit, now);
    ResubmissionRejected(s2, ReadJson(r).1, limit, now);
    HeldEntering(s, key, IdOf(r), TokenOf(r), r.parsed.value, now);
    HeldFlush(s1, key);
    HeldSame(s2, Handle(s2, ReadJson(r).1, limit, now).0);
  }

  lemma HeldFreshRearmed(s: State, r: RequestValue, limit: Constants.Threshold, now: nat)
    requires Inv(s, limit) && Admitted(r) && !Fills(s, r, limit, now)
    ensures var res := Handle(s, r, limit, now);
      && (res.2.Hangs? ==> !Held(res.0, res.2.reply) && res.2.reply < res.0.nextReply)
      && (forall h :: Held(res.0, h) ==> Held(s, h) || s.nextReply <= h)
  {
    var key := Key(r);
    var s1 := EnteredBy(s, r, now);
    HandleRearms(s, r, limit, now);
    HeldEntering(s, key, IdOf(r), TokenOf(r), r.parsed.value, now);
    HeldSame(s1, Rearm(s1, key));
    if key in s.batches {
      JoinerUnheld(s, key, IdOf(r), TokenOf(r), r.parsed.value, now);
    }
  }

  // ---------------------------------------------------------------------
  // Delivery.
  // ---------------------------------------------------------------------

  /**
   * `executeBatch` (lines 73-97): the outbound request carries the batch
   * merged by `mergeRequestBody` and goes to the batch's webhook; the
   * creator's handle is answered with the upstream response and the three
   * batch headers, and not at all when `fetch` rejects.
   */
  method ExecuteBatch(batch: RequestBatch, endpointBase: string, createdText: string,
                      upstream: Option<DeliverBatch.Upstream>)
    returns (request: DeliverBatch.Outbound, answer: Option<(ReplyHandle, DeliverBatch.Reply)>)
    ensures request == DeliverBatch.Outbound(DeliverBatch.Endpoint(endpointBase, batch.webhookId, batch.webhookToken),
                                             MergeRequestBody.MergeRequest(batch.payloads))
    ensures upstream.None? <==> answer.None?
    ensures upstream.Some? ==> answer == Some((batch.reply, DeliverBatch.Decorated(upstream.value, batch, createdText)))
  {
    request := DeliverBatch.Outbound(DeliverBatch.Endpoint(endpointBase, batch.webhookId, batch.webhookToken),
                                     MergeRequestBody.MergeRequest(batch.payloads));
    match upstream {
      case None =>
        answer := None;
      case Some(u) =>
        var reply := DeliverBatch.DecorateReply(u, batch, createdText);
        answer := Some((batch.reply, reply));
    }
  }

  // ---------------------------------------------------------------------
  // The server object.
  // ---------------------------------------------------------------------

  /** The module state of src/server.ts, with the limit it was started with. */
  class Server {
    var batches: map<string, RequestBatch>
    var timers: map<string, TimerId>
    var armed: map<TimerId, string>
    var nextTimer: nat
    var nextSerial: nat
    var nextReply: nat
    var delivered: seq<RequestBatch>
    const limit: Constants.Threshold

    constructor(limit: Constants.Threshold)
      ensures Snapshot() == Initial && this.limit == limit
    {
      batches, timers, armed := map[], map[], map[];
      nextTimer, nextSerial, nextReply := 0, 0, 0;
      delivered := [];
      this.limit := limit;
    }

    function Snapshot(): State
      reads this
    {
      State(batches, timers, armed, nextTimer, nextSerial, nextReply, delivered)
    }

    /** `removeTimeout` (lines 67-71). */
    method RemoveTimeout(key: string)
      modifies this
      ensures Snapshot() == Accumulator.RemoveTimeout(old(Snapshot()), key)
    {
      if key in timers {
        armed := armed - {timers[key]};
      }
      timers := timers - {key};
    }

    /** `handleRequest` (lines 11-65). */
    method HandleRequest(request: Request, now: nat) returns (outcome: Outcome)
      modifies this, request
      ensures (Snapshot(), request.Value(), outcome) == Handle(old(Snapshot()), old(request.Value()), limit, now)
      decreases if request.bodyUsed then 0 else 1
    {
      ghost var s0, r0 := Snapshot(), request.Value();
      var v := ValidatePath.ValidateRequestPath(request.url);
      if !v.valid {
        return Refused(NotFoundStatus, NotFoundBody);
      }
      var reply := nextReply;
      nextReply := nextReply + 1;
      var webhookId := v.webhookId.value;
      var webhookToken := v.webhookToken.value;
      var batchId := BatchKey(webhookId, webhookToken);
      var creator := batchId !in batches;
      var payload := request.Json();
      if payload.None? {
        return Rejected;
      }
      EnterPayload(batchId, payload.value, Creator(webhookId, webhookToken, reply, now, None));
      ghost var s1 := Entering(s0, batchId, webhookId, webhookToken, payload.value, now);
      assert Snapshot() == s1;
      if Constants.Reached(|batches[batchId].payloads|, limit) {
        FlushBatch(batchId);
        assert Handle(s0, r0, limit, now) == Handle(Flush(s1, batchId), request.Value(), limit, now);
        outcome := HandleRequest(request, now);
        return;
      }
      ArmTimeout(batchId);
      outcome := if creator then Waits(reply) else Hangs(reply);
      assert Handle(s0, r0, limit, now) == (Rearm(s1, batchId), request.Value(), outcome);
    }

    /** Lines 32-45 once the body is read: create the batch or push onto it. */
    method EnterPayload(batchId: string, payload: Payload, c: Creator)
      modifies this
      ensures Snapshot() == Enter(old(Snapshot()), batchId, payload, c)
    {
      if batchId !in batches {
        var batch := RequestBatch(nextSerial, c.reply, batchId, [payload], c.webhookToken, c.webhookId, c.created, c.searchParams);
        batches := batches[batchId := batch];
        nextSerial := nextSerial + 1;
      } else {
        var batch := batches[batchId];
        batches := batches[batchId := batch.(payloads := batch.payloads + [payload])];
      }
    }

    /** Lines 49-53, up to the new call: drop the batch, clear its timer, deliver it. */
    method FlushBatch(batchId: string)
      requires batchId in batches
      modifies this
      ensures Snapshot() == Flush(old(Snapshot()), batchId)
    {
      var batch := batches[batchId];
      batches := batches - {batchId};
      RemoveTimeout(batchId);
      delivered := delivered + [batch];
    }

    /** Lines 57-63: clear the key's timer if any and set a fresh one. */
    method ArmTimeout(batchId: string)
      modifies this
      ensures Snapshot() == Rearm(old(Snapshot()), batchId)
    {
      if batchId in timers {
        RemoveTimeout(batchId);
      }
      var t := nextTimer;
      nextTimer := nextTimer + 1;
      armed := armed[t := batchId];
      timers := timers[batchId := t];
    }

    /** The callback of the timer `t` runs (lines 58-61). */
    method FireTimer(t: TimerId)
      requires t in armed && armed[t] in batches
      modifies this
      ensures Snapshot() == Fire(old(Snapshot()), t)
    {
      var batchId := armed[t];
      var batch := batches[batchId];
      armed := armed - {t};
      batches := batches - {batchId};
      delivered := delivered + [batch];
    }
  }
}
