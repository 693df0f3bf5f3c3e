/**
 * src/main.ts: `handleRequest`, `removeTimeout` and the timer callback
 * over the two module-level maps. The batch id is the webhook id alone.
 * `deliverBatch` runs without being awaited, so a delivery is recorded when
 * it starts; what it sends and whom it answers is in `DeliverBatch`.
 */
module MainProxy {
  import opened Wrappers
  import opened Payloads
  import opened Batches
  import opened Accumulator
  import Constants
  import ValidatePath

  /** `JSON.stringify({ error: "Invalid proxy request", code: 100 })`. */
  const InvalidProxyBody: string := "{\"error\":\"Invalid proxy request\",\"code\":100}"

  /**
   * The guard of line 12. As written it refuses a request that has a body;
   * the message it logs ("No request body provided.") shows it was meant to
   * refuse one that has none. `asWritten` picks the reading.
   */
  predicate Refuses(asWritten: bool, r: RequestValue, valid: bool) {
    if asWritten then r.hasBody || !valid else !r.hasBody || !valid
  }

  /**
   * `handleRequest` as one atomic step: validate the URL, make a reply
   * handle, read the body, enter the payload under the webhook id, then
   * either flush a full batch and handle the same request again, or
   * re-arm the key's timer and wait.
   */
  function HandleWith(asWritten: bool, s: State, r: RequestValue, limit: Constants.Threshold, now: nat)
    : (State, RequestValue, Outcome)
    decreases if r.bodyUsed then 0 else 1
  {
    var v := ValidatePath.ValidateRequestPath(r.url);
    if Refuses(asWritten, r, v.valid) then (s, r, Refused(NotFoundStatus, InvalidProxyBody))
    else
      var key := v.webhookId.value;
      var json := ReadJson(r);
      if json.0.None? then (s.(nextReply := s.nextReply + 1), json.1, Rejected)
      else
        var s1 := Entering(s, key, key, v.webhookToken.value, json.0.value, now);
        if Constants.Reached(|s1.batches[key].payloads|, limit) then
          HandleWith(asWritten, Flush(s1, key), json.1, limit, now)
        else
          (Rearm(s1, key), json.1, if key in s.batches then Hangs(s.nextReply) else Waits(s.nextReply))
  }

  /** `handleRequest` with the guard of line 12 read as intended; the rest of the model uses this one. */
  function Handle(s: State, r: RequestValue, limit: Constants.Threshold, now: nat): (State, RequestValue, Outcome) {
    HandleWith(false, s, r, limit, now)
  }

  /** `handleRequest` with the guard of line 12 as written. */
  function HandleAsWritten(s: State, r: RequestValue, limit: Constants.Threshold, now: nat): (State, RequestValue, Outcome) {
    HandleWith(true, s, r, limit, now)
  }

  /** The timer callback of lines 58-62: forget the batch and the timer, deliver the batch. */
  function Fire(s: State, t: TimerId): State
    requires t in s.armed && s.armed[t] in s.batches
  {
    var key := s.armed[t];
    s.(batches := s.batches - {key}, timers := s.timers - {key}, armed := s.armed - {t},
       delivered := s.delivered + [s.batches[key]])
  }

  // ---------------------------------------------------------------------
  // The invariant between events.
  // ---------------------------------------------------------------------

  /** An open batch: named by its key, holding between 1 and limit - 1 payloads, without search parameters. */
  predicate OpenBatch(b: RequestBatch, key: string, limit: Constants.Threshold) {
    && b.batchId == key && b.webhookId == key && b.searchParams.None?
    && 1 <= |b.payloads| && !Constants.Reached(|b.payloads|, limit)
  }

  /** Each key's stored timer is pending and works on that key, and each pending timer is the one stored for its key. */
  predicate TimersPaired(s: State) {
    && (forall k :: k in s.timers ==> s.timers[k] in s.armed && s.armed[s.timers[k]] == k)
    && (forall t :: t in s.armed ==> s.armed[t] in s.timers && s.timers[s.armed[t]] == t)
  }

  /** Between events the two maps have the same keys, every open batch is well formed and every key has one pending timer. */
  predicate Inv(s: State, limit: Constants.Threshold) {
    && Tracked(s)
    && s.batches.Keys == s.timers.Keys
    && (forall k :: k in s.batches ==> OpenBatch(s.batches[k], k, limit))
    && TimersPaired(s)
  }

  lemma InitialInv(limit: Constants.Threshold)
    ensures Inv(Initial, limit)
  {
  }

  /** The batch stored under a key after its payload is entered. */
  lemma EnterOpen(s: State, key: string, payload: Payload, c: Creator, limit: Constants.Threshold)
    requires forall k :: k in s.batches ==> OpenBatch(s.batches[k], k, limit)
    requires c.webhookId == key && c.searchParams.None?
    ensures var r := Enter(s, key, payload, c);
      && (forall k :: k in r.batches && k != key ==> OpenBatch(r.batches[k], k, limit))
      && |r.batches[key].payloads| >= 1
      && r.batches[key].batchId == key && r.batches[key].webhookId == key && r.batches[key].searchParams.None?
  {
  }

  /**
   * `handleRequest` keeps the invariant and loses no batch: a batch that
   * leaves the map is handed to delivery. This holds with the guard of
   * line 12 read either way.
   */
  lemma {:induction false} HandleKeepsInv(s: State, r: RequestValue, limit: Constants.Threshold, now: nat)
    requires Inv(s, limit)
    ensures var s' := Handle(s, r, limit, now).0; Inv(s', limit) && Conserves(s, s')
    ensures var s' := HandleAsWritten(s, r, limit, now).0; Inv(s', limit) && Conserves(s, s')
    decreases if r.bodyUsed then 0 else 1, 1
  {
    AsWrittenAdmitsNothing(s, r, limit, now);
    InvIssueReply(s, limit);
    ConservesIssueReply(s);
    if !Admitted(r) {
      HandleNotAdmitted(s, r, limit, now);
    } else if Fills(s, r, limit, now) {
      FlushedKeepsInv(s, r, limit, now);
    } else {
      RearmedKeepsInv(s, r, limit, now);
    }
  }

  /** The branch of a full batch: flush it, then the invariant holds again for the second call. */
  lemma {:induction false} FlushedKeepsInv(s: State, r: RequestValue, limit: Constants.Threshold, now: nat)
    requires Inv(s, limit) && Admitted(r) && Fills(s, r, limit, now)
    ensures var s' := Handle(s, r, limit, now).0; Inv(s', limit) && Conserves(s, s')
    decreases if r.bodyUsed then 0 else 1, 0
  {
    var v := ValidatePath.ValidateRequestPath(r.url);
    var key := Key(r);
    var s1 := EnteredBy(s, r, now);
    var s2 := Flush(s1, key);
    EnteringKeeps(s, key, v.webhookToken.value, r.parsed.value, now, limit);
    EnteringConserves(s, key, key, v.webhookToken.value, r.parsed.value, now);
    FlushRestores(s1, key, limit);
    ConservesFlush(s1, key);
    ConservesTrans(s, s1, s2);
    HandleKeepsInv(s2, ReadJson(r).1, limit, now);
    ConservesTrans(s, s2, Handle(s2, ReadJson(r).1, limit, now).0);
    HandleFlushes(s, r, limit, now);
  }

  /** The branch of a batch still open: re-arming its timer restores the invariant. */
  lemma RearmedKeepsInv(s: State, r: RequestValue, limit: Constants.Threshold, now: nat)
    requires Inv(s, limit) && Admitted(r) && !Fills(s, r, limit, now)
    ensures var s' := Handle(s, r, limit, now).0; Inv(s', limit) && Conserves(s, s')
  {
    var v := ValidatePath.ValidateRequestPath(r.url);
    var key := Key(r);
    var s1 := EnteredBy(s, r, now);
    HandleRearms(s, r, limit, now);
    EnteringKeeps(s, key, v.webhookToken.value, r.parsed.value, now, limit);
    EnteringConserves(s, key, key, v.webhookToken.value, r.parsed.value, now);
    RearmRestores(s1, key, limit);
    ConservesRearm(s1, key);
    ConservesTrans(s, s1, Rearm(s1, key));
  }

  /** The webhook id an admitted request is batched under. */
  function Key(r: RequestValue): string
    requires Admitted(r)
  {
    ValidatePath.ValidateRequestPath(r.url).webhookId.value
  }

  /** The state once an admitted request has taken its reply handle and entered its payload. */
  function EnteredBy(s: State, r: RequestValue, now: nat): (s1: State)
    requires Admitted(r)
    ensures Key(r) in s1.batches
  {
    Entering(s, Key(r), Key(r), ValidatePath.ValidateRequestPath(r.url).webhookToken.value, r.parsed.value, now)
  }

  /** The payload of an admitted request fills its batch. */
  predicate Fills(s: State, r: RequestValue, limit: Constants.Threshold, now: nat)
    requires Admitted(r)
  {
    Constants.Reached(|EnteredBy(s, r, now).batches[Key(r)].payloads|, limit)
  }

  /**
   * A request that is not admitted changes at most the reply counter: one
   * without a body or with an invalid path gets the 404 and changes
   * nothing; one that passes the guard but whose body cannot be read is
   * rejected after taking a reply handle.
   */
  lemma HandleNotAdmitted(s: State, r: RequestValue, limit: Constants.Threshold, now: nat)
    requires !Admitted(r)
    ensures var s' := Handle(s, r, limit, now).0; s' == s || s' == s.(nextReply := s.nextReply + 1)
    ensures Refuses(false, r, ValidatePath.ValidateRequestPath(r.url).valid) ==>
              Handle(s, r, limit, now) == (s, r, Refused(NotFoundStatus, InvalidProxyBody))
    ensures !Refuses(false, r, ValidatePath.ValidateRequestPath(r.url).valid) ==>
              Handle(s, r, limit, now) == (s.(nextReply := s.nextReply + 1), ReadJson(r).1, Rejected)
  {
  }

  /** Unfolds `Handle` on an admitted request whose payload fills its batch. */
  lemma HandleFlushes(s: State, r: RequestValue, limit: Constants.Threshold, now: nat)
    requires Admitted(r) && Fills(s, r, limit, now)
    ensures Handle(s, r, limit, now) == Handle(Flush(EnteredBy(s, r, now), Key(r)), ReadJson(r).1, limit, now)
  {
  }

  /** Unfolds `Handle` on an admitted request whose batch stays open. */
  lemma HandleRearms(s: State, r: RequestValue, limit: Constants.Threshold, now: nat)
    requires Admitted(r) && !Fills(s, r, limit, now)
    ensures Handle(s, r, limit, now)
            == (Rearm(EnteredBy(s, r, now), Key(r)), ReadJson(r).1,
                if Key(r) in s.batches then Hangs(s.nextReply) else Waits(s.nextReply))
  {
  }

  /** Taking a reply handle and entering the payload reach the mid-request invariant and lose nothing. */
  lemma EnteringKeeps(s: State, key: string, token: string, payload: Payload, now: nat, limit: Constants.Threshold)
    requires Inv(s, limit)
    ensures Entered(Entering(s, key, key, token, payload, now), key, limit)
  {
    var s0 := s.(nextReply := s.nextReply + 1);
    var c := Creator(key, token, s.nextReply, now, None);
    InvIssueReply(s, limit);
    EnterKeeps(s0, key, payload, c, limit);
    assert Entering(s, key, key, token, payload, now) == Enter(s0, key, payload, c);
  }

  lemma InvIssueReply(s: State, limit: Constants.Threshold)
    requires Inv(s, limit)
    ensures Inv(s.(nextReply := s.nextReply + 1), limit)
  {
    TrackedIssueReply(s);
  }

  /** The invariant in the middle of a request: the key just entered may still lack a timer and may be full. */
  predicate Entered(s: State, key: string, limit: Constants.Threshold) {
    && Tracked(s)
    && key in s.batches
    && s.batches.Keys - {key} == s.timers.Keys - {key}
    && (forall k :: k in s.batches && k != key ==> OpenBatch(s.batches[k], k, limit))
    && s.batches[key].batchId == key && s.batches[key].webhookId == key && s.batches[key].searchParams.None?
    && 1 <= |s.batches[key].payloads|
    && TimersPaired(s)
  }

  lemma EnterKeeps(s: State, key: string, payload: Payload, c: Creator, limit: Constants.Threshold)
    requires Inv(s, limit) && c.reply < s.nextReply && c.webhookId == key && c.searchParams.None?
    ensures Entered(Enter(s, key, payload, c), key, limit)
  {
    TrackedEnter(s, key, payload, c);
    EnterOpen(s, key, payload, c, limit);
  }

  lemma FlushRestores(s: State, key: string, limit: Constants.Threshold)
    requires Entered(s, key, limit)
    ensures Inv(Flush(s, key), limit)
  {
    TrackedFlush(s, key);
    var r := Flush(s, key);
    assert TimersPaired(r) by {
      forall t | t in r.armed
        ensures r.armed[t] in r.timers && r.timers[r.armed[t]] == t
      {
        assert t in s.armed;
      }
    }
  }

  lemma RearmRestores(s: State, key: string, limit: Constants.Threshold)
    requires Entered(s, key, limit) && !Constants.Reached(|s.batches[key].payloads|, limit)
    ensures Inv(Rearm(s, key), limit)
  {
    TrackedRearm(s, key);
    RearmPaired(s, key);
    KeysRestored(s.batches.Keys, s.timers.Keys, key);
  }

  lemma KeysRestored(a: set<string>, b: set<string>, key: string)
    requires key in a && a - {key} == b - {key}
    ensures a == b + {key}
  {
    assert forall k :: k in a <==> k in b + {key} by {
      forall k
        ensures k in a <==> k in b + {key}
      {
        if k != key {
          assert k in a <==> k in a - {key};
          assert k in b <==> k in b - {key};
        }
      }
    }
  }

  lemma RearmPaired(s: State, key: string)
    requires TimersPaired(s) && TimersIssued(s)
    ensures TimersPaired(Rearm(s, key))
  {
    var r := Rearm(s, key);
    forall t | t in r.armed
      ensures r.armed[t] in r.timers && r.timers[r.armed[t]] == t
    {
      if t != s.nextTimer {
        assert t in s.armed;
        assert s.armed[t] != key by {
          assert key in s.timers ==> s.timers[key] !in RemoveTimeout(s, key).armed;
        }
      }
    }
  }

  /** A timer firing keeps the invariant and hands the batch of its key to delivery. */
  lemma FireKeepsInv(s: State, t: TimerId, limit: Constants.Threshold)
    requires Inv(s, limit) && t in s.armed
    ensures s.armed[t] in s.batches
    ensures var s' := Fire(s, t);
      && Inv(s', limit) && Conserves(s, s')
      && s.armed[t] !in s'.batches && s.armed[t] !in s'.timers
      && s'.delivered == s.delivered + [s.batches[s.armed[t]]]
  {
    var key := s.armed[t];
    FireFlushes(s, t, limit);
    FlushRestores(s, key, limit);
    ConservesFlush(s, key);
  }

  /** Under the invariant, a timer firing is a flush of its key: the key's stored timer is the one firing. */
  lemma FireFlushes(s: State, t: TimerId, limit: Constants.Threshold)
    requires Inv(s, limit) && t in s.armed
    ensures s.armed[t] in s.batches && Fire(s, t) == Flush(s, s.armed[t])
    ensures Entered(s, s.armed[t], limit)
  {
    var key := s.armed[t];
    assert s.timers[key] == t;
  }

  // ---------------------------------------------------------------------
  // What one request does.
  // ---------------------------------------------------------------------

  /** A request that passes the guard of line 12 and carries a JSON payload, seen for the first time. */
  predicate Admitted(r: RequestValue) {
    && !r.bodyUsed && r.hasBody && r.parsed.Some?
    && ValidatePath.ValidateRequestPath(r.url).valid
  }

  /**
   * An admitted request enters its payload under its webhook id. If the
   * batch is not full yet, its payloads are the earlier ones followed by
   * this one, the batch keeps its creator's token and reply, the key gets
   * a fresh pending timer, and the request waits on a reply only when it
   * created the batch. If the batch is full, it leaves both maps and is
   * delivered with this payload last, and handling the request again fails
   * at `request.json()`, since its body is already read.
   */
  lemma HandleAdmitted(s: State, r: RequestValue, limit: Constants.Threshold, now: nat)
    requires Inv(s, limit) && Admitted(r)
    ensures var key := ValidatePath.ValidateRequestPath(r.url).webhookId.value;
      var res := Handle(s, r, limit, now);
      var s' := res.0;
      var before := if key in s.batches then s.batches[key].payloads else [];
      if Constants.Reached(|before| + 1, limit) then
        && key !in s'.batches && key !in s'.timers
        && |s'.delivered| == |s.delivered| + 1 && s'.delivered[..|s.delivered|] == s.delivered
        && s'.delivered[|s.delivered|].payloads == before + [r.parsed.value]
        && res.2 == Rejected
      else
        && key in s'.batches && s'.batches[key].payloads == before + [r.parsed.value]
        && (key in s.batches ==> s'.batches[key].webhookToken == s.batches[key].webhookToken
                                 && s'.batches[key].reply == s.batches[key].reply)
        && key in s'.timers && s'.timers[key] == s.nextTimer && s'.armed[s.nextTimer] == key
        && s'.delivered == s.delivered
        && res.2 == (if key in s.batches then Hangs(s.nextReply) else Waits(s.nextReply))
  {
    var key := Key(r);
    var s1 := EnteredBy(s, r, now);
    if Fills(s, r, limit, now) {
      HandleFlushes(s, r, limit, now);
      ResubmissionRejected(Flush(s1, key), ReadJson(r).1, limit, now);
    } else {
      HandleRearms(s, r, limit, now);
    }
  }

  /** Handling a request whose body was already read changes nothing but the reply counter, and rejects. */
  lemma ResubmissionRejected(s: State, r: RequestValue, limit: Constants.Threshold, now: nat)
    requires r.bodyUsed
    ensures var res := Handle(s, r, limit, now);
      res.0.batches == s.batches && res.0.timers == s.timers && res.0.armed == s.armed
      && res.0.delivered == s.delivered && res.2 in {Rejected, Refused(NotFoundStatus, InvalidProxyBody)}
  {
  }

  /**
   * Requests that join an existing batch are never answered: the handle
   * they wait on is held by no batch, and a handle held later was held
   * already or is newer than any handed out before.
   */
  lemma JoinerNeverHeld(s: State, r: RequestValue, limit: Constants.Threshold, now: nat)
    requires Inv(s, limit)
    ensures var res := Handle(s, r, limit, now);
      && (res.2.Hangs? ==> !Held(res.0, res.2.reply) && res.2.reply < res.0.nextReply)
      && (forall h :: Held(res.0, h) ==> Held(s, h) || s.nextReply <= h)
  {
    var v := ValidatePath.ValidateRequestPath(r.url);
    if !Refuses(false, r, v.valid) && !r.bodyUsed && r.hasBody && r.parsed.Some? {
      HandleKeepsInv(s, r, limit, now);
      HeldFresh(s, r, limit, now);
    }
  }

  lemma HeldFresh(s: State, r: RequestValue, limit: Constants.Threshold, now: nat)
    requires Inv(s, limit) && Admitted(r)
    ensures var res := Handle(s, r, limit, now);
      && (res.2.Hangs? ==> !Held(res.0, res.2.reply) && res.2.reply < res.0.nextReply)
      && (forall h :: Held(res.0, h) ==> Held(s, h) || s.nextReply <= h)
  {
    if Fills(s, r, limit, now) {
      HeldFreshFlushed(s, r, limit, now);
    } else {
      HeldFreshRearmed(s, r, limit, now);
    }
  }

  /** The branch of a full batch: the request ends rejected and the only new handle is its own. */
  lemma HeldFreshFlushed(s: State, r: RequestValue, limit: Constants.Threshold, now: nat)
    requires Admitted(r) && Fills(s, r, limit, now)
    ensures var res := Handle(s, r, limit, now);
      && !res.2.Hangs?
      && (forall h :: Held(res.0, h) ==> Held(s, h) || s.nextReply <= h)
  {
    var v := ValidatePath.ValidateRequestPath(r.url);
    var key := Key(r);
    var s1 := EnteredBy(s, r, now);
    var s2 := Flush(s1, key);
    HandleFlushes(s, r, limit, now);
    ResubmissionRejected(s2, ReadJson(r).1, limit, now);
    HeldEntering(s, key, key, v.webhookToken.value, r.parsed.value, now);
    HeldFlush(s1, key);
    HeldSame(s2, Handle(s2, ReadJson(r).1, limit, now).0);
  }

  /** The branch of a batch still open: a joiner's handle is held by no batch. */
  lemma HeldFreshRearmed(s: State, r: RequestValue, limit: Constants.Threshold, now: nat)
    requires Inv(s, limit) && Admitted(r) && !Fills(s, r, limit, now)
    ensures var res := Handle(s, r, limit, now);
      && (res.2.Hangs? ==> !Held(res.0, res.2.reply) && res.2.reply < res.0.nextReply)
      && (forall h :: Held(res.0, h) ==> Held(s, h) || s.nextReply <= h)
  {
    var v := ValidatePath.ValidateRequestPath(r.url);
    var key := Key(r);
    var s1 := EnteredBy(s, r, now);
    HandleRearms(s, r, limit, now);
    HeldEntering(s, key, key, v.webhookToken.value, r.parsed.value, now);
    HeldSame(s1, Rearm(s1, key));
    if key in s.batches {
      JoinerUnheld(s, key, key, v.webhookToken.value, r.parsed.value, now);
    }
  }

  /**
   * Line 12 as written: a request with a body or an invalid path gets the
   * 404 and changes nothing; a request without a body and with a valid
   * path takes a reply handle and is rejected, since its null body cannot
   * be read. So no request ever enters a payload, arms a timer or causes a
   * delivery.
   */
  lemma AsWrittenAdmitsNothing(s: State, r: RequestValue, limit: Constants.Threshold, now: nat)
    ensures var v := ValidatePath.ValidateRequestPath(r.url);
      (r.hasBody || !v.valid) ==> HandleAsWritten(s, r, limit, now) == (s, r, Refused(NotFoundStatus, InvalidProxyBody))
    ensures var v := ValidatePath.ValidateRequestPath(r.url);
      (!r.hasBody && v.valid) ==> HandleAsWritten(s, r, limit, now) == (s.(nextReply := s.nextReply + 1), r, Rejected)
  {
  }

  /** With the guard read as intended, a request with a JSON body and a valid path is entered into a batch. */
  lemma IntendedAdmits(s: State, r: RequestValue, limit: Constants.Threshold, now: nat)
    requires Inv(s, limit) && Admitted(r)
    ensures var res := Handle(s, r, limit, now);
      |res.0.delivered| > |s.delivered| || res.0.batches != s.batches
  {
    var key := ValidatePath.ValidateRequestPath(r.url).webhookId.value;
    HandleAdmitted(s, r, limit, now);
    var res := Handle(s, r, limit, now);
    if key in s.batches && key in res.0.batches {
      assert |res.0.batches[key].payloads| == |s.batches[key].payloads| + 1;
    }
  }

  // ---------------------------------------------------------------------
  // The proxy object.
  // ---------------------------------------------------------------------

  /** The module state of src/main.ts, with the limit it was started with. */
  class Proxy {
    var batches: map<string, RequestBatch>
    var timers: map<string, TimerId>
    var armed: map<TimerId, string>
    var nextTimer: nat
    var nextSerial: nat
    var nextReply: nat
    var delivered: seq<RequestBatch>
    const limit: Constants.Threshold
    /** Whether the guard of line 12 is the code as written (`true`) or as intended (`false`). */
    const asWritten: bool

    constructor(limit: Constants.Threshold, asWritten: bool)
      ensures Snapshot() == Initial && this.limit == limit && this.asWritten == asWritten
    {
      batches, timers, armed := map[], map[], map[];
      nextTimer, nextSerial, nextReply := 0, 0, 0;
      delivered := [];
      this.limit := limit;
      this.asWritten := asWritten;
    }

    function Snapshot(): State
      reads this
    {
      State(batches, timers, armed, nextTimer, nextSerial, nextReply, delivered)
    }

    /** `removeTimeout`. */
    method RemoveTimeout(key: string)
      modifies this
      ensures Snapshot() == Accumulator.RemoveTimeout(old(Snapshot()), key)
    {
      if key in timers {
        armed := armed - {timers[key]};
      }
      timers := timers - {key};
    }

    /**
     * `handleRequest`: with `asWritten` the new state, request and outcome
     * are those of `HandleAsWritten`, otherwise those of `Handle`.
     */
    method HandleRequest(request: Request, now: nat) returns (outcome: Outcome)
      modifies this, request
      ensures (Snapshot(), request.Value(), outcome)
              == HandleWith(asWritten, old(Snapshot()), old(request.Value()), limit, now)
      decreases if request.bodyUsed then 0 else 1
    {
      var v := ValidatePath.ValidateRequestPath(request.url);
      if (if asWritten then request.hasBody else !request.hasBody) || !v.valid {
        return Refused(NotFoundStatus, InvalidProxyBody);
      }
      var reply := nextReply;
      nextReply := nextReply + 1;
      var batchId := v.webhookId.value;
      var creator := batchId !in batches;
      ghost var s0 := Snapshot();
      ghost var r0 := request.Value();
      var payload := request.Json();
      if payload.None? {
        return Rejected;
      }
      EnterPayload(batchId, payload.value, Creator(batchId, v.webhookToken.value, reply, now, None));
      if Constants.Reached(|batches[batchId].payloads|, limit) {
        FlushBatch(batchId);
        outcome := HandleRequest(request, now);
        return;
      }
      ArmTimeout(batchId);
      outcome := if creator then Waits(reply) else Hangs(reply);
    }

    /** Lines 29-45 once the body is read: create the batch or push onto it. */
    method EnterPayload(batchId: string, payload: Payload, c: Creator)
      modifies this
      ensures Snapshot() == Enter(old(Snapshot()), batchId, payload, c)
    {
      if batchId !in batches {
        var batch := RequestBatch(nextSerial, c.reply, batchId, [payload], c.webhookToken, c.webhookId, c.created, c.searchParams);
        batches := batches[batchId := batch];
        nextSerial := nextSerial + 1;
      } else {
        var batch := batches[batchId];
        batches := batches[batchId := batch.(payloads := batch.payloads + [payload])];
      }
    }

    /** Lines 49-53, up to the new call: drop the batch, clear its timer, deliver it. */
    method FlushBatch(batchId: string)
      requires batchId in batches
      modifies this
      ensures Snapshot() == Flush(old(Snapshot()), batchId)
    {
      var batch := batches[batchId];
      batches := batches - {batchId};
      RemoveTimeout(batchId);
      delivered := delivered + [batch];
    }

    /** Lines 57-64: clear the key's timer if any and set a fresh one. */
    method ArmTimeout(batchId: string)
      modifies this
      ensures Snapshot() == Rearm(old(Snapshot()), batchId)
    {
      if batchId in timers {
        RemoveTimeout(batchId);
      }
      var t := nextTimer;
      nextTimer := nextTimer + 1;
      armed := armed[t := batchId];
      timers := timers[batchId := t];
    }

    /** The callback of the timer `t` runs. */
    method FireTimer(t: TimerId)
      requires t in armed && armed[t] in batches
      modifies this
      ensures Snapshot() == Fire(old(Snapshot()), t)
    {
      var batchId := armed[t];
      var batch := batches[batchId];
      armed := armed - {t};
      batches := batches - {batchId};
      timers := timers - {batchId};
      delivered := delivered + [batch];
    }
  }
}
