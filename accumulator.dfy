/**
 * The batch accumulator that src/main.ts and src/server.ts both keep: the
 * module-level maps `webhookMessageMap` (batch id to open batch) and
 * `timeoutMap` (batch id to timer id), the set of timers still pending,
 * and the log of batches handed to delivery. The steps here are the parts
 * of `handleRequest` and `removeTimeout` the two files share; each file's
 * own steps are in its module.
 */
module Accumulator {
  import opened Wrappers
  import opened Payloads
  import opened Batches

  /**
   * `armed` maps each timer that is set and has neither been cleared nor
   * fired to the batch id its callback works on. `nextTimer`, `nextSerial`
   * and `nextReply` hand out fresh timer ids, batch objects and reply
   * handles. `delivered` lists the batches handed to delivery, in order.
   */
  datatype State = State(
    batches: map<string, RequestBatch>,
    timers: map<string, TimerId>,
    armed: map<TimerId, string>,
    nextTimer: nat,
    nextSerial: nat,
    nextReply: nat,
    delivered: seq<RequestBatch>)

  const Initial: State := State(map[], map[], map[], 0, 0, 0, [])

  /** `removeTimeout(batchId)`: `clearTimeout` of the stored id (a no-op when none or when it already fired), then forget it. */
  function RemoveTimeout(s: State, key: string): (r: State)
    ensures key !in r.timers && forall k :: k in s.timers && k != key ==> k in r.timers && r.timers[k] == s.timers[k]
    ensures r.timers.Keys == s.timers.Keys - {key}
    ensures key in s.timers ==> s.timers[key] !in r.armed
    ensures forall t :: t in r.armed <==> t in s.armed && (key !in s.timers || t != s.timers[key])
    ensures forall t :: t in r.armed ==> r.armed[t] == s.armed[t]
    ensures r.batches == s.batches && r.delivered == s.delivered
    ensures r.nextTimer == s.nextTimer && r.nextSerial == s.nextSerial && r.nextReply == s.nextReply
  {
    var armed := if key in s.timers then s.armed - {s.timers[key]} else s.armed;
    s.(timers := s.timers - {key}, armed := armed)
  }

  /**
   * Lines 57-64 of src/main.ts and 57-63 of src/server.ts: clear the key's
   * timer if the map has one, then set a fresh one for the key. Afterwards
   * the key has exactly one pending timer, and the previous one is cleared.
   */
  function Rearm(s: State, key: string): (r: State)
    ensures r.timers.Keys == s.timers.Keys + {key}
    ensures r.timers[key] == s.nextTimer && r.armed.Keys == (RemoveTimeout(s, key).armed.Keys + {s.nextTimer})
    ensures r.armed[s.nextTimer] == key
    ensures forall k :: k in s.timers && k != key ==> r.timers[k] == s.timers[k]
    ensures forall t :: t in r.armed && t != s.nextTimer ==> t in s.armed && r.armed[t] == s.armed[t]
    ensures r.nextTimer == s.nextTimer + 1
    ensures r.batches == s.batches && r.delivered == s.delivered
    ensures r.nextSerial == s.nextSerial && r.nextReply == s.nextReply
  {
    var cleared := if key in s.timers then RemoveTimeout(s, key) else s;
    var t := cleared.nextTimer;
    cleared.(timers := cleared.timers[key := t], armed := cleared.armed[t := key], nextTimer := t + 1)
  }

  /** The fields of a batch that a new request creates. */
  datatype Creator = Creator(webhookId: string, webhookToken: string, reply: ReplyHandle, created: nat, searchParams: Option<string>)

  /**
   * Lines 29-45 of src/main.ts (30-45 of src/server.ts), once the body is
   * read: an open batch under the key gets the payload appended and keeps
   * everything else, its creator's reply and token included; otherwise a
   * new batch object holds the payload alone and the creator's fields.
   */
  function Enter(s: State, key: string, payload: Payload, c: Creator): (r: State)
    ensures r.batches.Keys == s.batches.Keys + {key}
    ensures forall k :: k in s.batches && k != key ==> r.batches[k] == s.batches[k]
    ensures key in s.batches ==> r.batches[key] == s.batches[key].(payloads := s.batches[key].payloads + [payload])
    ensures key !in s.batches ==>
              r.batches[key] == RequestBatch(s.nextSerial, c.reply, key, [payload], c.webhookToken, c.webhookId,
                                             c.created, c.searchParams)
    ensures r.nextSerial == s.nextSerial + (if key in s.batches then 0 else 1)
    ensures r.timers == s.timers && r.armed == s.armed && r.delivered == s.delivered
    ensures r.nextTimer == s.nextTimer && r.nextReply == s.nextReply
  {
    if key in s.batches then
      var b := s.batches[key];
      s.(batches := s.batches[key := b.(payloads := b.payloads + [payload])])
    else
      var b := RequestBatch(s.nextSerial, c.reply, key, [payload], c.webhookToken, c.webhookId, c.created, c.searchParams);
      s.(batches := s.batches[key := b], nextSerial := s.nextSerial + 1)
  }

  /**
   * Lines 21-45 of src/main.ts (22-45 of src/server.ts) once the body is
   * read: take the next reply handle, then enter the payload under `key`
   * with this request as the would-be creator.
   */
  function Entering(s: State, key: string, webhookId: string, webhookToken: string, payload: Payload, now: nat): State {
    Enter(s.(nextReply := s.nextReply + 1), key, payload, Creator(webhookId, webhookToken, s.nextReply, now, None))
  }

  /**
   * Lines 49-53 of src/main.ts and of src/server.ts: a full batch leaves the
   * map, its timer is cleared, and it is delivered.
   */
  function Flush(s: State, key: string): (r: State)
    requires key in s.batches
    ensures r.batches == s.batches - {key}
    ensures r.delivered == s.delivered + [s.batches[key]]
    ensures r.timers == RemoveTimeout(s, key).timers && r.armed == RemoveTimeout(s, key).armed
    ensures r.nextTimer == s.nextTimer && r.nextSerial == s.nextSerial && r.nextReply == s.nextReply
  {
    var b := s.batches[key];
    var cleared := RemoveTimeout(s.(batches := s.batches - {key}), key);
    cleared.(delivered := cleared.delivered + [b])
  }

  // ---------------------------------------------------------------------
  // Identity and freshness, common to both proxies.
  // ---------------------------------------------------------------------

  /** Every reply handle a batch in the map or in the log holds was handed out already. */
  predicate RepliesIssued(s: State) {
    && (forall k :: k in s.batches ==> s.batches[k].reply < s.nextReply)
    && (forall i :: 0 <= i < |s.delivered| ==> s.delivered[i].reply < s.nextReply)
  }

  /**
   * Batch objects are told apart by serial: those in the map and those in
   * the log were all handed out, no two open batches share one, no batch
   * was delivered twice, and no open batch was delivered already.
   */
  predicate SerialsDistinct(s: State) {
    && (forall k :: k in s.batches ==> s.batches[k].serial < s.nextSerial)
    && (forall i :: 0 <= i < |s.delivered| ==> s.delivered[i].serial < s.nextSerial)
    && (forall k, k' :: k in s.batches && k' in s.batches && k != k' ==> s.batches[k].serial != s.batches[k'].serial)
    && (forall i, j :: 0 <= i < j < |s.delivered| ==> s.delivered[i].serial != s.delivered[j].serial)
    && (forall k, i :: k in s.batches && 0 <= i < |s.delivered| ==> s.batches[k].serial != s.delivered[i].serial)
  }

  predicate TimersIssued(s: State) {
    forall t :: t in s.armed ==> t < s.nextTimer
  }

  predicate Tracked(s: State) {
    RepliesIssued(s) && SerialsDistinct(s) && TimersIssued(s)
  }

  /** Handing out a reply handle keeps every batch's identity and freshness facts. */
  lemma TrackedIssueReply(s: State)
    requires Tracked(s)
    ensures Tracked(s.(nextReply := s.nextReply + 1))
  {
  }

  lemma TrackedEnter(s: State, key: string, payload: Payload, c: Creator)
    requires Tracked(s) && c.reply < s.nextReply
    ensures Tracked(Enter(s, key, payload, c))
  {
    if key in s.batches {
      TrackedAppend(s, key, payload, c);
    } else {
      TrackedCreate(s, key, payload, c);
    }
  }

  /** Appending to an open batch keeps its serial. */
  lemma TrackedAppend(s: State, key: string, payload: Payload, c: Creator)
    requires Tracked(s) && key in s.batches
    ensures Tracked(Enter(s, key, payload, c))
  {
    var r := Enter(s, key, payload, c);
    assert forall k :: k in r.batches ==> r.batches[k].serial == s.batches[k].serial;
  }

  /** A new batch takes the next serial, above every serial handed out so far. */
  lemma TrackedCreate(s: State, key: string, payload: Payload, c: Creator)
    requires Tracked(s) && c.reply < s.nextReply && key !in s.batches
    ensures Tracked(Enter(s, key, payload, c))
  {
    var r := Enter(s, key, payload, c);
    assert SerialsDistinct(r) by {
      forall k, k' | k in r.batches && k' in r.batches && k != k'
        ensures r.batches[k].serial != r.batches[k'].serial
      {
        if k != key && k' != key {
          assert k in s.batches && k' in s.batches;
        }
      }
    }
  }

  lemma TrackedFlush(s: State, key: string)
    requires Tracked(s) && key in s.batches
    ensures Tracked(Flush(s, key))
  {
    var r := Flush(s, key);
    var b := s.batches[key];
    assert SerialsDistinct(r) by {
      forall i, j | 0 <= i < j < |r.delivered|
        ensures r.delivered[i].serial != r.delivered[j].serial
      {
        if j == |s.delivered| {
          assert r.delivered[j] == b;
        }
      }
      forall k, i | k in r.batches && 0 <= i < |r.delivered|
        ensures r.batches[k].serial != r.delivered[i].serial
      {
        if i == |s.delivered| {
          assert r.delivered[i] == b;
        }
      }
    }
  }

  lemma TrackedRearm(s: State, key: string)
    requires Tracked(s)
    ensures Tracked(Rearm(s, key))
  {
  }

  /**
   * No batch goes missing between `s` and `r`: each batch open in `s` is
   * still open under its key in `r` as the same object, or was handed to
   * delivery in between.
   */
  predicate Conserves(s: State, r: State) {
    && |s.delivered| <= |r.delivered| && r.delivered[..|s.delivered|] == s.delivered
    && forall k :: k in s.batches ==>
         (k in r.batches && r.batches[k].serial == s.batches[k].serial)
         || (exists i :: |s.delivered| <= i < |r.delivered| && r.delivered[i].serial == s.batches[k].serial)
  }

  lemma ConservesTrans(s: State, m: State, r: State)
    requires Conserves(s, m) && Conserves(m, r)
    ensures Conserves(s, r)
  {
    assert r.delivered[..|s.delivered|] == r.delivered[..|m.delivered|][..|s.delivered|];
    forall k | k in s.batches
      ensures (k in r.batches && r.batches[k].serial == s.batches[k].serial)
              || (exists i :: |s.delivered| <= i < |r.delivered| && r.delivered[i].serial == s.batches[k].serial)
    {
      if k in m.batches && m.batches[k].serial == s.batches[k].serial {
        if !(k in r.batches && r.batches[k].serial == s.batches[k].serial) {
          var i :| |m.delivered| <= i < |r.delivered| && r.delivered[i].serial == m.batches[k].serial;
        }
      } else {
        var i :| |s.delivered| <= i < |m.delivered| && m.delivered[i].serial == s.batches[k].serial;
        assert r.delivered[i] == m.delivered[i];
      }
    }
  }

  lemma ConservesEnter(s: State, key: string, payload: Payload, c: Creator)
    ensures Conserves(s, Enter(s, key, payload, c))
  {
  }

  lemma ConservesFlush(s: State, key: string)
    requires key in s.batches
    ensures Conserves(s, Flush(s, key))
  {
    var r := Flush(s, key);
    assert r.delivered[|s.delivered|] == s.batches[key];
  }

  lemma ConservesRearm(s: State, key: string)
    ensures Conserves(s, Rearm(s, key))
  {
  }

  lemma ConservesIssueReply(s: State)
    ensures Conserves(s, s.(nextReply := s.nextReply + 1))
  {
  }

  lemma EnteringConserves(s: State, key: string, webhookId: string, webhookToken: string, payload: Payload, now: nat)
    ensures Conserves(s, Entering(s, key, webhookId, webhookToken, payload, now))
  {
    var s0 := s.(nextReply := s.nextReply + 1);
    var c := Creator(webhookId, webhookToken, s.nextReply, now, None);
    ConservesIssueReply(s);
    ConservesEnter(s0, key, payload, c);
    ConservesTrans(s, s0, Enter(s0, key, payload, c));
  }

  // ---------------------------------------------------------------------
  // Reply handles: which request can ever be answered.
  // ---------------------------------------------------------------------

  /** A reply handle held by an open or a delivered batch: only those are ever resolved. */
  predicate Held(s: State, h: ReplyHandle) {
    || (exists k :: k in s.batches && s.batches[k].reply == h)
    || (exists i :: 0 <= i < |s.delivered| && s.delivered[i].reply == h)
  }

  /** States with the same batches and log hold the same handles. */
  lemma HeldSame(s: State, r: State)
    requires r.batches == s.batches && r.delivered == s.delivered
    ensures forall h :: Held(r, h) <==> Held(s, h)
  {
  }

  /** The only handle `Enter` can add is the creator's. */
  lemma HeldEnter(s: State, key: string, payload: Payload, c: Creator)
    ensures forall h :: Held(Enter(s, key, payload, c), h) ==> Held(s, h) || h == c.reply
  {
    var r := Enter(s, key, payload, c);
    forall h | Held(r, h)
      ensures Held(s, h) || h == c.reply
    {
      if exists k :: k in r.batches && r.batches[k].reply == h {
        var k :| k in r.batches && r.batches[k].reply == h;
        if k != key || key in s.batches {
          assert s.batches[k].reply == h;
        }
      }
    }
  }

  /** `Flush` moves a batch from the map to the log: it adds no handle. */
  lemma HeldFlush(s: State, key: string)
    requires key in s.batches
    ensures forall h :: Held(Flush(s, key), h) ==> Held(s, h)
  {
    var r := Flush(s, key);
    forall h | Held(r, h)
      ensures Held(s, h)
    {
      if exists i :: 0 <= i < |r.delivered| && r.delivered[i].reply == h {
        var i :| 0 <= i < |r.delivered| && r.delivered[i].reply == h;
        if i == |s.delivered| {
          assert s.batches[key].reply == h;
        } else {
          assert s.delivered[i].reply == h;
        }
      } else {
        var k :| k in r.batches && r.batches[k].reply == h;
        assert s.batches[k].reply == h;
      }
    }
  }

  /** The only handle taking a reply and entering a payload adds is the request's own. */
  lemma HeldEntering(s: State, key: string, webhookId: string, webhookToken: string, payload: Payload, now: nat)
    ensures forall h :: Held(Entering(s, key, webhookId, webhookToken, payload, now), h) ==> Held(s, h) || h == s.nextReply
  {
    var s0 := s.(nextReply := s.nextReply + 1);
    var c := Creator(webhookId, webhookToken, s.nextReply, now, None);
    HeldEnter(s0, key, payload, c);
    assert Entering(s, key, webhookId, webhookToken, payload, now) == Enter(s0, key, payload, c);
  }

  /** A request that joins an open batch gets a handle that no batch holds. */
  lemma JoinerUnheld(s: State, key: string, webhookId: string, webhookToken: string, payload: Payload, now: nat)
    requires RepliesIssued(s) && key in s.batches
    ensures !Held(Entering(s, key, webhookId, webhookToken, payload, now), s.nextReply)
  {
    var s1 := Entering(s, key, webhookId, webhookToken, payload, now);
    assert s1.batches[key].reply == s.batches[key].reply;
    forall k | k in s1.batches
      ensures s1.batches[k].reply != s.nextReply
    {
      assert k in s.batches;
    }
  }
}
