/**
 * src/payload.rs: the table of open batches, keyed by a 64-bit hash, and
 * `get_insert`, which runs under the table's lock from start to end and so
 * is one atomic update here; and `form_response`, the error body format.
 */
module PayloadTable {
  import opened Wrappers
  import opened Webhook
  import Decimal
  import UrlGrammar

  newtype U64 = x: int | 0 <= x < 0x1_0000_0000_0000_0000
  newtype U8 = x: int | 0 <= x < 0x100

  /**
   * The table after `get_insert(hash, parts, payload)` at time `now`: an
   * occupied key gets the payload appended and keeps its `created` and
   * `parts` (the incoming parts are dropped); a vacant key gets a fresh
   * batch of that one payload. No key is removed and no other entry changes.
   */
  function Inserted(m: map<U64, WebhookBatch>, hash: U64, parts: WebhookParts, payload: WebhookPayload, now: nat)
    : (r: map<U64, WebhookBatch>)
    ensures r.Keys == m.Keys + {hash}
    ensures forall k :: k in m && k != hash ==> r[k] == m[k]
    ensures hash in m ==> r[hash].created == m[hash].created && r[hash].parts == m[hash].parts
                          && r[hash].payloads == m[hash].payloads + [payload]
    ensures hash !in m ==> r[hash] == WebhookBatch(now, parts, [payload])
    ensures |r[hash].payloads| == |PayloadsAt(m, hash)| + 1
  {
    if hash in m then m[hash := m[hash].(payloads := m[hash].payloads + [payload])]
    else m[hash := WebhookBatch(now, parts, [payload])]
  }

  /** The payloads stored under `hash`, none for a vacant key. */
  function PayloadsAt(m: map<U64, WebhookBatch>, hash: U64): seq<WebhookPayload> {
    if hash in m then m[hash].payloads else []
  }

  /** The table behind `WEBHOOK_BATCHES`. */
  class BatchTable {
    var batches: map<U64, WebhookBatch>

    constructor()
      ensures batches == map[]
    {
      batches := map[];
    }

    /** `get_insert`: update the entry for `hash` and return a copy of it. */
    method GetInsert(hash: U64, parts: WebhookParts, payload: WebhookPayload, now: nat) returns (batch: WebhookBatch)
      modifies this
      ensures batches == Inserted(old(batches), hash, parts, payload, now)
      ensures batch == batches[hash]
    {
      if hash in batches {
        var entry := batches[hash];
        entry := entry.(payloads := entry.payloads + [payload]);
        batches := batches[hash := entry];
        batch := entry;
      } else {
        batch := WebhookBatch(now, parts, [payload]);
        batches := batches[hash := batch];
      }
    }
  }

  /** One call of `get_insert` on a fixed key: the caller's parts, payload and clock reading. */
  datatype Join = Join(parts: WebhookParts, payload: WebhookPayload, now: nat)

  /** The table after a sequence of calls on the key `hash`, in call order. */
  function InsertAll(m: map<U64, WebhookBatch>, hash: U64, js: seq<Join>): map<U64, WebhookBatch>
    decreases |js|
  {
    if js == [] then m
    else
      var last := js[|js| - 1];
      Inserted(InsertAll(m, hash, js[..|js| - 1]), hash, last.parts, last.payload, last.now)
  }

  function PayloadsOf(js: seq<Join>): (ps: seq<WebhookPayload>)
    ensures |ps| == |js| && forall i :: 0 <= i < |js| ==> ps[i] == js[i].payload
  {
    if js == [] then [] else PayloadsOf(js[..|js| - 1]) + [js[|js| - 1].payload]
  }

  /** A run of calls on one key leaves that key present and every other key untouched. */
  lemma {:induction false} InsertAllKeeps(m: map<U64, WebhookBatch>, hash: U64, js: seq<Join>)
    requires hash in m || js != []
    ensures InsertAll(m, hash, js).Keys == m.Keys + {hash}
    ensures forall k :: k in m && k != hash ==> InsertAll(m, hash, js)[k] == m[k]
    decreases |js|
  {
    if js != [] && (hash in m || |js| > 1) {
      InsertAllKeeps(m, hash, js[..|js| - 1]);
    }
  }

  /**
   * A run of calls on one key collects every payload in call order after
   * those already stored; the entry keeps the parts and clock reading of
   * whichever call created it.
   */
  lemma {:induction false} InsertAllCollects(m: map<U64, WebhookBatch>, hash: U64, js: seq<Join>)
    requires hash in m || js != []
    ensures hash in InsertAll(m, hash, js)
    ensures InsertAll(m, hash, js)[hash].payloads == PayloadsAt(m, hash) + PayloadsOf(js)
    ensures InsertAll(m, hash, js)[hash].parts == (if hash in m then m[hash].parts else js[0].parts)
    ensures InsertAll(m, hash, js)[hash].created == (if hash in m then m[hash].created else js[0].now)
    decreases |js|
  {
    if js == [] {
      assert PayloadsOf(js) == [];
    } else {
      var init := js[..|js| - 1];
      var last := js[|js| - 1];
      var before := InsertAll(m, hash, init);
      if hash in m || init != [] {
        InsertAllCollects(m, hash, init);
        if init != [] {
          assert init[0] == js[0];
        }
        assert PayloadsOf(js) == PayloadsOf(init) + [last.payload];
      } else {
        assert before == m;
        assert js == [last];
        assert PayloadsOf(js) == [last.payload];
      }
    }
  }

  // ---------------------------------------------------------------------
  // `form_response`.
  // ---------------------------------------------------------------------

  const Open: string := "{ code: "
  const Middle: string := ", message: "
  const Close: string := " }"

  /** `format!("{{ code: {}, message: {} }}", code, message)`: the message is written unquoted. */
  function FormResponse(code: U8, message: string): string {
    Open + Decimal.NatToDecimal(code as nat) + Middle + message + Close
  }

  /** Reads a response body back: the decimal code after `Open`, then everything between `Middle` and the final `Close`. */
  function ParseResponse(s: string): Option<(nat, string)> {
    if |s| >= |Open| + |Close| && s[..|Open|] == Open && s[|s| - |Close|..] == Close then
      var body := s[|Open|..|s| - |Close|];
      var n := UrlGrammar.Run(body, 0, Decimal.IsDigit);
      if n >= 1 && n + |Middle| <= |body| && body[n..n + |Middle|] == Middle then
        Some((Decimal.DecimalValue(body[..n]), body[n + |Middle|..]))
      else None
    else None
  }

  /** The code and the message a response body was formed from read back from it, whatever the message holds. */
  lemma FormResponseRoundTrip(code: U8, message: string)
    ensures ParseResponse(FormResponse(code, message)) == Some((code as nat, message))
  {
    var digits := Decimal.NatToDecimal(code as nat);
    var s := FormResponse(code, message);
    var body := digits + Middle + message;
    assert s == Open + body + Close;
    assert s[..|Open|] == Open;
    assert s[|s| - |Close|..] == Close;
    assert s[|Open|..|s| - |Close|] == body;
    DigitRunOfBody(digits, Middle + message);
    assert body == digits + (Middle + message);
    assert body[..|digits|] == digits;
    assert body[|digits|..|digits| + |Middle|] == Middle;
    assert body[|digits| + |Middle|..] == message;
    Decimal.DecimalRoundTrip(code as nat);
  }

  /** The digit run at the start of `digits + rest` is `digits` when `rest` starts with a non-digit. */
  lemma DigitRunOfBody(digits: string, rest: string)
    requires Decimal.AllDigits(digits) && rest != [] && !Decimal.IsDigit(rest[0])
    ensures UrlGrammar.Run(digits + rest, 0, Decimal.IsDigit) == |digits|
  {
    var body := digits + rest;
    UrlGrammar.RunCovers(body, 0, |digits|, Decimal.IsDigit);
    assert body[|digits|] == rest[0];
  }
}
