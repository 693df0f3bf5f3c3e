/**
 * src/constants.ts: the three settings read from the environment and the
 * request URL regex
 *
 *   (http?s?:\/\/)?[A-z0-9.:\-_]{1,253}\/api\/(v[0-9]{1,3}\/)?webhooks\/(?<webhook_id>[0-9]\w+)\/(?<webhook_token>[A-z0-9-]{1,100})
 *
 * searched (not anchored) in the request URL. The environment is a parameter:
 * `None` for an unset variable, `Some(text)` for a set one.
 */
module Constants {
  import opened Wrappers
  import opened UrlGrammar
  import Decimal

  const DefaultTimeoutMs: nat := 2000
  const DefaultLimit: nat := 10
  /** No trailing slash: delivery adds "/" before the id. */
  const DefaultEndpoint: string := "https://discord.com/api/webhooks"

  /** A JavaScript number as far as these settings go: a non-negative integer, or NaN. */
  datatype Number = Num(n: nat) | NaN

  /**
   * The numeric value of a setting's text: decimal digits give their value,
   * the empty text gives 0, anything else counts as NaN.
   */
  function Coerce(text: string): (r: Number)
    ensures r.Num? <==> Decimal.AllDigits(text)
    ensures text == "" ==> r == Num(0)
  {
    if Decimal.AllDigits(text) then Num(Decimal.DecimalValue(text)) else NaN
  }

  /** `EXECUTION_TIMEOUT_MS`: `+(env ?? 2000)`. */
  function TimeoutMs(env: Option<string>): (r: Number)
    ensures env.None? ==> r == Num(DefaultTimeoutMs)
  {
    match env
    case None => Num(DefaultTimeoutMs)
    case Some(text) => Coerce(text)
  }

  /**
   * When a batch is full. `DISCORD_WEBHOOK_MESSAGE_EMBED_LIMIT` is `env ?? 10`
   * with no conversion; `length >= limit` converts a string limit to a
   * number, and every comparison with NaN is false, so such a limit is never
   * reached.
   */
  datatype Threshold = AtLeast(n: nat) | Never

  function Limit(env: Option<string>): (t: Threshold)
    ensures env.None? ==> t == AtLeast(DefaultLimit)
    ensures env.Some? ==> (t.Never? <==> Coerce(env.value).NaN?)
  {
    match env
    case None => AtLeast(DefaultLimit)
    case Some(text) =>
      match Coerce(text)
      case Num(n) => AtLeast(n)
      case NaN => Never
  }

  /** `count >= limit`. */
  predicate Reached(count: nat, t: Threshold) {
    t.AtLeast? && count >= t.n
  }

  /** A limit written as a decimal number is read back as that number. */
  lemma LimitReadsDecimal(n: nat)
    ensures Limit(Some(Decimal.NatToDecimal(n))) == AtLeast(n)
    ensures TimeoutMs(Some(Decimal.NatToDecimal(n))) == Num(n)
  {
    Decimal.DecimalRoundTrip(n);
  }

  // ---------------------------------------------------------------------
  // The regex search.
  // ---------------------------------------------------------------------

  /** A host character right before `q`, where `/api/` must begin. */
  predicate HostBefore(s: string, q: nat) {
    1 <= q <= |s| && IsHostChar(s[q - 1])
  }

  /** The captures of a match whose `/api/` begins at `q`. */
  function MatchAt(s: string, q: nat): Option<Captures> {
    if HostBefore(s, q) then TailAt(s, q) else None
  }

  /** The first position from `from` on where a match's `/api/` can begin. */
  function FirstMatch(s: string, from: nat): Option<nat>
    requires from <= |s|
    decreases |s| - from
  {
    if MatchAt(s, from).Some? then Some(from)
    else if from == |s| then None
    else FirstMatch(s, from + 1)
  }

  /** `FirstMatch` finds the least matching position from `from` on, and `None` only when there is none. */
  lemma {:induction false} FirstMatchLeast(s: string, from: nat)
    requires from <= |s|
    ensures FirstMatch(s, from).Some? ==> from <= FirstMatch(s, from).value <= |s|
                                          && MatchAt(s, FirstMatch(s, from).value).Some?
    ensures forall k :: from <= k <= |s| && MatchAt(s, k).Some? ==>
              FirstMatch(s, from).Some? && FirstMatch(s, from).value <= k
    decreases |s| - from
  {
    if MatchAt(s, from).None? && from < |s| {
      FirstMatchLeast(s, from + 1);
    }
  }

  /** `url.match(REQUEST_URL_REGEX)`, reduced to the two named groups. */
  function RequestUrlMatch(url: string): Option<Captures> {
    match FirstMatch(url, 0)
    case None => None
    case Some(q) => MatchAt(url, q)
  }

  /** The scheme alternatives of `(http?s?:\/\/)?`: `k` characters at `i`, or none. */
  predicate SchemeAt(s: string, i: nat, k: nat) {
    k == 0 || (i + k <= |s| && s[i..i + k] in {"htt://", "http://", "htts://", "https://"})
  }

  /** `[A-z0-9.:\-_]{1,253}` over `s[h..q]`. */
  predicate HostSpan(s: string, h: nat, q: nat) {
    h < q <= |s| && q - h <= 253 && forall j :: h <= j < q ==> IsHostChar(s[j])
  }

  /** The regex, started at `i`, can reach `/api/` at `q` through its scheme and host parts. */
  predicate PrefixMatches(s: string, i: nat, q: nat) {
    exists k :: 0 <= k <= 8 && SchemeAt(s, i, k) && HostSpan(s, i + k, q)
  }

  /**
   * The regex match that starts leftmost is the one `RequestUrlMatch`
   * takes: a full match that starts at `i`, with no full match starting
   * earlier, has its `/api/` at the first position `FirstMatch` finds, so
   * its named groups are the ones returned.
   */
  lemma LeftmostMatch(s: string, i: nat, q: nat)
    requires PrefixMatches(s, i, q) && TailAt(s, q).Some?
    requires forall i', q' :: 0 <= i' < i && PrefixMatches(s, i', q') ==> TailAt(s, q').None?
    ensures RequestUrlMatch(s) == TailAt(s, q)
  {
    PrefixEndsAtHost(s, i, q);
    forall k | 0 <= k < q
      ensures MatchAt(s, k).None?
    {
      if MatchAt(s, k).Some? {
        HostStartsPrefix(s, k);
        EarlierTailFirst(s, i, k, q);
        assert false;
      }
    }
    MatchFoundAt(s, q);
  }

  /** A match at `h` with none before it is the one `RequestUrlMatch` reports. */
  lemma MatchFoundAt(s: string, h: nat)
    requires h <= |s| && MatchAt(s, h).Some?
    requires forall q :: 0 <= q < h ==> MatchAt(s, q).None?
    ensures RequestUrlMatch(s) == MatchAt(s, h)
  {
    FirstMatchLeast(s, 0);
    var m := FirstMatch(s, 0);
    assert m == Some(h);
  }

  /** Whatever the scheme and host parts match ends right after a host character. */
  lemma PrefixEndsAtHost(s: string, i: nat, q: nat)
    requires PrefixMatches(s, i, q)
    ensures HostBefore(s, q) && i < q
  {
  }

  /** One host character is already a full scheme-and-host part. */
  lemma HostStartsPrefix(s: string, q: nat)
    requires HostBefore(s, q)
    ensures PrefixMatches(s, q - 1, q)
  {
    assert SchemeAt(s, q - 1, 0) && HostSpan(s, q - 1, q);
  }

  /**
   * A match whose `/api/` begins at `q1` starts before any match whose
   * `/api/` begins later: the later one's host part cannot cover the `/`
   * at `q1`, and neither can its scheme, given the host character before `q1`.
   */
  lemma EarlierTailFirst(s: string, i: nat, q1: nat, q2: nat)
    requires q1 < q2 && HostBefore(s, q1) && LiteralAt(s, q1, Api)
    requires PrefixMatches(s, i, q2)
    ensures q1 <= i
  {
    if i < q1 {
      ApiChars(s, q1);
      var k :| 0 <= k <= 8 && SchemeAt(s, i, k) && HostSpan(s, i + k, q2);
      if i + k <= q1 {
        assert false;
      } else {
        SchemeSlashes(s, i, k);
        assert false;
      }
    }
  }

  /** Every scheme alternative ends in `://` and has no `/` before those two slashes. */
  lemma SchemeSlashes(s: string, i: nat, k: nat)
    requires 0 < k && SchemeAt(s, i, k)
    ensures 6 <= k && s[i + k - 1] == '/' && s[i + k - 2] == '/' && s[i + k - 3] == ':'
    ensures forall j :: i <= j < i + k - 2 ==> s[j] != '/'
  {
    var w := s[i..i + k];
    assert forall j :: i <= j < i + k ==> s[j] == w[j - i];
  }

  lemma ApiChars(s: string, q: nat)
    requires LiteralAt(s, q, Api)
    ensures s[q] == '/' && s[q + 1] == 'a'
  {
    assert s[q..q + |Api|] == Api;
  }

  /** A URL that holds `/api/` only at its very start has no match: a host character must precede it. */
  lemma BarePathRejected(s: string)
    requires forall q :: 0 < q <= |s| ==> !LiteralAt(s, q, Api)
    ensures RequestUrlMatch(s).None?
  {
    FirstMatchLeast(s, 0);
  }
}
