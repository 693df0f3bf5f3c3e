/**
 * The webhook part of the two URL regexes,
 *
 *   /api/(v[0-9]{1,3}/)?webhooks/(?<id>[0-9]\w+)/(?<token>[A-z0-9-]{1,100})
 *
 * shared by `REQUEST_URL_REGEX` (src/constants.ts) and `PATH_RE`
 * (src/webhook.rs). A backtracking engine that tries this pattern at
 * position `q` has only one way to succeed, so `TailAt` computes that one
 * parse directly: the version segment when `v`, one to three digits and `/`
 * follow, the id as the whole run of word characters (it must be followed
 * by `/`), and the token as the longest run of token characters, cut at
 * 100. `TailShape` is the declarative reading of the pattern, and
 * `TailSound` / `TailComplete` connect the two.
 */
module UrlGrammar {
  import opened Wrappers

  predicate IsDigitChar(c: char) {
    '0' <= c <= '9'
  }

  /** `\w`: ASCII letters, digits and `_`. */
  predicate IsWordChar(c: char) {
    'a' <= c <= 'z' || 'A' <= c <= 'Z' || IsDigitChar(c) || c == '_'
  }

  /** `[A-z0-9-]`: the range `A`..`z` also takes in `[ \ ] ^ _` and the backquote. */
  predicate IsTokenChar(c: char) {
    'A' <= c <= 'z' || IsDigitChar(c) || c == '-'
  }

  /** `[A-z0-9.:\-_]`, the host characters of `REQUEST_URL_REGEX`. */
  predicate IsHostChar(c: char) {
    'A' <= c <= 'z' || IsDigitChar(c) || c == '.' || c == ':' || c == '-' || c == '_'
  }

  /** The length of the longest run of `p`-characters in `s` starting at `i`. */
  function Run(s: string, i: nat, p: char -> bool): (n: nat)
    requires i <= |s|
    ensures i + n <= |s|
    ensures forall k :: i <= k < i + n ==> p(s[k])
    ensures i + n < |s| ==> !p(s[i + n])
    decreases |s| - i
  {
    if i == |s| || !p(s[i]) then 0 else 1 + Run(s, i + 1, p)
  }

  /** `lit` occurs in `s` at position `i`. */
  predicate LiteralAt(s: string, i: nat, lit: string) {
    i + |lit| <= |s| && s[i..i + |lit|] == lit
  }

  const Api: string := "/api/"
  const Webhooks: string := "webhooks/"
  const MaxToken: nat := 100

  /** The two named captures. */
  datatype Captures = Captures(id: string, token: string)

  /** Length of the optional `v<digits>/` segment at `p`; 0 when the group does not match. */
  function VersionLen(s: string, p: nat): nat {
    if p < |s| && s[p] == 'v' then
      var d := Run(s, p + 1, IsDigitChar);
      if 1 <= d <= 3 && p + 1 + d < |s| && s[p + 1 + d] == '/' then d + 2 else 0
    else 0
  }

  /** Where the id starts, for a match at `q` with a version segment of length `vl`. */
  function IdStart(q: nat, vl: nat): nat {
    q + |Api| + vl + |Webhooks|
  }

  /** The captures of the webhook pattern tried at position `q`, or `None` if it fails there. */
  function TailAt(s: string, q: nat): Option<Captures> {
    var vl := VersionLen(s, q + |Api|);
    if LiteralAt(s, q, Api) && LiteralAt(s, q + |Api| + vl, Webhooks) then IdTokenAt(s, IdStart(q, vl))
    else None
  }

  /**
   * Length of the id that `[0-9]\w+` captures at `a` when `/` follows it, or
   * 0 when the id part fails there: `\w+` is greedy and `/` is not a word
   * character, so only the whole run can be followed by `/`.
   */
  function IdLen(s: string, a: nat): (n: nat)
    ensures n != 0 ==> a + n < |s|
  {
    if a < |s| && IsDigitChar(s[a]) then
      var n := Run(s, a, IsWordChar);
      if n >= 2 && a + n < |s| && s[a + n] == '/' then n else 0
    else 0
  }

  /** Length of the token that the greedy `[A-z0-9-]{1,100}` captures at `b`, or 0 when it fails. */
  function TokenLen(s: string, b: nat): (k: nat)
    requires b <= |s|
    ensures b + k <= |s|
  {
    var k := Run(s, b, IsTokenChar);
    if k < MaxToken then k else MaxToken
  }

  /** The `(?<id>[0-9]\w+)/(?<token>[A-z0-9-]{1,100})` part, tried at position `a`. */
  function IdTokenAt(s: string, a: nat): Option<Captures> {
    var n := IdLen(s, a);
    if n == 0 then None
    else
      var b := a + n + 1;
      var k := TokenLen(s, b);
      if k == 0 then None else Some(Captures(s[a..a + n], s[b..b + k]))
  }

  /** The optional version group read declaratively: absent, or `v`, one to three digits, `/`. */
  predicate VersionShape(s: string, p: nat, vl: nat) {
    vl == 0
    || (3 <= vl <= 5 && p + vl <= |s| && s[p] == 'v' && s[p + vl - 1] == '/'
        && forall j :: p + 1 <= j < p + vl - 1 ==> IsDigitChar(s[j]))
  }

  /** `/api/`, a version segment of length `vl` and `webhooks/`, read declaratively at `q`. */
  predicate PrefixShape(s: string, q: nat, vl: nat) {
    LiteralAt(s, q, Api) && VersionShape(s, q + |Api|, vl) && LiteralAt(s, q + |Api| + vl, Webhooks)
  }

  /** An id of length `il`, `/`, and a token of length `tl`, read declaratively at `a`. */
  predicate IdTokenShape(s: string, a: nat, il: nat, tl: nat) {
    var b := a + il + 1;
    && 2 <= il && a + il < |s| && IsDigitChar(s[a])
    && (forall j :: a <= j < a + il ==> IsWordChar(s[j]))
    && s[a + il] == '/'
    && 1 <= tl <= MaxToken && b + tl <= |s|
    && (forall j :: b <= j < b + tl ==> IsTokenChar(s[j]))
  }

  /**
   * The pattern read declaratively: the text at `q` parses as `/api/`, a
   * version segment of length `vl`, `webhooks/`, an id of length `il` and a
   * token of length `tl`.
   */
  predicate TailShape(s: string, q: nat, vl: nat, il: nat, tl: nat) {
    PrefixShape(s, q, vl) && IdTokenShape(s, IdStart(q, vl), il, tl)
  }

  /**
   * The captures `c` are read at `a`: the id there, then `/`, then the
   * token; the id holds neither `-` nor `/`, and the token stops only at a
   * non-token character, at the end of the text, or after 100 characters.
   */
  predicate CapturedAt(s: string, a: nat, c: Captures) {
    var b := a + |c.id| + 1;
    && b + |c.token| <= |s|
    && c.id == s[a..a + |c.id|] && c.token == s[b..b + |c.token|]
    && '-' !in c.id && '/' !in c.id
    && (|c.token| < MaxToken ==> b + |c.token| == |s| || !IsTokenChar(s[b + |c.token|]))
  }

  /** What `TailAt` finds is a parse of the pattern, captured as `CapturedAt` says. */
  lemma TailSound(s: string, q: nat)
    requires TailAt(s, q).Some?
    ensures var c, vl := TailAt(s, q).value, VersionLen(s, q + |Api|);
      TailShape(s, q, vl, |c.id|, |c.token|) && CapturedAt(s, IdStart(q, vl), c)
  {
    var vl := VersionLen(s, q + |Api|);
    VersionSound(s, q + |Api|);
    IdTokenSound(s, IdStart(q, vl));
  }

  lemma VersionSound(s: string, p: nat)
    ensures VersionShape(s, p, VersionLen(s, p))
  {
  }

  lemma IdTokenSound(s: string, a: nat)
    requires IdTokenAt(s, a).Some?
    ensures var c := IdTokenAt(s, a).value;
      IdTokenShape(s, a, |c.id|, |c.token|) && CapturedAt(s, a, c)
  {
    var c := IdTokenAt(s, a).value;
    assert forall j :: 0 <= j < |c.id| ==> c.id[j] == s[a + j];
  }

  /** The captures `c` hold the id of length `il` at `a` and a token that extends the `tl` characters after it. */
  predicate CoversParse(s: string, a: nat, il: nat, tl: nat, c: Captures) {
    var b := a + il + 1;
    && |c.id| == il && tl <= |c.token| && b + |c.token| <= |s|
    && c.id == s[a..a + il] && c.token == s[b..b + |c.token|]
  }

  /**
   * Any parse of the pattern at `q` is the one `TailAt` finds: same version
   * segment and id, and a token at least as long (the greedy one).
   */
  lemma TailComplete(s: string, q: nat, vl: nat, il: nat, tl: nat)
    requires TailShape(s, q, vl, il, tl)
    ensures TailAt(s, q).Some? && CoversParse(s, IdStart(q, vl), il, tl, TailAt(s, q).value)
  {
    VersionUnique(s, q + |Api|, vl);
    IdTokenComplete(s, IdStart(q, vl), il, tl);
  }

  lemma IdTokenComplete(s: string, a: nat, il: nat, tl: nat)
    requires IdTokenShape(s, a, il, tl)
    ensures IdTokenAt(s, a).Some? && CoversParse(s, a, il, tl, IdTokenAt(s, a).value)
  {
    RunCovers(s, a, il, IsWordChar);
    assert Run(s, a, IsWordChar) == il;
    RunCovers(s, a + il + 1, tl, IsTokenChar);
  }

  /** The version group matches in at most one way, and a match rules out `webhooks/` right at `p`. */
  lemma VersionUnique(s: string, p: nat, vl: nat)
    requires VersionShape(s, p, vl) && LiteralAt(s, p + vl, Webhooks)
    ensures VersionLen(s, p) == vl
  {
    if vl == 0 {
      assert s[p] == 'w' by {
        assert s[p..p + |Webhooks|][0] == s[p];
      }
    } else {
      var d := Run(s, p + 1, IsDigitChar);
      RunCovers(s, p + 1, vl - 2, IsDigitChar);
      assert d == vl - 2;
    }
  }

  /** A run of `p`-characters of length `k` lies inside the longest one. */
  lemma {:induction false} RunCovers(s: string, i: nat, k: nat, p: char -> bool)
    requires i + k <= |s| && forall j :: i <= j < i + k ==> p(s[j])
    ensures k <= Run(s, i, p)
    decreases k
  {
    if k > 0 {
      RunCovers(s, i + 1, k - 1, p);
    }
  }

  /** Text after the match that does not start with a token character changes nothing. */
  lemma TailIgnoresSuffix(s: string, r: string, q: nat)
    requires TailAt(s, q).Some?
    requires r == [] || !IsTokenChar(r[0])
    ensures TailAt(s + r, q) == TailAt(s, q)
  {
    var t := s + r;
    assert Extends(s, t) by {
      assert forall j :: 0 <= j < |s| ==> t[j] == s[j];
    }
    assert |t| == |s| || !IsTokenChar(t[|s|]);
    TailExtends(s, t, q);
  }

  /** A match at `q` survives extending the text by anything that does not continue the token. */
  lemma TailExtends(s: string, t: string, q: nat)
    requires TailAt(s, q).Some? && Extends(s, t)
    requires |t| == |s| || !IsTokenChar(t[|s|])
    ensures TailAt(t, q) == TailAt(s, q)
  {
    var p, vl := q + |Api|, VersionLen(s, q + |Api|);
    VersionSound(s, p);
    LiteralExtend(s, t, q, Api);
    LiteralExtend(s, t, p + vl, Webhooks);
    VersionShapeExtend(s, t, p, vl);
    VersionUnique(t, p, vl);
    IdTokenIgnoresSuffix(s, t, IdStart(q, vl));
    TailFromParts(s, q);
    TailFromParts(t, q);
  }

  /** Once `/api/`, the version segment and `webhooks/` are found at `q`, the match is the id-token part after them. */
  lemma TailFromParts(s: string, q: nat)
    requires LiteralAt(s, q, Api) && LiteralAt(s, q + |Api| + VersionLen(s, q + |Api|), Webhooks)
    ensures TailAt(s, q) == IdTokenAt(s, IdStart(q, VersionLen(s, q + |Api|)))
  {
  }

  /** `t` starts with `s`. */
  predicate Extends(s: string, t: string) {
    |s| <= |t| && forall j :: 0 <= j < |s| ==> t[j] == s[j]
  }

  lemma LiteralExtend(s: string, t: string, i: nat, lit: string)
    requires Extends(s, t) && LiteralAt(s, i, lit)
    ensures LiteralAt(t, i, lit)
  {
    SliceAgrees(s, t, i, i + |lit|);
  }

  lemma VersionShapeExtend(s: string, t: string, p: nat, vl: nat)
    requires Extends(s, t) && VersionShape(s, p, vl)
    ensures VersionShape(t, p, vl)
  {
  }

  lemma IdTokenIgnoresSuffix(s: string, t: string, a: nat)
    requires Extends(s, t) && IdTokenAt(s, a).Some?
    requires |t| == |s| || !IsTokenChar(t[|s|])
    ensures IdTokenAt(t, a) == IdTokenAt(s, a)
  {
    var n := IdLen(s, a);
    IdLenIgnoresSuffix(s, t, a);
    var b := a + n + 1;
    TokenLenIgnoresSuffix(s, t, b);
    var k := TokenLen(s, b);
    SliceAgrees(s, t, a, a + n);
    SliceAgrees(s, t, b, b + k);
    IdTokenSame(s, t, a);
  }

  lemma IdLenIgnoresSuffix(s: string, t: string, a: nat)
    requires Extends(s, t) && IdLen(s, a) != 0
    ensures IdLen(t, a) == IdLen(s, a)
  {
    RunPrefix(s, t, a, IsWordChar);
  }

  lemma TokenLenIgnoresSuffix(s: string, t: string, b: nat)
    requires Extends(s, t) && b <= |s|
    requires |t| == |s| || !IsTokenChar(t[|s|])
    ensures TokenLen(t, b) == TokenLen(s, b)
  {
    RunPrefix(s, t, b, IsTokenChar);
  }

  /** `IdTokenAt` reads the text only through the two lengths and the two captured slices. */
  lemma IdTokenSame(s: string, t: string, a: nat)
    requires IdLen(t, a) == IdLen(s, a) != 0
    requires var n := IdLen(s, a);
      var b := a + n + 1;
      && TokenLen(t, b) == TokenLen(s, b)
      && t[a..a + n] == s[a..a + n] && t[b..b + TokenLen(s, b)] == s[b..b + TokenLen(s, b)]
    ensures IdTokenAt(t, a) == IdTokenAt(s, a)
  {
  }

  lemma SliceAgrees(s: string, t: string, i: nat, j: nat)
    requires Extends(s, t) && i <= j <= |s|
    ensures t[i..j] == s[i..j]
  {
  }

  /** A run that stops inside `s`, or at its end where `t` does not continue it, is the same in `t`. */
  lemma {:induction false} RunPrefix(s: string, t: string, i: nat, p: char -> bool)
    requires Extends(s, t) && i <= |s|
    requires i + Run(s, i, p) < |s| || |t| == |s| || !p(t[|s|])
    ensures Run(t, i, p) == Run(s, i, p)
    decreases |s| - i
  {
    if i < |s| && p(s[i]) {
      RunPrefix(s, t, i + 1, p);
    }
  }

  /** `[0-9]\w+`: a digit, then at least one more word character; hence no `-` and no `/`. */
  predicate IdShape(id: string) {
    |id| >= 2 && IsDigitChar(id[0]) && '-' !in id && '/' !in id
    && forall j :: 0 <= j < |id| ==> IsWordChar(id[j])
  }

  /** `[A-z0-9-]{1,100}`. */
  predicate TokenShape(token: string) {
    1 <= |token| <= MaxToken && forall j :: 0 <= j < |token| ==> IsTokenChar(token[j])
  }

  /** Whatever `TailAt` captures has the shapes of the two groups. */
  lemma CapturesShape(s: string, q: nat)
    requires TailAt(s, q).Some?
    ensures IdShape(TailAt(s, q).value.id) && TokenShape(TailAt(s, q).value.token)
  {
    TailSound(s, q);
    var c := TailAt(s, q).value;
    var a := IdStart(q, VersionLen(s, q + |Api|));
    CapturedIdShape(s, a, c);
    CapturedTokenShape(s, a, c);
  }

  lemma CapturedIdShape(s: string, a: nat, c: Captures)
    requires IdTokenShape(s, a, |c.id|, |c.token|) && CapturedAt(s, a, c)
    ensures IdShape(c.id)
  {
    assert forall j :: 0 <= j < |c.id| ==> c.id[j] == s[a + j];
  }

  lemma CapturedTokenShape(s: string, a: nat, c: Captures)
    requires IdTokenShape(s, a, |c.id|, |c.token|) && CapturedAt(s, a, c)
    ensures TokenShape(c.token)
  {
    var b := a + |c.id| + 1;
    assert forall j :: 0 <= j < |c.token| ==> c.token[j] == s[b + j];
  }

  /** The text `/api/webhooks/<id>/<token>` without a version segment. */
  function TailText(c: Captures): string {
    Api + Webhooks + c.id + "/" + c.token
  }

  /**
   * Writing captures of the right shapes into a text reads them back: the
   * pattern at `q` captures exactly `c`, provided the token is not followed
   * by a further token character that the greedy group would take in.
   */
  lemma TailOfText(s: string, q: nat, c: Captures)
    requires IdShape(c.id) && TokenShape(c.token)
    requires LiteralAt(s, q, TailText(c))
    requires var e := q + |TailText(c)|; e == |s| || !IsTokenChar(s[e])
    ensures TailAt(s, q) == Some(c)
  {
    var a := IdStart(q, 0);
    TextParts(s, q, c);
    assert VersionLen(s, q + |Api|) == 0 by {
      LiteralChars(s, q + |Api|, Webhooks);
    }
    IdTokenOfText(s, a, c);
    TailFromParts(s, q);
  }

  /** The pieces of `TailText(c)` where it occurs at `q`. */
  lemma TextParts(s: string, q: nat, c: Captures)
    requires LiteralAt(s, q, TailText(c))
    ensures var a := IdStart(q, 0);
      && LiteralAt(s, q, Api) && LiteralAt(s, q + |Api|, Webhooks) && LiteralAt(s, a, c.id)
      && a + |c.id| < |s| && s[a + |c.id|] == '/' && LiteralAt(s, a + |c.id| + 1, c.token)
      && q + |TailText(c)| == a + |c.id| + 1 + |c.token|
  {
    LiteralSplit(s, q, Api + Webhooks + c.id + "/", c.token);
    LiteralSplit(s, q, Api + Webhooks + c.id, "/");
    LiteralSplit(s, q, Api + Webhooks, c.id);
    LiteralSplit(s, q, Api, Webhooks);
    LiteralChars(s, IdStart(q, 0) + |c.id|, "/");
  }

  lemma LiteralSplit(s: string, i: nat, x: string, y: string)
    requires LiteralAt(s, i, x + y)
    ensures LiteralAt(s, i, x) && LiteralAt(s, i + |x|, y)
  {
    assert s[i..i + |x|] == s[i..i + |x + y|][..|x|];
    assert s[i + |x|..i + |x + y|] == s[i..i + |x + y|][|x|..];
  }

  lemma LiteralChars(s: string, i: nat, lit: string)
    requires LiteralAt(s, i, lit)
    ensures forall j :: i <= j < i + |lit| ==> s[j] == lit[j - i]
  {
    assert forall j :: i <= j < i + |lit| ==> s[j] == s[i..i + |lit|][j - i];
  }

  lemma IdTokenOfText(s: string, a: nat, c: Captures)
    requires IdShape(c.id) && TokenShape(c.token)
    requires var b := a + |c.id| + 1;
      && LiteralAt(s, a, c.id) && a + |c.id| < |s| && s[a + |c.id|] == '/' && LiteralAt(s, b, c.token)
      && (b + |c.token| == |s| || !IsTokenChar(s[b + |c.token|]))
    ensures IdTokenAt(s, a) == Some(c)
  {
    IdLenOfText(s, a, c.id);
    TokenLenOfText(s, a + |c.id| + 1, c.token);
  }

  lemma IdLenOfText(s: string, a: nat, id: string)
    requires IdShape(id) && LiteralAt(s, a, id) && a + |id| < |s| && s[a + |id|] == '/'
    ensures IdLen(s, a) == |id|
  {
    LiteralChars(s, a, id);
    RunCovers(s, a, |id|, IsWordChar);
  }

  lemma TokenLenOfText(s: string, b: nat, token: string)
    requires TokenShape(token) && LiteralAt(s, b, token)
    requires b + |token| == |s| || !IsTokenChar(s[b + |token|])
    ensures TokenLen(s, b) == |token|
  {
    LiteralChars(s, b, token);
    RunCovers(s, b, |token|, IsTokenChar);
  }
}
