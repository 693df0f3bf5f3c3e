/**
 * `mergeRequestBody` (src/helpers/merge-request-body.ts): the merger used by
 * the older server. It looks at `content`, `embeds` and `components` only,
 * and each `continue` skips what is left of the current payload:
 *
 * - content appended to existing content ends the payload's turn;
 * - embeds pushed into existing embeds end it before its components.
 *
 * Adopted arrays are shared with the payload they came from, as in
 * `mergeBatchBody`.
 */
module MergeRequestBody {
  import opened Wrappers
  import opened Payloads
  import MergeBatchBody

  /** One pass of the `for ... of` body, on values. */
  function RequestStep(acc: Payload, p: Payload): Payload {
    if HasText(p.content) && HasText(acc.content) then
      acc.(content := Present(acc.content.value + "\n" + p.content.value))
    else
      var a := if HasText(p.content) then acc.(content := p.content) else acc;
      if p.embeds.Present? && a.embeds.Present? then
        a.(embeds := Present(a.embeds.value + p.embeds.value))
      else
        var b := if p.embeds.Present? then a.(embeds := p.embeds) else a;
        b.(components := AppendList(b.components, p.components))
  }

  /** The merged payload: the loop run from `{}` over `ps` in order. */
  function MergeRequest(ps: seq<Payload>): Payload {
    if ps == [] then EmptyPayload else RequestStep(MergeRequest(ps[..|ps| - 1]), ps[|ps| - 1])
  }

  /** The payload whose own array became the merged array `f`: the one that first sets it. */
  function RequestHolder(ps: seq<Payload>, f: ListField): Option<nat> {
    if ps == [] then None
    else
      var h := RequestHolder(ps[..|ps| - 1], f);
      if h.Some? then h
      else if ListOf(MergeRequest(ps), f).Present? then Some(|ps| - 1)
      else None
  }

  /** Which payload lent each merged array; attachments are never merged. */
  function RequestHoldersOf(ps: seq<Payload>): Holders {
    Holders(RequestHolder(ps, Embeds), RequestHolder(ps, Components), None)
  }

  /**
   * The loop of `mergeRequestBody`, on the caller's array of payloads, with
   * its `continue`s. A push into an adopted array is seen through the payload
   * that lent it.
   */
  method MergeRequestBody(payloads: array<Payload>) returns (merged: Payload)
    modifies payloads
    ensures merged == MergeRequest(old(payloads[..]))
    ensures forall j :: 0 <= j < payloads.Length ==>
              payloads[j] == Adopt(old(payloads[j]), j, RequestHoldersOf(old(payloads[..])), merged)
  {
    ghost var ps := payloads[..];
    var acc := EmptyPayload;
    var eh: Option<nat>, ch: Option<nat> := None, None;
    for i := 0 to payloads.Length
      invariant |ps| == payloads.Length
      invariant acc == MergeRequest(ps[..i])
      invariant Holders(eh, ch, None) == RequestHoldersOf(ps[..i])
      invariant payloads[..] == Lenders(ps, i, acc, Holders(eh, ch, None))
    {
      var payload := payloads[i];
      ghost var acc0 := acc;
      EnterPayload(ps, i);
      LendersEnter(ps, i, acc, Holders(eh, ch, None));
      if HasText(payload.content) {
        if HasText(acc.content) {
          LendersContent(ps, i + 1, acc, Holders(eh, ch, None), Present(acc.content.value + "\n" + payload.content.value));
          acc := acc.(content := Present(acc.content.value + "\n" + payload.content.value));
          continue;
        }
        LendersContent(ps, i + 1, acc, Holders(eh, ch, None), payload.content);
        acc := acc.(content := payload.content);
      }

      if payload.embeds.Present? {
        if acc.embeds.Present? {
          var embeds := Present(acc.embeds.value + payload.embeds.value);
          LendersPush(ps, i + 1, acc, Holders(eh, ch, None), Embeds, embeds);
          payloads[eh.value] := WithList(payloads[eh.value], Embeds, embeds);
          acc := acc.(embeds := embeds);
          continue;
        }
        LendersAdopt(ps, i, acc, Holders(eh, ch, None), Embeds);
        acc := acc.(embeds := payload.embeds);
        eh := Some(i);
      }

      if payload.components.Present? {
        if acc.components.Present? {
          var components := Present(acc.components.value + payload.components.value);
          LendersPush(ps, i + 1, acc, Holders(eh, ch, None), Components, components);
          payloads[ch.value] := WithList(payloads[ch.value], Components, components);
          acc := acc.(components := components);
          continue;
        }
        LendersAdopt(ps, i, acc, Holders(eh, ch, None), Components);
        acc := acc.(components := payload.components);
        ch := Some(i);
      }
    }
    assert ps[..payloads.Length] == ps;
    merged := acc;
  }

  /** What the loop knows on reaching payload `i`. */
  lemma EnterPayload(ps: seq<Payload>, i: nat)
    requires i < |ps|
    ensures ps[..i + 1][..i] == ps[..i] && ps[..i + 1][i] == ps[i]
    ensures MergeRequest(ps[..i + 1]) == RequestStep(MergeRequest(ps[..i]), ps[i])
    ensures HoldersBelow(RequestHoldersOf(ps[..i]), i)
    ensures RequestHolder(ps[..i], Embeds).Some? <==> MergeRequest(ps[..i]).embeds.Present?
    ensures RequestHolder(ps[..i], Components).Some? <==> MergeRequest(ps[..i]).components.Present?
    ensures forall f :: RequestHolder(ps[..i + 1], f)
              == if RequestHolder(ps[..i], f).Some? then RequestHolder(ps[..i], f)
                 else if ListOf(MergeRequest(ps[..i + 1]), f).Present? then Some(i) else None
  {
    assert ps[..i + 1][..i] == ps[..i];
    RequestHolderBound(ps[..i], Embeds);
    RequestHolderBound(ps[..i], Components);
    var hs := RequestHoldersOf(ps[..i]);
    forall f ensures HolderOf(hs, f).Some? ==> HolderOf(hs, f).value < i {
      if f != Attachments { RequestHolderBound(ps[..i], f); }
    }
  }

  /** A lender lies inside the list, and the merged array exists exactly when it does. */
  lemma {:induction false} RequestHolderBound(ps: seq<Payload>, f: ListField)
    ensures RequestHolder(ps, f).Some? <==> ListOf(MergeRequest(ps), f).Present?
    ensures RequestHolder(ps, f).Some? ==> RequestHolder(ps, f).value < |ps|
    decreases |ps|
  {
    if ps != [] {
      var pre := ps[..|ps| - 1];
      RequestHolderBound(pre, f);
      if RequestHolder(pre, f).Some? {
        assert ListOf(MergeRequest(ps), f).Present? by {
          assert MergeRequest(ps) == RequestStep(MergeRequest(pre), ps[|ps| - 1]);
        }
      }
    }
  }

  // ---------------------------------------------------------------------
  // A reference description: which payloads reach which block.
  // ---------------------------------------------------------------------

  /** Payload `p`, after `pre`, appends its content and so stops at the first `continue`. */
  predicate AppendsContent(pre: seq<Payload>, p: Payload) {
    HasText(p.content) && Texts(pre) != []
  }

  /** The payloads that reach the `embeds` block, in input order. */
  function EmbedsBlock(ps: seq<Payload>): seq<Payload> {
    if ps == [] then []
    else
      var pre, p := ps[..|ps| - 1], ps[|ps| - 1];
      EmbedsBlock(pre) + (if AppendsContent(pre, p) then [] else [p])
  }

  /** Payload `p`, after `pre`, appends embeds and so stops at the second `continue`. */
  predicate AppendsEmbeds(pre: seq<Payload>, p: Payload) {
    !AppendsContent(pre, p) && p.embeds.Present? && AnyList(EmbedsBlock(pre), Embeds)
  }

  /** The payloads that reach the `components` block, in input order. */
  function ComponentsBlock(ps: seq<Payload>): seq<Payload> {
    if ps == [] then []
    else
      var pre, p := ps[..|ps| - 1], ps[|ps| - 1];
      ComponentsBlock(pre) + (if AppendsContent(pre, p) || AppendsEmbeds(pre, p) then [] else [p])
  }

  /**
   * The merged request: the non-empty contents joined by "\n"; the embeds of
   * the payloads that reach the embeds block, concatenated; the components of
   * the payloads that reach the components block, concatenated; nothing else.
   */
  lemma {:induction false} MergeRequestMeaning(ps: seq<Payload>)
    ensures var m := MergeRequest(ps);
      && m.content == JoinedContent(ps)
      && m.embeds == JoinedList(EmbedsBlock(ps), Embeds)
      && m.components == JoinedList(ComponentsBlock(ps), Components)
      && m.attachments == Absent && m.username == Absent && m.avatarUrl == Absent
      && m.allowedMentions == Absent && m.tts == Absent
    decreases |ps|
  {
    if ps != [] {
      var pre, p := ps[..|ps| - 1], ps[|ps| - 1];
      MergeRequestMeaning(pre);
      var m0, m := MergeRequest(pre), MergeRequest(ps);
      assert m == RequestStep(m0, p);
      assert pre + [p] == ps;
      TextsAppend(pre, [p]);
      assert [p][..0] == [];
      assert Texts([p]) == if HasText(p.content) then [p.content.value] else [];
      assert HasText(m0.content) <==> Texts(pre) != [] by {
        if Texts(pre) != [] { JoinLinesNonEmpty(Texts(pre)); }
      }
      ContentStep(pre, p);
      var eb, cb := EmbedsBlock(pre), ComponentsBlock(pre);
      ListStep(eb, p, Embeds);
      ListStep(cb, p, Components);
      assert m0.embeds.Present? <==> AnyList(eb, Embeds);
      if AppendsContent(pre, p) {
        assert EmbedsBlock(ps) == eb + [];
        assert ComponentsBlock(ps) == cb + [];
        assert eb + [] == eb && cb + [] == cb;
      } else {
        assert EmbedsBlock(ps) == eb + [p];
        assert m.embeds == AppendList(m0.embeds, p.embeds);
        if AppendsEmbeds(pre, p) {
          assert ComponentsBlock(ps) == cb + [];
          assert cb + [] == cb;
        } else {
          assert ComponentsBlock(ps) == cb + [p];
          assert m.components == AppendList(m0.components, p.components);
        }
      }
    }
  }

  /**
   * A payload whose content is appended to earlier content contributes
   * nothing else: its embeds and components are skipped.
   */
  lemma MergeRequestSkipsAfterContent(pre: seq<Payload>, p: Payload)
    requires HasText(p.content) && Texts(pre) != []
    ensures var m0, m := MergeRequest(pre), MergeRequest(pre + [p]);
      m0.content.Present? && m.content == Present(m0.content.value + "\n" + p.content.value)
      && m.embeds == m0.embeds && m.components == m0.components
  {
    var q := pre + [p];
    assert q[..|q| - 1] == pre && q[|q| - 1] == p;
    MergeRequestMeaning(pre);
    JoinLinesNonEmpty(Texts(pre));
  }

  /** A payload whose embeds are pushed onto earlier embeds contributes no components. */
  lemma MergeRequestSkipsAfterEmbeds(pre: seq<Payload>, p: Payload)
    requires AppendsEmbeds(pre, p)
    ensures var m0, m := MergeRequest(pre), MergeRequest(pre + [p]);
      m0.embeds.Present? && m.embeds == Present(m0.embeds.value + p.embeds.value)
      && m.components == m0.components
  {
    var q := pre + [p];
    assert q[..|q| - 1] == pre && q[|q| - 1] == p;
    MergeRequestMeaning(pre);
    assert HasText(MergeRequest(pre).content) <==> Texts(pre) != [] by {
      if Texts(pre) != [] { JoinLinesNonEmpty(Texts(pre)); }
    }
  }

  /**
   * The first payload with non-empty content seeds `content` and goes on to
   * contribute its embeds, and its components unless its embeds were pushed.
   */
  lemma MergeRequestSeed(pre: seq<Payload>, p: Payload)
    requires HasText(p.content) && Texts(pre) == []
    ensures var m0, m := MergeRequest(pre), MergeRequest(pre + [p]);
      m.content == p.content
      && m.embeds == AppendList(m0.embeds, p.embeds)
      && m.components == if AppendsEmbeds(pre, p) then m0.components
                         else AppendList(m0.components, p.components)
  {
    var q := pre + [p];
    assert q[..|q| - 1] == pre && q[|q| - 1] == p;
    MergeRequestMeaning(pre);
    var m0 := MergeRequest(pre);
    assert !HasText(m0.content);
    assert !AppendsContent(pre, p);
    assert AppendsEmbeds(pre, p) <==> p.embeds.Present? && m0.embeds.Present?;
    assert MergeRequest(q) == RequestStep(m0, p);
  }

  /** No payloads merge into `{}`; one payload merges into its own content (if non-empty), embeds and components. */
  lemma MergeRequestEmptyAndSingle(p: Payload)
    ensures MergeRequest([]) == EmptyPayload
    ensures MergeRequest([p]) == Payload(
      if HasText(p.content) then p.content else Absent,
      if p.embeds.Present? then p.embeds else Absent,
      if p.components.Present? then p.components else Absent,
      Absent, Absent, Absent, Absent, Absent)
  {
    assert [p][..0] == [];
  }

  /**
   * The two mergers agree on `content`; without any content they agree on
   * `embeds` too, and without content or embeds on `components` as well.
   */
  lemma MergersAgree(ps: seq<Payload>)
    ensures MergeRequest(ps).content == MergeBatchBody.MergeBatch(ps).content
    ensures Texts(ps) == [] ==> MergeRequest(ps).embeds == MergeBatchBody.MergeBatch(ps).embeds
    ensures Texts(ps) == [] && !AnyList(ps, Embeds) ==>
              MergeRequest(ps).components == MergeBatchBody.MergeBatch(ps).components
  {
    MergeRequestMeaning(ps);
    MergeBatchBody.MergeBatchContent(ps);
    MergeBatchBody.MergeBatchList(ps, Embeds);
    MergeBatchBody.MergeBatchList(ps, Components);
    BlocksWithoutContent(ps);
  }

  /** Without content every payload reaches the embeds block, and without embeds too, the components block. */
  lemma {:induction false} BlocksWithoutContent(ps: seq<Payload>)
    ensures Texts(ps) == [] ==> EmbedsBlock(ps) == ps
    ensures Texts(ps) == [] && !AnyList(ps, Embeds) ==> ComponentsBlock(ps) == ps
    decreases |ps|
  {
    if ps != [] {
      var pre, p := ps[..|ps| - 1], ps[|ps| - 1];
      BlocksWithoutContent(pre);
      assert pre + [p] == ps;
      AnyListAppend(pre, [p], Embeds);
      if Texts(ps) == [] {
        assert Texts(pre) == [];
        assert !AppendsContent(pre, p);
        if !AnyList(ps, Embeds) {
          assert !AnyList(pre, Embeds);
          assert !AppendsEmbeds(pre, p);
        }
      }
    }
  }

  /** The merged content after one more payload, in terms of the contents joined so far. */
  lemma ContentStep(pre: seq<Payload>, p: Payload)
    ensures JoinedContent(pre + [p]) == AppendText(JoinedContent(pre), p.content)
  {
    var q := pre + [p];
    assert q[..|q| - 1] == pre && q[|q| - 1] == p;
    var ts := Texts(pre);
    assert Texts(q) == ts + (if HasText(p.content) then [p.content.value] else []);
    if ts != [] {
      JoinLinesNonEmpty(ts);
    }
    if HasText(p.content) {
      var t := ts + [p.content.value];
      assert t[..|t| - 1] == ts && t[|t| - 1] == p.content.value;
      if ts != [] {
        assert JoinLines(t) == JoinLines(ts) + "\n" + p.content.value;
      } else {
        assert t == [p.content.value];
      }
    } else {
      assert Texts(q) == ts;
    }
  }

  /** Joining the arrays of one more payload appends its array, if it has one. */
  lemma ListStep(pre: seq<Payload>, p: Payload, f: ListField)
    ensures JoinedList(pre + [p], f) == AppendList(JoinedList(pre, f), ListOf(p, f))
  {
    var q := pre + [p];
    assert q[..|q| - 1] == pre && q[|q| - 1] == p;
    assert ConcatLists(q, f) == ConcatLists(pre, f) + (if ListOf(p, f).Present? then ListOf(p, f).value else []);
    AnyListAppend(pre, [p], f);
    assert AnyList([p], f) <==> ListOf(p, f).Present? by {
      assert [p][0] == p;
    }
    var x := ListOf(p, f);
    if !AnyList(pre, f) {
      ConcatListsNone(pre, f);
      if x.Present? { assert ConcatLists(q, f) == x.value; }
    } else if !x.Present? {
      assert ConcatLists(pre, f) + [] == ConcatLists(pre, f);
    }
  }

}
