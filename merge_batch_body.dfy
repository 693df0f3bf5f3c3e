/**
 * `mergeBatchBody` (src/helpers/merge-batch-body.ts): folds the payloads of a
 * batch into one request payload, field by field.
 *
 * - `content`: non-empty contents joined by "\n";
 * - `embeds`, `components`, `attachments`: the present arrays concatenated;
 *   the first present array is adopted (not copied) and later arrays are
 *   pushed into it, so the payload it came from sees the whole merged list;
 * - `username`, `avatar_url`, `allowed_mentions`, `tts`: assigned only when the
 *   incoming value is `null` or missing, so a value never survives.
 */
module MergeBatchBody {
  import opened Wrappers
  import opened Payloads

  /** One iteration of the loop body, on values. */
  function Step(acc: Payload, p: Payload): Payload {
    Payload(
      AppendText(acc.content, p.content),
      AppendList(acc.embeds, p.embeds),
      AppendList(acc.components, p.components),
      AppendList(acc.attachments, p.attachments),
      if IsNullish(p.username) then p.username else acc.username,
      if IsNullish(p.avatarUrl) then p.avatarUrl else acc.avatarUrl,
      if IsNullish(p.allowedMentions) then p.allowedMentions else acc.allowedMentions,
      if IsNullish(p.tts) then p.tts else acc.tts)
  }

  /** The merged payload: the loop run from `{}` over `ps` in order. */
  function MergeBatch(ps: seq<Payload>): Payload {
    if ps == [] then EmptyPayload else Step(MergeBatch(ps[..|ps| - 1]), ps[|ps| - 1])
  }

  /** The payload whose own array was adopted as the merged array `f`, if any. */
  function Holder(ps: seq<Payload>, f: ListField): Option<nat> {
    if ps == [] then None
    else
      var h := Holder(ps[..|ps| - 1], f);
      if h.Some? then h
      else if ListOf(ps[|ps| - 1], f).Present? then Some(|ps| - 1)
      else None
  }

  /** Which payload lent each merged array. */
  function HoldersOf(ps: seq<Payload>): Holders {
    Holders(Holder(ps, Embeds), Holder(ps, Components), Holder(ps, Attachments))
  }

  /**
   * The loop of `mergeBatchBody`, on the caller's array of payloads. Pushing
   * into an adopted array is visible through the payload that array came
   * from, so that payload is rewritten as each push happens.
   */
  method MergeBatchBody(payloads: array<Payload>) returns (merged: Payload)
    modifies payloads
    ensures merged == MergeBatch(old(payloads[..]))
    ensures forall j :: 0 <= j < payloads.Length ==>
              payloads[j] == Adopt(old(payloads[j]), j, HoldersOf(old(payloads[..])), merged)
  {
    ghost var ps := payloads[..];
    var acc := EmptyPayload;
    var hs := Holders(None, None, None);
    var i := 0;
    while i < payloads.Length
      invariant 0 <= i <= payloads.Length == |ps|
      invariant acc == MergeBatch(ps[..i]) && hs == HoldersOf(ps[..i])
      invariant payloads[..] == Lenders(ps, i, acc, hs)
    {
      acc, hs := MergeOne(payloads, i, acc, hs, ps);
      i := i + 1;
    }
    assert ps[..i] == ps;
    merged := acc;
  }

  /** One pass of the loop body: folds `payloads[i]` into `acc`. */
  method MergeOne(payloads: array<Payload>, i: nat, acc: Payload, hs: Holders, ghost ps: seq<Payload>)
      returns (acc': Payload, hs': Holders)
    requires i < payloads.Length == |ps|
    requires acc == MergeBatch(ps[..i]) && hs == HoldersOf(ps[..i])
    requires payloads[..] == Lenders(ps, i, acc, hs)
    modifies payloads
    ensures acc' == MergeBatch(ps[..i + 1]) && hs' == HoldersOf(ps[..i + 1])
    ensures payloads[..] == Lenders(ps, i + 1, acc', hs')
  {
    var payload := payloads[i];
    assert payload == ps[i];
    assert ps[..i + 1][..i] == ps[..i];
    LendersStep(ps, i);
    HolderBound(ps[..i], Embeds);
    HolderBound(ps[..i], Components);
    HolderBound(ps[..i], Attachments);
    var content := acc.content;
    if HasText(payload.content) {
      if HasText(content) {
        content := Present(content.value + "\n" + payload.content.value);
      } else {
        content := payload.content;
      }
    }
    var embeds, components, attachments, eh, ch, ah;
    embeds, eh := MergeList(payloads, i, Embeds, payload.embeds, acc.embeds, hs.embeds);
    components, ch := MergeList(payloads, i, Components, payload.components, acc.components, hs.components);
    attachments, ah := MergeList(payloads, i, Attachments, payload.attachments, acc.attachments, hs.attachments);
    var username, avatarUrl, allowedMentions, tts := acc.username, acc.avatarUrl, acc.allowedMentions, acc.tts;
    if IsNullish(payload.username) { username := payload.username; }
    if IsNullish(payload.avatarUrl) { avatarUrl := payload.avatarUrl; }
    if IsNullish(payload.allowedMentions) { allowedMentions := payload.allowedMentions; }
    if IsNullish(payload.tts) { tts := payload.tts; }
    acc' := Payload(content, embeds, components, attachments, username, avatarUrl, allowedMentions, tts);
    hs' := Holders(eh, ch, ah);
    assert acc' == Step(acc, payload);
  }

  /**
   * One `if (payload.xs) { ... }` block for array field `f`, where `xs` is the
   * incoming payload's array and `i` its index: push into the adopted array,
   * and so into the payload that lent it, or adopt `xs`.
   */
  method MergeList(payloads: array<Payload>, i: nat, f: ListField, xs: Field<seq<Json>>,
                   acc: Field<seq<Json>>, holder: Option<nat>)
      returns (acc': Field<seq<Json>>, holder': Option<nat>)
    requires holder.Some? <==> acc.Present?
    requires holder.Some? ==> holder.value < payloads.Length
    modifies payloads
    ensures acc' == AppendList(acc, xs)
    ensures holder' == Extend(holder, xs, i)
    ensures payloads[..] == Lend(old(payloads[..]), f, holder, xs, acc')
  {
    acc', holder' := acc, holder;
    if xs.Present? {
      if acc.Present? {
        acc' := Present(acc.value + xs.value);
        payloads[holder.value] := WithList(payloads[holder.value], f, acc');
      } else {
        acc' := xs;
        holder' := Some(i);
      }
    }
  }

  /** The three array blocks of one iteration take `Lenders` one step further. */
  lemma LendersStep(ps: seq<Payload>, i: nat)
    requires i < |ps|
    ensures
      var m, x, hs := MergeBatch(ps[..i]), ps[i], HoldersOf(ps[..i]);
      var m' := Step(m, x);
      var a1 := Lend(Lenders(ps, i, m, hs), Embeds, hs.embeds, x.embeds, m'.embeds);
      var a2 := Lend(a1, Components, hs.components, x.components, m'.components);
      var a3 := Lend(a2, Attachments, hs.attachments, x.attachments, m'.attachments);
      a3 == Lenders(ps, i + 1, m', HoldersOf(ps[..i + 1]))
  {
    var m, x, hs := MergeBatch(ps[..i]), ps[i], HoldersOf(ps[..i]);
    var m' := Step(m, x);
    assert ps[..i + 1][..i] == ps[..i];
    HolderBound(ps[..i], Embeds);
    HolderBound(ps[..i], Components);
    HolderBound(ps[..i], Attachments);
    var hs' := HoldersOf(ps[..i + 1]);
    assert hs'.embeds == Extend(hs.embeds, x.embeds, i);
    assert hs'.components == Extend(hs.components, x.components, i);
    assert hs'.attachments == Extend(hs.attachments, x.attachments, i);
    LendersExtend(ps, i, m, m', x, hs, hs');
  }

  /** The holder after one more payload `x` at index `i`. */
  function Extend(h: Option<nat>, x: Field<seq<Json>>, i: nat): Option<nat> {
    if h.Some? then h else if x.Present? then Some(i) else None
  }

  lemma LendersExtend(ps: seq<Payload>, i: nat, m: Payload, m': Payload, x: Payload, hs: Holders, hs': Holders)
    requires i < |ps| && x == ps[i]
    requires hs.embeds.Some? ==> hs.embeds.value < i
    requires hs.components.Some? ==> hs.components.value < i
    requires hs.attachments.Some? ==> hs.attachments.value < i
    requires hs.embeds.Some? <==> m.embeds.Present?
    requires hs.components.Some? <==> m.components.Present?
    requires hs.attachments.Some? <==> m.attachments.Present?
    requires m'.embeds == AppendList(m.embeds, x.embeds) && hs'.embeds == Extend(hs.embeds, x.embeds, i)
    requires m'.components == AppendList(m.components, x.components) && hs'.components == Extend(hs.components, x.components, i)
    requires m'.attachments == AppendList(m.attachments, x.attachments) && hs'.attachments == Extend(hs.attachments, x.attachments, i)
    ensures
      var a1 := Lend(Lenders(ps, i, m, hs), Embeds, hs.embeds, x.embeds, m'.embeds);
      var a2 := Lend(a1, Components, hs.components, x.components, m'.components);
      var a3 := Lend(a2, Attachments, hs.attachments, x.attachments, m'.attachments);
      a3 == Lenders(ps, i + 1, m', hs')
  {
    var a1 := Lend(Lenders(ps, i, m, hs), Embeds, hs.embeds, x.embeds, m'.embeds);
    var a2 := Lend(a1, Components, hs.components, x.components, m'.components);
    var a3 := Lend(a2, Attachments, hs.attachments, x.attachments, m'.attachments);
    var b := Lenders(ps, i + 1, m', hs');
    forall j | 0 <= j < |ps|
      ensures a3[j] == b[j]
    {
      var a0 := Lenders(ps, i, m, hs);
      assert a0[j] == if j < i then Adopt(ps[j], j, hs, m) else ps[j];
      assert a3[j].embeds == (if hs.embeds == Some(j) && x.embeds.Present? then m'.embeds else a0[j].embeds);
      assert a3[j].components == (if hs.components == Some(j) && x.components.Present? then m'.components else a0[j].components);
      assert a3[j].attachments == (if hs.attachments == Some(j) && x.attachments.Present? then m'.attachments else a0[j].attachments);
      assert a3[j].content == a0[j].content && a3[j].username == a0[j].username && a3[j].avatarUrl == a0[j].avatarUrl;
      assert a3[j].allowedMentions == a0[j].allowedMentions && a3[j].tts == a0[j].tts;
      AdoptExtend(ps[j], j, i, m, m', x, hs, hs');
    }
  }

  lemma AdoptExtend(p: Payload, j: nat, i: nat, m: Payload, m': Payload, x: Payload, hs: Holders, hs': Holders)
    requires j == i ==> p == x
    requires hs.embeds.Some? ==> hs.embeds.value < i
    requires hs.components.Some? ==> hs.components.value < i
    requires hs.attachments.Some? ==> hs.attachments.value < i
    requires hs.embeds.Some? <==> m.embeds.Present?
    requires hs.components.Some? <==> m.components.Present?
    requires hs.attachments.Some? <==> m.attachments.Present?
    requires m'.embeds == AppendList(m.embeds, x.embeds) && hs'.embeds == Extend(hs.embeds, x.embeds, i)
    requires m'.components == AppendList(m.components, x.components) && hs'.components == Extend(hs.components, x.components, i)
    requires m'.attachments == AppendList(m.attachments, x.attachments) && hs'.attachments == Extend(hs.attachments, x.attachments, i)
    ensures
      var a0 := if j < i then Adopt(p, j, hs, m) else p;
      var b := if j < i + 1 then Adopt(p, j, hs', m') else p;
      b.content == a0.content && b.username == a0.username && b.avatarUrl == a0.avatarUrl
      && b.allowedMentions == a0.allowedMentions && b.tts == a0.tts
      && b.embeds == (if hs.embeds == Some(j) && x.embeds.Present? then m'.embeds else a0.embeds)
      && b.components == (if hs.components == Some(j) && x.components.Present? then m'.components else a0.components)
      && b.attachments == (if hs.attachments == Some(j) && x.attachments.Present? then m'.attachments else a0.attachments)
  {
  }

  /** A holder lies inside the list, carries the array, and the merged array exists exactly when it does. */
  lemma {:induction false} HolderBound(ps: seq<Payload>, f: ListField)
    ensures Holder(ps, f).Some? <==> ListOf(MergeBatch(ps), f).Present?
    ensures Holder(ps, f).Some? ==> Holder(ps, f).value < |ps| && ListOf(ps[Holder(ps, f).value], f).Present?
    decreases |ps|
  {
    if ps != [] {
      HolderBound(ps[..|ps| - 1], f);
    }
  }

  /** The array that a step leaves in field `f`. */
  lemma StepList(acc: Payload, p: Payload, f: ListField)
    ensures ListOf(Step(acc, p), f) == AppendList(ListOf(acc, f), ListOf(p, f))
  {
  }

  /** The lender of array `f` is the first payload that carries one. */
  lemma {:induction false} HolderIsFirst(ps: seq<Payload>, f: ListField)
    ensures Holder(ps, f).Some? <==> AnyList(ps, f)
    ensures Holder(ps, f).Some? ==>
              var h := Holder(ps, f).value;
              h < |ps| && ListOf(ps[h], f).Present? && forall j :: 0 <= j < h ==> !ListOf(ps[j], f).Present?
    decreases |ps|
  {
    if ps != [] {
      var pre := ps[..|ps| - 1];
      HolderIsFirst(pre, f);
      assert forall j :: 0 <= j < |pre| ==> pre[j] == ps[j];
    }
  }

  /** Merged `content`: the non-empty contents in input order, joined by "\n"; absent if there are none. */
  lemma {:induction false} MergeBatchContent(ps: seq<Payload>)
    ensures MergeBatch(ps).content == JoinedContent(ps)
    decreases |ps|
  {
    if ps != [] {
      var pre, last := ps[..|ps| - 1], ps[|ps| - 1];
      MergeBatchContent(pre);
      var ts, t := Texts(pre), Texts(ps);
      assert MergeBatch(ps).content == AppendText(MergeBatch(pre).content, last.content);
      assert t == ts + (if HasText(last.content) then [last.content.value] else []);
      if HasText(last.content) {
        if ts == [] {
          assert t == [last.content.value];
          assert JoinedContent(ps) == last.content;
        } else {
          JoinLinesNonEmpty(ts);
          assert t[..|t| - 1] == ts;
          assert JoinLines(t) == JoinLines(ts) + "\n" + last.content.value;
          assert JoinedContent(ps) == Present(JoinLines(ts) + "\n" + last.content.value);
          assert HasText(MergeBatch(pre).content);
        }
      } else {
        assert t == ts;
      }
    }
  }

  /** Merged arrays: present iff some payload carries one (even empty), and then the in-order concatenation. */
  lemma {:induction false} MergeBatchList(ps: seq<Payload>, f: ListField)
    ensures ListOf(MergeBatch(ps), f) == JoinedList(ps, f)
    decreases |ps|
  {
    if ps != [] {
      var pre, last := ps[..|ps| - 1], ps[|ps| - 1];
      MergeBatchList(pre, f);
      StepList(MergeBatch(pre), last, f);
      assert pre + [last] == ps;
      AnyListAppend(pre, [last], f);
      assert AnyList([last], f) <==> ListOf(last, f).Present? by {
        assert [last][0] == last;
      }
      var x := ListOf(last, f);
      assert MergeBatch(ps) == Step(MergeBatch(pre), last);
      assert ListOf(MergeBatch(ps), f) == AppendList(JoinedList(pre, f), x);
      assert AnyList(ps, f) <==> AnyList(pre, f) || x.Present?;
      assert ConcatLists(ps, f) == ConcatLists(pre, f) + (if x.Present? then x.value else []);
      if !AnyList(pre, f) {
        ConcatListsNone(pre, f);
        if x.Present? {
          assert ConcatLists(ps, f) == x.value;
          assert JoinedList(ps, f) == x;
        } else {
          assert JoinedList(ps, f) == Absent;
        }
      } else if !x.Present? {
        assert ConcatLists(ps, f) == ConcatLists(pre, f) + [];
        assert ConcatLists(pre, f) + [] == ConcatLists(pre, f);
      }
    }
  }

  /**
   * Display name, avatar, mention policy and text-to-speech flag are only ever
   * assigned `null` or `undefined`: the merged payload never carries a value
   * for them, not even when every payload sets one.
   */
  lemma {:induction false} MergeBatchDropsScalars(ps: seq<Payload>)
    ensures var m := MergeBatch(ps);
      IsNullish(m.username) && IsNullish(m.avatarUrl) && IsNullish(m.allowedMentions) && IsNullish(m.tts)
    ensures (forall i :: 0 <= i < |ps| ==> ps[i].username.Present?) ==> MergeBatch(ps).username == Absent
    decreases |ps|
  {
    if ps != [] {
      var pre := ps[..|ps| - 1];
      assert forall j :: 0 <= j < |pre| ==> pre[j] == ps[j];
      MergeBatchDropsScalars(pre);
    }
  }

  /** No payloads merge into `{}`; one payload merges into its own content (if non-empty) and arrays. */
  lemma MergeBatchEmptyAndSingle(p: Payload)
    ensures MergeBatch([]) == EmptyPayload
    ensures MergeBatch([p]).content == if HasText(p.content) then p.content else Absent
    ensures forall f :: ListOf(MergeBatch([p]), f) == if ListOf(p, f).Present? then ListOf(p, f) else Absent
  {
    assert [p][..0] == [];
    forall f
      ensures ListOf(MergeBatch([p]), f) == if ListOf(p, f).Present? then ListOf(p, f) else Absent
    {
      StepList(EmptyPayload, p, f);
    }
  }

  /**
   * Merging is compositional on content and arrays: merging `xs + ys` gives
   * the same content and arrays as merging the two partial merges.
   */
  lemma MergeBatchSplit(xs: seq<Payload>, ys: seq<Payload>)
    ensures var whole, parts := MergeBatch(xs + ys), MergeBatch([MergeBatch(xs), MergeBatch(ys)]);
      whole.content == parts.content && forall f :: ListOf(whole, f) == ListOf(parts, f)
  {
    var a, b := MergeBatch(xs), MergeBatch(ys);
    var two := [a, b];
    assert two[..1] == [a] && [a][..0] == [];
    assert MergeBatch([a]) == Step(EmptyPayload, a);
    assert MergeBatch(two) == Step(MergeBatch([a]), b);
    MergeBatchContent(xs + ys);
    MergeBatchContent(xs);
    MergeBatchContent(ys);
    JoinedContentAppend(xs, ys);
    assert MergeBatch(two).content == AppendText(AppendText(Absent, a.content), b.content);
    // arrays
    forall f
      ensures ListOf(MergeBatch(xs + ys), f) == ListOf(MergeBatch(two), f)
    {
      MergeBatchList(xs + ys, f);
      MergeBatchList(xs, f);
      MergeBatchList(ys, f);
      JoinedListAppend(xs, ys, f);
      StepList(EmptyPayload, a, f);
      StepList(a, b, f);
    }
  }

  /** Joining the contents of `xs + ys` appends the joined contents of each part. */
  lemma JoinedContentAppend(xs: seq<Payload>, ys: seq<Payload>)
    ensures JoinedContent(xs + ys) == AppendText(JoinedContent(xs), JoinedContent(ys))
  {
    TextsAppend(xs, ys);
    var tx, ty := Texts(xs), Texts(ys);
    if tx != [] { JoinLinesNonEmpty(tx); }
    if ty != [] { JoinLinesNonEmpty(ty); }
    if tx != [] && ty != [] { JoinLinesAppend(tx, ty); }
    if tx == [] { assert tx + ty == ty; }
    if ty == [] { assert tx + ty == tx; }
  }

  /** Joining the arrays of `xs + ys` appends the joined arrays of each part. */
  lemma JoinedListAppend(xs: seq<Payload>, ys: seq<Payload>, f: ListField)
    ensures JoinedList(xs + ys, f) == AppendList(JoinedList(xs, f), JoinedList(ys, f))
  {
    ConcatListsAppend(xs, ys, f);
    AnyListAppend(xs, ys, f);
    if !AnyList(xs, f) { ConcatListsNone(xs, f); assert [] + ConcatLists(ys, f) == ConcatLists(ys, f); }
    if !AnyList(ys, f) { ConcatListsNone(ys, f); assert ConcatLists(xs, f) + [] == ConcatLists(xs, f); }
  }

}
