/**
 * The webhook message payload as the TypeScript proxy sees it after
 * `request.json()`: every field may be missing, explicitly `null`, or carry
 * a value. Embed, component, attachment and allowed-mentions objects are
 * never looked into, so they are carried as opaque JSON text.
 */
module Payloads {
  import opened Wrappers

  /** A JSON field: missing (`undefined`), `null`, or a value. */
  datatype Field<+T> = Absent | Null | Present(value: T)

  /** An opaque JSON object (an embed, a component, an attachment, a mention policy). */
  type Json = string

  datatype Payload = Payload(
    content: Field<string>,
    embeds: Field<seq<Json>>,
    components: Field<seq<Json>>,
    attachments: Field<seq<Json>>,
    username: Field<string>,
    avatarUrl: Field<string>,
    allowedMentions: Field<Json>,
    tts: Field<bool>)

  /** The object literal `{}` every merge starts from. */
  const EmptyPayload: Payload :=
    Payload(Absent, Absent, Absent, Absent, Absent, Absent, Absent, Absent)

  /** JavaScript truthiness of a string field: present and not the empty string. */
  predicate HasText(f: Field<string>) {
    f.Present? && f.value != ""
  }

  /** JavaScript `x == null`: true for both `undefined` and `null`. */
  predicate IsNullish<T>(f: Field<T>) {
    !f.Present?
  }

  /** The three array-valued fields that the mergers concatenate. */
  datatype ListField = Embeds | Components | Attachments

  function ListOf(p: Payload, f: ListField): Field<seq<Json>> {
    match f
    case Embeds => p.embeds
    case Components => p.components
    case Attachments => p.attachments
  }

  function WithList(p: Payload, f: ListField, v: Field<seq<Json>>): (r: Payload)
    ensures ListOf(r, f) == v
    ensures forall g :: g != f ==> ListOf(r, g) == ListOf(p, g)
    ensures r.content == p.content && r.username == p.username && r.avatarUrl == p.avatarUrl
    ensures r.allowedMentions == p.allowedMentions && r.tts == p.tts
  {
    match f
    case Embeds => p.(embeds := v)
    case Components => p.(components := v)
    case Attachments => p.(attachments := v)
  }

  /**
   * The `if (payload.xs) { if (acc.xs) acc.xs.push(...payload.xs) else acc.xs = payload.xs }`
   * block on values: an array, even an empty one, is truthy; `null` and a missing
   * field are not.
   */
  function AppendList(acc: Field<seq<Json>>, x: Field<seq<Json>>): Field<seq<Json>> {
    if x.Present? then
      if acc.Present? then Present(acc.value + x.value) else x
    else acc
  }

  /** The `if (payload.content)` block: append after a newline, or seed the field. */
  function AppendText(acc: Field<string>, x: Field<string>): Field<string> {
    if HasText(x) then
      if HasText(acc) then Present(acc.value + "\n" + x.value) else x
    else acc
  }

  /** Non-empty contents of the payloads, in input order. */
  function Texts(ps: seq<Payload>): (r: seq<string>)
    ensures forall i :: 0 <= i < |r| ==> r[i] != ""
  {
    if ps == [] then []
    else
      var last := ps[|ps| - 1];
      Texts(ps[..|ps| - 1]) + (if HasText(last.content) then [last.content.value] else [])
  }

  /** `xs.join("\n")` for a non-empty list. */
  function JoinLines(xs: seq<string>): string
    requires xs != []
  {
    if |xs| == 1 then xs[0] else JoinLines(xs[..|xs| - 1]) + "\n" + xs[|xs| - 1]
  }

  /** Reference meaning of a merged `content`: the non-empty contents joined by newlines. */
  function JoinedContent(ps: seq<Payload>): Field<string> {
    var ts := Texts(ps);
    if ts == [] then Absent else Present(JoinLines(ts))
  }

  /** Whether some payload carries the array field `f` (an empty array counts). */
  predicate AnyList(ps: seq<Payload>, f: ListField) {
    exists i :: 0 <= i < |ps| && ListOf(ps[i], f).Present?
  }

  /** The in-order concatenation of the arrays that are present. */
  function ConcatLists(ps: seq<Payload>, f: ListField): seq<Json> {
    if ps == [] then []
    else
      var last := ListOf(ps[|ps| - 1], f);
      ConcatLists(ps[..|ps| - 1], f) + (if last.Present? then last.value else [])
  }

  /** Reference meaning of a merged array field. */
  function JoinedList(ps: seq<Payload>, f: ListField): Field<seq<Json>> {
    if AnyList(ps, f) then Present(ConcatLists(ps, f)) else Absent
  }

  /**
   * Which payload, if any, lent its own array object to each merged array
   * field: the merged array is that payload's array, extended in place.
   */
  datatype Holders = Holders(embeds: Option<nat>, components: Option<nat>, attachments: Option<nat>)

  /** Payload `p`, at index `j`, once every array it lent to the merged payload `m` has grown into `m`'s. */
  function Adopt(p: Payload, j: nat, hs: Holders, m: Payload): Payload {
    var p1 := if hs.embeds == Some(j) then p.(embeds := m.embeds) else p;
    var p2 := if hs.components == Some(j) then p1.(components := m.components) else p1;
    if hs.attachments == Some(j) then p2.(attachments := m.attachments) else p2
  }

  /** The payloads after a push of `x` into the array lent by `holder`, which now reads `v`. */
  function Lend(a: seq<Payload>, f: ListField, holder: Option<nat>, x: Field<seq<Json>>, v: Field<seq<Json>>): seq<Payload> {
    if holder.Some? && holder.value < |a| && x.Present? then a[holder.value := WithList(a[holder.value], f, v)] else a
  }

  /** The caller's payloads after a merge loop has visited `ps[..i]`, with accumulator `m` and lenders `hs`. */
  function Lenders(ps: seq<Payload>, i: nat, m: Payload, hs: Holders): (r: seq<Payload>)
    requires i <= |ps|
    ensures |r| == |ps|
  {
    seq(|ps|, j requires 0 <= j < |ps| => if j < i then Adopt(ps[j], j, hs, m) else ps[j])
  }

  /** The lender of array field `f`. */
  function HolderOf(hs: Holders, f: ListField): Option<nat> {
    match f
    case Embeds => hs.embeds
    case Components => hs.components
    case Attachments => hs.attachments
  }

  /** `hs` with the lender of `f` set to `h`. */
  function WithHolder(hs: Holders, f: ListField, h: Option<nat>): (r: Holders)
    ensures HolderOf(r, f) == h && forall g :: g != f ==> HolderOf(r, g) == HolderOf(hs, g)
  {
    match f
    case Embeds => hs.(embeds := h)
    case Components => hs.(components := h)
    case Attachments => hs.(attachments := h)
  }

  /** Every lender lies before index `i`. */
  predicate HoldersBelow(hs: Holders, i: nat) {
    forall f :: HolderOf(hs, f).Some? ==> HolderOf(hs, f).value < i
  }

  /** A loop that reaches payload `i` has not yet adopted any of its arrays. */
  lemma LendersEnter(ps: seq<Payload>, i: nat, m: Payload, hs: Holders)
    requires i < |ps| && HoldersBelow(hs, i)
    ensures Lenders(ps, i, m, hs) == Lenders(ps, i + 1, m, hs)
  {
    assert HolderOf(hs, Embeds).Some? ==> HolderOf(hs, Embeds).value < i;
    assert HolderOf(hs, Components).Some? ==> HolderOf(hs, Components).value < i;
    assert HolderOf(hs, Attachments).Some? ==> HolderOf(hs, Attachments).value < i;
    assert Adopt(ps[i], i, hs, m) == ps[i];
  }

  /** The lenders see only the arrays of the accumulator, never its content. */
  lemma LendersContent(ps: seq<Payload>, i: nat, m: Payload, hs: Holders, c: Field<string>)
    requires i <= |ps|
    ensures Lenders(ps, i, m, hs) == Lenders(ps, i, m.(content := c), hs)
  {
  }

  /** Pushing into the adopted array `f` is seen through the payload that lent it. */
  lemma LendersPush(ps: seq<Payload>, i: nat, m: Payload, hs: Holders, f: ListField, v: Field<seq<Json>>)
    requires i <= |ps| && HolderOf(hs, f).Some? && HolderOf(hs, f).value < i
    ensures var a, h := Lenders(ps, i, m, hs), HolderOf(hs, f).value;
      a[h := WithList(a[h], f, v)] == Lenders(ps, i, WithList(m, f, v), hs)
  {
    var a, h, m' := Lenders(ps, i, m, hs), HolderOf(hs, f).value, WithList(m, f, v);
    var b := Lenders(ps, i, m', hs);
    forall j | 0 <= j < |ps|
      ensures a[h := WithList(a[h], f, v)][j] == b[j]
    {
      if j < i {
        assert ListOf(Adopt(ps[j], j, hs, m'), f) == if j == h then v else ListOf(ps[j], f) by {
          match f
          case Embeds =>
          case Components =>
          case Attachments =>
        }
      }
    }
  }

  /** Adopting payload `i`'s own array `f` as the merged array changes no payload. */
  lemma LendersAdopt(ps: seq<Payload>, i: nat, m: Payload, hs: Holders, f: ListField)
    requires i < |ps| && HolderOf(hs, f).None?
    ensures Lenders(ps, i + 1, m, hs)
         == Lenders(ps, i + 1, WithList(m, f, ListOf(ps[i], f)), WithHolder(hs, f, Some(i)))
  {
  }

  lemma {:induction false} TextsAppend(xs: seq<Payload>, ys: seq<Payload>)
    ensures Texts(xs + ys) == Texts(xs) + Texts(ys)
    decreases |ys|
  {
    if ys == [] {
      assert xs + ys == xs;
    } else {
      var ys' := ys[..|ys| - 1];
      assert (xs + ys)[..|xs + ys| - 1] == xs + ys';
      TextsAppend(xs, ys');
    }
  }

  lemma {:induction false} ConcatListsAppend(xs: seq<Payload>, ys: seq<Payload>, f: ListField)
    ensures ConcatLists(xs + ys, f) == ConcatLists(xs, f) + ConcatLists(ys, f)
    decreases |ys|
  {
    if ys == [] {
      assert xs + ys == xs;
    } else {
      var ys' := ys[..|ys| - 1];
      assert (xs + ys)[..|xs + ys| - 1] == xs + ys';
      ConcatListsAppend(xs, ys', f);
    }
  }

  lemma {:induction false} JoinLinesAppend(xs: seq<string>, ys: seq<string>)
    requires xs != [] && ys != []
    ensures JoinLines(xs + ys) == JoinLines(xs) + "\n" + JoinLines(ys)
    decreases |ys|
  {
    if |ys| == 1 {
      assert (xs + ys)[..|xs + ys| - 1] == xs;
    } else {
      var ys' := ys[..|ys| - 1];
      assert (xs + ys)[..|xs + ys| - 1] == xs + ys';
      JoinLinesAppend(xs, ys');
    }
  }

  lemma {:induction false} JoinLinesNonEmpty(xs: seq<string>)
    requires xs != [] && forall i :: 0 <= i < |xs| ==> xs[i] != ""
    ensures JoinLines(xs) != ""
    decreases |xs|
  {
    if |xs| > 1 {
      JoinLinesNonEmpty(xs[..|xs| - 1]);
    }
  }

  /** No array `f` anywhere: nothing to concatenate. */
  lemma {:induction false} ConcatListsNone(ps: seq<Payload>, f: ListField)
    requires !AnyList(ps, f)
    ensures ConcatLists(ps, f) == []
    decreases |ps|
  {
    if ps != [] {
      var pre := ps[..|ps| - 1];
      assert forall j :: 0 <= j < |pre| ==> pre[j] == ps[j];
      ConcatListsNone(pre, f);
    }
  }

  /** Some payload of `xs + ys` carries array `f` iff one of `xs` or one of `ys` does. */
  lemma AnyListAppend(xs: seq<Payload>, ys: seq<Payload>, f: ListField)
    ensures AnyList(xs + ys, f) <==> AnyList(xs, f) || AnyList(ys, f)
  {
    if AnyList(xs, f) {
      var j :| 0 <= j < |xs| && ListOf(xs[j], f).Present?;
      assert (xs + ys)[j] == xs[j];
    }
    if AnyList(ys, f) {
      var j :| 0 <= j < |ys| && ListOf(ys[j], f).Present?;
      assert (xs + ys)[|xs| + j] == ys[j];
    }
    if AnyList(xs + ys, f) {
      var j :| 0 <= j < |xs + ys| && ListOf((xs + ys)[j], f).Present?;
      if j >= |xs| { assert ys[j - |xs|] == (xs + ys)[j]; } else { assert xs[j] == (xs + ys)[j]; }
    }
  }
}
