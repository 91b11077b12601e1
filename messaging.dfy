// The template-driven bitmap encoder (src/messaging_specification/mod.rs).
//
// A template maps positions to fields; a field is a leaf (extractor, minimum
// and maximum length, optional padding character) or a group of leaves. A
// group of groups cannot be written down, so the source's one-level nesting
// limit is part of the type. The encoder walks the positions in ascending
// order and renders each present value as `PP LL data`.
//
// The specification is the family of functions ending in `Encoded`; the
// methods below it (PadString, StringField, SortPositions, FormatInto,
// Format) follow the source's loops and are proved to compute it.

module Messaging {
  import opened Gateway
  import opened Text
  import Parsers
  import Operation

  datatype Leaf = Leaf(parser: Parsers.OperationParser, minLength: nat, maxLength: nat, paddingChar: Option<char>)

  datatype BitField = Single(leaf: Leaf) | Group(fields: map<nat, Leaf>)

  type BitMap = map<nat, BitField>

  // ---------------------------------------------------------------------
  // Ascending order of positions

  predicate Increasing(ks: seq<nat>)
  {
    forall i, j :: 0 <= i < j < |ks| ==> ks[i] < ks[j]
  }

  /** The least position of a non-empty set. */
  ghost function Min(s: set<nat>): (m: nat)
    requires s != {}
    ensures m in s && forall j :: j in s ==> m <= j
    decreases |s|
  {
    var x :| x in s;
    if s == {x} then
      assert forall j :: j in s ==> j == x;
      x
    else
      var y := Min(s - {x});
      assert forall j :: j in s ==> j == x || j in s - {x};
      if x < y then x else y
  }

  /** The positions of a map in ascending numeric order. */
  ghost function SortedKeys(keys: set<nat>): (ks: seq<nat>)
    ensures Increasing(ks)
    ensures forall k :: k in ks <==> k in keys
    decreases |keys|
  {
    if keys == {} then []
    else
      var m := Min(keys);
      var rest := SortedKeys(keys - {m});
      assert forall i :: 0 <= i < |rest| ==> m < rest[i] by {
        forall i | 0 <= i < |rest| ensures m < rest[i] {
          assert rest[i] in keys - {m};
        }
      }
      [m] + rest
  }

  /** Two ascending sequences holding the same positions are the same sequence. */
  lemma {:induction false} IncreasingUnique(a: seq<nat>, b: seq<nat>)
    requires Increasing(a) && Increasing(b)
    requires forall k :: k in a <==> k in b
    ensures a == b
  {
    assert a != [] ==> a[0] in b;
    assert b != [] ==> b[0] in a;
    if a != [] && b != [] {
      assert a[0] == b[0] by {
        assert b[0] in a;
        assert a[0] in b;
      }
      forall k
        ensures k in a[1..] <==> k in b[1..]
      {
        if k in a[1..] {
          var i :| 1 <= i < |a| && a[i] == k;
          assert k != b[0];
          assert k in b;
        }
        if k in b[1..] {
          var i :| 1 <= i < |b| && b[i] == k;
          assert k != a[0];
          assert k in a;
        }
      }
      IncreasingUnique(a[1..], b[1..]);
    }
  }

  /** Every later element of an ascending sequence is above its first. */
  lemma HeadBelowTail(s: seq<nat>)
    requires Increasing(s) && s != []
    ensures forall x :: x in s[1..] ==> s[0] < x
  {
    forall x | x in s[1..] ensures s[0] < x {
      var i :| 0 <= i < |s[1..]| && s[1..][i] == x;
      assert s[i + 1] == x;
    }
  }

  /** `s` with `k` inserted at its place in ascending order. */
  function Insert(s: seq<nat>, k: nat): (r: seq<nat>)
    requires Increasing(s) && k !in s
    ensures Increasing(r)
    ensures forall x :: x in r <==> x in s || x == k
  {
    if s == [] || k < s[0] then [k] + s
    else
      HeadBelowTail(s);
      var r := Insert(s[1..], k);
      assert forall j :: 0 <= j < |r| ==> r[j] in r;
      [s[0]] + r
  }

  /**
   * Collects a map's positions in whatever order the map hands them out
   * (the choice below is arbitrary, as a `HashMap`'s iteration order is)
   * and sorts them: the result is the same ascending sequence every time.
   */
  method SortPositions(keys: set<nat>) returns (sorted: seq<nat>)
    ensures sorted == SortedKeys(keys)
  {
    sorted := [];
    var rest := keys;
    while rest != {}
      invariant rest <= keys
      invariant Increasing(sorted)
      invariant forall k :: k in sorted <==> k in keys && k !in rest
      decreases |rest|
    {
      var k :| k in rest;
      sorted := Insert(sorted, k);
      rest := rest - {k};
    }
    IncreasingUnique(sorted, SortedKeys(keys));
  }

  // ---------------------------------------------------------------------
  // Rendering one value

  /** The `pad` argument `_format` hands to `string_field`: the minimum length and the leaf's character, if it has one. */
  function PadOf(leaf: Leaf): Option<(nat, char)>
  {
    match leaf.paddingChar
    case Some(c) => Some((leaf.minLength, c))
    case None => None
  }

  function Padded(data: string, pad: Option<(nat, char)>): string
  {
    match pad
    case Some((n, c)) => LeftPad(data, n, c)
    case None => data
  }

  /** `PP LL data`: two-digit position, two-digit length of `data`, then `data`. */
  function Frame(pos: nat, data: string): string
  {
    TwoDigits(pos) + TwoDigits(|data|) + data
  }

  /** What `string_field(pos, data, pad)` returns. */
  function FieldText(pos: nat, data: string, pad: Option<(nat, char)>): string
  {
    Frame(pos, Padded(data, pad))
  }

  /**
   * Reads one `PP LL data` frame off the front of a message. It is not part
   * of the gateway, which has no decoder; it is the inverse against which
   * `Frame` is checked.
   */
  function ReadFrame(s: string): Option<(nat, string, string)>
  {
    if |s| < 4 || !AllDigits(s[..4]) then None
    else
      var len := DigitsValue(s[2..4]);
      if |s| < 4 + len then None
      else Some((DigitsValue(s[..2]), s[4..4 + len], s[4 + len..]))
  }

  // ---------------------------------------------------------------------
  // The specification of the walk

  /**
   * One leaf at `pos`: an absent value contributes nothing, not even a
   * header; a value longer than the maximum is an overlength fault naming
   * `path`; any other value is framed after padding.
   */
  function LeafText(op: Operation.Operation, pos: nat, leaf: Leaf, path: seq<nat>): Result<string, Fault>
  {
    var parsed :- leaf.parser(op);
    match parsed
    case None => Success("")
    case Some(data) =>
      if |data| > leaf.maxLength then Failure(Overlength(data, path, |data|, leaf.maxLength))
      else Success(FieldText(pos, data, PadOf(leaf)))
  }

  /** The leaves of group `outer` at positions `ks`, in that order, stopping at the first fault. */
  function GroupText(op: Operation.Operation, outer: nat, fields: map<nat, Leaf>, ks: seq<nat>): Result<string, Fault>
    requires forall k :: k in ks ==> k in fields
  {
    if ks == [] then Success("")
    else
      var head :- LeafText(op, ks[0], fields[ks[0]], [outer, ks[0]]);
      var tail :- GroupText(op, outer, fields, ks[1..]);
      Success(head + tail)
  }

  /** One top-level field: a leaf, or a group framed around its rendered leaves. */
  ghost function FieldTextAt(op: Operation.Operation, pos: nat, field: BitField): Result<string, Fault>
  {
    match field
    case Single(leaf) => LeafText(op, pos, leaf, [pos])
    case Group(fields) =>
      var nested :- GroupText(op, pos, fields, SortedKeys(fields.Keys));
      Success(Frame(pos, nested))
  }

  /** The top-level fields at positions `ks`, in that order, stopping at the first fault. */
  ghost function TemplateText(op: Operation.Operation, t: BitMap, ks: seq<nat>): Result<string, Fault>
    requires forall k :: k in ks ==> k in t
  {
    if ks == [] then Success("")
    else
      var head :- FieldTextAt(op, ks[0], t[ks[0]]);
      var tail :- TemplateText(op, t, ks[1..]);
      Success(head + tail)
  }

  /** The message `format` produces for `op` under template `t`. */
  ghost function Encoded(op: Operation.Operation, t: BitMap): Result<string, Fault>
  {
    TemplateText(op, t, SortedKeys(t.Keys))
  }

  /** One step of `GroupText`: the first leaf's fault, or its text in front of the rest. */
  lemma GroupTextStep(op: Operation.Operation, outer: nat, fields: map<nat, Leaf>, ks: seq<nat>)
    requires ks != [] && forall k :: k in ks ==> k in fields
    ensures var head := LeafText(op, ks[0], fields[ks[0]], [outer, ks[0]]);
      GroupText(op, outer, fields, ks) == if head.Failure? then Failure(head.error) else Prepend(head.value, GroupText(op, outer, fields, ks[1..]))
  {
  }

  /** One step of `TemplateText`: the first field's fault, or its text in front of the rest. */
  lemma TemplateTextStep(op: Operation.Operation, t: BitMap, ks: seq<nat>)
    requires ks != [] && forall k :: k in ks ==> k in t
    ensures var head := FieldTextAt(op, ks[0], t[ks[0]]);
      TemplateText(op, t, ks) == if head.Failure? then Failure(head.error) else Prepend(head.value, TemplateText(op, t, ks[1..]))
  {
  }

  /** A leaf that renders puts its text in front of whatever the leaves after it give, fault or text. */
  lemma GroupPrepend(op: Operation.Operation, outer: nat, fields: map<nat, Leaf>, k: nat, rest: seq<nat>, head: string)
    requires k in fields && forall j :: j in rest ==> j in fields
    requires LeafText(op, k, fields[k], [outer, k]) == Success(head)
    ensures GroupText(op, outer, fields, [k] + rest) == Prepend(head, GroupText(op, outer, fields, rest))
  {
    var ks := [k] + rest;
    assert ks[0] == k && ks[1..] == rest;
  }

  /** A leaf that renders, in front of leaves that render, renders in front of them. */
  lemma GroupCons(op: Operation.Operation, outer: nat, fields: map<nat, Leaf>, k: nat, rest: seq<nat>, head: string, tail: string)
    requires k in fields && forall j :: j in rest ==> j in fields
    requires LeafText(op, k, fields[k], [outer, k]) == Success(head)
    requires GroupText(op, outer, fields, rest) == Success(tail)
    ensures GroupText(op, outer, fields, [k] + rest) == Success(head + tail)
  {
    var ks := [k] + rest;
    assert ks[0] == k && ks[1..] == rest;
  }

  /** A field that renders, in front of fields that render, renders in front of them. */
  lemma TemplateCons(op: Operation.Operation, t: BitMap, p: nat, rest: seq<nat>, head: string, tail: string)
    requires p in t && forall j :: j in rest ==> j in t
    requires FieldTextAt(op, p, t[p]) == Success(head)
    requires TemplateText(op, t, rest) == Success(tail)
    ensures TemplateText(op, t, [p] + rest) == Success(head + tail)
  {
    var ks := [p] + rest;
    assert ks[0] == p && ks[1..] == rest;
  }

  /** The group loop's invariant survives appending the next leaf, or the leaf's fault is the group's. */
  lemma GroupAdvance(op: Operation.Operation, outer: nat, fields: map<nat, Leaf>, ks: seq<nat>, j: nat, nested: string, sub: Result<string, Fault>)
    requires j < |ks| && forall k :: k in ks ==> k in fields
    requires GroupText(op, outer, fields, ks) == Prepend(nested, GroupText(op, outer, fields, ks[j..]))
    requires sub == LeafText(op, ks[j], fields[ks[j]], [outer, ks[j]])
    ensures sub.Failure? ==> GroupText(op, outer, fields, ks) == Failure(sub.error)
    ensures sub.Success? ==> GroupText(op, outer, fields, ks) == Prepend(nested + sub.value, GroupText(op, outer, fields, ks[j + 1..]))
  {
    assert ks[j..][0] == ks[j] && ks[j..][1..] == ks[j + 1..];
    GroupTextStep(op, outer, fields, ks[j..]);
    if sub.Success? {
      PrependTwice(nested, sub.value, GroupText(op, outer, fields, ks[j + 1..]));
    }
  }

  /** The top-level loop's invariant survives appending the next field, or the field's fault is the message's. */
  lemma TemplateAdvance(op: Operation.Operation, t: BitMap, ks: seq<nat>, i: nat, out: string, whole: Result<string, Fault>, sub: Result<string, Fault>)
    requires i < |ks| && forall k :: k in ks ==> k in t
    requires whole == Prepend(out, TemplateText(op, t, ks[i..]))
    requires sub == FieldTextAt(op, ks[i], t[ks[i]])
    ensures sub.Failure? ==> whole == Failure(sub.error)
    ensures sub.Success? ==> whole == Prepend(out + sub.value, TemplateText(op, t, ks[i + 1..]))
  {
    assert ks[i..][0] == ks[i] && ks[i..][1..] == ks[i + 1..];
    TemplateTextStep(op, t, ks[i..]);
    if sub.Success? {
      PrependTwice(out, sub.value, TemplateText(op, t, ks[i + 1..]));
    }
  }

  /** Once every leaf is rendered, the group's text is the nested buffer. */
  lemma GroupDone(op: Operation.Operation, pos: nat, fields: map<nat, Leaf>, ks: seq<nat>, nested: string)
    requires forall k :: k in ks ==> k in fields
    requires GroupText(op, pos, fields, ks) == Prepend(nested, GroupText(op, pos, fields, ks[|ks|..]))
    ensures GroupText(op, pos, fields, ks) == Success(nested)
  {
    assert ks[|ks|..] == [] && nested + "" == nested;
  }

  /** Once every field is rendered, the output is the whole message after the prefix. */
  lemma TemplateDone(op: Operation.Operation, t: BitMap, ks: seq<nat>, output: string, out: string)
    requires forall k :: k in ks ==> k in t
    requires Prepend(output, Encoded(op, t)) == Prepend(out, TemplateText(op, t, ks[|ks|..]))
    ensures Prepend(output, Encoded(op, t)) == Success(out)
  {
    assert ks[|ks|..] == [] && out + "" == out;
  }

  // ---------------------------------------------------------------------
  // The source's procedures

  /** `pad_string`: inserts `c` at the front, one character at a time, until `s` is `length` long. */
  method PadString(s: string, length: nat, c: char) returns (r: string)
    ensures r == LeftPad(s, length, c)
  {
    r := s;
    if length > |s| {
      var i := 0;
      while i < length - |s|
        invariant 0 <= i <= length - |s|
        invariant r == Repeat(c, i) + s
      {
        r := [c] + r;
        i := i + 1;
      }
    }
  }

  /** `string_field`: the two-digit position, the optionally padded data's two-digit length, then the data. */
  method StringField(pos: nat, data: string, pad: Option<(nat, char)>) returns (r: string)
    ensures r == FieldText(pos, data, pad)
  {
    r := TwoDigits(pos);
    var padded := data;
    if pad.Some? {
      padded := PadString(padded, pad.value.0, pad.value.1);
    }
    r := r + TwoDigits(|padded|);
    r := r + padded;
  }

  /**
   * The body `_format` runs for one leaf, at top level or inside a group:
   * parse, reject an overlength value, otherwise render it.
   */
  method FormatLeaf(op: Operation.Operation, pos: nat, leaf: Leaf, path: seq<nat>) returns (r: Result<string, Fault>)
    ensures r == LeafText(op, pos, leaf, path)
  {
    var parsed := leaf.parser(op);
    if parsed.Failure? {
      return Failure(parsed.error);
    }
    r := Success("");
    if parsed.value.Some? {
      var data := parsed.value.value;
      if |data| > leaf.maxLength {
        return Failure(Overlength(data, path, |data|, leaf.maxLength));
      }
      var sub := StringField(pos, data, PadOf(leaf));
      r := Success(sub);
    }
  }

  /**
   * The inner loop of the group branch of `_format`: the leaves at `sorted`,
   * in that order, appended to a nested buffer; the first fault ends it.
   */
  method FormatGroupLeaves(op: Operation.Operation, pos: nat, fields: map<nat, Leaf>, sorted: seq<nat>) returns (r: Result<string, Fault>)
    requires forall k :: k in sorted ==> k in fields
    ensures r == GroupText(op, pos, fields, sorted)
  {
    var nested := "";
    var j := 0;
    assert sorted[j..] == sorted;
    PrependEmpty(GroupText(op, pos, fields, sorted));
    while j < |sorted|
      invariant 0 <= j <= |sorted|
      invariant GroupText(op, pos, fields, sorted) == Prepend(nested, GroupText(op, pos, fields, sorted[j..]))
    {
      var sub_pos := sorted[j];
      var sub := FormatLeaf(op, sub_pos, fields[sub_pos], [pos, sub_pos]);
      GroupAdvance(op, pos, fields, sorted, j, nested, sub);
      if sub.Failure? {
        return Failure(sub.error);
      }
      nested := nested + sub.value;
      j := j + 1;
    }
    GroupDone(op, pos, fields, sorted, nested);
    r := Success(nested);
  }

  /**
   * The group branch of `_format`: the leaves, in ascending position order,
   * go to a nested buffer, which is then framed under the group's position
   * without padding.
   */
  method FormatGroup(op: Operation.Operation, pos: nat, fields: map<nat, Leaf>) returns (r: Result<string, Fault>)
    ensures r == FieldTextAt(op, pos, Group(fields))
  {
    var sorted := SortPositions(fields.Keys);
    var nested := FormatGroupLeaves(op, pos, fields, sorted);
    if nested.Failure? {
      return Failure(nested.error);
    }
    var framed := StringField(pos, nested.value, None);
    r := Success(framed);
  }

  /**
   * `_format`: appends the rendering of every field of `template` to
   * `output`, in ascending position order. The first fault ends the walk.
   */
  method FormatInto(op: Operation.Operation, template: BitMap, output: string) returns (r: Result<string, Fault>)
    ensures r == Prepend(output, Encoded(op, template))
  {
    var out := output;
    var sorted := SortPositions(template.Keys);
    var i := 0;
    ghost var whole := Prepend(output, Encoded(op, template));
    assert sorted[i..] == sorted;
    while i < |sorted|
      invariant 0 <= i <= |sorted|
      invariant whole == Prepend(out, TemplateText(op, template, sorted[i..]))
    {
      var pos := sorted[i];
      var field := template[pos];
      var sub: Result<string, Fault>;
      if field.Single? {
        sub := FormatLeaf(op, pos, field.leaf, [pos]);
      } else {
        sub := FormatGroup(op, pos, field.fields);
      }
      TemplateAdvance(op, template, sorted, i, out, whole, sub);
      if sub.Failure? {
        return Failure(sub.error);
      }
      out := out + sub.value;
      i := i + 1;
    }
    TemplateDone(op, template, sorted, output, out);
    r := Success(out);
  }

  /** `format`: the message for `op` under `template`, or the first fault. */
  method Format(op: Operation.Operation, template: BitMap) returns (r: Result<string, Fault>)
    ensures r == Encoded(op, template)
  {
    r := FormatInto(op, template, "");
    assert forall s: string :: "" + s == s;
  }
}
