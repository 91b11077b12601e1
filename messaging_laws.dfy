// What the bitmap encoder of src/messaging_specification/mod.rs promises,
// stated over its specification `Messaging.Encoded`: the frame layout and its
// inverse, padding, skipping of absent values, the header of an empty group,
// and which fault ends an encoding.

module MessagingLaws {
  import opened Gateway
  import opened Text
  import opened Messaging
  import Parsers
  import Operation

  // ---------------------------------------------------------------------
  // Frames

  /** `TwoDigits(0)` is the header length of an empty field. */
  lemma TwoDigitsZero()
    ensures TwoDigits(0) == "00"
  {
    assert NatToString(0) == ['0'];
  }

  /**
   * For a position and a data length below 100 the frame is exactly four
   * header characters longer than the data, and reading it back yields the
   * position, the data and whatever followed.
   */
  lemma FrameRoundTrip(pos: nat, data: string, rest: string)
    requires pos <= 99 && |data| <= 99
    ensures |Frame(pos, data)| == 4 + |data|
    ensures ReadFrame(Frame(pos, data) + rest) == Some((pos, data, rest))
  {
    var h := TwoDigits(pos) + TwoDigits(|data|);
    assert h[..2] == TwoDigits(pos) && h[2..] == TwoDigits(|data|);
    assert Frame(pos, data) + rest == h + data + rest;
    ReadHeaderedFrame(h, data, rest);
  }

  /** A four-digit header whose last two digits give the data length is read back with its data and the rest. */
  lemma ReadHeaderedFrame(h: string, data: string, rest: string)
    requires |h| == 4 && AllDigits(h) && DigitsValue(h[2..]) == |data|
    ensures ReadFrame(h + data + rest) == Some((DigitsValue(h[..2]), data, rest))
  {
    var s := h + data + rest;
    assert s[..4] == h;
    assert s[2..4] == h[2..] && s[..2] == h[..2];
    assert s[4..4 + |data|] == data;
    assert s[4 + |data|..] == rest;
  }

  /**
   * The padding of a leaf targets its minimum length: with a padding
   * character the value grows to the minimum with that character in front;
   * without one it is emitted as it is, however short.
   */
  lemma PaddingTargetsMinimum(leaf: Leaf, data: string)
    ensures leaf.paddingChar.Some? ==>
              && |Padded(data, PadOf(leaf))| == (if leaf.minLength > |data| then leaf.minLength else |data|)
              && Padded(data, PadOf(leaf)) == Repeat(leaf.paddingChar.value, |Padded(data, PadOf(leaf))| - |data|) + data
    ensures leaf.paddingChar.None? ==> Padded(data, PadOf(leaf)) == data
  {
    if leaf.paddingChar.Some? {
      var r := Padded(data, PadOf(leaf));
      var c := leaf.paddingChar.value;
      assert r[..|r| - |data|] == Repeat(c, |r| - |data|);
      assert r == r[..|r| - |data|] + r[|r| - |data|..];
    }
  }

  // ---------------------------------------------------------------------
  // Absent values

  lemma IncreasingCons(x: nat, s: seq<nat>)
    requires Increasing(s) && forall k :: k in s ==> x < k
    ensures Increasing([x] + s)
  {
    forall i, j | 0 <= i < j < |[x] + s| ensures ([x] + s)[i] < ([x] + s)[j] {
      assert ([x] + s)[j] == s[j - 1] && s[j - 1] in s;
      if i > 0 {
        assert ([x] + s)[i] == s[i - 1];
      }
    }
  }

  /** `ks` without `p`, order kept. */
  function Without(ks: seq<nat>, p: nat): (r: seq<nat>)
    ensures forall k :: k in r <==> k in ks && k != p
    ensures Increasing(ks) ==> Increasing(r)
  {
    if ks == [] then []
    else
      var tail := Without(ks[1..], p);
      assert Increasing(ks) ==> forall k :: k in tail ==> ks[0] < k by {
        if Increasing(ks) {
          forall k | k in tail ensures ks[0] < k {
            var i :| 0 <= i < |ks[1..]| && ks[1..][i] == k;
            assert ks[i + 1] == k;
          }
        }
      }
      assert Increasing(ks) ==> Increasing(ks[1..]);
      assert Increasing(ks) ==> Increasing([ks[0]] + tail) by {
        if Increasing(ks) {
          IncreasingCons(ks[0], tail);
        }
      }
      if ks[0] == p then tail else [ks[0]] + tail
  }

  /** The ascending positions of a set without `p` are those of the whole set without `p`. */
  lemma SortedKeysWithout(keys: set<nat>, p: nat)
    ensures SortedKeys(keys - {p}) == Without(SortedKeys(keys), p)
  {
    IncreasingUnique(Without(SortedKeys(keys), p), SortedKeys(keys - {p}));
  }

  lemma {:induction false} GroupTextSkip(op: Operation.Operation, outer: nat, fields: map<nat, Leaf>, ks: seq<nat>, p: nat)
    requires forall k :: k in ks ==> k in fields
    requires p in fields && LeafText(op, p, fields[p], [outer, p]) == Success("")
    ensures GroupText(op, outer, fields, ks) == GroupText(op, outer, fields - {p}, Without(ks, p))
  {
    if ks != [] {
      GroupTextSkip(op, outer, fields, ks[1..], p);
      GroupTextStep(op, outer, fields, ks);
      if ks[0] == p {
        PrependEmpty(GroupText(op, outer, fields, ks[1..]));
        assert Without(ks, p) == Without(ks[1..], p);
      } else {
        var w := Without(ks, p);
        assert w == [ks[0]] + Without(ks[1..], p);
        assert w[0] == ks[0] && w[1..] == Without(ks[1..], p);
        assert (fields - {p})[ks[0]] == fields[ks[0]];
        GroupTextStep(op, outer, fields - {p}, w);
      }
    }
  }

  lemma {:induction false} TemplateTextSkip(op: Operation.Operation, t: BitMap, ks: seq<nat>, p: nat)
    requires forall k :: k in ks ==> k in t
    requires p in t && FieldTextAt(op, p, t[p]) == Success("")
    ensures TemplateText(op, t, ks) == TemplateText(op, t - {p}, Without(ks, p))
  {
    if ks != [] {
      TemplateTextSkip(op, t, ks[1..], p);
      TemplateTextStep(op, t, ks);
      if ks[0] == p {
        PrependEmpty(TemplateText(op, t, ks[1..]));
        assert Without(ks, p) == Without(ks[1..], p);
      } else {
        var w := Without(ks, p);
        assert w == [ks[0]] + Without(ks[1..], p);
        assert w[0] == ks[0] && w[1..] == Without(ks[1..], p);
        assert (t - {p})[ks[0]] == t[ks[0]];
        TemplateTextStep(op, t - {p}, w);
      }
    }
  }

  /** A top-level leaf whose value is absent leaves no trace: the message is the one without that position. */
  lemma AbsentLeafSkipped(op: Operation.Operation, t: BitMap, p: nat)
    requires p in t && t[p].Single? && t[p].leaf.parser(op) == Success(None)
    ensures Encoded(op, t) == Encoded(op, t - {p})
  {
    assert (t - {p}).Keys == t.Keys - {p};
    SortedKeysWithout(t.Keys, p);
    TemplateTextSkip(op, t, SortedKeys(t.Keys), p);
  }

  /** A leaf of a group whose value is absent leaves no trace inside the group's frame. */
  lemma AbsentGroupLeafSkipped(op: Operation.Operation, pos: nat, fields: map<nat, Leaf>, q: nat)
    requires q in fields && fields[q].parser(op) == Success(None)
    ensures FieldTextAt(op, pos, Group(fields)) == FieldTextAt(op, pos, Group(fields - {q}))
  {
    AbsentGroupLeafText(op, pos, fields, q);
  }

  lemma AbsentGroupLeafText(op: Operation.Operation, pos: nat, fields: map<nat, Leaf>, q: nat)
    requires q in fields && fields[q].parser(op) == Success(None)
    ensures GroupText(op, pos, fields, SortedKeys(fields.Keys)) == GroupText(op, pos, fields - {q}, SortedKeys((fields - {q}).Keys))
  {
    LeafTextOutcomes(op, q, fields[q], [pos, q]);
    assert (fields - {q}).Keys == fields.Keys - {q};
    SortedKeysWithout(fields.Keys, q);
    GroupTextSkip(op, pos, fields, SortedKeys(fields.Keys), q);
  }

  lemma {:induction false} GroupTextAllAbsent(op: Operation.Operation, outer: nat, fields: map<nat, Leaf>, ks: seq<nat>)
    requires forall k :: k in ks ==> k in fields && fields[k].parser(op) == Success(None)
    ensures GroupText(op, outer, fields, ks) == Success("")
  {
    if ks != [] {
      GroupTextAllAbsent(op, outer, fields, ks[1..]);
      GroupTextStep(op, outer, fields, ks);
      PrependEmpty(GroupText(op, outer, fields, ks[1..]));
    }
  }

  /** A group none of whose leaves has a value is still emitted, as its position and the length `00`. */
  lemma EmptyGroupHeader(op: Operation.Operation, pos: nat, fields: map<nat, Leaf>)
    requires forall k :: k in fields ==> fields[k].parser(op) == Success(None)
    ensures FieldTextAt(op, pos, Group(fields)) == Success(TwoDigits(pos) + "00")
  {
    GroupTextAllAbsent(op, pos, fields, SortedKeys(fields.Keys));
    TwoDigitsZero();
    assert Frame(pos, "") == TwoDigits(pos) + "00";
  }

  // ---------------------------------------------------------------------
  // Faults and agreement

  /** The renderings of the fields at positions `ks`, in that order. */
  ghost function Pieces(op: Operation.Operation, t: BitMap, ks: seq<nat>): (rs: seq<Result<string, Fault>>)
    requires forall k :: k in ks ==> k in t
    ensures |rs| == |ks|
  {
    seq(|ks|, i requires 0 <= i < |ks| => FieldTextAt(op, ks[i], t[ks[i]]))
  }

  /** Rendered pieces joined in order, stopping at the first fault. */
  function Chain(rs: seq<Result<string, Fault>>): Result<string, Fault>
  {
    if rs == [] then Success("")
    else
      var head :- rs[0];
      var tail :- Chain(rs[1..]);
      Success(head + tail)
  }

  /** Walking positions `ks` is joining the pieces rendered at them. */
  lemma {:induction false} TemplateTextIsChain(op: Operation.Operation, t: BitMap, ks: seq<nat>)
    requires forall k :: k in ks ==> k in t
    ensures TemplateText(op, t, ks) == Chain(Pieces(op, t, ks))
  {
    if ks != [] {
      TemplateTextIsChain(op, t, ks[1..]);
      TemplateTextStep(op, t, ks);
      assert Pieces(op, t, ks)[1..] == Pieces(op, t, ks[1..]);
    }
  }

  /** A join fails exactly when one of its pieces does. */
  lemma {:induction false} ChainFailsIff(rs: seq<Result<string, Fault>>)
    ensures Chain(rs).Failure? <==> exists i :: 0 <= i < |rs| && rs[i].Failure?
  {
    if rs != [] {
      ChainFailsIff(rs[1..]);
      if rs[0].Success? && Chain(rs[1..]).Failure? {
        var i :| 0 <= i < |rs[1..]| && rs[1..][i].Failure?;
        assert rs[i + 1].Failure?;
      }
      if rs[0].Success? && Chain(rs[1..]).Success? {
        forall i | 0 <= i < |rs| ensures rs[i].Success? {
          if i > 0 {
            assert rs[i] == rs[1..][i - 1];
          }
        }
      }
    }
  }

  /** The first failing piece gives the join its fault. */
  lemma {:induction false} ChainFirstFault(rs: seq<Result<string, Fault>>, i: nat)
    requires i < |rs| && rs[i].Failure?
    requires forall j :: 0 <= j < i ==> rs[j].Success?
    ensures Chain(rs) == Failure(rs[i].error)
  {
    if i > 0 {
      ChainFirstFault(rs[1..], i - 1);
    }
  }

  /** The message is produced exactly when every field of the template renders. */
  lemma EncodedSucceedsIff(op: Operation.Operation, t: BitMap)
    ensures Encoded(op, t).Success? <==> forall p :: p in t ==> FieldTextAt(op, p, t[p]).Success?
  {
    var ks := SortedKeys(t.Keys);
    var rs := Pieces(op, t, ks);
    TemplateTextIsChain(op, t, ks);
    ChainFailsIff(rs);
    if !Encoded(op, t).Success? {
      var i :| 0 <= i < |rs| && rs[i].Failure?;
      assert ks[i] in t;
    } else {
      forall p | p in t ensures FieldTextAt(op, p, t[p]).Success? {
        assert p in ks;
        var i :| 0 <= i < |ks| && ks[i] == p;
        assert rs[i].Success?;
      }
    }
  }

  /** Encoding stops at the failing field of least position, and its fault is the result. */
  lemma EncodedFailsAtLeastFault(op: Operation.Operation, t: BitMap, p: nat)
    requires p in t && FieldTextAt(op, p, t[p]).Failure?
    requires forall q :: q in t && q < p ==> FieldTextAt(op, q, t[q]).Success?
    ensures Encoded(op, t) == Failure(FieldTextAt(op, p, t[p]).error)
  {
    var ks := SortedKeys(t.Keys);
    assert p in ks;
    var i :| 0 <= i < |ks| && ks[i] == p;
    var rs := Pieces(op, t, ks);
    forall j | 0 <= j < i ensures rs[j].Success? {
      assert ks[j] < ks[i];
    }
    TemplateTextIsChain(op, t, ks);
    ChainFirstFault(rs, i);
  }

  /**
   * What one leaf renders to: nothing exactly when its value is absent, the
   * extractor's own fault, an overlength fault exactly when the value is
   * longer than the maximum, and otherwise the framed, padded value.
   */
  lemma LeafTextOutcomes(op: Operation.Operation, pos: nat, leaf: Leaf, path: seq<nat>)
    ensures LeafText(op, pos, leaf, path) == Success("") <==> leaf.parser(op) == Success(None)
    ensures leaf.parser(op).Failure? ==> LeafText(op, pos, leaf, path) == Failure(leaf.parser(op).error)
    ensures leaf.parser(op).Success? && leaf.parser(op).value.Some? ==>
              var data := leaf.parser(op).value.value;
              && (LeafText(op, pos, leaf, path).Failure? <==> |data| > leaf.maxLength)
              && (|data| > leaf.maxLength ==>
                    LeafText(op, pos, leaf, path) == Failure(Overlength(data, path, |data|, leaf.maxLength)))
              && (|data| <= leaf.maxLength ==>
                    LeafText(op, pos, leaf, path) == Success(Frame(pos, Padded(data, PadOf(leaf)))))
  {
  }

  /** A leaf whose value exceeds its maximum fails the field with a fault naming the value, its path, its length and the maximum. */
  lemma OverlengthLeaf(op: Operation.Operation, pos: nat, leaf: Leaf, path: seq<nat>, data: string)
    requires leaf.parser(op) == Success(Some(data)) && |data| > leaf.maxLength
    ensures LeafText(op, pos, leaf, path) == Failure(Overlength(data, path, |data|, leaf.maxLength))
  {
  }

  /** Two templates that agree on positions `ks` render them alike. */
  lemma {:induction false} TemplateTextAgree(op: Operation.Operation, t: BitMap, u: BitMap, ks: seq<nat>)
    requires forall k :: k in ks ==> k in t && k in u && t[k] == u[k]
    ensures TemplateText(op, t, ks) == TemplateText(op, u, ks)
  {
    if ks != [] {
      TemplateTextAgree(op, t, u, ks[1..]);
      TemplateTextStep(op, t, ks);
      TemplateTextStep(op, u, ks);
    }
  }

  /** Strings joined in order. */
  function Concat(ss: seq<string>): string
  {
    if ss == [] then "" else ss[0] + Concat(ss[1..])
  }

  /** A group whose leaves at `ks` all render is the join of their texts, in the order of `ks`. */
  lemma {:induction false} GroupTextJoins(op: Operation.Operation, outer: nat, fields: map<nat, Leaf>, ks: seq<nat>, texts: seq<string>)
    requires forall k :: k in ks ==> k in fields
    requires |texts| == |ks|
    requires forall i :: 0 <= i < |ks| ==> LeafText(op, ks[i], fields[ks[i]], [outer, ks[i]]) == Success(texts[i])
    ensures GroupText(op, outer, fields, ks) == Success(Concat(texts))
  {
    if ks != [] {
      forall i | 0 <= i < |ks[1..]|
        ensures LeafText(op, ks[1..][i], fields[ks[1..][i]], [outer, ks[1..][i]]) == Success(texts[1..][i])
      {
        assert ks[1..][i] == ks[i + 1];
      }
      GroupTextJoins(op, outer, fields, ks[1..], texts[1..]);
      GroupTextStep(op, outer, fields, ks);
    }
  }

  /** A walk whose fields at `ks` all render is the join of their texts, in the order of `ks`. */
  lemma {:induction false} TemplateTextJoins(op: Operation.Operation, t: BitMap, ks: seq<nat>, texts: seq<string>)
    requires forall k :: k in ks ==> k in t
    requires |texts| == |ks|
    requires forall i :: 0 <= i < |ks| ==> FieldTextAt(op, ks[i], t[ks[i]]) == Success(texts[i])
    ensures TemplateText(op, t, ks) == Success(Concat(texts))
  {
    if ks != [] {
      forall i | 0 <= i < |ks[1..]|
        ensures FieldTextAt(op, ks[1..][i], t[ks[1..][i]]) == Success(texts[1..][i])
      {
        assert ks[1..][i] == ks[i + 1];
      }
      TemplateTextJoins(op, t, ks[1..], texts[1..]);
      TemplateTextStep(op, t, ks);
    }
  }

  /** Any ascending listing of a set of positions is the one the encoder walks. */
  lemma SortedAs(keys: set<nat>, ks: seq<nat>)
    requires Increasing(ks) && forall k :: k in ks <==> k in keys
    ensures SortedKeys(keys) == ks
  {
    IncreasingUnique(ks, SortedKeys(keys));
  }
}
