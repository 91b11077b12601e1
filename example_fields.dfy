// The fields of the card Auth example one leaf at a time, and how leaves
// and fields join into groups and messages.

module ExampleFields {
  import opened Gateway
  import opened Text
  import opened Messaging
  import MessagingLaws
  import Parsers
  import Operation
  import Currency
  import Merchant

  // ---------------------------------------------------------------------
  // Leaf by leaf

  /** A leaf whose value is present and within its maximum renders as that value's field. */
  lemma LeafRenders(op: Operation.Operation, pos: nat, leaf: Leaf, path: seq<nat>, data: string, text: string)
    requires leaf.parser(op) == Success(Some(data)) && |data| <= leaf.maxLength
    requires FieldText(pos, data, PadOf(leaf)) == text
    ensures LeafText(op, pos, leaf, path) == Success(text)
  {
  }

  /** A frame is its two headers followed by the data. */
  lemma FrameOf(pos: nat, data: string, p: string, l: string)
    requires TwoDigits(pos) == p && TwoDigits(|data|) == l
    ensures Frame(pos, data) == p + l + data
  {
  }

  // Each leaf's frame is proved on its own, apart from the extractor that
  // produces its value.

  lemma RequestTypeFrame()
    ensures FieldText(2, "AUTH", None) == "0204AUTH"
  {
    FrameOf(2, "AUTH", "02", "04");
  }

  lemma RequestTypeLeaf(op: Operation.Operation, leaf: Leaf)
    requires leaf == Leaf(Parsers.RequestTypeCode, 4, 4, None)
    requires op.requestType == Some(Operation.Auth)
    ensures LeafText(op, 2, leaf, [2]) == Success("0204AUTH")
  {
    RequestTypeFrame();
    LeafRenders(op, 2, leaf, [2], "AUTH", "0204AUTH");
  }

  /** A 16-digit PAN fills the leaf past its minimum of 8, so it is framed unpadded. */
  lemma PanFrame(pan: string)
    requires |pan| == 16
    ensures FieldText(1, pan, Some((8, '0'))) == "0116" + pan
  {
    FrameOf(1, pan, "01", "16");
  }

  lemma PanLeaf(op: Operation.Operation, leaf: Leaf, pan: string)
    requires leaf == Leaf(Parsers.AccountNumber, 8, 20, Some('0'))
    requires op.payment.Some? && op.payment.value.Card? && op.payment.value.pan == pan && |pan| == 16
    ensures LeafText(op, 1, leaf, [3, 1]) == Success("0116" + pan)
  {
    PanFrame(pan);
    LeafRenders(op, 1, leaf, [3, 1], pan, "0116" + pan);
  }

  lemma NetworkFrame(initial: char)
    ensures FieldText(2, [initial], None) == "0201" + [initial]
  {
    FrameOf(2, [initial], "02", "01");
  }

  /** Only the network's initial is sent. */
  lemma NetworkLeaf(op: Operation.Operation, leaf: Leaf, network: string)
    requires leaf == Leaf(Parsers.Network, 1, 1, None)
    requires op.payment.Some? && op.payment.value.Card? && op.payment.value.network == network && network != ""
    ensures LeafText(op, 2, leaf, [3, 2]) == Success("0201" + [network[0]])
  {
    NetworkFrame(network[0]);
    LeafRenders(op, 2, leaf, [3, 2], [network[0]], "0201" + [network[0]]);
  }

  /** An expiry date written `year/month` loses only its slash. */
  lemma ExpiryDigits(year: string, month: string)
    requires '/' !in year && '/' !in month
    ensures RemoveAll(year + ("/" + month), '/') == year + month
  {
    RemoveAllAppend(year, "/" + month, '/');
    assert RemoveAll("/" + month, '/') == month by {
      var rest := "/" + month;
      assert rest[0] == '/' && rest[1..] == month;
    }
  }

  lemma ExpiryWithoutSlash()
    ensures RemoveAll("2024/12", '/') == "202412"
  {
    assert "2024/12" == "2024" + ("/" + "12");
    ExpiryDigits("2024", "12");
  }

  lemma ExpiryFrame()
    ensures FieldText(3, "202412", Some((4, '0'))) == "0306202412"
  {
    FrameOf(3, "202412", "03", "06");
  }

  /** An expiry date whose slash-free form is `202412`. */
  lemma ExpiryLeaf(op: Operation.Operation, leaf: Leaf, expiry: string)
    requires leaf == Leaf(Parsers.ExpiryDate, 4, 6, Some('0'))
    requires op.payment.Some? && op.payment.value.Card? && op.payment.value.expiryDate == expiry
    requires RemoveAll(expiry, '/') == "202412"
    ensures LeafText(op, 3, leaf, [3, 3]) == Success("0306202412")
  {
    ExpiryFrame();
    LeafRenders(op, 3, leaf, [3, 3], "202412", "0306202412");
  }

  lemma SecurityCodeFrame(code: string)
    requires |code| == 3
    ensures FieldText(4, code, Some((3, '0'))) == "0403" + code
  {
    FrameOf(4, code, "04", "03");
  }

  lemma SecurityCodeLeaf(op: Operation.Operation, leaf: Leaf, code: string)
    requires leaf == Leaf(Parsers.CardholderVerificationNumber, 3, 4, Some('0'))
    requires op.payment.Some? && op.payment.value.Card? && op.payment.value.securityCode == code && |code| == 3
    ensures LeafText(op, 4, leaf, [3, 4]) == Success("0403" + code)
  {
    SecurityCodeFrame(code);
    LeafRenders(op, 4, leaf, [3, 4], code, "0403" + code);
  }

  /** A six-character security code is two over the leaf's maximum of four. */
  lemma SecurityCodeTooLong(op: Operation.Operation, leaf: Leaf)
    requires leaf == Leaf(Parsers.CardholderVerificationNumber, 3, 4, Some('0'))
    requires op.payment.Some? && op.payment.value.Card? && op.payment.value.securityCode == "123123"
    ensures LeafText(op, 4, leaf, [3, 4]) == Failure(Overlength("123123", [3, 4], 6, 4))
  {
    MessagingLaws.OverlengthLeaf(op, 4, leaf, [3, 4], "123123");
  }

  lemma AmountDigits()
    ensures NatToString(12345) == "12345"
  {
    assert NatToString(1) == "1";
    assert NatToString(12) == "1" + "2" == "12";
    assert NatToString(123) == "12" + "3" == "123";
    assert NatToString(1234) == "123" + "4" == "1234";
    assert NatToString(12345) == "1234" + "5";
  }

  /** The five-digit amount is zero-padded to the leaf's minimum of ten. */
  lemma AmountFrame()
    ensures FieldText(1, "12345", Some((10, '0'))) == "01100000012345"
  {
    assert LeftPad("12345", 10, '0') == "0000012345";
    FrameOf(1, "0000012345", "01", "10");
  }

  lemma AmountLeaf(op: Operation.Operation, leaf: Leaf)
    requires leaf == Leaf(Parsers.TransactionAmount, 10, 20, Some('0'))
    requires op.transaction.Some? && op.transaction.value.amount == 12345
    ensures LeafText(op, 1, leaf, [4, 1]) == Success("01100000012345")
  {
    AmountDigits();
    AmountFrame();
    LeafRenders(op, 1, leaf, [4, 1], "12345", "01100000012345");
  }

  lemma CurrencyFrame()
    ensures FieldText(2, "GBP", None) == "0203GBP"
  {
    FrameOf(2, "GBP", "02", "03");
  }

  lemma CurrencyLeaf(op: Operation.Operation, leaf: Leaf)
    requires leaf == Leaf(Parsers.CurrencyCode, 3, 3, None)
    requires op.transaction.Some? && op.transaction.value.currency == Currency.GBP
    ensures LeafText(op, 2, leaf, [4, 2]) == Success("0203GBP")
  {
    CurrencyFrame();
    LeafRenders(op, 2, leaf, [4, 2], "GBP", "0203GBP");
  }

  /** The billing name is space-padded to a minimum of zero, so it is framed as it is. */
  lemma BillingNameFrame()
    ensures FieldText(3, "Ben Jones", Some((0, ' '))) == "0309Ben Jones"
  {
    FrameOf(3, "Ben Jones", "03", "09");
  }

  lemma BillingNameLeaf(op: Operation.Operation, leaf: Leaf)
    requires leaf == Leaf(Parsers.BillingName, 0, 20, Some(' '))
    requires op.transaction.Some? && op.transaction.value.billingname == "Ben Jones"
    ensures LeafText(op, 3, leaf, [4, 3]) == Success("0309Ben Jones")
  {
    BillingNameFrame();
    LeafRenders(op, 3, leaf, [4, 3], "Ben Jones", "0309Ben Jones");
  }

  /** A 15-digit merchant id gains one leading zero to reach the leaf's 16. */
  lemma MerchantIdFrame(mid: string)
    requires |mid| == 15
    ensures FieldText(1, mid, Some((16, '0'))) == "0116" + ("0" + mid)
  {
    assert LeftPad(mid, 16, '0') == "0" + mid by {
      assert Repeat('0', 1) == "0";
    }
    FrameOf(1, "0" + mid, "01", "16");
  }

  lemma MerchantIdLeaf(op: Operation.Operation, leaf: Leaf, mid: string)
    requires leaf == Leaf(Parsers.MerchantId, 16, 16, Some('0'))
    requires op.merchant.Some? && op.merchant.value.mid == mid && |mid| == 15
    ensures LeafText(op, 1, leaf, [5, 1]) == Success("0116" + ("0" + mid))
  {
    MerchantIdFrame(mid);
    LeafRenders(op, 1, leaf, [5, 1], mid, "0116" + ("0" + mid));
  }

  // ---------------------------------------------------------------------
  // Joining leaves and fields

  lemma FourKeysSorted(keys: set<nat>)
    requires keys == {1, 2, 3, 4}
    ensures SortedKeys(keys) == [1, 2, 3, 4]
  {
    var ks: seq<nat> := [1, 2, 3, 4];
    var sorted := SortedKeys(keys);
    assert forall k :: k in ks <==> k in sorted;
    IncreasingUnique(ks, sorted);
  }

  lemma ThreeKeysSorted(keys: set<nat>)
    requires keys == {1, 2, 3}
    ensures SortedKeys(keys) == [1, 2, 3]
  {
    var ks: seq<nat> := [1, 2, 3];
    var sorted := SortedKeys(keys);
    assert forall k :: k in ks <==> k in sorted;
    IncreasingUnique(ks, sorted);
  }

  lemma OneKeySorted(keys: set<nat>)
    requires keys == {1}
    ensures SortedKeys(keys) == [1]
  {
    var ks: seq<nat> := [1];
    var sorted := SortedKeys(keys);
    assert forall k :: k in ks <==> k in sorted;
    IncreasingUnique(ks, sorted);
  }

  /** One leaf alone: the group's text is the leaf's. */
  lemma LeafAlone(op: Operation.Operation, outer: nat, fields: map<nat, Leaf>, k: nat, t: string)
    requires k in fields
    requires LeafText(op, k, fields[k], [outer, k]) == Success(t)
    ensures GroupText(op, outer, fields, [k]) == Success(t)
  {
    GroupCons(op, outer, fields, k, [], t, "");
    assert [k] + [] == [k] && t + "" == t;
  }

  lemma LeavesOfTwo(op: Operation.Operation, outer: nat, fields: map<nat, Leaf>, a: nat, b: nat, ta: string, tb: string)
    requires a in fields && b in fields
    requires LeafText(op, a, fields[a], [outer, a]) == Success(ta)
    requires LeafText(op, b, fields[b], [outer, b]) == Success(tb)
    ensures GroupText(op, outer, fields, [a, b]) == Success(ta + tb)
  {
    LeafAlone(op, outer, fields, b, tb);
    GroupCons(op, outer, fields, a, [b], ta, tb);
    assert [a] + [b] == [a, b];
  }

  lemma LeavesOfThree(op: Operation.Operation, outer: nat, fields: map<nat, Leaf>, a: nat, b: nat, c: nat,
                       ta: string, tb: string, tc: string)
    requires a in fields && b in fields && c in fields
    requires LeafText(op, a, fields[a], [outer, a]) == Success(ta)
    requires LeafText(op, b, fields[b], [outer, b]) == Success(tb)
    requires LeafText(op, c, fields[c], [outer, c]) == Success(tc)
    ensures GroupText(op, outer, fields, [a, b, c]) == Success(ta + (tb + tc))
  {
    LeavesOfTwo(op, outer, fields, b, c, tb, tc);
    GroupCons(op, outer, fields, a, [b, c], ta, tb + tc);
    assert [a] + [b, c] == [a, b, c];
  }

  lemma LeavesOfFour(op: Operation.Operation, outer: nat, fields: map<nat, Leaf>, a: nat, b: nat, c: nat, d: nat,
                      ta: string, tb: string, tc: string, td: string)
    requires a in fields && b in fields && c in fields && d in fields
    requires LeafText(op, a, fields[a], [outer, a]) == Success(ta)
    requires LeafText(op, b, fields[b], [outer, b]) == Success(tb)
    requires LeafText(op, c, fields[c], [outer, c]) == Success(tc)
    requires LeafText(op, d, fields[d], [outer, d]) == Success(td)
    ensures GroupText(op, outer, fields, [a, b, c, d]) == Success(ta + (tb + (tc + td)))
  {
    LeavesOfThree(op, outer, fields, b, c, d, tb, tc, td);
    GroupCons(op, outer, fields, a, [b, c, d], ta, tb + (tc + td));
    assert [a] + [b, c, d] == [a, b, c, d];
  }

  lemma GroupOfFour(op: Operation.Operation, outer: nat, fields: map<nat, Leaf>,
                    ta: string, tb: string, tc: string, td: string)
    requires fields.Keys == {1, 2, 3, 4}
    requires LeafText(op, 1, fields[1], [outer, 1]) == Success(ta)
    requires LeafText(op, 2, fields[2], [outer, 2]) == Success(tb)
    requires LeafText(op, 3, fields[3], [outer, 3]) == Success(tc)
    requires LeafText(op, 4, fields[4], [outer, 4]) == Success(td)
    ensures FieldTextAt(op, outer, Group(fields)) == Success(Frame(outer, ta + (tb + (tc + td))))
  {
    FourKeysSorted(fields.Keys);
    LeavesOfFour(op, outer, fields, 1, 2, 3, 4, ta, tb, tc, td);
  }

  lemma GroupOfThree(op: Operation.Operation, outer: nat, fields: map<nat, Leaf>, ta: string, tb: string, tc: string)
    requires fields.Keys == {1, 2, 3}
    requires LeafText(op, 1, fields[1], [outer, 1]) == Success(ta)
    requires LeafText(op, 2, fields[2], [outer, 2]) == Success(tb)
    requires LeafText(op, 3, fields[3], [outer, 3]) == Success(tc)
    ensures FieldTextAt(op, outer, Group(fields)) == Success(Frame(outer, ta + (tb + tc)))
  {
    ThreeKeysSorted(fields.Keys);
    LeavesOfThree(op, outer, fields, 1, 2, 3, ta, tb, tc);
  }

  lemma GroupOfOne(op: Operation.Operation, outer: nat, fields: map<nat, Leaf>, ta: string)
    requires fields.Keys == {1}
    requires LeafText(op, 1, fields[1], [outer, 1]) == Success(ta)
    ensures FieldTextAt(op, outer, Group(fields)) == Success(Frame(outer, ta))
  {
    OneKeySorted(fields.Keys);
    LeafAlone(op, outer, fields, 1, ta);
  }

  /** Three leaves that render followed by one that fails: the group fails with the fourth leaf's fault. */
  lemma FaultAtFourth(op: Operation.Operation, outer: nat, fields: map<nat, Leaf>, a: nat, b: nat, c: nat, d: nat,
                      ta: string, tb: string, tc: string, f: Fault)
    requires a in fields && b in fields && c in fields && d in fields
    requires LeafText(op, a, fields[a], [outer, a]) == Success(ta)
    requires LeafText(op, b, fields[b], [outer, b]) == Success(tb)
    requires LeafText(op, c, fields[c], [outer, c]) == Success(tc)
    requires LeafText(op, d, fields[d], [outer, d]) == Failure(f)
    ensures GroupText(op, outer, fields, [a, b, c, d]) == Failure(f)
  {
    GroupTextStep(op, outer, fields, [d]);
    assert GroupText(op, outer, fields, [d]) == Failure(f);
    GroupPrepend(op, outer, fields, c, [d], tc);
    assert [c] + [d] == [c, d];
    assert GroupText(op, outer, fields, [c, d]) == Failure(f);
    GroupPrepend(op, outer, fields, b, [c, d], tb);
    assert [b] + [c, d] == [b, c, d];
    assert GroupText(op, outer, fields, [b, c, d]) == Failure(f);
    GroupPrepend(op, outer, fields, a, [b, c, d], ta);
    assert [a] + [b, c, d] == [a, b, c, d];
  }

  lemma GroupFaultOfFour(op: Operation.Operation, outer: nat, fields: map<nat, Leaf>, ta: string, tb: string, tc: string, f: Fault)
    requires fields.Keys == {1, 2, 3, 4}
    requires LeafText(op, 1, fields[1], [outer, 1]) == Success(ta)
    requires LeafText(op, 2, fields[2], [outer, 2]) == Success(tb)
    requires LeafText(op, 3, fields[3], [outer, 3]) == Success(tc)
    requires LeafText(op, 4, fields[4], [outer, 4]) == Failure(f)
    ensures FieldTextAt(op, outer, Group(fields)) == Failure(f)
  {
    FourKeysSorted(fields.Keys);
    FaultAtFourth(op, outer, fields, 1, 2, 3, 4, ta, tb, tc, f);
  }

  lemma TailOfTwo(op: Operation.Operation, t: BitMap, p: nat, q: nat, fp: string, fq: string)
    requires p in t && q in t
    requires FieldTextAt(op, p, t[p]) == Success(fp)
    requires FieldTextAt(op, q, t[q]) == Success(fq)
    ensures TemplateText(op, t, [p, q]) == Success(fp + fq)
  {
    TemplateCons(op, t, q, [], fq, "");
    assert [q] + [] == [q] && fq + "" == fq;
    TemplateCons(op, t, p, [q], fp, fq);
    assert [p] + [q] == [p, q];
  }

  lemma TailOfThree(op: Operation.Operation, t: BitMap, p: nat, q: nat, r: nat, fp: string, fq: string, fr: string)
    requires p in t && q in t && r in t
    requires FieldTextAt(op, p, t[p]) == Success(fp)
    requires FieldTextAt(op, q, t[q]) == Success(fq)
    requires FieldTextAt(op, r, t[r]) == Success(fr)
    ensures TemplateText(op, t, [p, q, r]) == Success(fp + (fq + fr))
  {
    TailOfTwo(op, t, q, r, fq, fr);
    TemplateCons(op, t, p, [q, r], fp, fq + fr);
    assert [p] + [q, r] == [p, q, r];
  }

  /** Positions 2 to 5 of a template, each rendered, make up the rest of the message after position 1. */
  lemma TailOfFour(op: Operation.Operation, t: BitMap, f2: string, f3: string, f4: string, f5: string)
    requires 2 in t && 3 in t && 4 in t && 5 in t
    requires FieldTextAt(op, 2, t[2]) == Success(f2)
    requires FieldTextAt(op, 3, t[3]) == Success(f3)
    requires FieldTextAt(op, 4, t[4]) == Success(f4)
    requires FieldTextAt(op, 5, t[5]) == Success(f5)
    ensures TemplateText(op, t, [2, 3, 4, 5]) == Success(f2 + (f3 + (f4 + f5)))
  {
    TailOfThree(op, t, 3, 4, 5, f3, f4, f5);
    TemplateCons(op, t, 2, [3, 4, 5], f2, f3 + (f4 + f5));
    assert [2] + [3, 4, 5] == [2, 3, 4, 5];
  }
}
