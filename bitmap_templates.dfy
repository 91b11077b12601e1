// The bitmap dialect's template as the source builds it, one insertion at a
// time (src/messaging_specification/bitmap_templates.rs). The extractors
// that file defines are those of the `Parsers` module.

module BitmapTemplates {
  import opened Gateway
  import opened Messaging
  import opened Iso8853
  import Parsers

  /** `From<HashMap<usize, tuple>> for BitField`: a group with the same sub-positions, each converted on its own. */
  function FromTupleMap(m: map<nat, FieldTuple>): (f: BitField)
    ensures f.Group? && f.fields.Keys == m.Keys
    ensures forall k :: k in m ==> Single(f.fields[k]) == FromTuple(m[k])
  {
    Group(Leaves(m))
  }

  /**
   * `iso8853_bitmap_template`: fills a map position by position and each
   * group's map sub-position by sub-position. The result is the dialect's
   * constant template.
   */
  method BuildTemplate() returns (hm: BitMap)
    ensures hm == Template()
  {
    hm := map[];
    hm := hm[1 := FromTuple((Parsers.TransactionIdentifier, 3, 3, None))];
    hm := hm[2 := FromTuple((Parsers.RequestTypeCode, 4, 4, None))];

    var paymentFields: map<nat, FieldTuple> := map[];
    paymentFields := paymentFields[1 := (Parsers.AccountNumber, 8, 20, Some('0'))];
    paymentFields := paymentFields[2 := (Parsers.Network, 1, 1, None)];
    paymentFields := paymentFields[3 := (Parsers.ExpiryDate, 4, 6, Some('0'))];
    paymentFields := paymentFields[4 := (Parsers.CardholderVerificationNumber, 3, 4, Some('0'))];
    hm := hm[3 := FromTupleMap(paymentFields)];

    var transactionFields: map<nat, FieldTuple> := map[];
    transactionFields := transactionFields[1 := (Parsers.TransactionAmount, 10, 20, Some('0'))];
    transactionFields := transactionFields[2 := (Parsers.CurrencyCode, 3, 3, None)];
    transactionFields := transactionFields[3 := (Parsers.BillingName, 0, 20, Some(' '))];
    hm := hm[4 := FromTupleMap(transactionFields)];

    var merchantFields: map<nat, FieldTuple> := map[];
    merchantFields := merchantFields[1 := (Parsers.MerchantId, 16, 16, Some('0'))];
    hm := hm[5 := FromTupleMap(merchantFields)];
    TemplateFromTuples();
  }
}
