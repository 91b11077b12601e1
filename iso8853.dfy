// The bitmap dialect's template written as one constant, its tuple
// conversion, and the context-driven field renderer
// (src/messaging_specification/iso8853.rs).

module Iso8853 {
  import opened Gateway
  import opened Text
  import opened Messaging
  import Parsers
  import Currency

  /** A leaf as the source writes it: extractor, minimum length, maximum length, padding character. */
  type FieldTuple = (Parsers.OperationParser, nat, nat, Option<char>)

  /** The tuple form of a leaf. */
  function ToTuple(leaf: Leaf): FieldTuple
  {
    (leaf.parser, leaf.minLength, leaf.maxLength, leaf.paddingChar)
  }

  /** `From<(parser, min, max, pad)> for BitField`: a single field holding the tuple's four parts, in order. */
  function FromTuple(v: FieldTuple): (f: BitField)
    ensures f.Single? && ToTuple(f.leaf) == v
  {
    Single(Leaf(v.0, v.1, v.2, v.3))
  }

  /** Leaves are determined by their tuples, so the conversion loses nothing. */
  lemma FromTupleInjective(v: FieldTuple, w: FieldTuple)
    requires FromTuple(v) == FromTuple(w)
    ensures v == w
  {
  }

  /** The leaves of a group given by tuples. */
  function Leaves(m: map<nat, FieldTuple>): (fields: map<nat, Leaf>)
    ensures fields.Keys == m.Keys
    ensures forall k :: k in m ==> FromTuple(m[k]) == Single(fields[k])
  {
    map k | k in m :: FromTuple(m[k]).leaf
  }

  /** Sub-positions 1-4 of position 3: account number, network initial, expiry, security code. */
  function PaymentFields(): map<nat, Leaf>
  {
    map[
      1 := Leaf(Parsers.AccountNumber, 8, 20, Some('0')),
      2 := Leaf(Parsers.Network, 1, 1, None),
      3 := Leaf(Parsers.ExpiryDate, 4, 6, Some('0')),
      4 := Leaf(Parsers.CardholderVerificationNumber, 3, 4, Some('0'))]
  }

  /** Sub-positions 1-3 of position 4: amount, currency code, billing name. */
  function TransactionFields(): map<nat, Leaf>
  {
    map[
      1 := Leaf(Parsers.TransactionAmount, 10, 20, Some('0')),
      2 := Leaf(Parsers.CurrencyCode, 3, 3, None),
      3 := Leaf(Parsers.BillingName, 0, 20, Some(' '))]
  }

  /** Sub-position 1 of position 5: the merchant id. */
  function MerchantFields(): map<nat, Leaf>
  {
    map[1 := Leaf(Parsers.MerchantId, 16, 16, Some('0'))]
  }

  /** `ISO8853_BITMAP_TEMPLATE`: five positions, the last three of them groups. */
  function Template(): BitMap
  {
    map[
      1 := Single(Leaf(Parsers.TransactionIdentifier, 3, 3, None)),
      2 := Single(Leaf(Parsers.RequestTypeCode, 4, 4, None)),
      3 := Group(PaymentFields()),
      4 := Group(TransactionFields()),
      5 := Group(MerchantFields())
    ]
  }

  /** The template as the source writes it, each leaf given by its tuple. */
  lemma TemplateFromTuples()
    ensures Template()[1] == FromTuple((Parsers.TransactionIdentifier, 3, 3, None))
    ensures Template()[2] == FromTuple((Parsers.RequestTypeCode, 4, 4, None))
    ensures PaymentFields() == Leaves(map[
              1 := (Parsers.AccountNumber, 8, 20, Some('0')),
              2 := (Parsers.Network, 1, 1, None),
              3 := (Parsers.ExpiryDate, 4, 6, Some('0')),
              4 := (Parsers.CardholderVerificationNumber, 3, 4, Some('0'))])
    ensures TransactionFields() == Leaves(map[
              1 := (Parsers.TransactionAmount, 10, 20, Some('0')),
              2 := (Parsers.CurrencyCode, 3, 3, None),
              3 := (Parsers.BillingName, 0, 20, Some(' '))])
    ensures MerchantFields() == Leaves(map[1 := (Parsers.MerchantId, 16, 16, Some('0'))])
  {
  }

  /** A leaf whose minimum does not exceed its maximum, and whose maximum fits the two-digit length header. */
  predicate FitsHeader(leaf: Leaf)
  {
    leaf.minLength <= leaf.maxLength <= 99
  }

  /** Every leaf of a template, at top level or inside a group, fits its header. */
  predicate EveryLeafFits(t: BitMap)
  {
    forall p :: p in t ==>
      match t[p]
      case Single(leaf) => FitsHeader(leaf)
      case Group(fields) => forall q :: q in fields ==> FitsHeader(fields[q])
  }

  /**
   * The template has positions 1 to 5; 1 and 2 are leaves, 3, 4 and 5 are
   * groups at sub-positions 1-4, 1-3 and 1.
   */
  lemma TemplateShape()
    ensures Template().Keys == {1, 2, 3, 4, 5}
    ensures Template()[1].Single? && Template()[2].Single?
    ensures Template()[3].Group? && Template()[3].fields.Keys == {1, 2, 3, 4}
    ensures Template()[4].Group? && Template()[4].fields.Keys == {1, 2, 3}
    ensures Template()[5].Group? && Template()[5].fields.Keys == {1}
  {
  }

  /** No leaf of the template has a minimum above its maximum, and every length fits the two-digit header. */
  lemma TemplateFits()
    ensures EveryLeafFits(Template())
  {
    var t := Template();
    assert forall q :: q in PaymentFields() ==> FitsHeader(PaymentFields()[q]);
    assert forall q :: q in TransactionFields() ==> FitsHeader(TransactionFields()[q]);
    assert forall q :: q in MerchantFields() ==> FitsHeader(MerchantFields()[q]);
  }

  /** Every currency code fits the currency leaf exactly: three characters, which is both its minimum and its maximum. */
  lemma CurrencyFitsLeaf(c: Currency.Currency)
    ensures var leaf := Template()[4].fields[2];
      leaf.parser == Parsers.CurrencyCode && leaf.minLength == |Currency.ToString(c)| == leaf.maxLength
  {
  }

  // ---------------------------------------------------------------------
  // `iso8853_string_field`

  /** What a field renderer knows about where it is. */
  datatype EncodingContext = EncodingContext(position: Option<nat>)

  /**
   * `iso8853_string_field`: runs the dialect-neutral field renderer on
   * `data`, then puts the two-digit length and, in front of that, the
   * two-digit position from the context. Without a position there is no
   * field. The dialect-neutral renderer is not part of this model and is a
   * parameter here.
   */
  method StringFieldInContext(data: string, ctx: EncodingContext, field: BitField, render: (string, BitField) -> string)
    returns (r: Result<string, Fault>)
    ensures ctx.position.None? <==> r.Failure?
    ensures ctx.position.None? ==> r == Failure(MissingPosition)
    ensures ctx.position.Some? ==> r == Success(Frame(ctx.position.value, render(data, field)))
  {
    if ctx.position.None? {
      return Failure(MissingPosition);
    }
    var pos := ctx.position.value;
    var rendered := render(data, field);
    var buffer := TwoDigits(|rendered|) + rendered;
    buffer := TwoDigits(pos) + buffer;
    assert buffer == Frame(pos, rendered);
    r := Success(buffer);
  }
}
