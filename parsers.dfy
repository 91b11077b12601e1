// The field extractors of the bitmap dialect. The source has two copies:
// `iso8853_parsers` in src/messaging_specification/bitmap_templates.rs, written
// against a record whose attributes are always present, and the free functions
// of src/messaging_specification/iso8853.rs, written against the current record
// whose attributes are `Option`s and `expect`ed. Both compute the same values;
// this module follows the second and turns each `expect` into a
// `MissingAttribute` fault and each `todo!()` into an `Unsupported` fault. The
// STFS transaction identifier of src/bank.rs is one more extractor.

module Parsers {
  import opened Gateway
  import Text
  import Currency
  import Payment
  import Operation

  /** Absent (`None`) leaves the field out; a fault stops the encoding. */
  type ParseResult = Result<Option<string>, Fault>

  /** A field extractor: the source's `OperationParser` function type. */
  type OperationParser = Operation.Operation -> ParseResult

  function Missing(attribute: string): ParseResult
  {
    Failure(MissingAttribute(attribute))
  }

  /** The placeholder transaction identifier of the generic dialect. */
  function TransactionIdentifier(op: Operation.Operation): (r: ParseResult)
    ensures r.Success? && r.value.Some? && |r.value.value| == 3
  {
    Success(Some("abc"))
  }

  /** The placeholder transaction identifier STFS substitutes for the generic one. */
  function StfsTransactionIdentifier(op: Operation.Operation): (r: ParseResult)
    ensures r.Success? && r.value.Some? && |r.value.value| == 3
    ensures r != TransactionIdentifier(op)
  {
    Success(Some("123"))
  }

  /** The merchant id; fails exactly when the operation names no merchant. */
  function MerchantId(op: Operation.Operation): (r: ParseResult)
    ensures r.Failure? <==> op.merchant.None?
    ensures r.Failure? ==> r.error == MissingAttribute("merchant")
    ensures r.Success? ==> r.value == Some(op.merchant.value.mid)
  {
    if op.merchant.None? then Missing("merchant") else Success(Some(op.merchant.value.mid))
  }

  /** "AUTH" for an authorisation; every other request kind has no code yet. */
  function RequestTypeCode(op: Operation.Operation): (r: ParseResult)
    ensures r.Success? <==> op.requestType == Some(Operation.Auth)
    ensures r.Success? ==> r.value == Some("AUTH")
    ensures op.requestType.None? ==> r == Failure(MissingAttribute("request_type"))
    ensures op.requestType.Some? && r.Failure? ==> r.error.Unsupported?
  {
    if op.requestType.None? then Missing("request_type")
    else (
      match op.requestType.value
      case Auth => Success(Some("AUTH"))
      case Refund => Failure(Unsupported("request type Refund"))
      case AccountCheck => Failure(Unsupported("request type AccountCheck")))
  }

  /** The PAN of a card or the number of an account, verbatim. */
  function AccountNumber(op: Operation.Operation): (r: ParseResult)
    ensures r.Failure? <==> op.payment.None?
    ensures r.Failure? ==> r.error == MissingAttribute("payment")
    ensures r.Success? ==> r.value == Some(if op.payment.value.Card? then op.payment.value.pan else op.payment.value.accountNumber)
  {
    if op.payment.None? then Missing("payment")
    else (
      match op.payment.value
      case Card(pan, _, _, _, _) => Success(Some(pan))
      case Account(accountNumber, _, _, _) => Success(Some(accountNumber)))
  }

  /** The initial of a card's network; nothing for an account. */
  function Network(op: Operation.Operation): (r: ParseResult)
    ensures r.Failure? <==> op.payment.None? || (op.payment.value.Card? && op.payment.value.network == "")
    ensures op.payment.None? ==> r == Failure(MissingAttribute("payment"))
    ensures r == Success(None) <==> op.payment.Some? && op.payment.value.Account?
    ensures r.Success? && r.value.Some? ==>
              op.payment.value.Card? && r.value.value == [op.payment.value.network[0]]
  {
    if op.payment.None? then Missing("payment")
    else (
      match op.payment.value
      case Card(_, _, _, _, network) =>
        if network == "" then Failure(EmptyNetwork) else Success(Some(network[..1]))
      case Account(_, _, _, _) => Success(None))
  }

  /** A card's expiry date without its slashes; nothing for an account. */
  function ExpiryDate(op: Operation.Operation): (r: ParseResult)
    ensures r.Failure? <==> op.payment.None?
    ensures r.Failure? ==> r.error == MissingAttribute("payment")
    ensures r == Success(None) <==> op.payment.Some? && op.payment.value.Account?
    ensures r.Success? && r.value.Some? ==>
              && op.payment.value.Card?
              && '/' !in r.value.value
              && r.value.value == Text.RemoveAll(op.payment.value.expiryDate, '/')
  {
    if op.payment.None? then Missing("payment")
    else (
      match op.payment.value
      case Card(_, expiryDate, _, _, _) => Success(Some(Text.RemoveAll(expiryDate, '/')))
      case Account(_, _, _, _) => Success(None))
  }

  /** A card's security code verbatim; nothing for an account. */
  function CardholderVerificationNumber(op: Operation.Operation): (r: ParseResult)
    ensures r.Failure? <==> op.payment.None?
    ensures r.Failure? ==> r.error == MissingAttribute("payment")
    ensures r == Success(None) <==> op.payment.Some? && op.payment.value.Account?
    ensures r.Success? && r.value.Some? ==> op.payment.value.Card? && r.value.value == op.payment.value.securityCode
  {
    if op.payment.None? then Missing("payment")
    else (
      match op.payment.value
      case Card(_, _, securityCode, _, _) => Success(Some(securityCode))
      case Account(_, _, _, _) => Success(None))
  }

  /**
   * The amount as `to_string` renders it: digits denoting the amount with no
   * leading zero, which by `Text.CanonicalDecimal` is the one such rendering.
   */
  function TransactionAmount(op: Operation.Operation): (r: ParseResult)
    ensures r.Failure? <==> op.transaction.None?
    ensures r.Failure? ==> r.error == MissingAttribute("transaction")
    ensures r.Success? ==> r.value.Some? && Text.AllDigits(r.value.value)
    ensures r.Success? ==> Text.DigitsValue(r.value.value) == op.transaction.value.amount
                           && (|r.value.value| > 1 ==> r.value.value[0] != '0')
    ensures r.Success? ==> r.value == Some(Text.NatToString(op.transaction.value.amount))
  {
    if op.transaction.None? then Missing("transaction")
    else Success(Some(Text.NatToString(op.transaction.value.amount)))
  }

  /** The billing name verbatim. */
  function BillingName(op: Operation.Operation): (r: ParseResult)
    ensures r.Failure? <==> op.transaction.None?
    ensures r.Failure? ==> r.error == MissingAttribute("transaction")
    ensures r.Success? ==> r.value == Some(op.transaction.value.billingname)
  {
    if op.transaction.None? then Missing("transaction")
    else Success(Some(op.transaction.value.billingname))
  }

  /** The three-letter currency code; it reads back as the transaction's currency. */
  function CurrencyCode(op: Operation.Operation): (r: ParseResult)
    ensures r.Failure? <==> op.transaction.None?
    ensures r.Failure? ==> r.error == MissingAttribute("transaction")
    ensures r.Success? ==> r.value.Some? && |r.value.value| == 3
    ensures r.Success? ==> r.value == Some(Currency.ToString(op.transaction.value.currency))
  {
    if op.transaction.None? then Missing("transaction")
    else Success(Some(Currency.ToString(op.transaction.value.currency)))
  }

  /** The amount and the currency extracted from a transaction read back as that transaction's amount and currency. */
  lemma {:induction false} ParsedValuesReadBack(op: Operation.Operation)
    requires op.transaction.Some?
    ensures Text.ParseU32(TransactionAmount(op).value.value) == Success(op.transaction.value.amount)
    ensures Currency.FromStr(CurrencyCode(op).value.value) == Success(op.transaction.value.currency)
  {
    Text.ParseU32RoundTrip(op.transaction.value.amount);
    Currency.RoundTrip(op.transaction.value.currency);
  }

  /** Every extractor of the bitmap dialect, generic and STFS. */
  const Extractors: seq<OperationParser> := [
    TransactionIdentifier, StfsTransactionIdentifier, MerchantId, RequestTypeCode,
    AccountNumber, Network, ExpiryDate, CardholderVerificationNumber,
    TransactionAmount, BillingName, CurrencyCode]

  /** On an operation with every attribute and an Auth request, only an empty network name can make an extractor fail. */
  lemma CompleteAuthParses(op: Operation.Operation)
    requires op.requestType == Some(Operation.Auth)
    requires op.payment.Some? && op.transaction.Some? && op.merchant.Some?
    requires op.payment.value.Card? ==> op.payment.value.network != ""
    ensures forall i :: 0 <= i < |Extractors| ==> Extractors[i](op).Success?
  {
  }
}
