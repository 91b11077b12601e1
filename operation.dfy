// The operation record and its construction from a key/value map
// (src/operation.rs). `Operation::encode` needs the encoder, which itself
// reads this record, so it is modelled in module Facade.

module Operation {
  import opened Gateway
  import Text
  import Bank
  import Payment
  import Transaction
  import Currency
  import Merchant

  datatype RequestType = Auth | Refund | AccountCheck

  /** Every attribute is optional in the record; the encoder decides which it needs. */
  datatype Operation = Operation(
    requestType: Option<RequestType>,
    bank: Option<Bank.Bank>,
    payment: Option<Payment.Payment>,
    transaction: Option<Transaction.Transaction>,
    merchant: Option<Merchant.Merchant>)

  /** The card every map-built operation carries. */
  function FixedCard(): Payment.Payment
  {
    Payment.Card("4000000000000000", "2024/12", "123", "Ben Jones", "VISA")
  }

  /** `Payment::card` accepts the fixed card's PAN and classifies it as VISA. */
  lemma FixedCardBuilt()
    ensures Payment.NewCard("4000000000000000", "2024/12", "123", "Ben Jones") == Success(FixedCard())
  {
    var pan := "4000000000000000";
    assert pan[..4] == "4000";
    assert "4000"[..3] == "400" && "400"[..2] == "40" && "40"[..1] == "4" && "4"[..0] == "";
    assert Text.DigitsValue("4") == 4;
    assert Text.DigitsValue("40") == 40;
    assert Text.DigitsValue("400") == 400;
    assert Text.DigitsValue("4000") == 4000;
  }

  /** The amount a map supplies, or why it supplies none. */
  function Amount(v: map<string, string>): Result<U32, GatewayError>
  {
    if "baseamount" !in v then Failure(FieldError("Missing baseamount"))
    else
      match Text.ParseU32(v["baseamount"])
      case Success(a) => Success(a)
      case Failure(m) => Failure(FieldError(m))
  }

  /**
   * `TryFrom<HashMap<&str, String>>`: the amount comes from "baseamount",
   * the currency from "currencyiso3a", the billing name from "billingname"
   * (empty when absent); everything else is fixed: an Auth request for Ems
   * with the test card and the test merchant. It succeeds exactly when the
   * amount parses as a `u32` and the currency code is known; the amount is
   * checked first, and each failure is the field error of the step that
   * failed.
   */
  function TryFrom(v: map<string, string>): (r: Result<Operation, GatewayError>)
    ensures r.Success? <==> Amount(v).Success? && "currencyiso3a" in v
                            && Currency.FromStr(v["currencyiso3a"]).Success?
    ensures r.Success? ==>
              && r.value.requestType == Some(Auth)
              && r.value.bank == Some(Bank.Ems)
              && r.value.payment == Some(FixedCard())
              && r.value.merchant == Some(Merchant.TestMerchant())
              && r.value.transaction == Some(Transaction.Transaction(
                   Text.DigitsValue(Text.UnsignedDigits(v["baseamount"])),
                   Currency.FromStr(v["currencyiso3a"]).value,
                   if "billingname" in v then v["billingname"] else ""))
    ensures Amount(v).Failure? ==> r == Failure(Amount(v).error)
    ensures Amount(v).Success? && "currencyiso3a" !in v ==> r == Failure(FieldError("Missing currencyiso3a"))
    ensures Amount(v).Success? && "currencyiso3a" in v && Currency.FromStr(v["currencyiso3a"]).Failure? ==>
              r == Failure(FieldError("Invalid currency: " + v["currencyiso3a"]))
  {
    var amount :- Amount(v);
    var code :- if "currencyiso3a" in v then Success(v["currencyiso3a"])
                else Failure(FieldError("Missing currencyiso3a"));
    var currency :- Currency.FromStr(code);
    var billingname := if "billingname" in v then v["billingname"] else "";
    FixedCardBuilt();
    var card := Payment.NewCard("4000000000000000", "2024/12", "123", "Ben Jones").value;
    Success(Operation(
      Some(Auth),
      Some(Bank.Ems),
      Some(card),
      Some(Transaction.Transaction(amount, currency, billingname)),
      Some(Merchant.Merchant("Test Merchant", "000104912345678", "test@merchant.com"))))
  }

  /** `example_operation`: the operation the source's tests build by hand. */
  function ExampleOperation(): Operation
  {
    Operation(
      Some(Auth),
      Some(Bank.Ems),
      Some(FixedCard()),
      Some(Transaction.Transaction(12345, Currency.GBP, "Ben Jones")),
      Some(Merchant.TestMerchant()))
  }
}
