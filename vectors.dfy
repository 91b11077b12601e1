// The end-to-end examples of src/operation.rs, proved over the model: the
// exact messages for a card Auth under Ems and Stfs, the overlength fault of
// a six-digit security code under Stfs, and the operation built from a
// key/value map.

module Vectors {
  import opened Gateway
  import opened Text
  import opened Messaging
  import MessagingLaws
  import opened ExampleFields
  import Iso8853
  import Facade
  import Parsers
  import Operation
  import Payment
  import Transaction
  import Currency
  import Merchant
  import Bank

  // ---------------------------------------------------------------------
  // The operations of the tests

  const MastercardPan: string := "5100000000000000"

  /** `Payment::card` classifies the test PAN 5100… as MASTERCARD and keeps the rest as given. */
  lemma MastercardBuilt(securityCode: string)
    ensures Payment.NewCard(MastercardPan, "2024/12", securityCode, "Ben Jones")
            == Success(Payment.Card(MastercardPan, "2024/12", securityCode, "Ben Jones", "MASTERCARD"))
  {
    var pan := MastercardPan;
    assert pan[..4] == "5100";
    assert "5100"[..3] == "510" && "510"[..2] == "51" && "51"[..1] == "5" && "5"[..0] == "";
    assert DigitsValue("5") == 5;
    assert DigitsValue("51") == 51;
    assert DigitsValue("510") == 510;
    assert DigitsValue("5100") == 5100;
  }

  /** The test transaction: 12345 minor units of GBP billed to Ben Jones. */
  function TestTransaction(): Transaction.Transaction
  {
    Transaction.Transaction(12345, Currency.GBP, "Ben Jones")
  }

  /** The card Auth operation of the encoding tests, for a security code and a bank. */
  function CardAuth(securityCode: string, bank: Bank.Bank): Operation.Operation
  {
    Operation.Operation(
      Some(Operation.Auth),
      Some(bank),
      Some(Payment.Card(MastercardPan, "2024/12", securityCode, "Ben Jones", "MASTERCARD")),
      Some(TestTransaction()),
      Some(Merchant.TestMerchant()))
  }

  /** The tests' operations hold exactly what the source's constructors build. */
  lemma CardAuthBuilt(securityCode: string, bank: Bank.Bank)
    ensures Transaction.New(12345, Currency.GBP, Some("Ben Jones")) == Success(TestTransaction())
    ensures Payment.NewCard(MastercardPan, "2024/12", securityCode, "Ben Jones")
            == Success(CardAuth(securityCode, bank).payment.value)
  {
    MastercardBuilt(securityCode);
  }

  // ---------------------------------------------------------------------
  // The dialect's template, leaf by leaf

  lemma TemplateLeaves()
    ensures Iso8853.Template()[2] == Single(Leaf(Parsers.RequestTypeCode, 4, 4, None))
    ensures Iso8853.Template()[3].Group? && Iso8853.Template()[4].Group? && Iso8853.Template()[5].Group?
    ensures Iso8853.Template()[3].fields.Keys == {1, 2, 3, 4}
    ensures Iso8853.Template()[3].fields[1] == Leaf(Parsers.AccountNumber, 8, 20, Some('0'))
    ensures Iso8853.Template()[3].fields[2] == Leaf(Parsers.Network, 1, 1, None)
    ensures Iso8853.Template()[3].fields[3] == Leaf(Parsers.ExpiryDate, 4, 6, Some('0'))
    ensures Iso8853.Template()[3].fields[4] == Leaf(Parsers.CardholderVerificationNumber, 3, 4, Some('0'))
    ensures Iso8853.Template()[4].fields.Keys == {1, 2, 3}
    ensures Iso8853.Template()[4].fields[1] == Leaf(Parsers.TransactionAmount, 10, 20, Some('0'))
    ensures Iso8853.Template()[4].fields[2] == Leaf(Parsers.CurrencyCode, 3, 3, None)
    ensures Iso8853.Template()[4].fields[3] == Leaf(Parsers.BillingName, 0, 20, Some(' '))
    ensures Iso8853.Template()[5].fields.Keys == {1}
    ensures Iso8853.Template()[5].fields[1] == Leaf(Parsers.MerchantId, 16, 16, Some('0'))
  {
  }

  /** The payment group of a card whose PAN has 16 digits, expiring 2024/12, with a three-digit security code. */
  lemma CardGroup(op: Operation.Operation, payment: map<nat, Leaf>, pan: string, network: string, code: string)
    requires payment.Keys == {1, 2, 3, 4}
    requires payment[1] == Leaf(Parsers.AccountNumber, 8, 20, Some('0'))
    requires payment[2] == Leaf(Parsers.Network, 1, 1, None)
    requires payment[3] == Leaf(Parsers.ExpiryDate, 4, 6, Some('0'))
    requires payment[4] == Leaf(Parsers.CardholderVerificationNumber, 3, 4, Some('0'))
    requires op.payment.Some? && op.payment.value.Card?
    requires op.payment.value.pan == pan && |pan| == 16
    requires op.payment.value.network == network && network != ""
    requires op.payment.value.expiryDate == "2024/12"
    requires op.payment.value.securityCode == code && |code| == 3
    ensures FieldTextAt(op, 3, Group(payment))
            == Success(Frame(3, "0116" + pan + ("0201" + [network[0]] + ("0306202412" + ("0403" + code)))))
  {
    PanLeaf(op, payment[1], pan);
    NetworkLeaf(op, payment[2], network);
    ExpiryWithoutSlash();
    ExpiryLeaf(op, payment[3], "2024/12");
    SecurityCodeLeaf(op, payment[4], code);
    GroupOfFour(op, 3, payment, "0116" + pan, "0201" + [network[0]], "0306202412", "0403" + code);
  }

  /** The transaction group of the test transaction. */
  lemma TestTransactionGroup(op: Operation.Operation, transaction: map<nat, Leaf>)
    requires transaction.Keys == {1, 2, 3}
    requires transaction[1] == Leaf(Parsers.TransactionAmount, 10, 20, Some('0'))
    requires transaction[2] == Leaf(Parsers.CurrencyCode, 3, 3, None)
    requires transaction[3] == Leaf(Parsers.BillingName, 0, 20, Some(' '))
    requires op.transaction == Some(TestTransaction())
    ensures FieldTextAt(op, 4, Group(transaction))
            == Success(Frame(4, "01100000012345" + ("0203GBP" + "0309Ben Jones")))
  {
    AmountLeaf(op, transaction[1]);
    CurrencyLeaf(op, transaction[2]);
    BillingNameLeaf(op, transaction[3]);
    GroupOfThree(op, 4, transaction, "01100000012345", "0203GBP", "0309Ben Jones");
  }

  /** The merchant group of the test merchant. */
  lemma TestMerchantGroup(op: Operation.Operation, merchant: map<nat, Leaf>)
    requires merchant.Keys == {1} && merchant[1] == Leaf(Parsers.MerchantId, 16, 16, Some('0'))
    requires op.merchant == Some(Merchant.TestMerchant())
    ensures FieldTextAt(op, 5, Group(merchant)) == Success(Frame(5, "0116" + ("0" + "000104912345678")))
  {
    MerchantIdLeaf(op, merchant[1], "000104912345678");
    GroupOfOne(op, 5, merchant, "0116" + ("0" + "000104912345678"));
  }

  /**
   * Positions 2 to 5 of the tests' Auth messages: the request type, the
   * card group, the transaction group and the merchant group, each framed.
   * For the tests' MASTERCARD with security code 123 the four pieces spell
   * "0204AUTH", "0342011651000000000000000201M03062024120403123",
   * "0434011000000123450203GBP0309Ben Jones" and "052001160000104912345678",
   * which after "0103abc" (Ems) or "0103123" (Stfs) are the expected strings
   * of src/operation.rs:95 and src/operation.rs:102.
   */
  function AuthTailText(pan: string, initial: char, code: string): string
  {
    "0204AUTH"
    + (Frame(3, "0116" + pan + ("0201" + [initial] + ("0306202412" + ("0403" + code))))
    + (Frame(4, "01100000012345" + ("0203GBP" + "0309Ben Jones"))
    + Frame(5, "0116" + ("0" + "000104912345678"))))
  }

  /** Positions 2 to 5 of an Auth for a card expiring 2024/12 with a three-digit security code, the test transaction and the test merchant. */
  lemma AuthTail(op: Operation.Operation, pan: string, network: string, code: string)
    requires op.requestType == Some(Operation.Auth)
    requires op.payment.Some? && op.payment.value.Card?
    requires op.payment.value.pan == pan && |pan| == 16
    requires op.payment.value.network == network && network != ""
    requires op.payment.value.expiryDate == "2024/12"
    requires op.payment.value.securityCode == code && |code| == 3
    requires op.transaction == Some(TestTransaction()) && op.merchant == Some(Merchant.TestMerchant())
    ensures TemplateText(op, Iso8853.Template(), [2, 3, 4, 5]) == Success(AuthTailText(pan, network[0], code))
  {
    var t := Iso8853.Template();
    TemplateLeaves();
    RequestTypeLeaf(op, t[2].leaf);
    CardGroup(op, t[3].fields, pan, network, code);
    TestTransactionGroup(op, t[4].fields);
    TestMerchantGroup(op, t[5].fields);
    TailOfFour(op, t, "0204AUTH",
      Frame(3, "0116" + pan + ("0201" + [network[0]] + ("0306202412" + ("0403" + code)))),
      Frame(4, "01100000012345" + ("0203GBP" + "0309Ben Jones")),
      Frame(5, "0116" + ("0" + "000104912345678")));
  }

  // ---------------------------------------------------------------------
  // The encoding tests

  /** Ems sends the generic transaction identifier `abc` in front of the Auth fields. */
  lemma EmsCardAuth()
    ensures Facade.BankEncoding(Bank.Ems, CardAuth("123", Bank.Ems))
            == Success("0103abc" + AuthTailText(MastercardPan, 'M', "123"))
  {
    var op := CardAuth("123", Bank.Ems);
    AuthTail(op, MastercardPan, "MASTERCARD", "123");
    Facade.StfsVersusEms(op);
  }

  /** Stfs sends its own transaction identifier `123`; the rest of the message is the same as under Ems. */
  lemma StfsCardAuth()
    ensures Facade.BankEncoding(Bank.Stfs, CardAuth("123", Bank.Stfs))
            == Success("0103123" + AuthTailText(MastercardPan, 'M', "123"))
  {
    var op := CardAuth("123", Bank.Stfs);
    AuthTail(op, MastercardPan, "MASTERCARD", "123");
    Facade.StfsVersusEms(op);
  }

  /** With a six-digit security code the card group overruns leaf 3.4, and the whole message is that fault. */
  lemma CardGroupOverlength(op: Operation.Operation, payment: map<nat, Leaf>, pan: string, network: string)
    requires payment.Keys == {1, 2, 3, 4}
    requires payment[1] == Leaf(Parsers.AccountNumber, 8, 20, Some('0'))
    requires payment[2] == Leaf(Parsers.Network, 1, 1, None)
    requires payment[3] == Leaf(Parsers.ExpiryDate, 4, 6, Some('0'))
    requires payment[4] == Leaf(Parsers.CardholderVerificationNumber, 3, 4, Some('0'))
    requires op.payment.Some? && op.payment.value.Card?
    requires op.payment.value.pan == pan && |pan| == 16
    requires op.payment.value.network == network && network != ""
    requires op.payment.value.expiryDate == "2024/12"
    requires op.payment.value.securityCode == "123123"
    ensures FieldTextAt(op, 3, Group(payment)) == Failure(Overlength("123123", [3, 4], 6, 4))
  {
    PanLeaf(op, payment[1], pan);
    NetworkLeaf(op, payment[2], network);
    ExpiryWithoutSlash();
    ExpiryLeaf(op, payment[3], "2024/12");
    SecurityCodeTooLong(op, payment[4]);
    GroupFaultOfFour(op, 3, payment, "0116" + pan, "0201" + [network[0]], "0306202412",
      Overlength("123123", [3, 4], 6, 4));
  }

  lemma OverlengthTail(op: Operation.Operation)
    requires op.requestType == Some(Operation.Auth)
    requires op.payment.Some? && op.payment.value.Card?
    requires op.payment.value.pan == MastercardPan && op.payment.value.network == "MASTERCARD"
    requires op.payment.value.expiryDate == "2024/12"
    requires op.payment.value.securityCode == "123123"
    ensures TemplateText(op, Iso8853.Template(), [2, 3, 4, 5]) == Failure(Overlength("123123", [3, 4], 6, 4))
  {
    var t := Iso8853.Template();
    TemplateLeaves();
    Iso8853.TemplateShape();
    RequestTypeLeaf(op, t[2].leaf);
    CardGroupOverlength(op, t[3].fields, MastercardPan, "MASTERCARD");
    TemplateTextStep(op, t, [2, 3, 4, 5]);
    assert [2, 3, 4, 5][1..] == [3, 4, 5];
    TemplateTextStep(op, t, [3, 4, 5]);
  }

  /** The third test: Stfs refuses the six-digit security code with the overlength fault of leaf 3.4. */
  lemma StfsSecurityCodeTooLong()
    ensures Facade.BankEncoding(Bank.Stfs, CardAuth("123123", Bank.Stfs))
            == Failure(EncodingError(Overlength("123123", [3, 4], 6, 4)))
  {
    var op := CardAuth("123123", Bank.Stfs);
    OverlengthTail(op);
    Facade.StfsVersusEms(op);
  }

  // ---------------------------------------------------------------------
  // The key/value tests

  /** A map with amount, currency and billing name builds the tests' example operation. */
  lemma FromFullMap()
    ensures Operation.TryFrom(map["billingname" := "Ben Jones", "currencyiso3a" := "GBP", "baseamount" := "12345"])
            == Success(Operation.ExampleOperation())
  {
    AmountDigits();
    ParseU32RoundTrip(12345);
    Currency.RoundTrip(Currency.GBP);
  }

  /** Without a currency the map is refused with the missing-currency field error. */
  lemma FromMapWithoutCurrency()
    ensures Operation.TryFrom(map["billingname" := "Ben Jones", "baseamount" := "12345"])
            == Failure(FieldError("Missing currencyiso3a"))
  {
    AmountDigits();
    ParseU32RoundTrip(12345);
  }
}
