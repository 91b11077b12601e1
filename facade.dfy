// Entry points of the bitmap encoder: the dialect's template and request
// encoding (src/messaging_specification/mod.rs), the per-bank encoding with
// its STFS variant (src/bank.rs), and `Operation::encode`
// (src/operation.rs).

module Facade {
  import opened Gateway
  import opened Messaging
  import Bank
  import Parsers
  import Operation
  import Iso8853
  import BitmapTemplates
  import MessagingLaws
  import opened Text

  // ---------------------------------------------------------------------
  // Dialects

  /** The fault of a dialect that has no template yet. */
  const ApacsUnsupported: Fault := Unsupported("APACS")

  /** `MessagingSpecification::get_template`: the bitmap dialect's template; the APACS dialect has none. */
  method GetTemplate(d: Bank.MessagingSpecification) returns (r: Result<BitMap, Fault>)
    ensures r.Success? <==> d == Bank.Iso8853
    ensures r.Success? ==> r.value == Iso8853.Template()
    ensures r.Failure? ==> r.error == ApacsUnsupported
  {
    match d
    case Iso8853 =>
      var template := BitmapTemplates.BuildTemplate();
      r := Success(template);
    case Apacs =>
      r := Failure(ApacsUnsupported);
  }

  /** What a dialect makes of an operation. */
  ghost function DialectEncoding(d: Bank.MessagingSpecification, op: Operation.Operation): Result<string, Fault>
  {
    match d
    case Iso8853 => Encoded(op, Iso8853.Template())
    case Apacs => Failure(ApacsUnsupported)
  }

  /** `MessagingSpecification::encode_request`: the operation formatted under the dialect's template. */
  method EncodeRequest(d: Bank.MessagingSpecification, op: Operation.Operation) returns (r: Result<string, Fault>)
    ensures r == DialectEncoding(d, op)
  {
    var template := GetTemplate(d);
    if template.Failure? {
      return Failure(template.error);
    }
    r := Format(op, template.value);
  }

  // ---------------------------------------------------------------------
  // Banks

  /**
   * The STFS variant of a template: position 1's extractor becomes the STFS
   * transaction identifier when position 1 is a leaf. Its bounds and
   * padding, every other position, and a template whose position 1 is
   * absent or a group are left as they were.
   */
  function StfsTemplate(t: BitMap): (u: BitMap)
    ensures u.Keys == t.Keys
    ensures forall p :: p in t && p != 1 ==> u[p] == t[p]
    ensures 1 in t && t[1].Single? ==>
              && u[1].Single?
              && u[1].leaf.parser == Parsers.StfsTransactionIdentifier
              && u[1].leaf.minLength == t[1].leaf.minLength
              && u[1].leaf.maxLength == t[1].leaf.maxLength
              && u[1].leaf.paddingChar == t[1].leaf.paddingChar
    ensures 1 in t && t[1].Group? ==> u == t
  {
    if 1 in t && t[1].Single? then t[1 := Single(t[1].leaf.(parser := Parsers.StfsTransactionIdentifier))]
    else t
  }

  /** A fault of the encoder as the gateway reports it. */
  function AsGatewayError(r: Result<string, Fault>): (g: Result<string, GatewayError>)
    ensures g.Success? <==> r.Success?
    ensures r.Success? ==> g.value == r.value
    ensures r.Failure? ==> g.error == EncodingError(r.error)
  {
    match r
    case Success(s) => Success(s)
    case Failure(f) => Failure(EncodingError(f))
  }

  /** What a bank makes of an operation: its dialect's encoding, under the STFS variant of the template for Stfs. */
  ghost function BankEncoding(b: Bank.Bank, op: Operation.Operation): Result<string, GatewayError>
  {
    if b == Bank.Stfs then AsGatewayError(Encoded(op, StfsTemplate(Iso8853.Template())))
    else AsGatewayError(DialectEncoding(Bank.Spec(b), op))
  }

  /**
   * `Bank::encode_request`: Stfs takes a fresh copy of its dialect's
   * template, patches position 1's extractor and formats with it; every
   * other bank encodes through its dialect.
   */
  method BankEncodeRequest(b: Bank.Bank, op: Operation.Operation) returns (r: Result<string, GatewayError>)
    ensures r == BankEncoding(b, op)
  {
    var spec := Bank.Spec(b);
    var encoded: Result<string, Fault>;
    if b == Bank.Stfs {
      var fetched := GetTemplate(spec);
      var template := fetched.value;
      if 1 in template && template[1].Single? {
        template := template[1 := Single(template[1].leaf.(parser := Parsers.StfsTransactionIdentifier))];
      }
      encoded := Format(op, template);
    } else {
      encoded := EncodeRequest(spec, op);
    }
    r := AsGatewayError(encoded);
  }

  /** The fault of an operation that names no bank. */
  const NoBankError: GatewayError := EncodingError(NoBank)

  /** `Operation::encode`: an operation without a bank is refused before anything is parsed; otherwise its bank encodes it. */
  method Encode(op: Operation.Operation) returns (r: Result<string, GatewayError>)
    ensures op.bank.None? ==> r == Failure(NoBankError)
    ensures op.bank.Some? ==> r == BankEncoding(op.bank.value, op)
  {
    match op.bank
    case None =>
      r := Failure(NoBankError);
    case Some(bank) =>
      r := BankEncodeRequest(bank, op);
  }

  // ---------------------------------------------------------------------
  // Properties

  /**
   * The APACS banks are refused with the dialect's fault whatever the
   * operation; the bitmap banks other than Stfs all encode exactly as Ems,
   * with the dialect's template as it is.
   */
  lemma BanksByDialect(b: Bank.Bank, op: Operation.Operation)
    ensures Bank.Spec(b) == Bank.Apacs ==> BankEncoding(b, op) == Failure(EncodingError(ApacsUnsupported))
    ensures Bank.Spec(b) == Bank.Iso8853 && b != Bank.Stfs ==>
              BankEncoding(b, op) == BankEncoding(Bank.Ems, op) == AsGatewayError(Encoded(op, Iso8853.Template()))
  {
  }

  /** The positions of the dialect's template in ascending order. */
  lemma TemplateOrder()
    ensures SortedKeys(Iso8853.Template().Keys) == [1, 2, 3, 4, 5]
    ensures SortedKeys(StfsTemplate(Iso8853.Template()).Keys) == [1, 2, 3, 4, 5]
  {
    Iso8853.TemplateShape();
    FivePositionsSorted(Iso8853.Template().Keys);
    FivePositionsSorted(StfsTemplate(Iso8853.Template()).Keys);
  }

  lemma FivePositionsSorted(keys: set<nat>)
    requires keys == {1, 2, 3, 4, 5}
    ensures SortedKeys(keys) == [1, 2, 3, 4, 5]
  {
    var ks: seq<nat> := [1, 2, 3, 4, 5];
    var sorted := SortedKeys(keys);
    assert forall k :: k in ks <==> k in sorted;
    IncreasingUnique(ks, sorted);
  }

  /** The two frames a transaction identifier can have. */
  lemma IdentifierFrames()
    ensures Frame(1, "abc") == "0103abc" && Frame(1, "123") == "0103123"
  {
    assert TwoDigits(1) == "01" && TwoDigits(3) == "03";
  }

  /** Position 1 renders as `0103abc` under the dialect's template and as `0103123` under the STFS variant. */
  lemma IdentifierFields(op: Operation.Operation)
    ensures FieldTextAt(op, 1, Iso8853.Template()[1]) == Success("0103abc")
    ensures FieldTextAt(op, 1, StfsTemplate(Iso8853.Template())[1]) == Success("0103123")
  {
    var leaf := Leaf(Parsers.TransactionIdentifier, 3, 3, None);
    assert Iso8853.Template()[1] == Single(leaf);
    IdentifierFrames();
  }

  /**
   * For every operation, the STFS variant and the plain template produce
   * the same message after position 1, whose field is `0103123` under the
   * variant and `0103abc` under the plain template; a fault after position
   * 1 is the same fault under both.
   */
  lemma StfsDiffersOnlyAtPosition1(op: Operation.Operation)
    ensures var rest := TemplateText(op, Iso8853.Template(), [2, 3, 4, 5]);
      && Encoded(op, Iso8853.Template()) == Prepend("0103abc", rest)
      && Encoded(op, StfsTemplate(Iso8853.Template())) == Prepend("0103123", rest)
  {
    var t := Iso8853.Template();
    var u := StfsTemplate(t);
    var ks: seq<nat> := [1, 2, 3, 4, 5];
    TemplateOrder();
    Iso8853.TemplateShape();
    assert ks[0] == 1 && ks[1..] == [2, 3, 4, 5];
    TemplateTextStep(op, t, ks);
    TemplateTextStep(op, u, ks);
    IdentifierFields(op);
    MessagingLaws.TemplateTextAgree(op, t, u, ks[1..]);
  }

  /** Stfs and Ems encode every operation alike except for the transaction identifier at position 1. */
  lemma StfsVersusEms(op: Operation.Operation)
    ensures var rest := AsGatewayError(TemplateText(op, Iso8853.Template(), [2, 3, 4, 5]));
      && BankEncoding(Bank.Ems, op) == (if rest.Success? then Success("0103abc" + rest.value) else rest)
      && BankEncoding(Bank.Stfs, op) == (if rest.Success? then Success("0103123" + rest.value) else rest)
  {
    StfsDiffersOnlyAtPosition1(op);
  }
}
