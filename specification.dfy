// The older, positional encoder (src/specification/specification.rs): the
// operation is first flattened into a key/value map, and the map is then
// laid out along a fixed table of (key, width, pad) entries.
//
// The source reads the attributes of an earlier operation record in which
// nothing was optional; against the current record, a missing request type
// (ISO8853 only), transaction or payment is a `MissingAttribute` fault, the
// account payment the source marks `unreachable!()` is an `Unsupported`
// fault, and `network[..1]` on an empty network name is `EmptyNetwork`. The
// `expect` on a key missing from the map is `MissingField`, and the "too
// long" error is `FieldTooLong`.

module Specification {
  import opened Gateway
  import Text
  import Currency
  import Payment
  import Operation
  import opened SpecificationTemplates

  datatype Specification = Iso8853 | Apacs

  /** What the dialect emits for a separator entry. */
  function Separator(s: Specification): (r: string)
    ensures |r| <= 1
    ensures r == "" <==> s == Apacs
  {
    match s
    case Iso8853 => "_"
    case Apacs => ""
  }

  /** The layout table of a dialect. */
  function Table(s: Specification): seq<Entry>
  {
    match s
    case Iso8853 => Iso8853Table
    case Apacs => ApacsTable
  }

  // ---------------------------------------------------------------------
  // From the operation to the key/value map

  /**
   * `parse_request_type`: APACS always sends "01" and reads nothing; ISO8853
   * spells the request kind out, so that of the three only "AUTH" is four
   * characters long.
   */
  function RequestTypeCode(s: Specification, op: Operation.Operation): (r: Result<string, Fault>)
    ensures s == Apacs ==> r == Success("01")
    ensures s == Iso8853 ==> (r.Failure? <==> op.requestType.None?)
    ensures s == Iso8853 && r.Failure? ==> r.error == MissingAttribute("request_type")
    ensures s == Iso8853 && r.Success? ==> |r.value| >= 4 && (|r.value| == 4 <==> op.requestType == Some(Operation.Auth))
    ensures s == Iso8853 && op.requestType == Some(Operation.Auth) ==> r == Success("AUTH")
    ensures s == Iso8853 && op.requestType == Some(Operation.Refund) ==> r == Success("REFUND")
    ensures s == Iso8853 && op.requestType == Some(Operation.AccountCheck) ==> r == Success("ACCOUNTCHECK")
  {
    match s
    case Iso8853 =>
      if op.requestType.None? then Failure(MissingAttribute("request_type"))
      else (
        match op.requestType.value
        case Auth => Success("AUTH")
        case Refund => Success("REFUND")
        case AccountCheck => Success("ACCOUNTCHECK"))
    case Apacs => Success("01")
  }

  /**
   * `parse_transaction`, whose two dialect arms are identical: the amount in
   * decimal, the currency code and the billing name.
   */
  function TransactionEntries(op: Operation.Operation): (r: Result<map<string, string>, Fault>)
    ensures r.Failure? <==> op.transaction.None?
    ensures r.Failure? ==> r.error == MissingAttribute("transaction")
    ensures r.Success? ==>
              && r.value.Keys == {"amount", "currency", "name"}
              && Text.ParseU32(r.value["amount"]) == Success(op.transaction.value.amount)
              && Currency.FromStr(r.value["currency"]) == Success(op.transaction.value.currency)
              && r.value["name"] == op.transaction.value.billingname
  {
    if op.transaction.None? then Failure(MissingAttribute("transaction"))
    else
      var t := op.transaction.value;
      Text.ParseU32RoundTrip(t.amount);
      Currency.RoundTrip(t.currency);
      Success(map["amount" := Text.NatToString(t.amount), "currency" := Currency.ToString(t.currency),
                  "name" := t.billingname])
  }

  /**
   * `parse_payment`: for a card, its PAN, its expiry without slashes, its
   * security code, the cardholder's name and the network's initial.
   */
  function PaymentEntries(op: Operation.Operation): (r: Result<map<string, string>, Fault>)
    ensures r.Success? <==> op.payment.Some? && op.payment.value.Card? && op.payment.value.network != ""
    ensures op.payment.None? ==> r == Failure(MissingAttribute("payment"))
    ensures op.payment.Some? && op.payment.value.Account? ==> r.Failure? && r.error.Unsupported?
    ensures r.Success? ==>
              var card := op.payment.value;
              && r.value.Keys == {"account_number", "expiry_date", "security_code", "name", "network"}
              && r.value["account_number"] == card.pan
              && r.value["expiry_date"] == Text.RemoveAll(card.expiryDate, '/')
              && r.value["security_code"] == card.securityCode
              && r.value["name"] == card.name
              && r.value["network"] == [card.network[0]]
  {
    if op.payment.None? then Failure(MissingAttribute("payment"))
    else
      match op.payment.value
      case Card(pan, expiryDate, securityCode, name, network) =>
        if network == "" then Failure(EmptyNetwork)
        else
          Success(map["account_number" := pan, "expiry_date" := Text.RemoveAll(expiryDate, '/'),
                      "security_code" := securityCode, "name" := name, "network" := network[..1]])
      case Account(_, _, _, _) => Failure(Unsupported("account payment"))
  }

  /**
   * What `parse_required_information` builds: the request type, then the
   * transaction's entries, then the payment's, each insertion overwriting an
   * equal key, and for ISO8853 the `first_bit` extra; the first part that
   * cannot be read is the fault.
   */
  ghost function RequiredInformation(s: Specification, op: Operation.Operation): Result<map<string, string>, Fault>
  {
    var code := RequestTypeCode(s, op);
    var transaction := TransactionEntries(op);
    var payment := PaymentEntries(op);
    if code.Failure? then Failure(code.error)
    else if transaction.Failure? then Failure(transaction.error)
    else if payment.Failure? then Failure(payment.error)
    else
      var data := map["request_type" := code.value] + transaction.value + payment.value;
      Success(if s == Iso8853 then data["first_bit" := "abc"] else data)
  }

  /** The `for … { data.insert(field, value) }` loops: every entry of `entries` inserted into `data`. */
  method InsertAll(data: map<string, string>, entries: map<string, string>) returns (r: map<string, string>)
    ensures r == data + entries
  {
    r := data;
    var pending := entries.Keys;
    while pending != {}
      invariant pending <= entries.Keys
      invariant r == data + (entries - pending)
      decreases |pending|
    {
      var k :| k in pending;
      assert data + (entries - (pending - {k})) == (data + (entries - pending))[k := entries[k]];
      r := r[k := entries[k]];
      pending := pending - {k};
    }
    assert entries - pending == entries;
  }

  /** `insert_iso8853_extras`: the placeholder first field. */
  method InsertIso8853Extras(data: map<string, string>) returns (r: map<string, string>)
    ensures r == data["first_bit" := "abc"]
  {
    r := data["first_bit" := "abc"];
  }

  /** `parse_required_information`. */
  method ParseRequiredInformation(s: Specification, op: Operation.Operation) returns (r: Result<map<string, string>, Fault>)
    ensures r == RequiredInformation(s, op)
  {
    var code := RequestTypeCode(s, op);
    if code.Failure? {
      return Failure(code.error);
    }
    var data: map<string, string> := map[];
    data := data["request_type" := code.value];
    var transaction := TransactionEntries(op);
    if transaction.Failure? {
      return Failure(transaction.error);
    }
    data := InsertAll(data, transaction.value);
    var payment := PaymentEntries(op);
    if payment.Failure? {
      return Failure(payment.error);
    }
    data := InsertAll(data, payment.value);
    if s == Iso8853 {
      data := InsertIso8853Extras(data);
    }
    r := Success(data);
  }

  // ---------------------------------------------------------------------
  // From the map to the message

  /**
   * One table entry: the separator for a separator entry, whatever its
   * width; a fault for a key the map lacks or a value wider than the entry;
   * otherwise the pad repeated once per missing character, then the value.
   */
  function EntryText(data: map<string, string>, e: Entry, separator: string): (r: Result<string, Fault>)
    ensures e.field == SeparatorField ==> r == Success(separator)
    ensures e.field != SeparatorField ==> (r.Success? <==> e.field in data && |data[e.field]| <= e.width)
    ensures e.field != SeparatorField && e.field !in data ==> r == Failure(MissingField(e.field))
    ensures e.field != SeparatorField && e.field in data && |data[e.field]| > e.width ==>
              r == Failure(FieldTooLong(e.field, |data[e.field]|, e.width))
    ensures e.field != SeparatorField && r.Success? ==>
              var v := data[e.field];
              && |v| <= |r.value|
              && r.value[|r.value| - |v|..] == v
              && (|e.pad| == 1 ==> |r.value| == e.width && forall j :: 0 <= j < |r.value| - |v| ==> r.value[j] == e.pad[0])
              && (e.pad == "" ==> r.value == v)
  {
    if e.field == SeparatorField then Success(separator)
    else if e.field !in data then Failure(MissingField(e.field))
    else if |data[e.field]| > e.width then Failure(FieldTooLong(e.field, |data[e.field]|, e.width))
    else Success(Text.RepeatString(e.pad, e.width - |data[e.field]|) + data[e.field])
  }

  /** The entries of `t` laid out in table order, stopping at the first fault. */
  function Layout(data: map<string, string>, t: seq<Entry>, separator: string): Result<string, Fault>
  {
    if t == [] then Success("")
    else
      var head :- EntryText(data, t[0], separator);
      Prepend(head, Layout(data, t[1..], separator))
  }

  /** One step of `Layout`: the first entry's fault, or its text in front of the rest. */
  lemma LayoutStep(data: map<string, string>, t: seq<Entry>, separator: string)
    requires t != []
    ensures var head := EntryText(data, t[0], separator);
      Layout(data, t, separator) == if head.Failure? then Failure(head.error) else Prepend(head.value, Layout(data, t[1..], separator))
  {
  }

  /**
   * What the map can fail on: a missing request type (ISO8853 only), a
   * missing transaction, or a payment that is missing, an account, or a card
   * with an empty network name.
   */
  lemma RequiredInformationFails(s: Specification, op: Operation.Operation)
    ensures RequiredInformation(s, op).Failure? <==>
              || (s == Iso8853 && op.requestType.None?)
              || op.transaction.None?
              || op.payment.None?
              || op.payment.value.Account?
              || op.payment.value.network == ""
  {
  }

  /** The request type, the transaction's three keys and the payment's five make eight keys. */
  lemma MergedKeys(code: string, transaction: map<string, string>, payment: map<string, string>)
    requires transaction.Keys == {"amount", "currency", "name"}
    requires payment.Keys == {"account_number", "expiry_date", "security_code", "name", "network"}
    ensures (map["request_type" := code] + transaction + payment).Keys ==
              {"request_type", "amount", "currency", "name", "account_number", "expiry_date", "security_code", "network"}
  {
    assert (map["request_type" := code] + transaction + payment).Keys == {"request_type"} + transaction.Keys + payment.Keys;
  }

  /** The keys of a complete map: `first_bit` is there for ISO8853 only. */
  lemma RequiredInformationKeys(s: Specification, op: Operation.Operation)
    requires RequiredInformation(s, op).Success?
    ensures RequiredInformation(s, op).value.Keys ==
              {"request_type", "amount", "currency", "name", "account_number", "expiry_date",
               "security_code", "network"} + (if s == Iso8853 then {"first_bit"} else {})
  {
    var transaction := TransactionEntries(op).value;
    var payment := PaymentEntries(op).value;
    var merged := map["request_type" := RequestTypeCode(s, op).value] + transaction + payment;
    MergedKeys(RequestTypeCode(s, op).value, transaction, payment);
    if s == Iso8853 {
      assert RequiredInformation(s, op).value == merged["first_bit" := "abc"];
    } else {
      assert RequiredInformation(s, op).value == merged;
    }
  }

  /** The request type is the dialect's code for the operation, and `first_bit` is the placeholder "abc". */
  lemma RequiredInformationValues(s: Specification, op: Operation.Operation)
    requires RequiredInformation(s, op).Success?
    ensures var data := RequiredInformation(s, op).value;
      && data["request_type"] == RequestTypeCode(s, op).value
      && (s == Iso8853 ==> data["first_bit"] == "abc")
  {
    var transaction := TransactionEntries(op).value;
    var payment := PaymentEntries(op).value;
    var merged := map["request_type" := RequestTypeCode(s, op).value] + transaction + payment;
    assert RequiredInformation(s, op).value == if s == Iso8853 then merged["first_bit" := "abc"] else merged;
    assert "request_type" !in transaction && "request_type" !in payment;
  }

  /**
   * Which insertion wins: the card's name is inserted after the billing
   * name and replaces it, while the amount is the transaction's.
   */
  lemma RequiredInformationName(s: Specification, op: Operation.Operation)
    requires RequiredInformation(s, op).Success?
    ensures RequiredInformation(s, op).value["name"] == op.payment.value.name
    ensures RequiredInformation(s, op).value["amount"] == Text.NatToString(op.transaction.value.amount)
  {
    var transaction := TransactionEntries(op).value;
    var payment := PaymentEntries(op).value;
    var merged := map["request_type" := RequestTypeCode(s, op).value] + transaction + payment;
    assert RequiredInformation(s, op).value == if s == Iso8853 then merged["first_bit" := "abc"] else merged;
    assert "amount" !in payment;
    assert merged["name"] == payment["name"];
  }

  /** The free function `format`: the loop over the table, pushing onto the output. */
  method FormatLayout(data: map<string, string>, template: seq<Entry>, separator: string) returns (r: Result<string, Fault>)
    ensures r == Layout(data, template, separator)
  {
    var output := "";
    PrependEmpty(Layout(data, template, separator));
    for i := 0 to |template|
      invariant Layout(data, template, separator) == Prepend(output, Layout(data, template[i..], separator))
    {
      var e := template[i];
      assert template[i..][0] == e && template[i..][1..] == template[i + 1..];
      LayoutStep(data, template[i..], separator);
      if e.field == SeparatorField {
        PrependTwice(output, separator, Layout(data, template[i + 1..], separator));
        output := output + separator;
        continue;
      }
      if e.field !in data {
        assert Layout(data, template[i..], separator) == Failure(MissingField(e.field));
        return Failure(MissingField(e.field));
      }
      var fromData := data[e.field];
      if |fromData| > e.width {
        assert Layout(data, template[i..], separator) == Failure(FieldTooLong(e.field, |fromData|, e.width));
        return Failure(FieldTooLong(e.field, |fromData|, e.width));
      }
      var padding := Text.RepeatString(e.pad, e.width - |fromData|);
      PrependTwice(output, padding + fromData, Layout(data, template[i + 1..], separator));
      assert output + (padding + fromData) == output + padding + fromData;
      output := output + padding;
      output := output + fromData;
    }
    assert template[|template|..] == [];
    assert output + "" == output;
    r := Success(output);
  }

  /**
   * `format` stops at the first entry it cannot lay out: the layout succeeds
   * exactly when every entry does, and otherwise fails with the fault of the
   * first entry that fails.
   */
  lemma {:induction false} LayoutFault(data: map<string, string>, t: seq<Entry>, separator: string)
    ensures Layout(data, t, separator).Success? <==> forall i :: 0 <= i < |t| ==> EntryText(data, t[i], separator).Success?
    ensures forall i :: 0 <= i < |t| && EntryText(data, t[i], separator).Failure? &&
                        (forall j :: 0 <= j < i ==> EntryText(data, t[j], separator).Success?) ==>
              Layout(data, t, separator) == Failure(EntryText(data, t[i], separator).error)
  {
    if t != [] {
      LayoutFault(data, t[1..], separator);
      assert forall i :: 1 <= i < |t| ==> t[1..][i - 1] == t[i];
    }
  }

  /** Laying out two tables one after the other is laying out their concatenation. */
  lemma {:induction false} LayoutAppend(data: map<string, string>, t: seq<Entry>, u: seq<Entry>, separator: string)
    ensures var first := Layout(data, t, separator);
      Layout(data, t + u, separator) == if first.Failure? then first else Prepend(first.value, Layout(data, u, separator))
  {
    if t == [] {
      assert t + u == u;
      PrependEmpty(Layout(data, u, separator));
    } else {
      assert (t + u)[0] == t[0] && (t + u)[1..] == t[1..] + u;
      LayoutAppend(data, t[1..], u, separator);
      var head := EntryText(data, t[0], separator);
      if head.Success? && Layout(data, t[1..], separator).Success? {
        PrependTwice(head.value, Layout(data, t[1..], separator).value, Layout(data, u, separator));
      }
    }
  }

  /** `Specification::format`: the map laid out along the dialect's table with its separator. */
  method Format(s: Specification, data: map<string, string>) returns (r: Result<string, Fault>)
    ensures r == Layout(data, Table(s), Separator(s))
  {
    r := FormatLayout(data, Table(s), Separator(s));
  }

  /** What `encode_request` makes of an operation. */
  ghost function Encoding(s: Specification, op: Operation.Operation): Result<string, Fault>
  {
    var data :- RequiredInformation(s, op);
    Layout(data, Table(s), Separator(s))
  }

  /**
   * With every key the table names present in the map, `format` can only
   * fail on a value wider than its entry.
   */
  lemma {:induction false} LayoutFaultsWithKeys(data: map<string, string>, t: seq<Entry>, separator: string)
    requires forall i :: 0 <= i < |t| && t[i].field != SeparatorField ==> t[i].field in data
    ensures Layout(data, t, separator).Failure? ==> Layout(data, t, separator).error.FieldTooLong?
  {
    if t != [] {
      assert forall i :: 0 <= i < |t[1..]| ==> t[1..][i] == t[i + 1];
      LayoutFaultsWithKeys(data, t[1..], separator);
    }
  }

  /** Every key either table names is in the map `parse_required_information` builds for its dialect. */
  lemma TableKeysPresent(s: Specification, op: Operation.Operation)
    requires RequiredInformation(s, op).Success?
    ensures var t := Table(s);
      forall i :: 0 <= i < |t| && t[i].field != SeparatorField ==> t[i].field in RequiredInformation(s, op).value
  {
    RequiredInformationKeys(s, op);
    var keys := RequiredInformation(s, op).value.Keys;
    if s == Iso8853 {
      Iso8853TableFields(keys);
    } else {
      ApacsTableFields(keys);
    }
  }

  /**
   * Once the operation can be read, encoding can only fail on a value wider
   * than its entry: no key the tables name is ever missing.
   */
  lemma EncodingFaults(s: Specification, op: Operation.Operation)
    requires RequiredInformation(s, op).Success?
    ensures Encoding(s, op).Failure? ==> Encoding(s, op).error.FieldTooLong?
  {
    TableKeysPresent(s, op);
    LayoutFaultsWithKeys(RequiredInformation(s, op).value, Table(s), Separator(s));
  }

  /**
   * Under ISO8853 the request type's entry is four wide, so "REFUND" and
   * "ACCOUNTCHECK" never fit: such an operation fails on `request_type`,
   * after `first_bit` and the first separator were laid out.
   */
  lemma Iso8853RejectsNonAuth(op: Operation.Operation)
    requires RequiredInformation(Iso8853, op).Success?
    requires op.requestType != Some(Operation.Auth)
    ensures Encoding(Iso8853, op) == Failure(FieldTooLong("request_type", |RequestTypeCode(Iso8853, op).value|, 4))
  {
    var data := RequiredInformation(Iso8853, op).value;
    RequiredInformationValues(Iso8853, op);
    Iso8853TableShape();
    LayoutFault(data, Iso8853Table, "_");
    assert EntryText(data, Iso8853Table[0], "_") == Success("abc");
    assert EntryText(data, Iso8853Table[1], "_").Success?;
    assert EntryText(data, Iso8853Table[2], "_") == Failure(FieldTooLong("request_type", |data["request_type"]|, 4));
  }

  /** The faults of the two kinds that are not authorisations: "REFUND" is 6 characters, "ACCOUNTCHECK" 12. */
  lemma Iso8853NonAuthFaults(op: Operation.Operation)
    requires RequiredInformation(Iso8853, op).Success?
    requires op.requestType != Some(Operation.Auth)
    ensures op.requestType == Some(Operation.Refund) ==> Encoding(Iso8853, op) == Failure(FieldTooLong("request_type", 6, 4))
    ensures op.requestType == Some(Operation.AccountCheck) ==> Encoding(Iso8853, op) == Failure(FieldTooLong("request_type", 12, 4))
  {
    Iso8853RejectsNonAuth(op);
  }

  /**
   * An ISO8853 message that could be laid out is an authorisation, and it
   * opens with the three-character `first_bit`, a separator, the exactly
   * four-character "AUTH" and another separator.
   */
  lemma Iso8853Opening(op: Operation.Operation)
    requires Encoding(Iso8853, op).Success?
    ensures op.requestType == Some(Operation.Auth)
    ensures |Encoding(Iso8853, op).value| >= 9 && Encoding(Iso8853, op).value[..9] == "abc_AUTH_"
  {
    var data := RequiredInformation(Iso8853, op).value;
    RequiredInformationValues(Iso8853, op);
    if op.requestType != Some(Operation.Auth) {
      Iso8853RejectsNonAuth(op);
    }
    Iso8853TableShape();
    var opening := Iso8853Table[..4];
    assert opening[0] == Iso8853Table[0] && opening[1] == Iso8853Table[1];
    assert opening[2] == Iso8853Table[2] && opening[3] == Iso8853Table[3];
    Iso8853OpeningEntries(data, opening);
    LayoutPrefix(data, Iso8853Table, 4, "_");
  }

  /** A laid-out table opens with the layout of its first `n` entries. */
  lemma LayoutPrefix(data: map<string, string>, t: seq<Entry>, n: nat, separator: string)
    requires n <= |t|
    requires Layout(data, t, separator).Success?
    ensures Layout(data, t[..n], separator).Success?
    ensures var opening := Layout(data, t[..n], separator).value;
      |opening| <= |Layout(data, t, separator).value| && Layout(data, t, separator).value[..|opening|] == opening
  {
    assert t == t[..n] + t[n..];
    LayoutAppend(data, t[..n], t[n..], separator);
  }

  /**
   * The first four ISO8853 entries (`first_bit`, a separator, the request
   * type and a separator) over a map with `first_bit` "abc" and request type
   * "AUTH".
   */
  lemma Iso8853OpeningEntries(data: map<string, string>, t: seq<Entry>)
    requires |t| == 4 && t[0] == Entry("first_bit", 3, "") && t[1].field == SeparatorField
    requires t[2] == Entry("request_type", 4, " ") && t[3].field == SeparatorField
    requires "first_bit" in data && data["first_bit"] == "abc"
    requires "request_type" in data && data["request_type"] == "AUTH"
    ensures Layout(data, t, "_") == Success("abc_AUTH_")
  {
    Iso8853RequestTypeEntries(data, t[2..]);
    assert t[1..][0] == t[1] && t[1..][1..] == t[2..];
    LayoutStep(data, t[1..], "_");
    assert "_" + "AUTH_" == "_AUTH_";
    assert Layout(data, t[1..], "_") == Success("_AUTH_");
    LayoutStep(data, t, "_");
    assert EntryText(data, t[0], "_") == Success("abc");
    assert "abc" + "_AUTH_" == "abc_AUTH_";
  }

  /** The request type "AUTH", filling its four places, and a separator. */
  lemma Iso8853RequestTypeEntries(data: map<string, string>, t: seq<Entry>)
    requires |t| == 2 && t[0] == Entry("request_type", 4, " ") && t[1].field == SeparatorField
    requires "request_type" in data && data["request_type"] == "AUTH"
    ensures Layout(data, t, "_") == Success("AUTH_")
  {
    assert t[1..][0] == t[1] && t[1..][1..] == [];
    assert Layout(data, t[1..][1..], "_") == Success("");
    LayoutStep(data, t[1..], "_");
    assert EntryText(data, t[1], "_") == Success("_");
    assert "_" + "" == "_";
    assert Layout(data, t[1..], "_") == Success("_");
    LayoutStep(data, t, "_");
    assert EntryText(data, t[0], "_") == Success("AUTH");
    assert "AUTH" + "_" == "AUTH_";
  }

  /** An APACS message opens with the two-character request type "01", whatever the operation's request kind. */
  lemma ApacsOpening(op: Operation.Operation)
    requires Encoding(Apacs, op).Success?
    ensures |Encoding(Apacs, op).value| >= 2 && Encoding(Apacs, op).value[..2] == "01"
  {
    var data := RequiredInformation(Apacs, op).value;
    RequiredInformationValues(Apacs, op);
    ApacsTableShape();
    LayoutStep(data, ApacsTable, "");
    assert EntryText(data, ApacsTable[0], "") == Success("01");
  }

  /** APACS reads no request kind: changing it changes nothing in the message. */
  lemma ApacsIgnoresRequestType(op: Operation.Operation, kind: Option<Operation.RequestType>)
    ensures Encoding(Apacs, op.(requestType := kind)) == Encoding(Apacs, op)
  {
    var other := op.(requestType := kind);
    assert TransactionEntries(other) == TransactionEntries(op);
    assert PaymentEntries(other) == PaymentEntries(op);
  }

  /** `Specification::encode_request`. */
  method EncodeRequest(s: Specification, op: Operation.Operation) returns (r: Result<string, Fault>)
    ensures r == Encoding(s, op)
  {
    var data := ParseRequiredInformation(s, op);
    if data.Failure? {
      return Failure(data.error);
    }
    r := Format(s, data.value);
  }
}
