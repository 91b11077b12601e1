# gateway-rs outbound message encoder, modelled in Dafny

This project models the part of the gateway-rs payment gateway that turns a
payment `Operation` into the text message sent to an acquiring bank.

- **Entities.** The model covers the operation and its parts: request type, bank, card or
  account payment, transaction and merchant (`operation.rs`, `payment.rs`,
  `transaction.rs`, `currency.rs`, `merchant.rs`, `bank.rs`).
- **Building an operation.** It covers `Operation::try_from` over a string map and
  `Payment::card`, which derives the card network from the first four PAN digits.
- **The bitmap encoder** (`messaging_specification/mod.rs`). A template maps
  positions to fields. A field is either a single value or a nested group of
  single values. Each single value has a parser that reads it from the
  operation, a minimum and maximum length and an optional padding character.
  Positions are visited in increasing order. A present value is left-padded
  to its minimum length and framed as two-digit position, two-digit length,
  data. An absent value (`Ok(None)`) is skipped, a value longer than its
  maximum aborts the encoding, and a group is framed around the
  concatenation of its members' frames.
- **The ISO 8853 template and its parsers** (`messaging_specification/iso8853.rs`
  and `bitmap_templates.rs`). The model includes the tuple-to-field
  conversions and `iso8853_string_field`.
- **Bank dispatch** (`bank.rs`). A bank picks its dialect. STFS is the ISO
  template with the transaction identifier at position 1 replaced.
  `Operation::encode` refuses an operation without a bank.
- **The older positional encoder** (`specification/specification.rs` and
  `specification/bitmap_templates.rs`). It flattens the operation into a
  string map and lays it out along a fixed table of right-aligned, padded
  columns, with `_` separators for ISO 8853 and none for APACS.

Pure code (parsers, templates, conversions) is modelled as functions.
Code that builds its output step by step is modelled as methods with loops:
`_format`, `string_field`, `pad_string`, `parse_required_information` and
the positional `format`. Each such method is proved equal to a specification
function, and the properties are proved about those functions as lemmas.
Errors are a structured `Fault` value instead of the source's free text or
panics.

## Model

| member | source | states |
|---|---|---|
| Text.NatToString | src/specification/specification.rs:73 | the decimal rendering of an amount is a non-empty digit string whose value is the number, with no leading zero, one character exactly for numbers below ten |
| Text.CanonicalDecimal | src/messaging_specification/iso8853.rs:99-107 | a non-empty digit string with no leading zero is the `to_string` rendering of its own value |
| Text.NatToStringInjective | src/specification/specification.rs:73 | different amounts render to different strings |
| Text.TwoDigits | src/messaging_specification/mod.rs:104 | the `{:0>2}` header is a digit string of the number's value, exactly two characters up to 99 and the plain rendering above that |
| Text.TwoDigitsIsLeftPad | src/messaging_specification/mod.rs:109 | the two-digit header is the decimal rendering left-padded with '0' to width 2 |
| Text.TwoDigitsInjective | src/messaging_specification/mod.rs:104 | two positions up to 99 with the same header are equal |
| Text.LeftPad | src/messaging_specification/mod.rs:114-120 | padding yields max(n, length) characters: the original string at the end, the padding character before it, the string unchanged when already long enough |
| Text.RemoveAll | src/messaging_specification/iso8853.rs:87 | removing '/' leaves no '/', never lengthens the text and changes nothing when no '/' is present |
| Text.RemoveAllKeepsOthers | src/messaging_specification/iso8853.rs:87 | removing '/' keeps every other character with its multiplicity |
| Text.RemoveAllAppend | src/specification/specification.rs:97 | removing a character distributes over concatenation |
| Text.ParseU32 | src/operation.rs:42-46 | `u32` parsing succeeds exactly on an optionally '+'-signed non-empty digit string whose value fits in 32 bits, and returns that value; any other string fails with the empty-input, invalid-digit or overflow error, the empty-input one exactly for the empty string |
| Text.ParseU32RoundTrip | src/operation.rs:42-46 | parsing the decimal rendering of any `u32` gives the number back |
| Text.ParseShortI32 | src/payment.rs:30 | parsing the four PAN digits as `i32` gives their value when they are all digits, nothing for the empty string, and a value within 10^(n-1) of zero for a signed prefix |
| Text.RepeatString | src/messaging_specification/mod.rs:116-118 | repeating a one-character string n times gives n copies of that character |
| Currency.ToString | src/currency.rs:11-18 | every currency code has three characters |
| Currency.FromStr | src/currency.rs:20-30 | parsing succeeds exactly on "GBP" and "USD", yields the currency that displays as the input, and otherwise fails with "Invalid currency: " and the input |
| Currency.RoundTrip | src/currency.rs:20-30 | parsing a displayed currency returns that currency |
| Currency.ToStringInjective | src/currency.rs:11-18 | two currencies with the same code are equal |
| Payment.NetworkFromPan | src/payment.rs:29-36 | the network is VISA for a PAN starting 4000-4999 and MASTERCARD for 5000-6999; every other PAN (too short, non-digits, out of range) is refused |
| Payment.NewCard | src/payment.rs:18-26 | a card keeps the given PAN, expiry, security code and name, with the network derived from the PAN, and exists exactly when the PAN has a network |
| Payment.NewCardNetworkInitial | src/payment.rs:29-36 | a card's network starts with 'V' exactly when its PAN prefix is below 5000, and with 'M' otherwise |
| Transaction.New | src/transaction.rs:11-17 | a new transaction keeps the amount and currency, with the billing name or "" when none is given |
| Bank.Spec | src/bank.rs:38-43 | EMS, FDMS, Cardnet and STFS speak ISO 8853; HSBC, Lloyds and Barclays speak APACS |
| Operation.TryFrom | src/operation.rs:40-70 | a map yields an EMS card authorisation with the parsed amount, currency and billing name exactly when the amount parses and a valid currency is present; otherwise the amount error, "Missing currencyiso3a" or the currency error, in that order |
| Operation.FixedCardBuilt | src/operation.rs:57-62 | the fixed card of `try_from` is the VISA card built from PAN 4000000000000000 |
| Parsers.TransactionIdentifier | src/messaging_specification/iso8853.rs:51-53 | the transaction identifier is always present and three characters long |
| Parsers.StfsTransactionIdentifier | src/bank.rs:54-56 | the STFS identifier is always present, three characters long and differs from the ISO one |
| Parsers.MerchantId | src/messaging_specification/iso8853.rs:55-59 | the merchant id is the merchant's `mid`, and fails exactly when the merchant is missing |
| Parsers.RequestTypeCode | src/messaging_specification/iso8853.rs:61-69 | the request type succeeds exactly for Auth, giving "AUTH"; a missing request type and any other kind are faults |
| Parsers.AccountNumber | src/messaging_specification/iso8853.rs:71-76 | the account number is the PAN of a card or the account number of an account, and fails exactly when the payment is missing |
| Parsers.Network | src/messaging_specification/iso8853.rs:78-83 | the network is absent for an account and is the first letter of a card's network; it fails exactly for a missing payment or an empty network |
| Parsers.ExpiryDate | src/messaging_specification/iso8853.rs:85-90 | the expiry date is absent for an account and is the card's expiry with every '/' removed |
| Parsers.CardholderVerificationNumber | src/messaging_specification/iso8853.rs:92-97 | the security code is absent for an account and is the card's security code |
| Parsers.TransactionAmount | src/messaging_specification/iso8853.rs:99-107 | the amount is the `to_string` rendering of the transaction's amount: digits denoting it with no leading zero; it fails exactly when the transaction is missing |
| Parsers.BillingName | src/messaging_specification/iso8853.rs:109-117 | the billing name is the transaction's billing name, and fails exactly when the transaction is missing |
| Parsers.CurrencyCode | src/messaging_specification/iso8853.rs:119-127 | the currency is the transaction currency's three-character code, and fails exactly when the transaction is missing |
| Parsers.ParsedValuesReadBack | src/messaging_specification/iso8853.rs:99-127 | the rendered amount parses back to the amount, and the rendered currency to the currency |
| Parsers.CompleteAuthParses | src/messaging_specification/iso8853.rs:51-127 | on a complete card or account authorisation every extractor succeeds |
| Messaging.SortedKeys | src/messaging_specification/mod.rs:52-53 | the visiting order is strictly increasing and holds exactly the template's positions |
| Messaging.IncreasingUnique | src/messaging_specification/mod.rs:52-53 | there is only one increasing order of a set of positions |
| Messaging.SortPositions | src/messaging_specification/mod.rs:52-53 | collecting and sorting the positions gives that order |
| Messaging.PadString | src/messaging_specification/mod.rs:114-120 | inserting the padding character at the front until the minimum length is reached left-pads the string |
| Messaging.StringField | src/messaging_specification/mod.rs:102-112 | a field's text is the two-digit position, the two-digit length of the padded data, then the padded data |
| Messaging.FormatLeaf | src/messaging_specification/mod.rs:56-69 | a single field gives the parser's error, nothing for an absent value, an overlength fault or its framed text |
| Messaging.FormatGroupLeaves | src/messaging_specification/mod.rs:75-94 | the loop over a group's members concatenates their texts in order and stops at the first fault |
| Messaging.FormatGroup | src/messaging_specification/mod.rs:71-96 | a group is framed at its position around the concatenated texts of its sorted members |
| Messaging.FormatInto | src/messaging_specification/mod.rs:51-100 | the loop appends to the output the encoding of the template, or stops at the first fault |
| Messaging.Format | src/messaging_specification/mod.rs:45-49 | formatting from an empty output yields the encoding of the template |
| MessagingLaws.FrameRoundTrip | src/messaging_specification/mod.rs:102-112 | a frame is four characters longer than its data, and reading it back yields position, data and the rest |
| MessagingLaws.PaddingTargetsMinimum | src/messaging_specification/mod.rs:66 | with a padding character, the data is left-padded to the minimum length with that character; without one it is unchanged |
| MessagingLaws.SortedKeysWithout | src/messaging_specification/mod.rs:52-53 | dropping a position from the template drops it from the visiting order |
| MessagingLaws.AbsentLeafSkipped | src/messaging_specification/mod.rs:62 | a top-level field whose value is absent contributes nothing: the encoding equals that of the template without it |
| MessagingLaws.AbsentGroupLeafSkipped | src/messaging_specification/mod.rs:83 | a group member whose value is absent contributes nothing to the group's text |
| MessagingLaws.EmptyGroupHeader | src/messaging_specification/mod.rs:95 | a group whose members are all absent is still written, as position and length "00" |
| MessagingLaws.ChainFailsIff | src/messaging_specification/mod.rs:54-98 | a sequence of pieces fails exactly when some piece fails |
| MessagingLaws.EncodedSucceedsIff | src/messaging_specification/mod.rs:51-100 | an encoding succeeds exactly when every field of the template renders |
| MessagingLaws.EncodedFailsAtLeastFault | src/messaging_specification/mod.rs:54-98 | a failing encoding reports the fault of the lowest failing position |
| MessagingLaws.LeafTextOutcomes | src/messaging_specification/mod.rs:56-69 | a single field is empty exactly when its value is absent, propagates parser errors, fails exactly when the value exceeds the maximum, and otherwise is the frame of the padded value |
| MessagingLaws.OverlengthLeaf | src/messaging_specification/mod.rs:63-65 | a value longer than the maximum fails with its length, the maximum and the field's path |
| MessagingLaws.GroupTextJoins | src/messaging_specification/mod.rs:83-90 | when every member renders, the group's body is the concatenation of the member texts in order |
| MessagingLaws.TemplateTextJoins | src/messaging_specification/mod.rs:54-98 | when every field renders, the encoding is the concatenation of the field texts in position order |
| MessagingLaws.SortedAs | src/messaging_specification/mod.rs:52-53 | any increasing listing of the positions is the visiting order |
| Iso8853.FromTuple | src/messaging_specification/iso8853.rs:33-42 | a tuple becomes a single field that converts back to the same tuple |
| Iso8853.FromTupleInjective | src/messaging_specification/iso8853.rs:33-42 | different tuples give different fields |
| Iso8853.Leaves | src/messaging_specification/bitmap_templates.rs:21-25 | converting a map of tuples keeps its positions and converts each tuple |
| Iso8853.TemplateFromTuples | src/messaging_specification/iso8853.rs:12-29 | the template is built from the listed parser, length and padding tuples |
| Iso8853.TemplateShape | src/messaging_specification/bitmap_templates.rs:30-74 | the template has positions 1 to 5: identifier and request type as single fields, payment (4 members), transaction (3) and merchant (1) as groups |
| Iso8853.TemplateFits | src/messaging_specification/bitmap_templates.rs:30-74 | every minimum length is at most its maximum, and every maximum fits a two-digit header |
| Iso8853.CurrencyFitsLeaf | src/messaging_specification/bitmap_templates.rs:30-74 | every currency code is exactly as long as the currency field's minimum and maximum |
| Iso8853.StringFieldInContext | src/messaging_specification/iso8853.rs:44-49 | a field rendered in context is framed at the context's position, and fails exactly when the context has no position |
| BitmapTemplates.FromTupleMap | src/messaging_specification/bitmap_templates.rs:21-25 | a map of tuples becomes a group with the same positions and each tuple converted |
| BitmapTemplates.BuildTemplate | src/messaging_specification/bitmap_templates.rs:30-74 | inserting the five entries into an empty map builds the ISO 8853 template |
| Facade.GetTemplate | src/messaging_specification/mod.rs:33-38 | a template exists exactly for ISO 8853; APACS is unsupported |
| Facade.EncodeRequest | src/messaging_specification/mod.rs:29-31 | a dialect's request is the encoding over its template |
| Facade.StfsTemplate | src/bank.rs:26-31 | the STFS template keeps every position, changes only position 1's parser to the STFS identifier, and keeps its lengths and padding |
| Facade.AsGatewayError | src/bank.rs:21-36 | an encoding fault becomes an encoding error, and a success is kept |
| Facade.BankEncodeRequest | src/bank.rs:21-36 | a bank's request is its dialect's encoding, over the modified template for STFS |
| Facade.Encode | src/operation.rs:25-32 | an operation without a bank is refused; otherwise its bank encodes it |
| Facade.BanksByDialect | src/bank.rs:21-43 | APACS banks are unsupported, and non-STFS ISO banks encode over the plain template |
| Facade.TemplateOrder | src/messaging_specification/mod.rs:52-53 | both ISO templates are visited in the order 1, 2, 3, 4, 5 |
| Facade.IdentifierFields | src/bank.rs:54-56 | position 1 renders as "0103abc" for ISO and "0103123" for STFS |
| Facade.StfsDiffersOnlyAtPosition1 | src/bank.rs:24-33 | the ISO and STFS encodings share everything after the first field |
| Facade.StfsVersusEms | src/bank.rs:21-36 | EMS and STFS messages for the same operation differ only in the identifier frame |
| Vectors.MastercardBuilt | src/operation.rs:154-173 | the example card with PAN 5100000000000000 is a MASTERCARD |
| Vectors.CardAuthBuilt | src/operation.rs:154-173 | the example transaction and card are built by their constructors |
| Vectors.TemplateLeaves | src/messaging_specification/bitmap_templates.rs:30-74 | each template member has the parser, lengths and padding listed in the source |
| Vectors.AuthTail | src/operation.rs:95 | positions 2 to 5 of the example authorisation render as the request type, card, transaction and merchant frames |
| Vectors.EmsCardAuth | src/operation.rs:90-96 | the EMS example message is "0103abc" followed by that tail |
| Vectors.StfsCardAuth | src/operation.rs:97-103 | the STFS example message is "0103123" followed by the same tail |
| Vectors.CardGroupOverlength | src/messaging_specification/mod.rs:83-86 | a six-digit security code makes the payment group fail at member 4 with length 6 over 4 |
| Vectors.StfsSecurityCodeTooLong | src/operation.rs:104-110 | the STFS example with security code "123123" fails with that overlength error |
| Vectors.FromFullMap | src/operation.rs:130-137 | the full map yields an operation with amount 12345, GBP and "Ben Jones" |
| Vectors.FromMapWithoutCurrency | src/operation.rs:138-144 | the map without a currency is refused with "Missing currencyiso3a" |
| SpecificationTemplates.Iso8853TableShape | src/specification/bitmap_templates.rs:3-16 | the ISO table has 12 columns, starts with `first_bit` and `request_type` (width 4, space padded), and every pad is empty or one character |
| SpecificationTemplates.ApacsTableShape | src/specification/bitmap_templates.rs:18-27 | the APACS table has 8 columns, no separator and no `first_bit`, and starts with a two-character request type |
| SpecificationTemplates.Iso8853TableFields | src/specification/bitmap_templates.rs:3-16 | every non-separator ISO column names one of the extracted keys |
| SpecificationTemplates.ApacsTableFields | src/specification/bitmap_templates.rs:18-27 | every APACS column names one of the extracted keys |
| Specification.Separator | src/specification/specification.rs:21-27 | the separator is at most one character, and empty exactly for APACS |
| Specification.RequestTypeCode | src/specification/specification.rs:56-66 | APACS always writes "01"; ISO fails exactly without a request type and writes "AUTH", "REFUND" or "ACCOUNTCHECK", four characters exactly for Auth |
| Specification.TransactionEntries | src/specification/specification.rs:68-84 | a transaction flattens to amount, currency and name entries that read back to its fields; a missing transaction is a fault |
| Specification.PaymentEntries | src/specification/specification.rs:86-106 | a card flattens to PAN, '/'-free expiry, security code, name and network initial; a missing payment, an account or an empty network is a fault |
| Specification.InsertAll | src/specification/specification.rs:32-37 | inserting every entry into the map gives the map overridden by the entries |
| Specification.InsertIso8853Extras | src/specification/specification.rs:131-133 | the ISO extras set `first_bit` to "abc" |
| Specification.ParseRequiredInformation | src/specification/specification.rs:29-43 | the loops build the required-information map |
| Specification.RequiredInformationFails | src/specification/specification.rs:29-43 | the required information fails exactly for: an ISO operation without request type, a missing transaction or payment, an account payment, or an empty network |
| Specification.RequiredInformationKeys | src/specification/specification.rs:29-43 | the map holds exactly the eight extracted keys, plus `first_bit` for ISO |
| Specification.RequiredInformationValues | src/specification/specification.rs:31 | the request type entry is the dialect's code, and `first_bit` is "abc" for ISO |
| Specification.RequiredInformationName | src/specification/specification.rs:32-37 | the card's name overrides the billing name, and the amount is its decimal rendering |
| Specification.EntryText | src/specification/specification.rs:116-126 | a column writes the separator, a missing-field fault, a too-long fault, or the value right-aligned and padded to the column width |
| Specification.FormatLayout | src/specification/specification.rs:109-129 | the loop lays out the table's columns in order and stops at the first fault |
| Specification.LayoutFault | src/specification/specification.rs:109-129 | a layout succeeds exactly when every column does, and otherwise reports the first failing column's fault |
| Specification.LayoutAppend | src/specification/specification.rs:109-129 | laying out two tables in a row is laying out their concatenation |
| Specification.Format | src/specification/specification.rs:45-54 | a dialect formats along its own table and separator |
| Specification.TableKeysPresent | src/specification/specification.rs:29-43 | every column of the table names a key present in successfully extracted information |
| Specification.EncodingFaults | src/specification/specification.rs:121-123 | once the information is extracted, the only possible fault is a too-long field |
| Specification.Iso8853RejectsNonAuth | src/specification/specification.rs:58-62 | an ISO encoding of a non-Auth request fails: its code is longer than the four-character column |
| Specification.Iso8853NonAuthFaults | src/specification/specification.rs:58-62 | an ISO Refund fails with a request type of length 6 and an AccountCheck with length 12, both over the width of 4 |
| Specification.Iso8853Opening | src/specification/specification.rs:16-19 | a successful ISO encoding is an Auth and starts with "abc_AUTH_" |
| Specification.ApacsOpening | src/specification/specification.rs:63 | a successful APACS encoding starts with "01" |
| Specification.ApacsIgnoresRequestType | src/specification/specification.rs:63 | the APACS encoding does not depend on the request type |
| Specification.EncodeRequest | src/specification/specification.rs:16-19 | a request is the layout of its required information |

## Left out

- `src/operation_field.rs` and the empty `src/specification.rs` are not part of this model; nothing in the encoder uses them.
- `Bank::decode_response_string` is `todo!()` and `Operation::decode` is commented out, so decoding is not modelled.
- Error texts are modelled as a structured `Fault` (overlength value, path, length and maximum; missing attribute; unsupported feature) instead of the source's strings. The overlength text differs between `mod.rs` and the expectation at `operation.rs:109` anyway.
- Panics are modelled as faults: `todo!()` and `unreachable!()` become `Unsupported`, `expect("TODO handle")` becomes `MissingAttribute`, slicing an empty network becomes `EmptyNetwork`, and the `unwrap` of a missing position in `iso8853_string_field` becomes `MissingPosition`. The `unwrap` on a missing `baseamount` in `try_from` becomes `FieldError("Missing baseamount")`, and an invalid PAN in `get_network_from_pan` becomes a refused card.
- The `parsers` module of `messaging_specification/bitmap_templates.rs` reads fields through non-`Option` types that no longer exist. The model uses the `Option`-aware copies in `iso8853.rs`.
- Some extractor names differ from the source: `RequestType` is `RequestTypeCode`, `CVV` is `CardholderVerificationNumber`, `Currency` is `CurrencyCode` and `MerchantID` is `MerchantId`.
- `MessagingSpecification::Apacs` is commented out in `mod.rs` while `Bank::spec` returns it. The model keeps the dialect and reports it as unsupported.
- `encode_using_template`, which the STFS branch calls, is not defined. It is modelled as the same format over the given template.
- A group nested inside a group (the `panic!` at `mod.rs:92`) is excluded by the type of group members.
- `HashMap` iteration order does not matter. Templates are visited in sorted order, and the positional encoder's map building is order-independent.
- `len()` counts UTF-8 bytes; the model counts characters. These agree for the ASCII data of these messages.
- MessagingLaws.FrameRoundTrip: only holds for positions and lengths up to 99. Above that the `{:0>2}` header (modelled exactly by `TwoDigits`) grows to three digits and the frame is no longer self-delimiting.
- Vectors.AuthTail: states the expected message as the concatenation of its frames rather than as the single literal of `operation.rs:95`.
- The `derp` test in `mod.rs` is not modelled: its expected string lacks the merchant group the template now has.
- `iso8853_string_field` calls a dialect-neutral field renderer that is not in the repository. Iso8853.StringFieldInContext takes that renderer as a parameter.
- `src/specification/` is not declared as a module in `lib.rs`, so it is not compiled. It is modelled as written, against the current `Operation` types.
