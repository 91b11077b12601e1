// Payment methods and the card-network lookup (src/payment.rs).

module Payment {
  import opened Gateway
  import opened Text

  datatype Payment =
    | Card(pan: string, expiryDate: string, securityCode: string, name: string, network: string)
    | Account(accountNumber: string, sortCode: string, name: string, bankName: string)

  /** What the source panics with on a PAN it cannot classify. */
  const InvalidPan: GatewayError := ValidationError("invalid pan")

  /**
   * `get_network_from_pan`: the first four characters, read as an `i32`,
   * select VISA for [4000, 5000) and MASTERCARD for [5000, 7000). A shorter
   * PAN, a prefix that is not a number, and any other number are rejected;
   * a signed prefix such as "+499" reads as a number below 1000 and is
   * rejected with them.
   */
  function NetworkFromPan(pan: string): (r: Result<string, GatewayError>)
    ensures r.Success? <==> |pan| >= 4 && AllDigits(pan[..4]) && 4000 <= DigitsValue(pan[..4]) < 7000
    ensures r.Success? ==> r.value == if DigitsValue(pan[..4]) < 5000 then "VISA" else "MASTERCARD"
    ensures r.Failure? ==> r.error == InvalidPan
  {
    if |pan| < 4 then Failure(InvalidPan)
    else
      assert Pow10(3) == 1000;
      match ParseShortI32(pan[..4])
      case None => Failure(InvalidPan)
      case Some(v) =>
        if 4000 <= v < 5000 then Success("VISA")
        else if 5000 <= v < 7000 then Success("MASTERCARD")
        else Failure(InvalidPan)
  }

  /**
   * `Payment::card`: a card holding its four arguments verbatim and the
   * network derived once, here, from the PAN; a PAN with no network is
   * rejected.
   */
  function NewCard(pan: string, expiryDate: string, securityCode: string, name: string): (r: Result<Payment, GatewayError>)
    ensures r.Success? <==> NetworkFromPan(pan).Success?
    ensures r.Success? ==> r.value.Card? && r.value.pan == pan && r.value.expiryDate == expiryDate
                           && r.value.securityCode == securityCode && r.value.name == name
                           && r.value.network == NetworkFromPan(pan).value
    ensures r.Failure? ==> r.error == InvalidPan
  {
    var network :- NetworkFromPan(pan);
    Success(Card(pan, expiryDate, securityCode, name, network))
  }

  /** A card built by `NewCard` has a network whose initial is 'V' or 'M', so it is never empty. */
  lemma NewCardNetworkInitial(pan: string, expiryDate: string, securityCode: string, name: string)
    requires NewCard(pan, expiryDate, securityCode, name).Success?
    ensures var n := NewCard(pan, expiryDate, securityCode, name).value.network;
            |n| > 0 && (n[0] == 'V' <==> DigitsValue(pan[..4]) < 5000) && (n[0] == 'V' || n[0] == 'M')
  {
  }
}
