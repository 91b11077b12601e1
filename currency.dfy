// The closed set of transaction currencies and its text form (src/currency.rs).

module Currency {
  import opened Gateway

  datatype Currency = GBP | USD

  /** `Display`: the three-letter code, which fits the (3, 3) currency field. */
  function ToString(c: Currency): (s: string)
    ensures |s| == 3
  {
    match c
    case GBP => "GBP"
    case USD => "USD"
  }

  /**
   * `FromStr`: exactly the rendered codes are accepted, letter case included,
   * and the currency read back is the one rendered; any other text is a
   * field error quoting it.
   */
  function FromStr(s: string): (r: Result<Currency, GatewayError>)
    ensures r.Success? <==> s == ToString(GBP) || s == ToString(USD)
    ensures r.Success? ==> ToString(r.value) == s
    ensures r.Failure? ==> r.error == FieldError("Invalid currency: " + s)
  {
    if s == "GBP" then Success(GBP)
    else if s == "USD" then Success(USD)
    else Failure(FieldError("Invalid currency: " + s))
  }

  /** Distinct currencies render differently. */
  lemma ToStringInjective(c: Currency, d: Currency)
    requires ToString(c) == ToString(d)
    ensures c == d
  {
  }

  /** Parsing a rendered currency gives the currency back. */
  lemma RoundTrip(c: Currency)
    ensures FromStr(ToString(c)) == Success(c)
  {
  }
}
