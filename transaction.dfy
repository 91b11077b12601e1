// The transaction record (src/transaction.rs).

module Transaction {
  import opened Gateway
  import Currency

  /** Amount in minor currency units, as a Rust `u32`. */
  datatype Transaction = Transaction(amount: U32, currency: Currency.Currency, billingname: string)

  /**
   * `Transaction::new`: never fails; amount and currency are kept as given
   * and a missing billing name becomes the empty string.
   */
  function New(amount: U32, currency: Currency.Currency, billingname: Option<string>): (r: Result<Transaction, string>)
    ensures r.Success?
    ensures r.value.amount == amount && r.value.currency == currency
    ensures billingname.None? ==> r.value.billingname == ""
    ensures billingname.Some? ==> r.value.billingname == billingname.value
  {
    Success(Transaction(amount, currency, match billingname case Some(s) => s case None => ""))
  }
}
