// The merchant record (src/merchant.rs); only `mid` is read by the encoder.

module Merchant {
  datatype Merchant = Merchant(name: string, mid: string, email: string)

  /** The merchant of the source's tests. */
  function TestMerchant(): Merchant
  {
    Merchant("Test Merchant", "000104912345678", "test@merchant.com")
  }
}
