/** The gateways' integer minor unit: cents, or whole units for a currency that has none. */
module Currency {
  import opened Pricing

  function ToMinor(cents: nat, zeroDecimal: bool): nat {
    if zeroDecimal then RoundHalfUp(cents, 100) else cents
  }
}
