/** `calculateParity`: the XPR price implied by the VAULTA route and its distance from the market. */
module Parity {
  import opened RealFacts

  datatype ParityOutput = ParityOutput(xprEquivalenteUsdtViaRede: real, deltaRelativoPercentage: real)

  /** The source never validates its input; a zero XPR price would divide by zero. */
  function CalculateParity(vaultaUsdtPrice: real, xprVaultaFactor: real, xprUsdtPrice: real): (r: ParityOutput)
    requires xprUsdtPrice != 0.0
    ensures r.xprEquivalenteUsdtViaRede == vaultaUsdtPrice * xprVaultaFactor
    ensures r.deltaRelativoPercentage == (r.xprEquivalenteUsdtViaRede / xprUsdtPrice - 1.0) * 100.0
  {
    var eq := vaultaUsdtPrice * xprVaultaFactor;
    var delta := ((eq - xprUsdtPrice) / xprUsdtPrice) * 100.0;
    RelativeDifference(eq, xprUsdtPrice);
    ParityOutput(eq, delta)
  }

  /** For a positive XPR price, the sign of the delta is the side of parity the route is on. */
  lemma DeltaSign(vaultaUsdtPrice: real, xprVaultaFactor: real, xprUsdtPrice: real)
    requires xprUsdtPrice > 0.0
    ensures var r := CalculateParity(vaultaUsdtPrice, xprVaultaFactor, xprUsdtPrice);
            && (r.deltaRelativoPercentage == 0.0 <==> r.xprEquivalenteUsdtViaRede == xprUsdtPrice)
            && (r.deltaRelativoPercentage > 0.0 <==> r.xprEquivalenteUsdtViaRede > xprUsdtPrice)
            && (r.deltaRelativoPercentage < 0.0 <==> r.xprEquivalenteUsdtViaRede < xprUsdtPrice)
  {
    var r := CalculateParity(vaultaUsdtPrice, xprVaultaFactor, xprUsdtPrice);
    DivCompare(r.xprEquivalenteUsdtViaRede, xprUsdtPrice, 1.0);
  }

  /** The equivalent price can be recovered from the delta: the delta is a relative difference. */
  lemma DeltaRoundTrip(vaultaUsdtPrice: real, xprVaultaFactor: real, xprUsdtPrice: real)
    requires xprUsdtPrice != 0.0
    ensures var r := CalculateParity(vaultaUsdtPrice, xprVaultaFactor, xprUsdtPrice);
            xprUsdtPrice * (1.0 + r.deltaRelativoPercentage / 100.0) == r.xprEquivalenteUsdtViaRede
  {
    var r := CalculateParity(vaultaUsdtPrice, xprVaultaFactor, xprUsdtPrice);
    assert (r.xprEquivalenteUsdtViaRede / xprUsdtPrice) * xprUsdtPrice == r.xprEquivalenteUsdtViaRede;
  }
}
