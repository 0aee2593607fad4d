/**
 * The XPR→VAULTA swap calculator: buy XPR with USDT, pay a fixed
 * 200-XPR swap fee, convert XPR to VAULTA at a factor, sell VAULTA for USDT.
 */
module SpreadCalculator {
  import opened Wrappers
  import opened RealFacts

  const FixedXprFee: real := 200.0
  const ViabilityThreshold: real := 0.10
  const DefaultInitialUsdt: real := 100.0
  const DefaultFactor: real := 0.0133

  datatype Viability = Viavel | Neutro | NaoViavel | Aguardando

  /**
   * The calculator's form, each text field as `parseFloat` reads it
   * (`None` for NaN); fees are percentages.
   */
  datatype SpreadForm = SpreadForm(
    xprUsdtPrice: Option<real>, vaultaUsdtPrice: Option<real>, xprToVaultaFactor: Option<real>,
    initialUsdt: Option<real>, buyFeePercent: real, sellFeePercent: real)

  /** `Waiting` carries no figures; `insufficientXpr` marks the early return of the fixed-fee check. */
  datatype Calculation =
    | Waiting
    | Figures(pInitialUsdt: real, xprBruto: real, xprPosCompra: real, xprLiquidoParaSwap: real,
              vaultaRecebido: real, usdtFinalLiquido: real, spreadPercentage: real,
              viability: Viability, insufficientXpr: bool)
  {
    function ViabilityOf(): Viability {
      if Waiting? then Aguardando else viability
    }
  }

  /** `parseFloat(initialUsdt) || 100`: NaN and 0 both fall back to 100. */
  function InitialOrDefault(initial: Option<real>): (r: real)
    ensures r != 0.0
    ensures r == DefaultInitialUsdt <==> initial.None? || initial == Some(0.0) || initial == Some(DefaultInitialUsdt)
    ensures initial.Some? && initial.value != 0.0 ==> r == initial.value
  {
    if initial.None? || initial.value == 0.0 then DefaultInitialUsdt else initial.value
  }

  function Classify(spread: real): (v: Viability)
    ensures v == Viavel <==> spread > ViabilityThreshold
    ensures v == NaoViavel <==> spread < -ViabilityThreshold
    ensures v == Neutro <==> -ViabilityThreshold <= spread <= ViabilityThreshold
  {
    if spread > ViabilityThreshold then Viavel
    else if spread < -ViabilityThreshold then NaoViavel
    else Neutro
  }

  predicate Positive(p: Option<real>) {
    p.Some? && p.value > 0.0
  }

  predicate Ready(f: SpreadForm) {
    Positive(f.xprUsdtPrice) && Positive(f.vaultaUsdtPrice) && Positive(f.xprToVaultaFactor)
  }

  /** `calculations`. */
  function Calculate(f: SpreadForm): (c: Calculation)
    ensures c.Waiting? <==> !Ready(f)
  {
    if !Ready(f) then Waiting
    else
      var pXpr, pVaulta, pFactor := f.xprUsdtPrice.value, f.vaultaUsdtPrice.value, f.xprToVaultaFactor.value;
      var initial := InitialOrDefault(f.initialUsdt);
      var buyFee, sellFee := f.buyFeePercent / 100.0, f.sellFeePercent / 100.0;
      var xprBruto := initial / pXpr;
      var xprPosCompra := xprBruto * (1.0 - buyFee);
      var xprLiquido := xprPosCompra - FixedXprFee;
      if xprLiquido < 0.0 then
        Figures(initial, xprBruto, xprPosCompra, xprLiquido, 0.0, 0.0, -100.0, NaoViavel, true)
      else
        var vaultaRecebido := xprLiquido * pFactor;
        var usdtFinalBruto := vaultaRecebido * pVaulta;
        var usdtFinalLiquido := usdtFinalBruto * (1.0 - sellFee);
        var spread := ((usdtFinalLiquido - initial) / initial) * 100.0;
        Figures(initial, xprBruto, xprPosCompra, xprLiquido, vaultaRecebido, usdtFinalLiquido,
                spread, Classify(spread), false)
  }

  /** The XPR left for the swap, and the early "not viable" verdict when it is negative. */
  lemma XprAvailableForSwap(f: SpreadForm)
    requires Ready(f)
    ensures var c := Calculate(f);
            var initial := InitialOrDefault(f.initialUsdt);
            && c.xprLiquidoParaSwap == (initial / f.xprUsdtPrice.value) * (1.0 - f.buyFeePercent / 100.0) - FixedXprFee
            && (c.xprLiquidoParaSwap < 0.0 <==> c.insufficientXpr)
            && (c.insufficientXpr ==> c.viability == NaoViavel && c.spreadPercentage == -100.0 && c.usdtFinalLiquido == 0.0)
  {
  }

  /**
   * With enough XPR, the final USDT is the swapped XPR valued in VAULTA
   * after the sell fee, the spread is its relative gain over the capital,
   * and the verdict follows the ±0.10 band.
   */
  lemma SwapOutcome(f: SpreadForm)
    requires Ready(f) && !Calculate(f).insufficientXpr
    ensures var c := Calculate(f);
            var initial := InitialOrDefault(f.initialUsdt);
            && c.usdtFinalLiquido == c.xprLiquidoParaSwap * f.xprToVaultaFactor.value * f.vaultaUsdtPrice.value * (1.0 - f.sellFeePercent / 100.0)
            && c.spreadPercentage == (c.usdtFinalLiquido / initial - 1.0) * 100.0
            && c.viability == Classify(c.spreadPercentage)
  {
    var c := Calculate(f);
    var initial := InitialOrDefault(f.initialUsdt);
    var sellFee := f.sellFeePercent / 100.0;
    assert c.vaultaRecebido == c.xprLiquidoParaSwap * f.xprToVaultaFactor.value;
    assert c.usdtFinalLiquido == c.vaultaRecebido * f.vaultaUsdtPrice.value * (1.0 - sellFee);
    assert c.spreadPercentage == ((c.usdtFinalLiquido - initial) / initial) * 100.0;
    RelativeDifference(c.usdtFinalLiquido, initial);
  }

  /** For a positive capital, 'Viável' means the swap ends with more USDT than it began with. */
  lemma ViableMeansProfit(f: SpreadForm)
    requires Ready(f)
    requires InitialOrDefault(f.initialUsdt) > 0.0
    ensures var c := Calculate(f);
            var initial := InitialOrDefault(f.initialUsdt);
            && (c.viability == Viavel <==> !c.insufficientXpr && c.usdtFinalLiquido > (1.0 + ViabilityThreshold / 100.0) * initial)
            && (c.viability == Viavel ==> c.usdtFinalLiquido > initial)
  {
    var c := Calculate(f);
    var initial := InitialOrDefault(f.initialUsdt);
    if !c.insufficientXpr {
      SwapOutcome(f);
      DivCompare(c.usdtFinalLiquido, initial, 1.0 + ViabilityThreshold / 100.0);
    }
  }

  /** `handleReset`: factor, capital and fees go back to their defaults; the prices stay. */
  function Reset(f: SpreadForm): (g: SpreadForm)
    ensures g.xprUsdtPrice == f.xprUsdtPrice && g.vaultaUsdtPrice == f.vaultaUsdtPrice
    ensures g.xprToVaultaFactor == Some(DefaultFactor) && g.initialUsdt == Some(DefaultInitialUsdt)
    ensures g.buyFeePercent == 0.0 && g.sellFeePercent == 0.0
  {
    f.(xprToVaultaFactor := Some(DefaultFactor), initialUsdt := Some(DefaultInitialUsdt),
       buyFeePercent := 0.0, sellFeePercent := 0.0)
  }

  /** `handleZeroFees`: only the two fees change. */
  function ZeroFees(f: SpreadForm): (g: SpreadForm)
    ensures g == f.(buyFeePercent := 0.0, sellFeePercent := 0.0)
    ensures g.xprUsdtPrice == f.xprUsdtPrice && g.vaultaUsdtPrice == f.vaultaUsdtPrice
    ensures g.xprToVaultaFactor == f.xprToVaultaFactor && g.initialUsdt == f.initialUsdt
  {
    f.(buyFeePercent := 0.0, sellFeePercent := 0.0)
  }

  /**
   * After a reset, a form with both prices set computes on 100 USDT with no
   * fees: it needs at least 200 XPR of 100 USDT, i.e. an XPR price of at most 0.5.
   */
  lemma ResetThenCalculate(f: SpreadForm)
    requires Positive(f.xprUsdtPrice) && Positive(f.vaultaUsdtPrice)
    ensures var c := Calculate(Reset(f));
            && c.Figures?
            && c.pInitialUsdt == DefaultInitialUsdt
            && c.xprPosCompra == c.xprBruto == DefaultInitialUsdt / f.xprUsdtPrice.value
            && (c.insufficientXpr <==> f.xprUsdtPrice.value > 0.5)
  {
    var p := f.xprUsdtPrice.value;
    DivCompare(DefaultInitialUsdt, p, FixedXprFee);
  }

  /** Resetting is idempotent, and zeroing fees after a reset changes nothing. */
  lemma ResetIdempotent(f: SpreadForm)
    ensures Reset(Reset(f)) == Reset(f)
    ensures ZeroFees(Reset(f)) == Reset(f)
  {
  }
}
