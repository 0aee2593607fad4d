/**
 * The A→B triangulation of the arbitrage calculator (`triResults`):
 * buy asset A with USDT at `pA`, convert A into B at the factor `pA / pB`,
 * sell B for USDT at `pB`, with a percentage fee on each trade.
 * Every figure is exact real arithmetic; a field that `parseFloat` could
 * not read is `None`.
 */
module Triangulation {
  import opened Wrappers
  import opened RealFacts

  /** The half-width of the band around zero that counts as neutral. */
  const DeadZone: real := 0.0001

  datatype Diagnosis = Positive | Negative | Neutral

  /** The five form fields after `parseFloat`; fees are percentages. */
  datatype TriInputs = TriInputs(
    priceA: Option<real>, priceB: Option<real>, initialUsdt: Option<real>,
    feeAPercent: real, feeBPercent: real)

  datatype TriResult = TriResult(
    aBruto: real,             // A bought before the fee
    aPosCompra: real,         // A left after the buy fee
    bRecebido: real,          // B received through the factor
    usdtFinalLiquido: real,   // USDT after selling B and the sell fee
    spread: real,             // net spread, in percent
    diagnosis: Diagnosis,
    aEquivalente: real,
    deltaRelativo: real,
    precoBBreakEven: real,
    calculatedFactor: real)

  /** The three-way classification with the dead zone. */
  function Diagnose(spread: real): (d: Diagnosis)
    ensures d == Positive <==> spread > DeadZone
    ensures d == Negative <==> spread < -DeadZone
    ensures d == Neutral <==> -DeadZone <= spread <= DeadZone
  {
    if spread > DeadZone then Positive
    else if spread < -DeadZone then Negative
    else Neutral
  }

  predicate ValidPrice(p: Option<real>) {
    p.Some? && p.value > 0.0
  }

  /** The guard before any figure is computed. */
  predicate Computable(inp: TriInputs) {
    ValidPrice(inp.priceA) && ValidPrice(inp.priceB) && inp.initialUsdt.Some?
  }

  function Compute(pA: real, pB: real, usdtInitial: real, feeA: real, feeB: real): TriResult
    requires pA > 0.0 && pB > 0.0
  {
    var factor := pA / pB;
    var aBruto := usdtInitial / pA;
    var aPosCompra := aBruto * (1.0 - feeA);
    var bRecebido := aPosCompra / factor;
    var usdtFinalBruto := bRecebido * pB;
    var usdtFinalLiquido := usdtFinalBruto * (1.0 - feeB);
    var spread := if usdtInitial > 0.0 then ((usdtFinalLiquido / usdtInitial) - 1.0) * 100.0 else 0.0;
    var aEquivalente := pB * (1.0 / factor);
    var deltaRelativo := if pA > 0.0 then ((aEquivalente / pA) - 1.0) * 100.0 else 0.0;
    var precoBBreakEven := if factor > 0.0 then pA / factor else 0.0;
    TriResult(aBruto, aPosCompra, bRecebido, usdtFinalLiquido, spread, Diagnose(spread),
              aEquivalente, deltaRelativo, precoBBreakEven, factor)
  }

  /** `triResults`: no result unless both prices are positive numbers and the capital is a number. */
  function TriResults(inp: TriInputs): (r: Option<TriResult>)
    ensures r.Some? <==> Computable(inp)
  {
    if !Computable(inp) then None
    else Some(Compute(inp.priceA.value, inp.priceB.value, inp.initialUsdt.value,
                      inp.feeAPercent / 100.0, inp.feeBPercent / 100.0))
  }

  /**
   * The final net USDT in closed form: the capital, times both fee
   * retentions, times the square of `pB / pA` (the factor is applied once
   * to the quantity and `pB / pA` once more through the sale).
   */
  lemma FinalInClosedForm(inp: TriInputs)
    requires Computable(inp)
    ensures var pA, pB := inp.priceA.value, inp.priceB.value;
            var k := 1.0 - inp.feeAPercent / 100.0;
            var m := 1.0 - inp.feeBPercent / 100.0;
            TriResults(inp).value.usdtFinalLiquido == inp.initialUsdt.value * k * m * ((pB / pA) * (pB / pA))
  {
    var pA, pB, u := inp.priceA.value, inp.priceB.value, inp.initialUsdt.value;
    var k := 1.0 - inp.feeAPercent / 100.0;
    var m := 1.0 - inp.feeBPercent / 100.0;
    var r := TriResults(inp).value;
    assert r.usdtFinalLiquido == (u / pA) * k / (pA / pB) * pB * m;
    DivByRatio((u / pA) * k, pA, pB);
    DivThenMul(u, pA, pB);
    calc {
      (u / pA) * k / (pA / pB) * pB * m;
      (u / pA) * k * (pB / pA) * pB * m;
      ((u / pA) * pB) * k * (pB / pA) * m;
      (u * (pB / pA)) * k * (pB / pA) * m;
      u * k * m * ((pB / pA) * (pB / pA));
    }
  }

  /** The spread is the relative gain of the final amount over a positive capital, and 0 otherwise. */
  lemma SpreadMeaning(inp: TriInputs)
    requires Computable(inp)
    ensures var r := TriResults(inp).value;
            var u := inp.initialUsdt.value;
            (u > 0.0 ==> r.spread == (r.usdtFinalLiquido - u) / u * 100.0)
            && (u <= 0.0 ==> r.spread == 0.0 && r.diagnosis == Neutral)
  {
    var r := TriResults(inp).value;
    var u := inp.initialUsdt.value;
    if u > 0.0 {
      var f := r.usdtFinalLiquido;
      assert (f - u) / u == f / u - u / u;
    }
  }

  /**
   * The diagnosis against the capital itself: a positive diagnosis means
   * the route ends with more USDT than it started with, a negative one with
   * less, and outside the dead zone the converse holds.
   */
  lemma DiagnosisAgainstCapital(inp: TriInputs)
    requires Computable(inp) && inp.initialUsdt.value > 0.0
    ensures var r := TriResults(inp).value;
            var u := inp.initialUsdt.value;
            && (r.diagnosis == Positive <==> r.usdtFinalLiquido > (1.0 + DeadZone / 100.0) * u)
            && (r.diagnosis == Negative <==> r.usdtFinalLiquido < (1.0 - DeadZone / 100.0) * u)
            && (r.diagnosis == Positive ==> r.usdtFinalLiquido > u)
            && (r.diagnosis == Negative ==> r.usdtFinalLiquido < u)
  {
    var r := TriResults(inp).value;
    var u := inp.initialUsdt.value;
    var f := r.usdtFinalLiquido;
    assert r.spread == (f / u - 1.0) * 100.0;
    DivCompare(f, u, 1.0 + DeadZone / 100.0);
    DivCompare(f, u, 1.0 - DeadZone / 100.0);
  }

  /** Equal prices and no fees: the capital comes back unchanged and the result is neutral. */
  lemma NoFeesEqualPricesIsNeutral(inp: TriInputs)
    requires Computable(inp)
    requires inp.priceA.value == inp.priceB.value
    requires inp.feeAPercent == 0.0 && inp.feeBPercent == 0.0
    ensures TriResults(inp).value.usdtFinalLiquido == inp.initialUsdt.value
    ensures TriResults(inp).value.diagnosis == Neutral
  {
    FinalInClosedForm(inp);
  }

  /**
   * The parity figures: the break-even B price is `pB` itself, the A
   * equivalent is `pB * (pB / pA)`, and the relative delta compares it with `pA`.
   */
  lemma ParityFigures(inp: TriInputs)
    requires Computable(inp)
    ensures var r := TriResults(inp).value;
            var pA, pB := inp.priceA.value, inp.priceB.value;
            && r.calculatedFactor == pA / pB
            && r.precoBBreakEven == pB
            && r.aEquivalente == pB * (pB / pA)
            && r.deltaRelativo == ((pB / pA) * (pB / pA) - 1.0) * 100.0
  {
    var pA, pB := inp.priceA.value, inp.priceB.value;
    var r := TriResults(inp).value;
    RatioOfRatio(pA, pB);
    assert r.aEquivalente == pB * (pB / pA);
    assert r.deltaRelativo == ((r.aEquivalente / pA) - 1.0) * 100.0;
    RatioSquared(pA, pB);
  }

  /** With equal positive prices the triangulation is at parity: no delta. */
  lemma EqualPricesAtParity(inp: TriInputs)
    requires Computable(inp) && inp.priceA.value == inp.priceB.value
    ensures TriResults(inp).value.deltaRelativo == 0.0
    ensures TriResults(inp).value.calculatedFactor == 1.0
  {
    ParityFigures(inp);
  }

  /** A NaN or non-positive price, or a NaN capital, gives no result; any other capital, negative included, does. */
  lemma RejectedInputs(pA: Option<real>, pB: Option<real>, u: Option<real>, fa: real, fb: real)
    ensures !ValidPrice(pA) ==> TriResults(TriInputs(pA, pB, u, fa, fb)).None?
    ensures !ValidPrice(pB) ==> TriResults(TriInputs(pA, pB, u, fa, fb)).None?
    ensures u.None? ==> TriResults(TriInputs(pA, pB, u, fa, fb)).None?
    ensures ValidPrice(pA) && ValidPrice(pB) && u.Some? ==> TriResults(TriInputs(pA, pB, u, fa, fb)).Some?
  {
  }
}
