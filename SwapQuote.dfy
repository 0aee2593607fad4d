/**
 * The quote form of the swap widget: the token and chain tables, the
 * conversion of a human amount into raw token units for the request, and
 * the two figures shown from the quote that comes back.
 */
module SwapQuote {
  import opened Wrappers

  datatype Chain = Chain(name: string, chainId: nat)
  datatype Token = Token(symbol: string, address: string, decimals: nat)

  const Chains: seq<Chain> := [
    Chain("ethereum", 1), Chain("bsc", 56), Chain("polygon", 137),
    Chain("arbitrum", 42161), Chain("optimism", 10)]

  const Tokens: seq<Token> := [
    Token("USDT", "0xdAC17F958D2ee523a2206206994597C13D831ec7", 6),
    Token("USDC", "0xA0b86991c6218b36c1d19D4a2e9Eb0cE3606eB48", 6),
    Token("DAI", "0x6B175474E89094C44Da98b954EedeAC495271d0F", 18),
    Token("WETH", "0xC02aaA39b223FE8D0A0e5C4F27eAD9083C756Cc2", 18),
    Token("WBTC", "0x2260FAC5E5542a773Aa44fBCfeDf7C193bc2C599", 8),
    Token("ETH", "0xeeeeeeeeeeeeeeeeeeeeeeeeeeeeeeeeeeeeeeee", 18)]

  /** The decimals of a token symbol in the table. */
  function DecimalsOf(symbol: string): Option<nat>
  {
    if symbol == "USDT" || symbol == "USDC" then Some(6)
    else if symbol == "WBTC" then Some(8)
    else if symbol == "DAI" || symbol == "WETH" || symbol == "ETH" then Some(18)
    else None
  }

  /** The lookup by symbol agrees with the table at every row. */
  lemma DecimalsTable()
    ensures forall i :: 0 <= i < |Tokens| ==> DecimalsOf(Tokens[i].symbol) == Some(Tokens[i].decimals)
  {
  }

  function Pow10(n: nat): (r: real)
    ensures r >= 1.0
  {
    if n == 0 then 1.0 else 10.0 * Pow10(n - 1)
  }

  /** `x.toFixed(0)` as an integer: the nearest integer, halves away from zero. */
  function RoundHalfAway(x: real): (n: int)
    ensures -0.5 <= n as real - x <= 0.5
    ensures x >= 0.0 ==> n as real - x > -0.5
    ensures x < 0.0 ==> n as real - x < 0.5
  {
    if x >= 0.0 then (x + 0.5).Floor else -((-x + 0.5).Floor)
  }

  /** An integer is its own rounding, so a whole raw amount passes unchanged. */
  lemma RoundWhole(k: int)
    ensures RoundHalfAway(k as real) == k
  {
  }

  /** What the widget sends for a quote. */
  datatype QuoteRequest = QuoteRequest(
    fromChain: nat, toChain: nat, fromToken: string, toToken: string, amountRaw: Option<int>)

  /**
   * The request `fetchQuote` builds: `Number(amount)` (None for NaN) times
   * ten to the source token's decimals, rounded.
   */
  function BuildRequest(chainIdx: nat, fromIdx: nat, toIdx: nat, amount: Option<real>): (q: QuoteRequest)
    requires chainIdx < |Chains| && fromIdx < |Tokens| && toIdx < |Tokens|
    ensures q.fromChain == q.toChain == Chains[chainIdx].chainId
    ensures q.fromToken == Tokens[fromIdx].address && q.toToken == Tokens[toIdx].address
    ensures q.amountRaw.Some? <==> amount.Some?
    ensures amount.Some? ==> q.amountRaw.value == RawAmount(amount.value, Tokens[fromIdx].decimals)
  {
    var chain := Chains[chainIdx].chainId;
    var raw := if amount.None? then None else Some(RawAmount(amount.value, Tokens[fromIdx].decimals));
    QuoteRequest(chain, chain, Tokens[fromIdx].address, Tokens[toIdx].address, raw)
  }

  /** A human amount in raw units: times ten to the decimals, rounded to a whole number. */
  function RawAmount(amount: real, decimals: nat): (raw: int)
    ensures -0.5 <= raw as real - amount * Pow10(decimals) <= 0.5
  {
    RoundHalfAway(amount * Pow10(decimals))
  }

  /** A raw amount in human units: divided by ten to the decimals. */
  function FromRaw(raw: real, decimals: nat): (v: real)
    ensures v * Pow10(decimals) == raw
  {
    DivThenScale(raw, Pow10(decimals));
    raw / Pow10(decimals)
  }

  /** The amounts of the returned estimate; `None` for a missing or empty field. */
  datatype Estimate = Estimate(fromAmount: Option<real>, toAmount: Option<real>)

  /** A figure on screen: "-" when the field is missing, or a number, or a division by zero. */
  datatype Shown = Dash | Value(v: real) | NotFinite

  /** "Recebido": the raw `toAmount` scaled down by the destination token's decimals. */
  function Received(e: Estimate, toIdx: nat): (s: Shown)
    requires toIdx < |Tokens|
    ensures e.toAmount.None? <==> s == Dash
    ensures e.toAmount.Some? ==> s.Value? && s.v * Pow10(Tokens[toIdx].decimals) == e.toAmount.value
  {
    if e.toAmount.None? then Dash
    else Value(FromRaw(e.toAmount.value, Tokens[toIdx].decimals))
  }

  lemma DivThenScale(x: real, scale: real)
    requires scale >= 1.0
    ensures (x / scale) * scale == x
  {
  }

  /** "Preço estimado": raw `fromAmount` over raw `toAmount`, with no decimal adjustment. */
  function EstimatedPrice(e: Estimate): (s: Shown)
    ensures s == Dash <==> e.fromAmount.None? || e.toAmount.None?
    ensures s == NotFinite <==> e.fromAmount.Some? && e.toAmount == Some(0.0)
    ensures s.Value? ==> s.v * e.toAmount.value == e.fromAmount.value
  {
    if e.fromAmount.None? || e.toAmount.None? then Dash
    else if e.toAmount.value == 0.0 then NotFinite
    else
      assert (e.fromAmount.value / e.toAmount.value) * e.toAmount.value == e.fromAmount.value;
      Value(e.fromAmount.value / e.toAmount.value)
  }

  /**
   * Scaling an amount up for the request and back down for display loses
   * at most half a raw unit of the token: any raw amount within one half of
   * `amount * 10^decimals` (which `RawAmount` guarantees) shows an amount
   * whose error, measured in raw units, is within one half either way.
   */
  lemma ScalingRoundTrip(amount: real, decimals: nat, raw: int)
    requires -0.5 <= raw as real - amount * Pow10(decimals) <= 0.5
    ensures -0.5 <= (FromRaw(raw as real, decimals) - amount) * Pow10(decimals) <= 0.5
  {
    var scale := Pow10(decimals);
    var shown := FromRaw(raw as real, decimals);
    assert (shown - amount) * scale == raw as real - amount * scale;
  }

  /** One USDT is a million raw units; one WBTC is 10^8. */
  lemma KnownScalings()
    ensures BuildRequest(0, 0, 2, Some(1.0)).amountRaw == Some(1000000)
    ensures BuildRequest(0, 4, 0, Some(1.0)).amountRaw == Some(100000000)
  {
    assert Pow10(6) == 1000000.0;
    assert Pow10(8) == 100000000.0;
  }
}
