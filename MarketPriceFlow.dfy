/**
 * `getMarketPriceFlow`: the price of an asset on one exchange, of which only
 * Binance is implemented. The Binance reply is a parameter.
 */
module MarketPriceFlow {
  import opened Wrappers
  import opened Text
  import opened Http

  /** The exchanges the flow's input schema accepts. */
  datatype FlowExchange = Binance | Mexc | Bitmart | Gateio

  function ExchangeName(e: FlowExchange): string {
    match e
    case Binance => "Binance"
    case Mexc => "MEXC"
    case Bitmart => "Bitmart"
    case Gateio => "Gate.io"
  }

  /** The flow input; the schema fills in the counterpart "USDT" when it is missing. */
  datatype MarketPriceInput = MarketPriceInput(exchange: FlowExchange, asset: string, counterpart: Option<string>)

  /** The Binance ticker body (`{symbol, price}`, or `{msg}` on an error). */
  datatype BinanceBody = BinanceBody(msg: string, symbol: string, price: NumberText)

  const BinanceConnectionMessage: string := "Não foi possível conectar à API da Binance. Verifique a conexão de rede."

  /**
   * `getBinancePrice(pair)`: its `catch` replaces every failure, including
   * the error it throws itself for a failed status, by the connection message.
   */
  function GetBinancePrice(reply: Reply<BinanceBody>): (r: Result<BinanceBody, string>)
    ensures r.Failure? ==> r.error == BinanceConnectionMessage
    ensures r.Success? <==> reply.Response? && IsOk(reply.status) && reply.body.Json?
  {
    match reply
    case FetchFailed(_) => Failure(BinanceConnectionMessage)
    case Response(status, body) =>
      if !IsOk(status) || body.Unparsable? then Failure(BinanceConnectionMessage)
      else Success(body.value)
  }

  /** The Binance symbol: the upper-cased asset followed by the upper-cased counterpart ("USDT" by default). */
  function BinancePair(asset: string, counterpart: Option<string>): (p: string)
    ensures |p| == |asset| + |counterpart.GetOr("USDT")| && NoLowercase(p)
    ensures p[..|asset|] == Upper(asset)
    ensures p[|asset|..] == Upper(counterpart.GetOr("USDT"))
  {
    UpperHasNoLowercase(asset);
    UpperHasNoLowercase(counterpart.GetOr("USDT"));
    Upper(asset) + Upper(counterpart.GetOr("USDT"))
  }

  function NotImplementedMessage(e: FlowExchange): string {
    "A exchange " + ExchangeName(e) + " ainda não foi implementada."
  }

  function InvalidPriceMessage(e: FlowExchange): string {
    "Preço inválido recebido da exchange " + ExchangeName(e) + "."
  }

  /** The flow: a positive price, or the message of the error it throws. */
  function GetMarketPrice(input: MarketPriceInput, binance: string -> Reply<BinanceBody>): (r: Result<real, string>)
    ensures r.Success? ==> input.exchange == Binance && r.value > 0.0
    ensures input.exchange != Binance ==> r == Failure(NotImplementedMessage(input.exchange))
  {
    if input.exchange != Binance then Failure(NotImplementedMessage(input.exchange))
    else
      var pair := BinancePair(input.asset, input.counterpart);
      match GetBinancePrice(binance(pair))
      case Failure(m) => Failure(m)
      case Success(body) =>
        var price := ParseFloat(body.price);
        if price.None? || price.value <= 0.0 then Failure(InvalidPriceMessage(Binance)) else Success(price.value)
  }

  /** A positive Binance price for the pair "<ASSET><COUNTERPART>" is the flow's result. */
  lemma BinancePriceFlowsThrough(input: MarketPriceInput, binance: string -> Reply<BinanceBody>, status: nat, body: BinanceBody, v: real)
    requires input.exchange == Binance && IsOk(status)
    requires binance(BinancePair(input.asset, input.counterpart)) == Response(status, Json(body))
    requires body.price == Text(Some(v)) && v > 0.0
    ensures GetMarketPrice(input, binance) == Success(v)
  {
  }

  /** Every Binance failure, whatever its cause, reaches the caller as the connection message. */
  lemma BinanceFailuresLookAlike(input: MarketPriceInput, binance: string -> Reply<BinanceBody>)
    requires input.exchange == Binance
    requires GetBinancePrice(binance(BinancePair(input.asset, input.counterpart))).Failure?
    ensures GetMarketPrice(input, binance) == Failure(BinanceConnectionMessage)
  {
  }

  /** A missing, unreadable, zero or negative price is reported as invalid. */
  lemma BadBinancePrice(input: MarketPriceInput, binance: string -> Reply<BinanceBody>, body: BinanceBody)
    requires input.exchange == Binance
    requires binance(BinancePair(input.asset, input.counterpart)) == Response(200, Json(body))
    requires ParseFloat(body.price).None? || ParseFloat(body.price).value <= 0.0
    ensures GetMarketPrice(input, binance) == Failure(InvalidPriceMessage(Binance))
  {
  }
}
