/**
 * `POST /api/get-market-price`: normalise the asset and counterpart, build
 * the pair in the exchange's own format, ask that exchange's service and
 * check the price. Each exchange's HTTP reply is a parameter: a function
 * from the pair asked for to what the exchange answers.
 */
module MarketPriceRoute {
  import opened Wrappers
  import opened Text
  import opened Http
  import MexcService
  import BitmartService
  import GateioService
  import PoloniexService
  import opened PairFormat

  /** The JSON request: a missing or empty `exchange`/`asset` is "", a missing `counterpart` is `None`. */
  datatype PriceRequest = PriceRequest(exchange: string, asset: string, counterpart: Option<string>)

  /** What each exchange answers for a given pair. */
  datatype Exchanges = Exchanges(
    mexc: string -> Reply<MexcService.MexcBody>,
    bitmart: string -> Reply<BitmartService.BitmartBody>,
    gateio: string -> Reply<GateioService.GateioBody>,
    poloniex: string -> Reply<PoloniexService.PoloniexBody>)

  datatype RouteResponse = PriceResponse(price: real) | ErrorResponse(status: nat, error: string)

  const RequiredMessage: string := "Exchange e asset são obrigatórios."
  const ProcessingErrorMessage: string := "Erro ao processar requisição."

  function UnknownExchangeMessage(exchange: string): string {
    "Exchange desconhecida: " + exchange
  }

  function InvalidPriceMessage(exchange: string): string {
    "Preço inválido recebido da exchange " + exchange + "."
  }

  predicate Supported(exchange: string) {
    exchange == "MEXC" || exchange == "Bitmart" || exchange == "Gate.io" || exchange == "Poloniex"
  }

  /** The name the route's `switch` matches for each exchange. */
  function Name(venue: Venue): string {
    match venue
    case Mexc => "MEXC"
    case Bitmart => "Bitmart"
    case Gateio => "Gate.io"
    case Poloniex => "Poloniex"
  }

  /** The `switch (exchange)`: the exchange a name selects, if any. */
  function VenueOf(exchange: string): (v: Option<Venue>)
    ensures v.Some? <==> Supported(exchange)
    ensures v.Some? ==> Name(v.value) == exchange
  {
    if exchange == "MEXC" then Some(Mexc)
    else if exchange == "Bitmart" then Some(Bitmart)
    else if exchange == "Gate.io" then Some(Gateio)
    else if exchange == "Poloniex" then Some(Poloniex)
    else None
  }

  /** Every exchange is selected by its own name. */
  lemma VenueOfName(venue: Venue)
    ensures VenueOf(Name(venue)) == Some(venue)
  {
  }

  /**
   * The price field the exchange's service returned, as `parseFloat` reads
   * it: `price` for MEXC and Poloniex, `last_price` for Bitmart, `last` for
   * Gate.io. A service failure passes through with its message.
   */
  function Quote(venue: Venue, pair: string, ex: Exchanges): (r: Result<Option<real>, string>)
    ensures venue == Mexc ==>
              var s := MexcService.GetMexcPrice(pair, ex.mexc(pair));
              && (s.Success? ==> r == Success(ParseFloat(s.value.price)))
              && (s.Failure? ==> r == Failure(s.error))
    ensures venue == Bitmart ==>
              var s := BitmartService.GetBitmartPrice(pair, ex.bitmart(pair));
              && (s.Success? ==> r == Success(ParseFloat(s.value.lastPrice)))
              && (s.Failure? ==> r == Failure(s.error))
    ensures venue == Gateio ==>
              var s := GateioService.GetGateioPrice(pair, ex.gateio(pair));
              && (s.Success? ==> r == Success(ParseFloat(s.value.last)))
              && (s.Failure? ==> r == Failure(s.error))
    ensures venue == Poloniex ==>
              var s := PoloniexService.GetPoloniexPrice(pair, ex.poloniex(pair));
              && (s.Success? ==> r == Success(ParseFloat(s.value.price)))
              && (s.Failure? ==> r == Failure(s.error))
  {
    match venue
    case Mexc =>
      (match MexcService.GetMexcPrice(pair, ex.mexc(pair))
       case Success(o) => Success(ParseFloat(o.price))
       case Failure(m) => Failure(m))
    case Bitmart =>
      (match BitmartService.GetBitmartPrice(pair, ex.bitmart(pair))
       case Success(t) => Success(ParseFloat(t.lastPrice))
       case Failure(m) => Failure(m))
    case Gateio =>
      (match GateioService.GetGateioPrice(pair, ex.gateio(pair))
       case Success(t) => Success(ParseFloat(t.last))
       case Failure(m) => Failure(m))
    case Poloniex =>
      (match PoloniexService.GetPoloniexPrice(pair, ex.poloniex(pair))
       case Success(b) => Success(ParseFloat(b.price))
       case Failure(m) => Failure(m))
  }

  /**
   * What the route answers once the service has been asked: a service
   * failure is a 500 carrying the service's message, a missing, unreadable,
   * zero or negative price is a 500 naming the exchange, and a positive
   * price is answered unchanged.
   */
  function Verdict(exchange: string, quote: Result<Option<real>, string>): (r: RouteResponse)
    ensures quote.Failure? ==> r == ErrorResponse(500, quote.error)
    ensures quote.Success? && quote.value.Some? && quote.value.value > 0.0 ==> r == PriceResponse(quote.value.value)
    ensures quote.Success? && (quote.value.None? || quote.value.value <= 0.0)
            ==> r == ErrorResponse(500, InvalidPriceMessage(exchange))
  {
    match quote
    case Failure(m) => ErrorResponse(500, m)
    case Success(p) =>
      if p.None? || p.value <= 0.0 then ErrorResponse(500, InvalidPriceMessage(exchange))
      else PriceResponse(p.value)
  }

  /**
   * `POST(req)`: a supported exchange's answer is the verdict on what its
   * service returned for the pair in that exchange's format.
   */
  function Post(request: Body<PriceRequest>, ex: Exchanges): (r: RouteResponse)
    ensures r.PriceResponse? ==> r.price > 0.0
    ensures r.PriceResponse? ==> request.Json? && Supported(request.value.exchange) && request.value.asset != ""
    ensures r.ErrorResponse? ==> r.status == 400 || r.status == 500
    ensures request.Json? && (request.value.exchange == "" || request.value.asset == "")
            ==> r == ErrorResponse(400, RequiredMessage)
    ensures request.Json? && request.value.exchange != "" && request.value.asset != "" && !Supported(request.value.exchange)
            ==> r == ErrorResponse(400, UnknownExchangeMessage(request.value.exchange))
    ensures request.Json? && request.value.exchange != "" && request.value.asset != "" && Supported(request.value.exchange)
            ==> var q := request.value;
                var venue := VenueOf(q.exchange).value;
                var pair := Pair(venue, CleanAsset(q.asset), CleanCounterpart(q.counterpart));
                r == Verdict(q.exchange, Quote(venue, pair, ex))
  {
    match request
    case Unparsable(t) => ErrorResponse(500, if t.Error? then t.message else ProcessingErrorMessage)
    case Json(q) =>
      if q.exchange == "" || q.asset == "" then ErrorResponse(400, RequiredMessage)
      else
        match VenueOf(q.exchange)
        case None => ErrorResponse(400, UnknownExchangeMessage(q.exchange))
        case Some(venue) =>
          var pair := Pair(venue, CleanAsset(q.asset), CleanCounterpart(q.counterpart));
          Verdict(q.exchange, Quote(venue, pair, ex))
  }

  /**
   * A MEXC request whose pair "<ASSET><COUNTERPART>" MEXC answers with an OK
   * ticker array whose first price is positive is answered with that price.
   */
  lemma MexcPriceFlowsThrough(q: PriceRequest, ex: Exchanges, status: nat, items: seq<MexcService.MexcObject>, v: real)
    requires q.exchange == "MEXC" && q.asset != ""
    requires var pair := CleanAsset(q.asset) + CleanCounterpart(q.counterpart);
             ex.mexc(pair) == Response(status, Json(MexcService.Many(items)))
    requires IsOk(status) && items != [] && items[0].price == Text(Some(v)) && v > 0.0
    ensures Post(Json(q), ex) == PriceResponse(v)
  {
    var pair := CleanAsset(q.asset) + CleanCounterpart(q.counterpart);
    assert Pair(Mexc, CleanAsset(q.asset), CleanCounterpart(q.counterpart)) == pair;
    MexcTickerQuoted(pair, ex, status, items, v);
    PositiveQuoteAnswered(q, Mexc, ex, v);
  }

  /**
   * A Poloniex request whose pair "<ASSET>_<COUNTERPART>" Poloniex answers
   * with an OK body carrying a positive price is answered with that price.
   */
  lemma PoloniexPriceFlowsThrough(q: PriceRequest, ex: Exchanges, status: nat, body: PoloniexService.PoloniexBody, v: real)
    requires q.exchange == "Poloniex" && q.asset != ""
    requires var pair := CleanAsset(q.asset) + "_" + CleanCounterpart(q.counterpart);
             ex.poloniex(pair) == Response(status, Json(body))
    requires IsOk(status) && body.price == Text(Some(v)) && v > 0.0
    ensures Post(Json(q), ex) == PriceResponse(v)
  {
    var pair := CleanAsset(q.asset) + "_" + CleanCounterpart(q.counterpart);
    assert Pair(Poloniex, CleanAsset(q.asset), CleanCounterpart(q.counterpart)) == pair;
    PoloniexPriceQuoted(pair, ex, status, body, v);
    PositiveQuoteAnswered(q, Poloniex, ex, v);
  }

  /** An OK MEXC ticker array quotes the price of its first ticker. */
  lemma MexcTickerQuoted(pair: string, ex: Exchanges, status: nat, items: seq<MexcService.MexcObject>, v: real)
    requires ex.mexc(pair) == Response(status, Json(MexcService.Many(items)))
    requires IsOk(status) && items != [] && items[0].price == Text(Some(v))
    ensures Quote(Mexc, pair, ex) == Success(Some(v))
  {
    assert MexcService.GetMexcPrice(pair, ex.mexc(pair)) == Success(items[0]);
  }

  /** An OK Poloniex body quotes its own price. */
  lemma PoloniexPriceQuoted(pair: string, ex: Exchanges, status: nat, body: PoloniexService.PoloniexBody, v: real)
    requires ex.poloniex(pair) == Response(status, Json(body))
    requires IsOk(status) && body.price == Text(Some(v))
    ensures Quote(Poloniex, pair, ex) == Success(Some(v))
  {
    assert PoloniexService.GetPoloniexPrice(pair, ex.poloniex(pair)) == Success(body);
  }

  /** A request naming a supported exchange is answered with the verdict on that exchange's quote. */
  lemma QuoteAnswered(q: PriceRequest, venue: Venue, ex: Exchanges)
    requires q.exchange == Name(venue) && q.asset != ""
    ensures Post(Json(q), ex)
            == Verdict(q.exchange, Quote(venue, Pair(venue, CleanAsset(q.asset), CleanCounterpart(q.counterpart)), ex))
  {
    VenueOfName(venue);
  }

  /** A request whose exchange quotes a positive price for its pair is answered with that price. */
  lemma PositiveQuoteAnswered(q: PriceRequest, venue: Venue, ex: Exchanges, v: real)
    requires q.exchange == Name(venue) && q.asset != "" && v > 0.0
    requires Quote(venue, Pair(venue, CleanAsset(q.asset), CleanCounterpart(q.counterpart)), ex) == Success(Some(v))
    ensures Post(Json(q), ex) == PriceResponse(v)
  {
    QuoteAnswered(q, venue, ex);
  }

  /** A service error reaches the client as a 500 with the service's own message. */
  lemma BitmartErrorIs500(q: PriceRequest, ex: Exchanges, m: string)
    requires q.exchange == "Bitmart" && q.asset != ""
    requires var pair := CleanAsset(q.asset) + "_" + CleanCounterpart(q.counterpart);
             BitmartService.GetBitmartPrice(pair, ex.bitmart(pair)) == Failure(m)
    ensures Post(Json(q), ex) == ErrorResponse(500, m)
  {
    var pair := CleanAsset(q.asset) + "_" + CleanCounterpart(q.counterpart);
    assert Quote(Bitmart, pair, ex) == Failure(m);
    assert Pair(Bitmart, CleanAsset(q.asset), CleanCounterpart(q.counterpart)) == pair;
    QuoteAnswered(q, Bitmart, ex);
  }

  /** A ticker whose price is missing, unreadable, zero or negative is an invalid price. */
  lemma GateioBadPriceIs500(q: PriceRequest, ex: Exchanges, t: GateioService.GateioTicker)
    requires q.exchange == "Gate.io" && q.asset != ""
    requires var pair := CleanAsset(q.asset) + "_" + CleanCounterpart(q.counterpart);
             GateioService.GetGateioPrice(pair, ex.gateio(pair)) == Success(t)
    requires ParseFloat(t.last).None? || ParseFloat(t.last).value <= 0.0
    ensures Post(Json(q), ex) == ErrorResponse(500, InvalidPriceMessage("Gate.io"))
  {
    var pair := CleanAsset(q.asset) + "_" + CleanCounterpart(q.counterpart);
    assert Quote(Gateio, pair, ex) == Success(ParseFloat(t.last));
    assert Pair(Gateio, CleanAsset(q.asset), CleanCounterpart(q.counterpart)) == pair;
    QuoteAnswered(q, Gateio, ex);
  }

  /** A body that is not JSON is a 500 with the parser's message. */
  lemma UnparsableRequest(m: string, ex: Exchanges)
    ensures Post(Unparsable(Error(m)), ex) == ErrorResponse(500, m)
    ensures Post(Unparsable(NonError), ex) == ErrorResponse(500, ProcessingErrorMessage)
  {
  }
}
