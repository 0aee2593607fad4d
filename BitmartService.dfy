/** `getBitmartPrice`: classify the Bitmart ticker response for one pair. */
module BitmartService {
  import opened Wrappers
  import opened Text
  import opened Http

  datatype BitmartTicker = BitmartTicker(symbol: string, lastPrice: NumberText)

  /**
   * The response object: `message` ("" when missing), `code`, and
   * `data.tickers` (`None` when `data` or `tickers` is missing).
   */
  datatype BitmartBody = BitmartBody(message: string, code: Option<int>, tickers: Option<seq<BitmartTicker>>)

  const SuccessCode: int := 1000
  const TooManyRequests: nat := 429
  const ApiErrorPrefix: string := "Erro da API da Bitmart: "
  const RateLimitMessage: string :=
    "Erro da API da Bitmart: Muitas requisições. Por favor, aguarde um momento antes de tentar novamente."
  const ConnectionMessage: string := "Não foi possível conectar à API da Bitmart. Verifique a conexão de rede."

  function PairNotFoundMessage(pair: string): string {
    ApiErrorPrefix + "O par '" + pair + "' não foi encontrado."
  }

  function NoTickerMessage(pair: string): string {
    "Nenhum dado de ticker encontrado para o par " + pair + " na Bitmart."
  }

  /** The message of a failed status or a code other than 1000. */
  function ApiErrorMessage(pair: string, status: nat, message: string): (m: string)
    ensures message != "" && Contains(Lower(message), "symbol not found") ==> m == PairNotFoundMessage(pair)
    ensures message != "" && !Contains(Lower(message), "symbol not found") ==> m == ApiErrorPrefix + message
    ensures message == "" ==> m == ApiErrorPrefix + "Status " + NatToString(status)
  {
    if message != "" && Contains(Lower(message), "symbol not found") then PairNotFoundMessage(pair)
    else ApiErrorPrefix + (if message != "" then message else "Status " + NatToString(status))
  }

  /**
   * The body of the `try` block. It returns the first ticker exactly for an
   * OK, parsed reply with code 1000 and a non-empty ticker list; a rejected
   * `fetch` or an unreadable body (other than under 429) is rethrown as it
   * came, and every other failure is an `Error` it throws.
   */
  function Attempt(pair: string, reply: Reply<BitmartBody>): (r: Result<BitmartTicker, Thrown>)
    ensures r.Success? <==>
              && reply.Response? && IsOk(reply.status) && reply.body.Json?
              && reply.body.value.code == Some(SuccessCode)
              && reply.body.value.tickers.Some? && reply.body.value.tickers.value != []
    ensures r.Success? ==> r.value == reply.body.value.tickers.value[0]
    ensures reply.FetchFailed? ==> r == Failure(reply.thrown)
    ensures reply.Response? && reply.status != TooManyRequests && reply.body.Unparsable?
            ==> r == Failure(reply.body.thrown)
    ensures reply.Response? && (reply.status == TooManyRequests || reply.body.Json?) && r.Failure?
            ==> r.error.Error?
  {
    match reply
    case FetchFailed(t) => Failure(t)
    case Response(status, body) =>
      if status == TooManyRequests then Failure(Error(RateLimitMessage))
      else match body
        case Unparsable(t) => Failure(t)
        case Json(data) =>
          if !IsOk(status) || data.code != Some(SuccessCode) then Failure(Error(ApiErrorMessage(pair, status, data.message)))
          else if data.tickers.None? || data.tickers.value == [] then Failure(Error(NoTickerMessage(pair)))
          else Success(data.tickers.value[0])
  }

  /**
   * `getBitmartPrice(pair)`: Error instances pass through the `catch`;
   * anything else becomes a connection error. It succeeds exactly for an OK,
   * parsed reply with code 1000 and a non-empty ticker list, with the first ticker.
   */
  function GetBitmartPrice(pair: string, reply: Reply<BitmartBody>): (r: Result<BitmartTicker, string>)
    ensures r.Success? <==>
              && reply.Response? && IsOk(reply.status) && reply.body.Json?
              && reply.body.value.code == Some(SuccessCode)
              && reply.body.value.tickers.Some? && reply.body.value.tickers.value != []
    ensures r.Success? ==> var data := reply.body.value;
                           data.code == Some(SuccessCode) && data.tickers.Some? && data.tickers.value != []
                           && r.value == data.tickers.value[0]
    ensures reply.Response? && reply.status == TooManyRequests ==> r == Failure(RateLimitMessage)
  {
    match Attempt(pair, reply)
    case Success(t) => Success(t)
    case Failure(Error(m)) => Failure(m)
    case Failure(NonError) => Failure(ConnectionMessage)
  }

  /** An OK reply with code 1000 and tickers is answered with the first ticker, whatever the message. */
  lemma FirstTickerReturned(pair: string, status: nat, message: string, tickers: seq<BitmartTicker>)
    requires IsOk(status) && tickers != []
    ensures GetBitmartPrice(pair, Response(status, Json(BitmartBody(message, Some(SuccessCode), Some(tickers)))))
            == Success(tickers[0])
  {
  }

  /** A 429 is reported before the body is read, even when the body could not be parsed. */
  lemma RateLimitFirst(pair: string, t: Thrown)
    ensures GetBitmartPrice(pair, Response(TooManyRequests, Unparsable(t))) == Failure(RateLimitMessage)
  {
  }

  /** A "Symbol Not Found" message in any letter case names the pair, whatever the status. */
  lemma SymbolNotFoundNamesPair(pair: string, status: nat, code: Option<int>, tickers: Option<seq<BitmartTicker>>)
    requires status != TooManyRequests
    requires !IsOk(status) || code != Some(SuccessCode)
    ensures GetBitmartPrice(pair, Response(status, Json(BitmartBody("Symbol Not Found", code, tickers))))
            == Failure(PairNotFoundMessage(pair))
  {
    assert Lower("Symbol Not Found") == "symbol not found";
    assert "symbol not found" <= "symbol not found";
  }

  /** A code other than 1000 is an error even under status 200. */
  lemma WrongCodeFails(pair: string, message: string, code: int, tickers: Option<seq<BitmartTicker>>)
    requires code != SuccessCode
    ensures GetBitmartPrice(pair, Response(200, Json(BitmartBody(message, Some(code), tickers)))).Failure?
  {
  }

  /** Missing or empty tickers under a good code are the "no ticker" error. */
  lemma NoTickers(pair: string, message: string, tickers: Option<seq<BitmartTicker>>)
    requires tickers.None? || tickers.value == []
    ensures GetBitmartPrice(pair, Response(200, Json(BitmartBody(message, Some(SuccessCode), tickers))))
            == Failure(NoTickerMessage(pair))
  {
  }

  /** A non-Error rejection of `fetch` becomes the connection error; an Error passes unchanged. */
  lemma CatchClause(pair: string, m: string)
    ensures GetBitmartPrice(pair, FetchFailed(NonError)) == Failure(ConnectionMessage)
    ensures GetBitmartPrice(pair, FetchFailed(Error(m))) == Failure(m)
  {
  }
}
