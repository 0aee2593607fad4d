/** `getGateioPrice`: classify the Gate.io ticker response for one pair. */
module GateioService {
  import opened Wrappers
  import opened Text
  import opened Http

  datatype GateioTicker = GateioTicker(currencyPair: string, last: NumberText)

  /** Gate.io answers with an array of tickers or with an error object (`errorLabel`, `message`). */
  datatype GateioBody = Tickers(items: seq<GateioTicker>) | ErrorObject(errorLabel: Option<string>, message: Option<string>)

  const InvalidPairLabel: string := "INVALID_CURRENCY_PAIR"
  const ApiErrorPrefix: string := "Erro da API da Gate.io: "
  const ConnectionMessage: string := "Não foi possível conectar à API da Gate.io. Verifique a conexão de rede."

  function InvalidPairMessage(pair: string): string {
    ApiErrorPrefix + "O par '" + pair + "' é inválido ou não foi encontrado."
  }

  function NoTickerMessage(pair: string): string {
    "Nenhum dado de ticker encontrado para o par " + pair + " na Gate.io."
  }

  /**
   * The body of the `try` block. It returns the first ticker exactly for an
   * OK, parsed reply that is a non-empty ticker array; a rejected `fetch` or
   * an unreadable body is rethrown as it came, and every other failure is an
   * `Error` it throws.
   */
  function Attempt(pair: string, reply: Reply<GateioBody>): (r: Result<GateioTicker, Thrown>)
    ensures r.Success? <==>
              && reply.Response? && IsOk(reply.status) && reply.body.Json?
              && reply.body.value.Tickers? && reply.body.value.items != []
    ensures r.Success? ==> r.value == reply.body.value.items[0]
    ensures reply.FetchFailed? ==> r == Failure(reply.thrown)
    ensures reply.Response? && reply.body.Unparsable? ==> r == Failure(reply.body.thrown)
    ensures reply.Response? && reply.body.Json? && r.Failure? ==> r.error.Error?
  {
    match reply
    case FetchFailed(t) => Failure(t)
    case Response(status, Unparsable(t)) => Failure(t)
    case Response(status, Json(data)) =>
      if data.ErrorObject? && data.errorLabel == Some(InvalidPairLabel) then Failure(Error(InvalidPairMessage(pair)))
      else if !IsOk(status) then
        var detail := if data.ErrorObject? && data.message.Some? then data.message.value else "Status " + NatToString(status);
        Failure(Error(ApiErrorPrefix + detail))
      else if !data.Tickers? || data.items == [] then Failure(Error(NoTickerMessage(pair)))
      else Success(data.items[0])
  }

  /**
   * `getGateioPrice(pair)`: Error instances pass through the `catch`;
   * anything else becomes a connection error. It succeeds exactly for an OK,
   * parsed reply that is a non-empty ticker array, with its first element.
   */
  function GetGateioPrice(pair: string, reply: Reply<GateioBody>): (r: Result<GateioTicker, string>)
    ensures r.Success? <==>
              && reply.Response? && IsOk(reply.status) && reply.body.Json?
              && reply.body.value.Tickers? && reply.body.value.items != []
    ensures r.Success? ==> reply.body.value.Tickers? && reply.body.value.items != []
                           && r.value == reply.body.value.items[0]
  {
    match Attempt(pair, reply)
    case Success(t) => Success(t)
    case Failure(Error(m)) => Failure(m)
    case Failure(NonError) => Failure(ConnectionMessage)
  }

  /** The invalid-pair errorLabel is checked before the status: it wins even under status 200 or 500. */
  lemma InvalidPairBeforeStatus(pair: string, status: nat, message: Option<string>)
    ensures GetGateioPrice(pair, Response(status, Json(ErrorObject(Some(InvalidPairLabel), message))))
            == Failure(InvalidPairMessage(pair))
  {
  }

  /** A failed status reports the `message` field when there is one, else the status. */
  lemma FailedStatusMessage(pair: string, status: nat, errorLabel: Option<string>, message: Option<string>)
    requires !IsOk(status) && errorLabel != Some(InvalidPairLabel)
    ensures GetGateioPrice(pair, Response(status, Json(ErrorObject(errorLabel, message))))
            == Failure(ApiErrorPrefix + (if message.Some? then message.value else "Status " + NatToString(status)))
  {
  }

  /** An empty array, or an object under an OK status, has no ticker. */
  lemma NoTicker(pair: string, errorLabel: Option<string>, message: Option<string>)
    requires errorLabel != Some(InvalidPairLabel)
    ensures GetGateioPrice(pair, Response(200, Json(Tickers([])))) == Failure(NoTickerMessage(pair))
    ensures GetGateioPrice(pair, Response(200, Json(ErrorObject(errorLabel, message)))) == Failure(NoTickerMessage(pair))
  {
  }
}
