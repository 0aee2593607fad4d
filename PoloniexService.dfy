/** `getPoloniexPrice`: classify the Poloniex market-price response for one pair. */
module PoloniexService {
  import opened Wrappers
  import opened Text
  import opened Http

  /** The response object: an error carries `code` and `message`, a price carries `price`. */
  datatype PoloniexBody = PoloniexBody(code: Option<int>, message: Option<string>, symbol: string, price: NumberText)

  const SymbolNotFoundCode: int := 21105
  const ApiErrorPrefix: string := "Erro da API da Poloniex: "
  const UnknownErrorMessage: string := "Ocorreu um erro desconhecido ao buscar o preço da Poloniex."

  function PairNotFoundMessage(pair: string): string {
    ApiErrorPrefix + "O par '" + pair + "' não foi encontrado."
  }

  function UnexpectedMessage(pair: string): string {
    "Resposta inesperada da API da Poloniex para o par " + pair + "."
  }

  function ConnectionMessage(pair: string): string {
    "Não foi possível conectar à API da Poloniex para o par " + pair
      + ". Verifique a conexão do servidor ou se a API da exchange está online."
  }

  /**
   * The body of the `try` block. It returns the body exactly for an OK,
   * parsed reply that carries `price`; a rejected `fetch` or an unreadable
   * body is rethrown as it came, and every other failure is an `Error` it throws.
   */
  function Attempt(pair: string, reply: Reply<PoloniexBody>): (r: Result<PoloniexBody, Thrown>)
    ensures r.Success? <==> reply.Response? && IsOk(reply.status) && reply.body.Json? && reply.body.value.price.Text?
    ensures r.Success? ==> r.value == reply.body.value
    ensures reply.FetchFailed? ==> r == Failure(reply.thrown)
    ensures reply.Response? && reply.body.Unparsable? ==> r == Failure(reply.body.thrown)
    ensures reply.Response? && reply.body.Json? && r.Failure? ==> r.error.Error?
  {
    match reply
    case FetchFailed(t) => Failure(t)
    case Response(status, Unparsable(t)) => Failure(t)
    case Response(status, Json(data)) =>
      if !IsOk(status) then
        if data.message.Some? && data.code == Some(SymbolNotFoundCode) then Failure(Error(PairNotFoundMessage(pair)))
        else
          var detail := if data.message.Some? then data.message.value else "Status " + NatToString(status);
          Failure(Error(ApiErrorPrefix + detail))
      else if data.price.Absent? then Failure(Error(UnexpectedMessage(pair)))
      else Success(data)
  }

  /** The `catch` block: connection failures get a friendlier message. */
  function Rethrown(pair: string, t: Thrown): (m: string)
    ensures t.Error? && Contains(t.message, FetchFailedText) ==> m == ConnectionMessage(pair)
    ensures t.Error? && !Contains(t.message, FetchFailedText) ==> m == t.message
    ensures t.NonError? ==> m == UnknownErrorMessage
  {
    match t
    case Error(msg) => if Contains(msg, FetchFailedText) then ConnectionMessage(pair) else msg
    case NonError => UnknownErrorMessage
  }

  /**
   * `getPoloniexPrice(pair)`: the price object unchanged, or the message of
   * the error thrown. It succeeds exactly for an OK, parsed reply that
   * carries `price`.
   */
  function GetPoloniexPrice(pair: string, reply: Reply<PoloniexBody>): (r: Result<PoloniexBody, string>)
    ensures r.Success? <==> reply.Response? && IsOk(reply.status) && reply.body.Json? && reply.body.value.price.Text?
    ensures r.Success? ==> r.value == reply.body.value && r.value.price.Text?
  {
    match Attempt(pair, reply)
    case Success(d) => Success(d)
    case Failure(t) => Failure(Rethrown(pair, t))
  }

  /** Code 21105 with a message, under a failed status, is "pair not found". */
  lemma NotFoundWithMessage(pair: string, status: nat, m: string, price: NumberText)
    requires !IsOk(status)
    requires !Contains(PairNotFoundMessage(pair), FetchFailedText)
    ensures GetPoloniexPrice(pair, Response(status, Json(PoloniexBody(Some(SymbolNotFoundCode), Some(m), "", price))))
            == Failure(PairNotFoundMessage(pair))
  {
  }

  /** A failed status whose body carries a message, under any code but 21105, reports that message. */
  lemma OtherCodeReportsMessage(pair: string, status: nat, body: PoloniexBody, m: string)
    requires !IsOk(status) && body.message == Some(m) && body.code != Some(SymbolNotFoundCode)
    requires !Contains(ApiErrorPrefix + m, FetchFailedText)
    ensures GetPoloniexPrice(pair, Response(status, Json(body))) == Failure(ApiErrorPrefix + m)
  {
  }

  /** A failed status without a message reports the status code, whatever the code field says. */
  lemma FailedStatusReported(pair: string, status: nat, body: PoloniexBody)
    requires !IsOk(status) && body.message.None?
    ensures GetPoloniexPrice(pair, Response(status, Json(body)))
            == Failure(ApiErrorPrefix + "Status " + NatToString(status))
  {
    var m := ApiErrorPrefix + "Status " + NatToString(status);
    assert 'h' !in ApiErrorPrefix + "Status ";
    assert 'h' !in NatToString(status);
    CharAbsent(m, FetchFailedText, 4);
    assert ApiErrorPrefix + ("Status " + NatToString(status)) == m;
  }

  /** Code 21105 without a message falls through to the generic status error. */
  lemma NotFoundNeedsMessage(pair: string, status: nat, price: NumberText)
    requires !IsOk(status)
    ensures GetPoloniexPrice(pair, Response(status, Json(PoloniexBody(Some(SymbolNotFoundCode), None, "", price))))
            == Failure(ApiErrorPrefix + "Status " + NatToString(status))
  {
    FailedStatusReported(pair, status, PoloniexBody(Some(SymbolNotFoundCode), None, "", price));
  }

  /** An OK body without `price` is an unexpected response. */
  lemma PricelessIsUnexpected(pair: string, status: nat, body: PoloniexBody)
    requires IsOk(status) && body.price.Absent?
    requires !Contains(UnexpectedMessage(pair), FetchFailedText)
    ensures GetPoloniexPrice(pair, Response(status, Json(body))) == Failure(UnexpectedMessage(pair))
  {
  }

  /** A connection failure is reported with the pair. */
  lemma ConnectionFailureNamesPair(pair: string)
    ensures GetPoloniexPrice(pair, FetchFailed(Error(FetchFailedText))) == Failure(ConnectionMessage(pair))
  {
    assert FetchFailedText <= FetchFailedText;
  }

  /** A rejection that is not an `Error` is reported as a generic error. */
  lemma NonErrorIsUnknown(pair: string)
    ensures GetPoloniexPrice(pair, FetchFailed(NonError)) == Failure(UnknownErrorMessage)
  {
  }
}
