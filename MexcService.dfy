/** `getMexcPrice`: classify the MEXC ticker-price response for one pair. */
module MexcService {
  import opened Wrappers
  import opened Text
  import opened Http

  /**
   * One JSON object of the response: an error object has `code` and
   * usually `msg`; a ticker has `price`.
   */
  datatype MexcObject = MexcObject(hasCode: bool, msg: Option<string>, symbol: string, price: NumberText)

  /** MEXC answers with a single object or with an array of tickers. */
  datatype MexcBody = Single(obj: MexcObject) | Many(items: seq<MexcObject>)

  const ApiErrorPrefix: string := "Erro da API da MEXC: "

  function UnexpectedMessage(pair: string): string {
    "Resposta inesperada da API da MEXC para o par " + pair + "."
  }

  function ConnectionMessage(pair: string): string {
    "Não foi possível conectar à API da MEXC para o par " + pair
      + ". Verifique a conexão do servidor ou se a API da exchange está online."
  }

  const UnknownErrorMessage: string := "Ocorreu um erro desconhecido ao buscar o preço da MEXC."

  /** The object `priceData` names: the single object, or the first element of the array. */
  function PriceData(body: MexcBody): (r: Option<MexcObject>)
    ensures body.Single? ==> r == Some(body.obj)
    ensures body.Many? ==> (r.None? <==> body.items == [])
    ensures body.Many? && body.items != [] ==> r == Some(body.items[0])
  {
    match body
    case Single(o) => Some(o)
    case Many(items) => if items == [] then None else Some(items[0])
  }

  /** A missing `msg` is rendered by the template literal as "undefined". */
  function MsgText(msg: Option<string>): string {
    if msg.Some? then msg.value else "undefined"
  }

  /**
   * The body of the `try` block: what it returns or throws. It returns the
   * price data exactly for an OK, parsed reply that is no error object and
   * whose price data has a `price`; a rejected `fetch` or an unreadable body
   * is rethrown as it came, and every other failure is an `Error` it throws.
   */
  function Attempt(pair: string, reply: Reply<MexcBody>): (r: Result<MexcObject, Thrown>)
    ensures r.Success? <==>
              && reply.Response? && IsOk(reply.status) && reply.body.Json?
              && !(reply.body.value.Single? && reply.body.value.obj.hasCode)
              && PriceData(reply.body.value).Some? && PriceData(reply.body.value).value.price.Text?
    ensures r.Success? ==> Some(r.value) == PriceData(reply.body.value)
    ensures reply.FetchFailed? ==> r == Failure(reply.thrown)
    ensures reply.Response? && reply.body.Unparsable? ==> r == Failure(reply.body.thrown)
    ensures reply.Response? && reply.body.Json? && r.Failure? ==> r.error.Error?
  {
    match reply
    case FetchFailed(t) => Failure(t)
    case Response(status, Unparsable(t)) => Failure(t)
    case Response(status, Json(body)) =>
      if body.Single? && body.obj.hasCode then Failure(Error(ApiErrorPrefix + MsgText(body.obj.msg)))
      else if !IsOk(status) then Failure(Error(ApiErrorPrefix + "Status " + NatToString(status)))
      else
        var priceData := PriceData(body);
        if priceData.None? || priceData.value.price.Absent? then Failure(Error(UnexpectedMessage(pair)))
        else Success(priceData.value)
  }

  /** The `catch` block: connection failures get a friendlier message. */
  function Rethrown(pair: string, t: Thrown): (m: string)
    ensures t.Error? && Contains(t.message, FetchFailedText) ==> m == ConnectionMessage(pair)
    ensures t.Error? && !Contains(t.message, FetchFailedText) ==> m == t.message
    ensures t.NonError? ==> m == UnknownErrorMessage
  {
    match t
    case Error(msg) => if Contains(msg, FetchFailedText) then ConnectionMessage(pair) else msg
    case NonError => UnknownErrorMessage
  }

  /**
   * `getMexcPrice(pair)`: the ticker, or the message of the error it throws.
   * It succeeds exactly for an OK, parsed reply that is no error object and
   * whose first ticker has a `price`, and then returns that ticker.
   */
  function GetMexcPrice(pair: string, reply: Reply<MexcBody>): (r: Result<MexcObject, string>)
    ensures r.Success? <==>
              && reply.Response? && IsOk(reply.status) && reply.body.Json?
              && !(reply.body.value.Single? && reply.body.value.obj.hasCode)
              && PriceData(reply.body.value).Some? && PriceData(reply.body.value).value.price.Text?
    ensures r.Success? ==> PriceData(reply.body.value) == Some(r.value) && r.value.price.Text?
    ensures r.Success? && reply.body.value.Single? ==> !r.value.hasCode
  {
    match Attempt(pair, reply)
    case Success(o) => Success(o)
    case Failure(t) => Failure(Rethrown(pair, t))
  }

  /** An error object wins over the status check, whatever the status. */
  lemma ErrorObjectBeforeStatus(pair: string, status: nat, o: MexcObject)
    requires o.hasCode && !Contains(ApiErrorPrefix + MsgText(o.msg), FetchFailedText)
    ensures GetMexcPrice(pair, Response(status, Json(Single(o)))) == Failure(ApiErrorPrefix + MsgText(o.msg))
  {
  }

  /** An error object without `msg` is reported as "undefined". */
  lemma MissingMsgIsUndefined(pair: string, status: nat, symbol: string, price: NumberText)
    ensures GetMexcPrice(pair, Response(status, Json(Single(MexcObject(true, None, symbol, price)))))
            == Failure(ApiErrorPrefix + "undefined")
  {
    assert 'h' !in ApiErrorPrefix + "undefined";
    CharAbsent(ApiErrorPrefix + "undefined", FetchFailedText, 4);
  }

  /** A failed status with no error object reports the status code. */
  lemma FailedStatusReported(pair: string, status: nat, body: MexcBody)
    requires !IsOk(status) && !(body.Single? && body.obj.hasCode)
    ensures GetMexcPrice(pair, Response(status, Json(body)))
            == Failure(ApiErrorPrefix + "Status " + NatToString(status))
  {
    var m := ApiErrorPrefix + "Status " + NatToString(status);
    assert 'h' !in ApiErrorPrefix + "Status ";
    assert 'h' !in NatToString(status);
    CharAbsent(m, FetchFailedText, 4);
    assert ApiErrorPrefix + ("Status " + NatToString(status)) == m;
  }

  /** Any OK array whose first ticker has a price is answered with that ticker. */
  lemma ArrayTickerReturned(pair: string, status: nat, items: seq<MexcObject>)
    requires IsOk(status) && items != [] && items[0].price.Text?
    ensures GetMexcPrice(pair, Response(status, Json(Many(items)))) == Success(items[0])
  {
  }

  /** An empty array, or a first element without `price`, is an unexpected response even with status 200. */
  lemma EmptyOrPricelessIsUnexpected(pair: string, items: seq<MexcObject>)
    requires items == [] || items[0].price.Absent?
    requires !Contains(UnexpectedMessage(pair), FetchFailedText)
    ensures GetMexcPrice(pair, Response(200, Json(Many(items)))) == Failure(UnexpectedMessage(pair))
  {
  }

  /**
   * A connection failure is reported with the pair; so is any API error whose
   * message mentions 'fetch failed', because the rewrite inspects every message.
   */
  lemma FetchFailedIsRewritten(pair: string, msg: string)
    ensures GetMexcPrice(pair, FetchFailed(Error(FetchFailedText))) == Failure(ConnectionMessage(pair))
    ensures GetMexcPrice(pair, FetchFailed(NonError)) == Failure(UnknownErrorMessage)
    ensures var o := MexcObject(true, Some(msg + FetchFailedText), "", Absent);
            GetMexcPrice(pair, Response(200, Json(Single(o)))) == Failure(ConnectionMessage(pair))
  {
    assert FetchFailedText <= FetchFailedText;
    var full := ApiErrorPrefix + msg + FetchFailedText;
    ContainsAt(full, FetchFailedText, |ApiErrorPrefix + msg|);
    assert ApiErrorPrefix + (msg + FetchFailedText) == full;
  }
}
