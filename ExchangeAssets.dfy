/**
 * The two asset-list lookups: `getExchangeAssetsFlow`, which sorts a fresh
 * copy of a static table entry, and `POST /api/get-exchange-assets`, whose
 * `.sort()` reorders the module-level table entry itself.
 */
module ExchangeAssets {
  import opened Wrappers
  import opened Http
  import opened StringOrder

  /** The exchanges the flow's input schema accepts. */
  datatype AssetExchange = Mexc | Bitmart | Gateio

  /** The flow's static table. */
  function AssetTable(e: AssetExchange): seq<string> {
    match e
    case Mexc => ["JASMY", "PEPE", "BTC", "ETH", "SOL", "DOGE", "SHIB", "MATIC", "AVAX", "LINK"]
    case Bitmart => ["JASMY", "PEPE", "BTC", "ETH", "SOL", "DOGE", "SHIB", "TRX", "LTC", "XRP"]
    case Gateio => ["JASMY", "PEPE", "BTC", "ETH", "SOL", "ADA", "DOT", "XLM", "BCH", "FIL"]
  }

  /** `getExchangeAssetsFlow`: the exchange's entry in ascending order. */
  function GetExchangeAssets(e: AssetExchange): (r: seq<string>)
    ensures Sorted(r)
    ensures multiset(r) == multiset(AssetTable(e))
  {
    SortSorted(AssetTable(e));
    Sort(AssetTable(e))
  }

  /** Any sorted rearrangement of the entry is the flow's answer: the output is determined by its contents. */
  lemma FlowAnswerIsUnique(e: AssetExchange, s: seq<string>)
    requires Sorted(s) && multiset(s) == multiset(AssetTable(e))
    ensures GetExchangeAssets(e) == s
  {
    SortedUnique(GetExchangeAssets(e), s);
  }

  /** The route's request body: `exchange` is "" when missing. */
  datatype AssetsRequest = AssetsRequest(exchange: string)

  datatype AssetsResponse = AssetList(assets: seq<string>) | ErrorResponse(status: nat, error: string)

  const InvalidExchangeMessage: string := "Exchange inválida."
  const ProcessingErrorMessage: string := "Erro ao processar requisição."

  function InitialTable(): map<string, seq<string>> {
    map[
      "MEXC" := ["JASMY", "PEPE", "BTC", "ETH", "SOL", "DOGE", "SHIB", "MATIC", "AVAX", "LINK"],
      "Bitmart" := ["JASMY", "PEPE", "BTC", "ETH", "SOL", "DOGE", "SHIB", "TRX", "LTC", "XRP"],
      "Gate.io" := ["JASMY", "PEPE", "BTC", "ETH", "SOL", "ADA", "DOT", "XLM", "BCH", "FIL"],
      "Poloniex" := ["JASMY", "PEPE", "BTC", "ETH", "SOL", "USDC", "TRX", "DOGE", "SHIB", "LTC"]
    ]
  }

  /** The route's module-level `simulatedAssetDb`, whose entries the route sorts in place. */
  class SimulatedAssetDb {
    var table: map<string, seq<string>>

    constructor()
      ensures table == InitialTable()
    {
      table := InitialTable();
    }

    /**
     * `POST(req)`: 500 for a body that cannot be parsed, 400 for a missing
     * or unknown exchange, otherwise the entry sorted ascending, which is
     * also what the table holds from then on.
     */
    method Post(request: Body<AssetsRequest>) returns (r: AssetsResponse)
      modifies this
      ensures request.Unparsable? ==> r == ErrorResponse(500, ProcessingErrorMessage) && table == old(table)
      ensures request.Json? && (request.value.exchange == "" || request.value.exchange !in old(table))
              ==> r == ErrorResponse(400, InvalidExchangeMessage) && table == old(table)
      ensures request.Json? && request.value.exchange != "" && request.value.exchange in old(table) ==>
                var ex := request.value.exchange;
                && r == AssetList(Sort(old(table)[ex]))
                && table == old(table)[ex := Sort(old(table)[ex])]
      ensures r.AssetList? ==> Sorted(r.assets)
      ensures r.AssetList? ==> multiset(r.assets) == multiset(old(table)[request.value.exchange])
    {
      if request.Unparsable? {
        return ErrorResponse(500, ProcessingErrorMessage);
      }
      var exchange := request.value.exchange;
      if exchange == "" || exchange !in table {
        return ErrorResponse(400, InvalidExchangeMessage);
      }
      var sorted := Sort(table[exchange]);
      SortSorted(table[exchange]);
      table := table[exchange := sorted];
      r := AssetList(sorted);
    }
  }

  /** The empty name is not a key, so a missing exchange is rejected like an unknown one. */
  lemma EmptyNameIsNotAKey()
    ensures "" !in InitialTable()
    ensures "Poloniex" in InitialTable()
  {
  }

  /**
   * Sorting in place makes the route stable: a second request for the same
   * exchange sees an already-sorted entry and answers the same list.
   */
  lemma RepeatedRequestsAgree(table: map<string, seq<string>>, ex: string)
    requires ex in table
    ensures var after := table[ex := Sort(table[ex])];
            Sort(after[ex]) == Sort(table[ex]) && after[ex := Sort(after[ex])] == after
  {
    SortIdempotent(table[ex]);
  }

  /** The route's entries for MEXC, Bitmart and Gate.io are the flow's table entries. */
  lemma RouteAgreesWithFlow(e: AssetExchange)
    ensures var name := match e case Mexc => "MEXC" case Bitmart => "Bitmart" case Gateio => "Gate.io";
            name in InitialTable() && InitialTable()[name] == AssetTable(e)
  {
  }
}
