/**
 * `getMainNetwork`: the first network enabled for withdrawal, else the first
 * enabled for deposit, else "". Each exchange's currency-list reply is a
 * parameter.
 */
module MainNetwork {
  import opened Wrappers
  import opened Http
  import opened AssetNetworks

  datatype NetworkReplies = NetworkReplies(
    mexc: Reply<Listing>, bitmart: Reply<BitmartCurrencies>, gateio: Reply<Listing>, poloniex: Reply<Listing>)

  /** The parsed body of an OK reply. */
  function Parsed<T>(reply: Reply<T>): (r: Option<T>)
    ensures r.Some? <==> reply.Response? && IsOk(reply.status) && reply.body.Json?
    ensures r.Some? ==> r.value == reply.body.value
  {
    if reply.Response? && IsOk(reply.status) && reply.body.Json? then Some(reply.body.value) else None
  }

  /**
   * The currency array the exchange answered with: the OK JSON body for
   * MEXC, Gate.io and Poloniex, its `currencies` field for Bitmart.
   */
  function ListingOn(exchange: string, replies: NetworkReplies): (r: Option<Listing>)
    ensures r.Some? ==> exchange in {"MEXC", "Bitmart", "Gate.io", "Poloniex"}
  {
    if exchange == "MEXC" then Parsed(replies.mexc)
    else if exchange == "Bitmart" then
      match Parsed(replies.bitmart)
      case Some(b) => b.currencies
      case None => None
    else if exchange == "Gate.io" then Parsed(replies.gateio)
    else if exchange == "Poloniex" then Parsed(replies.poloniex)
    else None
  }

  /** The network list of the first entry that matches the asset, when the exchange gave one. */
  function EntryNetworks(exchange: string, asset: string, replies: NetworkReplies): Option<seq<NetworkFlags>> {
    match ListingOn(exchange, replies)
    case Some(Entries(items)) =>
      (match FindAsset(items, asset)
       case Some(k) => items[k].networks
       case None => None)
    case _ => None
  }

  /** The lists the exchange's service returns: the entry's enabled networks, else two empty lists. */
  function NetworksOn(exchange: string, asset: string, replies: NetworkReplies): (r: Networks)
    ensures EntryNetworks(exchange, asset, replies).None? ==> r == NoNetworks
    ensures EntryNetworks(exchange, asset, replies).Some? ==>
              var ns := EntryNetworks(exchange, asset, replies).value;
              r == Networks(Enabled(ns, Deposit), Enabled(ns, Withdrawal))
  {
    if exchange == "MEXC" then GetAssetNetworks(asset, replies.mexc)
    else if exchange == "Bitmart" then GetBitmartAssetNetworks(asset, replies.bitmart)
    else if exchange == "Gate.io" then GetAssetNetworks(asset, replies.gateio)
    else if exchange == "Poloniex" then GetAssetNetworks(asset, replies.poloniex)
    else NoNetworks
  }

  /** The choice rule on the two lists. */
  function Choose(n: Networks): (r: string)
    ensures n.withdrawalNetworks != [] ==> r == n.withdrawalNetworks[0]
    ensures n.withdrawalNetworks == [] && n.depositNetworks != [] ==> r == n.depositNetworks[0]
    ensures n.withdrawalNetworks == [] && n.depositNetworks == [] ==> r == ""
  {
    if |n.withdrawalNetworks| > 0 then n.withdrawalNetworks[0]
    else if |n.depositNetworks| > 0 then n.depositNetworks[0]
    else ""
  }

  /**
   * The main network read straight off the entry's switches: the first
   * network that can be withdrawn to; failing any, the first that accepts
   * deposits; failing both, "".
   */
  predicate MainOf(ns: seq<NetworkFlags>, x: string) {
    if exists i :: 0 <= i < |ns| && ns[i].withdrawEnabled then FirstEnabled(ns, Withdrawal, x)
    else if exists i :: 0 <= i < |ns| && ns[i].depositEnabled then FirstEnabled(ns, Deposit, x)
    else x == ""
  }

  /** `getMainNetwork(exchange, asset)`. */
  function GetMainNetwork(exchange: string, asset: string, replies: NetworkReplies): (r: string)
    ensures EntryNetworks(exchange, asset, replies).None? ==> r == ""
    ensures EntryNetworks(exchange, asset, replies).Some? ==> MainOf(EntryNetworks(exchange, asset, replies).value, r)
  {
    var n := NetworksOn(exchange, asset, replies);
    var e := EntryNetworks(exchange, asset, replies);
    if e.Some? && n.withdrawalNetworks != [] then
      EnabledHeadIsFirst(e.value, Withdrawal);
      Choose(n)
    else if e.Some? && n.depositNetworks != [] then
      EnabledHeadIsFirst(e.value, Deposit);
      Choose(n)
    else
      Choose(n)
  }

  /** An exchange the function does not know has no main network. */
  lemma UnknownExchangeHasNone(exchange: string, asset: string, replies: NetworkReplies)
    requires exchange !in {"MEXC", "Bitmart", "Gate.io", "Poloniex"}
    ensures GetMainNetwork(exchange, asset, replies) == ""
  {
  }

  /** A failed request has no main network. */
  lemma FailedRequestHasNone(asset: string, replies: NetworkReplies, t: Thrown)
    requires replies.gateio == FetchFailed(t)
    ensures GetMainNetwork("Gate.io", asset, replies) == ""
  {
  }

  /**
   * On MEXC, when the first entry for the asset has a network enabled for
   * withdrawal, the main network is the first such network in the list,
   * whatever the deposit switches say.
   */
  lemma FirstWithdrawableWins(asset: string, replies: NetworkReplies, items: seq<AssetEntry>, k: nat)
    requires replies.mexc == Response(200, Json(Entries(items)))
    requires var f := FindAsset(items, asset);
             f.Some? && items[f.value].networks.Some?
             && var ns := items[f.value].networks.value;
                k < |ns| && ns[k].withdrawEnabled && forall j :: 0 <= j < k ==> !ns[j].withdrawEnabled
    ensures GetMainNetwork("MEXC", asset, replies) == items[FindAsset(items, asset).value].networks.value[k].name
  {
    var ns := items[FindAsset(items, asset).value].networks.value;
    EnabledHead(ns, Withdrawal, k);
  }

  /**
   * When no network of the entry can be withdrawn to, the main network is
   * the first one enabled for deposit.
   */
  lemma DepositFallback(asset: string, replies: NetworkReplies, items: seq<AssetEntry>, k: nat)
    requires replies.mexc == Response(200, Json(Entries(items)))
    requires var f := FindAsset(items, asset);
             f.Some? && items[f.value].networks.Some?
             && var ns := items[f.value].networks.value;
                (forall j :: 0 <= j < |ns| ==> !ns[j].withdrawEnabled)
                && k < |ns| && ns[k].depositEnabled && forall j :: 0 <= j < k ==> !ns[j].depositEnabled
    ensures GetMainNetwork("MEXC", asset, replies) == items[FindAsset(items, asset).value].networks.value[k].name
  {
    var ns := items[FindAsset(items, asset).value].networks.value;
    NoneEnabled(ns, Withdrawal);
    EnabledHead(ns, Deposit, k);
  }
}
