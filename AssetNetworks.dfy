/**
 * The four exchange network services (`get<Exchange>AssetNetworks`): find
 * the asset in the exchange's currency list, case-insensitively, and list
 * the networks enabled for deposit and for withdrawal, in the exchange's
 * order. Every failure ends in the `catch` and gives two empty lists.
 */
module AssetNetworks {
  import opened Wrappers
  import opened Text
  import opened Http

  /** One network of an asset and its two switches. */
  datatype NetworkFlags = NetworkFlags(name: string, depositEnabled: bool, withdrawEnabled: bool)

  /** One currency entry: its symbol ("" when missing) and its network list, if any. */
  datatype AssetEntry = AssetEntry(symbol: string, networks: Option<seq<NetworkFlags>>)

  /** A parsed body: the array of currencies, or something else, on which `.find` throws. */
  datatype Listing = Entries(items: seq<AssetEntry>) | NotAList

  /** Bitmart wraps its array in a `currencies` field. */
  datatype BitmartCurrencies = BitmartCurrencies(currencies: Option<Listing>)

  datatype Side = Deposit | Withdrawal

  datatype Networks = Networks(depositNetworks: seq<string>, withdrawalNetworks: seq<string>)

  const NoNetworks: Networks := Networks([], [])

  predicate IsEnabled(n: NetworkFlags, side: Side) {
    if side == Deposit then n.depositEnabled else n.withdrawEnabled
  }

  /** `item.coin && item.coin.toUpperCase() === asset.toUpperCase()`. */
  predicate Matches(entry: AssetEntry, asset: string) {
    entry.symbol != "" && SameIgnoringCase(entry.symbol, asset)
  }

  /** `Array.prototype.find`: the position of the first entry that matches. */
  function FindAsset(items: seq<AssetEntry>, asset: string): (r: Option<nat>)
    ensures r.Some? ==> r.value < |items| && Matches(items[r.value], asset)
    ensures r.Some? ==> forall j :: 0 <= j < r.value ==> !Matches(items[j], asset)
    ensures r.None? ==> forall j :: 0 <= j < |items| ==> !Matches(items[j], asset)
  {
    if items == [] then None
    else if Matches(items[0], asset) then Some(0)
    else match FindAsset(items[1..], asset)
      case None => None
      case Some(k) => Some(k + 1)
  }

  /** `.filter(n => n.<side>Enable).map(n => n.<name>)`. */
  function Enabled(ns: seq<NetworkFlags>, side: Side): (r: seq<string>)
    ensures |r| <= |ns|
    ensures forall i :: 0 <= i < |ns| && IsEnabled(ns[i], side) ==> ns[i].name in r
    ensures forall x :: x in r ==> exists i :: 0 <= i < |ns| && IsEnabled(ns[i], side) && ns[i].name == x
  {
    if ns == [] then []
    else
      var rest := Enabled(ns[1..], side);
      assert forall i :: 1 <= i < |ns| ==> ns[i] == ns[1..][i - 1];
      if IsEnabled(ns[0], side) then [ns[0].name] + rest else rest
  }

  /** Filtering keeps the order: it distributes over concatenation. */
  lemma {:induction false} EnabledAppend(a: seq<NetworkFlags>, b: seq<NetworkFlags>, side: Side)
    ensures Enabled(a + b, side) == Enabled(a, side) + Enabled(b, side)
  {
    if a == [] {
      assert a + b == b;
    } else {
      assert (a + b)[1..] == a[1..] + b;
      EnabledAppend(a[1..], b, side);
    }
  }

  /** The first name listed is the first enabled network's. */
  lemma {:induction false} EnabledHead(ns: seq<NetworkFlags>, side: Side, k: nat)
    requires k < |ns| && IsEnabled(ns[k], side)
    requires forall j :: 0 <= j < k ==> !IsEnabled(ns[j], side)
    ensures Enabled(ns, side) != [] && Enabled(ns, side)[0] == ns[k].name
  {
    if k > 0 {
      EnabledHead(ns[1..], side, k - 1);
    }
  }

  /** `x` is the name of the first network of `ns` enabled for `side`. */
  predicate FirstEnabled(ns: seq<NetworkFlags>, side: Side, x: string) {
    exists k :: 0 <= k < |ns| && IsEnabled(ns[k], side) && ns[k].name == x
                && forall j :: 0 <= j < k ==> !IsEnabled(ns[j], side)
  }

  /** The head of a non-empty filtered list is the first enabled network's name. */
  lemma {:induction false} EnabledHeadIsFirst(ns: seq<NetworkFlags>, side: Side)
    requires Enabled(ns, side) != []
    ensures FirstEnabled(ns, side, Enabled(ns, side)[0])
  {
    if IsEnabled(ns[0], side) {
      assert IsEnabled(ns[0], side) && ns[0].name == Enabled(ns, side)[0];
    } else {
      var tail := ns[1..];
      EnabledHeadIsFirst(tail, side);
      var k :| 0 <= k < |tail| && IsEnabled(tail[k], side) && tail[k].name == Enabled(tail, side)[0]
                && forall j :: 0 <= j < k ==> !IsEnabled(tail[j], side);
      assert ns[k + 1] == tail[k];
      assert forall j :: 1 <= j < k + 1 ==> ns[j] == tail[j - 1];
    }
  }

  /** Nothing enabled, nothing listed. */
  lemma {:induction false} NoneEnabled(ns: seq<NetworkFlags>, side: Side)
    requires forall j :: 0 <= j < |ns| ==> !IsEnabled(ns[j], side)
    ensures Enabled(ns, side) == []
  {
    if ns != [] {
      NoneEnabled(ns[1..], side);
    }
  }

  /** The lists for an asset in a parsed currency array. */
  function FromListing(asset: string, listing: Listing): (r: Networks)
    ensures listing.NotAList? ==> r == NoNetworks
  {
    match listing
    case NotAList => NoNetworks
    case Entries(items) =>
      match FindAsset(items, asset)
      case None => NoNetworks
      case Some(k) =>
        match items[k].networks
        case None => NoNetworks
        case Some(ns) => Networks(Enabled(ns, Deposit), Enabled(ns, Withdrawal))
  }

  /**
   * `getMexcAssetNetworks`, `getGateioAssetNetworks` and
   * `getPoloniexAssetNetworks`: the same steps over differently named fields.
   */
  function GetAssetNetworks(asset: string, reply: Reply<Listing>): (r: Networks)
    ensures !(reply.Response? && IsOk(reply.status) && reply.body.Json?) ==> r == NoNetworks
  {
    if reply.Response? && IsOk(reply.status) && reply.body.Json? then FromListing(asset, reply.body.value)
    else NoNetworks
  }

  /** `getBitmartAssetNetworks`: the array sits under `currencies`. */
  function GetBitmartAssetNetworks(asset: string, reply: Reply<BitmartCurrencies>): (r: Networks)
    ensures !(reply.Response? && IsOk(reply.status) && reply.body.Json?) ==> r == NoNetworks
    ensures reply.Response? && reply.body.Json? && reply.body.value.currencies.None? ==> r == NoNetworks
  {
    if reply.Response? && IsOk(reply.status) && reply.body.Json? && reply.body.value.currencies.Some? then
      FromListing(asset, reply.body.value.currencies.value)
    else NoNetworks
  }

  /**
   * Every network listed belongs to the first currency entry whose symbol
   * matches the asset in any letter case, and is enabled for that side.
   */
  lemma ListedNetworksAreEnabled(asset: string, items: seq<AssetEntry>, side: Side, x: string)
    requires var r := FromListing(asset, Entries(items));
             x in (if side == Deposit then r.depositNetworks else r.withdrawalNetworks)
    ensures var k := FindAsset(items, asset);
            k.Some? && items[k.value].networks.Some?
            && exists i :: 0 <= i < |items[k.value].networks.value|
                 && IsEnabled(items[k.value].networks.value[i], side)
                 && items[k.value].networks.value[i].name == x
  {
  }

  /** The lookup ignores letter case: asking for "jasmy" or "JASMY" gives the same lists. */
  lemma CaseInsensitiveLookup(a: string, b: string, listing: Listing)
    requires SameIgnoringCase(a, b)
    ensures FromListing(a, listing) == FromListing(b, listing)
  {
    match listing
    case NotAList =>
    case Entries(items) =>
      MatchesAgree(items, a, b);
  }

  lemma {:induction false} MatchesAgree(items: seq<AssetEntry>, a: string, b: string)
    requires SameIgnoringCase(a, b)
    ensures FindAsset(items, a) == FindAsset(items, b)
  {
    if items != [] {
      MatchesAgree(items[1..], a, b);
    }
  }
}
