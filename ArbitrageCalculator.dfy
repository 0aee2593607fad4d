/**
 * The state the arbitrage calculator component changes step by step: the
 * two asset lists behind the asset pickers and the network-analysis result.
 * `addNewAssetToDB` and the network-analysis handler are methods on it;
 * the server flows they await are the asset store and an oracle for the
 * analysis prompt's output.
 */
module ArbitrageCalculator {
  import opened Wrappers
  import opened Text
  import opened StringOrder
  import opened AssetCatalog
  import opened NetworkAnalysis

  const SameExchangeReasoning: string := "As exchanges de origem e destino são as mesmas."

  /** Which picker's list `addNewAssetToDB` is given. */
  datatype ListSide = SideA | SideB

  /** The local list after `addNewAssetToDB` when the server call succeeds. */
  function WithNewAsset(list: seq<string>, asset: string): seq<string> {
    if asset != "" && !Known(list, asset) then Sort(list + [Upper(asset)]) else list
  }

  class Calculator {
    var exchangeA: string
    var exchangeB: string
    var assetA: string
    var assetsA: seq<string>
    var assetsB: seq<string>
    var networkAnalysisResult: Option<NetworkAnalysisOutput>

    /** The initial state: MEXC to Bitmart, asset JASMY, empty lists, no analysis. */
    constructor()
      ensures exchangeA == "MEXC" && exchangeB == "Bitmart" && assetA == "JASMY"
      ensures assetsA == [] && assetsB == [] && networkAnalysisResult == None
    {
      exchangeA := "MEXC";
      exchangeB := "Bitmart";
      assetA := "JASMY";
      assetsA := [];
      assetsB := [];
      networkAnalysisResult := None;
    }

    /**
     * `handleNetworkAnalysis`: clear the result; for equal exchanges set the
     * fixed incompatible answer without asking anything; otherwise run the
     * analysis flow and keep its output, or keep no result when it fails.
     */
    method HandleNetworkAnalysis(promptOutput: Option<NetworkAnalysisOutput>) returns (lookedUp: bool)
      modifies this
      ensures exchangeA == old(exchangeA) && exchangeB == old(exchangeB) && assetA == old(assetA)
      ensures assetsA == old(assetsA) && assetsB == old(assetsB)
      ensures exchangeA == exchangeB ==>
                !lookedUp && networkAnalysisResult == Some(NetworkAnalysisOutput(false, [], SameExchangeReasoning))
      ensures exchangeA != exchangeB ==> lookedUp
      ensures exchangeA != exchangeB ==>
                networkAnalysisResult == (match NetworkAnalysisFlow(promptOutput)
                                          case Success(o) => Some(o)
                                          case Failure(_) => None)
    {
      networkAnalysisResult := None;
      if exchangeA == exchangeB {
        networkAnalysisResult := Some(NetworkAnalysisOutput(false, [], SameExchangeReasoning));
        return false;
      }
      lookedUp := true;
      var result := NetworkAnalysisFlow(promptOutput);
      if result.Success? {
        networkAnalysisResult := Some(result.value);
      }
    }

    /**
     * `addNewAssetToDB(exchange, asset, list, setList)`: act only for a
     * non-empty asset the list does not hold in any letter case; await the
     * store's `addAssetFlow`; when that call comes back, replace the list by
     * the list with the upper-cased asset, sorted. A failed call leaves the
     * list and the store alone.
     */
    method AddNewAssetToDB(side: ListSide, exchange: string, asset: string, store: AssetStore,
                           storeReadFails: bool, storeWriteFails: bool, callFails: bool)
      modifies this, store
      ensures exchangeA == old(exchangeA) && exchangeB == old(exchangeB) && assetA == old(assetA)
      ensures networkAnalysisResult == old(networkAnalysisResult)
      ensures var acts := asset != "" && !Known(old(if side == SideA then assetsA else assetsB), asset);
              && (acts && !callFails ==>
                    store.docs == (if storeReadFails || storeWriteFails then old(store.docs)
                                   else AfterAdd(old(store.docs), exchange, asset)))
              && (!acts || callFails ==> store.docs == old(store.docs))
      ensures side == SideA ==> assetsB == old(assetsB)
      ensures side == SideA ==> assetsA == (if callFails then old(assetsA) else WithNewAsset(old(assetsA), asset))
      ensures side == SideB ==> assetsA == old(assetsA)
      ensures side == SideB ==> assetsB == (if callFails then old(assetsB) else WithNewAsset(old(assetsB), asset))
    {
      var assetList := if side == SideA then assetsA else assetsB;
      if asset != "" && !Known(assetList, asset) {
        if callFails {
          return;
        }
        store.AddAsset(exchange, asset, storeReadFails, storeWriteFails);
        var updated := Sort(assetList + [Upper(asset)]);
        if side == SideA {
          assetsA := updated;
        } else {
          assetsB := updated;
        }
      }
    }
  }

  /** After a successful call the list is sorted and holds exactly the old entries and the upper-cased asset. */
  lemma NewAssetListSorted(list: seq<string>, asset: string)
    requires asset != "" && !Known(list, asset)
    ensures Sorted(WithNewAsset(list, asset))
    ensures multiset(WithNewAsset(list, asset)) == multiset(list) + multiset{Upper(asset)}
    ensures Known(WithNewAsset(list, asset), asset)
  {
    SortSorted(list + [Upper(asset)]);
    var r := WithNewAsset(list, asset);
    assert Upper(asset) in multiset(r);
    var i :| 0 <= i < |r| && r[i] == Upper(asset);
    UpperIdempotent(asset);
    assert SameIgnoringCase(r[i], asset);
  }

  /** An empty asset, or one the list already holds in any letter case, changes nothing. */
  lemma KnownOrEmptyIsNoOp(list: seq<string>, asset: string, i: nat)
    requires asset == "" || (i < |list| && Upper(list[i]) == Upper(asset))
    ensures WithNewAsset(list, asset) == list
  {
  }

  /**
   * A new asset grows the list by one entry. The store's own faults do not
   * stop this: `addAssetFlow` swallows them, so the list can hold an asset
   * the store never received.
   */
  lemma NewAssetGrowsList(list: seq<string>, asset: string)
    requires asset != "" && !Known(list, asset)
    ensures |WithNewAsset(list, asset)| == |list| + 1
  {
    assert |multiset(WithNewAsset(list, asset))| == |multiset(list)| + 1;
  }
}
