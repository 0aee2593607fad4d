/**
 * The per-exchange asset documents (`getAssetsFlow`, `addAssetFlow`): a
 * store of documents keyed by exchange name, each with an `assets` field.
 * Store faults are parameters of the operations.
 */
module AssetCatalog {
  import opened Wrappers
  import opened Text

  /** The `assets` field of an exchange document: absent, a non-array value, or an array of symbols. */
  datatype AssetsField = Missing | Scalar(truthy: bool) | Arr(items: seq<string>)

  /** Why reading the assets fails: the store could not be read, or the value is not a list of strings. */
  datatype ReadError = StoreUnavailable | OutputRejected

  /** `list.some(a => a.toUpperCase() === asset.toUpperCase())`. */
  predicate Known(list: seq<string>, asset: string) {
    exists i :: 0 <= i < |list| && SameIgnoringCase(list[i], asset)
  }

  function FieldOf(docs: map<string, AssetsField>, exchange: string): AssetsField {
    if exchange in docs then docs[exchange] else Missing
  }

  /** The list `addAssetFlow` starts from: the stored array, or [] for anything that is not one. */
  function CurrentAssets(f: AssetsField): seq<string> {
    if f.Arr? then f.items else []
  }

  /**
   * The store after a successful `addAssetFlow`: unchanged when the symbol is
   * already listed in any letter case, otherwise the exchange's list with the
   * upper-cased symbol appended.
   */
  function AfterAdd(docs: map<string, AssetsField>, exchange: string, asset: string): map<string, AssetsField> {
    var current := CurrentAssets(FieldOf(docs, exchange));
    if Known(current, asset) then docs else docs[exchange := Arr(current + [Upper(asset)])]
  }

  class AssetStore {
    var docs: map<string, AssetsField>

    constructor(initial: map<string, AssetsField>)
      ensures docs == initial
    {
      docs := initial;
    }

    function Field(exchange: string): AssetsField
      reads this
    {
      FieldOf(docs, exchange)
    }

    /**
     * `getAssetsFlow`: the stored array when the field holds one, [] when
     * the document or field is missing or falsy; a truthy non-array fails
     * the flow's output schema, and a read fault propagates.
     */
    method GetAssets(exchange: string, readFails: bool) returns (r: Result<seq<string>, ReadError>)
      ensures readFails ==> r == Failure(StoreUnavailable)
      ensures !readFails && Field(exchange).Arr? ==> r == Success(Field(exchange).items)
      ensures !readFails && (Field(exchange).Missing? || Field(exchange) == Scalar(false)) ==> r == Success([])
      ensures !readFails && Field(exchange) == Scalar(true) ==> r == Failure(OutputRejected)
    {
      if readFails {
        return Failure(StoreUnavailable);
      }
      var field := Field(exchange);
      match field
      case Arr(items) => r := Success(items);
      case Scalar(truthy) => r := if truthy then Failure(OutputRejected) else Success([]);
      case Missing => r := Success([]);
    }

    /**
     * `addAssetFlow`: read the document, start from its array (or []),
     * and write the list back with the upper-cased symbol appended unless
     * it is already there. A fault in the read or the write is caught and
     * leaves the store as it was.
     */
    method AddAsset(exchange: string, asset: string, readFails: bool, writeFails: bool)
      modifies this
      ensures readFails || writeFails ==> docs == old(docs)
      ensures !readFails && !writeFails ==> docs == AfterAdd(old(docs), exchange, asset)
    {
      var assetUpperCase := Upper(asset);
      if readFails {
        return;
      }
      var currentAssets: seq<string> := [];
      var field := Field(exchange);
      if field.Arr? {
        currentAssets := field.items;
      }
      if !Known(currentAssets, asset) {
        var newAssets := currentAssets + [assetUpperCase];
        if writeFails {
          return;
        }
        docs := docs[exchange := Arr(newAssets)];
      }
    }
  }

  /** A new symbol is stored upper-cased at the end; the entries before it keep their order. */
  lemma AddAppendsUpper(docs: map<string, AssetsField>, exchange: string, asset: string)
    requires !Known(CurrentAssets(FieldOf(docs, exchange)), asset)
    ensures var after := CurrentAssets(FieldOf(AfterAdd(docs, exchange, asset), exchange));
            var before := CurrentAssets(FieldOf(docs, exchange));
            |after| == |before| + 1 && after[..|before|] == before && after[|before|] == Upper(asset)
  {
    var before := CurrentAssets(FieldOf(docs, exchange));
    var after := CurrentAssets(FieldOf(AfterAdd(docs, exchange, asset), exchange));
    assert after == before + [Upper(asset)];
  }

  /** A symbol already listed in any letter case changes nothing. */
  lemma KnownAssetIsNoOp(docs: map<string, AssetsField>, exchange: string, asset: string, i: nat)
    requires var list := CurrentAssets(FieldOf(docs, exchange));
             i < |list| && Upper(list[i]) == Upper(asset)
    ensures AfterAdd(docs, exchange, asset) == docs
  {
  }

  /** Afterwards the symbol is listed for that exchange. */
  lemma AddedAssetIsKnown(docs: map<string, AssetsField>, exchange: string, asset: string)
    ensures Known(CurrentAssets(FieldOf(AfterAdd(docs, exchange, asset), exchange)), asset)
  {
    var before := CurrentAssets(FieldOf(docs, exchange));
    if !Known(before, asset) {
      var after := before + [Upper(asset)];
      UpperIdempotent(asset);
      assert SameIgnoringCase(after[|before|], asset);
    }
  }

  /** Adding the same symbol again, in any letter case, leaves the store as the first addition left it. */
  lemma AddTwiceIsAddOnce(docs: map<string, AssetsField>, exchange: string, a: string, b: string)
    requires SameIgnoringCase(a, b)
    ensures AfterAdd(AfterAdd(docs, exchange, a), exchange, b) == AfterAdd(docs, exchange, a)
  {
    var once := AfterAdd(docs, exchange, a);
    AddedAssetIsKnown(docs, exchange, a);
    var list := CurrentAssets(FieldOf(once, exchange));
    var i :| 0 <= i < |list| && SameIgnoringCase(list[i], a);
    assert SameIgnoringCase(list[i], b);
  }

  /** Only the given exchange's document can change. */
  lemma OtherExchangesUntouched(docs: map<string, AssetsField>, exchange: string, asset: string, other: string)
    requires other != exchange
    ensures FieldOf(AfterAdd(docs, exchange, asset), other) == FieldOf(docs, other)
  {
  }

  /** A stored value that is not an array is replaced by a one-element list. */
  lemma NonArrayStartsOver(docs: map<string, AssetsField>, exchange: string, asset: string)
    requires FieldOf(docs, exchange).Scalar? || FieldOf(docs, exchange).Missing?
    ensures FieldOf(AfterAdd(docs, exchange, asset), exchange) == Arr([Upper(asset)])
  {
    assert !Known([], asset);
  }
}
