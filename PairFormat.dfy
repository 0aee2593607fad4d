/**
 * How the market-price route writes a trading pair: the asset upper-cased,
 * cut at its first '/' and trimmed, the counterpart ("USDT" by default)
 * upper-cased and trimmed, joined without a separator for MEXC and with '_'
 * for Bitmart, Gate.io and Poloniex.
 */
module PairFormat {
  import opened Wrappers
  import opened Text

  const DefaultCounterpart: string := "USDT"

  /**
   * `asset.toUpperCase().split('/')[0].trim()`: upper case, nothing from
   * the first '/' on, and no whitespace at either end.
   */
  function CleanAsset(asset: string): (r: string)
    ensures TrimOf(BeforeFirst(Upper(asset), '/'), r)
    ensures '/' !in r && NoLowercase(r)
    ensures Trimmed(r)
    ensures |r| <= |asset|
  {
    var up := Upper(asset);
    var cut := BeforeFirst(up, '/');
    UpperHasNoLowercase(asset);
    assert forall k :: 0 <= k < |cut| ==> cut[k] == up[k];
    TrimKeeps(cut);
    TrimCutsWhitespace(cut);
    Trim(cut)
  }

  /** `counterpart.toUpperCase().trim()`, with the destructuring default "USDT". */
  function CleanCounterpart(counterpart: Option<string>): (r: string)
    ensures TrimOf(Upper(counterpart.GetOr(DefaultCounterpart)), r)
    ensures NoLowercase(r)
    ensures Trimmed(r)
    ensures |r| <= |counterpart.GetOr(DefaultCounterpart)|
  {
    var up := Upper(counterpart.GetOr(DefaultCounterpart));
    UpperHasNoLowercase(counterpart.GetOr(DefaultCounterpart));
    TrimKeeps(up);
    TrimCutsWhitespace(up);
    Trim(up)
  }

  /** The four exchanges the market-price route serves. */
  datatype Venue = Mexc | Bitmart | Gateio | Poloniex

  /** MEXC writes a pair without a separator, the other exchanges with '_'. */
  function Pair(venue: Venue, asset: string, counterpart: string): (p: string)
    ensures venue == Mexc ==> |p| == |asset| + |counterpart|
    ensures venue != Mexc ==> |p| == |asset| + 1 + |counterpart| && p[|asset|] == '_'
    ensures asset <= p && p[|p| - |counterpart|..] == counterpart
  {
    if venue == Mexc then asset + counterpart else asset + "_" + counterpart
  }

  /** An asset without '_' is recovered from an underscore pair by cutting at the first '_'. */
  lemma UnderscorePairSplits(venue: Venue, asset: string, counterpart: string)
    requires venue != Mexc && '_' !in asset
    ensures BeforeFirst(Pair(venue, asset, counterpart), '_') == asset
  {
  }

  lemma UpperCutJasmy()
    ensures BeforeFirst(Upper("jasmy/usdt "), '/') == "JASMY"
  {
    var up := Upper("jasmy/usdt ");
    assert up[0] == 'J' && up[1] == 'A' && up[2] == 'S' && up[3] == 'M' && up[4] == 'Y' && up[5] == '/';
  }

  lemma TrimUnchanged(s: string)
    requires s != [] && !IsWhitespace(s[0]) && !IsWhitespace(s[|s| - 1])
    ensures Trim(s) == s
  {
  }

  /** With no counterpart in the request the pair is quoted against "USDT". */
  lemma DefaultCounterpartIsUsdt()
    ensures CleanCounterpart(None) == DefaultCounterpart
  {
    var u := Upper(DefaultCounterpart);
    assert u[0] == 'U' && u[1] == 'S' && u[2] == 'D' && u[3] == 'T';
    assert u == DefaultCounterpart;
    TrimUnchanged(DefaultCounterpart);
  }

  /** The asset "jasmy/usdt " is cleaned to "JASMY". */
  lemma JasmyAsset()
    ensures CleanAsset("jasmy/usdt ") == "JASMY"
  {
    UpperCutJasmy();
    TrimUnchanged("JASMY");
  }
}
