/**
 * The network-compatibility analysis: the simulated network table behind
 * the `getExchangeAssetNetworks` tool, the rule the analysis prompt states
 * (common networks are those present in both the source's withdrawal list
 * and the destination's deposit list), and the flow's missing-output check.
 */
module NetworkAnalysis {
  import opened Wrappers
  import AssetNetworks

  datatype NetworkAnalysisOutput = NetworkAnalysisOutput(isCompatible: bool, commonNetworks: seq<string>, reasoning: string)

  const MissingOutputMessage: string := "A análise de rede da IA não retornou um resultado válido."

  /** `networksDb[asset]?.[exchange] || []`: exact, case-sensitive keys. */
  function SupportedNetworks(asset: string, exchange: string): (r: seq<string>)
    ensures r != [] <==> (asset == "JASMY" || asset == "PEPE" || asset == "BTC")
                         && (exchange == "MEXC" || exchange == "Bitmart" || exchange == "Gate.io")
    ensures |r| <= 3
    ensures (asset == "JASMY" || asset == "PEPE") && r != [] ==> r[0] == "ERC20"
    ensures asset == "BTC" && r != [] ==> r[0] == "Bitcoin"
  {
    if asset == "JASMY" then
      if exchange == "MEXC" then ["ERC20", "BEP20"]
      else if exchange == "Bitmart" then ["ERC20"]
      else if exchange == "Gate.io" then ["ERC20", "Polygon"]
      else []
    else if asset == "PEPE" then
      if exchange == "MEXC" then ["ERC20", "Arbitrum"]
      else if exchange == "Bitmart" then ["ERC20"]
      else if exchange == "Gate.io" then ["ERC20", "Arbitrum", "Solana"]
      else []
    else if asset == "BTC" then
      if exchange == "MEXC" then ["Bitcoin", "Lightning", "BEP20"]
      else if exchange == "Bitmart" then ["Bitcoin", "BEP20", "ERC20"]
      else if exchange == "Gate.io" then ["Bitcoin", "Lightning", "BEP20"]
      else []
    else []
  }

  /** The tool's answer: the same list for deposit and for withdrawal. */
  function ExchangeAssetNetworks(exchange: string, asset: string): (r: AssetNetworks.Networks)
    ensures r.depositNetworks == r.withdrawalNetworks
  {
    var supported := SupportedNetworks(asset, exchange);
    AssetNetworks.Networks(supported, supported)
  }

  /** The withdrawal networks, in their order, that the deposit side also lists. */
  function Common(withdrawals: seq<string>, deposits: seq<string>): (r: seq<string>)
    ensures forall x :: x in r <==> x in withdrawals && x in deposits
    ensures |r| <= |withdrawals|
  {
    if withdrawals == [] then []
    else
      var rest := Common(withdrawals[1..], deposits);
      assert forall x :: x in withdrawals <==> x == withdrawals[0] || x in withdrawals[1..];
      if withdrawals[0] in deposits then [withdrawals[0]] + rest else rest
  }

  /** The rule the prompt asks for: compatible when some network is common. */
  function IntendedAnalysis(asset: string, sourceExchange: string, destinationExchange: string, reasoning: string)
    : (r: NetworkAnalysisOutput)
    ensures var w := ExchangeAssetNetworks(sourceExchange, asset).withdrawalNetworks;
            var d := ExchangeAssetNetworks(destinationExchange, asset).depositNetworks;
            && (forall x :: x in r.commonNetworks <==> x in w && x in d)
            && (r.isCompatible <==> exists x :: x in w && x in d)
  {
    var w := ExchangeAssetNetworks(sourceExchange, asset).withdrawalNetworks;
    var d := ExchangeAssetNetworks(destinationExchange, asset).depositNetworks;
    var common := Common(w, d);
    assert common != [] ==> common[0] in common;
    NetworkAnalysisOutput(common != [], common, reasoning)
  }

  /** The flow returns the prompt's output, and fails when there is none. */
  function NetworkAnalysisFlow(output: Option<NetworkAnalysisOutput>): (r: Result<NetworkAnalysisOutput, string>)
    ensures output.Some? ==> r == Success(output.value)
    ensures output.None? ==> r == Failure(MissingOutputMessage)
  {
    match output
    case Some(o) => Success(o)
    case None => Failure(MissingOutputMessage)
  }

  /** JASMY from MEXC to Bitmart travels over ERC20 only. */
  lemma JasmyMexcToBitmart(reasoning: string)
    ensures IntendedAnalysis("JASMY", "MEXC", "Bitmart", reasoning).commonNetworks == ["ERC20"]
    ensures IntendedAnalysis("JASMY", "MEXC", "Bitmart", reasoning).isCompatible
  {
    assert SupportedNetworks("JASMY", "MEXC") == ["ERC20", "BEP20"];
    assert SupportedNetworks("JASMY", "Bitmart") == ["ERC20"];
    assert Common(["BEP20"], ["ERC20"]) == [];
  }

  /** Keys are case-sensitive: a lower-case asset has no networks anywhere. */
  lemma LookupIsCaseSensitive(exchange: string)
    ensures SupportedNetworks("jasmy", exchange) == []
    ensures SupportedNetworks("JASMY", "mexc") == []
  {
  }

  /** An unknown asset or exchange on either side is never compatible. */
  lemma UnknownSideIsIncompatible(asset: string, source: string, destination: string, reasoning: string)
    requires SupportedNetworks(asset, source) == [] || SupportedNetworks(asset, destination) == []
    ensures !IntendedAnalysis(asset, source, destination, reasoning).isCompatible
    ensures IntendedAnalysis(asset, source, destination, reasoning).commonNetworks == []
  {
  }

  /**
   * Compatibility does not depend on the direction: since each exchange's
   * deposit and withdrawal lists coincide, B→A is compatible exactly when A→B is.
   */
  lemma CompatibilityIsSymmetric(asset: string, a: string, b: string, reasoning: string)
    ensures IntendedAnalysis(asset, a, b, reasoning).isCompatible == IntendedAnalysis(asset, b, a, reasoning).isCompatible
  {
  }
}
