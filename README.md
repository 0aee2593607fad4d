# Cross-exchange arbitrage calculator — decision logic in Dafny

This project models the decision logic of a cross-exchange crypto-arbitrage
calculator (a Next.js/React application written in TypeScript), without its
UI, HTTP, LLM and Firestore shell. It covers:

- **Profit and spread arithmetic.** The A→B triangulation of the
  arbitrage calculator (`Triangulation`), the XPR→VAULTA swap calculator and
  its reset handlers (`SpreadCalculator`), the parity helper (`Parity`), and
  the token-decimal scaling of the swap-quote widget (`SwapQuote`). All of it
  uses exact `real` arithmetic; a field that `parseFloat`/`Number` reads as
  NaN is `None`.
- **Pair formatting and price checks.** Symbol cleaning and the
  per-exchange pair formats (`PairFormat`); the market-price route
  (`MarketPriceRoute`) and the market-price flow (`MarketPriceFlow`).
- **Exchange response classification.**
  - The four price services (`MexcService`, `BitmartService`,
    `GateioService`, `PoloniexService`) turn a status and a body shape into a
    ticker or the exact error message thrown.
  - The four network services (`AssetNetworks`) find an asset
    case-insensitively and list its enabled networks.
  - `getMainNetwork` (`MainNetwork`) picks one network.
- **Asset catalog.**
  - The store of per-exchange asset documents is a class holding a map
    (`AssetCatalog.AssetStore`).
  - The two sorted asset lookups are in `ExchangeAssets`. The API route's
    in-place sort of its module-level table is a class method there.
  - The calculator component's asset lists and network-analysis result are
    the fields of `ArbitrageCalculator.Calculator`.
- **Network compatibility.** The simulated network table and the
  intersection rule the analysis prompt states (`NetworkAnalysis`).
- **Bounded retry.** The 503-only retry loop of the investment analysis
  (`InvestmentAnalysis`). It is a method with a `while` loop proved equal to
  a recursive specification; its fallback `throw` is proved unreachable.

Shared modules:

- `Wrappers`: `Option` and `Result`.
- `Http`: what a `fetch` gives back. It is a rejected promise, or a status
  and a body that `response.json()` either fails to parse or gives as JSON of
  a per-service shape.
- `Text`: the JavaScript string operations used. These are ASCII
  `toUpperCase`/`toLowerCase`, `trim` with the ECMAScript whitespace set,
  `includes`, and `split(sep)[0]`.
- `StringOrder`: the default `Array.prototype.sort`, i.e. lexicographic
  order on characters. It is an insertion sort, proved to give a sorted
  permutation, and the sorted permutation is proved unique.
- `RealFacts`: field identities used by the arithmetic proofs.

I/O becomes parameters:

- every HTTP reply is a parameter, or a function from the pair asked for to
  the reply;
- the LLM prompt's output is a parameter, or an oracle indexed by attempt;
- store faults are booleans.

In two places the code computes something other than what a reader might
expect; the model follows the code:

- **Triangulation.** The net USDT of the A→B triangulation is
  `capital · (1−feeA) · (1−feeB) · (pB/pA)²`, proved in
  `FinalInClosedForm`. The conversion divides by the factor `pA/pB`, and
  `pB` is applied again through the sale. A plain two-leg formula
  `capital/pA · (1−feeA) · pB · (1−feeB)` is not what the code computes.
- **Network-analysis failures.** A failed network analysis leaves the
  calculator without a result. It is not turned into an "incompatible"
  answer.

## Model

| member | source | states |
|---|---|---|
| Triangulation.Diagnose | src/components/arbitrage-calculator.tsx:180-183 | 'positive' iff spread > 0.0001, 'negative' iff spread < −0.0001, 'neutral' iff within the band; exactly one holds |
| Triangulation.TriResults | src/components/arbitrage-calculator.tsx:160-169 | a result exists iff both prices are numbers > 0 and the capital is a number |
| Triangulation.RejectedInputs | src/components/arbitrage-calculator.tsx:167-169 | a NaN or non-positive price, or a NaN capital, gives no result; with valid prices any numeric capital, negative included, is computed |
| Triangulation.FinalInClosedForm | src/components/arbitrage-calculator.tsx:164-177 | with fees divided by 100, final net USDT = capital·(1−feeA)·(1−feeB)·(pB/pA)² |
| Triangulation.SpreadMeaning | src/components/arbitrage-calculator.tsx:178 | spread = (final − capital)/capital·100 for a positive capital; exactly 0 and 'neutral' otherwise |
| Triangulation.DiagnosisAgainstCapital | src/components/arbitrage-calculator.tsx:178-183 | 'positive' iff final > (1+0.0001/100)·capital, 'negative' iff final < (1−0.0001/100)·capital; positive implies a gain, negative a loss |
| Triangulation.NoFeesEqualPricesIsNeutral | src/components/arbitrage-calculator.tsx:171-183 | with no fees and pA = pB the final USDT equals the capital and the diagnosis is 'neutral' |
| Triangulation.ParityFigures | src/components/arbitrage-calculator.tsx:185-187 | factor = pA/pB, break-even B price = pB, A equivalent = pB·(pB/pA), relative delta = ((pB/pA)² − 1)·100 |
| Triangulation.EqualPricesAtParity | src/components/arbitrage-calculator.tsx:171-187 | equal prices give factor 1 and zero delta |
| ArbitrageCalculator.Calculator.constructor | src/components/arbitrage-calculator.tsx:110-118 | initial state: MEXC to Bitmart, asset JASMY, empty asset lists, no analysis result |
| ArbitrageCalculator.Calculator.HandleNetworkAnalysis | src/components/arbitrage-calculator.tsx:232-260 | equal exchanges: the fixed incompatible answer with no common network and no lookup; otherwise the flow's output, or no result when the flow fails; nothing else changes |
| ArbitrageCalculator.Calculator.AddNewAssetToDB | src/components/arbitrage-calculator.tsx:295-310 | acts only for a non-empty asset absent from the list in every letter case; on success that side's list becomes the sorted list plus the upper-cased asset and the store gets `addAssetFlow`'s effect; a failed call changes nothing; the other list never changes |
| ArbitrageCalculator.NewAssetListSorted | src/components/arbitrage-calculator.tsx:300 | the new list is sorted, is a permutation of the old list plus the upper-cased asset, and holds the asset |
| ArbitrageCalculator.KnownOrEmptyIsNoOp | src/components/arbitrage-calculator.tsx:296 | an empty asset, or one listed in another letter case, leaves the list unchanged |
| ArbitrageCalculator.NewAssetGrowsList | src/components/arbitrage-calculator.tsx:296-300 | a new asset grows the list by exactly one entry |
| SpreadCalculator.InitialOrDefault | src/components/spread-calculator.tsx:88 | NaN or 0 capital falls back to 100; any other number is kept |
| SpreadCalculator.Classify | src/components/spread-calculator.tsx:109-112 | 'Viável' iff spread > 0.10, 'Não viável' iff < −0.10, 'Neutro' iff within the band |
| SpreadCalculator.Calculate | src/components/spread-calculator.tsx:92-94 | 'Aguardando' with no figures iff some price or the factor is NaN or ≤ 0 |
| SpreadCalculator.XprAvailableForSwap | src/components/spread-calculator.tsx:96-102 | XPR for the swap = (capital/pXpr)·(1−buyFee) − 200; when negative: 'Não viável', spread −100, final 0 |
| SpreadCalculator.SwapOutcome | src/components/spread-calculator.tsx:104-112 | final USDT = liquid XPR·factor·pVaulta·(1−sellFee); spread = relative gain ·100; verdict by the ±0.10 band |
| SpreadCalculator.ViableMeansProfit | src/components/spread-calculator.tsx:100-112 | for a positive capital, 'Viável' iff enough XPR and final > (1+0.10/100)·capital, hence a profit |
| SpreadCalculator.Reset | src/components/spread-calculator.tsx:49-54 | factor 0.0133, capital 100, both fees 0; prices untouched |
| SpreadCalculator.ZeroFees | src/components/spread-calculator.tsx:56-59 | only the two fees change, to 0 |
| SpreadCalculator.ResetThenCalculate | src/components/spread-calculator.tsx:49-102 | after a reset with both prices set, figures exist on 100 USDT with no fee, and XPR runs short iff its price exceeds 0.5 |
| SpreadCalculator.ResetIdempotent | src/components/spread-calculator.tsx:49-59 | resetting twice is resetting once; zeroing fees after a reset changes nothing |
| Parity.CalculateParity | src/ai/flows/live-parity-comparison.ts:22-30 | equivalent = vaulta price × factor; delta = (equivalent/xprPrice − 1)·100 |
| Parity.DeltaSign | src/ai/flows/live-parity-comparison.ts:24 | for a positive XPR price the delta is 0, > 0 or < 0 exactly when the equivalent equals, exceeds or falls below it |
| Parity.DeltaRoundTrip | src/ai/flows/live-parity-comparison.ts:23-24 | xprPrice·(1 + delta/100) recovers the equivalent price |
| SwapQuote.DecimalsTable | src/components/DefillamaSwapQuote.tsx:12-19 | USDT and USDC have 6 decimals, WBTC 8, DAI, WETH and ETH 18, at every table row |
| SwapQuote.RoundHalfAway | src/components/DefillamaSwapQuote.tsx:42 | `toFixed(0)`: within 0.5 of the input, halves away from zero |
| SwapQuote.RoundWhole | src/components/DefillamaSwapQuote.tsx:42 | a whole number rounds to itself |
| SwapQuote.RawAmount | src/components/DefillamaSwapQuote.tsx:40-42 | the raw amount is within half a unit of amount·10^decimals |
| SwapQuote.BuildRequest | src/components/DefillamaSwapQuote.tsx:35-42 | destination chain = source chain; token addresses from the table; a raw amount iff the amount is a number, scaled by the source token's decimals |
| SwapQuote.FromRaw | src/components/DefillamaSwapQuote.tsx:76 | the shown amount times 10^decimals is the raw amount |
| SwapQuote.Received | src/components/DefillamaSwapQuote.tsx:76 | "-" iff `toAmount` is missing; otherwise a value that, scaled by the destination token's decimals, is `toAmount` |
| SwapQuote.EstimatedPrice | src/components/DefillamaSwapQuote.tsx:77 | "-" iff an amount is missing; not finite iff `toAmount` is 0; otherwise price·toAmount = fromAmount, raw units, no decimal adjustment |
| SwapQuote.ScalingRoundTrip | src/components/DefillamaSwapQuote.tsx:42-76 | scaling up for the request and down for display errs by at most half a raw unit |
| SwapQuote.KnownScalings | src/components/DefillamaSwapQuote.tsx:40-42 | 1 USDT is sent as 10^6 raw units, 1 WBTC as 10^8 |
| PairFormat.Pair | src/app/api/get-market-price/route.ts:18-36 | MEXC pairs are asset+counterpart; the other exchanges put '_' between them; the pair starts with the asset and ends with the counterpart |
| PairFormat.CleanAsset | src/app/api/get-market-price/route.ts:13 | the cleaned asset is the upper-cased text before the first '/' with only whitespace cut from either end, and none left at either end; it has no '/' and no lower-case letter, and is no longer than the input |
| PairFormat.CleanCounterpart | src/app/api/get-market-price/route.ts:9-14 | the cleaned counterpart is the upper-cased counterpart ("USDT" when absent) with only whitespace cut from either end, and none left at either end; it has no lower-case letter and is no longer than the input |
| PairFormat.UnderscorePairSplits | src/app/api/get-market-price/route.ts:24-36 | an asset without '_' is what precedes the first '_' of its underscore pair |
| PairFormat.DefaultCounterpartIsUsdt | src/app/api/get-market-price/route.ts:9-14 | no counterpart means "USDT" |
| PairFormat.JasmyAsset | src/app/api/get-market-price/route.ts:13 | "jasmy/usdt " is cleaned to "JASMY" |
| MarketPriceRoute.VenueOf | src/app/api/get-market-price/route.ts:16-43 | the `switch` selects an exchange iff the name is MEXC, Bitmart, Gate.io or Poloniex, and the exchange selected carries that name |
| MarketPriceRoute.VenueOfName | src/app/api/get-market-price/route.ts:17-40 | each exchange's own name selects it |
| MarketPriceRoute.Quote | src/app/api/get-market-price/route.ts:16-40 | for each of the four exchanges, a service success gives `parseFloat` of its field (`price`, `last_price`, `last`, `price`) and a service failure passes its message through |
| MarketPriceRoute.MexcTickerQuoted | src/app/api/get-market-price/route.ts:17-21 | an OK MEXC ticker array quotes the price of its first ticker |
| MarketPriceRoute.PoloniexPriceQuoted | src/app/api/get-market-price/route.ts:35-39 | an OK Poloniex body quotes its own price |
| MarketPriceRoute.QuoteAnswered | src/app/api/get-market-price/route.ts:9-47 | a request naming a supported exchange and an asset is answered with the verdict on that exchange's quote for its pair |
| MarketPriceRoute.Verdict | src/app/api/get-market-price/route.ts:44-50 | a service failure is a 500 with its message; a missing, NaN, zero or negative price is a 500 naming the exchange; a positive price is answered unchanged |
| MarketPriceRoute.Post | src/app/api/get-market-price/route.ts:7-51 | a price answer is > 0 and comes from a supported exchange and a non-empty asset; errors are 400 or 500; missing fields give 400 with the required-fields message; an unknown exchange gives 400 naming it; a supported exchange's answer is the verdict on its quote for the pair in that exchange's format |
| MarketPriceRoute.MexcPriceFlowsThrough | src/app/api/get-market-price/route.ts:17-21 | an OK MEXC ticker array for "<ASSET><COUNTERPART>" whose first price is positive is answered with that price |
| MarketPriceRoute.PoloniexPriceFlowsThrough | src/app/api/get-market-price/route.ts:35-39 | an OK Poloniex body for "<ASSET>_<COUNTERPART>" with a positive price is answered with that price |
| MarketPriceRoute.PositiveQuoteAnswered | src/app/api/get-market-price/route.ts:16-47 | a positive quote for the request's pair is the answer |
| MarketPriceRoute.BitmartErrorIs500 | src/app/api/get-market-price/route.ts:48-50 | a service error reaches the client as a 500 with its own message |
| MarketPriceRoute.GateioBadPriceIs500 | src/app/api/get-market-price/route.ts:44-46 | a missing, NaN or non-positive price is a 500 naming the exchange |
| MarketPriceRoute.UnparsableRequest | src/app/api/get-market-price/route.ts:48-50 | an unparsable body is a 500 with the parser's message, or the generic one |
| MarketPriceFlow.GetBinancePrice | src/services/binance-service.ts:16-39 | succeeds iff the status is OK and the body parses; every failure is the one connection message |
| MarketPriceFlow.GetMarketPrice | src/ai/flows/get-market-price.ts:34-61 | a result is always a positive Binance price; MEXC, Bitmart and Gate.io fail as not implemented |
| MarketPriceFlow.BinancePriceFlowsThrough | src/ai/flows/get-market-price.ts:42-60 | a positive Binance price for the pair is returned unchanged |
| MarketPriceFlow.BinanceFailuresLookAlike | src/services/binance-service.ts:33-37 | every Binance failure reaches the caller as the connection message |
| MarketPriceFlow.BadBinancePrice | src/ai/flows/get-market-price.ts:56-58 | a missing, NaN or non-positive price fails as invalid |
| MarketPriceFlow.BinancePair | src/ai/flows/get-market-price.ts:43 | the pair is the upper-cased asset followed by the upper-cased counterpart ("USDT" by default), with no lower-case letter |
| MexcService.PriceData | src/services/mexc-service.ts:42 | the single object, or the first array element; none for an empty array |
| MexcService.Rethrown | src/services/mexc-service.ts:50-61 | a message containing 'fetch failed' becomes the connection message; other Errors pass unchanged; non-Errors become the generic message |
| MexcService.Attempt | src/services/mexc-service.ts:26-48 | success iff an OK parsed reply is no error object and its price data has `price`, returning that data; fetch and parse failures are thrown unchanged; every other failure is an Error |
| MexcService.GetMexcPrice | src/services/mexc-service.ts:23-63 | success iff the reply is OK, parsed, not an error object, and its price data has `price`, returning the price data unchanged; a single object returned carries no `code` |
| MexcService.ErrorObjectBeforeStatus | src/services/mexc-service.ts:33-39 | an error object with `code` fails with its `msg`, whatever the status |
| MexcService.MissingMsgIsUndefined | src/services/mexc-service.ts:33-34 | an error object without `msg` is reported as "…: undefined" |
| MexcService.FailedStatusReported | src/services/mexc-service.ts:37-39 | a failed status with no error object reports "Status <code>" |
| MexcService.ArrayTickerReturned | src/services/mexc-service.ts:42-48 | an OK array whose first element has `price` is answered with that element |
| MexcService.EmptyOrPricelessIsUnexpected | src/services/mexc-service.ts:42-46 | an empty array or a first element without `price` is the unexpected-response error |
| MexcService.FetchFailedIsRewritten | src/services/mexc-service.ts:52-61 | a connection failure is reported with the pair, a non-Error as the generic error, and an API message containing 'fetch failed' is rewritten too |
| BitmartService.ApiErrorMessage | src/services/bitmart-service.ts:37-43 | a message containing "symbol not found" in any case names the pair; any other message is reported after the API-error prefix; no message reports the status |
| BitmartService.Attempt | src/services/bitmart-service.ts:28-50 | success iff an OK parsed reply has code 1000 and a non-empty ticker list, returning the first ticker; fetch failures and, except under 429, parse failures are thrown unchanged; a 429 or a parsed reply that fails throws an Error |
| BitmartService.GetBitmartPrice | src/services/bitmart-service.ts:25-61 | success iff the status is OK, the body parses, the code is 1000 and there are tickers, returning the first ticker; 429 is the rate-limit error |
| BitmartService.FirstTickerReturned | src/services/bitmart-service.ts:37-50 | an OK reply with code 1000 and tickers is answered with the first ticker, whatever its message |
| BitmartService.RateLimitFirst | src/services/bitmart-service.ts:31-35 | 429 is reported before the body is read |
| BitmartService.SymbolNotFoundNamesPair | src/services/bitmart-service.ts:37-41 | "Symbol Not Found" under a failure names the pair |
| BitmartService.WrongCodeFails | src/services/bitmart-service.ts:37-43 | a code other than 1000 fails even under status 200 |
| BitmartService.NoTickers | src/services/bitmart-service.ts:45-47 | missing or empty tickers is the no-ticker error |
| BitmartService.CatchClause | src/services/bitmart-service.ts:52-59 | Errors pass unchanged; non-Errors become the connection error |
| GateioService.Attempt | src/services/gateio-service.ts:24-44 | success iff an OK parsed reply is a non-empty ticker array, returning its first element; fetch and parse failures are thrown unchanged; a parsed reply that fails throws an Error |
| GateioService.GetGateioPrice | src/services/gateio-service.ts:21-55 | success iff the status is OK and the body is a non-empty ticker array, returning its first element |
| GateioService.InvalidPairBeforeStatus | src/services/gateio-service.ts:31-33 | label INVALID_CURRENCY_PAIR is the invalid-pair error under any status |
| GateioService.FailedStatusMessage | src/services/gateio-service.ts:35-38 | a failed status reports `message`, else the status |
| GateioService.NoTicker | src/services/gateio-service.ts:40-42 | an empty array, or an object under an OK status, is the no-ticker error |
| PoloniexService.Rethrown | src/services/poloniex-service.ts:47-57 | 'fetch failed' becomes the connection message; other Errors pass unchanged; non-Errors become the generic message |
| PoloniexService.Attempt | src/services/poloniex-service.ts:24-45 | success iff an OK parsed reply has `price`, returning the body; fetch and parse failures are thrown unchanged; a parsed reply that fails throws an Error |
| PoloniexService.GetPoloniexPrice | src/services/poloniex-service.ts:21-59 | success iff the reply is OK, parsed and has `price`, returning the body unchanged |
| PoloniexService.FailedStatusReported | src/services/poloniex-service.ts:30-38 | a failed status whose body has no message reports "Status <code>", whatever the code |
| PoloniexService.OtherCodeReportsMessage | src/services/poloniex-service.ts:30-38 | a failed status whose body has a message, under any code but 21105, reports that message after the API-error prefix |
| PoloniexService.NotFoundWithMessage | src/services/poloniex-service.ts:30-36 | code 21105 with a message under a failed status names the pair |
| PoloniexService.NotFoundNeedsMessage | src/services/poloniex-service.ts:30-38 | code 21105 without a message reports the status |
| PoloniexService.PricelessIsUnexpected | src/services/poloniex-service.ts:41-43 | an OK body without `price` is the unexpected-response error |
| PoloniexService.ConnectionFailureNamesPair | src/services/poloniex-service.ts:49-52 | a 'fetch failed' rejection is the connection error naming the pair |
| PoloniexService.NonErrorIsUnknown | src/services/poloniex-service.ts:55-57 | a non-Error rejection is the generic error |
| AssetNetworks.FindAsset | src/services/mexc-networks.ts:17 | the first entry whose symbol is non-empty and equal ignoring case; none iff no entry matches |
| AssetNetworks.Enabled | src/services/mexc-networks.ts:22-27 | exactly the names of the networks enabled on that side, never more names than networks |
| AssetNetworks.EnabledAppend | src/services/mexc-networks.ts:22-24 | filtering keeps list order: it distributes over concatenation |
| AssetNetworks.EnabledHead | src/services/mexc-networks.ts:25-27 | the first name listed is the first enabled network's |
| AssetNetworks.EnabledHeadIsFirst | src/services/mexc-networks.ts:22-27 | the head of a non-empty filtered list is the name of the first network enabled on that side |
| AssetNetworks.NoneEnabled | src/services/mexc-networks.ts:22-24 | no enabled network gives an empty list |
| AssetNetworks.FromListing | src/services/gateio-networks.ts:9-14 | a body that is not an array gives two empty lists |
| AssetNetworks.GetAssetNetworks | src/services/mexc-networks.ts:5-32 | a failed status, fetch or parse gives two empty lists |
| AssetNetworks.GetBitmartAssetNetworks | src/services/bitmart-networks.ts:4-19 | a failure or a missing `currencies` gives two empty lists |
| AssetNetworks.ListedNetworksAreEnabled | src/services/poloniex-networks.ts:10-13 | every listed network belongs to the first matching entry and is enabled on that side |
| AssetNetworks.CaseInsensitiveLookup | src/services/poloniex-networks.ts:10 | assets equal ignoring case get the same lists |
| AssetNetworks.MatchesAgree | src/services/gateio-networks.ts:10 | assets equal ignoring case find the same entry |
| MainNetwork.Parsed | src/services/mexc-networks.ts:10-16 | a body exactly for an OK, parsed reply, and that body |
| MainNetwork.ListingOn | src/services/get-main-network.ts:11-19 | a currency listing only for MEXC, Bitmart, Gate.io or Poloniex |
| MainNetwork.NetworksOn | src/services/get-main-network.ts:9-19 | the enabled deposit and withdrawal networks of the asset's entry in the exchange's listing; two empty lists when there is no such entry, including for an exchange other than the four |
| MainNetwork.Choose | src/services/get-main-network.ts:21-23 | the first withdrawal network if any, else the first deposit network if any, else "" |
| MainNetwork.GetMainNetwork | src/services/get-main-network.ts:9-23 | "" when the exchange gives no entry for the asset; otherwise the first network of the entry that can be withdrawn to, failing that the first that accepts deposits, failing both "" |
| MainNetwork.UnknownExchangeHasNone | src/services/get-main-network.ts:10-23 | an unknown exchange gives "" |
| MainNetwork.FailedRequestHasNone | src/services/get-main-network.ts:15-23 | a failed request gives "" |
| MainNetwork.FirstWithdrawableWins | src/services/get-main-network.ts:21 | the first withdrawal-enabled network of the asset is chosen |
| MainNetwork.DepositFallback | src/services/get-main-network.ts:22 | with nothing withdrawable, the first deposit-enabled network is chosen |
| NetworkAnalysis.SupportedNetworks | src/ai/flows/network-analysis.ts:34-52 | networks exist iff the asset is JASMY, PEPE or BTC and the exchange MEXC, Bitmart or Gate.io; at most three; JASMY and PEPE lists start with ERC20, BTC lists with Bitcoin |
| NetworkAnalysis.ExchangeAssetNetworks | src/ai/flows/network-analysis.ts:52-57 | deposit and withdrawal lists are identical |
| NetworkAnalysis.Common | src/ai/flows/network-analysis.ts:101-103 | a network is common iff it is in both lists |
| NetworkAnalysis.IntendedAnalysis | src/ai/flows/network-analysis.ts:98-105 | common networks are exactly those in the source's withdrawal and the destination's deposit list; compatible iff one exists |
| NetworkAnalysis.NetworkAnalysisFlow | src/ai/flows/network-analysis.ts:117-127 | the prompt's output is returned; a missing output fails with the fixed message |
| NetworkAnalysis.JasmyMexcToBitmart | src/ai/flows/network-analysis.ts:35-38 | JASMY from MEXC to Bitmart: common networks ["ERC20"], compatible |
| NetworkAnalysis.LookupIsCaseSensitive | src/ai/flows/network-analysis.ts:52 | a lower-case asset or exchange key has no networks |
| NetworkAnalysis.UnknownSideIsIncompatible | src/ai/flows/network-analysis.ts:52-57 | an unknown side is never compatible and has no common network |
| NetworkAnalysis.CompatibilityIsSymmetric | src/ai/flows/network-analysis.ts:54-57 | A→B is compatible iff B→A is |
| AssetCatalog.AssetStore.constructor | src/ai/flows/manage-assets-db.ts:42-43 | the store starts from the given documents |
| AssetCatalog.AssetStore.GetAssets | src/ai/flows/manage-assets-db.ts:39-50 | the stored array; [] for a missing or falsy field; a read fault or a truthy non-array fails |
| AssetCatalog.AssetStore.AddAsset | src/ai/flows/manage-assets-db.ts:74-96 | a read or write fault leaves the store unchanged; otherwise the store after adding the upper-cased symbol unless listed in any case |
| AssetCatalog.AddAppendsUpper | src/ai/flows/manage-assets-db.ts:86-88 | a new symbol is appended upper-cased; earlier entries keep their order |
| AssetCatalog.KnownAssetIsNoOp | src/ai/flows/manage-assets-db.ts:86-92 | a symbol listed in any case changes nothing |
| AssetCatalog.AddedAssetIsKnown | src/ai/flows/manage-assets-db.ts:75-88 | afterwards the symbol is listed |
| AssetCatalog.AddTwiceIsAddOnce | src/ai/flows/manage-assets-db.ts:86-92 | a second addition in any case leaves the store as the first left it |
| AssetCatalog.OtherExchangesUntouched | src/ai/flows/manage-assets-db.ts:76-88 | no other exchange's document changes |
| AssetCatalog.NonArrayStartsOver | src/ai/flows/manage-assets-db.ts:81-88 | a non-array field becomes a one-element list |
| ExchangeAssets.GetExchangeAssets | src/ai/flows/get-exchange-assets.ts:50-62 | sorted, and a permutation of the exchange's table entry |
| ExchangeAssets.FlowAnswerIsUnique | src/ai/flows/get-exchange-assets.ts:62 | any sorted permutation of the entry is the answer |
| ExchangeAssets.SimulatedAssetDb.constructor | src/app/api/get-exchange-assets/route.ts:3-8 | the table starts with the four exchanges' lists |
| ExchangeAssets.SimulatedAssetDb.Post | src/app/api/get-exchange-assets/route.ts:10-20 | 500 for an unparsable body; 400 for a missing or unknown exchange with the table unchanged; otherwise the sorted entry, which also replaces the table entry; answers are sorted permutations |
| ExchangeAssets.EmptyNameIsNotAKey | src/app/api/get-exchange-assets/route.ts:3-13 | "" is not a key, and Poloniex is one |
| ExchangeAssets.RepeatedRequestsAgree | src/app/api/get-exchange-assets/route.ts:16 | after one request, the same request answers the same list and changes nothing |
| ExchangeAssets.RouteAgreesWithFlow | src/app/api/get-exchange-assets/route.ts:3-6 | the route's MEXC, Bitmart and Gate.io entries equal the flow's table |
| InvestmentAnalysis.Retrying | src/ai/flows/investment-analysis.ts:106-126 | between 1 and 3 calls, one delay fewer than calls |
| InvestmentAnalysis.InvestmentAnalysisFlow | src/ai/flows/investment-analysis.ts:104-128 | the loop's outcome, calls and delays equal the recursive definition; 1 to 3 calls; the fallback throw is unreachable |
| InvestmentAnalysis.MissingMessageHasNoFive | src/ai/flows/investment-analysis.ts:113 | the missing-output message has no '5' |
| InvestmentAnalysis.NoFiveNo503 | src/ai/flows/investment-analysis.ts:118 | a message with no '5' never contains "503" |
| InvestmentAnalysis.FirstOutputReturned | src/ai/flows/investment-analysis.ts:111-115 | an output on the first call is returned after one call |
| InvestmentAnalysis.MissingOutputNotRetried | src/ai/flows/investment-analysis.ts:112-123 | a missing output is rethrown after one call, not retried |
| InvestmentAnalysis.OtherErrorsNotRetried | src/ai/flows/investment-analysis.ts:118-123 | an error without "503" is rethrown unchanged after one call |
| InvestmentAnalysis.Three503s | src/ai/flows/investment-analysis.ts:117-123 | three 503 failures: three calls, delays 2000 and 4000 ms, the third error rethrown |
| InvestmentAnalysis.DelaysDouble | src/ai/flows/investment-analysis.ts:119 | the delay after the n-th failure is 2^n·1000 ms |
| Text.Upper | src/app/api/get-market-price/route.ts:13 | same length; each ASCII lower-case letter is upper-cased, other characters kept |
| Text.Lower | src/services/bitmart-service.ts:39 | same length; each ASCII upper-case letter is lower-cased, other characters kept |
| Text.TrimIsInfix | src/app/api/get-market-price/route.ts:14 | `trim` gives an infix with no whitespace at either end |
| Text.TrimBounds | src/app/api/get-market-price/route.ts:13-14 | `trim` cuts after the leading whitespace and keeps what follows up to the trailing whitespace, leaving none at either end |
| Text.TrimCutsWhitespace | src/app/api/get-market-price/route.ts:13-14 | `trim` removes whitespace and nothing else, from either end only |
| Text.TrimOfIsTrim | src/app/api/get-market-price/route.ts:13-14 | any whitespace cut that leaves no whitespace at either end is exactly what `trim` gives |
| Text.TrimKeeps | src/app/api/get-market-price/route.ts:13-14 | `trim` adds no character and no lower-case letter, and is no longer than its input |
| Text.BeforeFirst | src/app/api/get-market-price/route.ts:13 | `split(sep)[0]` is the prefix before the first `sep`, which it does not contain |
| Text.ContainsAt | src/services/mexc-service.ts:54 | `includes` finds a substring wherever it starts |
| Text.CharAbsent | src/services/mexc-service.ts:54 | a string lacking some character of `sub` does not include `sub` |
| StringOrder.Sort | src/ai/flows/get-exchange-assets.ts:62 | `sort()` gives a permutation |
| StringOrder.SortSorted | src/ai/flows/get-exchange-assets.ts:62 | `sort()` gives a list in ascending order |
| StringOrder.SortedUnique | src/app/api/get-exchange-assets/route.ts:16 | two sorted permutations of a list are equal |
| StringOrder.SortIdempotent | src/app/api/get-exchange-assets/route.ts:16 | sorting a sorted list changes nothing |

## Left out

- Floating-point arithmetic is exact `real` arithmetic. A NaN from `parseFloat`/`Number` is `None`. Rounding, overflow, infinities and `parseFloat` prefix quirks are not modelled. NaN fees are not modelled either, since the source never checks them.
- Display formatting (`toLocaleString`, `toFixed(6)`) is not modelled. `toFixed(0)` is modelled as rounding halves away from zero; its exponent notation for values of 10^21 and above is not.
- `Text.Upper`/`Text.Lower` map ASCII letters only: full Unicode case mapping is not modelled.
- `StringOrder.Sort` orders by character code. JavaScript compares UTF-16 code units, which differs only outside the Basic Multilingual Plane.
- JSON bodies are modelled by the fields the code reads.
  - A missing string field is `""`, or `None` where absence matters.
  - `null` bodies, non-object bodies, and values of unexpected types are not modelled. In the source these raise TypeErrors that the `catch` clauses turn into messages.
  - Prototype keys such as `toString` in table lookups are not modelled.
- SwapQuote.Estimate: the quote's amounts are numeric strings. A `"0"` string is truthy, so the display divides by zero (`NotFinite`). A numeric 0, which the display would treat as missing, is not modelled.
- The LLM machinery is left out: `ai.defineFlow`/`definePrompt`, prompt texts, tool calls and the `reasoning` text.
  - The network-analysis intersection is stated as the rule the prompt asks for (`NetworkAnalysis.IntendedAnalysis`). The flow itself only passes the prompt's output through.
  - The investment-analysis prompt is an oracle of outcomes by attempt.
- The sleeping between retries is left out. Only the delay values are modelled.
- The calculator's 15-second auto-refresh, its in-flight guard, toasts, transitions and rendering are left out: they are about timing, concurrency and UI. So is the `localStorage` persistence of the spread calculator.
- The call to the non-existent `liveParityComparison` flow from the arbitrage calculator is not modelled. `calculateParity` itself is (`Parity`).
- `src/services/binance-service.ts` is modelled only as far as the market-price flow sees it: `MarketPriceFlow.GetBinancePrice`.
- Firestore is a map from exchange name to document field, held by `AssetCatalog.AssetStore`. Read and write faults are boolean parameters. Firebase setup is not part of this model.
- ArbitrageCalculator.Calculator.AddNewAssetToDB: the server call is modelled as either reaching `addAssetFlow` or failing before it (`callFails`). Faults inside the flow are swallowed there, so they do not reach the component.
- ExchangeAssets.SimulatedAssetDb.Post: the in-place `Array.prototype.sort` of the table entry is modelled as replacing the map entry with its sorted copy. The aliasing of the returned array with the table entry is not modelled.
- The input schemas (zod enums) of the flows are datatypes. As a result, two branches that the enums make unreachable are not modelled:
  - the market-price flow's "unknown exchange" branch;
  - the asset flow's "missing key gives []" branch.
- Parity.CalculateParity: requires a non-zero XPR price. The source does not check it, and JavaScript would divide to an infinity or NaN, which the exact-real model has no value for.
- SwapQuote.ScalingRoundTrip: it is stated for any raw amount within half a unit of `amount·10^decimals`, which is what `RawAmount` guarantees, rather than for `RawAmount` applied directly.
- The forwarding API routes (investment analysis, network analysis, add asset, main network, test and raw MEXC, and the DefiLlama, 1inch and Jumper quotes) are not part of this model. They only forward JSON or proxy a fetch.
- `fetchQuote`'s loading, error and result state handling around the HTTP call is left out. Only the request it builds and the figures it displays are modelled.
