/**
 * Asset classification and coin naming from `MarketDataService`.
 *
 * `detectAssetType` is a chain of keyword tests followed by the token rule of
 * the regular expression `\b([A-Z]{2,5})\b`, written out below as a scan for
 * the leftmost run of two to five upper-case ASCII letters that has no word
 * character (`\w`) on either side. The fetches and the price formatting are
 * not modelled here; callers receive their outcome as a parameter.
 */
module MarketData {
  import opened Wrappers
  import opened Text

  datatype AssetType = CryptoAsset | StockAsset | ForexAsset | UnknownAsset

  datatype Detection = Detection(kind: AssetType, symbol: string)

  /** `CRYPTO_MAPPING`: ticker to CoinGecko coin id. */
  const CryptoMapping: map<string, string> := map[
    "BTC" := "bitcoin",
    "ETH" := "ethereum",
    "ADA" := "cardano",
    "DOT" := "polkadot",
    "LINK" := "chainlink",
    "XRP" := "ripple",
    "LTC" := "litecoin",
    "BCH" := "bitcoin-cash",
    "BNB" := "binancecoin",
    "SOL" := "solana",
    "MATIC" := "matic-network",
    "AVAX" := "avalanche-2",
    "ATOM" := "cosmos",
    "DOGE" := "dogecoin",
    "SHIB" := "shiba-inu"
  ]

  // ---------------------------------------------------------------------------
  // The token rule \b([A-Z]{2,5})\b
  // ---------------------------------------------------------------------------

  /** The length of the run of upper-case letters starting at `i`. */
  function UpperRun(s: string, i: nat): (n: nat)
    requires i <= |s|
    ensures i + n <= |s|
    ensures forall k :: i <= k < i + n ==> IsUpper(s[k])
    ensures i + n == |s| || !IsUpper(s[i + n])
    decreases |s| - i
  {
    if i < |s| && IsUpper(s[i]) then 1 + UpperRun(s, i + 1) else 0
  }

  /**
   * The regular expression matches at `i`: a word boundary before `i`, two to
   * five upper-case letters (greedy, so the whole run), and a word boundary
   * after them. A shorter prefix of a longer run never matches, because the
   * letter after it is a word character.
   */
  predicate TokenAt(s: string, i: nat) {
    && i < |s|
    && (i == 0 || !IsWordChar(s[i - 1]))
    && 2 <= UpperRun(s, i) <= 5
    && (i + UpperRun(s, i) == |s| || !IsWordChar(s[i + UpperRun(s, i)]))
  }

  /** The leftmost match at or after `i`, as `String.prototype.match` finds it. */
  function FirstToken(s: string, i: nat): (r: Option<nat>)
    ensures r.Some? ==> i <= r.value && TokenAt(s, r.value)
    ensures r.Some? ==> forall k :: i <= k < r.value ==> !TokenAt(s, k)
    ensures r.None? ==> forall k :: i <= k ==> !TokenAt(s, k)
    decreases |s| - i
  {
    if i >= |s| then None
    else if TokenAt(s, i) then Some(i)
    else FirstToken(s, i + 1)
  }

  /** The captured symbol: the whole upper-case run at a match. */
  function TokenText(s: string, i: nat): (t: string)
    requires TokenAt(s, i)
    ensures 2 <= |t| <= 5
    ensures forall k :: 0 <= k < |t| ==> IsUpper(t[k])
    ensures HasAt(s, i, t)
  {
    s[i..i + UpperRun(s, i)]
  }

  // ---------------------------------------------------------------------------
  // detectAssetType
  // ---------------------------------------------------------------------------

  predicate AllUpper(s: string) {
    forall k | 0 <= k < |s| :: IsUpper(s[k])
  }

  /**
   * `detectAssetType`, branch for branch. The forex branch is kept as written;
   * its test `symbol.length === 6` can never hold for a token of at most five
   * letters, so no query is classified as forex.
   */
  function DetectAssetType(query: string): (d: Detection)
    ensures d.kind != ForexAsset
    ensures d.symbol != "" <==> d.kind != UnknownAsset
    ensures d.symbol == "BTC" || d.symbol == "ETH" || Contains(query, d.symbol)
    ensures d.kind == CryptoAsset ==> Upper(d.symbol) in CryptoMapping
    ensures d.kind == StockAsset ==> d.symbol !in CryptoMapping && 2 <= |d.symbol| <= 5 && AllUpper(d.symbol)
  {
    var normalized := Lower(query);
    if Contains(normalized, "bitcoin") || Contains(normalized, "btc") then
      assert AllUpper("BTC");
      UpperOfUpper("BTC");
      Detection(CryptoAsset, "BTC")
    else if Contains(normalized, "ethereum") || Contains(normalized, "eth") then
      assert AllUpper("ETH");
      UpperOfUpper("ETH");
      Detection(CryptoAsset, "ETH")
    else
      match FirstToken(query, 0)
      case Some(i) =>
        var symbol := TokenText(query, i);
        ContainsAt(query, i, symbol);
        UpperOfUpper(symbol);
        if symbol in CryptoMapping then Detection(CryptoAsset, symbol)
        else if |symbol| == 6 && AllUpper(symbol) then Detection(ForexAsset, symbol)
        else Detection(StockAsset, symbol)
      case None => Detection(UnknownAsset, "")
  }

  lemma UpperOfUpper(s: string)
    requires AllUpper(s)
    ensures Upper(s) == s
  {
  }

  /** A query mentioning bitcoin or btc, in any case, is BTC; this test runs before the ether test. */
  lemma BitcoinFirst(query: string)
    requires Contains(Lower(query), "bitcoin") || Contains(Lower(query), "btc")
    ensures DetectAssetType(query) == Detection(CryptoAsset, "BTC")
  {
  }

  /** Any `eth`, even inside a word such as "whether", makes the query ETH. */
  lemma EthSubstring(query: string)
    requires !Contains(Lower(query), "bitcoin") && !Contains(Lower(query), "btc")
    requires Contains(Lower(query), "eth")
    ensures DetectAssetType(query) == Detection(CryptoAsset, "ETH")
  {
  }

  /** Without those keywords the leftmost token decides: crypto when mapped, stock otherwise, unknown when there is none. */
  lemma TokenDecides(query: string)
    requires !Contains(Lower(query), "bitcoin") && !Contains(Lower(query), "btc")
    requires !Contains(Lower(query), "ethereum") && !Contains(Lower(query), "eth")
    ensures FirstToken(query, 0).None? ==> DetectAssetType(query) == Detection(UnknownAsset, "")
    ensures FirstToken(query, 0).Some? ==>
              var symbol := TokenText(query, FirstToken(query, 0).value);
              DetectAssetType(query) == Detection(if symbol in CryptoMapping then CryptoAsset else StockAsset, symbol)
  {
  }

  /** "EURUSD rate": the six-letter pair is no token, so the query is unknown rather than forex. */
  lemma ForexPairIsUnknown()
    ensures DetectAssetType("EURUSD rate") == Detection(UnknownAsset, "")
  {
    EurUsdHasNoKeyword();
    EurUsdHasNoToken();
  }

  lemma EurUsdHasNoKeyword()
    ensures !Contains(Lower("EURUSD rate"), "bitcoin") && !Contains(Lower("EURUSD rate"), "btc")
    ensures !Contains(Lower("EURUSD rate"), "ethereum") && !Contains(Lower("EURUSD rate"), "eth")
  {
    var n := Lower("EURUSD rate");
    assert n == "eurusd rate";
    AbsentChar(n, "bitcoin", 0);
    AbsentChar(n, "btc", 0);
    AbsentChar(n, "ethereum", 2);
    AbsentChar(n, "eth", 2);
  }

  lemma EurUsdHasNoToken()
    ensures FirstToken("EURUSD rate", 0) == None
  {
    var q := "EURUSD rate";
    EurUsdRun();
    assert !TokenAt(q, 0);
    NoUpperFrom(q, 1);
  }

  lemma EurUsdRun()
    ensures UpperRun("EURUSD rate", 0) == 6
  {
    var q := "EURUSD rate";
    assert UpperRun(q, 6) == 0;
    assert UpperRun(q, 5) == 1;
    assert UpperRun(q, 3) == 3;
  }

  /** No token starts at or after `i` when no upper-case letter there follows a non-upper-case one. */
  lemma {:induction false} NoUpperFrom(s: string, i: nat)
    requires 0 < i <= |s|
    requires forall k :: i <= k < |s| ==> !IsUpper(s[k]) || IsUpper(s[k - 1])
    ensures FirstToken(s, i) == None
    decreases |s| - i
  {
    if i < |s| {
      if !IsUpper(s[i]) {
        assert UpperRun(s, i) == 0;
      }
      NoUpperFrom(s, i + 1);
    }
  }

  // ---------------------------------------------------------------------------
  // Coin id and display name (inside getCryptoPrice)
  // ---------------------------------------------------------------------------

  /** `CRYPTO_MAPPING[symbol.toUpperCase()] || symbol.toLowerCase()`. */
  function CoinId(symbol: string): (id: string)
    ensures Upper(symbol) in CryptoMapping ==> id == CryptoMapping[Upper(symbol)]
    ensures Upper(symbol) !in CryptoMapping ==> id == Lower(symbol)
  {
    var key := Upper(symbol);
    if key in CryptoMapping && CryptoMapping[key] != "" then CryptoMapping[key] else Lower(symbol)
  }

  /** `coinId.charAt(0).toUpperCase() + coinId.slice(1)`. */
  function CoinName(coinId: string): (name: string)
    ensures |name| == |coinId|
    ensures coinId != [] ==> name[0] == UpperChar(coinId[0]) && name[1..] == coinId[1..]
    ensures Lower(name) == Lower(coinId)
  {
    if coinId == [] then [] else [UpperChar(coinId[0])] + coinId[1..]
  }

  /** Every crypto classification resolves to a mapped coin id. */
  lemma DetectedCryptoIsMapped(query: string)
    requires DetectAssetType(query).kind == CryptoAsset
    ensures CoinId(DetectAssetType(query).symbol) in CryptoMapping.Values
  {
    var key := Upper(DetectAssetType(query).symbol);
    assert CryptoMapping[key] in CryptoMapping.Values;
  }
}
