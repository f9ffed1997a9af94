/**
  The ticker normalization block of `updateMessage` (app.js:114-125) and
  `getPriceURL` (app.js:431-435).
*/
module Currency {
  import opened Optional

  /** The five tickers the dialog may put in `context.currency`, with the feed's asset slugs. */
  const TICKERS: map<string, string> := map[
    "BTC" := "bitcoin",
    "ETH" := "ethereum",
    "BCH" := "bitcoin-cash",
    "XRP" := "ripple",
    "LTC" := "litecoin"
  ]

  /**
    The chain of `===` comparisons on the ticker: a listed ticker maps to its
    slug, every other string (a lower-case ticker included) is kept as it is.
  */
  function Normalize(ticker: string): (asset: string)
    ensures ticker in TICKERS ==> asset == TICKERS[ticker]
    ensures ticker !in TICKERS ==> asset == ticker
  {
    if ticker == "BTC" then "bitcoin"
    else if ticker == "ETH" then "ethereum"
    else if ticker == "BCH" then "bitcoin-cash"
    else if ticker == "XRP" then "ripple"
    else if ticker == "LTC" then "litecoin"
    else ticker
  }

  /** No slug is itself a ticker, so normalizing twice changes nothing more. */
  lemma NormalizeIdempotent(ticker: string)
    ensures Normalize(Normalize(ticker)) == Normalize(ticker)
  {
  }

  /** The match is case-sensitive: "btc" is not normalized. */
  lemma NormalizeCaseSensitive()
    ensures Normalize("btc") == "btc" && Normalize("BTC") == "bitcoin"
  {
  }

  const PRICE_URL_PREFIX := "https://api.coinmarketcap.com/v1/ticker/"
  const PRICE_URL_SUFFIX := "/?convert=USD"

  /** `getPriceURL(coin)`: the ticker endpoint in US dollars; undefined for a null coin. */
  function PriceUrl(coin: Option<string>): (url: Option<string>)
    ensures url.None? <==> coin.None?
    ensures url.Some? ==> |url.value| == |PRICE_URL_PREFIX| + |coin.value| + |PRICE_URL_SUFFIX|
    ensures url.Some? ==> url.value[..|PRICE_URL_PREFIX|] == PRICE_URL_PREFIX
    ensures url.Some? ==> url.value[|url.value| - |PRICE_URL_SUFFIX|..] == PRICE_URL_SUFFIX
  {
    match coin
    case Some(c) => Some(PRICE_URL_PREFIX + c + PRICE_URL_SUFFIX)
    case None => None
  }

  /** The coin can be read back from its URL: it sits between the fixed prefix and suffix. */
  lemma PriceUrlRoundTrip(coin: string)
    ensures var url := PriceUrl(Some(coin)).value;
            url[|PRICE_URL_PREFIX|..|url| - |PRICE_URL_SUFFIX|] == coin
  {
    var url := PriceUrl(Some(coin)).value;
    assert url == PRICE_URL_PREFIX + coin + PRICE_URL_SUFFIX;
    var slice := url[|PRICE_URL_PREFIX|..|url| - |PRICE_URL_SUFFIX|];
    assert |slice| == |coin|;
    forall k | 0 <= k < |coin| ensures slice[k] == coin[k] {
      assert slice[k] == url[|PRICE_URL_PREFIX| + k];
    }
  }

  /** Different coins are fetched from different URLs. */
  lemma PriceUrlInjective(a: Option<string>, b: Option<string>)
    requires PriceUrl(a) == PriceUrl(b)
    ensures a == b
  {
    if a.Some? {
      PriceUrlRoundTrip(a.value);
      PriceUrlRoundTrip(b.value);
    }
  }
}
