/**
  The three enrichment handlers' post-processing of the data fetched for one
  asset: the price parameters (app.js:141-162), the sentiment bucket and the
  label counts (app.js:192-233), and the article parameters (app.js:269-283).
  What the services return is given as values; the fetches themselves are in
  the Dispatcher module as function parameters.
*/
module Enrichment {
  import opened Optional
  import opened Template

  // ---------------------------------------------------------------------
  // Price feed
  // ---------------------------------------------------------------------

  /**
    A number of the price feed: `text` is how JavaScript prints it after the
    `parseFloat(x + '')` round trip, `value` is what it denotes.
  */
  datatype Figure = Figure(text: string, value: real)

  /**
    `chunkJSON[0]`: `priceUsd` is None when `price_usd` is falsy (absent, null
    or the empty string).
  */
  datatype Quote = Quote(priceUsd: Option<Figure>, percentChange24h: Figure)

  /** What the `https.get` of the ticker URL delivers. */
  datatype PriceReply =
    | TransportError            // the request's 'error' event
    | Unparsable                // a body JSON.parse rejects, or a value with no element 0
    | Quotes(quotes: seq<Quote>)

  /** The 24h change with its direction: "down " for a negative change, "up " otherwise. */
  function ChangeText(percent: Figure): (s: string)
    ensures "down " <= s <==> percent.value < 0.0
    ensures percent.value >= 0.0 ==> "up " <= s
    ensures |s| >= |percent.text| && s[|s| - |percent.text|..] == percent.text
    ensures |s| == |percent.text| + (if percent.value < 0.0 then 5 else 3)
  {
    if percent.value < 0.0 then
      var down := "down " + percent.text;
      assert down[..5] == "down ";
      assert down[5..] == percent.text;
      down
    else
      var up := "up " + percent.text;
      assert up[..3] == "up " && up[0] == 'u';
      assert up[3..] == percent.text;
      up
  }

  /**
    The substitution values of a price reply, or None when `price_usd` is
    falsy and the text is to be left alone.
  */
  function PriceParams(q: Quote): (params: Option<seq<string>>)
    ensures params.Some? <==> q.priceUsd.Some?
    ensures params.Some? ==> params.value == [q.priceUsd.value.text, ChangeText(q.percentChange24h)]
  {
    match q.priceUsd
    case Some(price) => Some([price.text, ChangeText(q.percentChange24h)])
    case None => None
  }

  // ---------------------------------------------------------------------
  // Search service
  // ---------------------------------------------------------------------

  /** A query to the search service (environment, collection and version come from the environment). */
  datatype Query = Query(
    naturalLanguageQuery: string,
    filter: string,
    aggregation: Option<string>,
    fields: Option<string>,
    count: nat)

  /** Documents published in the last day whose entities are relevant at 0.8 or more. */
  const RECENT_RELEVANT := "[publication_date>=now-1day, enriched_text.entities.relevance>=.8]"
  const SENTIMENT_AGGREGATION :=
    "[average(enriched_text.sentiment.document.score),term(enriched_text.sentiment.document.label,count:3)]"
  const ARTICLE_FIELDS := "[title, url]"

  /** The query of the sentiment handler (app.js:177-185). */
  function SentimentQuery(asset: string): (q: Query)
    ensures q.naturalLanguageQuery == asset && q.count == 3 && q.filter == RECENT_RELEVANT
    ensures q.aggregation == Some(SENTIMENT_AGGREGATION) && q.fields.None?
  {
    Query(asset, RECENT_RELEVANT, Some(SENTIMENT_AGGREGATION), None, 3)
  }

  /** The query of the article handler (app.js:249-257). */
  function ArticleQuery(asset: string): (q: Query)
    ensures q.naturalLanguageQuery == asset && q.count == 5 && q.filter == RECENT_RELEVANT
    ensures q.aggregation.None? && q.fields == Some(ARTICLE_FIELDS)
  {
    Query(asset, RECENT_RELEVANT, None, Some(ARTICLE_FIELDS), 5)
  }

  /** One bucket of the term aggregation over sentiment labels. */
  datatype Bucket = Bucket(key: string, matchingResults: nat)

  /**
    `aggregations[0].value` (the average document score) and
    `aggregations[1]` (its `count` and its `results`).
  */
  datatype Aggregations = Aggregations(average: real, termCount: nat, terms: seq<Bucket>)

  /** A document of the result list, projected on its title and URL. */
  datatype Document = Document(title: string, url: string)

  /**
    What the search service answers; `code` is 0 when the error carries none,
    and `aggregations` is None when the reply lacks either of the two
    aggregations.
  */
  datatype QueryReply =
    | QueryError(code: int)
    | Answer(results: seq<Document>, matchingResults: nat, aggregations: Option<Aggregations>)

  /** The line appended when the search finds nothing. */
  const FALLBACK := "I cannot find an answer to your question."

  // ---------------------------------------------------------------------
  // Sentiment
  // ---------------------------------------------------------------------

  /** The five labels, from the most negative to the most positive. */
  const SCALE: seq<string> := ["very negative", "somewhat negative", "neutral", "somewhat positive", "very positive"]

  /** The nested comparisons of app.js:202-218 on the average score. */
  function SentimentLabel(score: real): (word: string)
    ensures word in SCALE
    ensures word == "neutral" <==> score == 0.0
  {
    if score > 0.0 then
      if score > 0.3 then "very positive" else "somewhat positive"
    else if score < 0.0 then
      if score < -0.3 then "very negative" else "somewhat negative"
    else "neutral"
  }

  /** The position of a label on the scale. */
  function Rank(word: string): (r: int)
    ensures word in SCALE ==> 0 <= r < |SCALE| && SCALE[r] == word
  {
    if word == SCALE[0] then 0
    else if word == SCALE[1] then 1
    else if word == SCALE[2] then 2
    else if word == SCALE[3] then 3
    else if word == SCALE[4] then 4
    else -1
  }

  /** The bucket bounds: (0.3, ..), (0, 0.3], {0}, [-0.3, 0), (.., -0.3). */
  lemma SentimentBuckets(score: real)
    ensures score > 0.3 ==> SentimentLabel(score) == "very positive"
    ensures 0.0 < score <= 0.3 ==> SentimentLabel(score) == "somewhat positive"
    ensures score == 0.0 ==> SentimentLabel(score) == "neutral"
    ensures -0.3 <= score < 0.0 ==> SentimentLabel(score) == "somewhat negative"
    ensures score < -0.3 ==> SentimentLabel(score) == "very negative"
  {
  }

  /** A higher score never gets a lower label. */
  lemma SentimentMonotone(a: real, b: real)
    requires a <= b
    ensures Rank(SentimentLabel(a)) <= Rank(SentimentLabel(b))
  {
  }

  /** The label's side of the scale is the sign of the score. */
  lemma SentimentSign(score: real)
    ensures Rank(SentimentLabel(score)) > 2 <==> score > 0.0
    ensures Rank(SentimentLabel(score)) < 2 <==> score < 0.0
  {
  }

  /**
    The `matching_results` of the last bucket in `buckets` whose key is `key`,
    or 0 when there is none.
  */
  function LastCount(buckets: seq<Bucket>, key: string): (n: nat)
    ensures (forall i :: 0 <= i < |buckets| ==> buckets[i].key != key) ==> n == 0
  {
    if buckets == [] then 0
    else if buckets[|buckets| - 1].key == key then buckets[|buckets| - 1].matchingResults
    else LastCount(buckets[..|buckets| - 1], key)
  }

  /** LastCount picks the last match: later buckets with the same key win. */
  lemma {:induction false} LastCountIsLastMatch(buckets: seq<Bucket>, key: string, j: nat)
    requires j < |buckets| && buckets[j].key == key
    requires forall k :: j < k < |buckets| ==> buckets[k].key != key
    ensures LastCount(buckets, key) == buckets[j].matchingResults
    decreases |buckets|
  {
    if j < |buckets| - 1 {
      var init := buckets[..|buckets| - 1];
      assert init[j] == buckets[j];
      LastCountIsLastMatch(init, key, j);
    }
  }

  /**
    The loop of app.js:219-226 over the first `count` term buckets. It fails
    (`complete` is false) where the source reads `results[i].key` past the end
    of the bucket list; otherwise `pos` and `neg` are the last positive and
    negative counts among those buckets, 0 when absent.
  */
  method CountLabels(buckets: seq<Bucket>, count: nat) returns (pos: nat, neg: nat, complete: bool)
    ensures complete <==> count <= |buckets|
    ensures complete ==> pos == LastCount(buckets[..count], "positive")
    ensures complete ==> neg == LastCount(buckets[..count], "negative")
  {
    pos, neg := 0, 0;
    var i := 0;
    while i < count
      invariant i <= count && i <= |buckets|
      invariant pos == LastCount(buckets[..i], "positive")
      invariant neg == LastCount(buckets[..i], "negative")
    {
      if i == |buckets| {
        return pos, neg, false;
      }
      assert buckets[..i + 1][..i] == buckets[..i];
      if buckets[i].key == "negative" {
        neg := buckets[i].matchingResults;
      } else if buckets[i].key == "positive" {
        pos := buckets[i].matchingResults;
      }
      i := i + 1;
    }
    complete := true;
  }

  /** `[sentiment_string, matching_results, pos, neg]`, numbers printed as JavaScript does. */
  function SentimentParams(sentiment: string, matchingResults: nat, pos: nat, neg: nat): (params: seq<string>)
    ensures |params| == 4 && params[0] == sentiment
    ensures Canonical(params[1]) && Value(params[1]) == matchingResults
    ensures Canonical(params[2]) && Value(params[2]) == pos
    ensures Canonical(params[3]) && Value(params[3]) == neg
  {
    ValueOfDecimal(matchingResults);
    ValueOfDecimal(pos);
    ValueOfDecimal(neg);
    [sentiment, Decimal(matchingResults), Decimal(pos), Decimal(neg)]
  }

  // ---------------------------------------------------------------------
  // Articles
  // ---------------------------------------------------------------------

  /** Title and URL of the first five documents, flattened in rank order (app.js:271-281). */
  function ArticleParams(results: seq<Document>): (params: seq<string>)
    requires |results| >= 5
    ensures |params| == 10
    ensures forall k :: 0 <= k < 5 ==> params[2 * k] == results[k].title && params[2 * k + 1] == results[k].url
  {
    [results[0].title, results[0].url,
     results[1].title, results[1].url,
     results[2].title, results[2].url,
     results[3].title, results[3].url,
     results[4].title, results[4].url]
  }

  /** Reads a flattened [title, url, ...] list back as documents. */
  function Pairs(params: seq<string>): (docs: seq<Document>)
    requires |params| % 2 == 0
    ensures |docs| == |params| / 2
    decreases |params|
  {
    if params == [] then [] else [Document(params[0], params[1])] + Pairs(params[2..])
  }

  /** The flattening loses nothing: the parameters read back as the first five documents. */
  lemma ArticleParamsRoundTrip(results: seq<Document>)
    requires |results| >= 5
    ensures Pairs(ArticleParams(results)) == results[..5]
  {
    var p := ArticleParams(results);
    assert p[2..][2..][2..][2..][2..] == [];
    assert Pairs(p[2..][2..][2..][2..]) == [results[4]];
    assert Pairs(p[2..][2..][2..]) == [results[3], results[4]];
    assert Pairs(p[2..][2..]) == [results[2], results[3], results[4]];
    assert Pairs(p[2..]) == [results[1], results[2], results[3], results[4]];
  }
}
