/**
  `updateMessage(res, input, response)` (app.js:110-301): the step that takes
  the dialog engine's response, runs at most one enrichment handler on it,
  rewrites `response.output.text` in place and decides how the HTTP request
  ends. The price feed and the search service are function parameters, the
  uuid and the clock reading of `log` are plain parameters.

  `Enrich` states the whole step on values; `UpdateMessage` is the step on
  the mutable response object and the log store, proved to do what `Enrich`
  says.
*/
module Dispatcher {
  import opened Optional
  import opened Template
  import opened Currency
  import opened Messages
  import opened Enrichment
  import opened Audit

  /** How the HTTP request ends. */
  datatype Reply =
    | NoReply                   // no response is ever written
    | Sent                      // `res.json(response)` with the final response
    | ErrorStatus(status: int)  // `res.status(err.code || 500).json(err)`
    | Crash                     // a TypeError or SyntaxError thrown in a callback

  /** The outbound request a handler makes. */
  datatype Call = PriceRequest(url: string) | SearchRequest(query: Query)

  /** One step: the final response, the reply, the request made, and whether `log` ran. */
  datatype Step = Step(message: Message, reply: Reply, call: Option<Call>, logged: bool)

  /** `response.output.text = text`: every other part of the response is kept. */
  function WithText(m: Message, text: Option<seq<string>>): (m': Message)
    ensures m'.intents == m.intents && m'.entities == m.entities && m'.context == m.context
    ensures m'.output == Some(Output(text))
  {
    m.(output := Some(Output(text)))
  }

  /** The text of a response that has an output. */
  function Text(m: Message): Option<seq<string>>
    requires m.output.Some?
  {
    m.output.value.text
  }

  /** `err.code || 500`: a missing (or zero) code becomes 500. */
  function ErrorCode(code: int): (status: int)
    ensures status != 0
    ensures code == 0 ==> status == 500
    ensures code != 0 ==> status == code
  {
    if code != 0 then code else 500
  }

  /** The price callback (app.js:136-164) on what the ticker URL delivered. */
  function PriceStep(m: Message, url: string, feed: PriceReply): (step: Step)
    requires m.output.Some?
    ensures step.call == Some(PriceRequest(url))
    ensures step.logged <==> feed.Quotes? && |feed.quotes| > 0
    ensures step.reply == Sent <==> step.logged
    ensures !step.logged ==> step.message == m
  {
    var call := Some(PriceRequest(url));
    match feed
    case TransportError => Step(m, NoReply, call, false)
    case Unparsable => Step(m, Crash, call, false)
    case Quotes(quotes) =>
      if |quotes| == 0 then Step(m, Crash, call, false)
      else
        var params := PriceParams(quotes[0]);
        var m' := if params.Some? then WithText(m, ReplaceParams(Text(m), params)) else m;
        Step(m', Sent, call, true)
  }

  /** `response.output.text.push(FALLBACK)`, which throws when the text is undefined. */
  function FallbackStep(m: Message, call: Option<Call>): (step: Step)
    requires m.output.Some?
    ensures step.call == call && !step.logged
    ensures step.reply == (if Text(m).Some? then Sent else Crash)
    ensures step.reply == Crash ==> step.message == m
  {
    if Text(m).None? then Step(m, Crash, call, false)
    else Step(WithText(m, Some(Text(m).value + [FALLBACK])), Sent, call, false)
  }

  /** The sentiment callback (app.js:187-237). */
  function SentimentStep(m: Message, query: Query, answer: QueryReply): (step: Step)
    requires m.output.Some?
    ensures step.call == Some(SearchRequest(query)) && !step.logged
    ensures answer.QueryError? ==> step.reply == ErrorStatus(ErrorCode(answer.code)) && step.message == m
    ensures step.reply != Sent ==> step.message == m
  {
    var call := Some(SearchRequest(query));
    match answer
    case QueryError(code) => Step(m, ErrorStatus(ErrorCode(code)), call, false)
    case Answer(results, matching, aggregations) =>
      if |results| == 0 then FallbackStep(m, call)
      else if aggregations.None? then Step(m, Crash, call, false)
      else if aggregations.value.termCount > |aggregations.value.terms| then Step(m, Crash, call, false)
      else
        var aggs := aggregations.value;
        var terms := aggs.terms[..aggs.termCount];
        var params := SentimentParams(SentimentLabel(aggs.average), matching,
                                      LastCount(terms, "positive"), LastCount(terms, "negative"));
        Step(WithText(m, ReplaceParams(Text(m), Some(params))), Sent, call, false)
  }

  /** The article callback (app.js:259-290); fewer than five results throw. */
  function ArticleStep(m: Message, query: Query, answer: QueryReply): (step: Step)
    requires m.output.Some?
    ensures step.call == Some(SearchRequest(query)) && !step.logged
    ensures answer.QueryError? ==> step.reply == ErrorStatus(ErrorCode(answer.code)) && step.message == m
    ensures answer.Answer? && 0 < |answer.results| < 5 ==> step.reply == Crash
    ensures step.reply != Sent ==> step.message == m
  {
    var call := Some(SearchRequest(query));
    match answer
    case QueryError(code) => Step(m, ErrorStatus(ErrorCode(code)), call, false)
    case Answer(results, _, _) =>
      if |results| == 0 then FallbackStep(m, call)
      else if |results| < 5 then Step(m, Crash, call, false)
      else Step(WithText(m, ReplaceParams(Text(m), Some(ArticleParams(results)))), Sent, call, false)
  }

  /** What one call of `updateMessage` does to the response `m`. */
  function Enrich(m: Message, priceFeed: string -> PriceReply, discovery: Query -> QueryReply): (step: Step)
    ensures step.call.Some? <==> RouteOf(m).Handle?
    ensures step.logged ==> step.reply == Sent
  {
    match RouteOf(m)
    case DefaultOutput => Step(m.(output := Some(Output(None))), NoReply, None, false)
    case PassThrough => Step(m, if Text(m).Some? then Sent else NoReply, None, false)
    case Handle(PriceHandler, asset) =>
      var url := PriceUrl(Some(asset)).value;
      PriceStep(m, url, priceFeed(url))
    case Handle(SentimentHandler, asset) =>
      var query := SentimentQuery(asset);
      SentimentStep(m, query, discovery(query))
    case Handle(ArticleHandler, asset) =>
      var query := ArticleQuery(asset);
      ArticleStep(m, query, discovery(query))
  }

  // ---------------------------------------------------------------------
  // Properties of the step
  // ---------------------------------------------------------------------

  /** A missing output is set to `{}`; nothing is fetched, logged or sent. */
  lemma MissingOutputDefaulted(m: Message, priceFeed: string -> PriceReply, discovery: Query -> QueryReply)
    requires m.output.None?
    ensures var step := Enrich(m, priceFeed, discovery);
            && step.message == m.(output := Some(Output(None)))
            && step.reply == NoReply && step.call.None? && !step.logged
  {
  }

  /**
    Without a currency no handler runs: the response goes back unchanged
    when it has a text and not at all otherwise, and nothing is logged.
  */
  lemma NoCurrencyPassesThrough(m: Message, priceFeed: string -> PriceReply, discovery: Query -> QueryReply)
    requires m.output.Some? && !CheckCurrency(m)
    ensures var step := Enrich(m, priceFeed, discovery);
            && step.message == m && step.call.None? && !step.logged
            && (step.reply == Sent <==> m.output.value.text.Some?)
            && (step.reply != Sent ==> step.reply == NoReply)
  {
    GuardsDisableHandlers(m);
  }

  /** An intent outside the table passes through like a missing currency. */
  lemma UnknownIntentPassesThrough(m: Message, priceFeed: string -> PriceReply, discovery: Query -> QueryReply)
    requires m.output.Some? && CheckCurrency(m)
    requires TopIntent(m.intents).None? || TopIntent(m.intents).value !in HANDLERS
    ensures var step := Enrich(m, priceFeed, discovery);
            && step.message == m && step.call.None? && !step.logged
            && (step.reply == Sent <==> m.output.value.text.Some?)
            && (step.reply != Sent ==> step.reply == NoReply)
  {
    RouteIsTableLookup(m);
  }

  /**
    At most one service is called, and it is the one the route names: the
    ticker URL of the normalized asset for a price question, the
    sentiment or article query on that asset otherwise.
  */
  lemma CallFollowsRoute(m: Message, priceFeed: string -> PriceReply, discovery: Query -> QueryReply)
    ensures var step := Enrich(m, priceFeed, discovery);
            && (step.call.Some? <==> RouteOf(m).Handle?)
            && (RouteOf(m).Handle? ==>
                  var asset := RouteOf(m).asset;
                  step.call.value == match RouteOf(m).handler
                                     case PriceHandler => PriceRequest(PriceUrl(Some(asset)).value)
                                     case SentimentHandler => SearchRequest(SentimentQuery(asset))
                                     case ArticleHandler => SearchRequest(ArticleQuery(asset)))
  {
  }

  /**
    Only the price handler logs, and it logs exactly when the feed
    delivered a non-empty list; a logged step always replies.
  */
  lemma OnlyPriceLogs(m: Message, priceFeed: string -> PriceReply, discovery: Query -> QueryReply)
    ensures var step := Enrich(m, priceFeed, discovery);
            && (step.logged <==>
                  RouteOf(m).Handle? && RouteOf(m).handler == PriceHandler
                  && var feed := priceFeed(PriceUrl(Some(RouteOf(m).asset)).value);
                     feed.Quotes? && |feed.quotes| > 0)
            && (step.logged ==> step.reply == Sent)
  {
  }

  /**
    The step only ever writes `response.output`: intents, entities and
    context are kept, and the response has an output afterwards.
  */
  lemma OnlyOutputChanges(m: Message, priceFeed: string -> PriceReply, discovery: Query -> QueryReply)
    ensures var step := Enrich(m, priceFeed, discovery);
            && step.message.intents == m.intents
            && step.message.entities == m.entities
            && step.message.context == m.context
            && step.message.output.Some?
  {
  }

  /**
    A step that does not reply with the response leaves a response that
    had an output exactly as it was.
  */
  lemma UnrepliedResponseUnchanged(m: Message, priceFeed: string -> PriceReply, discovery: Query -> QueryReply)
    requires m.output.Some?
    ensures var step := Enrich(m, priceFeed, discovery);
            step.reply != Sent ==> step.message == m
  {
  }

  /** A search error is answered with its code, or 500 without one, and the response is not sent. */
  lemma SearchErrorStatus(m: Message, priceFeed: string -> PriceReply, discovery: Query -> QueryReply, code: int)
    requires RouteOf(m).Handle? && RouteOf(m).handler != PriceHandler
    requires var asset := RouteOf(m).asset;
             discovery(if RouteOf(m).handler == SentimentHandler then SentimentQuery(asset) else ArticleQuery(asset))
             == QueryError(code)
    ensures var step := Enrich(m, priceFeed, discovery);
            && step.reply == ErrorStatus(if code == 0 then 500 else code)
            && step.message == m && !step.logged
  {
  }

  /**
    A search without results keeps the earlier lines and appends the
    fallback line; with no text at all the `push` throws.
  */
  lemma NoResultsAppendFallback(m: Message, priceFeed: string -> PriceReply, discovery: Query -> QueryReply,
                                matching: nat, aggregations: Option<Aggregations>)
    requires RouteOf(m).Handle? && RouteOf(m).handler != PriceHandler
    requires var asset := RouteOf(m).asset;
             discovery(if RouteOf(m).handler == SentimentHandler then SentimentQuery(asset) else ArticleQuery(asset))
             == Answer([], matching, aggregations)
    ensures var step := Enrich(m, priceFeed, discovery);
            && !step.logged
            && (m.output.value.text.None? ==> step.reply == Crash && step.message == m)
            && (m.output.value.text.Some? ==>
                  var lines := m.output.value.text.value;
                  var lines' := step.message.output.value.text;
                  && step.reply == Sent
                  && lines'.Some? && |lines'.value| == |lines| + 1
                  && lines'.value[..|lines|] == lines
                  && lines'.value[|lines|] == FALLBACK)
  {
    if m.output.value.text.Some? {
      var lines := m.output.value.text.value;
      assert (lines + [FALLBACK])[..|lines|] == lines;
    }
  }

  /** The article handler throws on a result list of one to four documents. */
  lemma FewArticlesCrash(m: Message, priceFeed: string -> PriceReply, discovery: Query -> QueryReply,
                         results: seq<Document>, matching: nat, aggregations: Option<Aggregations>)
    requires RouteOf(m).Handle? && RouteOf(m).handler == ArticleHandler
    requires discovery(ArticleQuery(RouteOf(m).asset)) == Answer(results, matching, aggregations)
    requires 0 < |results| < 5
    ensures Enrich(m, priceFeed, discovery).reply == Crash
  {
  }

  /**
    With five results or more the response is sent. Its text is what
    `replaceParams` makes of it: undefined stays undefined, and a list
    becomes the one joined line with `{2k}` and `{2k+1}` standing for the
    title and URL of the k-th document, k < 5.
  */
  lemma ArticlesSubstituted(m: Message, priceFeed: string -> PriceReply, discovery: Query -> QueryReply,
                            results: seq<Document>, matching: nat, aggregations: Option<Aggregations>)
    requires RouteOf(m).Handle? && RouteOf(m).handler == ArticleHandler
    requires discovery(ArticleQuery(RouteOf(m).asset)) == Answer(results, matching, aggregations)
    requires |results| >= 5
    ensures var step := Enrich(m, priceFeed, discovery);
            var params := ArticleParams(results);
            && step.reply == Sent && !step.logged
            && step.message.output.value.text == ReplaceParams(m.output.value.text, Some(params))
            && (m.output.value.text.Some? ==>
                  step.message.output.value.text == Some([Expand(Join(m.output.value.text.value), params)]))
            && Pairs(params) == results[..5]
  {
    ArticleParamsRoundTrip(results);
  }

  /**
    A sentiment answer whose aggregations are missing, or whose term
    count runs past the buckets, throws; otherwise the four parameters
    are the label of the average score, the number of matches, and the
    last positive and last negative counts among the first `count` buckets.
  */
  lemma SentimentSubstituted(m: Message, priceFeed: string -> PriceReply, discovery: Query -> QueryReply,
                             results: seq<Document>, matching: nat, aggregations: Option<Aggregations>)
    requires RouteOf(m).Handle? && RouteOf(m).handler == SentimentHandler
    requires discovery(SentimentQuery(RouteOf(m).asset)) == Answer(results, matching, aggregations)
    requires |results| > 0
    ensures var step := Enrich(m, priceFeed, discovery);
            && !step.logged
            && (aggregations.None? || aggregations.value.termCount > |aggregations.value.terms| ==> step.reply == Crash)
            && (aggregations.Some? && aggregations.value.termCount <= |aggregations.value.terms| ==>
                  var aggs := aggregations.value;
                  var terms := aggs.terms[..aggs.termCount];
                  var params := [SentimentLabel(aggs.average), Decimal(matching),
                                 Decimal(LastCount(terms, "positive")), Decimal(LastCount(terms, "negative"))];
                  && step.reply == Sent
                  && step.message.output.value.text == ReplaceParams(m.output.value.text, Some(params)))
  {
  }

  /**
    The price handler: with a price the text becomes the joined line with
    `{0}` the price and `{1}` the signed change; without one the text is
    untouched. Either way the response is logged and sent. An empty list
    or an unparsable body throws, a transport error leaves the request
    unanswered.
  */
  lemma PriceHandled(m: Message, priceFeed: string -> PriceReply, discovery: Query -> QueryReply)
    requires RouteOf(m).Handle? && RouteOf(m).handler == PriceHandler
    ensures var step := Enrich(m, priceFeed, discovery);
            var feed := priceFeed(PriceUrl(Some(RouteOf(m).asset)).value);
            && (feed.TransportError? ==> step.reply == NoReply && step.message == m)
            && (feed.Unparsable? || feed == Quotes([]) ==> step.reply == Crash && step.message == m)
            && (feed.Quotes? && |feed.quotes| > 0 ==>
                  var q := feed.quotes[0];
                  && step.reply == Sent && step.logged
                  && (q.priceUsd.None? ==> step.message == m)
                  && (q.priceUsd.Some? ==>
                        step.message.output.value.text
                        == ReplaceParams(m.output.value.text, Some([q.priceUsd.value.text, ChangeText(q.percentChange24h)]))))
  {
  }

  /**
    A one-line template "a{0}b{1}" with brace-free a and b reads
    "a" + price + "b" + "up "/"down " + change after a price reply.
  */
  lemma PriceTemplate(m: Message, priceFeed: string -> PriceReply, discovery: Query -> QueryReply,
                      a: string, b: string, price: Figure, change: Figure)
    requires RouteOf(m).Handle? && RouteOf(m).handler == PriceHandler
    requires m.output.value.text == Some([a + "{0}" + b + "{1}"]) && NoBrace(a) && NoBrace(b)
    requires var feed := priceFeed(PriceUrl(Some(RouteOf(m).asset)).value);
             feed.Quotes? && |feed.quotes| > 0 && feed.quotes[0] == Quote(Some(price), change)
    ensures var step := Enrich(m, priceFeed, discovery);
            && step.message.output.value.text == Some([a + price.text + b + ChangeText(change)])
            && step.logged && step.reply == Sent
  {
    var line := a + "{0}" + b + "{1}";
    assert Join([line]) == line;
    ExpandTwoPlaceholders(a, b, [price.text, ChangeText(change)]);
  }

  /**
    A worked exchange: "BTC" with the price intent and the
    template "Price is {0} and change is {1}" fetches the bitcoin ticker;
    a price of 8000 with a change of 5 gives
    "Price is 8000 and change is up 5", logged and sent.
  */
  lemma BitcoinPriceExchange(m: Message, priceFeed: string -> PriceReply, discovery: Query -> QueryReply,
                             url: string, template: string)
    requires url == "https://api.coinmarketcap.com/v1/ticker/bitcoin/?convert=USD"
    requires template == "Price is {0} and change is {1}"
    requires m.context == Some(Context(Some("BTC")))
    requires m.intents == Some([Intent("price", 0.97)])
    requires m.output == Some(Output(Some([template])))
    requires priceFeed(url) == Quotes([Quote(Some(Figure("8000", 8000.0)), Figure("5", 5.0))])
    ensures var step := Enrich(m, priceFeed, discovery);
            && step.call == Some(PriceRequest(url))
            && step.message.output == Some(Output(Some(["Price is 8000 and change is up 5"])))
            && step.logged && step.reply == Sent
  {
    BitcoinRoute(m, url);
    var a, b := SplitPriceTemplate(template);
    PriceTemplate(m, priceFeed, discovery, a, b, Figure("8000", 8000.0), Figure("5", 5.0));
    BitcoinAnswer(a, b);
    CallFollowsRoute(m, priceFeed, discovery);
  }

  /** The filled-in price template of that exchange. */
  lemma BitcoinAnswer(a: string, b: string)
    requires a == "Price is " && b == " and change is "
    ensures a + "8000" + b + ChangeText(Figure("5", 5.0)) == "Price is 8000 and change is up 5"
  {
    assert ChangeText(Figure("5", 5.0)) == "up 5";
  }

  /** "BTC" with the price intent is routed to the price handler on the bitcoin ticker URL. */
  lemma BitcoinRoute(m: Message, url: string)
    requires url == "https://api.coinmarketcap.com/v1/ticker/bitcoin/?convert=USD"
    requires m.context == Some(Context(Some("BTC")))
    requires m.intents == Some([Intent("price", 0.97)])
    requires m.output.Some?
    ensures RouteOf(m) == Handle(PriceHandler, "bitcoin")
    ensures PriceUrl(Some("bitcoin")).value == url
  {
    assert PRICE_URL_PREFIX + "bitcoin" + PRICE_URL_SUFFIX == url;
  }

  // ---------------------------------------------------------------------
  // The step on the mutable response
  // ---------------------------------------------------------------------

  /**
    The dialog engine's response object. Only `output` is ever assigned;
    the other properties are read.
  */
  class DialogResponse {
    const intents: Option<seq<Intent>>
    const entities: Option<seq<Entity>>
    const context: Option<Context>
    var output: Option<Output>

    constructor (m: Message)
      ensures Snapshot() == m
    {
      intents := m.intents;
      entities := m.entities;
      context := m.context;
      output := m.output;
    }

    /** The object's current value, as `res.json` would serialize it. */
    function Snapshot(): (m: Message)
      reads this
      ensures m.output == output && m.intents == intents && m.context == context && m.entities == entities
    {
      Message(intents, entities, context, output)
    }
  }

  /**
    `updateMessage(res, input, response)`: updates `response` in place,
    inserts the logged record when the log is open, and returns how the
    request ends and which service was called. The new state and the
    outcome are those of `Enrich` on the response as it was.
  */
  method UpdateMessage(response: DialogResponse, input: Payload,
                       priceFeed: string -> PriceReply, discovery: Query -> QueryReply,
                       logs: AuditLog, id: string, now: int)
    returns (reply: Reply, call: Option<Call>)
    modifies response, logs
    ensures var step := Enrich(old(response.Snapshot()), priceFeed, discovery);
            && response.Snapshot() == step.message
            && reply == step.reply && call == step.call
            && logs.ready == old(logs.ready)
            && logs.records == if step.logged && old(logs.ready)
                               then old(logs.records) + [Record(id, input, step.message, now)]
                               else old(logs.records)
  {
    var m := response.Snapshot();
    call := None;
    if response.output.None? {
      response.output := Some(Output(None));
      return NoReply, call;
    }
    if !CheckCurrency(m) {
      reply := if response.output.value.text.Some? then Sent else NoReply;
      return;
    }
    var asset := Normalize(response.context.value.currency.value);
    if CheckPrice(m) {
      var url := PriceUrl(Some(asset)).value;
      call := Some(PriceRequest(url));
      match priceFeed(url)
      case TransportError =>
        return NoReply, call;
      case Unparsable =>
        return Crash, call;
      case Quotes(quotes) =>
        if |quotes| == 0 {
          return Crash, call;
        }
        var params := PriceParams(quotes[0]);
        if params.Some? {
          response.output := Some(Output(ReplaceParams(response.output.value.text, params)));
        }
        logs.Log(id, input, response.Snapshot(), now);
        return Sent, call;
    } else if CheckSentiment(m) {
      var query := SentimentQuery(asset);
      call := Some(SearchRequest(query));
      match discovery(query)
      case QueryError(code) =>
        return ErrorStatus(ErrorCode(code)), call;
      case Answer(results, matching, aggregations) =>
        if |results| == 0 {
          reply := AppendFallback(response);
          return;
        }
        if aggregations.None? {
          return Crash, call;
        }
        var aggs := aggregations.value;
        var pos, neg, complete := CountLabels(aggs.terms, aggs.termCount);
        if !complete {
          return Crash, call;
        }
        var params := SentimentParams(SentimentLabel(aggs.average), matching, pos, neg);
        response.output := Some(Output(ReplaceParams(response.output.value.text, Some(params))));
        return Sent, call;
    } else if CheckArticle(m) {
      var query := ArticleQuery(asset);
      call := Some(SearchRequest(query));
      match discovery(query)
      case QueryError(code) =>
        return ErrorStatus(ErrorCode(code)), call;
      case Answer(results, _, _) =>
        if |results| == 0 {
          reply := AppendFallback(response);
          return;
        }
        if |results| < 5 {
          return Crash, call;
        }
        response.output := Some(Output(ReplaceParams(response.output.value.text, Some(ArticleParams(results)))));
        return Sent, call;
    } else {
      reply := if response.output.value.text.Some? then Sent else NoReply;
    }
  }

  /** `response.output.text.push(FALLBACK)` on the object, or the TypeError when there is no text. */
  method AppendFallback(response: DialogResponse) returns (reply: Reply)
    requires response.output.Some?
    modifies response
    ensures var step := FallbackStep(old(response.Snapshot()), None);
            response.Snapshot() == step.message && reply == step.reply
  {
    if response.output.value.text.None? {
      return Crash;
    }
    response.output := Some(Output(Some(response.output.value.text.value + [FALLBACK])));
    return Sent;
  }
}
