/**
  The dialog engine's response as the enrichment step sees it, the intent
  predicates `checkCurrency`, `checkPrice`, `checkSentiment` and
  `checkArticle` (app.js:401-416), and the routing decision of
  `updateMessage` (app.js:110-301).
*/
module Messages {
  import opened Optional
  import Currency

  datatype Intent = Intent(intent: string, confidence: real)

  datatype Entity = Entity(entity: string, value: string)

  /** The conversation context; only `currency` is inspected (None: null or undefined). */
  datatype Context = Context(currency: Option<string>)

  /** `response.output`; `text` is None when the property is undefined. */
  datatype Output = Output(text: Option<seq<string>>)

  /** A value view of the dialog response (None: the property is absent). */
  datatype Message = Message(
    intents: Option<seq<Intent>>,
    entities: Option<seq<Entity>>,
    context: Option<Context>,
    output: Option<Output>)

  /** `intents[0].intent`, provided `intents` is present and non-empty. */
  function TopIntent(intents: Option<seq<Intent>>): (top: Option<string>)
    ensures top.Some? <==> intents.Some? && |intents.value| > 0
    ensures top.Some? ==> top.value == intents.value[0].intent
  {
    if intents.Some? && |intents.value| > 0 then Some(intents.value[0].intent) else None
  }

  /**
    `data.context && data.context.currency != null`: the loose `!=` makes an
    undefined currency count as null.
  */
  function CheckCurrency(m: Message): (b: bool)
    ensures b <==> m.context.Some? && m.context.value.currency.Some?
  {
    m.context.Some? && m.context.value.currency.Some?
  }

  /**
    The price check: the response lists at least one intent and the first,
    the dialog's best guess, is the price question.
  */
  function CheckPrice(m: Message): (b: bool)
    ensures b <==> m.intents.Some? && |m.intents.value| > 0 && m.intents.value[0].intent == "price"
  {
    TopIntent(m.intents) == Some("price")
  }

  /** The same test for 'sentiment'. */
  function CheckSentiment(m: Message): (b: bool)
    ensures b <==> m.intents.Some? && |m.intents.value| > 0 && m.intents.value[0].intent == "sentiment"
  {
    TopIntent(m.intents) == Some("sentiment")
  }

  /** The same test for 'view_articles'. */
  function CheckArticle(m: Message): (b: bool)
    ensures b <==> m.intents.Some? && |m.intents.value| > 0 && m.intents.value[0].intent == "view_articles"
  {
    TopIntent(m.intents) == Some("view_articles")
  }

  /** The three enrichment handlers. */
  datatype Handler = PriceHandler | SentimentHandler | ArticleHandler

  /** The same routing written as a table from the top intent to its handler. */
  const HANDLERS: map<string, Handler> := map[
    "price" := PriceHandler,
    "sentiment" := SentimentHandler,
    "view_articles" := ArticleHandler
  ]

  /**
    Which way `updateMessage` goes: default the missing output, run one handler
    on the normalized asset, or pass the response through.
  */
  datatype Route = DefaultOutput | Handle(handler: Handler, asset: string) | PassThrough

  /** The if-else chain of app.js:111-300. */
  function RouteOf(m: Message): (r: Route)
    ensures r.DefaultOutput? <==> m.output.None?
    ensures r.Handle? ==> CheckCurrency(m) && r.asset == Currency.Normalize(m.context.value.currency.value)
    ensures r.Handle? ==> TopIntent(m.intents).Some? && TopIntent(m.intents).value in HANDLERS
                          && HANDLERS[TopIntent(m.intents).value] == r.handler
  {
    if m.output.None? then DefaultOutput
    else if CheckCurrency(m) then
      var asset := Currency.Normalize(m.context.value.currency.value);
      if CheckPrice(m) then Handle(PriceHandler, asset)
      else if CheckSentiment(m) then Handle(SentimentHandler, asset)
      else if CheckArticle(m) then Handle(ArticleHandler, asset)
      else PassThrough
    else PassThrough
  }

  /** An absent or empty intents list makes all three intent predicates false. */
  lemma NoIntentsNoHandler(m: Message)
    requires m.intents.None? || m.intents.value == []
    ensures !CheckPrice(m) && !CheckSentiment(m) && !CheckArticle(m)
    ensures RouteOf(m).Handle? == false
  {
  }

  /**
    The intent checks read only the first intent, so at most one of them
    holds, and each holds exactly when its intent names its handler in the table.
  */
  lemma IntentChecksExclusive(m: Message)
    ensures !(CheckPrice(m) && CheckSentiment(m)) && !(CheckPrice(m) && CheckArticle(m))
    ensures !(CheckSentiment(m) && CheckArticle(m))
    ensures CheckPrice(m) <==> TopIntent(m.intents).Some? && TopIntent(m.intents).value in HANDLERS
                               && HANDLERS[TopIntent(m.intents).value] == PriceHandler
    ensures CheckSentiment(m) <==> TopIntent(m.intents).Some? && TopIntent(m.intents).value in HANDLERS
                                   && HANDLERS[TopIntent(m.intents).value] == SentimentHandler
    ensures CheckArticle(m) <==> TopIntent(m.intents).Some? && TopIntent(m.intents).value in HANDLERS
                                 && HANDLERS[TopIntent(m.intents).value] == ArticleHandler
  {
  }

  /** Without the output or without a currency no handler runs. */
  lemma GuardsDisableHandlers(m: Message)
    requires m.output.None? || !CheckCurrency(m)
    ensures RouteOf(m) == if m.output.None? then DefaultOutput else PassThrough
  {
  }

  /**
    The chain of predicates agrees with the table: with an output and a
    currency, the top intent alone picks the handler, and the asset is the
    normalized currency.
  */
  lemma RouteIsTableLookup(m: Message)
    requires m.output.Some? && CheckCurrency(m)
    ensures var top := TopIntent(m.intents);
            var asset := Currency.Normalize(m.context.value.currency.value);
            RouteOf(m) == if top.Some? && top.value in HANDLERS then Handle(HANDLERS[top.value], asset) else PassThrough
  {
  }

  /** Routing reads nothing of the response but the output's presence, the currency and the top intent. */
  lemma RouteUsesTopIntentOnly(m1: Message, m2: Message)
    requires m1.output.Some? == m2.output.Some?
    requires m1.context == m2.context
    requires TopIntent(m1.intents) == TopIntent(m2.intents)
    ensures RouteOf(m1) == RouteOf(m2)
  {
  }
}
