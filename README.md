# CryptoSense: the enrichment step, modelled in Dafny

CryptoSense is a chat bot about crypto-currencies. Its server, `app.js`,
forwards each user message to a dialog engine. Before it answers, it
*enriches* the engine's response: when the dialog has set a currency in
the context and the top intent is `price`, `sentiment` or
`view_articles`, it fetches the ticker from a price feed, or queries a
news search service. It then fills the numbered placeholders `{0}`,
`{1}`, ... of the dialog's output text with what it found. An optional
log store records the price answers, and can be exported as a CSV table.

This project models that step and proves what it does:

- `optional.dfy`: the Option type used for JavaScript's absent values.
- `template.dfy`: `replaceParams`. The output lines are joined with one
  space and scanned for `/{(\d+)}/g`. Each match is replaced by the array
  entry it names when that entry is defined. `Tokens` is the scan,
  `Render` the replacement, and `Raw` the inverse of the scan.
- `currency.dfy`: the ticker table and `getPriceURL`.
- `messages.dfy`: the dialog response, the `check*` predicates and the
  routing decision.
- `enrichment.dfy`: the three handlers' post-processing.
  - The price parameters with their "up"/"down" prefix.
  - The five sentiment labels.
  - The loop that picks the positive and negative counts.
  - The flattened article list.
- `audit.dfy`: the log store as a class, the CSV comparator, the row
  builder and the export loop.
- `dispatcher.dfy`: `updateMessage`, in two forms.
  - `Enrich` is the step as a function of the response and the two
    services.
  - `UpdateMessage` is the step on a mutable `DialogResponse` object and
    the `AuditLog`. It is proved to leave the response, the reply and
    the log exactly as `Enrich` says.

The services are function parameters: `priceFeed` from URL to reply, and
`discovery` from query to answer. The uuid and the clock reading of a log
record are plain parameters. How a request ends is a `Reply`:

- `Sent`: the response was sent.
- `NoReply`: nothing is ever written.
- `ErrorStatus`: the search error's status was sent.
- `Crash`: a TypeError or SyntaxError was thrown in a callback.

Three places where `app.js` does something a reader may not expect; the
model follows `app.js`:

- `replaceParams` on an empty list of lines returns `[""]`, not the empty
  list, because an empty JavaScript array is truthy.
- A missing output becomes `{}`, with no text at all.
- A price-feed body that does not parse throws inside the `end` callback.
  That is `Crash`, not an unanswered request. Only the request's `error`
  event leaves the request unanswered.

## Model

| member | source | states |
|---|---|---|
| Template.Decimal | app.js:421 | A natural number prints as a canonical numeral: digits only, with a leading '0' exactly for zero |
| Template.ValueOfDecimal | app.js:421 | Reading a printed index back gives the index |
| Template.DecimalOfValue | app.js:421 | Every canonical numeral is the printed form of its value |
| Template.CanonicalIffDecimal | app.js:421 | The property names that are array indices are exactly the canonical numerals |
| Template.Lookup | app.js:421-424 | `args[key]` is defined iff key prints an index below the length, and is then that entry (so `args["01"]` is undefined) |
| Template.JoinAppend | app.js:420 | `Join` is `join(' ')`: appending a line to a non-empty list appends one space and that line |
| Template.JoinNoBrace | app.js:420 | `join(' ')` adds only spaces: brace-free lines join to a brace-free line |
| Template.DigitRun | app.js:420 | The greedy `\d+`: a run of digits that no digit follows |
| Template.MatchLength | app.js:420 | A match at the start is '{', one or more digits, '}', and every such prefix is found, with the length up to its first '}'; 0 when there is none |
| Template.TokensPlaceholdersAreDigits | app.js:420 | Every placeholder the scan finds holds a non-empty digit string |
| Template.TokensRoundTrip | app.js:420 | The scan `Tokens` loses and adds nothing: `Raw` of its pieces spells the line back |
| Template.TokensConcat | app.js:420 | A match never spans a character that is neither a digit nor '}' |
| Template.RenderConcat | app.js:420-425 | `Render` replaces each piece on its own, independently of its neighbours |
| Template.ExpandConcat | app.js:420-425 | Substitution distributes over a split before such a character |
| Template.ExpandPlaceholder | app.js:420-425 | In `Expand`, the scan followed by the callback, `{n}` becomes `args[n]` when n is below the length and stays literal otherwise; the rest is substituted on its own |
| Template.RenderUnbound | app.js:421-423 | Placeholders without a defined entry render as their raw text |
| Template.ExpandUnbound | app.js:421-423 | A line whose placeholders are all unbound comes back unchanged |
| Template.ExpandNoArgs | app.js:420-425 | With no arguments the line comes back unchanged |
| Template.ExpandNoBrace | app.js:420 | A line without '{' comes back unchanged whatever the arguments |
| Template.ReplaceParams | app.js:418-429 | Both present: exactly one line; either one absent: the original comes back |
| Template.ReplaceParamsAbsent | app.js:419-428 | Absent lines or absent arguments give the original unchanged |
| Template.ReplaceParamsCollapses | app.js:419-426 | Brace-free lines collapse to their single joined line |
| Template.ReplaceParamsNoArgs | app.js:419-426 | An empty argument list only joins the lines |
| Template.LeadingZeroKept | app.js:421-423 | `{01}` is no array index and stays literal |
| Template.ExpandTwoPlaceholders | app.js:420-425 | In "a{0}b{1}" with brace-free a and b, both placeholders are replaced in order |
| Template.ReplaceParamsExample | app.js:418-429 | "Price is {0} and change is {1}" with ["100.5", "up 3.2"] gives "Price is 100.5 and change is up 3.2" |
| Template.ReplacementNotRescanned | app.js:420-425 | "{{0}}" with ["1", "x"] gives "{1}": the replacement is not scanned again |
| Currency.Normalize | app.js:114-125 | A listed ticker maps to its slug; every other string maps to itself |
| Currency.NormalizeIdempotent | app.js:114-125 | Normalizing twice is normalizing once |
| Currency.NormalizeCaseSensitive | app.js:114-125 | "btc" is left alone while "BTC" becomes "bitcoin" |
| Currency.PriceUrl | app.js:431-435 | Undefined exactly for a null coin; otherwise it starts with the fixed prefix, ends with the fixed suffix, and has room for exactly the coin between them |
| Currency.PriceUrlRoundTrip | app.js:433 | The coin is read back from between the prefix and the suffix |
| Currency.PriceUrlInjective | app.js:431-435 | Different coins give different URLs |
| Messages.TopIntent | app.js:406-416 | Defined iff intents is present and non-empty, and is then `intents[0].intent` |
| Messages.RouteOf | app.js:111-300 | Defaults the output iff it is missing; a handler runs only with a currency, on its normalized asset, and is the table entry of the top intent |
| Messages.CheckCurrency | app.js:401-404 | True iff the context is present and its currency is neither null nor undefined |
| Messages.CheckPrice | app.js:406-408 | True iff intents is present, non-empty, and its first intent is 'price' |
| Messages.CheckSentiment | app.js:410-412 | True iff intents is present, non-empty, and its first intent is 'sentiment' |
| Messages.CheckArticle | app.js:414-416 | True iff intents is present, non-empty, and its first intent is 'view_articles' |
| Messages.IntentChecksExclusive | app.js:406-416 | At most one intent check holds, and each holds iff the top intent names its handler in the table |
| Messages.NoIntentsNoHandler | app.js:406-416 | An absent or empty intents list makes all three intent checks false |
| Messages.GuardsDisableHandlers | app.js:111-300 | Without output or without currency no handler is chosen |
| Messages.RouteIsTableLookup | app.js:127-296 | With output and currency, the handler is the table entry of the top intent, or the response passes through |
| Messages.RouteUsesTopIntentOnly | app.js:401-416 | Routing reads only whether there is an output, the context and the top intent |
| Enrichment.ChangeText | app.js:147-158 | Exactly the printed change after "down " when it is negative and after "up " otherwise, with nothing in between |
| Enrichment.PriceParams | app.js:139-160 | Parameters exist iff `price_usd` is truthy, and are then [price, signed change] |
| Enrichment.SentimentQuery | app.js:177-185 | The sentiment query searches the asset in the last day's documents of relevance at least .8, with the average-score and label-term aggregation, no fields and a count of 3 |
| Enrichment.ArticleQuery | app.js:249-257 | The article query searches the asset with the same filter, the title and URL fields, no aggregation and a count of 5 |
| Enrichment.SentimentLabel | app.js:202-218 | One of the five labels; "neutral" iff the score is exactly 0 |
| Enrichment.SentimentBuckets | app.js:202-218 | Above 0.3, (0, 0.3], 0, [-0.3, 0) and below -0.3 pick the five labels |
| Enrichment.SentimentMonotone | app.js:202-218 | A higher score never gets a lower label |
| Enrichment.SentimentSign | app.js:202-218 | The label is on the positive or negative side iff the score is |
| Enrichment.LastCount | app.js:219-226 | 0 when no bucket has the key |
| Enrichment.LastCountIsLastMatch | app.js:219-226 | The last bucket with the key wins |
| Enrichment.CountLabels | app.js:192-226 | The loop succeeds iff count does not exceed the buckets; pos and neg are then the last positive and negative counts, 0 by default |
| Enrichment.SentimentParams | app.js:228-231 | [label, matches, pos, neg], the numbers printed as JavaScript prints them |
| Enrichment.ArticleParams | app.js:271-281 | Ten parameters: title and URL of document k at 2k and 2k+1 |
| Enrichment.ArticleParamsRoundTrip | app.js:271-281 | The flattened list reads back as the first five documents |
| Audit.AuditLog.constructor | app.js:43 | The log handle starts unset, with no records |
| Audit.AuditLog.Open | app.js:322-332 | Setting the handle keeps the records |
| Audit.AuditLog.Log | app.js:303-309 | One record is appended iff the handle is set; nothing else changes |
| Audit.AuditLog.Clear | app.js:335-342 | Clearing empties the store and sets the handle |
| Audit.CompareRows | app.js:351-364 | Ascending by time with 1/0/-1 when both rows have documents, else 0 |
| Audit.CompareAntisymmetric | app.js:351-364 | Swapping the rows negates the result |
| Audit.CompareTransitive | app.js:351-364 | Among rows with documents the order is transitive |
| Audit.MissingDocBreaksOrder | app.js:351-364 | A row without a document ties with rows that are themselves ordered |
| Audit.RowLine | app.js:365-394 | Every cell of the row: '' and 0 without a document, or without a response; without a request the question is ''; with a response the first intent and its confidence or '<no intent>' and 0, the first entity as "entity : value" or '<no entity>', the joined output text or '<no dialog>'; and the document's question and time |
| Audit.RecordLine | app.js:372-392 | A logged record shows its question, "entity : value" and its joined output |
| Audit.SubstitutedOutputCell | app.js:388-390 | The output cell of a substituted response is the substituted line |
| Audit.Export | app.js:349-395 | The header, then one line per row in the order given |
| Dispatcher.ErrorCode | app.js:190 | A present error code is kept; a missing (zero) one becomes exactly 500 |
| Dispatcher.PriceStep | app.js:136-169 | Calls the ticker URL; logs and replies iff the feed gave a non-empty list; otherwise the response is untouched |
| Dispatcher.FallbackStep | app.js:235 | Appending the fallback line replies, or throws when there is no text |
| Dispatcher.SentimentStep | app.js:177-238 | One search query and no log; a search error replies with its status and leaves the response alone |
| Dispatcher.ArticleStep | app.js:249-289 | As the sentiment step, and one to four results throw |
| Dispatcher.Enrich | app.js:110-301 | A service is called iff a handler runs; a logged step always replies |
| Dispatcher.MissingOutputDefaulted | app.js:111-112 | A missing output becomes `{}`: no call, no log, no reply |
| Dispatcher.NoCurrencyPassesThrough | app.js:298-300 | Without a currency the response is unchanged and is sent iff it has text; no call, no log |
| Dispatcher.UnknownIntentPassesThrough | app.js:294-296 | An intent outside the table leaves the response unchanged, with no call and no log; it is sent iff it has text, and otherwise the request is never answered |
| Dispatcher.CallFollowsRoute | app.js:128-291 | At most one service is called, and it is the one the route names, on the normalized asset |
| Dispatcher.OnlyPriceLogs | app.js:136-164 | `log` runs iff the price handler got a non-empty list, and then the response is sent |
| Dispatcher.OnlyOutputChanges | app.js:110-301 | Only `output` is written: intents, entities and context are kept, and an output exists afterwards |
| Dispatcher.UnrepliedResponseUnchanged | app.js:110-301 | A step that does not send the response leaves an existing output as it was |
| Dispatcher.SearchErrorStatus | app.js:187-191 | A search error replies with its code, or 500 without one, and changes nothing |
| Dispatcher.NoResultsAppendFallback | app.js:234-236 | No results: the earlier lines are kept and the fallback line is appended, or the push throws without text |
| Dispatcher.FewArticlesCrash | app.js:269-281 | One to four article results throw |
| Dispatcher.ArticlesSubstituted | app.js:269-289 | Five or more results send the response without logging, its text being `replaceParams` of the old text with the flattened list: an undefined text stays undefined, and a list becomes the joined line filled with the list, which reads back as the first five documents |
| Dispatcher.SentimentSubstituted | app.js:197-233 | Missing aggregations or a count past the buckets throw; otherwise label, matches, last pos and last neg are substituted |
| Dispatcher.PriceHandled | app.js:131-169 | A transport error leaves the request unanswered; a bad body or empty list throws; otherwise the response is logged and sent, substituted iff there is a price |
| Dispatcher.PriceTemplate | app.js:139-161 | "a{0}b{1}" becomes a + price + b + signed change |
| Dispatcher.BitcoinPriceExchange | app.js:110-164 | BTC, the price intent and "Price is {0} and change is {1}" with 8000 and 5 give "Price is 8000 and change is up 5", logged and sent |
| Dispatcher.DialogResponse.constructor | app.js:110 | The mutable response object holds exactly the dialog response it is built from |
| Dispatcher.DialogResponse.Snapshot | app.js:110-301 | The value `res.json` would send: every field of the object as it is now |
| Dispatcher.AppendFallback | app.js:235 | On the object: the same reply and new response as the fallback step |
| Dispatcher.UpdateMessage | app.js:110-301 | On the objects: the new response, reply and call are those of `Enrich`, and the log store gains the record iff the step logs while the handle is set |

## Left out

- The Express application: routes, body parsing, static files and basic
  auth (app.js:20-66, 345). This is framework plumbing.
- The `/api/message` handler around `updateMessage`: the WORKSPACE_ID
  message, the payload it builds and the dialog engine call with its own
  `err.code || 500` (app.js:68-101). It is plumbing around the modelled
  step; the payload is a parameter of `UpdateMessage`.
- The network, `JSON.parse` and the search SDK (app.js:131-169, 177-240,
  249-291). They are I/O. Their outcomes are the values `PriceReply` and
  `QueryReply`, given by the parameters `priceFeed` and `discovery`.
- Console logging of failures. It has no effect on the response.
- Float formatting. The `parseFloat(x + '')` round trip is not computed:
  a feed number is a `Figure` that carries its printed text and its exact
  value.
- The sentiment thresholds are compared on exact reals, not on IEEE
  doubles.
- Template.Decimal: prints every natural in plain digits. JavaScript uses
  exponent notation from 10^21 on, so counts that large are not modelled.
- Values the source could meet as `undefined` are modelled as always
  present. The model does not capture what `app.js` does when each of
  them is missing:
  - a document's title or URL;
  - `matching_results`;
  - `percent_change_24h`;
  - the search answer's `results`, whose `.length` would throw
    (app.js:197, 269);
  - the average score `aggregations[0].value`: both comparisons would be
    false and the label "neutral" (app.js:202-218);
  - the term count `aggregations[1].count`: the loop would run zero
    times, leaving pos and neg at 0 (app.js:219);
  - a stored document's `time`: `getTime()` would be NaN and the
    comparator would return -1 in both orders (app.js:353-362).

  Output text that is a single string rather than a list is not modelled
  either.
- A feed body that parses to a non-empty string is not modelled. Its
  element 0 is a character, which has no `price_usd`.
- `uuid.v4()` and `new Date()` are the parameters `id` and `now`.
  `toLocaleString` is not modelled: the time cell holds the milliseconds.
- The sort of the CSV rows is left out. Sorting in place is the engine's
  algorithm, and with rows lacking documents the comparator is no
  consistent order (`Audit.MissingDocBreaksOrder`). `Audit.Export` takes
  the rows in any order.
- Audit.AuditLog.Clear: sets the handle at once. The source re-creates the
  database in callbacks. One consequence is not modelled: an insert that
  runs between the destroy and the create goes to the old handle.
- The database creation at start-up and its errors (app.js:311-333) are
  reduced to `Open`. The credentials check that throws at start-up is not
  modelled.
- Concurrency between requests. Each step is modelled as atomic. The
  source's callbacks of different requests may interleave, but they
  share only the log store.
