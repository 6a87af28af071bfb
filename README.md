# Finance dashboard front end: data-access core in Dafny

This project models the data-access layer of a stock-dashboard web front end and proves properties
of it:

- **The request gateway** (`src/services/api.ts`). It builds a dedup key from method, url and
  params, and keeps a module-wide table of in-flight requests, each valid for 5 s. Its retry loop
  is driven by HTTP status, with a Retry-After header or an exponential backoff capped at 15 s,
  and it unwraps the `{data: …}` envelope. `Gateway.RequestGateway` holds the table and the
  requests issued so far. `Gateway.RunRequest` is the specification of one request's retry loop,
  and `Gateway.RetryLoop` is the loop itself.
- **The stock service** (`src/services/stockService.ts`). It covers the quote fetch and the two
  history fetches with their module-wide fallback cache of non-empty series. The model is
  `StockService.StockService`, specified by the function `StockService.Absorb`.
- **The quote subscription hooks**:
  - `src/hooks/useWebSocketQuote.ts`: the lazily created shared socket (`QuoteStream.SocketHub`),
    the socket's emitted frames and registered handlers (`QuoteStream.Socket`), and one consumer
    per hook activation (`QuoteStream.QuoteConsumer`).
  - `src/hooks/useStockSocket.ts`: the hook's own socket, its per-symbol quote record, and its
    connection and error state (`StockSocket.StockSocketHook`).
- **The widget store** (`src/store/widgetStore.ts`). The widget type normaliser and every store
  action live on `WidgetStore.Store`. The store's fields are the widgets, the layout and the
  hydration flag, plus the log of storage writes.
- **Dotted-path field access** and the per-type default field lists (`src/utils/apiSchema.ts`).
- **The table widget's pure logic** (`src/components/widgets/TableWidget.tsx`). This is symbol
  normalisation, the split of settled quote results into rows and failures with the error banner
  text, and the search filter.

JavaScript values are modelled by `Json.Value`. Property reads that may throw are modelled by
`Json.Get`. ASCII case mapping, JavaScript whitespace, `split`, `trim` and `join` are in `Text`.
Order-preserving filters, subsequences and first-occurrence deduplication are in `Seqs`.
`Wrappers` holds `Option` and `Result`.

The network is a function from call index to the outcome of that call: `Ok(body)`,
`Http(status, parsed Retry-After, message)` or `NoResponse(message)`. The clock (`now`), widget ids
and creation times are parameters. Waits are returned as durations, and storage writes are
appended to a log.

## Model

| member | source | states |
|---|---|---|
| Gateway.CacheKey | src/services/api.ts:34-36 | the key is `method:url:` followed by the JSON text of the params |
| Gateway.KeyIgnoresBody | src/services/api.ts:34-36 | two configs that differ only in the body share a key |
| Gateway.KeyDeterminesRequest | src/services/api.ts:34-36 | for a colon-free method and url, equal keys mean equal method, url and param JSON |
| Gateway.KeyDependsOnParamOrder | src/services/api.ts:34-36 | the same params in another order give a different key |
| Gateway.Backoff | src/services/api.ts:78 | the wait is at most 15000 ms, and at least 4000 ms once the incremented attempt counter is 1 or more |
| Gateway.BackoffMonotone | src/services/api.ts:78 | the backoff never decreases as the attempt grows |
| Gateway.BackoffValues | src/services/api.ts:62-78 | the first backoff is 4000 ms, not 2000, then 8000 ms; from attempt 3 on it is 15000 ms |
| Gateway.Unwrap | src/services/api.ts:59 | when the body is an object whose `data` field is present and neither null nor undefined, the payload is that field; in every other case it is the body itself |
| Gateway.UnwrapEnvelope | src/services/api.ts:59 | unwrapping `{data: x}` gives `x` back unless `x` is nullish, in which case it gives the envelope |
| Gateway.UnwrapKeepsNonObjects | src/services/api.ts:59 | a body that is not an object is returned as it is |
| Gateway.Decide | src/services/api.ts:62-93 | a success finishes with the unwrapped body; a 429/502/503 or a missing response is retried, after the Retry-After or backoff wait, exactly when the incremented attempt is at most maxRetries; every other failure finishes with the call's own error |
| Gateway.RunFrom | src/services/api.ts:52-96 | the run from a given attempt makes at least one more call |
| Gateway.RunFromShape | src/services/api.ts:52-96 | calls are bounded by max(attempt, maxRetries)+1; every call before the last was a retry with the recorded wait; the last call decided the result |
| Gateway.RunRequestShape | src/services/api.ts:62-69 | one request makes between 1 and max(0, maxRetries)+1 calls, with one wait between consecutive calls |
| Gateway.WaitsFollowPolicy | src/services/api.ts:71-90 | each wait follows a 429/502/503 or a missing response; it is Retry-After·1000 when the header parsed, otherwise the backoff of the incremented counter, which lies within 4000..15000 |
| Gateway.RunResult | src/services/api.ts:57-93 | the request succeeds iff the last call succeeded, with its unwrapped body; otherwise it fails with the last call's error unchanged |
| Gateway.RetryableFailuresAreRetried | src/services/api.ts:66-90 | a retryable failure at call i with i+1 ≤ maxRetries is always followed by another call, after the wait the policy names; a success is always the last call |
| Gateway.NonRetryableStatusOneCall | src/services/api.ts:93 | any status other than 429, 502 and 503 is rethrown after exactly one call |
| Gateway.LimitCheckedBeforeStatus | src/services/api.ts:66-69 | with maxRetries ≤ 0 even a retryable failure is rethrown after one call |
| Gateway.NegativeRetryAfterIsUsed | src/services/api.ts:71-72 | a Retry-After of -3 is used as a -3000 ms wait; there is no positivity check |
| Gateway.ServiceUnavailableThenOk | src/services/api.ts:71-83 | a 503 with Retry-After 2 then a success gives two calls, one 2000 ms wait and the unwrapped body |
| Gateway.RetryLoop | src/services/api.ts:52-96 | the `while (true)` loop computes exactly the run `RunRequest` specifies |
| Gateway.RequestGateway.constructor | src/services/api.ts:32 | the in-flight table starts empty |
| Gateway.RequestGateway.Request | src/services/api.ts:43-103 | a live entry (expires > now) for the key is shared, with no new call and no change to the table; otherwise one new request is issued and stored under its key with expiry now+5000, replacing any stale entry |
| Gateway.TwoIdenticalRequests | src/services/api.ts:46-102 | two identical requests less than 5 s apart issue at most one new request between them, and they get the same id unless exactly one new request was issued |
| StockService.SourcesNeverShareKeys | src/services/stockService.ts:59-95 | an Alpha series key never equals a Finnhub series key |
| StockService.SeriesKeySameSource | src/services/stockService.ts:59-91 | within one source, two symbols share a cache entry iff they are equal ignoring ASCII case |
| StockService.QuoteResult | src/services/stockService.ts:28-41 | the payload is passed on; a failure is rethrown as "Failed to fetch quote for <symbol>: <message>" |
| StockService.Absorb | src/services/stockService.ts:54-72 | the cache stays non-empty-valued; only the requested key can change; a success from a valid cache is non-empty |
| StockService.FreshSeriesStored | src/services/stockService.ts:58-61 | a non-empty array is stored under the series key and returned as it is |
| StockService.EmptyResultReadsCache | src/services/stockService.ts:63-68 | an empty or non-array result leaves the cache unchanged and returns the cached series, or fails with "No historical data returned" |
| StockService.FailurePropagates | src/services/stockService.ts:69-72 | a gateway failure is re-wrapped with the symbol and does not touch the cache |
| StockService.FallbackIdempotent | src/services/stockService.ts:63-66 | repeating an empty fetch of a cached series returns that series and changes nothing |
| StockService.StockService.constructor | src/services/stockService.ts:21 | the history cache starts empty |
| StockService.StockService.FetchStockQuote | src/services/stockService.ts:28-41 | a live in-flight entry for the quote key is shared: the gateway is unchanged and the result is `QuoteResult` of that earlier request; otherwise exactly one request with one retry is issued and stored for 5 s, and the result is `QuoteResult` of its run |
| StockService.StockService.FetchHistory | src/services/stockService.ts:47-105 | as for quotes, either the live request for the series key is shared or exactly one new request is issued and stored; the new result and cache are `Absorb` of the old cache and that request's outcome |
| QuoteStream.MatchesIgnoresCase | src/hooks/useWebSocketQuote.ts:64 | a quote matches a consumer regardless of the case of either symbol |
| QuoteStream.Socket.constructor | src/hooks/useWebSocketQuote.ts:34-39 | a new socket is disconnected, has no handlers and has emitted nothing |
| QuoteStream.Socket.ReceiveQuote | src/hooks/useWebSocketQuote.ts:62-81 | every registered consumer whose symbol matches ignoring case gets the quote and a cleared error; the others keep their state; the provider is not compared |
| QuoteStream.Socket.ReceiveConnect | src/hooks/useWebSocketQuote.ts:70-82 | the socket and every connect listener become connected; nothing else of theirs changes |
| QuoteStream.Socket.ReceiveDisconnect | src/hooks/useWebSocketQuote.ts:75-83 | the socket and every disconnect listener become disconnected; nothing else of theirs changes |
| QuoteStream.SocketHub.GetSocket | src/hooks/useWebSocketQuote.ts:29-42 | a socket is created only when none exists; later calls return the same one; the set of sockets ever opened only grows and holds just that one |
| QuoteStream.QuoteConsumer.constructor | src/hooks/useWebSocketQuote.ts:44-52 | the defaults are provider "alpha", enabled, interval 10000, and no quote, no error, not connected |
| QuoteStream.QuoteConsumer.HandleQuote | src/hooks/useWebSocketQuote.ts:62-68 | the quote is taken and the error cleared iff the symbols are equal ignoring case |
| QuoteStream.QuoteConsumer.HandleConnect | src/hooks/useWebSocketQuote.ts:70-73 | the consumer is connected |
| QuoteStream.QuoteConsumer.HandleDisconnect | src/hooks/useWebSocketQuote.ts:75-78 | the consumer is disconnected |
| QuoteStream.QuoteConsumer.Activate | src/hooks/useWebSocketQuote.ts:54-91 | a disabled or symbol-less consumer changes nothing, neither itself, the hub nor the existing socket; otherwise it takes the shared socket, copies its connection flag, adds its three handlers and appends its own subscribe frame with the upper-cased symbol, with no coalescing |
| QuoteStream.QuoteConsumer.Cleanup | src/hooks/useWebSocketQuote.ts:94-103 | one unsubscribe frame with the upper-cased symbol; exactly its own three handlers are removed; the shared socket stays open and connected as it was |
| QuoteStream.SharedSocketScenario | src/hooks/useWebSocketQuote.ts:29-103 | two AAPL consumers and one MSFT consumer share one socket with three subscribe frames; after one AAPL consumer cleans up, the socket stays open, a later AAPL quote reaches only the other, and MSFT quotes still arrive |
| StockSocket.LookupQuote | src/hooks/useStockSocket.ts:96-98 | a quote is found iff the upper-cased symbol is a key, and it is the quote under that key |
| StockSocket.StoredQuoteFound | src/hooks/useStockSocket.ts:55-98 | a payload whose symbol has no lower-case letter is found by any case variant of its symbol |
| StockSocket.LowerCasePayloadUnreachable | src/hooks/useStockSocket.ts:55-98 | a payload whose symbol has a lower-case letter is stored but never found by `getQuote` |
| StockSocket.StockSocketHook.constructor | src/hooks/useStockSocket.ts:22-31 | the hook starts with no socket, disconnected, no quotes and no error; the url defaults to http://localhost:4001 |
| StockSocket.StockSocketHook.Mount | src/hooks/useStockSocket.ts:33-73 | with auto-connect a fresh socket is held; without it nothing is created |
| StockSocket.StockSocketHook.OnConnect | src/hooks/useStockSocket.ts:44-48 | connected, and the error is cleared |
| StockSocket.StockSocketHook.OnDisconnect | src/hooks/useStockSocket.ts:50-53 | disconnected |
| StockSocket.StockSocketHook.OnQuote | src/hooks/useStockSocket.ts:55-61 | the payload is stored under its symbol exactly as received; every other key is untouched |
| StockSocket.StockSocketHook.OnError | src/hooks/useStockSocket.ts:63-66 | the error is the message, or "Socket.IO error" when the message is empty |
| StockSocket.StockSocketHook.OnConnectError | src/hooks/useStockSocket.ts:68-71 | the error is "Connection failed: " followed by the message |
| StockSocket.StockSocketHook.Subscribe | src/hooks/useStockSocket.ts:81-88 | with a socket, one subscribe frame with the symbol as given (not upper-cased); with none, nothing is emitted |
| StockSocket.StockSocketHook.Unsubscribe | src/hooks/useStockSocket.ts:90-94 | with a socket, one unsubscribe frame; with none, nothing is emitted |
| StockSocket.StockSocketHook.Cleanup | src/hooks/useStockSocket.ts:75-78 | the socket is disconnected and closed, and the reference is dropped, so later subscribe calls emit nothing |
| StockSocket.SubscribeAfterCleanup | src/hooks/useStockSocket.ts:33-94 | after cleanup the socket is closed and released, and later subscribe and unsubscribe calls leave its frames at the one frame sent before |
| WidgetStore.NormalizeWidgetType | src/store/widgetStore.ts:11-27 | a type is recognised iff it is one of the three canonical types or the four aliases; the result is canonical; canonical types map to themselves |
| WidgetStore.NormalizeWidgetTypeTable | src/store/widgetStore.ts:12-25 | card→finance-card, chart and line→line-chart, stock-table→table; "unknown", "Card" and "" are not recognised |
| WidgetStore.NormalizeIdempotent | src/store/widgetStore.ts:11-27 | normalising a normalised type changes nothing |
| WidgetStore.NormalizeAsWritten | src/store/widgetStore.ts:26 | the lookup finds an own entry iff the type is a table key, and an inherited `Object.prototype` member iff it is one of those names |
| WidgetStore.PrototypeKeyPassesGuard | src/store/widgetStore.ts:26-62 | "constructor" passes the `unknown` guard as written, although it is not a widget type |
| WidgetStore.AsWrittenAgreesElsewhere | src/store/widgetStore.ts:26 | away from the prototype names, the code as written and the corrected normaliser agree |
| WidgetStore.Created | src/store/widgetStore.ts:63-68 | the new widget has the canonical form of the given type, the given id and creation time, and the caller's symbol, name, refresh interval, provider and selected fields |
| WidgetStore.Removed | src/store/widgetStore.ts:78 | no widget with the id remains; every other widget remains as often as it occurred; nothing new appears |
| WidgetStore.RemovedKeepsOrder | src/store/widgetStore.ts:78 | the remaining widgets keep their order; removing an absent id changes nothing |
| WidgetStore.ApplyPatchLaws | src/store/widgetStore.ts:86-88 | the empty patch is the identity; a patch is idempotent; two patches compose into one; fields not in the patch are kept |
| WidgetStore.Updated | src/store/widgetStore.ts:84-91 | length and order are kept; exactly the widgets with the id are patched |
| WidgetStore.UpdatedFacts | src/store/widgetStore.ts:84-91 | an absent id changes nothing; ids survive a patch without an id; known types stay known |
| WidgetStore.Renamed | src/store/widgetStore.ts:94-101 | length and order are kept; exactly the widgets with the id get the new name |
| WidgetStore.RenameIsNameUpdate | src/store/widgetStore.ts:94-101 | renaming is updating with a patch holding only the name |
| WidgetStore.IndexOfId | src/store/widgetStore.ts:107-108 | the result is -1 iff no widget has the id, otherwise the first index that has it |
| WidgetStore.Move | src/store/widgetStore.ts:113-115 | the splice move keeps the length and puts the moved element at the target index |
| WidgetStore.MoveAt | src/store/widgetStore.ts:113-115 | every position of the result holds the element from the computed old position |
| WidgetStore.MovePermutes | src/store/widgetStore.ts:113-115 | the move is a permutation |
| WidgetStore.MoveUndo | src/store/widgetStore.ts:113-115 | moving back from the target to the source restores the list |
| WidgetStore.MoveInPlace | src/store/widgetStore.ts:113-115 | shifting the array in place computes exactly the splice move |
| WidgetStore.MovedCopy | src/store/widgetStore.ts:113-115 | moving a copy of the list computes exactly the splice move |
| WidgetStore.MergeLayoutLaws | src/store/widgetStore.ts:124 | the fields not supplied are kept; the merge is idempotent; an empty patch changes nothing |
| WidgetStore.Hydrated | src/store/widgetStore.ts:136-138 | no stored list gives no widgets; otherwise every kept widget has a known type, and every stored widget with a known type is kept as often as it occurred |
| WidgetStore.HydrateRoundTrip | src/store/widgetStore.ts:41-143 | hydrating a snapshot of known-type widgets gives those widgets back |
| WidgetStore.HydratedKeepsOrder | src/store/widgetStore.ts:136-138 | the filter keeps the stored order |
| WidgetStore.Reordered | src/store/widgetStore.ts:104-119 | the result is a permutation of the same length; equal or missing ids change nothing; otherwise the source widget lands at the target index |
| WidgetStore.ReorderUndo | src/store/widgetStore.ts:104-119 | moving back from the target index to the source index undoes the reorder |
| WidgetStore.Store.constructor | src/store/widgetStore.ts:30-53 | the store starts with no widgets, the default layout {3 columns, gap 4}, not hydrated and with nothing written |
| WidgetStore.Store.Persist | src/store/widgetStore.ts:41-50 | one write of the current widgets and layout together |
| WidgetStore.Store.AddWidget | src/store/widgetStore.ts:56-73 | an unknown type changes and writes nothing; otherwise exactly one created widget is appended and exactly one write of the new widgets and layout is logged |
| WidgetStore.Store.RemoveWidget | src/store/widgetStore.ts:76-81 | the widgets become `Removed` and the new state is persisted |
| WidgetStore.Store.UpdateWidget | src/store/widgetStore.ts:84-91 | the widgets become `Updated` and the new state is persisted |
| WidgetStore.Store.RenameWidget | src/store/widgetStore.ts:94-101 | the widgets become `Renamed` and the new state is persisted |
| WidgetStore.Store.ReorderWidgets | src/store/widgetStore.ts:104-119 | a reorder that does not apply changes and writes nothing; otherwise the widgets become `Reordered` and the new state is persisted |
| WidgetStore.Store.UpdateLayout | src/store/widgetStore.ts:122-127 | the layout becomes the merge, the widgets are kept, and the new state is persisted |
| WidgetStore.Store.Hydrate | src/store/widgetStore.ts:130-152 | a stored document yields the known-type widgets and its layout, or the default layout; a missing or unreadable document keeps the state; either way the store is hydrated and nothing is written |
| WidgetStore.Store.ClearAll | src/store/widgetStore.ts:155-159 | the stored document is removed, and the state is the default one, hydrated |
| WidgetStore.Reload | src/store/widgetStore.ts:41-152 | a fresh store hydrated from the last write of a persisted store has that store's widgets and layout |
| ApiSchema.Walk | src/utils/apiSchema.ts:54-59 | an empty key list returns the current value |
| ApiSchema.FieldValue | src/utils/apiSchema.ts:48-62 | a falsy object or an empty path gives undefined |
| ApiSchema.GetFieldValue | src/utils/apiSchema.ts:48-62 | the loop computes exactly `FieldValue` |
| ApiSchema.WalkConcat | src/utils/apiSchema.ts:54-59 | walking two key lists one after the other is walking their concatenation |
| ApiSchema.FieldValueDescends | src/utils/apiSchema.ts:51-59 | `p.q` reaches what `q` reaches from the value at `p`, left to right |
| ApiSchema.FieldValueOneKey | src/utils/apiSchema.ts:51-59 | a one-segment path reads that property, or undefined when it is absent |
| ApiSchema.DocumentedExample | src/utils/apiSchema.ts:44-46 | `{a:{b:{c:10}}}` at `a.b.c` is 10 |
| ApiSchema.NullHandling | src/utils/apiSchema.ts:55-57 | worked examples: a final null is returned; reading through a null throws; an undefined midway gives undefined |
| ApiSchema.NullMidwayThrows | src/utils/apiSchema.ts:51-60 | for any object and paths p, q: if p reaches null then `p.q` throws |
| ApiSchema.UndefinedMidwayStops | src/utils/apiSchema.ts:51-60 | for any object and paths p, q: if p reaches undefined then `p.q` gives undefined without throwing |
| ApiSchema.DefaultFields | src/utils/apiSchema.ts:96-110 | every list holds price, has 2 to 4 distinct fields, and names only quote fields without dots |
| ApiSchema.DefaultFieldsByType | src/utils/apiSchema.ts:96-110 | only line-chart has two fields, only table shows the symbol, only finance-card and line-chart show the timestamp |
| ApiSchema.DefaultFieldsResolve | src/utils/apiSchema.ts:48-110 | on a full quote object every default field reads back its own value |
| TableWidget.LookupCompany | src/components/widgets/TableWidget.tsx:55 | a company is found iff some default entry has the symbol, and it is the company of the last such entry, as a Map built from the entries keeps |
| TableWidget.DefaultStocksWellFormed | src/components/widgets/TableWidget.tsx:30-41 | the ten defaults have distinct, non-empty, upper-case symbols and non-empty companies |
| TableWidget.LookupFindsEntry | src/components/widgets/TableWidget.tsx:55 | with distinct symbols, the lookup finds each entry's own company |
| TableWidget.CompanyOfFacts | src/components/widgets/TableWidget.tsx:55-59 | a default symbol shows its company; any other symbol shows itself |
| TableWidget.FallbackWellFormed | src/components/widgets/TableWidget.tsx:44 | the fallback is the first eight defaults, with distinct upper-case symbols and their companies |
| TableWidget.Clean | src/components/widgets/TableWidget.tsx:48-49 | a cleaned part has no lower-case letter, and it is empty iff the trimmed part is empty |
| TableWidget.CleanParts | src/components/widgets/TableWidget.tsx:47-50 | every kept part is a non-empty cleaned part; every part that is not blank is kept |
| TableWidget.CleanPartsKeepsOrder | src/components/widgets/TableWidget.tsx:47-50 | the kept parts are the cleaned parts in their order, each non-empty one as often as it occurs and the empty ones dropped |
| TableWidget.Unique | src/components/widgets/TableWidget.tsx:52 | at most ten distinct symbols, all from the input |
| TableWidget.UniqueKeepsOrder | src/components/widgets/TableWidget.tsx:52 | the result is the first min(10, #distinct) elements of the deduplicated list, ordered by first occurrence in the input; with at most ten distinct symbols none is dropped |
| TableWidget.NormalizeSymbols | src/components/widgets/TableWidget.tsx:43-60 | 1 to 10 entries with distinct, non-empty, upper-case symbols, each with its default company or itself |
| TableWidget.FallbackCases | src/components/widgets/TableWidget.tsx:44-53 | no input, or input of only commas and blanks, gives the eight-stock fallback |
| TableWidget.FallbackSymbols | src/components/widgets/TableWidget.tsx:30-44 | the fallback is AAPL, MSFT, GOOGL, AMZN, META, TSLA, NVDA, NFLX |
| TableWidget.NamedSymbolsShown | src/components/widgets/TableWidget.tsx:43-60 | when some part is non-blank, the symbols shown are the cleaned, deduplicated and truncated parts |
| TableWidget.LoadError | src/components/widgets/TableWidget.tsx:102-106 | there is an error message iff some symbol failed |
| TableWidget.PartitionResults | src/components/widgets/TableWidget.tsx:84-106 | the loop builds exactly the rows, the failures and the error message |
| TableWidget.PartitionCounts | src/components/widgets/TableWidget.tsx:84-101 | every result lands in exactly one of rows and failures |
| TableWidget.PartitionMembers | src/components/widgets/TableWidget.tsx:87-99 | a failed symbol is listed as a failure; a fulfilled one gives a row with its quote |
| TableWidget.PartitionUniform | src/components/widgets/TableWidget.tsx:84-101 | all fulfilled gives no failures; all rejected gives no rows and every symbol in order as a failure |
| TableWidget.RowsInOrder | src/components/widgets/TableWidget.tsx:87-100 | the k-th row is built from the k-th fulfilled result, in request order, and every fulfilled result has its row |
| TableWidget.FailuresInOrder | src/components/widgets/TableWidget.tsx:87-100 | the k-th failure is the symbol of the k-th rejected result, in request order, and every rejected result is listed |
| TableWidget.LoadErrorCases | src/components/widgets/TableWidget.tsx:102-106 | all rejected gives "Failed to load quotes for: …"; a mix gives "Partial data (failed: …)"; all fulfilled gives no error |
| TableWidget.FilterRows | src/components/widgets/TableWidget.tsx:136-143 | exactly the rows that match the search are kept, each as often as it occurs |
| TableWidget.FilterRowsOrder | src/components/widgets/TableWidget.tsx:136-143 | the filtered rows keep their order; a blank search keeps every row |
| TableWidget.SearchIgnoresCase | src/components/widgets/TableWidget.tsx:138-141 | an upper-cased search term keeps the same rows |
| TableWidget.SymbolSearchKeepsRow | src/components/widgets/TableWidget.tsx:138-141 | searching for a row's symbol in any case keeps that row |
| Json.Get | src/utils/apiSchema.ts:55 | reading a property throws iff the value is null or undefined; on an object it is the property or undefined |
| Text.ToUpper | src/components/widgets/TableWidget.tsx:48 | the length is kept, letters are upper-cased one by one, and no lower-case letter remains |
| Text.Trim | src/components/widgets/TableWidget.tsx:48 | the result is the input with its leading and trailing whitespace removed: it occurs at some offset k, everything before k and after the result is whitespace, and it starts and ends with a non-blank character |
| Text.TrimBlank | src/components/widgets/TableWidget.tsx:137 | trimming gives the empty string iff every character is whitespace |
| Text.SplitConcat | src/utils/apiSchema.ts:51 | splitting `a` + separator + `b` gives the parts of `a` followed by the parts of `b` |
| Text.JoinSplit | src/utils/apiSchema.ts:51 | joining the parts of a split with the separator gives the string back |
| Seqs.Dedup | src/components/widgets/TableWidget.tsx:52 | the result is distinct and has exactly the input's elements |
| Seqs.DedupKeepsOrder | src/components/widgets/TableWidget.tsx:52 | deduplication keeps first-occurrence order |
| Seqs.DedupFirstOccurrence | src/components/widgets/TableWidget.tsx:52 | the deduplicated elements appear in the order of their first occurrence in the input |
| Seqs.FirstIndex | src/components/widgets/TableWidget.tsx:52 | the index of the first occurrence: the element is there and at no earlier index |

## Left out

- The axios instance, its 60 s timeout and the logging error interceptor (src/services/api.ts:11-27) are not modelled. Each call's outcome is an input.
- Real waiting (`wait`, src/services/api.ts:29) is not modelled; waits are returned as durations. `setInterval` auto-refresh is not part of this model.
- Promise concurrency is not modelled. Each issued request's retry loop is computed when it is issued, so a shared request id stands for the shared promise.
- Retry-After parsing (`parseInt`) is not modelled: the header arrives already parsed, as `Some(n)` or `None` for NaN.
- socket.io's transport, reconnection policy and the `socket.id` value are not modelled. Events are inputs to `Receive…`/`On…` methods.
- React state, effect scheduling and re-renders are not modelled. Each hook's effect body and cleanup are methods on an explicit object.
- The SSR check (`typeof window`) and `localStorage` I/O are not modelled. Storage is a log of writes and removes, and `Hydrate` takes the parsed stored document (`Corrupt` stands for a JSON parse failure).
- `crypto.randomUUID` and `Date.now` are not modelled; ids and times are parameters.
- WidgetStore.Reload: it assumes `JSON.stringify` then `JSON.parse` of the snapshot gives it back, which holds for the fields modelled here.
- WidgetStore.Store.AddWidget: it uses the corrected type normaliser (see Findings), so a type named after an inherited property such as `"constructor"` is skipped here, where the source would append a widget with that type.
- WidgetStore.Store.Hydrate: it uses the corrected type normaliser (see Findings), so a stored widget whose type is an inherited property name is dropped here, where the source would keep it.
- WidgetStore.Store.Hydrate: a stored layout that is truthy but not an object is not modelled. Patch keys that are present but hold `undefined` are not modelled either.
- Case mapping is ASCII only. JavaScript's `toUpperCase`/`toLowerCase` also map non-ASCII letters.
- Numbers are `real` or `int`. NaN, infinities and the floating-point formatting of numbers inside the cache key are not modelled; integer params are written in decimal.
- Json.Get: reads of inherited prototype properties (`constructor`, `toString`, …) are not modelled; they read as undefined. Own object properties, array and string `length`, and array and string indices are modelled.
- `formatFieldValue` (src/utils/apiSchema.ts:67-91) and src/utils/format.ts are not modelled: they use `Intl` and floating-point formatting.
- `fetchApiSchema` (src/utils/apiSchema.ts:26-42) and src/utils/dashboardConfig.ts are not modelled: they only wrap gateway messages or do file and DOM I/O.
- The rendering-only components are not modelled, and neither are the form handlers' validation and field toggling.
- The duplicate type normaliser in Widget.tsx is not modelled; the mapping is modelled once.
- The `catch` of TableWidget's `fetchQuotes` (src/components/widgets/TableWidget.tsx:109-112) is not modelled: `Promise.allSettled` does not reject. The quote payload is assumed to have the `StockQuote` shape.
- Console logging is not modelled.
- useWebSocketQuote declares an `error` state but never sets it to a message; the model keeps the field, and only a matching quote clears it.

## Findings

| source | as written | input that shows it | evidently intended | confidence | as-written member | corrected member |
|---|---|---|---|---|---|---|
| src/store/widgetStore.ts:26 | `map[type] \|\| 'unknown'` looks the type up in a plain object literal, so inherited `Object.prototype` members are truthy and pass the `'unknown'` guard in `addWidget` and `hydrate` | type `"constructor"` (or `"toString"`, `"hasOwnProperty"`, …) | only the seven own keys of the alias table are recognised, and everything else becomes `'unknown'` | not executed | WidgetStore.NormalizeAsWritten, WidgetStore.PrototypeKeyPassesGuard | WidgetStore.NormalizeWidgetType |
