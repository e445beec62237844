# gator feed ingestion, modelled in Dafny

gator is a command-line RSS aggregator. This project models the part of it
with real logic:

- **The ingestion step** (`scrapeFeeds`). It takes the feed fetched longest
  ago from storage and fetches it. It then marks the feed fetched. Finally it
  walks the feed's items in document order. For each item it normalises the
  publication date under the layouts RFC1123Z and then RFC1123, and inserts a
  post. An item whose date parses under neither layout is skipped. A duplicate
  post is ignored, and an insert error never stops the loop.
- **The poll loop** (`Aggregate`, and its copy `handlerAgg`). It checks its
  one argument, an interval, and then runs one step per tick. A step's error
  is only reported.
- **The RSS fetcher** (`FetchFeed`). It sends one GET and treats a status of
  400 or more as an error. It reads and decodes the body, then unescapes the
  channel's title and description.
- **Command dispatch**:
  - the name-to-handler registry (`ExecutorMap` and its older twin `commands`);
  - the command-line splitter `parseArgs`;
  - the registration table that `run` in main.go builds.

Modules follow the source files:

| module | file |
|---|---|
| `Rss` | internal/rss/rss.go |
| `Aggregate` | internal/executors/aggregate.go |
| `Executors` | internal/executors/executors.go |
| `Commands` | commands.go |
| `Main` | main.go |

Two modules support the others:

- `Database` models the three queries the step issues. It is a class
  `Queries` holding a feeds table, a posts table keyed by (feed id, link) and
  a ghost log of the writes issued.
- `Wrappers` holds `Option`, `Result` and `Outcome`.

The imperative code is modelled as methods:

- the fetcher;
- the step;
- the item loop;
- the date loop with its `pubDateFormatted` flag and `break`;
- the tick loop;
- the registries.

Each method is proved equal to a specification function: `Rss.FetchOutcome`,
`Aggregate.Scrape`, `Aggregate.IngestFrom`/`Attempted`, `Aggregate.FirstParse`
and `Aggregate.RunTicks`. The lemmas state what the program promises about
those functions.

Where the code and what it evidently intends differ, the model follows the code:

- **Items are not unescaped.** `FetchFeed` unescapes each item's title and
  description into the loop's copy of the item (internal/rss/rss.go:75-78).
  The returned items are therefore exactly as decoded.
  `Rss.SuccessUnescapesChannelOnly` and `Rss.ItemTitlesStayEscaped` state
  this behaviour.
- **A non-positive interval is not rejected.** `time.ParseDuration` accepts
  "0s" and "-1m", and `time.Tick` then returns a nil channel. `for range` over
  a nil channel blocks forever without running a step. `Aggregate.Aggregate`
  models this as a successful result with no reports and an unchanged store.

## Model

| member | source | states |
|---|---|---|
| `Rss.FetchFeed` | internal/rss/rss.go:30-81 | The result is exactly `FetchOutcome`: an unbuildable request, a transport failure, a status of 400 or more, a failed body read and a failed decode each give their own error; otherwise the decoded feed, with channel title and description unescaped. |
| `Rss.FetchSendsOneGet` | internal/rss/rss.go:31-40 | A fetch sends at most one request, a GET of the URL with User-Agent "Gator/0.0.0"; the outcome depends only on what comes of that request. |
| `Rss.BadStatusIsNotDecoded` | internal/rss/rss.go:46-53 | A status of 400 or more is `BadStatus` with that code, whatever the decoder would do with the body. |
| `Rss.FetchSucceedsIff` | internal/rss/rss.go:40-70 | A fetch succeeds exactly when a response arrived with status below 400, its body was read and it decoded. A read failure is `ReadError` and a decode failure is `DecodeError`. |
| `Rss.SuccessUnescapesChannelOnly` | internal/rss/rss.go:72-80 | On success, channel title and description equal the unescaped decoded values. The channel link and the item sequence (length, order, every field) are exactly as decoded. |
| `Rss.ItemTitlesStayEscaped` | internal/rss/rss.go:75-78 | An item titled "&amp;" keeps that title while the channel title "&amp;" becomes "&". |
| `Database.Selection` | internal/executors/aggregate.go:41-44 | The next feed is an error when the query fails or there are no feeds. Otherwise it is the feed that precedes every other (never fetched first, then oldest fetch, ties by id), with its URL. |
| `Database.Queries.GetNextFeedToFetch` | internal/executors/aggregate.go:41-44 | A scan over the feeds returns exactly `Selection`. |
| `Database.Marked` | internal/executors/aggregate.go:60-68 | Marking sets only the named feed's last-fetched and updated times and keeps every feed and URL. |
| `Database.Queries.MarkFeedFetched` | internal/executors/aggregate.go:66-68 | Logs the call. A failing query changes no row; otherwise feeds become `Marked`. Posts are untouched. |
| `Database.Inserted` | internal/executors/aggregate.go:115-116 | An insert adds the post under its (feed, link) key unless the key exists or the query fails. It never replaces a post and keeps every post under its own key. |
| `Database.Queries.CreatePost` | internal/executors/aggregate.go:115-122 | Logs the call, reports `Duplicate` for an existing (feed, link) or `Other` on failure, and leaves posts as `Inserted`. |
| `Aggregate.FirstParseIsFirstMatch` | internal/executors/aggregate.go:83-90 | A date is normalised iff some layout parses it. The result is the parse under the earliest accepting layout, and every earlier layout rejected the date. |
| `Aggregate.PubDateLayoutOrder` | internal/executors/aggregate.go:70-90 | RFC1123Z is tried first; RFC1123 decides only when RFC1123Z rejects the date. |
| `Aggregate.NormalizeDate` | internal/executors/aggregate.go:81-90 | The layout loop with its flag and `break` yields the first successful parse, or none. |
| `Aggregate.Parsed` | internal/executors/aggregate.go:75-100 | Lists, in increasing order, exactly the indices of items whose date parses. |
| `Aggregate.AttemptedInDocumentOrder` | internal/executors/aggregate.go:75-115 | The item loop attempts one CreatePost per item whose date parses, in document order, skipping the rest. Each carries the feed id, the item's link, title and description, and the normalised date. |
| `Aggregate.IngestOnlyAdds` | internal/executors/aggregate.go:75-123 | After the item loop, the keys are the old ones plus one per item whose date parses and whose insert did not fail. Each added post is the one built from the first such item with that link: the feed id, the item's link, title and description, and its normalised date. No post is replaced. |
| `Aggregate.IngestOfStoredItemsIsNoOp` | internal/executors/aggregate.go:104-123 | If every attempted post's key is already stored, the loop leaves the posts table unchanged (duplicates are silent). |
| `Aggregate.ReingestAddsNothing` | internal/executors/aggregate.go:104-123 | Re-ingesting the same items with the same date parser, after a pass where no insert failed, adds nothing. |
| `Aggregate.InsertItem` | internal/executors/aggregate.go:76-122 | One item: an unparseable date skips it with no write; otherwise one CreatePost of its post, whose error is ignored. |
| `Aggregate.InsertPosts` | internal/executors/aggregate.go:75-123 | The item loop leaves posts as `IngestFrom` and appends exactly `Attempted` to the call log; feeds are unchanged. |
| `Aggregate.ScrapeFeeds` | internal/executors/aggregate.go:40-126 | Outcome and new store are exactly `Scrape` of the old store. |
| `Aggregate.SelectionFailureChangesNothing` | internal/executors/aggregate.go:41-44 | A selection failure is reported and the store, including the call log, is unchanged. |
| `Aggregate.FetchFailureChangesNothing` | internal/executors/aggregate.go:48-51 | A fetch failure is reported with nothing marked or inserted: the store is unchanged. |
| `Aggregate.MarkFailureAddsNoPosts` | internal/executors/aggregate.go:53-68 | A failing mark is reported. Only the mark call (valid, time now) was issued; feeds and posts are unchanged. |
| `Aggregate.MarkPrecedesEveryPost` | internal/executors/aggregate.go:53-123 | A step only appends to the call log. Anything it appends starts with the mark of the selected feed at time now, followed only by CreatePost calls for that feed. |
| `Aggregate.SuccessfulStep` | internal/executors/aggregate.go:53-125 | After a successful mark the step returns success whatever the inserts report. The feed's last fetch is now, other feeds are unchanged, and posts only gain the keys of items that parsed and inserted, each holding the post built from the first such item with that link. |
| `Aggregate.StepOnlyAddsPosts` | internal/executors/aggregate.go:40-126 | Any step, failing or not, keeps every existing post and its key. |
| `Aggregate.FetchedFeedGoesLast` | internal/executors/aggregate.go:53-68 | After a successful step at a time later than every recorded fetch, every other feed precedes the fetched one. |
| `Aggregate.RunTicks` | internal/executors/aggregate.go:31-35 | One report per tick. |
| `Aggregate.EveryTickRunsOneStep` | internal/executors/aggregate.go:31-35 | Tick k reports exactly the outcome of one step on the store the earlier ticks left; an error does not stop later ticks. |
| `Aggregate.TicksOnlyAddPosts` | internal/executors/aggregate.go:31-35 | Across any number of ticks, posts are only added, never removed or replaced. |
| `Aggregate.Aggregate` | internal/executors/aggregate.go:15-38 | A wrong argument count or an unparseable interval is an error with no step run. A non-positive interval runs no step. Otherwise the reports and the store are exactly `RunTicks`. |
| `Executors.ExecutorMap.Register` | internal/executors/executors.go:20-22 | The name maps to the handler, replacing any earlier one; other entries are unchanged. |
| `Executors.ExecutorMap.Run` | internal/executors/executors.go:24-31 | An unknown name is "unrecognised command: <name>" and runs no handler. A known name returns exactly its handler's result for the same state and executor. The map is not modified (no frame). |
| `Commands.Commands.Register` | commands.go:28-30 | The name maps to the handler, overwriting any earlier entry; other names are untouched. |
| `Commands.Commands.Run` | commands.go:32-39 | An unregistered name is "unrecognised command: <name>"; a registered one returns exactly its handler's result. |
| `Commands.HandlerAgg` | commands.go:132-155 | Same contract as `Aggregate.Aggregate`: argument count and interval are rejected before any tick. |
| `Commands.ScrapeFeeds` | commands.go:356-442 | Outcome and new store are exactly `Scrape`, so the lemmas on `Scrape` hold for this copy. |
| `Main.ParseArgs` | main.go:70-86 | Fails, with "no arguments given", iff the list is empty. Otherwise the name followed by the arguments is the input, so one word gives empty arguments. |
| `Main.ParseArgsInverts` | main.go:70-86 | Parsing an executor's name followed by its arguments gives that executor back. |
| `Main.EveryHandlerRegisteredOnce` | main.go:50-60 | Each of the eleven handlers is registered under its own name, and each registered name holds that name's handler: eleven names, one handler each. |
| `Main.LoggedInWrapperShape` | main.go:55-60 | Exactly addfeed, follow, unfollow, following and browse are wrapped by the logged-in middleware. |
| `Main.NewExecutorMap` | main.go:46-60 | The eleven Register calls yield exactly the registration table. |
| `Main.Run` | main.go:46-67 | No arguments is "unable to parse the command: no arguments given". An unknown name is an unrecognised-command error. A known name runs its registered handler with the remaining words. |

## Left out

- **HTTP, the body read, XML decoding and HTML unescaping.** These are
  library code. The exchange is a function from the request to an abstract
  response (status code and a body that was or was not read completely). The
  decoder and the unescaper are uninterpreted functions.
- **Library, clock and randomness calls.** `time.Parse`, `time.ParseDuration`,
  `time.Now` and `uuid.New` are parameters: a parse function, a duration
  parser, `now`, and per-item clock and id functions. Tick timing and spacing
  are not modelled. The poll loop runs over a finite sequence of ticks,
  although the program's loop never returns.
- **Aggregate.RunTicks:** the program's loop never ends, so `Aggregate.Aggregate`
  returns the reports of the ticks given. Its success result is not a return
  of the program.
- **The SQL behind the three queries.**
  - The selection order is the order storage is assumed to follow: never
    fetched first, then oldest last fetch, ties broken by the smaller id.
    `Database.Selection` and `Aggregate.FetchedFeedGoesLast` are about that
    assumed order, not about code shown here.
  - Whether a query fails for a reason other than the tables is a parameter.
- **`uniqueViolation`.** It inspects Postgres error codes. Here it is the
  error kind `Duplicate` versus `Other`. The step ignores both after an
  insert, as the source does.
- **Printing.** This covers the progress messages, the skipped-date and
  failed-insert messages, and the tick loop's error report. The model keeps
  only which errors are reported, not their text. The exception is the
  dispatch errors, whose text is modelled.
- **The other handlers, the login middleware's user lookup, the
  configuration file and `state.State`.** These are single database calls
  with argument counting, file I/O and a plain struct. Handlers are opaque
  values run through an `invoke` function.
- **Main.Run:** loading the configuration and opening the database come
  before the registry in main.go and are not modelled.
- **Aggregate.EveryTickRunsOneStep:** the exchange with a server is a total
  function, so every fetch returns. The program's HTTP client has no timeout
  and uses a background context, so an unresponsive server would block a step
  and every later tick; the lemma relies on each step ending.
- **Concurrency and context cancellation.** The program runs one step at a
  time.
