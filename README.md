# Crawler core in Dafny

A model of the sequential core of a small Go web crawler: the visited-site
ledger (`pkg/store`), link selection in a crawl task (`pkg/crawler`), start-up
(`internal/bootstrap`) and configuration defaulting (`pkg/config`). Each Dafny
module follows one Go package:

| file | module | models |
|---|---|---|
| `store.dfy` | `Store` | the ledger file (`ImFile`), `readData`, `StoreData`, `WasAlreadyVisited` |
| `crawler.dfy` | `Crawler` | `checkURL`, `extractTagLink`, `ExtractLinks`, `returnWorker`, `SpinUpCrawler`, `NewCrawler` |
| `bootstrap.dfy` | `Boot` | `BoostrapStore`, `BootsRootPage`, `BootstrapChannels`, `StartWorkersQueue` |
| `config.dfy` | `Config` | `getStringVal`, `getIntValue` with `strconv.Atoi`, `NewConfig`, `GetConfig` |
| `models.dfy` | `Models` | the records of `internal/models/config.go` |
| `url.dfy` | `Url` | the URL record and the `url.Parse` / `URL.String` functions as an input |
| `goruntime.dfy` | `GoRuntime` | channels (a history of sends) and `sync.WaitGroup` (a counter) |
| `wrappers.dfy` | `Wrappers` | `Option`, `Result` |

**Ledger.** The ledger file is a class `Store.MemFile` holding its bytes, a log
of the calls made on it, and two injected faults for `Truncate` and `WriteAt`,
like the generated mock the store tests use. `Store.Store` holds the file
together with the two library functions the store calls, encoding/json
(`Store.Json`) and `slug.Make`. Both are function values. The functional
guarantee of encoding/json that the proofs need is stated as
`Store.Lawful`: a marshalled ledger decodes back to itself, and an empty file
does not decode. `StoreData`'s and `WasAlreadyVisited`'s postconditions tie
their results and the new file state to a specification function,
`StoreDataOutcome` or `VisitOutcome`; `ReadData` ties its result to the
decoder, and the `MemFile` methods tie the new data to `Resized` and
`Overwritten`. The properties are lemmas about those functions:

- an already-present key answers `(true, nil)` and never truncates or writes;
- a new key rewrites the whole file as the old entries plus `slug(site) -> true`;
- each failure point answers `(false, err)` and skips the later steps;
- lookup uses `slug(site)` and tests for key presence, so a key stored as `false` also counts as visited;
- a second call for the same site answers `(true, nil)`;
- successful calls only ever add keys.

The model also shows a consequence of the source's truncate-then-write order.
When `WriteAt` fails after `Truncate(0)` has succeeded, the file is left empty.
From then on every call fails to decode (`WriteFailureBreaksLedger`).

**Link selection.** `url.Parse` is a partial function (`Option`) and
`URL.String` a function, both inputs (`Url.Library`). A page is a `Response`.
It is either the fetch error or the tokens the tokenizer produced, followed by
how the tokenizer stopped (EOF or another error). `ExtractLinks` is a loop
over those tokens. It is proved to send `Links(lib, tokens)` to the queue,
and on every exit path to decrement the WaitGroup once and send the worker
ID once. Lemmas on `FirstHref` and `Links` cover the rest:

- the first accepted `href` wins;
- rejected and unparsable attributes are skipped;
- links follow document order;
- at most one link comes from each start or self-closing tag;
- each link comes from an anchor tag.

**Code followed where the text around it disagrees.** The crawler tests expect three
behaviours: a same-host check (`pkg/crawler/crawler_test.go:36-40`),
relative-link resolution through `parseURL` (`pkg/crawler/crawler_test.go:71-136`),
and `WasAlreadyVisited` calls inside the crawl task
(`pkg/crawler/crawler_test.go:186-334`). `crawler.go`
performs none of them. The model follows `crawler.go`: `CheckURL` accepts a
URL on a different host (`CheckURLTestCases`, `CheckURLIgnoresHost`). The
repository as written does not type-check as a whole, and the model keeps each file as
written:
- `bootstrap.go:33` passes `NewMemfileStore` one argument, but `store.go:23`
  takes two, so `Boot.BoostrapStore` takes the file as a parameter;
- `config.go:24` reads `detaultQueueSize`, which `constants.go` does not
  define, so `Config.NewConfig` takes that value as a parameter.

## Model

| member | source | states |
|---|---|---|
| `Store.Resized` | pkg/store/memfile.go:6 | Truncate(n) leaves exactly n bytes: the old bytes below n, zero bytes beyond the old length |
| `Store.Overwritten` | pkg/store/memfile.go:7 | WriteAt(b, off) puts b at positions off.. and keeps every other byte, zero-filling a gap |
| `Store.MemFile.Bytes` | pkg/store/memfile.go:5 | returns the file's bytes, changes nothing, logs one Bytes call |
| `Store.MemFile.Truncate` | pkg/store/memfile.go:6 | fails with the injected fault and changes nothing, or resizes the file; logs the call with its size |
| `Store.MemFile.WriteAt` | pkg/store/memfile.go:7 | fails with the injected fault and changes nothing, or overwrites at the offset and reports len(b) written; logs the call |
| `Store.Store.constructor` | pkg/store/store.go:23-28 | NewMemfileStore keeps the given file |
| `Store.Store.ReadData` | pkg/store/store.go:64-71 | one Bytes call; the decoded ledger, or DecodeError when the bytes do not decode |
| `Store.Store.StoreData` | pkg/store/store.go:47-62 | result, new file bytes and file calls are those of StoreDataOutcome: Truncate(0), then WriteAt(payload, 0), each failure returned at once |
| `Store.Store.WasAlreadyVisited` | pkg/store/store.go:30-45 | answer, error, new file bytes and file calls are those of VisitOutcome on the old file |
| `Store.FullRewrite` | pkg/store/store.go:53-60 | truncating to 0 and then writing at offset 0 leaves exactly the payload |
| `Store.AlreadyVisitedWritesNothing` | pkg/store/store.go:38-44 | a present slug(site) answers (true, nil) after one Bytes call; no Truncate, no WriteAt, file unchanged |
| `Store.NewSiteIsRecorded` | pkg/store/store.go:38-42 | an absent key answers (false, nil); the file becomes the encoding of the old entries plus slug(site) -> true and decodes to it; calls are Bytes, Truncate(0), WriteAt(payload, 0) |
| `Store.DecodeFailureLeavesLedger` | pkg/store/store.go:34-37 | an undecodable file answers (false, DecodeError), nothing truncated or written, file unchanged |
| `Store.TruncateFailureSkipsWrite` | pkg/store/store.go:53-56 | a failing Truncate(0) answers (false, TruncateError); no WriteAt, file unchanged |
| `Store.WriteFailureAfterTruncate` | pkg/store/store.go:53-60 | a failing WriteAt answers (false, WriteError) only after a successful Truncate(0); the file is left empty |
| `Store.WriteFailureBreaksLedger` | pkg/store/store.go:34-37 | after a failed write, every later call for any site fails to decode |
| `Store.LookupUsesSlug` | pkg/store/store.go:33-38 | the answer is true exactly when the ledger decodes and holds the key slug(site) |
| `Store.MixedCaseRawKeyDoesNotMatch` | pkg/store/store_test.go:38-47 | a stored raw key "mocK-site.com" does not match input "mock-site.com"; the store tries to record "mock-site-com" and reports the truncate error |
| `Store.SecondVisitIsKnown` | pkg/store/store.go:38-48 | after a call answers (false, nil), the same site answers (true, nil) with one Bytes call and no write |
| `Store.StoreDataOnlyAdds` | pkg/store/store.go:47-61 | a successful StoreData writes the whole payload at offset 0 after Truncate(0); the result decodes to the old keys plus site, site -> true, other entries unchanged |
| `Store.KeysOnlyGrow` | pkg/store/store.go:38-48 | a call without error never removes a key and leaves slug(site) in the ledger |
| `Crawler.CheckURL` | pkg/crawler/crawler.go:117-126 | true exactly for URLs with a non-empty scheme whose path is neither "/" nor "" |
| `Crawler.CheckURLIgnoresHost` | pkg/crawler/crawler.go:117-126 | the host never changes checkURL's answer |
| `Crawler.CheckURLTestCases` | pkg/crawler/crawler_test.go:29-52 | the four test URLs as the code decides them; the different-host one is accepted |
| `Crawler.ExtractTagLink` | pkg/crawler/crawler.go:95-115 | the link is TagLink: none for tags other than "a", else the first accepted href re-rendered; the error is always nil |
| `Crawler.FirstHrefIsFirstAccepted` | pkg/crawler/crawler.go:98-106 | when attrs[i] is the first href that parses and passes checkURL, the link is attrs[i] parsed and re-rendered |
| `Crawler.FirstHrefNone` | pkg/crawler/crawler.go:96-114 | there is no link exactly when no attribute is an accepted href |
| `Crawler.RejectedAttributeIsSkipped` | pkg/crawler/crawler.go:98-111 | an attribute with another key, an unparsable href or a rejected URL can be removed without changing the link |
| `Crawler.Crawler.ReturnWorker` | pkg/crawler/crawler.go:83-85 | sends the crawler's ID to the worker pool once |
| `Crawler.Crawler.ExtractLinks` | pkg/crawler/crawler.go:49-81 | queue gains Links of the tokens in document order (nothing after a fetch failure); worker pool gains the ID once; WaitGroup counter drops by one; nil at EOF, else the fetch or tokenizer error |
| `Crawler.Crawler.SpinUpCrawler` | pkg/crawler/crawler.go:87-93 | the effects of ExtractLinks; its error is only logged |
| `Crawler.NewCrawler` | pkg/crawler/crawler.go:31-47 | an unparsable page yields no crawler and an error; otherwise a fresh crawler with the parsed page and the given ID, WaitGroup and channels |
| `Crawler.LinksAppend` | pkg/crawler/crawler.go:60-80 | the links of two consecutive token stretches are concatenated: document order |
| `Crawler.LinksAtMostOnePerTag` | pkg/crawler/crawler.go:70-78 | no more links than start and self-closing tags |
| `Crawler.LinksComeFromAnchors` | pkg/crawler/crawler.go:70-78 | every queued link is the first accepted href of some "a" start or self-closing tag of the stream |
| `Crawler.UnparsableLinkIsSkipped` | pkg/crawler/crawler.go:108-110 | a tag whose hrefs all fail to parse adds nothing, and links before and after it are still collected |
| `Crawler.NoAcceptedHref` | pkg/crawler/crawler.go:97-110 | a tag none of whose hrefs parses yields no link |
| `Config.Atoi` | pkg/config/config.go:48 | a result exactly for an optional sign followed by digits whose signed value lies within the 64-bit range, and that result is the signed digit value |
| `Config.AtoiItoa` | pkg/config/config.go:48-53 | every in-range integer, zero and negatives included, is read back from its decimal spelling |
| `Config.AtoiRejects` | pkg/config/config.go:48-51 | empty, a lone sign, "not_an_integer" and strings with spaces do not parse |
| `Config.AtoiOutOfRange` | pkg/config/config.go:48-51 | the spelling of an integer outside the 64-bit range does not parse |
| `Config.GetStringVal` | pkg/config/config.go:34-40 | the default when the environment value is empty (unset included), else that value unchanged |
| `Config.GetIntValue` | pkg/config/config.go:42-54 | the default or the integer Atoi reads; the default for every non-integer; the parsed value whenever Atoi succeeds |
| `Config.GetIntValueUsesSpelledInteger` | pkg/config/config.go:48-53 | a spelled in-range integer is used as is, with no range check of its own |
| `Config.GetValueTestCases` | pkg/config/config_test.go:18-52 | the five TestConfig cases, plus "0" and "-3" passing through |
| `Config.ConfigHolder.GetConfig` | pkg/config/config.go:30-32 | returns the stored config unchanged |
| `Config.NewConfig` | pkg/config/config.go:20-28 | WepPage from TICK_MESSAGE with default "example.com", Workers from TOCK_MESSAGE with default 5, QueueSize the given constant |
| `Config.NewConfigTestCases` | pkg/config/config_test.go:82-107 | the three TestNewConfig cases |
| `Boot.NewBootstrap` | internal/bootstrap/bootstrap.go:25-29 | keeps the given config |
| `Boot.BoostrapStore` | internal/bootstrap/bootstrap.go:32-41 | seeds the ledger through StoreData("", empty); a failure returns no store with that error, success a fresh store over the file |
| `Boot.BootstrapLedgerHasOneEntry` | internal/bootstrap/bootstrap.go:34-36 | after a successful seeding the ledger decodes to exactly {"" -> true} |
| `Boot.BootsRootPage` | internal/bootstrap/bootstrap.go:44-50 | the parsed configured page, or the fixed error "invalid site URL provided" |
| `Boot.BootstrapChannels` | internal/bootstrap/bootstrap.go:53-59 | fresh channels: queue capacity 100000, worker pool sized to the configured Workers, unbuffered finished channel |
| `Boot.WorkerTokens` | internal/bootstrap/bootstrap.go:62-66 | max(Workers, 0) tokens, the k-th being k + 1 |
| `Boot.WorkerTokensDistinct` | internal/bootstrap/bootstrap.go:62-66 | the tokens are strictly increasing, hence distinct, and are exactly 1..Workers |
| `Boot.StartWorkersQueue` | internal/bootstrap/bootstrap.go:62-66 | the worker pool gains exactly the tokens 1..Workers in increasing order |

## Left out

- Concurrency: `internal/service/service.go` (the dispatch and completion-detection goroutines) and `cmd/main.go` are goroutine wiring and are not modelled. Neither is the store's mutex; each store call is one atomic step.
- Channel semantics: blocking, receiving and capacity limits are not modelled. A send is an append to the channel's history, and a capacity is only recorded.
- `sync.WaitGroup`: only `Done` is modelled, as a counter decrement. The panic on a negative counter is not modelled.
- Foreign libraries are inputs, not re-implemented. `http.Get` and the HTML tokenizer become the `Response` value. `url.Parse` and `URL.String` become `Url.Library`, and a URL keeps only scheme, host and path. encoding/json becomes `Store.Json`, constrained by `Store.Lawful`, and `slug.Make` becomes a function value.
- The marshal-error branch at pkg/store/store.go:50-52 cannot be reached for a `map[string]bool` and is not modelled.
- A ledger that decodes without a `sites` object leaves Go's map nil, and pkg/store/store.go:48 would then panic. The model's decoder always yields a map.
- StoreData's map update: Go writes into the caller's map through a shared reference. The model treats the ledger as a value.
- Negative sizes and offsets for `Truncate` and `WriteAt` are not modelled; the store only ever passes 0.
- `make(chan int, n)` panics for a negative configured worker count. `Boot.BootstrapChannels` records the count as the capacity instead.
- Logging: logger calls and `fmt.Printf`/`fmt.Println` output are not modelled. The crawler's `logger` field is left out, and so is its `store` field, which crawler.go never calls.
- Crawler.Crawler.ExtractLinks: the contract does not state the order of the two deferred calls (wg.Done, then returnWorker), because they change different objects. The body makes them in that order.
- Test expectations with no code behind them in `pkg/crawler/crawler.go` are not modelled: relative-URL resolution (`parseURL`), the different-host rejection, store calls and early stop inside the crawler, and the `finished` channel field of the crawler.
