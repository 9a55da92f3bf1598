/**
 * internal/bootstrap: start-up of a crawl from the configuration: the seeded
 * ledger, the parsed root page, the channels, and the pre-filled pool of
 * worker tokens.
 */
module Boot {
  import opened Wrappers
  import opened GoRuntime
  import Models
  import Config
  import Url
  import Store

  /** The boot struct: holds the configuration it reads. */
  datatype Boot = Boot(config: Config.ConfigHolder)

  /** NewBootstrap */
  function NewBootstrap(config: Config.ConfigHolder): (b: Boot)
    ensures b.config == config
  {
    Boot(config)
  }

  /** Capacity of the link queue made by BootstrapChannels. */
  const QueueCapacity: int := 100000

  /**
   * BoostrapStore: create the store and seed it through StoreData with the
   * raw key "" in an empty ledger. bootstrap.go:33 passes NewMemfileStore only
   * the mutex, while store.go:23 also takes the file; here the file (and the
   * library functions the store calls) are parameters.
   */
  method BoostrapStore(b: Boot, file: Store.MemFile, json: Store.Json, slug: string -> string)
    returns (s: Store.Store?, err: Option<Store.StoreError>)
    modifies file
    ensures var o := Store.StoreDataOutcome(json, "", Models.SiteStore(map[]), old(file.data), file.truncateFault, file.writeFault);
            err == o.err && file.data == o.data && file.calls == old(file.calls) + o.calls
    ensures err.Some? ==> s == null
    ensures err.None? ==> s != null && fresh(s) && s.file == file && s.json == json && s.slug == slug
  {
    var store := new Store.Store(file, json, slug);
    var e := store.StoreData("", Models.SiteStore(map[]));
    if e.Some? {
      return null, e;
    }
    return store, None;
  }

  /** After a successful BoostrapStore the ledger decodes to exactly one entry, "" -> true. */
  lemma BootstrapLedgerHasOneEntry(json: Store.Json, data: seq<Store.byte>)
    requires Store.Lawful(json)
    ensures var o := Store.StoreDataOutcome(json, "", Models.SiteStore(map[]), data, None, None);
            o.err == None && json.unmarshal(o.data) == Some(Models.SiteStore(map["" := true]))
  {
    Store.FullRewrite(data, Store.Payload(json, "", Models.SiteStore(map[])));
  }

  /** BootsRootPage: the configured web page, parsed; a parse failure gives the fixed error message. */
  function BootsRootPage(b: Boot, lib: Url.Library): (r: Result<Url.URL, string>)
    ensures lib.parse(b.config.GetConfig().wepPage).Some? ==> r == Success(lib.parse(b.config.GetConfig().wepPage).value)
    ensures lib.parse(b.config.GetConfig().wepPage).None? ==> r == Failure("invalid site URL provided")
  {
    match lib.parse(b.config.GetConfig().wepPage)
    case None => Failure("invalid site URL provided")
    case Some(page) => Success(page)
  }

  /** BootstrapChannels: a queue of capacity 100000, a worker pool sized to the configured workers, an unbuffered finished channel. */
  method BootstrapChannels(b: Boot) returns (ch: Models.CommunitationChans)
    ensures fresh(ch.queue) && fresh(ch.workers) && fresh(ch.finished)
    ensures ch.queue.capacity == QueueCapacity && ch.queue.sent == []
    ensures ch.workers.capacity == b.config.GetConfig().workers && ch.workers.sent == []
    ensures ch.finished.capacity == 0 && ch.finished.sent == []
  {
    var queue := new Channel<string>(QueueCapacity);
    var workers := new Channel<int>(b.config.GetConfig().workers);
    var finished := new Channel<int>(0);
    ch := Models.CommunitationChans(queue, workers, finished);
  }

  /** The worker tokens StartWorkersQueue sends for `w` configured workers: 1, 2, ..., w (none when w <= 0). */
  function WorkerTokens(w: int): (ids: seq<int>)
    ensures |ids| == if w > 0 then w else 0
    ensures forall k :: 0 <= k < |ids| ==> ids[k] == k + 1
  {
    if w <= 0 then [] else WorkerTokens(w - 1) + [w]
  }

  /** The tokens are strictly increasing, hence distinct, and are exactly the integers 1..w. */
  lemma WorkerTokensDistinct(w: int)
    ensures forall i, j :: 0 <= i < j < |WorkerTokens(w)| ==> WorkerTokens(w)[i] < WorkerTokens(w)[j]
    ensures forall x :: x in WorkerTokens(w) <==> 1 <= x <= w
  {
    var ids := WorkerTokens(w);
    forall x | 1 <= x <= w ensures x in ids {
      assert ids[x - 1] == x;
    }
  }

  /** StartWorkersQueue: push the tokens 1..Workers into the pool, in increasing order. */
  method StartWorkersQueue(b: Boot, workers: Channel<int>)
    modifies workers
    ensures workers.sent == old(workers.sent) + WorkerTokens(b.config.GetConfig().workers)
  {
    var i := 0;
    while i < b.config.GetConfig().workers
      invariant 0 <= i && (i == 0 || i <= b.config.GetConfig().workers)
      invariant workers.sent == old(workers.sent) + WorkerTokens(i)
    {
      workers.Send(i + 1);
      i := i + 1;
    }
  }
}
