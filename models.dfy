/** The records of internal/models/config.go. */
module Models {
  import opened GoRuntime

  /** models.Config; the field names keep the source's spelling (`WepPage`). */
  datatype Config = Config(workers: int, wepPage: string, queueSize: int)

  /** models.SiteStore, persisted as `{"sites": {...}}`: slugged site keys mapped to a visited flag. */
  datatype SiteStore = SiteStore(sites: map<string, bool>)

  /** models.CommunitationChans: the link queue, the worker-token pool and the finished channel. */
  datatype CommunitationChans = CommunitationChans(queue: Channel<string>, workers: Channel<int>, finished: Channel<int>)
}
