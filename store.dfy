/**
 * pkg/store: the visited-site ledger. The ledger lives in an in-memory file
 * (the ImFile interface of pkg/store/memfile.go) as the JSON encoding of a
 * models.SiteStore; every check-and-mark decodes the whole file and, for a
 * new site, truncates it and writes the whole re-encoded payload at offset 0.
 */
module Store {
  import opened Wrappers
  import opened Models

  newtype byte = x: int | 0 <= x < 256

  /** encoding/json's Marshal and Unmarshal at type models.SiteStore (None where Unmarshal fails). */
  datatype Json = Json(marshal: SiteStore -> seq<byte>, unmarshal: seq<byte> -> Option<SiteStore>)

  /**
   * What encoding/json guarantees and the store relies on: a marshalled
   * SiteStore decodes back to itself, and an empty file is not valid JSON.
   */
  ghost predicate Lawful(json: Json) {
    && (forall d :: json.unmarshal(json.marshal(d)) == Some(d))
    && json.unmarshal([]) == None
  }

  /** One call on the file, as the test mocks of store_test.go observe it. */
  datatype FileCall = BytesCall | TruncateCall(size: int) | WriteAtCall(payload: seq<byte>, offset: int)

  /** The errors of store.go, by the message prefix they carry. */
  datatype StoreError =
    | DecodeError                  // "error decoding unmarshaling data: ..."
    | TruncateError(cause: string) // "error truncating visited data ..."
    | WriteError(cause: string)    // "error writing visited data ..."

  /** The bytes of a file cut down, or extended with zero bytes, to `size`. */
  function Resized(data: seq<byte>, size: nat): (r: seq<byte>)
    ensures |r| == size
    ensures forall i :: 0 <= i < size ==> r[i] == if i < |data| then data[i] else 0
  {
    if size <= |data| then data[..size] else data + seq(size - |data|, _ => 0)
  }

  /** The bytes of a file after `b` is written at `offset` (the io.WriterAt contract; a gap is zero-filled). */
  function Overwritten(data: seq<byte>, b: seq<byte>, offset: nat): (r: seq<byte>)
    ensures |r| == if |data| < offset + |b| then offset + |b| else |data|
    ensures forall i :: 0 <= i < |r| ==>
      r[i] == if offset <= i < offset + |b| then b[i - offset] else if i < |data| then data[i] else 0
  {
    var base := Resized(data, if |data| < offset + |b| then offset + |b| else |data|);
    base[..offset] + b + base[offset + |b|..]
  }

  /**
   * An ImFile whose failures are injected, as the generated mock of the tests
   * does: `Truncate` fails with `truncateFault` and `WriteAt` with
   * `writeFault` whenever these are set, and a failing call changes nothing.
   * `calls` records every call made on the file.
   */
  class MemFile {
    var data: seq<byte>
    var calls: seq<FileCall>
    const truncateFault: Option<string>
    const writeFault: Option<string>

    constructor (data: seq<byte>, truncateFault: Option<string>, writeFault: Option<string>)
      ensures this.data == data && calls == []
      ensures this.truncateFault == truncateFault && this.writeFault == writeFault
    {
      this.data := data;
      calls := [];
      this.truncateFault := truncateFault;
      this.writeFault := writeFault;
    }

    method Bytes() returns (b: seq<byte>)
      modifies this`calls
      ensures b == data
      ensures calls == old(calls) + [BytesCall]
    {
      b := data;
      calls := calls + [BytesCall];
    }

    method Truncate(size: nat) returns (err: Option<string>)
      modifies this
      ensures err == truncateFault
      ensures data == if err.None? then Resized(old(data), size) else old(data)
      ensures calls == old(calls) + [TruncateCall(size)]
    {
      err := truncateFault;
      if err.None? {
        data := Resized(data, size);
      }
      calls := calls + [TruncateCall(size)];
    }

    method WriteAt(b: seq<byte>, offset: nat) returns (n: int, err: Option<string>)
      modifies this
      ensures err == writeFault
      ensures n == if err.None? then |b| else 0
      ensures data == if err.None? then Overwritten(old(data), b, offset) else old(data)
      ensures calls == old(calls) + [WriteAtCall(b, offset)]
    {
      err := writeFault;
      if err.None? {
        data := Overwritten(data, b, offset);
        n := |b|;
      } else {
        n := 0;
      }
      calls := calls + [WriteAtCall(b, offset)];
    }
  }

  /** What one store operation answers, the bytes it leaves in the file, and the file calls it makes. */
  datatype Outcome = Outcome(visited: bool, err: Option<StoreError>, data: seq<byte>, calls: seq<FileCall>)

  /** The payload StoreData writes: the given ledger with `site` marked visited. */
  function Payload(json: Json, site: string, store: SiteStore): seq<byte> {
    json.marshal(SiteStore(store.sites[site := true]))
  }

  /** StoreData(site, store) on a file holding `data` whose faults are `truncateFault` and `writeFault`. */
  function StoreDataOutcome(json: Json, site: string, store: SiteStore, data: seq<byte>,
                            truncateFault: Option<string>, writeFault: Option<string>): Outcome
  {
    var payload := Payload(json, site, store);
    if truncateFault.Some? then
      Outcome(false, Some(TruncateError(truncateFault.value)), data, [TruncateCall(0)])
    else if writeFault.Some? then
      Outcome(false, Some(WriteError(writeFault.value)), Resized(data, 0), [TruncateCall(0), WriteAtCall(payload, 0)])
    else
      Outcome(false, None, Overwritten(Resized(data, 0), payload, 0), [TruncateCall(0), WriteAtCall(payload, 0)])
  }

  /** WasAlreadyVisited(site) on a file holding `data`. */
  function VisitOutcome(json: Json, slug: string -> string, site: string, data: seq<byte>,
                        truncateFault: Option<string>, writeFault: Option<string>): Outcome
  {
    var key := slug(site);
    match json.unmarshal(data)
    case None => Outcome(false, Some(DecodeError), data, [BytesCall])
    case Some(store) =>
      if key in store.sites then Outcome(true, None, data, [BytesCall])
      else
        var o := StoreDataOutcome(json, key, store, data, truncateFault, writeFault);
        o.(calls := [BytesCall] + o.calls)
  }

  /**
   * The store struct of store.go: the ledger file, plus the two library
   * functions it calls, encoding/json (`json`) and slug.Make (`slug`).
   * The mutex is not modelled: each call is one atomic step.
   */
  class Store {
    const file: MemFile
    const json: Json
    const slug: string -> string

    /** NewMemfileStore */
    constructor (file: MemFile, json: Json, slug: string -> string)
      ensures this.file == file && this.json == json && this.slug == slug
    {
      this.file := file;
      this.json := json;
      this.slug := slug;
    }

    /** readData: decode the whole file. */
    method ReadData() returns (r: Result<SiteStore, StoreError>)
      modifies file`calls
      ensures r == match json.unmarshal(file.data)
                   case Some(store) => Success(store)
                   case None => Failure(DecodeError)
      ensures file.calls == old(file.calls) + [BytesCall]
    {
      var bytes := file.Bytes();
      var decoded := json.unmarshal(bytes);
      if decoded.None? {
        return Failure(DecodeError);
      }
      return Success(decoded.value);
    }

    /** StoreData: mark `site` visited in `store`, truncate the file and write the whole payload at offset 0. */
    method StoreData(site: string, store: SiteStore) returns (err: Option<StoreError>)
      modifies file
      ensures var o := StoreDataOutcome(json, site, store, old(file.data), file.truncateFault, file.writeFault);
              err == o.err && file.data == o.data && file.calls == old(file.calls) + o.calls
    {
      var data := SiteStore(store.sites[site := true]);
      var payload := json.marshal(data);
      var truncated := file.Truncate(0);
      if truncated.Some? {
        return Some(TruncateError(truncated.value));
      }
      var _, written := file.WriteAt(payload, 0);
      if written.Some? {
        return Some(WriteError(written.value));
      }
      return None;
    }

    /** WasAlreadyVisited: answer whether slug(site) is in the ledger, and record it if it is not. */
    method WasAlreadyVisited(site: string) returns (visited: bool, err: Option<StoreError>)
      modifies file
      ensures var o := VisitOutcome(json, slug, site, old(file.data), file.truncateFault, file.writeFault);
              visited == o.visited && err == o.err && file.data == o.data && file.calls == old(file.calls) + o.calls
    {
      var slugSite := slug(site);
      var read := ReadData();
      if read.Failure? {
        return false, Some(read.error);
      }
      if slugSite !in read.value.sites {
        var stored := StoreData(slugSite, read.value);
        if stored.Some? {
          return false, stored;
        }
        return false, None;
      }
      return true, None;
    }
  }

  // ---------------------------------------------------------------------
  // Properties of the ledger operations

  /** Truncating to 0 and writing at offset 0 leaves exactly the payload: no stale bytes survive. */
  lemma FullRewrite(data: seq<byte>, payload: seq<byte>)
    ensures Overwritten(Resized(data, 0), payload, 0) == payload
  {
    var r := Overwritten(Resized(data, 0), payload, 0);
    assert |r| == |payload|;
    forall i | 0 <= i < |r| ensures r[i] == payload[i] { }
  }

  /** A key already in the ledger answers (true, nil) after one read, and the file is not touched. */
  lemma AlreadyVisitedWritesNothing(json: Json, slug: string -> string, site: string, data: seq<byte>,
                                    truncateFault: Option<string>, writeFault: Option<string>)
    requires json.unmarshal(data).Some? && slug(site) in json.unmarshal(data).value.sites
    ensures VisitOutcome(json, slug, site, data, truncateFault, writeFault) == Outcome(true, None, data, [BytesCall])
  {
  }

  /**
   * A new key: the file is truncated to 0 and rewritten at offset 0 with the
   * old entries plus slug(site) -> true, and the call answers (false, nil).
   */
  lemma NewSiteIsRecorded(json: Json, slug: string -> string, site: string, data: seq<byte>)
    requires Lawful(json)
    requires json.unmarshal(data).Some? && slug(site) !in json.unmarshal(data).value.sites
    ensures var o := VisitOutcome(json, slug, site, data, None, None);
            var old_sites := json.unmarshal(data).value.sites;
            && o.visited == false && o.err == None
            && o.data == json.marshal(SiteStore(old_sites[slug(site) := true]))
            && json.unmarshal(o.data) == Some(SiteStore(old_sites[slug(site) := true]))
            && o.calls == [BytesCall, TruncateCall(0), WriteAtCall(o.data, 0)]
  {
    var store := json.unmarshal(data).value;
    FullRewrite(data, Payload(json, slug(site), store));
  }

  /** An undecodable ledger answers (false, DecodeError): nothing is truncated or written. */
  lemma DecodeFailureLeavesLedger(json: Json, slug: string -> string, site: string, data: seq<byte>,
                                  truncateFault: Option<string>, writeFault: Option<string>)
    requires json.unmarshal(data).None?
    ensures VisitOutcome(json, slug, site, data, truncateFault, writeFault) == Outcome(false, Some(DecodeError), data, [BytesCall])
  {
  }

  /** A failing Truncate(0) answers (false, TruncateError); WriteAt is never called and the file is unchanged. */
  lemma TruncateFailureSkipsWrite(json: Json, slug: string -> string, site: string, data: seq<byte>,
                                  cause: string, writeFault: Option<string>)
    requires json.unmarshal(data).Some? && slug(site) !in json.unmarshal(data).value.sites
    ensures VisitOutcome(json, slug, site, data, Some(cause), writeFault)
         == Outcome(false, Some(TruncateError(cause)), data, [BytesCall, TruncateCall(0)])
  {
  }

  /**
   * A failing WriteAt answers (false, WriteError), and only after Truncate(0)
   * has succeeded: the file is left empty.
   */
  lemma WriteFailureAfterTruncate(json: Json, slug: string -> string, site: string, data: seq<byte>, cause: string)
    requires json.unmarshal(data).Some? && slug(site) !in json.unmarshal(data).value.sites
    ensures var o := VisitOutcome(json, slug, site, data, None, Some(cause));
            && o.visited == false && o.err == Some(WriteError(cause)) && o.data == []
            && |o.calls| == 3 && o.calls[..2] == [BytesCall, TruncateCall(0)] && o.calls[2].WriteAtCall?
  {
  }

  /** After a failed write the ledger is empty and every later call fails to decode, whatever the site. */
  lemma WriteFailureBreaksLedger(json: Json, slug: string -> string, site: string, other: string,
                                 data: seq<byte>, cause: string, truncateFault: Option<string>, writeFault: Option<string>)
    requires Lawful(json)
    requires json.unmarshal(data).Some? && slug(site) !in json.unmarshal(data).value.sites
    ensures var o := VisitOutcome(json, slug, site, data, None, Some(cause));
            VisitOutcome(json, slug, other, o.data, truncateFault, writeFault).err == Some(DecodeError)
  {
  }

  /**
   * Lookup is by slug(site), not by the raw string: the answer is true exactly
   * when the ledger decodes and holds slug(site), whether or not it holds `site`.
   */
  lemma LookupUsesSlug(json: Json, slug: string -> string, site: string, data: seq<byte>,
                       truncateFault: Option<string>, writeFault: Option<string>)
    ensures VisitOutcome(json, slug, site, data, truncateFault, writeFault).visited
        <==> json.unmarshal(data).Some? && slug(site) in json.unmarshal(data).value.sites
  {
  }

  /**
   * The truncate-error case of store_test.go: the ledger holds the raw key
   * "mocK-site.com", the input "mock-site.com" slugs to "mock-site-com",
   * which is absent, so the store tries to record it and reports the
   * truncate failure.
   */
  lemma MixedCaseRawKeyDoesNotMatch(json: Json, slug: string -> string, data: seq<byte>)
    requires slug("mock-site.com") == "mock-site-com"
    requires json.unmarshal(data) == Some(SiteStore(map["mocK-site.com" := true]))
    ensures VisitOutcome(json, slug, "mock-site.com", data, Some("mock-error"), None)
         == Outcome(false, Some(TruncateError("mock-error")), data, [BytesCall, TruncateCall(0)])
  {
    assert "mock-site-com" != "mocK-site.com";
  }

  /** Idempotence: once a call has answered (false, nil), the same site answers (true, nil) and writes nothing. */
  lemma SecondVisitIsKnown(json: Json, slug: string -> string, site: string, data: seq<byte>,
                           truncateFault: Option<string>, writeFault: Option<string>,
                           truncateFault': Option<string>, writeFault': Option<string>)
    requires Lawful(json)
    requires var o := VisitOutcome(json, slug, site, data, truncateFault, writeFault);
             !o.visited && o.err.None?
    ensures var o := VisitOutcome(json, slug, site, data, truncateFault, writeFault);
            VisitOutcome(json, slug, site, o.data, truncateFault', writeFault') == Outcome(true, None, o.data, [BytesCall])
  {
    var store := json.unmarshal(data).value;
    FullRewrite(data, Payload(json, slug(site), store));
  }

  /**
   * A successful StoreData rewrites the whole file at offset 0 with a ledger
   * that adds `site -> true` and keeps every other entry as it was.
   */
  lemma StoreDataOnlyAdds(json: Json, site: string, store: SiteStore, data: seq<byte>)
    requires Lawful(json)
    ensures var o := StoreDataOutcome(json, site, store, data, None, None);
            && o.err == None
            && o.calls == [TruncateCall(0), WriteAtCall(o.data, 0)]
            && json.unmarshal(o.data).Some?
            && var sites := json.unmarshal(o.data).value.sites;
               && sites.Keys == store.sites.Keys + {site}
               && sites[site]
               && forall k :: k in store.sites && k != site ==> sites[k] == store.sites[k]
  {
    FullRewrite(data, Payload(json, site, store));
  }

  /** No successful call removes a key: the decoded ledger only grows. */
  lemma KeysOnlyGrow(json: Json, slug: string -> string, site: string, data: seq<byte>,
                     truncateFault: Option<string>, writeFault: Option<string>)
    requires Lawful(json)
    requires VisitOutcome(json, slug, site, data, truncateFault, writeFault).err.None?
    ensures var o := VisitOutcome(json, slug, site, data, truncateFault, writeFault);
            && json.unmarshal(data).Some? && json.unmarshal(o.data).Some?
            && json.unmarshal(data).value.sites.Keys <= json.unmarshal(o.data).value.sites.Keys
            && slug(site) in json.unmarshal(o.data).value.sites
  {
    var store := json.unmarshal(data).value;
    if slug(site) !in store.sites {
      FullRewrite(data, Payload(json, slug(site), store));
    }
  }
}
