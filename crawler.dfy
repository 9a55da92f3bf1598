/**
 * pkg/crawler: one crawl task. ExtractLinks fetches its page, walks the
 * tokenizer's output and sends every accepted anchor link to the queue; on
 * every exit it calls wg.Done and hands its worker ID back to the pool.
 * Fetching (net/http) and tokenizing (golang.org/x/net/html) are inputs: a
 * `Response` is either the fetch error or the tokens the tokenizer yields
 * followed by how it stopped.
 */
module Crawler {
  import opened Wrappers
  import opened Url
  import opened GoRuntime

  /** html.TokenType, without ErrorToken: that one ends the stream and is a `TokenizerEnd`. */
  datatype TokenKind = TextToken | StartTagToken | EndTagToken | SelfClosingTagToken | CommentToken | DoctypeToken

  /** html.Attribute (its namespace is not used). */
  datatype Attribute = Attribute(key: string, val: string)

  /** html.Token: the tag name or text in `data`, attributes in document order. */
  datatype Token = Token(kind: TokenKind, data: string, attrs: seq<Attribute>) {
    predicate IsTag() {
      kind == StartTagToken || kind == SelfClosingTagToken
    }
  }

  /** How the tokenizer stopped: `io.EOF` or another error. */
  datatype TokenizerEnd = EOF | Broken(cause: string)

  /** What `http.Get` and the tokenizer produce for the crawler's page. */
  datatype Response = FetchFailed(cause: string) | Fetched(tokens: seq<Token>, end: TokenizerEnd)

  /** The errors of crawler.go. */
  datatype CrawlError =
    | PageParseError(webPage: string)          // "error parsing the provided URL: ..."
    | VisitError(worker: int, cause: string)   // "worker: %d - error visiting page: ..."
    | TokenizeError(worker: int, cause: string) // "worker: %d error tokenizing HTML: ..."

  /** checkURL: only absolute URLs whose path is neither "/" nor empty are followed; the host is not looked at. */
  function CheckURL(u: URL): (ok: bool)
    ensures ok <==> u.scheme != "" && u.path != "/" && u.path != ""
  {
    if !u.IsAbs() then false
    else if u.path == "/" || u.path == "" then false
    else true
  }

  /** An attribute extractTagLink takes: an href that parses and passes checkURL. */
  predicate Accepts(lib: Library, a: Attribute) {
    a.key == "href" && lib.parse(a.val).Some? && CheckURL(lib.parse(a.val).value)
  }

  /** The string queued for an accepted attribute: the parsed URL re-rendered. */
  function Rendered(lib: Library, a: Attribute): string
    requires Accepts(lib, a)
  {
    lib.render(lib.parse(a.val).value)
  }

  /** The link of the first accepted attribute of `attrs`. */
  function FirstHref(lib: Library, attrs: seq<Attribute>): Option<string> {
    if attrs == [] then None
    else if Accepts(lib, attrs[0]) then Some(Rendered(lib, attrs[0]))
    else FirstHref(lib, attrs[1..])
  }

  /** The link extractTagLink yields for a token: only `a` tags have one. */
  function TagLink(lib: Library, t: Token): Option<string> {
    if t.data == "a" then FirstHref(lib, t.attrs) else None
  }

  /** What one token contributes to the queue: ExtractLinks only looks at start and self-closing tags. */
  function LinkOf(lib: Library, t: Token): seq<string> {
    if t.IsTag() && TagLink(lib, t).Some? then [TagLink(lib, t).value] else []
  }

  /** The links a token stream contributes, in document order. */
  function Links(lib: Library, ts: seq<Token>): seq<string> {
    if ts == [] then [] else Links(lib, ts[..|ts| - 1]) + LinkOf(lib, ts[|ts| - 1])
  }

  /** Everything one ExtractLinks call sends to the queue. */
  function Discovered(lib: Library, r: Response): seq<string> {
    match r
    case FetchFailed(_) => []
    case Fetched(ts, _) => Links(lib, ts)
  }

  /** The error one ExtractLinks call returns. */
  function ExitError(id: int, r: Response): Option<CrawlError> {
    match r
    case FetchFailed(cause) => Some(VisitError(id, cause))
    case Fetched(_, EOF) => None
    case Fetched(_, Broken(cause)) => Some(TokenizeError(id, cause))
  }

  /**
   * extractTagLink: scan the attributes of an `a` token for the first href
   * that parses and passes checkURL, and stop there. An href that does not
   * parse is skipped. The error result is always nil.
   */
  method ExtractTagLink(lib: Library, token: Token) returns (link: Option<string>, err: Option<CrawlError>)
    ensures link == TagLink(lib, token)
    ensures token.data != "a" ==> link == None
    ensures err == None
  {
    link := None;
    if token.data == "a" {
      var i := 0;
      while i < |token.attrs|
        invariant 0 <= i <= |token.attrs|
        invariant link == None
        invariant FirstHref(lib, token.attrs) == FirstHref(lib, token.attrs[i..])
      {
        var attr := token.attrs[i];
        if attr.key == "href" {
          var parsed := lib.parse(attr.val);
          if parsed.Some? {
            if CheckURL(parsed.value) {
              link := Some(lib.render(parsed.value));
              break;
            }
          }
        }
        assert token.attrs[i..][1..] == token.attrs[i + 1..];
        i := i + 1;
      }
    }
    err := None;
  }

  /** A Crawler: its worker ID, its page, and the WaitGroup and channels it reports to. */
  class Crawler {
    const id: int
    const page: URL
    const wg: WaitGroup
    const queue: Channel<string>
    const workers: Channel<int>
    const lib: Library

    constructor (id: int, page: URL, wg: WaitGroup, queue: Channel<string>, workers: Channel<int>, lib: Library)
      ensures this.id == id && this.page == page && this.wg == wg
      ensures this.queue == queue && this.workers == workers && this.lib == lib
    {
      this.id := id;
      this.page := page;
      this.wg := wg;
      this.queue := queue;
      this.workers := workers;
      this.lib := lib;
    }

    /** returnWorker: hand this crawler's worker ID back to the pool. */
    method ReturnWorker()
      modifies workers
      ensures workers.sent == old(workers.sent) + [id]
    {
      workers.Send(id);
    }

    /**
     * ExtractLinks: queue the accepted links of the page in document order and
     * return nil at EOF, or the fetch or tokenizer error. On every exit path the
     * deferred calls run once each: wg.Done, then returnWorker.
     */
    method ExtractLinks(response: Response) returns (err: Option<CrawlError>)
      modifies wg, queue, workers
      ensures queue.sent == old(queue.sent) + Discovered(lib, response)
      ensures workers.sent == old(workers.sent) + [id]
      ensures wg.counter == old(wg.counter) - 1
      ensures err == ExitError(id, response)
    {
      match response {
        case FetchFailed(cause) =>
          err := Some(VisitError(id, cause));
        case Fetched(tokens, end) =>
          var i := 0;
          while i < |tokens|
            invariant 0 <= i <= |tokens|
            invariant queue.sent == old(queue.sent) + Links(lib, tokens[..i])
            invariant workers.sent == old(workers.sent)
            invariant wg.counter == old(wg.counter)
          {
            var token := tokens[i];
            if token.IsTag() {
              var link, tagErr := ExtractTagLink(lib, token);
              if tagErr.Some? {
                assert false;
              }
              if link.Some? {
                queue.Send(link.value);
              }
            }
            assert tokens[..i + 1][..i] == tokens[..i];
            i := i + 1;
          }
          assert tokens[..i] == tokens;
          err := if end.EOF? then None else Some(TokenizeError(id, end.cause));
      }
      wg.Done();
      ReturnWorker();
    }

    /** SpinUpCrawler: run ExtractLinks; its error only goes to the logger. */
    method SpinUpCrawler(response: Response)
      modifies wg, queue, workers
      ensures queue.sent == old(queue.sent) + Discovered(lib, response)
      ensures workers.sent == old(workers.sent) + [id]
      ensures wg.counter == old(wg.counter) - 1
    {
      var _ := ExtractLinks(response);
    }
  }

  /** NewCrawler: parse the page URL; a parse failure yields no crawler and an error. */
  method NewCrawler(id: int, webPage: string, wg: WaitGroup, queue: Channel<string>, workers: Channel<int>, lib: Library)
    returns (c: Crawler?, err: Option<CrawlError>)
    ensures lib.parse(webPage).None? ==> c == null && err == Some(PageParseError(webPage))
    ensures lib.parse(webPage).Some? ==>
      && err == None && c != null && fresh(c)
      && c.id == id && c.page == lib.parse(webPage).value && c.wg == wg
      && c.queue == queue && c.workers == workers && c.lib == lib
  {
    var linkURL := lib.parse(webPage);
    if linkURL.None? {
      return null, Some(PageParseError(webPage));
    }
    c := new Crawler(id, linkURL.value, wg, queue, workers, lib);
    err := None;
  }

  // ---------------------------------------------------------------------
  // Properties of link selection

  /** checkURL never compares hosts: changing the host never changes the answer. */
  lemma CheckURLIgnoresHost(u: URL, host: string)
    ensures CheckURL(u.(host := host)) == CheckURL(u)
  {
  }

  /**
   * The four cases of crawler_test.go's TestCheckURL, as the code decides them:
   * the different-host URL is accepted, because the code performs no host check.
   */
  lemma CheckURLTestCases()
    ensures CheckURL(URL("https", "example.com", "/path"))
    ensures CheckURL(URL("https", "example2.com", "/path"))
    ensures !CheckURL(URL("https", "example.com", "/"))
    ensures !CheckURL(URL("", "", "relative/path"))
  {
  }

  /** The first accepted attribute decides: FirstHref is the link of attrs[i] for the least accepted i. */
  lemma {:induction false} FirstHrefIsFirstAccepted(lib: Library, attrs: seq<Attribute>, i: nat)
    requires i < |attrs| && Accepts(lib, attrs[i])
    requires forall j :: 0 <= j < i ==> !Accepts(lib, attrs[j])
    ensures FirstHref(lib, attrs) == Some(Rendered(lib, attrs[i]))
  {
    if i > 0 {
      assert !Accepts(lib, attrs[0]);
      FirstHrefIsFirstAccepted(lib, attrs[1..], i - 1);
    }
  }

  /** No attribute accepted, no link; and a link always comes from some accepted attribute. */
  lemma {:induction false} FirstHrefNone(lib: Library, attrs: seq<Attribute>)
    ensures FirstHref(lib, attrs) == None <==> forall j :: 0 <= j < |attrs| ==> !Accepts(lib, attrs[j])
  {
    if attrs != [] {
      FirstHrefNone(lib, attrs[1..]);
      assert forall j :: 1 <= j < |attrs| ==> attrs[j] == attrs[1..][j - 1];
    }
  }

  /**
   * An attribute that is not accepted (another key, an href that does not
   * parse, or one that fails checkURL) is skipped: removing it changes nothing.
   */
  lemma {:induction false} RejectedAttributeIsSkipped(lib: Library, before: seq<Attribute>, a: Attribute, after: seq<Attribute>)
    requires !Accepts(lib, a)
    ensures FirstHref(lib, before + [a] + after) == FirstHref(lib, before + after)
  {
    if before == [] {
      assert before + [a] + after == [a] + after;
      assert before + after == after;
      assert ([a] + after)[1..] == after;
    } else {
      assert (before + [a] + after)[0] == before[0] == (before + after)[0];
      assert (before + [a] + after)[1..] == before[1..] + [a] + after;
      assert (before + after)[1..] == before[1..] + after;
      RejectedAttributeIsSkipped(lib, before[1..], a, after);
    }
  }

  /** Document order: the links of two consecutive stretches of tokens are concatenated. */
  lemma {:induction false} LinksAppend(lib: Library, a: seq<Token>, b: seq<Token>)
    ensures Links(lib, a + b) == Links(lib, a) + Links(lib, b)
  {
    if b == [] {
      assert a + b == a;
    } else {
      var b' := b[..|b| - 1];
      assert (a + b)[..|a + b| - 1] == a + b';
      LinksAppend(lib, a, b');
    }
  }

  /** The number of start and self-closing tags in a stream. */
  function TagCount(ts: seq<Token>): nat {
    if ts == [] then 0 else TagCount(ts[..|ts| - 1]) + (if ts[|ts| - 1].IsTag() then 1 else 0)
  }

  /** At most one link per start or self-closing tag. */
  lemma {:induction false} LinksAtMostOnePerTag(lib: Library, ts: seq<Token>)
    ensures |Links(lib, ts)| <= TagCount(ts)
  {
    if ts != [] {
      LinksAtMostOnePerTag(lib, ts[..|ts| - 1]);
    }
  }

  /**
   * Every queued link is the rendered first accepted href of some anchor
   * start or self-closing tag of the stream (document order is LinksAppend).
   */
  lemma {:induction false} LinksComeFromAnchors(lib: Library, ts: seq<Token>, k: nat)
    requires k < |Links(lib, ts)|
    ensures exists i :: 0 <= i < |ts| && ts[i].IsTag() && ts[i].data == "a" && FirstHref(lib, ts[i].attrs) == Some(Links(lib, ts)[k])
  {
    var init := ts[..|ts| - 1];
    var last := ts[|ts| - 1];
    if k < |Links(lib, init)| {
      LinksComeFromAnchors(lib, init, k);
      var i :| 0 <= i < |init| && init[i].IsTag() && init[i].data == "a" && FirstHref(lib, init[i].attrs) == Some(Links(lib, init)[k]);
      assert ts[i] == init[i];
    } else {
      assert Links(lib, ts)[k] == TagLink(lib, last).value;
    }
  }

  /** A tag whose every href fails to parse contributes nothing, and the links around it are still collected. */
  lemma {:induction false} UnparsableLinkIsSkipped(lib: Library, before: seq<Token>, t: Token, after: seq<Token>)
    requires forall j :: 0 <= j < |t.attrs| && t.attrs[j].key == "href" ==> lib.parse(t.attrs[j].val).None?
    ensures Links(lib, before + [t] + after) == Links(lib, before) + Links(lib, after)
  {
    NoAcceptedHref(lib, t);
    LinksAppend(lib, before, [t]);
    LinksAppend(lib, before + [t], after);
  }

  /** A tag none of whose hrefs parses contributes no link. */
  lemma NoAcceptedHref(lib: Library, t: Token)
    requires forall j :: 0 <= j < |t.attrs| && t.attrs[j].key == "href" ==> lib.parse(t.attrs[j].val).None?
    ensures Links(lib, [t]) == []
  {
    forall j | 0 <= j < |t.attrs| ensures !Accepts(lib, t.attrs[j]) { }
    FirstHrefNone(lib, t.attrs);
    assert [t][..0] == [];
  }
}
