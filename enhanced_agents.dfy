/** agent/enhanced_agents.py: the bookkeeping the enhanced autogen agents keep around the
    calls into autogen itself: retry counters and message history, the URL and file caches,
    the token and file rules, stall detection, speaker selection, phase parsing and checkpoint
    recovery. A call into an autogen superclass is an abstract `Reply`; the web and the
    file system are function parameters. */
module EnhancedAgents {
  import opened Text
  import opened Boundary

  const MaxRetries := 3

  /** `handle_error(error, agent_name, retry_count)`: whether another attempt is allowed. */
  predicate HandleError(retryCount: int) {
    retryCount < MaxRetries
  }

  /** The outcome of one call into an autogen superclass method. */
  datatype Reply = Replied(reply: string) | Raised

  // ---------------------------------------------------------------------------------
  // EnhancedAgent: history and retries

  datatype HistoryEntry = HistoryEntry(sender: string, message: string)

  /** The number of the attempt, counting from `k`, at which `process_message` stops when
      `retry` retries are already spent: the first attempt that replies, or the failing one
      after which `handle_error` refuses. */
  function AgentAttempts(retry: nat, attempt: nat -> Reply, k: nat): (n: nat)
    requires retry <= MaxRetries
    ensures k < n <= k + MaxRetries - retry + 1
    ensures forall j :: k <= j < n - 1 ==> attempt(j).Raised?
    ensures attempt(n - 1).Replied? || retry + (n - 1 - k) == MaxRetries
    decreases MaxRetries - retry
  {
    if attempt(k).Replied? || !HandleError(retry) then k + 1
    else AgentAttempts(retry + 1, attempt, k + 1)
  }

  /** What an enhanced agent keeps besides autogen's own state. */
  class EnhancedAgent {
    const name: string
    var retryCount: nat
    var conversationHistory: seq<HistoryEntry>

    /** `retry_count` is never reset and stops at MAX_RETRIES: at most three retries in the
        agent's whole life. */
    ghost predicate Valid()
      reads this
    {
      retryCount <= MaxRetries
    }

    constructor (name: string)
      ensures this.name == name && retryCount == 0 && conversationHistory == [] && Valid()
    {
      this.name := name;
      retryCount := 0;
      conversationHistory := [];
    }

    /** `process_message(message, sender)`: every attempt appends the message to the
        history; a failing attempt is retried while `handle_error` allows, spending one
        retry each time, and the last failure is re-raised. Attempt `k` of this call has
        outcome `attempt(k)`. */
    method ProcessMessage(message: string, sender: string, attempt: nat -> Reply) returns (r: Result<string>)
      requires Valid()
      modifies this
      ensures Valid()
      ensures var n := AgentAttempts(old(retryCount), attempt, 0);
              conversationHistory == old(conversationHistory) + seq(n, _ => HistoryEntry(sender, message))
              && retryCount == old(retryCount) + n - 1
              && r == if attempt(n - 1).Replied? then Ok(attempt(n - 1).reply) else Err(RuntimeFailure)
    {
      var entry := HistoryEntry(sender, message);
      var k := 0;
      while true
        invariant retryCount == old(retryCount) + k <= MaxRetries
        invariant conversationHistory == old(conversationHistory) + seq(k, _ => entry)
        invariant AgentAttempts(old(retryCount), attempt, 0) == AgentAttempts(retryCount, attempt, k)
        decreases MaxRetries - retryCount
      {
        assert seq(k + 1, _ => entry) == seq(k, _ => entry) + [entry];
        conversationHistory := conversationHistory + [entry];
        var outcome := attempt(k);
        if outcome.Replied? {
          return Ok(outcome.reply);
        }
        if !HandleError(retryCount) {
          return Err(RuntimeFailure);
        }
        retryCount := retryCount + 1;
        k := k + 1;
      }
    }
  }

  // ---------------------------------------------------------------------------------
  // Summaries, success flags and tokens

  const SummaryLimit := 500

  /** `content[:500] + "..." if len(content) > 500 else content` */
  function Summary(content: string): string {
    if |content| > SummaryLimit then content[..SummaryLimit] + "..." else content
  }

  /** A summary is at most 503 characters, keeps the content's first 500 verbatim, is the
      content itself when that is short enough, and summarising twice changes nothing. */
  lemma SummaryShape(content: string)
    ensures |Summary(content)| <= SummaryLimit + 3
    ensures |content| <= SummaryLimit ==> Summary(content) == content
    ensures |content| > SummaryLimit ==>
              Summary(content)[..SummaryLimit] == content[..SummaryLimit] && EndsWith(Summary(content), "...")
    ensures Summary(Summary(content)) == Summary(content)
  {
    var s := Summary(content);
    if |content| > SummaryLimit {
      assert s[..SummaryLimit] == content[..SummaryLimit];
      assert Summary(s) == s[..SummaryLimit] + "...";
    }
  }

  /** The text `fetch_url_content` returns when the request fails. */
  function FetchError(url: string, detail: string): string {
    "Error fetching URL " + url + ": " + detail
  }

  /** `not content.startswith("Error:")`: the success test as written, which is also what
      `analyze_file_content` negates for its `error` entry. */
  predicate MarkedSuccessful(content: string) {
    !StartsWith(content, "Error:")
  }

  /** Every error text the two agents return begins with "Error". */
  predicate ErrorText(content: string) {
    StartsWith(content, "Error")
  }

  /** A failed fetch gives an error text that the written test still counts as a success. */
  lemma FetchErrorMarkedSuccessful(url: string, detail: string)
    ensures MarkedSuccessful(FetchError(url, detail))
    ensures ErrorText(FetchError(url, detail))
  {
    var e := FetchError(url, detail);
    assert e[5] == ' ';
    assert e[..5] == "Error";
  }

  /** The written test rejects only texts that look like errors. */
  lemma UnmarkedIsErrorText(content: string)
    ensures !MarkedSuccessful(content) ==> ErrorText(content)
  {
    if StartsWith(content, "Error:") {
      assert content[..5] == "Error:"[..5];
    }
  }

  /** The words of `ws` that `keep` accepts, in order. */
  function Filter(ws: seq<string>, keep: string -> bool): (r: seq<string>)
    ensures |r| <= |ws|
    ensures forall w :: w in r <==> w in ws && keep(w)
  {
    if ws == [] then []
    else
      var rest := Filter(ws[1..], keep);
      assert forall w :: w in ws <==> w == ws[0] || w in ws[1..];
      (if keep(ws[0]) then [ws[0]] else []) + rest
  }

  predicate IsWebUrl(w: string) {
    StartsWith(w, "http://") || StartsWith(w, "https://")
  }

  predicate IsFileUrl(w: string) {
    StartsWith(w, "file:///")
  }

  /** The URLs `WebResearchAgent.process_message` looks at. */
  function UrlTokens(message: string): seq<string> {
    Filter(Words(message), IsWebUrl)
  }

  /** The file URLs `FileSystemAgent.process_message` looks at. */
  function FileUrlTokens(message: string): seq<string> {
    Filter(Words(message), IsFileUrl)
  }

  /** No word has both a web prefix and the file prefix. */
  lemma PrefixesExclusive(w: string)
    ensures !(IsWebUrl(w) && IsFileUrl(w))
  {
    if IsFileUrl(w) {
      assert w[0] == "file:///"[0];
    }
  }

  /** The URL tokens are exactly the whitespace-separated words with a web prefix, the file
      URL tokens exactly those with the file prefix; no word is both, and none is empty or
      holds whitespace. */
  lemma TokensExact(message: string)
    ensures forall w :: w in UrlTokens(message) <==> w in Words(message) && IsWebUrl(w)
    ensures forall w :: w in FileUrlTokens(message) <==> w in Words(message) && IsFileUrl(w)
    ensures forall w :: w in UrlTokens(message) ==> w !in FileUrlTokens(message)
    ensures forall w :: w in UrlTokens(message) || w in FileUrlTokens(message) ==>
              w != [] && forall i :: 0 <= i < |w| ==> !IsSpace(w[i])
  {
    forall w | w in UrlTokens(message) ensures w !in FileUrlTokens(message) {
      PrefixesExclusive(w);
    }
  }

  // ---------------------------------------------------------------------------------
  // WebResearchAgent

  /** The outcome of `session.get(url)` and the page text BeautifulSoup extracts from it. */
  datatype Fetched = Page(text: string) | RequestError(detail: string)

  /** The headers, code blocks and link targets found in a text, as BeautifulSoup reports them. */
  datatype PageParts = PageParts(headers: seq<string>, codeBlocks: seq<string>, hrefs: seq<string>)

  /** Blank lines dropped and each line stripped, rejoined with "\n". */
  function CleanContent(text: string): string {
    Join("\n", NonBlankStripped(SplitLines(text)))
  }

  /** What `fetch_url_content` returns when it does not use the cache. */
  function FreshContent(url: string, fetch: string -> Fetched): string {
    match fetch(url)
    case Page(text) => CleanContent(text)
    case RequestError(detail) => FetchError(url, detail)
  }

  /** What `fetch_url_content(url)` returns with caching on. */
  function CachedContent(cache: map<string, string>, url: string, fetch: string -> Fetched): string {
    if url in cache then cache[url] else FreshContent(url, fetch)
  }

  /** The cache after one cached fetch of `url`: only a page that was fetched is stored. */
  function Store(cache: map<string, string>, url: string, fetch: string -> Fetched): map<string, string> {
    if url !in cache && fetch(url).Page? then cache[url := FreshContent(url, fetch)] else cache
  }

  /** The cache after cached fetches of `urls` in order. */
  function Remember(cache: map<string, string>, urls: seq<string>, fetch: string -> Fetched): map<string, string> {
    if urls == [] then cache
    else Store(Remember(cache, urls[..|urls| - 1], fetch), urls[|urls| - 1], fetch)
  }

  /** Storing a fetch never changes what a cached fetch of any URL returns. */
  lemma StoreTransparent(cache: map<string, string>, url: string, fetch: string -> Fetched)
    ensures forall v :: CachedContent(Store(cache, url, fetch), v, fetch) == CachedContent(cache, v, fetch)
  {
  }

  /** After fetching `urls`, the cache holds what it held, plus every URL among them whose
      request succeeded, with its cleaned page text; failed requests are never stored. */
  lemma {:induction false} RememberContents(cache: map<string, string>, urls: seq<string>, fetch: string -> Fetched)
    ensures var c := Remember(cache, urls, fetch);
            c.Keys == cache.Keys + (set u | u in urls && fetch(u).Page?)
            && (forall u :: u in cache ==> c[u] == cache[u])
            && (forall u :: u in c && u !in cache ==> fetch(u).Page? && c[u] == CleanContent(fetch(u).text))
  {
    if urls != [] {
      var init := urls[..|urls| - 1];
      RememberContents(cache, init, fetch);
      assert forall u :: u in urls <==> u in init || u == urls[|urls| - 1];
    }
  }

  /** What `analyze_url_content` reports for one URL; `timestamp` and the per-URL dict's
      other entries are not rendered and are left out. */
  datatype UrlAnalysis = UrlAnalysis(
    url: string, domain: string, contentLength: nat, summary: string, success: bool,
    keyPoints: seq<string>, codeSnippets: seq<string>, relatedLinks: seq<string>)

  /** `analyze_url_content` once the content is known; `netloc` is `urlparse(url).netloc`
      and `extract` what BeautifulSoup finds, None when it raises. */
  function Analyze(url: string, content: string, netloc: string -> string,
                   extract: string -> Option<PageParts>): UrlAnalysis
  {
    var parts := extract(content);
    UrlAnalysis(url, netloc(url), |content|, Summary(content), MarkedSuccessful(content),
                if parts.Some? then parts.value.headers else [],
                if parts.Some? then parts.value.codeBlocks else [],
                if parts.Some? then Filter(parts.value.hrefs, IsWebUrl) else [])
  }


  const MaxRelatedLinks := 5

  /** The related links the report shows. */
  function ShownLinks(links: seq<string>): (r: seq<string>)
    ensures |r| <= MaxRelatedLinks && r <= links
    ensures |links| <= MaxRelatedLinks ==> r == links
    ensures |links| > MaxRelatedLinks ==> |r| == MaxRelatedLinks
  {
    if |links| <= MaxRelatedLinks then links else links[..MaxRelatedLinks]
  }

  function Bullet(x: string): string {
    "- " + x + "\n"
  }

  function Bullets(xs: seq<string>): string {
    Concat(seq(|xs|, i requires 0 <= i < |xs| => Bullet(xs[i])))
  }

  function Fenced(x: string): string {
    "```\n" + x + "\n```\n"
  }

  /** The part of the response one URL contributes. */
  function UrlSection(url: string, a: UrlAnalysis): string {
    "URL: " + url + "\n" + "Domain: " + a.domain + "\n" + "Summary: " + a.summary + "\n"
    + (if a.keyPoints != [] then "\nKey Points:\n" + Bullets(a.keyPoints) else "")
    + (if a.codeSnippets != [] then
         "\nCode Snippets Found:\n" + Concat(seq(|a.codeSnippets|, i requires 0 <= i < |a.codeSnippets| => Fenced(a.codeSnippets[i])))
       else "")
    + (if a.relatedLinks != [] then "\nRelated Links:\n" + Bullets(ShownLinks(a.relatedLinks)) else "")
    + "\n---\n\n"
  }

  /** The analysis of `url` when the cache held `cache` before the message. */
  function AnalysisOf(cache: map<string, string>, url: string, fetch: string -> Fetched,
                      netloc: string -> string, extract: string -> Option<PageParts>): UrlAnalysis
  {
    Analyze(url, CachedContent(cache, url, fetch), netloc, extract)
  }

  /** The analysis as evidently intended: `success` says whether the content is a page that
      was fetched (the cache holds only those), not how its text begins. */
  function IntendedAnalysis(cache: map<string, string>, url: string, fetch: string -> Fetched,
                            netloc: string -> string, extract: string -> Option<PageParts>): UrlAnalysis
  {
    AnalysisOf(cache, url, fetch, netloc, extract).(success := url in cache || fetch(url).Page?)
  }

  /** A failed request is reported as a success as written, and as a failure as intended. */
  lemma FailedFetchReported(cache: map<string, string>, url: string, fetch: string -> Fetched,
                            netloc: string -> string, extract: string -> Option<PageParts>)
    requires url !in cache && fetch(url).RequestError?
    ensures AnalysisOf(cache, url, fetch, netloc, extract).success
    ensures !IntendedAnalysis(cache, url, fetch, netloc, extract).success
  {
    FetchErrorMarkedSuccessful(url, fetch(url).detail);
  }

  /** For a URL fetched afresh the two success flags disagree exactly when the request failed
      or the page's cleaned text happens to begin "Error:"; all other entries agree. */
  lemma SuccessFlagsDiffer(cache: map<string, string>, url: string, fetch: string -> Fetched,
                           netloc: string -> string, extract: string -> Option<PageParts>)
    requires url !in cache
    ensures var written := AnalysisOf(cache, url, fetch, netloc, extract);
            var intended := IntendedAnalysis(cache, url, fetch, netloc, extract);
            (written.success != intended.success <==>
               fetch(url).RequestError? || (fetch(url).Page? && StartsWith(CleanContent(fetch(url).text), "Error:")))
            && intended == written.(success := intended.success)
  {
    if fetch(url).RequestError? {
      FetchErrorMarkedSuccessful(url, fetch(url).detail);
    }
  }

  /** The sections of `urls`, in order. */
  function UrlReport(cache: map<string, string>, urls: seq<string>, fetch: string -> Fetched,
                     netloc: string -> string, extract: string -> Option<PageParts>): string
  {
    if urls == [] then ""
    else
      var last := urls[|urls| - 1];
      UrlReport(cache, urls[..|urls| - 1], fetch, netloc, extract)
      + UrlSection(last, AnalysisOf(cache, last, fetch, netloc, extract))
  }

  lemma ReportStep(cache: map<string, string>, urls: seq<string>, i: nat, fetch: string -> Fetched,
                   netloc: string -> string, extract: string -> Option<PageParts>)
    requires i < |urls|
    ensures UrlReport(cache, urls[..i + 1], fetch, netloc, extract)
            == UrlReport(cache, urls[..i], fetch, netloc, extract)
               + UrlSection(urls[i], AnalysisOf(cache, urls[i], fetch, netloc, extract))
  {
    assert urls[..i + 1][..i] == urls[..i];
  }

  lemma RememberStep(cache: map<string, string>, urls: seq<string>, i: nat, fetch: string -> Fetched)
    requires i < |urls|
    ensures Remember(cache, urls[..i + 1], fetch) == Store(Remember(cache, urls[..i], fetch), urls[i], fetch)
  {
    assert urls[..i + 1][..i] == urls[..i];
  }

  const UrlResponseHeader := "I found the following URLs and their content:\n\n"

  /** The message `WebResearchAgent.process_message` hands on to the agent it extends. */
  function WebForwarded(message: string, cache: map<string, string>, fetch: string -> Fetched,
                        netloc: string -> string, extract: string -> Option<PageParts>): string
  {
    var urls := UrlTokens(message);
    if urls == [] then message
    else message + "\n\nURL Analysis:\n" + UrlResponseHeader + UrlReport(cache, urls, fetch, netloc, extract)
  }

  /** The forwarded message starts with the original one and differs from it exactly when the
      message holds a URL token. */
  lemma WebForwardedExtends(message: string, cache: map<string, string>, fetch: string -> Fetched,
                            netloc: string -> string, extract: string -> Option<PageParts>)
    ensures StartsWith(WebForwarded(message, cache, fetch, netloc, extract), message)
    ensures WebForwarded(message, cache, fetch, netloc, extract) == message <==> UrlTokens(message) == []
  {
    var f := WebForwarded(message, cache, fetch, netloc, extract);
    if UrlTokens(message) != [] {
      assert |f| > |message|;
    }
  }

  class WebResearchAgent {
    var urlCache: map<string, string>
    var visitedUrls: set<string>

    /** Both are filled together, only for pages that were fetched with caching on. */
    ghost predicate Valid()
      reads this
    {
      visitedUrls == urlCache.Keys
    }

    constructor ()
      ensures urlCache == map[] && visitedUrls == {} && Valid()
    {
      urlCache := map[];
      visitedUrls := {};
    }

    /** `fetch_url_content(url, cache)`: a cached URL is answered from the cache without a
        request; otherwise the page is fetched and cleaned, and stored only when the request
        succeeded and caching is on; a failed request yields the error text. */
    method FetchUrlContent(url: string, cache: bool, fetch: string -> Fetched) returns (content: string)
      requires Valid()
      modifies this
      ensures Valid()
      ensures content == if cache then CachedContent(old(urlCache), url, fetch) else FreshContent(url, fetch)
      ensures urlCache == if cache then Store(old(urlCache), url, fetch) else old(urlCache)
    {
      if cache && url in urlCache {
        return urlCache[url];
      }
      match fetch(url) {
        case Page(text) =>
          content := CleanContent(text);
          if cache {
            urlCache := urlCache[url := content];
            visitedUrls := visitedUrls + {url};
          }
        case RequestError(detail) =>
          content := FetchError(url, detail);
      }
    }

    /** `analyze_url_content(url)` */
    method AnalyzeUrlContent(url: string, fetch: string -> Fetched, netloc: string -> string,
                             extract: string -> Option<PageParts>) returns (a: UrlAnalysis)
      requires Valid()
      modifies this
      ensures Valid()
      ensures a == AnalysisOf(old(urlCache), url, fetch, netloc, extract)
      ensures urlCache == Store(old(urlCache), url, fetch)
    {
      var content := FetchUrlContent(url, true, fetch);
      a := Analyze(url, content, netloc, extract);
    }

    /** The analyses of `urls` in order, each with the cache as it stands, rendered. */
    method ReportUrls(urls: seq<string>, fetch: string -> Fetched, netloc: string -> string,
                      extract: string -> Option<PageParts>) returns (report: string)
      requires Valid()
      modifies this
      ensures Valid()
      ensures report == UrlReport(old(urlCache), urls, fetch, netloc, extract)
      ensures urlCache == Remember(old(urlCache), urls, fetch)
    {
      report := "";
      var i := 0;
      assert urls[..0] == [];
      while i < |urls|
        invariant 0 <= i <= |urls| && Valid()
        invariant report == UrlReport(old(urlCache), urls[..i], fetch, netloc, extract)
        invariant urlCache == Remember(old(urlCache), urls[..i], fetch)
        invariant forall u :: CachedContent(urlCache, u, fetch) == CachedContent(old(urlCache), u, fetch)
      {
        ghost var before := urlCache;
        var a := AnalyzeUrlContent(urls[i], fetch, netloc, extract);
        assert CachedContent(before, urls[i], fetch) == CachedContent(old(urlCache), urls[i], fetch);
        StoreTransparent(before, urls[i], fetch);
        ReportStep(old(urlCache), urls, i, fetch, netloc, extract);
        RememberStep(old(urlCache), urls, i, fetch);
        report := report + UrlSection(urls[i], a);
        i := i + 1;
      }
      assert urls[..i] == urls;
    }

    /** `process_message(message, sender)` up to the call into the agent it extends: the
        URL tokens are analysed in order and the report is appended to the message. */
    method ProcessMessage(message: string, fetch: string -> Fetched, netloc: string -> string,
                          extract: string -> Option<PageParts>) returns (forwarded: string)
      requires Valid()
      modifies this
      ensures Valid()
      ensures forwarded == WebForwarded(message, old(urlCache), fetch, netloc, extract)
      ensures urlCache == Remember(old(urlCache), UrlTokens(message), fetch)
    {
      var urls := UrlTokens(message);
      var report := ReportUrls(urls, fetch, netloc, extract);
      if urls == [] {
        forwarded := message;
      } else {
        forwarded := message + "\n\nURL Analysis:\n" + UrlResponseHeader + report;
      }
    }
  }

  // ---------------------------------------------------------------------------------
  // FileSystemAgent

  /** What `os.stat(path)` gives or raises. */
  datatype StatResult = Stat(size: nat) | StatNotFound | StatDenied | StatFailure(detail: string)

  /** What reading the file as UTF-8 text gives or raises. */
  datatype Opened = Opened(content: string) | OpenNotFound | OpenDenied | OpenFailure(detail: string)

  datatype FileKind = TextFile | BinaryFile

  /** The recorded metadata; the modified and created timestamps are left out. */
  datatype Metadata = Metadata(size: nat, kind: FileKind)

  const TextExtensions := [".txt", ".md", ".py", ".js", ".html", ".css", ".json", ".xml", ".csv"]

  /** Files larger than this many bytes are not read. */
  const MaxFileSize := 10 * 1024 * 1024

  function KindOf(path: string): FileKind {
    if EndsWithAny(path, TextExtensions) then TextFile else BinaryFile
  }

  function NotFoundError(path: string): string {
    "Error: File " + path + " not found"
  }

  function DeniedError(path: string): string {
    "Error: Permission denied for file " + path
  }

  function ReadError(path: string, detail: string): string {
    "Error reading file " + path + ": " + detail
  }

  function TooLargeError(path: string, size: nat): string {
    "Error: File " + path + " is too large to process (size: " + Decimal(size) + " bytes)"
  }

  function BinaryError(path: string): string {
    "Error: File " + path + " appears to be a binary file"
  }

  /** A file whose text `read_file_content` returns. */
  predicate Readable(path: string, stat: string -> StatResult, open: string -> Opened) {
    stat(path).Stat? && stat(path).size <= MaxFileSize && KindOf(path) == TextFile && open(path).Opened?
  }

  /** What `read_file_content` returns when it does not use the cache. */
  function FreshFile(path: string, stat: string -> StatResult, open: string -> Opened): string {
    match stat(path)
    case StatNotFound => NotFoundError(path)
    case StatDenied => DeniedError(path)
    case StatFailure(detail) => ReadError(path, detail)
    case Stat(size) =>
      if size > MaxFileSize then TooLargeError(path, size)
      else if KindOf(path) == BinaryFile then BinaryError(path)
      else
        match open(path)
        case Opened(content) => content
        case OpenNotFound => NotFoundError(path)
        case OpenDenied => DeniedError(path)
        case OpenFailure(detail) => ReadError(path, detail)
  }

  lemma StartsWithError(rest: string)
    ensures ErrorText("Error" + rest)
  {
    assert ("Error" + rest)[..5] == "Error";
  }

  /** A failure other than not-found, permission, size or binary: `os.stat` or `open`
      raised something else, and the text is "Error reading file …". */
  predicate ReadFailure(path: string, stat: string -> StatResult, open: string -> Opened) {
    stat(path).StatFailure?
    || (stat(path).Stat? && stat(path).size <= MaxFileSize && KindOf(path) == TextFile && open(path).OpenFailure?)
  }

  /** The not-found, permission, size and binary texts all begin "Error:". */
  lemma ColonErrors(path: string)
    ensures !MarkedSuccessful(NotFoundError(path)) && !MarkedSuccessful(DeniedError(path))
    ensures !MarkedSuccessful(BinaryError(path))
    ensures forall size :: !MarkedSuccessful(TooLargeError(path, size))
  {
    ColonPrefix("Error: File " + path, " not found");
    ColonPrefix("Error: Permission denied for file ", path);
    ColonPrefix("Error: File " + path, " appears to be a binary file");
    forall size ensures !MarkedSuccessful(TooLargeError(path, size)) {
      ColonPrefix("Error: File " + path + " is too large to process (size: ", Decimal(size) + " bytes)");
      assert TooLargeError(path, size)
             == "Error: File " + path + " is too large to process (size: " + (Decimal(size) + " bytes)");
    }
  }

  lemma ColonPrefix(a: string, b: string)
    requires |a| >= 6 && a[..6] == "Error:"
    ensures !MarkedSuccessful(a + b)
  {
    assert (a + b)[..6] == a[..6];
  }

  /** Every file that is not readable yields an error text; the written test lets through
      exactly the "Error reading file" texts. */
  lemma FreshFileErrors(path: string, stat: string -> StatResult, open: string -> Opened)
    ensures Readable(path, stat, open) ==> FreshFile(path, stat, open) == open(path).content
    ensures !Readable(path, stat, open) ==> ErrorText(FreshFile(path, stat, open))
    ensures !Readable(path, stat, open) ==> (MarkedSuccessful(FreshFile(path, stat, open)) <==> ReadFailure(path, stat, open))
    ensures forall d :: MarkedSuccessful(ReadError(path, d))
  {
    if !Readable(path, stat, open) && !ReadFailure(path, stat, open) {
      ColonErrors(path);
    }
    if !Readable(path, stat, open) {
      var e := FreshFile(path, stat, open);
      assert StartsWith(e, "Error") by {
        StartsWithError(e[5..]);
        assert e == "Error" + e[5..];
      }
    }
    forall d ensures MarkedSuccessful(ReadError(path, d)) {
      assert ReadError(path, d)[5] == ' ';
    }
  }

  /** A file is text exactly when its path ends in one of the nine listed extensions. */
  lemma KindOfExtensions(path: string)
    ensures KindOf(path) == TextFile <==> exists i :: 0 <= i < 9 && EndsWith(path, TextExtensions[i])
    ensures EndsWith(path, ".py") ==> KindOf(path) == TextFile
    ensures EndsWith(path, ".java") ==> KindOf(path) == BinaryFile
  {
    if EndsWith(path, ".py") {
      assert EndsWith(path, TextExtensions[2]);
    }
    if EndsWith(path, ".java") {
      assert path[|path| - 1] == 'a';
    }
  }

  /** `os.path.splitext(path)[1]`: from the last '.' of the last path segment, unless that
      segment holds only dots before it. */
  function Extension(path: string): string {
    var sep := RFind(path, '/');
    var dot := RFind(path, '.');
    if dot > sep && exists i :: sep + 1 <= i < dot && path[i] != '.' then path[dot..] else ""
  }

  const LanguageExtensions := [".py", ".js", ".java", ".cpp", ".cs"]

  /** What `analyze_file_content` reports and `process_message` shows; the `functions` and
      `classes` lists come from `ast.parse` and are left out. */
  datatype FileAnalysis = FileAnalysis(
    fileUrl: string, path: string, filename: string, metadata: Option<Metadata>,
    preview: string, error: Option<string>, language: Option<string>)

  /** The report on `content` with the given `error` entry: the language is detected only
      when there is no error and the recorded type is text. */
  function FileReport(fileUrl: string, path: string, content: string, error: Option<string>,
                      metadata: Option<Metadata>): FileAnalysis
  {
    var ext := Extension(path);
    FileAnalysis(fileUrl, path, AfterLast(path, '/'), metadata, Summary(content), error,
                 if error.None? && metadata.Some? && metadata.value.kind == TextFile
                    && EndsWithAny(path, LanguageExtensions)
                 then Some(if ext == "" then "" else ext[1..])
                 else None)
  }

  /** `analyze_file_content` once the content and the recorded metadata are known: the
      content is the error exactly when it begins "Error:". */
  function AnalyzeFile(fileUrl: string, path: string, content: string, metadata: Option<Metadata>): FileAnalysis {
    FileReport(fileUrl, path, content, if MarkedSuccessful(content) then None else Some(content), metadata)
  }

  /** The analysis as evidently intended: the content is the error exactly when it is not a
      file that was read (the cache holds only those), whatever its text begins with. */
  function IntendedFileAnalysis(cache: map<string, string>, fileUrl: string, path: string,
                                stat: string -> StatResult, open: string -> Opened,
                                metadata: Option<Metadata>): FileAnalysis
  {
    var content := FileContent(cache, fileUrl, path, stat, open);
    FileReport(fileUrl, path, content,
               if fileUrl in cache || Readable(path, stat, open) then None else Some(content), metadata)
  }

  /** As intended, a file read afresh has an error exactly when it is not readable; the error
      is then the failure's text, an error text, and no language is reported. */
  lemma FileErrorsReported(cache: map<string, string>, fileUrl: string, path: string,
                           stat: string -> StatResult, open: string -> Opened, metadata: Option<Metadata>)
    requires fileUrl !in cache
    ensures var a := IntendedFileAnalysis(cache, fileUrl, path, stat, open, metadata);
            (a.error.None? <==> Readable(path, stat, open))
            && (!Readable(path, stat, open) ==>
                  a.error == Some(FreshFile(path, stat, open)) && ErrorText(a.error.value) && a.language.None?)
  {
    FreshFileErrors(path, stat, open);
  }

  /** For a file read afresh the written and the intended `error` entries disagree exactly on
      the "Error reading file" failures and on readable files whose text begins "Error:". */
  lemma FileErrorsDiffer(cache: map<string, string>, fileUrl: string, path: string,
                         stat: string -> StatResult, open: string -> Opened, metadata: Option<Metadata>)
    requires fileUrl !in cache
    ensures var written := AnalyzeFile(fileUrl, path, FreshFile(path, stat, open), metadata);
            var intended := IntendedFileAnalysis(cache, fileUrl, path, stat, open, metadata);
            written.error != intended.error <==>
              ReadFailure(path, stat, open)
              || (Readable(path, stat, open) && StartsWith(open(path).content, "Error:"))
  {
    FreshFileErrors(path, stat, open);
  }

  /** The last two characters. */
  function LastTwo(s: string): string
    requires |s| >= 2
  {
    s[|s| - 2..]
  }

  lemma EndingTwo(path: string, e: string)
    requires EndsWith(path, e) && |e| >= 2
    ensures LastTwo(path) == LastTwo(e)
  {
    assert path[|path| - |e|..][|e| - 2..] == e[|e| - 2..];
  }

  lemma TextEndings(i: nat)
    requires i < |TextExtensions|
    ensures LastTwo(TextExtensions[i]) !in ["va", "pp", "cs"]
  {
  }

  /** Of the five language extensions only .py and .js are also text extensions. */
  lemma TextLanguageEndings(path: string)
    requires EndsWithAny(path, TextExtensions) && EndsWithAny(path, LanguageExtensions)
    ensures EndsWith(path, ".py") || EndsWith(path, ".js")
  {
    var j :| 0 <= j < 5 && EndsWith(path, LanguageExtensions[j]);
    var i :| 0 <= i < 9 && EndsWith(path, TextExtensions[i]);
    EndingTwo(path, LanguageExtensions[j]);
    EndingTwo(path, TextExtensions[i]);
    TextEndings(i);
  }

  /** Only Python and JavaScript files can get a language: .java, .cpp and .cs are not text
      extensions, so those files are never read. */
  lemma LanguageOnlyPythonOrJavaScript(fileUrl: string, path: string, content: string, size: nat)
    requires AnalyzeFile(fileUrl, path, content, Some(Metadata(size, KindOf(path)))).language.Some?
    ensures EndsWith(path, ".py") || EndsWith(path, ".js")
  {
    TextLanguageEndings(path);
  }

  /** What `read_file_content(file_url)` returns with caching on. */
  function FileContent(cache: map<string, string>, fileUrl: string, path: string,
                       stat: string -> StatResult, open: string -> Opened): string
  {
    if fileUrl in cache then cache[fileUrl] else FreshFile(path, stat, open)
  }

  class FileSystemAgent {
    /** `urlparse(file_url).path` */
    const pathOf: string -> string
    var fileCache: map<string, string>
    var fileMetadata: map<string, Metadata>

    /** Only files whose metadata was recorded are cached, and the recorded kind is the one
        the path's extension gives. */
    ghost predicate Valid()
      reads this
    {
      fileCache.Keys <= fileMetadata.Keys
      && forall u :: u in fileMetadata ==> fileMetadata[u].kind == KindOf(pathOf(u))
    }

    constructor (pathOf: string -> string)
      ensures this.pathOf == pathOf && fileCache == map[] && fileMetadata == map[] && Valid()
    {
      this.pathOf := pathOf;
      fileCache := map[];
      fileMetadata := map[];
    }

    /** `read_file_content(file_url, cache)`: a cached file is answered without I/O;
        otherwise the metadata is recorded whenever `os.stat` succeeds, and the text is
        stored only for a readable text file of at most 10 MiB with caching on. */
    method ReadFileContent(fileUrl: string, cache: bool, stat: string -> StatResult, open: string -> Opened)
      returns (content: string)
      requires Valid()
      modifies this
      ensures Valid()
      ensures cache && fileUrl in old(fileCache) ==>
                content == old(fileCache)[fileUrl] && fileCache == old(fileCache) && fileMetadata == old(fileMetadata)
      ensures !(cache && fileUrl in old(fileCache)) ==>
                var path := pathOf(fileUrl);
                content == FreshFile(path, stat, open)
                && fileMetadata == (if stat(path).Stat? then old(fileMetadata)[fileUrl := Metadata(stat(path).size, KindOf(path))]
                                    else old(fileMetadata))
                && fileCache == (if cache && Readable(path, stat, open) then old(fileCache)[fileUrl := content]
                                 else old(fileCache))
    {
      if cache && fileUrl in fileCache {
        return fileCache[fileUrl];
      }
      var path := pathOf(fileUrl);
      match stat(path) {
        case StatNotFound => content := NotFoundError(path);
        case StatDenied => content := DeniedError(path);
        case StatFailure(detail) => content := ReadError(path, detail);
        case Stat(size) =>
          fileMetadata := fileMetadata[fileUrl := Metadata(size, KindOf(path))];
          if size > MaxFileSize {
            content := TooLargeError(path, size);
          } else if fileMetadata[fileUrl].kind == TextFile {
            match open(path) {
              case Opened(text) =>
                content := text;
                if cache {
                  fileCache := fileCache[fileUrl := content];
                }
              case OpenNotFound => content := NotFoundError(path);
              case OpenDenied => content := DeniedError(path);
              case OpenFailure(detail) => content := ReadError(path, detail);
            }
          } else {
            content := BinaryError(path);
          }
      }
    }

    /** `analyze_file_content(file_url)`: reads with caching on, then reports on the content
        and the metadata recorded for the URL, if any. */
    method AnalyzeFileContent(fileUrl: string, stat: string -> StatResult, open: string -> Opened)
      returns (a: FileAnalysis)
      requires Valid()
      modifies this
      ensures Valid()
      ensures a == AnalyzeFile(fileUrl, pathOf(fileUrl),
                               FileContent(old(fileCache), fileUrl, pathOf(fileUrl), stat, open),
                               if fileUrl in fileMetadata then Some(fileMetadata[fileUrl]) else None)
      ensures a.metadata.Some? ==> a.metadata.value.kind == KindOf(a.path)
    {
      var content := ReadFileContent(fileUrl, true, stat, open);
      var metadata := if fileUrl in fileMetadata then Some(fileMetadata[fileUrl]) else None;
      a := AnalyzeFile(fileUrl, pathOf(fileUrl), content, metadata);
    }
  }

  // ---------------------------------------------------------------------------------
  // CoordinatedGroupChat

  /** The index of the first name containing `keyword`, if any. */
  function FirstContaining(names: seq<string>, keyword: string): (r: Option<nat>)
    ensures r.Some? ==> r.value < |names| && Contains(names[r.value], keyword)
    ensures forall j :: 0 <= j < |names| && (r.None? || j < r.value) ==> !Contains(names[j], keyword)
  {
    if names == [] then None
    else if Contains(names[0], keyword) then Some(0)
    else
      match FirstContaining(names[1..], keyword)
      case None => None
      case Some(i) => Some(i + 1)
  }

  /** Who speaks next: a named agent, or whatever autogen's own selection picks. */
  datatype Speaker = Chosen(name: string) | Delegated

  /** The keyword `select_speaker` looks for in the given phase, if it has one. */
  function PhaseKeyword(phase: string): Option<string> {
    if phase == "planning" then Some("assistant")
    else if phase == "implementation" then Some("coder")
    else if phase == "review" then Some("reviewer")
    else None
  }

  /** The number of the attempt, counting from `k`, at which `run_chat` stops when its
      error counter stands at `count`: the counter is incremented before it is compared. */
  function ChatAttempts(count: nat, attempt: nat -> Reply, k: nat): (n: nat)
    ensures k < n
    ensures count < MaxRetries ==> n <= k + MaxRetries - count
    ensures count >= MaxRetries - 1 ==> n == k + 1
    ensures forall j :: k <= j < n - 1 ==> attempt(j).Raised?
    ensures attempt(n - 1).Replied? || count + (n - k) >= MaxRetries
    decreases MaxRetries - count
  {
    if attempt(k).Replied? then k + 1
    else if count + 1 < MaxRetries then ChatAttempts(count + 1, attempt, k + 1)
    else k + 1
  }

  /** When every attempt fails, a fresh agent makes four attempts (three retries) but a
      fresh group chat only three (two retries). */
  lemma RetryBudgets()
    ensures AgentAttempts(0, _ => Raised, 0) == 4
    ensures ChatAttempts(0, _ => Raised, 0) == 3
  {
    var fail: nat -> Reply := _ => Raised;
    assert AgentAttempts(2, fail, 2) == AgentAttempts(3, fail, 3) == 4;
    assert ChatAttempts(1, fail, 1) == ChatAttempts(2, fail, 2) == 3;
  }

  class CoordinatedGroupChat {
    /** The names of the chat's agents, in order. */
    const agents: seq<string>
    var phase: string
    var errorCount: nat

    constructor (agents: seq<string>)
      ensures this.agents == agents && phase == "planning" && errorCount == 0
    {
      this.agents := agents;
      phase := "planning";
      errorCount := 0;
    }

    /** `select_speaker()`: in the planning, implementation and review phases the first
        agent whose name holds the phase's keyword, StopIteration when none does; in any
        other phase autogen decides. */
    function SelectSpeaker(): (r: Result<Speaker>)
      reads this
      ensures PhaseKeyword(phase).None? <==> r == Ok(Delegated)
      ensures PhaseKeyword(phase).Some? ==>
                var kw := PhaseKeyword(phase).value;
                (r.Err? <==> forall j :: 0 <= j < |agents| ==> !Contains(agents[j], kw))
                && (r.Err? ==> r.error == StopIteration)
                && (r.Ok? ==> exists i :: 0 <= i < |agents| && r.value == Chosen(agents[i])
                                          && Contains(agents[i], kw)
                                          && forall j :: 0 <= j < i ==> !Contains(agents[j], kw))
    {
      match PhaseKeyword(phase)
      case None => Ok(Delegated)
      case Some(kw) =>
        match FirstContaining(agents, kw)
        case None => Err(StopIteration)
        case Some(i) => Ok(Chosen(agents[i]))
    }

    /** `run_chat()`: a failure increments `error_count` and retries while the count stays
        below MAX_RETRIES; the count is never reset. */
    method RunChat(attempt: nat -> Reply) returns (r: Result<string>)
      modifies this
      ensures var n := ChatAttempts(old(errorCount), attempt, 0);
              errorCount == old(errorCount) + (if attempt(n - 1).Replied? then n - 1 else n)
              && r == (if attempt(n - 1).Replied? then Ok(attempt(n - 1).reply) else Err(RuntimeFailure))
      ensures phase == old(phase)
    {
      var k := 0;
      while true
        invariant errorCount == old(errorCount) + k
        invariant ChatAttempts(old(errorCount), attempt, 0) == ChatAttempts(errorCount, attempt, k)
        invariant phase == old(phase)
        decreases MaxRetries - errorCount
      {
        var outcome := attempt(k);
        if outcome.Replied? {
          return Ok(outcome.reply);
        }
        errorCount := errorCount + 1;
        if errorCount >= MaxRetries {
          return Err(RuntimeFailure);
        }
        k := k + 1;
      }
    }
  }

  // ---------------------------------------------------------------------------------
  // CoordinatedManager

  datatype Checkpoint = Checkpoint(phase: string, message: string)

  const PhaseMarker := "PHASE:"

  /** `message.split("PHASE:")[1]`: the text between the first marker and the next one. */
  function AfterMarker(message: string): string
    requires Contains(message, PhaseMarker)
  {
    var after := message[FindSub(message, PhaseMarker) + |PhaseMarker|..];
    var next := FindSub(after, PhaseMarker);
    if next >= 0 then after[..next] else after
  }

  /** `.split()[0]` of that text, None where it raises IndexError. */
  function PhaseWord(message: string): (r: Option<string>)
    requires Contains(message, PhaseMarker)
  {
    var ws := Words(AfterMarker(message));
    if ws == [] then None else Some(ws[0])
  }

  /** A phase word is a non-empty run without whitespace, and none exists exactly when only
      whitespace follows the first marker before the next. */
  lemma PhaseWordShape(message: string)
    requires Contains(message, PhaseMarker)
    ensures PhaseWord(message).Some? ==>
              PhaseWord(message).value != [] && forall i :: 0 <= i < |PhaseWord(message).value| ==> !IsSpace(PhaseWord(message).value[i])
    ensures PhaseWord(message).Some? ==> PhaseWord(message).value == Words(AfterMarker(message))[0]
  {
    if PhaseWord(message).Some? {
      assert PhaseWord(message).value in Words(AfterMarker(message));
    }
  }

  /** What `initiate_recovery` answers. */
  function RecoveryText(checkpoints: seq<Checkpoint>): string {
    if checkpoints == [] then "Restarting conversation from beginning."
    else
      var last := checkpoints[|checkpoints| - 1];
      "Returning to " + last.phase + " phase. Last stable state: " + last.message
  }

  class CoordinatedManager {
    const groupchat: CoordinatedGroupChat
    var checkpoints: seq<Checkpoint>

    constructor (groupchat: CoordinatedGroupChat)
      ensures this.groupchat == groupchat && checkpoints == []
    {
      this.groupchat := groupchat;
      checkpoints := [];
    }

    /** `initiate_recovery()`: back to the last checkpoint's phase, if there is one; with no
        checkpoint the phase stays as it is. */
    method InitiateRecovery() returns (r: string)
      modifies groupchat
      ensures r == RecoveryText(checkpoints)
      ensures groupchat.phase == if checkpoints == [] then old(groupchat.phase) else checkpoints[|checkpoints| - 1].phase
      ensures groupchat.errorCount == old(groupchat.errorCount)
    {
      if checkpoints != [] {
        var last := checkpoints[|checkpoints| - 1];
        groupchat.phase := last.phase;
      }
      r := RecoveryText(checkpoints);
    }

    /** `process_message(message, sender)`: a message holding "PHASE:" sets the chat's phase
        to the word after the first marker; a marker without a word, or a failing call into
        autogen, ends in recovery. */
    method ProcessMessage(message: string, reply: Reply) returns (r: string)
      modifies groupchat
      ensures groupchat.errorCount == old(groupchat.errorCount)
      ensures var marked := Contains(message, PhaseMarker);
              var set_ := marked && PhaseWord(message).Some?;
              var recovers := (marked && !set_) || reply.Raised?;
              var reached := if set_ then PhaseWord(message).value else old(groupchat.phase);
              (!recovers ==> r == reply.reply && groupchat.phase == reached)
              && (recovers ==> r == RecoveryText(checkpoints)
                               && groupchat.phase == (if checkpoints == [] then reached else checkpoints[|checkpoints| - 1].phase))
    {
      if Contains(message, PhaseMarker) {
        var word := PhaseWord(message);
        if word.None? {
          r := InitiateRecovery();
          return;
        }
        groupchat.phase := word.value;
      }
      match reply {
        case Replied(text) => r := text;
        case Raised => r := InitiateRecovery();
      }
    }
  }

  // ---------------------------------------------------------------------------------
  // monitor_conversation

  /** Python's `s[-n:]`. */
  function PyTail<T>(s: seq<T>, n: int): seq<T> {
    if n > 0 then s[(if n <= |s| then |s| - n else 0)..]
    else if n == 0 then s
    else s[(if -n <= |s| then -n else |s|)..]
  }

  /** A message whose content is missing or whitespace only. */
  predicate Silent(msg: Dict) {
    AllSpace(Get(msg, "content", ""))
  }

  /** Silence is exactly `not msg.get("content", "").strip()`. */
  lemma SilentIsBlank(msg: Dict)
    ensures Silent(msg) <==> Strip(Get(msg, "content", "")) == ""
  {
    StripEmptyIff(Get(msg, "content", ""));
  }

  function SilentCount(msgs: seq<Dict>): (c: nat)
    ensures c <= |msgs|
  {
    if msgs == [] then 0
    else SilentCount(msgs[..|msgs| - 1]) + (if Silent(msgs[|msgs| - 1]) then 1 else 0)
  }

  lemma SilentCountSnoc(msgs: seq<Dict>, m: Dict)
    ensures SilentCount(msgs + [m]) == SilentCount(msgs) + (if Silent(m) then 1 else 0)
  {
    assert (msgs + [m])[..|msgs|] == msgs;
  }

  /** Every message is silent exactly when the count reaches the length. */
  lemma {:induction false} SilentCountFull(msgs: seq<Dict>)
    ensures SilentCount(msgs) == |msgs| <==> forall i :: 0 <= i < |msgs| ==> Silent(msgs[i])
  {
    if msgs != [] {
      var init := msgs[..|msgs| - 1];
      SilentCountFull(init);
      assert forall i :: 0 <= i < |init| ==> init[i] == msgs[i];
    }
  }

  /** `monitor_conversation(messages, max_silence)` */
  method MonitorConversation(messages: seq<Dict>, maxSilence: int) returns (stalled: bool)
    ensures stalled <==> SilentCount(PyTail(messages, maxSilence)) >= maxSilence
  {
    var window := PyTail(messages, maxSilence);
    var silence := 0;
    var i := 0;
    while i < |window|
      invariant 0 <= i <= |window|
      invariant silence == SilentCount(window[..i])
    {
      SilentCountSnoc(window[..i], window[i]);
      assert window[..i + 1] == window[..i] + [window[i]];
      if Silent(window[i]) {
        silence := silence + 1;
      }
      i := i + 1;
    }
    assert window[..i] == window;
    stalled := silence >= maxSilence;
  }

  /** For a positive window the conversation is stalled exactly when it has at least that
      many messages and the last that many are all silent; a window of zero or less always
      reports a stall. */
  lemma MonitorMeaning(messages: seq<Dict>, maxSilence: int)
    ensures maxSilence >= 1 ==>
              (SilentCount(PyTail(messages, maxSilence)) >= maxSilence <==>
                 |messages| >= maxSilence
                 && forall i :: |messages| - maxSilence <= i < |messages| ==> Silent(messages[i]))
    ensures maxSilence <= 0 ==> SilentCount(PyTail(messages, maxSilence)) >= maxSilence
  {
    if maxSilence >= 1 {
      var w := PyTail(messages, maxSilence);
      SilentCountFull(w);
      if |messages| >= maxSilence {
        assert |w| == maxSilence;
        assert forall i :: |messages| - maxSilence <= i < |messages| ==> messages[i] == w[i - (|messages| - maxSilence)];
        if forall i :: |messages| - maxSilence <= i < |messages| ==> Silent(messages[i]) {
          assert forall j :: 0 <= j < |w| ==> Silent(w[j]) by {
            forall j | 0 <= j < |w| ensures Silent(w[j]) {
              assert w[j] == messages[j + (|messages| - maxSilence)];
            }
          }
        }
      }
    }
  }
}
