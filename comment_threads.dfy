/** Listing YouTube comment threads (pkg/commentThread/commentThread.go): a
    configured lister builds one request per page, and in fetch-all mode walks
    the pages by their next-page tokens until it has collected ten threads or
    the pages run out.

    The YouTube API is an object holding a map from page token to page (the
    answers for the configured filters) and the log of requests sent to it. */
module CommentThreads {
  import opened Outcomes

  /** Fetch-all mode never collects more threads than this. */
  const MaxComments := 10
  /** Page size requested in fetch-all mode. */
  const FetchAllPageSize := 5
  /** Page size requested when none is configured. */
  const DefaultPageSize := 20

  /** A comment thread, reduced to the fields the table output shows. */
  datatype Item = Item(id: string, authorDisplayName: string, videoId: string, textDisplay: string)

  datatype PageInfo = PageInfo(totalResults: int, resultsPerPage: int)

  /** One page as the API returns it. */
  datatype Page = Page(items: seq<Item>, nextPageToken: string, pageInfo: Option<PageInfo>)

  datatype Metadata = Truncated(fetched: nat) | Complete(fetched: nat)

  /** The response handed to the output, with pagination information. */
  datatype Response = Response(items: seq<Item>, nextPageToken: string, prevPageToken: string,
                               pageInfo: Option<PageInfo>, totalResults: int, metadata: Option<Metadata>)

  /** `GetCommentThreadFailed` is the API refusing a page; `FuelExhausted`
      stands for a fetch-all walk still running after the allowed number of requests. */
  datatype Error = GetCommentThreadFailed(pageToken: string) | FuelExhausted

  // ---------------------------------------------------------------------------
  // Settings and options

  /** The lister's fields. */
  datatype Settings = Settings(
    ids: seq<string>,
    allThreadsRelatedToChannelId: string,
    authorChannelId: string,
    channelId: string,
    maxResults: int,
    moderationStatus: string,
    order: string,
    searchTerms: string,
    textFormat: string,
    textOriginal: string,
    videoId: string,
    pageToken: string,
    fetchAll: bool)

  /** A lister before any option is applied: every field at its zero value. */
  const ZeroSettings := Settings([], "", "", "", 0, "", "", "", "", "", "", "", false)

  /** The option constructors, one per field. */
  datatype Opt =
    | WithAllThreadsRelatedToChannelId(s: string)
    | WithAuthorChannelId(s: string)
    | WithChannelId(s: string)
    | WithIds(ids: seq<string>)
    | WithMaxResults(n: int)
    | WithModerationStatus(s: string)
    | WithOrder(s: string)
    | WithSearchTerms(s: string)
    | WithTextFormat(s: string)
    | WithTextOriginal(s: string)
    | WithVideoId(s: string)
    | WithPageToken(s: string)
    | WithFetchAll(b: bool)

  /** The page size `WithMaxResults` stores: never below one. */
  function ClampMaxResults(n: int): (r: int)
    ensures r >= 1
    ensures n > 0 ==> r == n
    ensures n <= 0 ==> r == 1
  {
    if n <= 0 then 1 else n
  }

  function ApplyOption(s: Settings, o: Opt): Settings {
    match o
    case WithAllThreadsRelatedToChannelId(v) => s.(allThreadsRelatedToChannelId := v)
    case WithAuthorChannelId(v) => s.(authorChannelId := v)
    case WithChannelId(v) => s.(channelId := v)
    case WithIds(v) => s.(ids := v)
    case WithMaxResults(n) => s.(maxResults := ClampMaxResults(n))
    case WithModerationStatus(v) => s.(moderationStatus := v)
    case WithOrder(v) => s.(order := v)
    case WithSearchTerms(v) => s.(searchTerms := v)
    case WithTextFormat(v) => s.(textFormat := v)
    case WithTextOriginal(v) => s.(textOriginal := v)
    case WithVideoId(v) => s.(videoId := v)
    case WithPageToken(v) => s.(pageToken := v)
    case WithFetchAll(b) => s.(fetchAll := b)
  }

  /** The settings after applying `opts` in order to a fresh lister; the
      page size is never negative. */
  function Configure(opts: seq<Opt>): (s: Settings)
    ensures s.maxResults >= 0
    decreases |opts|
  {
    if opts == [] then ZeroSettings
    else
      var init := opts[..|opts| - 1];
      assert forall i :: 0 <= i < |init| ==> init[i] == opts[i];
      ApplyOption(Configure(init), opts[|opts| - 1])
  }

  /** The configured page size is 0 (unset) unless some option set it, and then
      it is at least one. */
  lemma {:induction false} ConfiguredMaxResults(opts: seq<Opt>)
    ensures Configure(opts).maxResults >= 0
    ensures Configure(opts).maxResults >= 1 <==> exists i :: 0 <= i < |opts| && opts[i].WithMaxResults?
    decreases |opts|
  {
    if opts != [] {
      var init := opts[..|opts| - 1];
      ConfiguredMaxResults(init);
      if !opts[|opts| - 1].WithMaxResults? {
        assert forall i :: 0 <= i < |init| ==> init[i] == opts[i];
        if exists i :: 0 <= i < |opts| && opts[i].WithMaxResults? {
          var i :| 0 <= i < |opts| && opts[i].WithMaxResults?;
          assert init[i].WithMaxResults?;
        }
      }
    }
  }

  // ---------------------------------------------------------------------------
  // Requests

  /** The optional string filters of a list request. */
  datatype Filter =
    | AllThreadsRelatedToChannelId
    | ChannelId
    | ModerationStatus
    | Order
    | SearchTerms
    | TextFormat
    | VideoId
    | PageToken

  function FilterValue(s: Settings, f: Filter): string {
    match f
    case AllThreadsRelatedToChannelId => s.allThreadsRelatedToChannelId
    case ChannelId => s.channelId
    case ModerationStatus => s.moderationStatus
    case Order => s.order
    case SearchTerms => s.searchTerms
    case TextFormat => s.textFormat
    case VideoId => s.videoId
    case PageToken => s.pageToken
  }

  /** A list request: the parts, the ids filter, the string filters that were
      set, and the page size. */
  datatype Request = Request(parts: seq<string>, ids: Option<seq<string>>, filters: map<Filter, string>,
                             maxResults: int)

  /** The page size `GetWithPagination` asks for. */
  function PageSize(s: Settings): (n: int)
    ensures n >= 1
    ensures s.fetchAll ==> n == FetchAllPageSize
    ensures !s.fetchAll && s.maxResults > 0 ==> n == s.maxResults
    ensures !s.fetchAll && s.maxResults <= 0 ==> n == DefaultPageSize
  {
    if s.fetchAll then FetchAllPageSize
    else if s.maxResults > 0 then s.maxResults
    else DefaultPageSize
  }

  function AddIfSet(m: map<Filter, string>, f: Filter, v: string): map<Filter, string> {
    if v != "" then m[f := v] else m
  }

  /** The order in which `GetWithPagination` considers the string filters. */
  const FilterOrder := [AllThreadsRelatedToChannelId, ChannelId, ModerationStatus, Order,
                        SearchTerms, TextFormat, VideoId, PageToken]

  /** Adds, in turn, each filter of `fs` whose field is set. */
  function ApplyFilters(s: Settings, fs: seq<Filter>): (m: map<Filter, string>)
    ensures forall f :: f in m <==> f in fs && FilterValue(s, f) != ""
    ensures forall f :: f in m ==> m[f] == FilterValue(s, f)
    decreases |fs|
  {
    if fs == [] then map[]
    else
      var f := fs[|fs| - 1];
      assert forall g :: g in fs <==> g in fs[..|fs| - 1] || g == f by {
        assert fs == fs[..|fs| - 1] + [f];
      }
      AddIfSet(ApplyFilters(s, fs[..|fs| - 1]), f, FilterValue(s, f))
  }

  lemma EveryFilterListed()
    ensures forall f: Filter :: f in FilterOrder
  {
    forall f: Filter ensures f in FilterOrder {
      match f
      case AllThreadsRelatedToChannelId => assert FilterOrder[0] == f;
      case ChannelId => assert FilterOrder[1] == f;
      case ModerationStatus => assert FilterOrder[2] == f;
      case Order => assert FilterOrder[3] == f;
      case SearchTerms => assert FilterOrder[4] == f;
      case TextFormat => assert FilterOrder[5] == f;
      case VideoId => assert FilterOrder[6] == f;
      case PageToken => assert FilterOrder[7] == f;
    }
  }

  /** The token a request asks for; no PageToken filter means the first page. */
  function RequestedToken(req: Request): string {
    if PageToken in req.filters then req.filters[PageToken] else ""
  }

  /** The request `GetWithPagination` sends: each filter is present exactly when
      its field is non-empty, and carries that field's value. */
  function BuildRequest(s: Settings, parts: seq<string>): (r: Request)
    ensures r.parts == parts && r.maxResults == PageSize(s)
    ensures r.ids.Some? <==> |s.ids| > 0
    ensures r.ids.Some? ==> r.ids.value == s.ids
    ensures forall f :: f in r.filters <==> FilterValue(s, f) != ""
    ensures forall f :: f in r.filters ==> r.filters[f] == FilterValue(s, f)
    ensures RequestedToken(r) == s.pageToken
  {
    EveryFilterListed();
    Request(parts, if |s.ids| > 0 then Some(s.ids) else None, ApplyFilters(s, FilterOrder), PageSize(s))
  }

  /** The response built from a page: TotalResults from PageInfo when present,
      and never a previous-page token. */
  function ToResponse(p: Page): (r: Response)
    ensures r.items == p.items && r.nextPageToken == p.nextPageToken && r.pageInfo == p.pageInfo
    ensures r.prevPageToken == "" && r.metadata == None
    ensures p.pageInfo.None? ==> r.totalResults == 0
    ensures p.pageInfo.Some? ==> r.totalResults == p.pageInfo.value.totalResults
  {
    var totalResults := if p.pageInfo.Some? then p.pageInfo.value.totalResults else 0;
    Response(p.items, p.nextPageToken, "", p.pageInfo, totalResults, None)
  }

  /** The API's answer for one page token. */
  function PageResponse(pages: map<string, Page>, token: string): Result<Response, Error> {
    if token in pages then Success(ToResponse(pages[token])) else Failure(GetCommentThreadFailed(token))
  }

  // ---------------------------------------------------------------------------
  // The fetch-all walk, as a function

  datatype WalkEnd =
    | Done(items: seq<Item>, hasMore: bool, last: Page)
    | PageFailed
    | Exhausted

  /** The tokens requested, in order, and how the walk ended. */
  datatype Walk = Walk(visited: seq<string>, end: WalkEnd)

  /** The fetch-all loop from page `token`, having collected `acc` from the pages
      `visited`, with at most `fuel` more requests. */
  function Paginate(pages: map<string, Page>, token: string, acc: seq<Item>, visited: seq<string>,
                    fuel: nat): Walk
    requires |acc| < MaxComments
    decreases fuel
  {
    if fuel == 0 then Walk(visited, Exhausted)
    else
      var vis := visited + [token];
      if token !in pages then Walk(vis, PageFailed)
      else
        var p := pages[token];
        var remaining := MaxComments - |acc|;
        if |p.items| > remaining then Walk(vis, Done(acc + p.items[..remaining], true, p))
        else if p.nextPageToken == "" then Walk(vis, Done(acc + p.items, false, p))
        else if |acc| + |p.items| >= MaxComments then Walk(vis, Done(acc + p.items, true, p))
        else Paginate(pages, p.nextPageToken, acc + p.items, vis, fuel - 1)
  }

  /** The last token requested, or `start` when none was. */
  function LastToken(start: string, tokens: seq<string>): string {
    if tokens == [] then start else tokens[|tokens| - 1]
  }

  function Min(a: int, b: int): int {
    if a <= b then a else b
  }

  ghost predicate AllIn(pages: map<string, Page>, tokens: seq<string>) {
    forall i :: 0 <= i < |tokens| ==> tokens[i] in pages
  }

  /** Each token but the last names a page whose next-page token is the next one. */
  ghost predicate Chained(pages: map<string, Page>, tokens: seq<string>) {
    forall i :: 0 <= i < |tokens| - 1 ==> Links(pages, tokens[i], tokens[i + 1])
  }

  /** Page `a` exists and its non-empty next-page token is `b`. */
  ghost predicate Links(pages: map<string, Page>, a: string, b: string) {
    a in pages && pages[a].nextPageToken == b && b != ""
  }

  /** The items of the pages `tokens`, concatenated in order. */
  ghost function ChainItems(pages: map<string, Page>, tokens: seq<string>): seq<Item>
    requires AllIn(pages, tokens)
    decreases |tokens|
  {
    if tokens == [] then [] else ChainItems(pages, tokens[..|tokens| - 1]) + pages[tokens[|tokens| - 1]].items
  }

  /** What the fetch-all walk guarantees. A walk that ends normally requested a
      chain of pages, stopped at the first page where the pages ran out or ten
      items were reached, returned the first (at most ten) of their items in
      order, and reports more data exactly when it left items or pages behind.
      A walk whose last request failed requested that chain up to the failure. */
  ghost predicate SoundWalk(pages: map<string, Page>, w: Walk) {
    match w.end
    case Done(items, hasMore, last) => SoundDone(pages, w.visited, items, hasMore, last)
    case PageFailed => SoundFailure(pages, w.visited)
    case Exhausted => true
  }

  ghost predicate SoundDone(pages: map<string, Page>, visited: seq<string>, items: seq<Item>,
                            hasMore: bool, last: Page) {
    var n := |visited|;
    && n > 0 && AllIn(pages, visited) && Chained(pages, visited)
    && last == pages[visited[n - 1]]
    && |ChainItems(pages, visited[..n - 1])| < MaxComments
    && var all := ChainItems(pages, visited);
       && |items| == Min(MaxComments, |all|) && items == all[..|items|]
       && (hasMore <==> |all| > |items| || last.nextPageToken != "")
       && (last.nextPageToken != "" ==> |all| >= MaxComments)
  }

  ghost predicate SoundFailure(pages: map<string, Page>, visited: seq<string>) {
    var n := |visited|;
    && n > 0 && visited[n - 1] !in pages && AllIn(pages, visited[..n - 1]) && Chained(pages, visited)
    && |ChainItems(pages, visited[..n - 1])| < MaxComments
  }

  lemma ChainItemsSnoc(pages: map<string, Page>, tokens: seq<string>, t: string)
    requires AllIn(pages, tokens) && t in pages
    ensures AllIn(pages, tokens + [t])
    ensures ChainItems(pages, tokens + [t]) == ChainItems(pages, tokens) + pages[t].items
  {
    assert (tokens + [t])[..|tokens|] == tokens;
  }

  /** Requesting the token the last page pointed to keeps the chain. */
  lemma ChainStep(pages: map<string, Page>, visited: seq<string>, token: string)
    requires Chained(pages, visited)
    requires visited != [] ==> Links(pages, visited[|visited| - 1], token)
    ensures Chained(pages, visited + [token])
  {
    var vis := visited + [token];
    forall i | 0 <= i < |vis| - 1
      ensures Links(pages, vis[i], vis[i + 1])
    {
      assert vis[i] == visited[i];
    }
  }

  /** The walk's state before each request: the pages visited form a chain,
      their items are `acc`, and the last of them points to `token`. */
  ghost predicate WalkState(pages: map<string, Page>, token: string, acc: seq<Item>, visited: seq<string>) {
    && |acc| < MaxComments
    && AllIn(pages, visited) && Chained(pages, visited) && acc == ChainItems(pages, visited)
    && (visited != [] ==> Links(pages, visited[|visited| - 1], token))
  }

  /** A page that ends the walk: its items and flag are as `SoundDone` says. */
  lemma {:induction false} LastPageSound(pages: map<string, Page>, token: string, acc: seq<Item>,
                                         visited: seq<string>)
    requires WalkState(pages, token, acc, visited) && token in pages
    requires var p := pages[token];
      |p.items| > MaxComments - |acc| || p.nextPageToken == "" || |acc| + |p.items| >= MaxComments
    ensures var p := pages[token];
      var remaining := MaxComments - |acc|;
      if |p.items| > remaining then SoundDone(pages, visited + [token], acc + p.items[..remaining], true, p)
      else SoundDone(pages, visited + [token], acc + p.items, p.nextPageToken != "", p)
  {
    var vis := visited + [token];
    var p := pages[token];
    ChainStep(pages, visited, token);
    ChainItemsSnoc(pages, visited, token);
    assert vis[..|vis| - 1] == visited;
    var all := acc + p.items;
    var remaining := MaxComments - |acc|;
    if |p.items| > remaining {
      assert acc + p.items[..remaining] == all[..MaxComments];
    } else {
      assert all[..|all|] == all;
    }
  }

  /** The walk's invariant: started in a `WalkState`, it ends sound and extends
      the chain visited so far, starting with `token`. */
  lemma {:induction false} PaginateSound(pages: map<string, Page>, token: string, acc: seq<Item>,
                                         visited: seq<string>, fuel: nat)
    requires WalkState(pages, token, acc, visited)
    ensures SoundWalk(pages, Paginate(pages, token, acc, visited, fuel))
    ensures |Paginate(pages, token, acc, visited, fuel).visited| >= |visited|
    ensures Paginate(pages, token, acc, visited, fuel).visited[..|visited|] == visited
    ensures fuel > 0 ==> |Paginate(pages, token, acc, visited, fuel).visited| > |visited|
                         && Paginate(pages, token, acc, visited, fuel).visited[|visited|] == token
    decreases fuel
  {
    if fuel > 0 {
      var vis := visited + [token];
      assert vis[..|visited|] == visited;
      ChainStep(pages, visited, token);
      if token !in pages {
        assert vis[..|vis| - 1] == visited;
      } else {
        var p := pages[token];
        if |p.items| > MaxComments - |acc| || p.nextPageToken == "" || |acc| + |p.items| >= MaxComments {
          LastPageSound(pages, token, acc, visited);
        } else {
          ChainItemsSnoc(pages, visited, token);
          PaginateSound(pages, p.nextPageToken, acc + p.items, vis, fuel - 1);
          var w := Paginate(pages, p.nextPageToken, acc + p.items, vis, fuel - 1);
          assert w.visited[..|visited|] == w.visited[..|vis|][..|visited|];
        }
      }
    }
  }

  /** The fetch-all walk from the configured token is sound and starts there. */
  lemma FetchAllCollects(pages: map<string, Page>, token: string, fuel: nat)
    ensures SoundWalk(pages, Paginate(pages, token, [], [], fuel))
    ensures fuel > 0 ==> |Paginate(pages, token, [], [], fuel).visited| > 0
                         && Paginate(pages, token, [], [], fuel).visited[0] == token
  {
    PaginateSound(pages, token, [], [], fuel);
  }

  /** A page that neither fills the ten nor is the last hands the walk on to the next token. */
  lemma PaginateContinues(pages: map<string, Page>, token: string, acc: seq<Item>, visited: seq<string>, fuel: nat,
                          next: string, acc': seq<Item>, visited': seq<string>, fuel': nat)
    requires |acc| < MaxComments && fuel > 0 && token in pages
    requires next == pages[token].nextPageToken != "" && |acc'| < MaxComments
    requires acc' == acc + pages[token].items && visited' == visited + [token] && fuel' == fuel - 1
    ensures Paginate(pages, next, acc', visited', fuel') == Paginate(pages, token, acc, visited, fuel)
  {
  }

  /** A finished walk returns at most ten threads. It reports more data only
      when it returned exactly ten; otherwise it returned every thread of every
      page up to one without a next-page token. */
  lemma FetchAllTruncation(pages: map<string, Page>, token: string, fuel: nat)
    requires Paginate(pages, token, [], [], fuel).end.Done?
    ensures var w := Paginate(pages, token, [], [], fuel);
      && AllIn(pages, w.visited)
      && |w.end.items| <= MaxComments
      && (w.end.hasMore ==> |w.end.items| == MaxComments)
      && (!w.end.hasMore ==> w.end.items == ChainItems(pages, w.visited) && w.end.last.nextPageToken == "")
  {
    FetchAllCollects(pages, token, fuel);
    var w := Paginate(pages, token, [], [], fuel);
    var all := ChainItems(pages, w.visited);
    if !w.end.hasMore {
      assert all[..|all|] == all;
    }
  }

  /** A walk that ends within `n` requests ends the same way with any larger budget. */
  lemma {:induction false} PaginateFuelMonotone(pages: map<string, Page>, token: string, acc: seq<Item>,
                                                visited: seq<string>, n: nat, m: nat)
    requires |acc| < MaxComments && n <= m
    requires !Paginate(pages, token, acc, visited, n).end.Exhausted?
    ensures Paginate(pages, token, acc, visited, m) == Paginate(pages, token, acc, visited, n)
    decreases n
  {
    if token in pages {
      var p := pages[token];
      if |p.items| <= MaxComments - |acc| && p.nextPageToken != "" && |acc| + |p.items| < MaxComments {
        PaginateFuelMonotone(pages, p.nextPageToken, acc + p.items, visited + [token], n - 1, m - 1);
      }
    }
  }

  /** The request the fetch-all loop sends for page `token`: the configured
      filters with that token, page size five. */
  function FetchAllRequest(s: Settings, parts: seq<string>, token: string): (req: Request)
    ensures RequestedToken(req) == token && req.maxResults == FetchAllPageSize && req.parts == parts
  {
    BuildRequest(s.(pageToken := token, maxResults := FetchAllPageSize), parts)
  }

  /** The requests the fetch-all loop sends for the tokens it visits, in order. */
  function FetchAllRequests(s: Settings, parts: seq<string>, tokens: seq<string>): (reqs: seq<Request>)
    ensures |reqs| == |tokens|
  {
    seq(|tokens|, i requires 0 <= i < |tokens| => FetchAllRequest(s, parts, tokens[i]))
  }

  lemma FetchAllRequestsSnoc(s: Settings, parts: seq<string>, tokens: seq<string>, t: string)
    ensures FetchAllRequests(s, parts, tokens + [t]) == FetchAllRequests(s, parts, tokens) + [FetchAllRequest(s, parts, t)]
  {
  }

  // ---------------------------------------------------------------------------
  // Output

  /** What a lister collected: the threads and the last response, if any. */
  datatype Collected = Collected(items: seq<Item>, last: Option<Response>)

  /** What the page loop hands back: the threads, whether more were left, and
      the response for the last page requested. */
  datatype Fetched = Fetched(items: seq<Item>, hasMore: bool, last: Response)

  datatype View = WholeResponse(response: Response) | ItemsOnly(items: seq<Item>)

  /** What the chosen output format prints. */
  datatype Printed = Json(view: View) | Yaml(view: View) | Table(rows: seq<Item>) | NothingPrinted

  /** JSON and YAML print the whole response for a single page and only the
      threads in fetch-all mode; a table lists the threads. */
  function Render(output: string, fetchAll: bool, c: Collected): (p: Printed)
    ensures p.Json? <==> output == "json"
    ensures p.Yaml? <==> output == "yaml"
    ensures p.Table? <==> output == "table"
    ensures p.Json? || p.Yaml? ==> (p.view.WholeResponse? <==> !fetchAll && c.last.Some?)
    ensures (p.Json? || p.Yaml?) && p.view.WholeResponse? ==> p.view.response == c.last.value
    ensures (p.Json? || p.Yaml?) && p.view.ItemsOnly? ==> p.view.items == c.items
    ensures p.Table? ==> p.rows == c.items
  {
    var view := if !fetchAll && c.last.Some? then WholeResponse(c.last.value) else ItemsOnly(c.items);
    if output == "json" then Json(view)
    else if output == "yaml" then Yaml(view)
    else if output == "table" then Table(c.items)
    else NothingPrinted
  }

  /** The last response of a finished walk, carrying all collected threads and
      the truncation flag. */
  function Annotated(last: Page, items: seq<Item>, hasMore: bool): (r: Response)
    ensures r.items == items && r.nextPageToken == last.nextPageToken
    ensures r.metadata.Some? && r.metadata.value.fetched == |items|
    ensures r.metadata.value.Truncated? <==> hasMore
  {
    ToResponse(last).(items := items,
                      metadata := Some(if hasMore then Truncated(|items|) else Complete(|items|)))
  }

  // ---------------------------------------------------------------------------
  // The API and the lister

  /** The comment-threads endpoint: fixed answers per page token and the
      log of requests sent. */
  class CommentThreadsService {
    const pages: map<string, Page>
    var sent: seq<Request>

    constructor (pages: map<string, Page>)
      ensures this.pages == pages && sent == []
    {
      this.pages := pages;
      sent := [];
    }

    method Do(req: Request) returns (r: Result<Page, Error>)
      modifies this
      ensures sent == old(sent) + [req]
      ensures r == if RequestedToken(req) in pages then Success(pages[RequestedToken(req)])
                   else Failure(GetCommentThreadFailed(RequestedToken(req)))
    {
      sent := sent + [req];
      var token := RequestedToken(req);
      if token in pages {
        r := Success(pages[token]);
      } else {
        r := Failure(GetCommentThreadFailed(token));
      }
    }
  }

  class CommentThread {
    var ids: seq<string>
    var allThreadsRelatedToChannelId: string
    var authorChannelId: string
    var channelId: string
    var maxResults: int
    var moderationStatus: string
    var order: string
    var searchTerms: string
    var textFormat: string
    var textOriginal: string
    var videoId: string
    var pageToken: string
    var fetchAll: bool

    function Snapshot(): Settings
      reads this
    {
      Settings(ids, allThreadsRelatedToChannelId, authorChannelId, channelId, maxResults,
               moderationStatus, order, searchTerms, textFormat, textOriginal, videoId, pageToken, fetchAll)
    }

    /** A lister with the options applied in order. */
    constructor (opts: seq<Opt>)
      ensures Snapshot() == Configure(opts)
    {
      ids, allThreadsRelatedToChannelId, authorChannelId, channelId := [], "", "", "";
      maxResults, moderationStatus, order, searchTerms := 0, "", "", "";
      textFormat, textOriginal, videoId, pageToken, fetchAll := "", "", "", "", false;
      new;
      var i := 0;
      while i < |opts|
        invariant 0 <= i <= |opts|
        invariant Snapshot() == Configure(opts[..i])
      {
        assert opts[..i + 1][..i] == opts[..i];
        Apply(opts[i]);
        i := i + 1;
      }
      assert opts[..|opts|] == opts;
    }

    /** Applies one option: sets its field, clamping the page size to at least one. */
    method Apply(o: Opt)
      modifies this
      ensures Snapshot() == ApplyOption(old(Snapshot()), o)
    {
      match o
      case WithAllThreadsRelatedToChannelId(v) => SetAllThreadsRelatedToChannelId(v);
      case WithAuthorChannelId(v) => SetAuthorChannelId(v);
      case WithChannelId(v) => SetChannelId(v);
      case WithIds(v) => SetIds(v);
      case WithMaxResults(n) =>
        var m := n;
        if m <= 0 {
          m := 1;
        }
        SetMaxResults(m);
      case WithModerationStatus(v) => SetModerationStatus(v);
      case WithOrder(v) => SetOrder(v);
      case WithSearchTerms(v) => SetSearchTerms(v);
      case WithTextFormat(v) => SetTextFormat(v);
      case WithTextOriginal(v) => SetTextOriginal(v);
      case WithVideoId(v) => SetVideoId(v);
      case WithPageToken(v) => SetPageToken(v);
      case WithFetchAll(b) => SetFetchAll(b);
    }

    // One setter per field: each changes that field and nothing else.

    method SetAllThreadsRelatedToChannelId(v: string)
      modifies this
      ensures Snapshot() == old(Snapshot()).(allThreadsRelatedToChannelId := v)
    {
      allThreadsRelatedToChannelId := v;
    }

    method SetAuthorChannelId(v: string)
      modifies this
      ensures Snapshot() == old(Snapshot()).(authorChannelId := v)
    {
      authorChannelId := v;
    }

    method SetChannelId(v: string)
      modifies this
      ensures Snapshot() == old(Snapshot()).(channelId := v)
    {
      channelId := v;
    }

    method SetIds(v: seq<string>)
      modifies this
      ensures Snapshot() == old(Snapshot()).(ids := v)
    {
      ids := v;
    }

    method SetModerationStatus(v: string)
      modifies this
      ensures Snapshot() == old(Snapshot()).(moderationStatus := v)
    {
      moderationStatus := v;
    }

    method SetOrder(v: string)
      modifies this
      ensures Snapshot() == old(Snapshot()).(order := v)
    {
      order := v;
    }

    method SetSearchTerms(v: string)
      modifies this
      ensures Snapshot() == old(Snapshot()).(searchTerms := v)
    {
      searchTerms := v;
    }

    method SetTextFormat(v: string)
      modifies this
      ensures Snapshot() == old(Snapshot()).(textFormat := v)
    {
      textFormat := v;
    }

    method SetTextOriginal(v: string)
      modifies this
      ensures Snapshot() == old(Snapshot()).(textOriginal := v)
    {
      textOriginal := v;
    }

    method SetVideoId(v: string)
      modifies this
      ensures Snapshot() == old(Snapshot()).(videoId := v)
    {
      videoId := v;
    }

    method SetFetchAll(v: bool)
      modifies this
      ensures Snapshot() == old(Snapshot()).(fetchAll := v)
    {
      fetchAll := v;
    }

    method SetMaxResults(v: int)
      modifies this
      ensures Snapshot() == old(Snapshot()).(maxResults := v)
    {
      maxResults := v;
    }

    method SetPageToken(v: string)
      modifies this
      ensures Snapshot() == old(Snapshot()).(pageToken := v)
    {
      pageToken := v;
    }

    /** Sends one request for the configured page and builds the response. */
    method GetWithPagination(svc: CommentThreadsService, parts: seq<string>) returns (r: Result<Response, Error>)
      modifies svc
      ensures svc.sent == old(svc.sent) + [BuildRequest(Snapshot(), parts)]
      ensures r == PageResponse(svc.pages, pageToken)
    {
      var res := svc.Do(BuildRequest(Snapshot(), parts));
      if res.Failure? {
        return Failure(res.error);
      }
      r := Success(ToResponse(res.value));
    }

    /** The effect of the fetch-all walk with at most `fuel` requests: the
        walk's requests are sent, PageToken is left at the last token requested,
        and MaxResults is restored only when the walk finished. */
    twostate predicate FetchAllEffect(svc: CommentThreadsService, parts: seq<string>, fuel: nat,
                                      new r: Result<Collected, Error>)
      reads this, svc
    {
      var w := Paginate(svc.pages, old(pageToken), [], [], fuel);
      var lastToken := LastToken(old(pageToken), w.visited);
      && svc.sent == old(svc.sent) + FetchAllRequests(old(Snapshot()), parts, w.visited)
      && match w.end
         case Done(items, hasMore, last) =>
           && r == Success(Collected(items, Some(Annotated(last, items, hasMore))))
           && Snapshot() == old(Snapshot()).(pageToken := lastToken)
         case PageFailed =>
           && r == Failure(GetCommentThreadFailed(lastToken))
           && Snapshot() == old(Snapshot()).(pageToken := lastToken, maxResults := FetchAllPageSize)
         case Exhausted =>
           && r == Failure(FuelExhausted)
           && Snapshot() == old(Snapshot()).(pageToken := lastToken, maxResults := FetchAllPageSize)
    }

    /** The effect of collecting: one request from the configured token in
        single-page mode; in fetch-all mode the walk's requests, its result, the
        last token used left in PageToken, and MaxResults restored only when
        the walk finished. */
    twostate predicate CollectEffect(svc: CommentThreadsService, parts: seq<string>, fuel: nat,
                                     new r: Result<Collected, Error>)
      reads this, svc
    {
      if !old(fetchAll) then
        && svc.sent == old(svc.sent) + [BuildRequest(old(Snapshot()), parts)]
        && Snapshot() == old(Snapshot())
        && r == match PageResponse(svc.pages, old(pageToken))
                case Success(resp) => Success(Collected(resp.items, Some(resp)))
                case Failure(e) => Failure(e)
      else
        FetchAllEffect(svc, parts, fuel, r)
    }

    /** Fetches the configured page, or in fetch-all mode walks the pages, with
        at most `fuel` requests. */
    method Collect(svc: CommentThreadsService, parts: seq<string>, fuel: nat) returns (r: Result<Collected, Error>)
      modifies this, svc
      ensures CollectEffect(svc, parts, fuel, r)
    {
      if !fetchAll {
        var resp := GetWithPagination(svc, parts);
        if resp.Failure? {
          r := Failure(resp.error); return;
        }
        return Success(Collected(resp.value.items, Some(resp.value)));
      }
      r := FetchAll(svc, parts, fuel);
    }

    /** Fetch-all mode: page size five while walking, at most ten threads, at
        most `fuel` requests; the last response carries all threads and says
        whether more were left. */
    method FetchAll(svc: CommentThreadsService, parts: seq<string>, fuel: nat) returns (r: Result<Collected, Error>)
      requires fetchAll
      modifies this, svc
      ensures FetchAllEffect(svc, parts, fuel, r)
    {
      ghost var s0 := Snapshot();
      var originalMaxResults := maxResults;
      SetMaxResults(FetchAllPageSize);
      var fetched, _ := FetchPages(svc, parts, fuel, s0);
      if fetched.Failure? {
        return Failure(fetched.error);
      }
      var f := fetched.value;
      var metadata := if f.hasMore then Truncated(|f.items|) else Complete(|f.items|);
      var lastResponse := f.last.(items := f.items, metadata := Some(metadata));
      SetMaxResults(originalMaxResults);
      r := Success(Collected(f.items, Some(lastResponse)));
    }

    /** One request of the fetch-all loop: PageToken set to `token`, then the page fetched. */
    method FetchPage(svc: CommentThreadsService, parts: seq<string>, token: string,
                     ghost s0: Settings, ghost sent0: seq<Request>, ghost visited: seq<string>)
      returns (r: Result<Response, Error>)
      requires Snapshot() == s0.(pageToken := LastToken(s0.pageToken, visited), maxResults := FetchAllPageSize)
      requires svc.sent == sent0 + FetchAllRequests(s0, parts, visited)
      modifies this, svc
      ensures svc.sent == sent0 + FetchAllRequests(s0, parts, visited + [token])
      ensures Snapshot() == s0.(pageToken := LastToken(s0.pageToken, visited + [token]), maxResults := FetchAllPageSize)
      ensures r == PageResponse(svc.pages, token)
    {
      SetPageToken(token);
      r := GetWithPagination(svc, parts);
      FetchAllRequestsSnoc(s0, parts, visited, token);
    }

    /** Adds one page's threads, at most up to ten in all. `stop` says the
        loop ends here: the page had more threads than still fitted (more data left),
        it was the last page (no more data), or it filled the ten exactly while
        pointing to a next page (more data left). */
    method AddPage(acc: seq<Item>, totalFetched: int, page: Response)
      returns (acc': seq<Item>, totalFetched': int, hasMore: bool, stop: bool)
      requires totalFetched == |acc| < MaxComments
      ensures totalFetched' == |acc'|
      ensures stop <==> |page.items| > MaxComments - |acc| || page.nextPageToken == ""
                        || |acc| + |page.items| >= MaxComments
      ensures !stop ==> acc' == acc + page.items && !hasMore
      ensures stop && |page.items| > MaxComments - |acc| ==>
        acc' == acc + page.items[..MaxComments - |acc|] && hasMore
      ensures stop && |page.items| <= MaxComments - |acc| ==>
        acc' == acc + page.items && (hasMore <==> page.nextPageToken != "")
    {
      hasMore, stop := false, true;
      var remaining := MaxComments - totalFetched;
      var toAdd := |page.items|;
      if toAdd > remaining {
        toAdd := remaining;
        hasMore := true;
        acc' := acc + page.items[..toAdd];
        totalFetched' := totalFetched + toAdd;
        return;
      }
      acc' := acc + page.items;
      totalFetched' := totalFetched + toAdd;
      if page.nextPageToken == "" {
        return;
      }
      if totalFetched' >= MaxComments {
        hasMore := true;
        return;
      }
      stop := false;
    }

    /** The page loop of fetch-all mode, as the walk `Paginate` describes it. */
    method FetchPages(svc: CommentThreadsService, parts: seq<string>, fuel: nat, ghost s0: Settings)
      returns (r: Result<Fetched, Error>, ghost visited: seq<string>)
      requires Snapshot() == s0.(maxResults := FetchAllPageSize) && s0.fetchAll
      modifies this, svc
      ensures visited == Paginate(svc.pages, s0.pageToken, [], [], fuel).visited
      ensures svc.sent == old(svc.sent) + FetchAllRequests(s0, parts, visited)
      ensures Snapshot() == s0.(pageToken := LastToken(s0.pageToken, visited), maxResults := FetchAllPageSize)
      ensures match Paginate(svc.pages, s0.pageToken, [], [], fuel).end
           case Done(items, hasMore, last) => r == Success(Fetched(items, hasMore, ToResponse(last)))
           case PageFailed => r == Failure(GetCommentThreadFailed(LastToken(s0.pageToken, visited)))
           case Exhausted => r == Failure(FuelExhausted)
    {
      var allCommentThreads: seq<Item> := [];
      var lastResponse: Response;
      var currentPageToken := pageToken;
      ghost var sent0 := svc.sent;
      ghost var w := Paginate(svc.pages, s0.pageToken, [], [], fuel);
      visited := [];
      ghost var lastPage: Page;
      var totalFetched := 0;
      var hasMore := false;
      var fuelLeft := fuel;
      while totalFetched < MaxComments
        invariant totalFetched == |allCommentThreads| < MaxComments
        invariant Paginate(svc.pages, currentPageToken, allCommentThreads, visited, fuelLeft) == w
        invariant svc.sent == sent0 + FetchAllRequests(s0, parts, visited)
        invariant Snapshot() == s0.(pageToken := LastToken(s0.pageToken, visited), maxResults := FetchAllPageSize)
        decreases fuelLeft
      {
        if fuelLeft == 0 {
          assert w == Walk(visited, Exhausted);
          r := Failure(FuelExhausted); return;
        }
        ghost var token0, acc0, visited0 := currentPageToken, allCommentThreads, visited;
        var resp := FetchPage(svc, parts, currentPageToken, s0, sent0, visited);
        visited := visited + [currentPageToken];
        if resp.Failure? {
          assert w == Walk(visited, PageFailed);
          r := Failure(resp.error); return;
        }
        lastPage := svc.pages[currentPageToken];
        lastResponse := resp.value;
        var stop;
        allCommentThreads, totalFetched, hasMore, stop := AddPage(allCommentThreads, totalFetched, resp.value);
        if stop {
          assert w == Walk(visited, Done(allCommentThreads, hasMore, lastPage));
          break;
        }
        currentPageToken := resp.value.nextPageToken;
        fuelLeft := fuelLeft - 1;
        PaginateContinues(svc.pages, token0, acc0, visited0, fuelLeft + 1,
                          currentPageToken, allCommentThreads, visited, fuelLeft);
      }
      r := Success(Fetched(allCommentThreads, hasMore, lastResponse));
    }

    /** Collects, then renders the result in the chosen output format. */
    method List(svc: CommentThreadsService, parts: seq<string>, output: string, fuel: nat)
      returns (collected: Result<Collected, Error>, printed: Option<Printed>)
      modifies this, svc
      ensures CollectEffect(svc, parts, fuel, collected)
      ensures collected.Failure? ==> printed.None?
      ensures collected.Success? ==> printed == Some(Render(output, fetchAll, collected.value))
    {
      collected := Collect(svc, parts, fuel);
      if collected.Failure? {
        return collected, None;
      }
      printed := Some(Render(output, fetchAll, collected.value));
    }
  }
}
