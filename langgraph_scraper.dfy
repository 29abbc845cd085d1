/** The scraping state machine of src/scraper/langgraph_scraper.py, on values.

    The session record, the three steps (`scrape_website`, `search_google`,
    `extract_info`) as functions from the old record to the new one, the routers
    that join them into a graph whose entry point is `scrape_website`, and the
    graph run with fuel. The network, the HTML parser, the search provider and
    the LLM are injected outcome values (`Env`); `urljoin` is an uninterpreted
    function passed in, which may raise. The class `ScraperSession.Session` performs the same
    steps by updating fields in place and is proved equal to these functions. */
module LangGraphScraper {
  import opened Wrappers
  import opened Text
  import opened Seqs

  // ---------------------------------------------------------------- values

  /** A JSON value as parsed from the LLM's reply. */
  datatype Json =
    | JNull
    | JBool(b: bool)
    | JNum(n: real)
    | JStr(s: string)
    | JArr(items: seq<Json>)
    | JObj(members: map<string, Json>)

  /** Python truthiness of a JSON value (`if value:`, `not value`). */
  predicate Truthy(v: Json) {
    match v
    case JNull => false
    case JBool(b) => b
    case JNum(n) => n != 0.0
    case JStr(s) => s != []
    case JArr(items) => items != []
    case JObj(m) => m != map[]
  }

  /** The five information fields of the company record. */
  datatype Field = CompanyName | CompanyLocation | ProductsOrServices | CompanyOverview | TargetClients

  function FieldName(f: Field): string {
    match f
    case CompanyName => "company_name"
    case CompanyLocation => "company_location"
    case ProductsOrServices => "products_or_services"
    case CompanyOverview => "company_overview"
    case TargetClients => "target_clients"
  }

  /** The information fields in the order of the record's keys. */
  const InfoFields: seq<Field> := [CompanyName, CompanyLocation, ProductsOrServices, CompanyOverview, TargetClients]

  /** The four fields the routers ask for before they stop. */
  const RequiredFields: seq<Field> := [CompanyLocation, ProductsOrServices, CompanyOverview, TargetClients]

  /** The routers' confidence threshold. */
  const StopConfidence: real := 0.7

  /** The cap on both attempt counters. */
  const MaxTries: nat := 5

  /** The `CompanyInfo` dictionary the scraper fills in. Values are whatever
      JSON the LLM returned; confidence scores are keyed by field. */
  datatype CompanyInfo = CompanyInfo(
    companyName: Json,
    companyLocation: Json,
    productsOrServices: Json,
    companyOverview: Json,
    targetClients: Json,
    sources: seq<string>,
    confidenceScores: map<Field, real>)
  {
    function Get(f: Field): Json {
      match f
      case CompanyName => companyName
      case CompanyLocation => companyLocation
      case ProductsOrServices => productsOrServices
      case CompanyOverview => companyOverview
      case TargetClients => targetClients
    }

    function Set(f: Field, v: Json): (r: CompanyInfo)
      ensures r.Get(f) == v
      ensures forall g :: g != f ==> r.Get(g) == Get(g)
      ensures r.sources == sources && r.confidenceScores == confidenceScores
    {
      match f
      case CompanyName => this.(companyName := v)
      case CompanyLocation => this.(companyLocation := v)
      case ProductsOrServices => this.(productsOrServices := v)
      case CompanyOverview => this.(companyOverview := v)
      case TargetClients => this.(targetClients := v)
    }

    /** `confidence_scores.get(field, 0.0)` */
    function Confidence(f: Field): real {
      if f in confidenceScores then confidenceScores[f] else 0.0
    }
  }

  datatype Mode = Website | Google

  /** Why `extract_info` set `error`. */
  datatype ExtractError =
    | MissingApiKey
    | LlmCallFailed
    | MissingConfidence(field: Field)

  /** The `ScraperState` dictionary. The `content` dictionary is kept as a map
      together with the insertion order of its keys (`pageOrder`), which decides
      the order in which `extract_info` adds sources. */
  datatype State = State(
    companyName: string,
    websiteUrl: string,
    companyInfo: CompanyInfo,
    currentUrl: string,
    visitedUrls: seq<string>,
    pageOrder: seq<string>,
    content: map<string, string>,
    navigationTries: nat,
    searchTries: nat,
    mode: Mode,
    error: Option<ExtractError>)

  function InitialInfo(companyName: string): CompanyInfo {
    CompanyInfo(JStr(companyName), JStr(""), JArr([]), JStr(""), JArr([]), [], map[])
  }

  /** `create_initial_state` */
  function InitialState(companyName: string, websiteUrl: string): State {
    State(companyName, websiteUrl, InitialInfo(companyName), websiteUrl,
          [], [], map[], 0, 0, Website, None)
  }

  // ---------------------------------------------------------------- collaborators

  /** An `<a href=...>` element of a fetched page. */
  datatype Anchor = Anchor(href: string, text: string)

  /** What fetching and parsing one URL gives: a failure (network error,
      timeout, status rejected by `raise_for_status`) or the page's joined
      paragraph and heading text together with its anchors in document order. */
  datatype FetchOutcome = FetchFailed | Fetched(text: string, anchors: seq<Anchor>)

  /** One search result URL together with what fetching it would give. */
  datatype Hit = Hit(url: string, fetch: FetchOutcome)

  /** What the search provider gives for one query: it raised, or it listed results. */
  datatype SearchOutcome = SearchFailed | SearchOk(hits: seq<Hit>)

  /** What calling the LLM and `json.loads` on its reply give: an exception, or
      the parsed object together with its `confidence_scores` member when present. */
  datatype LlmOutcome = LlmRaised | LlmReply(reply: map<string, Json>, scores: Option<map<string, real>>)

  /** The world one run sees. Each oracle is indexed by the number of the step
      (0 for the first node executed), so any sequence of outcomes is possible. */
  datatype Env = Env(
    fetch: nat -> FetchOutcome,
    search: (nat, string) -> SearchOutcome,
    llm: nat -> LlmOutcome,
    apiKeyPresent: bool,
    urlJoin: UrlJoin)

  function SearchAt(env: Env, t: nat): string -> SearchOutcome {
    q => env.search(t, q)
  }

  // ---------------------------------------------------------------- extract_links

  const LinkKeywords: seq<string> :=
    ["about", "company", "products", "services", "clients", "customers", "contact", "locations", "overview"]

  predicate MentionsKeyword(s: string) {
    exists k :: k in LinkKeywords && Contains(s, k)
  }

  /** The anchor's lower-cased href or text contains one of the keywords. */
  predicate Relevant(a: Anchor) {
    MentionsKeyword(Lower(a.href)) || MentionsKeyword(Lower(a.text))
  }

  /** `urljoin(base, href)`: the joined URL, or `None` when it raises
      `ValueError` (a malformed href such as an unbalanced bracket in the host). */
  type UrlJoin = (string, string) -> Option<string>

  function Resolve(a: Anchor, baseUrl: string, urlJoin: UrlJoin): Option<string> {
    urlJoin(baseUrl, Lower(a.href))
  }

  /** `extract_links` reaches the `urljoin` call for this anchor and it raises. */
  predicate JoinRaises(a: Anchor, baseUrl: string, urlJoin: UrlJoin) {
    Relevant(a) && Resolve(a, baseUrl, urlJoin).None?
  }

  /** No anchor of the page makes `urljoin` raise. */
  predicate JoinsAll(anchors: seq<Anchor>, baseUrl: string, urlJoin: UrlJoin) {
    forall a :: a in anchors ==> !JoinRaises(a, baseUrl, urlJoin)
  }

  /** A link `extract_links` keeps: relevant, and its resolved URL contains the base URL. */
  predicate Kept(a: Anchor, baseUrl: string, urlJoin: UrlJoin) {
    Relevant(a) && Resolve(a, baseUrl, urlJoin).Some? && Contains(Resolve(a, baseUrl, urlJoin).value, baseUrl)
  }

  /** `extract_links`: the kept links in document order, or `None` when
      `urljoin` raises on a relevant anchor. */
  function ExtractLinks(anchors: seq<Anchor>, baseUrl: string, urlJoin: UrlJoin): Option<seq<string>> {
    if anchors == [] then Some([])
    else if JoinRaises(anchors[0], baseUrl, urlJoin) then None
    else
      match ExtractLinks(anchors[1..], baseUrl, urlJoin)
      case None => None
      case Some(rest) =>
        Some(if Kept(anchors[0], baseUrl, urlJoin) then [Resolve(anchors[0], baseUrl, urlJoin).value] + rest else rest)
  }

  // ---------------------------------------------------------------- scrape_website

  /** The key order of a dictionary after `d[key] = ...`. */
  function AddKey(order: seq<string>, d: map<string, string>, key: string): seq<string> {
    if key in d then order else order + [key]
  }

  /** `scrape_website`. A good page is stored and its URL appended before the
      links are extracted, so when `urljoin` raises the handler switches to
      google mode with the page kept and the counter not raised. */
  function ScrapeWebsiteStep(s: State, fetch: FetchOutcome, urlJoin: UrlJoin): State {
    if s.navigationTries >= MaxTries then s.(mode := Google)
    else
      match fetch
      case FetchFailed => s.(mode := Google)
      case Fetched(text, anchors) =>
        if IsBlank(text) then s.(mode := Google)
        else
          var visited := s.visitedUrls + [s.currentUrl];
          var stored := s.(pageOrder := AddKey(s.pageOrder, s.content, s.currentUrl),
                           content := s.content[s.currentUrl := text],
                           visitedUrls := visited);
          match ExtractLinks(anchors, s.websiteUrl, urlJoin)
          case None => stored.(mode := Google)
          case Some(links) =>
            var unvisited := NotIn(links, visited);
            stored.(currentUrl := if unvisited != [] then unvisited[0] else s.currentUrl,
                    navigationTries := s.navigationTries + 1)
  }

  // ---------------------------------------------------------------- search_google

  /** The names of the fields among `fields` whose value is falsy, in order. */
  function FalsyFields(info: CompanyInfo, fields: seq<Field>): seq<string> {
    if fields == [] then []
    else if !Truthy(info.Get(fields[0])) then [FieldName(fields[0])] + FalsyFields(info, fields[1..])
    else FalsyFields(info, fields[1..])
  }

  /** The query `search_google` sends. */
  function SearchQuery(s: State): string {
    var missing := FalsyFields(s.companyInfo, InfoFields);
    if missing == [] then s.companyName + " company information overview"
    else s.companyName + " " + Join(missing, " ")
  }

  /** One iteration of the loop over the search results. */
  function FetchHit(s: State, hit: Hit): State {
    if hit.url in s.visitedUrls then s
    else
      match hit.fetch
      case FetchFailed => s
      case Fetched(text, _) =>
        if IsBlank(text) then s
        else s.(pageOrder := AddKey(s.pageOrder, s.content, hit.url),
                content := s.content[hit.url := text],
                visitedUrls := s.visitedUrls + [hit.url])
  }

  /** The loop over the search results. */
  function FetchHits(s: State, hits: seq<Hit>): State
    decreases |hits|
  {
    if hits == [] then s else FetchHits(FetchHit(s, hits[0]), hits[1..])
  }

  /** `search_google` */
  function SearchGoogleStep(s: State, search: string -> SearchOutcome): State {
    if s.searchTries >= MaxTries then s
    else
      match search(SearchQuery(s))
      case SearchFailed => s
      case SearchOk(hits) => FetchHits(s, hits).(searchTries := s.searchTries + 1)
  }

  // ---------------------------------------------------------------- extract_info

  /** The loop of `extract_info` over the fields: a field with a truthy value in
      the reply is overwritten, then its confidence is copied when the reply has
      scores. A reply with scores but none for that field raises `KeyError`
      after the value was written: the loop stops and names the field. */
  function MergeFields(info: CompanyInfo, reply: map<string, Json>, scores: Option<map<string, real>>, fields: seq<Field>)
    : (CompanyInfo, Option<Field>)
    decreases |fields|
  {
    if fields == [] then (info, None)
    else
      var f := fields[0];
      var name := FieldName(f);
      if name in reply && Truthy(reply[name]) then
        var written := info.Set(f, reply[name]);
        match scores
        case None => MergeFields(written, reply, scores, fields[1..])
        case Some(m) =>
          if name in m then MergeFields(written.(confidenceScores := written.confidenceScores[f := m[name]]), reply, scores, fields[1..])
          else (written, Some(f))
      else MergeFields(info, reply, scores, fields[1..])
  }

  /** `extract_info` */
  function ExtractInfoStep(s: State, apiKeyPresent: bool, llm: LlmOutcome): State {
    if s.content == map[] then s
    else if !apiKeyPresent then s.(error := Some(MissingApiKey))
    else
      match llm
      case LlmRaised => s.(error := Some(LlmCallFailed))
      case LlmReply(reply, scores) =>
        var (info, failed) := MergeFields(s.companyInfo, reply, scores, InfoFields);
        if failed.Some? then s.(companyInfo := info, error := Some(MissingConfidence(failed.value)))
        else s.(companyInfo := info.(sources := info.sources + NotIn(s.pageOrder, info.sources)))
  }

  // ---------------------------------------------------------------- routers

  datatype Node = ScrapeNode | SearchNode | ExtractNode | End

  /** `scrape_router` */
  function ScrapeRouter(s: State): Node {
    if s.content != map[] then ExtractNode else End
  }

  /** `search_router` */
  function SearchRouter(s: State): Node {
    if s.content != map[] then ExtractNode else End
  }

  /** Every required field is truthy with confidence at least 0.7. */
  predicate HasAllInfo(info: CompanyInfo) {
    forall f :: f in RequiredFields ==> Truthy(info.Get(f)) && info.Confidence(f) >= StopConfidence
  }

  /** `extract_router` */
  function ExtractRouter(s: State): Node {
    if HasAllInfo(s.companyInfo) then End
    else if s.mode == Website && s.navigationTries < MaxTries then ScrapeNode
    else if s.mode == Google && s.searchTries < MaxTries then SearchNode
    else End
  }

  /** `router`: defined in the source but never wired into the graph. */
  function Router(s: State): Node {
    if HasAllInfo(s.companyInfo) then End
    else if s.mode == Website && s.navigationTries < MaxTries then ScrapeNode
    else if s.mode == Google && s.searchTries < MaxTries then SearchNode
    else if s.content != map[] then ExtractNode
    else End
  }

  // ---------------------------------------------------------------- the graph

  /** The node function of `node`, run as step number `t`. */
  function Step(s: State, node: Node, env: Env, t: nat): State
    requires node != End
  {
    match node
    case ScrapeNode => ScrapeWebsiteStep(s, env.fetch(t), env.urlJoin)
    case SearchNode => SearchGoogleStep(s, SearchAt(env, t))
    case ExtractNode => ExtractInfoStep(s, env.apiKeyPresent, env.llm(t))
  }

  /** The conditional edge leaving `node`. */
  function Route(node: Node, s: State): Node
    requires node != End
  {
    match node
    case ScrapeNode => ScrapeRouter(s)
    case SearchNode => SearchRouter(s)
    case ExtractNode => ExtractRouter(s)
  }

  datatype RunResult = Finished(final: State) | OutOfFuel(last: State)

  /** The compiled graph, run from `node` for at most `fuel` node executions. */
  function Run(s: State, node: Node, env: Env, t: nat, fuel: nat): RunResult
    decreases fuel
  {
    if node == End then Finished(s)
    else if fuel == 0 then OutOfFuel(s)
    else
      var next := Step(s, node, env, t);
      Run(next, Route(node, next), env, t + 1, fuel - 1)
  }

  datatype ScrapeResult = Returned(info: CompanyInfo) | Raised(error: ExtractError) | RecursionLimit

  /** What `scrape` makes of the graph's final state. */
  function Outcome(r: RunResult): ScrapeResult {
    match r
    case Finished(s) => if s.error.Some? then Raised(s.error.value) else Returned(s.companyInfo)
    case OutOfFuel(_) => RecursionLimit
  }

  /** `LangGraphScraper.scrape`, with at most `fuel` node executions. */
  function ScrapeSpec(companyName: string, websiteUrl: string, env: Env, fuel: nat): ScrapeResult {
    Outcome(Run(InitialState(companyName, websiteUrl), ScrapeNode, env, 0, fuel))
  }
}
