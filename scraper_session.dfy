/** The session record of src/scraper/langgraph_scraper.py as an object whose
    three node functions update it in place, and `scrape`, which runs the graph
    over one such object. Each method is proved to compute the reference
    function of `LangGraphScraper` for the same inputs. */
module ScraperSession {
  import opened Wrappers
  import opened Text
  import opened Seqs
  import opened LangGraphScraper
  import opened ScraperProperties

  class Session {
    var companyName: string
    var websiteUrl: string
    var companyInfo: CompanyInfo
    var currentUrl: string
    var visitedUrls: seq<string>
    var pageOrder: seq<string>
    var content: map<string, string>
    var navigationTries: nat
    var searchTries: nat
    var mode: Mode
    var error: Option<ExtractError>

    /** The record as a value. */
    function Snapshot(): State
      reads this
    {
      State(companyName, websiteUrl, companyInfo, currentUrl, visitedUrls, pageOrder,
            content, navigationTries, searchTries, mode, error)
    }

    ghost predicate Valid()
      reads this
    {
      Inv(Snapshot())
    }

    /** `create_initial_state` */
    constructor (companyName: string, websiteUrl: string)
      ensures Valid()
      ensures Snapshot() == InitialState(companyName, websiteUrl)
    {
      this.companyName := companyName;
      this.websiteUrl := websiteUrl;
      companyInfo := InitialInfo(companyName);
      currentUrl := websiteUrl;
      visitedUrls := [];
      pageOrder := [];
      content := map[];
      navigationTries := 0;
      searchTries := 0;
      mode := Website;
      error := None;
      new;
      InitialStateInv(companyName, websiteUrl);
    }

    /** `state["content"][url] = text`, keeping the key order. */
    method StorePage(url: string, text: string)
      modifies this
      ensures Snapshot() == old(Snapshot()).(pageOrder := AddKey(old(pageOrder), old(content), url),
                                             content := old(content)[url := text])
    {
      if url !in content {
        pageOrder := pageOrder + [url];
      }
      content := content[url := text];
    }

    /** `scrape_website` on the outcome of fetching `current_url`. */
    method ScrapeWebsite(fetch: FetchOutcome, urlJoin: UrlJoin)
      requires Valid()
      modifies this
      ensures Valid()
      ensures Snapshot() == ScrapeWebsiteStep(old(Snapshot()), fetch, urlJoin)
    {
      ghost var before := Snapshot();
      ScrapeWebsiteInv(before, fetch, urlJoin);
      if navigationTries >= MaxTries {
        mode := Google;
        return;
      }
      match fetch {
        case FetchFailed =>
          mode := Google;
        case Fetched(text, anchors) =>
          if IsBlank(text) {
            mode := Google;
          } else {
            StorePage(currentUrl, text);
            visitedUrls := visitedUrls + [currentUrl];
            match ExtractLinks(anchors, websiteUrl, urlJoin) {
              case None =>
                mode := Google;
              case Some(links) =>
                var unvisited := NotIn(links, visitedUrls);
                if unvisited != [] {
                  currentUrl := unvisited[0];
                }
                navigationTries := navigationTries + 1;
            }
          }
      }
    }

    /** `search_google` with the search provider `search`. */
    method SearchGoogle(search: string -> SearchOutcome)
      requires Valid()
      modifies this
      ensures Valid()
      ensures Snapshot() == SearchGoogleStep(old(Snapshot()), search)
    {
      ghost var before := Snapshot();
      SearchGoogleInv(before, search);
      if searchTries >= MaxTries {
        return;
      }
      var query := SearchQuery(Snapshot());
      match search(query) {
        case SearchFailed =>
          return;
        case SearchOk(hits) =>
          var i := 0;
          while i < |hits|
            invariant 0 <= i <= |hits|
            invariant FetchHits(Snapshot(), hits[i..]) == FetchHits(before, hits)
            invariant searchTries == before.searchTries
          {
            var hit := hits[i];
            if hit.url !in visitedUrls {
              match hit.fetch {
                case FetchFailed =>
                case Fetched(text, _) =>
                  if !IsBlank(text) {
                    StorePage(hit.url, text);
                    visitedUrls := visitedUrls + [hit.url];
                  }
              }
            }
            assert hits[i..] == [hit] + hits[i + 1..];
            i := i + 1;
          }
          searchTries := searchTries + 1;
      }
    }

    /** `extract_info`, with the API key present or not and the outcome of the LLM call. */
    method ExtractInfo(apiKeyPresent: bool, llm: LlmOutcome)
      requires Valid()
      modifies this
      ensures Valid()
      ensures Snapshot() == ExtractInfoStep(old(Snapshot()), apiKeyPresent, llm)
    {
      ghost var before := Snapshot();
      ExtractInfoInv(before, apiKeyPresent, llm);
      if content == map[] {
        return;
      }
      if !apiKeyPresent {
        error := Some(MissingApiKey);
        return;
      }
      match llm {
        case LlmRaised =>
          error := Some(LlmCallFailed);
        case LlmReply(reply, scores) =>
          var i := 0;
          var failed: Option<Field> := None;
          while i < |InfoFields| && failed.None?
            invariant 0 <= i <= |InfoFields|
            invariant Snapshot() == before.(companyInfo := companyInfo)
            invariant failed.None? ==>
              MergeFields(companyInfo, reply, scores, InfoFields[i..]) == MergeFields(before.companyInfo, reply, scores, InfoFields)
            invariant failed.Some? ==>
              (companyInfo, failed) == MergeFields(before.companyInfo, reply, scores, InfoFields)
          {
            var field := InfoFields[i];
            var name := FieldName(field);
            if name in reply && Truthy(reply[name]) {
              companyInfo := companyInfo.Set(field, reply[name]);
              if scores.Some? {
                if name in scores.value {
                  companyInfo := companyInfo.(confidenceScores := companyInfo.confidenceScores[field := scores.value[name]]);
                } else {
                  failed := Some(field);
                }
              }
            }
            i := i + 1;
          }
          if failed.Some? {
            error := Some(MissingConfidence(failed.value));
          } else {
            var added := NotIn(pageOrder, companyInfo.sources);
            companyInfo := companyInfo.(sources := companyInfo.sources + added);
          }
      }
    }
  }

  /** `LangGraphScraper.scrape`: run the graph from `scrape_website` over a new
      session for at most `fuel` node executions, then raise if `error` is set. */
  method Scrape(companyName: string, websiteUrl: string, env: Env, fuel: nat) returns (r: ScrapeResult)
    ensures r == ScrapeSpec(companyName, websiteUrl, env, fuel)
  {
    var session := new Session(companyName, websiteUrl);
    var node := ScrapeNode;
    var t: nat := 0;
    var left := fuel;
    while node != End && left > 0
      invariant session.Valid()
      invariant Run(session.Snapshot(), node, env, t, left) == Run(InitialState(companyName, websiteUrl), ScrapeNode, env, 0, fuel)
      decreases left
    {
      match node {
        case ScrapeNode =>
          session.ScrapeWebsite(env.fetch(t), env.urlJoin);
          node := ScrapeRouter(session.Snapshot());
        case SearchNode =>
          session.SearchGoogle(SearchAt(env, t));
          node := SearchRouter(session.Snapshot());
        case ExtractNode =>
          session.ExtractInfo(env.apiKeyPresent, env.llm(t));
          node := ExtractRouter(session.Snapshot());
      }
      t, left := t + 1, left - 1;
    }
    if node != End {
      r := RecursionLimit;
    } else if session.error.Some? {
      r := Raised(session.error.value);
    } else {
      r := Returned(session.companyInfo);
    }
  }
}
