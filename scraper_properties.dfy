/** What the scraping state machine of src/scraper/langgraph_scraper.py
    guarantees, proved about the reference functions of `LangGraphScraper`. */
module ScraperProperties {
  import opened Wrappers
  import opened Text
  import opened Seqs
  import opened LangGraphScraper

  // ================================================================ invariant and monotonicity

  /** What holds of every record the graph passes between nodes: the key order
      of `content` lists each key once, every page in `content` was visited,
      and every visited URL has content (a URL is visited exactly when its
      page is stored), both counters stay within the cap and `sources` has no
      duplicates. */
  ghost predicate Inv(s: State) {
    && Distinct(s.pageOrder)
    && (forall u :: u in s.pageOrder <==> u in s.content)
    && (forall u :: u in s.content <==> u in s.visitedUrls)
    && s.navigationTries <= MaxTries
    && s.searchTries <= MaxTries
    && Distinct(s.companyInfo.sources)
  }

  /** How a record may change from one node to a later one: the company and
      seed URL stay, visited URLs, content keys, their order and the sources
      only grow at the end, the counters never decrease, the mode only moves
      from website to google, and an error once set stays set. */
  ghost predicate Evolves(s: State, s': State) {
    && s'.companyName == s.companyName
    && s'.websiteUrl == s.websiteUrl
    && s.visitedUrls <= s'.visitedUrls
    && s.pageOrder <= s'.pageOrder
    && s.content.Keys <= s'.content.Keys
    && s.companyInfo.sources <= s'.companyInfo.sources
    && s.navigationTries <= s'.navigationTries
    && s.searchTries <= s'.searchTries
    && (s.mode == Google ==> s'.mode == Google)
    && (s.error.Some? ==> s'.error.Some?)
  }

  lemma EvolvesTransitive(s1: State, s2: State, s3: State)
    requires Evolves(s1, s2) && Evolves(s2, s3)
    ensures Evolves(s1, s3)
  {
  }

  lemma InitialStateInv(companyName: string, websiteUrl: string)
    ensures Inv(InitialState(companyName, websiteUrl))
  {
  }

  /** Storing a page under a key keeps the key order in step with the map. */
  lemma AddKeyInv(order: seq<string>, d: map<string, string>, key: string, text: string)
    requires Distinct(order) && (forall u :: u in order <==> u in d)
    ensures Distinct(AddKey(order, d, key))
    ensures forall u :: u in AddKey(order, d, key) <==> u in d[key := text]
    ensures order <= AddKey(order, d, key)
  {
    if key !in d {
      AppendDistinct(order, [key]);
    }
  }

  lemma {:induction false} ScrapeWebsiteInv(s: State, fetch: FetchOutcome, urlJoin: UrlJoin)
    requires Inv(s)
    ensures Inv(ScrapeWebsiteStep(s, fetch, urlJoin))
    ensures Evolves(s, ScrapeWebsiteStep(s, fetch, urlJoin))
  {
    if s.navigationTries < MaxTries && fetch.Fetched? && !IsBlank(fetch.text) {
      AddKeyInv(s.pageOrder, s.content, s.currentUrl, fetch.text);
    }
  }

  lemma {:induction false} FetchHitInv(s: State, hit: Hit)
    requires Inv(s)
    ensures Inv(FetchHit(s, hit)) && Evolves(s, FetchHit(s, hit))
    ensures FetchHit(s, hit).navigationTries == s.navigationTries
    ensures FetchHit(s, hit).searchTries == s.searchTries
    ensures FetchHit(s, hit).mode == s.mode
    ensures FetchHit(s, hit).companyInfo == s.companyInfo
    ensures FetchHit(s, hit).error == s.error
  {
    if hit.url !in s.visitedUrls && hit.fetch.Fetched? && !IsBlank(hit.fetch.text) {
      AddKeyInv(s.pageOrder, s.content, hit.url, hit.fetch.text);
    }
  }

  lemma {:induction false} FetchHitsInv(s: State, hits: seq<Hit>)
    requires Inv(s)
    ensures Inv(FetchHits(s, hits)) && Evolves(s, FetchHits(s, hits))
    ensures FetchHits(s, hits).navigationTries == s.navigationTries
    ensures FetchHits(s, hits).searchTries == s.searchTries
    ensures FetchHits(s, hits).mode == s.mode
    ensures FetchHits(s, hits).companyInfo == s.companyInfo
    ensures FetchHits(s, hits).error == s.error
    decreases |hits|
  {
    if hits != [] {
      FetchHitInv(s, hits[0]);
      FetchHitsInv(FetchHit(s, hits[0]), hits[1..]);
      EvolvesTransitive(s, FetchHit(s, hits[0]), FetchHits(s, hits));
    }
  }

  lemma SearchGoogleInv(s: State, search: string -> SearchOutcome)
    requires Inv(s)
    ensures Inv(SearchGoogleStep(s, search)) && Evolves(s, SearchGoogleStep(s, search))
  {
    if s.searchTries < MaxTries && search(SearchQuery(s)).SearchOk? {
      FetchHitsInv(s, search(SearchQuery(s)).hits);
    }
  }

  lemma ExtractInfoInv(s: State, apiKeyPresent: bool, llm: LlmOutcome)
    requires Inv(s)
    ensures Inv(ExtractInfoStep(s, apiKeyPresent, llm)) && Evolves(s, ExtractInfoStep(s, apiKeyPresent, llm))
  {
    if s.content != map[] && apiKeyPresent && llm.LlmReply? {
      MergeFieldsKeepsSources(s.companyInfo, llm.reply, llm.scores, InfoFields);
      var info := MergeFields(s.companyInfo, llm.reply, llm.scores, InfoFields).0;
      NotInDistinct(s.pageOrder, info.sources);
      AppendDistinct(info.sources, NotIn(s.pageOrder, info.sources));
    }
  }

  lemma StepInv(s: State, node: Node, env: Env, t: nat)
    requires node != End && Inv(s)
    ensures Inv(Step(s, node, env, t)) && Evolves(s, Step(s, node, env, t))
  {
    match node
    case ScrapeNode => ScrapeWebsiteInv(s, env.fetch(t), env.urlJoin);
    case SearchNode => SearchGoogleInv(s, SearchAt(env, t));
    case ExtractNode => ExtractInfoInv(s, env.apiKeyPresent, env.llm(t));
  }

  function RunState(r: RunResult): State {
    match r
    case Finished(s) => s
    case OutOfFuel(s) => s
  }

  /** Every record the graph reaches, finished or not, keeps the invariant and
      has evolved from the record it started with. */
  lemma {:induction false} RunInv(s: State, node: Node, env: Env, t: nat, fuel: nat)
    requires Inv(s)
    ensures Inv(RunState(Run(s, node, env, t, fuel)))
    ensures Evolves(s, RunState(Run(s, node, env, t, fuel)))
    decreases fuel
  {
    if node != End && fuel > 0 {
      var next := Step(s, node, env, t);
      StepInv(s, node, env, t);
      RunInv(next, Route(node, next), env, t + 1, fuel - 1);
      EvolvesTransitive(s, next, RunState(Run(s, node, env, t, fuel)));
    }
  }

  /** `scrape` only ever returns a record for the company it was asked about,
      every page in its content was visited and neither counter passed 5. */
  lemma ScrapeInv(companyName: string, websiteUrl: string, env: Env, fuel: nat)
    ensures var s := RunState(Run(InitialState(companyName, websiteUrl), ScrapeNode, env, 0, fuel));
      Inv(s) && s.companyName == companyName && s.websiteUrl == websiteUrl
  {
    InitialStateInv(companyName, websiteUrl);
    RunInv(InitialState(companyName, websiteUrl), ScrapeNode, env, 0, fuel);
  }

  // ================================================================ extract_links

  /** `extract_links` raises exactly when some relevant anchor's href makes
      `urljoin` raise; otherwise the links are exactly the resolved URLs of
      the kept anchors, each containing the base URL. */
  lemma {:induction false} ExtractLinksMembers(anchors: seq<Anchor>, baseUrl: string, urlJoin: UrlJoin)
    ensures ExtractLinks(anchors, baseUrl, urlJoin).Some? <==> JoinsAll(anchors, baseUrl, urlJoin)
    ensures ExtractLinks(anchors, baseUrl, urlJoin).Some? ==>
      forall u :: u in ExtractLinks(anchors, baseUrl, urlJoin).value <==>
        exists a :: a in anchors && Kept(a, baseUrl, urlJoin) && u == Resolve(a, baseUrl, urlJoin).value
    ensures ExtractLinks(anchors, baseUrl, urlJoin).Some? ==>
      forall u :: u in ExtractLinks(anchors, baseUrl, urlJoin).value ==> Contains(u, baseUrl)
    decreases |anchors|
  {
    if anchors != [] {
      ExtractLinksMembers(anchors[1..], baseUrl, urlJoin);
      assert forall a :: a in anchors <==> a == anchors[0] || a in anchors[1..];
    }
  }

  /** The links of both parts of a page, in document order, when neither
      part makes `urljoin` raise; a raise in either part is a raise. */
  function Concat(x: Option<seq<string>>, y: Option<seq<string>>): Option<seq<string>> {
    if x.Some? && y.Some? then Some(x.value + y.value) else None
  }

  /** Links come out in document order: the links of a page are the links of
      its first part followed by those of the rest. */
  lemma {:induction false} ExtractLinksAppend(xs: seq<Anchor>, ys: seq<Anchor>, baseUrl: string, urlJoin: UrlJoin)
    ensures ExtractLinks(xs + ys, baseUrl, urlJoin) ==
      Concat(ExtractLinks(xs, baseUrl, urlJoin), ExtractLinks(ys, baseUrl, urlJoin))
    decreases |xs|
  {
    if xs == [] {
      assert xs + ys == ys;
      if ExtractLinks(ys, baseUrl, urlJoin).Some? {
        assert [] + ExtractLinks(ys, baseUrl, urlJoin).value == ExtractLinks(ys, baseUrl, urlJoin).value;
      }
    } else {
      assert (xs + ys)[0] == xs[0] && (xs + ys)[1..] == xs[1..] + ys;
      ExtractLinksAppend(xs[1..], ys, baseUrl, urlJoin);
      var x, y := ExtractLinks(xs[1..], baseUrl, urlJoin), ExtractLinks(ys, baseUrl, urlJoin);
      if x.Some? && y.Some? && Kept(xs[0], baseUrl, urlJoin) {
        var head := [Resolve(xs[0], baseUrl, urlJoin).value];
        assert head + (x.value + y.value) == (head + x.value) + y.value;
      }
    }
  }

  /** One more anchor adds its resolved URL at the end exactly when it is kept
      (repeats included), and makes the call raise when `urljoin` raises on
      it: the loop body of `extract_links`. */
  lemma ExtractLinksSnoc(xs: seq<Anchor>, a: Anchor, baseUrl: string, urlJoin: UrlJoin)
    ensures ExtractLinks(xs + [a], baseUrl, urlJoin) ==
      if ExtractLinks(xs, baseUrl, urlJoin).None? || JoinRaises(a, baseUrl, urlJoin) then None
      else Some(ExtractLinks(xs, baseUrl, urlJoin).value +
                (if Kept(a, baseUrl, urlJoin) then [Resolve(a, baseUrl, urlJoin).value] else []))
  {
    assert [a][0] == a && [a][1..] == [];
    assert ExtractLinks([a][1..], baseUrl, urlJoin) == Some([]);
    if Kept(a, baseUrl, urlJoin) {
      assert [Resolve(a, baseUrl, urlJoin).value] + [] == [Resolve(a, baseUrl, urlJoin).value];
    }
    ExtractLinksAppend(xs, [a], baseUrl, urlJoin);
  }

  // ================================================================ scrape_website

  /** The fetch gave a page with non-blank text. */
  predicate PageOk(fetch: FetchOutcome) {
    fetch.Fetched? && !IsBlank(fetch.text)
  }

  /** `u` is the first element of `links` that is not in `visited`. */
  ghost predicate FirstNotIn(links: seq<string>, visited: seq<string>, u: string) {
    exists k :: 0 <= k < |links| && links[k] == u && u !in visited &&
      forall i :: 0 <= i < k ==> links[i] in visited
  }

  lemma {:induction false} NotInHead(links: seq<string>, visited: seq<string>)
    requires NotIn(links, visited) != []
    ensures FirstNotIn(links, visited, NotIn(links, visited)[0])
    decreases |links|
  {
    if links[0] in visited {
      NotInHead(links[1..], visited);
      var k :| 0 <= k < |links[1..]| && links[1..][k] == NotIn(links, visited)[0] &&
        NotIn(links, visited)[0] !in visited && forall i :: 0 <= i < k ==> links[1..][i] in visited;
      assert links[k + 1] == NotIn(links, visited)[0];
      forall i | 0 <= i < k + 1 ensures links[i] in visited {
        if i > 0 { assert links[i] == links[1..][i - 1]; }
      }
    } else {
      assert links[0] == NotIn(links, visited)[0];
    }
  }

  /** At the cap, or when the fetch fails or gives blank text, `scrape_website`
      only switches to google mode: content, visited URLs, current URL and the
      counter stay as they were. */
  lemma ScrapeWebsiteDegrades(s: State, fetch: FetchOutcome, urlJoin: UrlJoin)
    requires s.navigationTries >= MaxTries || !PageOk(fetch)
    ensures ScrapeWebsiteStep(s, fetch, urlJoin) == s.(mode := Google)
  {
  }

  /** A good page is stored under the current URL, which is appended to the
      visited URLs. When no anchor makes `urljoin` raise, the counter rises by
      exactly one and the next URL is the first extracted link not yet
      visited, or the current URL again when there is none. When one does,
      the handler switches to google mode and the counter and the current URL
      stay. Nothing else changes. */
  lemma ScrapeWebsiteStores(s: State, fetch: FetchOutcome, urlJoin: UrlJoin)
    requires s.navigationTries < MaxTries && PageOk(fetch)
    ensures ExtractLinks(fetch.anchors, s.websiteUrl, urlJoin).Some? <==> JoinsAll(fetch.anchors, s.websiteUrl, urlJoin)
    ensures var s' := ScrapeWebsiteStep(s, fetch, urlJoin);
      && s'.content == s.content[s.currentUrl := fetch.text]
      && s'.visitedUrls == s.visitedUrls + [s.currentUrl]
      && s'.searchTries == s.searchTries
      && s'.companyInfo == s.companyInfo && s'.error == s.error
    ensures var s' := ScrapeWebsiteStep(s, fetch, urlJoin);
      JoinsAll(fetch.anchors, s.websiteUrl, urlJoin) ==>
        var links := ExtractLinks(fetch.anchors, s.websiteUrl, urlJoin).value;
        && s'.navigationTries == s.navigationTries + 1 && s'.mode == s.mode
        && ((exists l :: l in links && l !in s'.visitedUrls) ==> FirstNotIn(links, s'.visitedUrls, s'.currentUrl))
        && ((forall l :: l in links ==> l in s'.visitedUrls) ==> s'.currentUrl == s.currentUrl)
    ensures var s' := ScrapeWebsiteStep(s, fetch, urlJoin);
      !JoinsAll(fetch.anchors, s.websiteUrl, urlJoin) ==>
        s'.navigationTries == s.navigationTries && s'.mode == Google && s'.currentUrl == s.currentUrl
  {
    var s' := ScrapeWebsiteStep(s, fetch, urlJoin);
    ExtractLinksMembers(fetch.anchors, s.websiteUrl, urlJoin);
    var found := ExtractLinks(fetch.anchors, s.websiteUrl, urlJoin);
    if found.Some? {
      var links := found.value;
      if NotIn(links, s'.visitedUrls) != [] {
        NotInHead(links, s'.visitedUrls);
      } else {
        assert forall l :: l in links ==> l in s'.visitedUrls;
      }
    }
  }

  /** When a page offers no new link, or extracting its links raises, the
      next call fetches the same URL and appends it to the visited URLs a
      second time. */
  lemma RevisitAppendsAgain(s: State, first: FetchOutcome, second: FetchOutcome, urlJoin: UrlJoin)
    requires s.navigationTries + 1 < MaxTries && PageOk(first) && PageOk(second)
    requires var links := ExtractLinks(first.anchors, s.websiteUrl, urlJoin);
      links.Some? ==> forall l :: l in links.value ==> l in s.visitedUrls + [s.currentUrl]
    ensures var s2 := ScrapeWebsiteStep(ScrapeWebsiteStep(s, first, urlJoin), second, urlJoin);
      s2.visitedUrls == s.visitedUrls + [s.currentUrl, s.currentUrl] && !Distinct(s2.visitedUrls)
  {
    ScrapeWebsiteStores(s, first, urlJoin);
    ExtractLinksMembers(first.anchors, s.websiteUrl, urlJoin);
    var s1 := ScrapeWebsiteStep(s, first, urlJoin);
    assert s1.currentUrl == s.currentUrl && s1.navigationTries < MaxTries;
    ScrapeWebsiteStores(s1, second, urlJoin);
    var s2 := ScrapeWebsiteStep(s1, second, urlJoin);
    assert s2.visitedUrls == s.visitedUrls + [s.currentUrl, s.currentUrl];
    assert s2.visitedUrls[|s.visitedUrls|] == s2.visitedUrls[|s.visitedUrls| + 1];
  }

  // ================================================================ search_google

  /** The names of the falsy fields are listed, in the record's order. */
  lemma {:induction false} FalsyFieldsMembers(info: CompanyInfo, fields: seq<Field>)
    ensures forall n :: n in FalsyFields(info, fields) <==>
      exists f :: f in fields && !Truthy(info.Get(f)) && n == FieldName(f)
    ensures |FalsyFields(info, fields)| <= |fields|
    decreases |fields|
  {
    if fields != [] {
      FalsyFieldsMembers(info, fields[1..]);
      assert forall f :: f in fields <==> f == fields[0] || f in fields[1..];
    }
  }

  /** The query names the company and then either asks for an overview, when
      every field of the record is truthy, or lists the falsy fields. */
  lemma SearchQueryShape(s: State)
    ensures (forall f :: f in InfoFields ==> Truthy(s.companyInfo.Get(f))) ==>
      SearchQuery(s) == s.companyName + " company information overview"
    ensures (exists f :: f in InfoFields && !Truthy(s.companyInfo.Get(f))) ==>
      FalsyFields(s.companyInfo, InfoFields) != [] &&
      SearchQuery(s) == s.companyName + " " + Join(FalsyFields(s.companyInfo, InfoFields), " ")
  {
    var missing := FalsyFields(s.companyInfo, InfoFields);
    FalsyFieldsMembers(s.companyInfo, InfoFields);
    if missing != [] {
      assert missing[0] in missing;
    }
    if exists f :: f in InfoFields && !Truthy(s.companyInfo.Get(f)) {
      var f :| f in InfoFields && !Truthy(s.companyInfo.Get(f));
      assert FieldName(f) in missing;
    }
  }

  /** Before any extraction the record holds the company name and nothing
      else, so the first query asks for the other four fields. */
  lemma FirstQuery(companyName: string, websiteUrl: string)
    requires companyName != ""
    ensures SearchQuery(InitialState(companyName, websiteUrl)) ==
      companyName + " " + "company_location" + " " + "products_or_services" + " " + "company_overview" + " " + "target_clients"
  {
    InitialFalsyFields(companyName);
    JoinRequiredNames();
  }

  lemma InitialFalsyFields(companyName: string)
    requires companyName != ""
    ensures FalsyFields(InitialInfo(companyName), InfoFields) ==
      ["company_location", "products_or_services", "company_overview", "target_clients"]
  {
    var info := InitialInfo(companyName);
    assert FalsyFields(info, InfoFields[5..]) == [];
    assert FalsyFields(info, InfoFields[4..]) == ["target_clients"];
    assert FalsyFields(info, InfoFields[3..]) == ["company_overview", "target_clients"];
    assert FalsyFields(info, InfoFields[2..]) == ["products_or_services", "company_overview", "target_clients"];
    assert FalsyFields(info, InfoFields[1..]) == ["company_location", "products_or_services", "company_overview", "target_clients"];
  }

  lemma JoinRequiredNames()
    ensures Join(["company_location", "products_or_services", "company_overview", "target_clients"], " ") ==
      "company_location" + " " + ("products_or_services" + " " + ("company_overview" + " " + "target_clients"))
  {
    var names := ["company_location", "products_or_services", "company_overview", "target_clients"];
    assert names[1..][1..] == names[2..] && names[2..][1..] == names[3..];
  }

  /** The search loop only appends to the visited URLs, keeps every page
      already stored under a visited URL and leaves the current URL alone. */
  lemma {:induction false} FetchHitsGrows(s: State, hits: seq<Hit>)
    ensures var s' := FetchHits(s, hits);
      && s.visitedUrls <= s'.visitedUrls
      && s'.currentUrl == s.currentUrl
      && (forall u :: u in s.visitedUrls && u in s.content ==> u in s'.content && s'.content[u] == s.content[u])
    decreases |hits|
  {
    if hits != [] {
      FetchHitsGrows(FetchHit(s, hits[0]), hits[1..]);
    }
  }

  /** Each URL the search loop appends was neither visited before nor
      appended earlier in the same loop. */
  lemma {:induction false} FetchHitsNew(s: State, hits: seq<Hit>)
    ensures var s' := FetchHits(s, hits);
      forall i :: |s.visitedUrls| <= i < |s'.visitedUrls| ==> s'.visitedUrls[i] !in s'.visitedUrls[..i]
    decreases |hits|
  {
    if hits != [] {
      var s1 := FetchHit(s, hits[0]);
      FetchHitsNew(s1, hits[1..]);
      FetchHitsGrows(s1, hits[1..]);
      var s' := FetchHits(s, hits);
      if |s1.visitedUrls| > |s.visitedUrls| {
        assert s1.visitedUrls == s.visitedUrls + [hits[0].url];
        assert s'.visitedUrls[..|s.visitedUrls|] == s.visitedUrls;
      }
    }
  }

  /** Each URL the search loop appends comes from a result that fetched with
      non-blank text, and that text is what is stored for it. */
  lemma {:induction false} FetchHitsStored(s: State, hits: seq<Hit>)
    ensures var s' := FetchHits(s, hits);
      forall i :: |s.visitedUrls| <= i < |s'.visitedUrls| ==>
        exists h :: h in hits && h.url == s'.visitedUrls[i] && PageOk(h.fetch) &&
          s'.visitedUrls[i] in s'.content && s'.content[s'.visitedUrls[i]] == h.fetch.text
    decreases |hits|
  {
    if hits != [] {
      var h := hits[0];
      var s1 := FetchHit(s, h);
      FetchHitsStored(s1, hits[1..]);
      FetchHitsGrows(s1, hits[1..]);
      var s' := FetchHits(s, hits);
      assert forall x :: x in hits[1..] ==> x in hits;
      if |s1.visitedUrls| > |s.visitedUrls| {
        assert s1.visitedUrls == s.visitedUrls + [h.url];
        assert s'.visitedUrls[|s.visitedUrls|] == h.url;
        assert h.url in s1.visitedUrls && h.url in s1.content;
      }
    }
  }

  /** Every result that fetches with non-blank text ends up visited. */
  lemma {:induction false} FetchHitsCovers(s: State, hits: seq<Hit>)
    ensures forall h :: h in hits && PageOk(h.fetch) ==> h.url in FetchHits(s, hits).visitedUrls
    decreases |hits|
  {
    if hits != [] {
      var s1 := FetchHit(s, hits[0]);
      FetchHitsCovers(s1, hits[1..]);
      FetchHitsGrows(s1, hits[1..]);
      assert hits[0].url in s1.visitedUrls || !PageOk(hits[0].fetch);
      assert forall x :: x in hits ==> x == hits[0] || x in hits[1..];
    }
  }

  /** `search_google`: at the cap, or when the search fails, nothing changes
      (the failed search does not count as a try); otherwise the results are
      processed as the `FetchHits` lemmas state and the search counter rises by
      one, with the website counter, mode, record and error left alone. */
  lemma SearchGoogleEffect(s: State, search: string -> SearchOutcome)
    requires Inv(s)
    ensures s.searchTries >= MaxTries || search(SearchQuery(s)).SearchFailed? ==> SearchGoogleStep(s, search) == s
    ensures s.searchTries < MaxTries && search(SearchQuery(s)).SearchOk? ==>
      var s' := SearchGoogleStep(s, search);
      && s'.searchTries == s.searchTries + 1
      && s'.navigationTries == s.navigationTries && s'.mode == s.mode
      && s'.companyInfo == s.companyInfo && s'.error == s.error && s'.currentUrl == s.currentUrl
      && s'.(searchTries := s.searchTries) == FetchHits(s, search(SearchQuery(s)).hits)
  {
    if s.searchTries < MaxTries && search(SearchQuery(s)).SearchOk? {
      FetchHitsInv(s, search(SearchQuery(s)).hits);
      FetchHitsGrows(s, search(SearchQuery(s)).hits);
    }
  }

  /** Two results, the first new and fetching with text, the second failing:
      only the first is stored, and the search counts as one try. */
  lemma SearchOneOfTwo(s: State, search: string -> SearchOutcome, good: Hit, bad: Hit)
    requires Inv(s) && s.searchTries < MaxTries
    requires search(SearchQuery(s)) == SearchOk([good, bad])
    requires good.url !in s.visitedUrls && PageOk(good.fetch) && bad.fetch.FetchFailed?
    ensures var s' := SearchGoogleStep(s, search);
      && s'.visitedUrls == s.visitedUrls + [good.url]
      && s'.content == s.content[good.url := good.fetch.text]
      && s'.searchTries == s.searchTries + 1
  {
    var s1 := FetchHit(s, good);
    assert [good, bad][1..] == [bad];
    assert [bad][1..] == [];
    assert FetchHits(s, [good, bad]) == FetchHits(s1, [bad]);
    assert FetchHits(s1, [bad]) == FetchHit(s1, bad);
  }

  // ================================================================ extract_info

  /** Every field is one of the record's fields. */
  lemma AllFieldsListed(f: Field)
    ensures f in InfoFields
  {
  }

  /** The reply carries a truthy value for `f`. */
  predicate Wanted(reply: map<string, Json>, f: Field) {
    FieldName(f) in reply && Truthy(reply[FieldName(f)])
  }

  /** `f` is written but the reply's scores have no entry for it: the
      `KeyError` of `extract_info`. */
  predicate Unscored(reply: map<string, Json>, scores: Option<map<string, real>>, f: Field) {
    Wanted(reply, f) && scores.Some? && FieldName(f) !in scores.value
  }

  /** The index of the first unscored field, or `|fields|` when there is none. */
  function FirstUnscored(reply: map<string, Json>, scores: Option<map<string, real>>, fields: seq<Field>): (k: nat)
    ensures k <= |fields|
    ensures forall i :: 0 <= i < k ==> !Unscored(reply, scores, fields[i])
    ensures k < |fields| ==> Unscored(reply, scores, fields[k])
    decreases |fields|
  {
    if fields == [] then 0
    else if Unscored(reply, scores, fields[0]) then 0
    else 1 + FirstUnscored(reply, scores, fields[1..])
  }

  /** The fields the loop reaches: all of them, or up to and including the
      first unscored one. */
  function Reached(reply: map<string, Json>, scores: Option<map<string, real>>, fields: seq<Field>): seq<Field> {
    var k := FirstUnscored(reply, scores, fields);
    if k < |fields| then fields[..k + 1] else fields
  }

  /** The confidences a reply's scores give to the wanted fields among `fields`. */
  function ScoresOf(reply: map<string, Json>, scores: Option<map<string, real>>, fields: seq<Field>): map<Field, real> {
    map f | f in fields && Wanted(reply, f) && scores.Some? && FieldName(f) in scores.value :: scores.value[FieldName(f)]
  }

  lemma FirstUnscoredCons(reply: map<string, Json>, scores: Option<map<string, real>>, fields: seq<Field>)
    requires fields != [] && !Unscored(reply, scores, fields[0])
    ensures FirstUnscored(reply, scores, fields) == FirstUnscored(reply, scores, fields[1..]) + 1
    ensures fields[..FirstUnscored(reply, scores, fields)] == [fields[0]] + fields[1..][..FirstUnscored(reply, scores, fields[1..])]
  {
  }

  lemma ReachedCons(reply: map<string, Json>, scores: Option<map<string, real>>, fields: seq<Field>)
    requires fields != []
    ensures Unscored(reply, scores, fields[0]) ==> Reached(reply, scores, fields) == [fields[0]]
    ensures !Unscored(reply, scores, fields[0]) ==>
      Reached(reply, scores, fields) == [fields[0]] + Reached(reply, scores, fields[1..])
  {
    if !Unscored(reply, scores, fields[0]) {
      FirstUnscoredCons(reply, scores, fields);
      var k' := FirstUnscored(reply, scores, fields[1..]);
      if k' < |fields[1..]| {
        assert fields[..k' + 2] == [fields[0]] + fields[1..][..k' + 1];
      } else {
        assert fields == [fields[0]] + fields[1..];
      }
    }
  }

  lemma ScoresOfCons(reply: map<string, Json>, scores: Option<map<string, real>>, f: Field, fields: seq<Field>)
    ensures Wanted(reply, f) && scores.Some? && FieldName(f) in scores.value ==>
      ScoresOf(reply, scores, [f] + fields) == ScoresOf(reply, scores, fields)[f := scores.value[FieldName(f)]]
    ensures !(Wanted(reply, f) && scores.Some? && FieldName(f) in scores.value) ==>
      ScoresOf(reply, scores, [f] + fields) == ScoresOf(reply, scores, fields)
  {
    assert forall g :: g in [f] + fields <==> g == f || g in fields;
  }

  /** The field loop of `extract_info` stops at the first unscored field and
      names it, and names none when every written field had a score. */
  lemma {:induction false} MergeFieldsFailure(info: CompanyInfo, reply: map<string, Json>, scores: Option<map<string, real>>, fields: seq<Field>)
    ensures var k := FirstUnscored(reply, scores, fields);
      MergeFields(info, reply, scores, fields).1 == if k < |fields| then Some(fields[k]) else None
    decreases |fields|
  {
    if fields != [] {
      ReachedCons(reply, scores, fields);
      var name := FieldName(fields[0]);
      if name in reply && Truthy(reply[name]) {
        var written := info.Set(fields[0], reply[name]);
        match scores
        case None => MergeFieldsFailure(written, reply, scores, fields[1..]);
        case Some(m) =>
          if name in m {
            MergeFieldsFailure(written.(confidenceScores := written.confidenceScores[fields[0] := m[name]]), reply, scores, fields[1..]);
          }
      } else {
        MergeFieldsFailure(info, reply, scores, fields[1..]);
      }
    }
  }

  /** Every wanted field the loop reaches is overwritten with the reply's
      value, whatever its earlier value and confidence; the others keep theirs. */
  lemma {:induction false} MergeFieldsValues(info: CompanyInfo, reply: map<string, Json>, scores: Option<map<string, real>>, fields: seq<Field>)
    ensures forall f :: MergeFields(info, reply, scores, fields).0.Get(f) ==
                        if f in Reached(reply, scores, fields) && Wanted(reply, f) then reply[FieldName(f)] else info.Get(f)
    decreases |fields|
  {
    if fields != [] {
      ReachedCons(reply, scores, fields);
      var name := FieldName(fields[0]);
      if name in reply && Truthy(reply[name]) {
        var written := info.Set(fields[0], reply[name]);
        match scores
        case None => MergeFieldsValues(written, reply, scores, fields[1..]);
        case Some(m) =>
          if name in m {
            MergeFieldsValues(written.(confidenceScores := written.confidenceScores[fields[0] := m[name]]), reply, scores, fields[1..]);
          }
      } else {
        MergeFieldsValues(info, reply, scores, fields[1..]);
      }
    }
  }

  /** The scores of the wanted fields before the first unscored one are copied
      into the confidences; no other confidence changes. */
  lemma {:induction false} MergeFieldsScores(info: CompanyInfo, reply: map<string, Json>, scores: Option<map<string, real>>, fields: seq<Field>)
    ensures MergeFields(info, reply, scores, fields).0.confidenceScores ==
            info.confidenceScores + ScoresOf(reply, scores, fields[..FirstUnscored(reply, scores, fields)])
    decreases |fields|
  {
    if fields != [] {
      var f := fields[0];
      if Unscored(reply, scores, f) {
        assert fields[..FirstUnscored(reply, scores, fields)] == [];
        assert ScoresOf(reply, scores, []) == map[];
      } else {
        FirstUnscoredCons(reply, scores, fields);
        var scored := fields[1..][..FirstUnscored(reply, scores, fields[1..])];
        ScoresOfCons(reply, scores, f, scored);
        var next := MergeOne(info, reply, scores, f);
        assert MergeFields(info, reply, scores, fields) == MergeFields(next, reply, scores, fields[1..]);
        MergeFieldsScores(next, reply, scores, fields[1..]);
        MergeOneScores(info, reply, scores, f, ScoresOf(reply, scores, scored));
      }
    }
  }

  /** One iteration of the field loop, for a field that is not unscored. */
  function MergeOne(info: CompanyInfo, reply: map<string, Json>, scores: Option<map<string, real>>, f: Field): CompanyInfo
    requires !Unscored(reply, scores, f)
  {
    if !Wanted(reply, f) then info
    else if scores.None? then info.Set(f, reply[FieldName(f)])
    else info.Set(f, reply[FieldName(f)]).(confidenceScores := info.confidenceScores[f := scores.value[FieldName(f)]])
  }

  lemma MergeOneScores(info: CompanyInfo, reply: map<string, Json>, scores: Option<map<string, real>>, f: Field, rest: map<Field, real>)
    requires !Unscored(reply, scores, f)
    requires Wanted(reply, f) && scores.Some? && f in rest ==> rest[f] == scores.value[FieldName(f)]
    ensures MergeOne(info, reply, scores, f).confidenceScores + rest ==
      info.confidenceScores + (if Wanted(reply, f) && scores.Some? then rest[f := scores.value[FieldName(f)]] else rest)
  {
  }

  /** The field loop never touches `sources`. */
  lemma {:induction false} MergeFieldsKeepsSources(info: CompanyInfo, reply: map<string, Json>, scores: Option<map<string, real>>, fields: seq<Field>)
    ensures MergeFields(info, reply, scores, fields).0.sources == info.sources
    decreases |fields|
  {
    if fields != [] {
      var name := FieldName(fields[0]);
      if name in reply && Truthy(reply[name]) {
        var written := info.Set(fields[0], reply[name]);
        match scores
        case None => MergeFieldsKeepsSources(written, reply, scores, fields[1..]);
        case Some(m) =>
          if name in m {
            MergeFieldsKeepsSources(written.(confidenceScores := written.confidenceScores[fields[0] := m[name]]), reply, scores, fields[1..]);
          }
      } else {
        MergeFieldsKeepsSources(info, reply, scores, fields[1..]);
      }
    }
  }

  /** `extract_info` does nothing without content, and when the API key is
      missing or the model call raises it only records the error. */
  lemma ExtractInfoRefusals(s: State, apiKeyPresent: bool, llm: LlmOutcome)
    ensures s.content == map[] ==> ExtractInfoStep(s, apiKeyPresent, llm) == s
    ensures s.content != map[] && (!apiKeyPresent || llm.LlmRaised?) ==>
      ExtractInfoStep(s, apiKeyPresent, llm) == s.(error := Some(if !apiKeyPresent then MissingApiKey else LlmCallFailed))
  {
  }

  /** `extract_info` with a reply: the record is merged as the `MergeFields`
      lemmas state; when every written field had a score the error is left as it was
      and the content keys not yet among the sources are appended to them, so
      the sources stay distinct and become the old sources plus every page
      read; otherwise the error names the first unscored field and the sources
      are not extended. Nothing outside the record and the error changes. */
  lemma ExtractInfoMerges(s: State, llm: LlmOutcome)
    requires Inv(s) && s.content != map[] && llm.LlmReply?
    ensures var s' := ExtractInfoStep(s, true, llm);
      var k := FirstUnscored(llm.reply, llm.scores, InfoFields);
      && s'.(companyInfo := s.companyInfo, error := s.error) == s
      && (forall f :: s'.companyInfo.Get(f) ==
            if f in Reached(llm.reply, llm.scores, InfoFields) && Wanted(llm.reply, f) then llm.reply[FieldName(f)] else s.companyInfo.Get(f))
      && s'.companyInfo.confidenceScores == s.companyInfo.confidenceScores + ScoresOf(llm.reply, llm.scores, InfoFields[..k])
      && (k < |InfoFields| ==> s'.error == Some(MissingConfidence(InfoFields[k])) && s'.companyInfo.sources == s.companyInfo.sources)
      && (k == |InfoFields| ==>
            && s'.error == s.error
            && s.companyInfo.sources <= s'.companyInfo.sources
            && Distinct(s'.companyInfo.sources)
            && forall u :: u in s'.companyInfo.sources <==> u in s.companyInfo.sources || u in s.content)
  {
    MergeFieldsFailure(s.companyInfo, llm.reply, llm.scores, InfoFields);
    MergeFieldsValues(s.companyInfo, llm.reply, llm.scores, InfoFields);
    MergeFieldsScores(s.companyInfo, llm.reply, llm.scores, InfoFields);
    MergeFieldsKeepsSources(s.companyInfo, llm.reply, llm.scores, InfoFields);
    ExtractInfoInv(s, true, llm);
  }

  /** A new value replaces the old one even when its confidence is lower. */
  lemma ExtractInfoOverwrites(s: State, reply: map<string, Json>, m: map<string, real>, f: Field)
    requires Inv(s) && s.content != map[]
    requires forall g: Field :: Wanted(reply, g) ==> FieldName(g) in m
    requires Wanted(reply, f) && m[FieldName(f)] < s.companyInfo.Confidence(f)
    ensures var s' := ExtractInfoStep(s, true, LlmReply(reply, Some(m)));
      s'.companyInfo.Get(f) == reply[FieldName(f)] && s'.companyInfo.Confidence(f) == m[FieldName(f)] &&
      s'.companyInfo.Confidence(f) < s.companyInfo.Confidence(f)
  {
    var llm := LlmReply(reply, Some(m));
    ExtractInfoMerges(s, llm);
    AllFieldsListed(f);
    var k := FirstUnscored(reply, Some(m), InfoFields);
    assert k == |InfoFields|;
    assert InfoFields[..k] == InfoFields;
  }
}
