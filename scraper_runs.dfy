/** Whole runs of the compiled graph of src/scraper/langgraph_scraper.py:
    what the routers decide, when a run ends, when it cannot end, and the
    outcome of the two simplest sessions. */
module ScraperRuns {
  import opened Wrappers
  import opened Text
  import opened Seqs
  import opened LangGraphScraper
  import opened ScraperProperties

  // ================================================================ routers

  /** `extract_router` never looks at `error`: a failed extraction does not
      stop the graph. */
  lemma ExtractRouterIgnoresError(s: State, e: Option<ExtractError>)
    ensures ExtractRouter(s.(error := e)) == ExtractRouter(s)
  {
  }

  /** The unwired `router` agrees with `extract_router` except that, once
      both sources of pages are exhausted without all information, it would
      send a record with content back to extraction. */
  lemma RouterFallback(s: State)
    ensures ExtractRouter(s) != End ==> Router(s) == ExtractRouter(s)
    ensures ExtractRouter(s) == End ==>
      (Router(s) == ExtractNode <==> !HasAllInfo(s.companyInfo) && s.content != map[])
    ensures Router(s) != ExtractNode ==> Router(s) == ExtractRouter(s)
  {
  }

  /** After either fetching node the graph extracts exactly when some page
      has been stored, and ends otherwise. */
  lemma FetchRoutersAgree(s: State)
    ensures ScrapeRouter(s) == SearchRouter(s)
    ensures ScrapeRouter(s) == ExtractNode <==> s.content != map[]
    ensures ScrapeRouter(s) == End <==> s.content == map[]
  {
  }

  // ================================================================ termination

  /** Tries left under the cap. */
  function Remaining(n: nat): nat {
    if n < MaxTries then MaxTries - n else 0
  }

  /** Fetching rounds a record can still go through: the website pages left
      (plus the visit that switches to google) and the searches left. */
  function Rounds(s: State): nat {
    (if s.mode == Website then Remaining(s.navigationTries) + 1 else 0) + Remaining(s.searchTries)
  }

  /** Node executions left from `node`: every round is a fetch and an
      extraction. */
  function Budget(node: Node, s: State): nat {
    if node == ExtractNode then 2 * Rounds(s) + 1 else 2 * Rounds(s)
  }

  /** The conditions under which the graph enters `node`. */
  predicate Entry(node: Node, s: State) {
    && (node == ScrapeNode ==> s.mode == Website)
    && (node == SearchNode ==> s.mode == Google && s.searchTries < MaxTries)
  }

  /** The search provider always answers (possibly with no results). */
  ghost predicate SearchAlwaysAnswers(env: Env) {
    forall t: nat, q: string :: env.search(t, q).SearchOk?
  }

  /** Each fetching node uses up one round. */
  lemma FetchStepShrinks(s: State, node: Node, env: Env, t: nat)
    requires Inv(s) && (node == ScrapeNode || node == SearchNode) && Entry(node, s)
    requires SearchAlwaysAnswers(env)
    ensures Rounds(Step(s, node, env, t)) < Rounds(s)
  {
    if node == SearchNode {
      var search := SearchAt(env, t);
      assert search(SearchQuery(s)) == env.search(t, SearchQuery(s));
      SearchGoogleEffect(s, search);
    }
  }

  /** Extraction uses up no round, and `extract_router` only enters a node
      under its entry conditions. */
  lemma ExtractStepKeepsRounds(s: State, env: Env, t: nat)
    ensures Rounds(Step(s, ExtractNode, env, t)) == Rounds(s)
    ensures ExtractRouter(Step(s, ExtractNode, env, t)) != End ==>
      Entry(ExtractRouter(Step(s, ExtractNode, env, t)), Step(s, ExtractNode, env, t))
  {
  }

  /** When every search answers, a run with at least `Budget` node executions
      to spare finishes. */
  lemma {:induction false} RunTerminates(s: State, node: Node, env: Env, t: nat, fuel: nat)
    requires Inv(s) && Entry(node, s) && SearchAlwaysAnswers(env)
    requires fuel >= Budget(node, s)
    ensures Run(s, node, env, t, fuel).Finished?
    decreases fuel
  {
    if node != End {
      var next := Step(s, node, env, t);
      StepInv(s, node, env, t);
      if node == ExtractNode {
        ExtractStepKeepsRounds(s, env, t);
      } else {
        FetchStepShrinks(s, node, env, t);
      }
      RunTerminates(next, Route(node, next), env, t + 1, fuel - 1);
    }
  }

  /** Twenty-two node executions suffice for `scrape` to return or raise
      whenever every search answers. */
  lemma ScrapeTerminates(companyName: string, websiteUrl: string, env: Env, fuel: nat)
    requires SearchAlwaysAnswers(env) && fuel >= 22
    ensures ScrapeSpec(companyName, websiteUrl, env, fuel) != RecursionLimit
  {
    InitialStateInv(companyName, websiteUrl);
    assert Budget(ScrapeNode, InitialState(companyName, websiteUrl)) == 22;
    RunTerminates(InitialState(companyName, websiteUrl), ScrapeNode, env, 0, fuel);
  }

  // ================================================================ divergence

  /** The search provider always fails. */
  ghost predicate SearchAlwaysFails(env: Env) {
    forall t: nat, q: string :: env.search(t, q).SearchFailed?
  }

  /** In google mode, with content but not all information, a failing search
      changes nothing (the counter does not move) and an extraction without
      API key only sets the error, which `extract_router` ignores: the graph
      alternates between the two nodes for ever. */
  lemma {:induction false} SearchOutageLoops(s: State, node: Node, env: Env, t: nat, fuel: nat)
    requires SearchAlwaysFails(env) && !env.apiKeyPresent
    requires node == SearchNode || node == ExtractNode
    requires s.content != map[] && !HasAllInfo(s.companyInfo)
    requires s.mode == Google && s.searchTries < MaxTries
    ensures Run(s, node, env, t, fuel).OutOfFuel?
    decreases fuel
  {
    if fuel > 0 {
      var next := Step(s, node, env, t);
      if node == SearchNode {
        assert env.search(t, SearchQuery(s)).SearchFailed?;
        assert next == s;
      } else {
        assert next == s.(error := Some(MissingApiKey));
      }
      SearchOutageLoops(next, Route(node, next), env, t + 1, fuel - 1);
    }
  }

  /** A concrete session that never ends: the seed page is read, the next
      one fails (or the seed page's links already make `urljoin` raise),
      there is no API key and no search succeeds. However deep the recursion
      limit, `scrape` hits it. */
  lemma ScrapeLoopsDuringSearchOutage(companyName: string, websiteUrl: string, env: Env, fuel: nat)
    requires SearchAlwaysFails(env) && !env.apiKeyPresent
    requires PageOk(env.fetch(0)) && !PageOk(env.fetch(2))
    ensures ScrapeSpec(companyName, websiteUrl, env, fuel) == RecursionLimit
  {
    var s0 := InitialState(companyName, websiteUrl);
    assert CompanyLocation in RequiredFields && !Truthy(s0.companyInfo.Get(CompanyLocation));
    var s1 := Step(s0, ScrapeNode, env, 0);
    ScrapeWebsiteStores(s0, env.fetch(0), env.urlJoin);
    assert s1.content != map[] && s1.companyInfo == s0.companyInfo;
    if !JoinsAll(env.fetch(0).anchors, websiteUrl, env.urlJoin) {
      // the seed page's links made `urljoin` raise: google mode at once
      if fuel > 0 {
        assert Run(s0, ScrapeNode, env, 0, fuel) == Run(s1, ExtractNode, env, 1, fuel - 1);
        SearchOutageLoops(s1, ExtractNode, env, 1, fuel - 1);
      }
    } else if fuel > 0 {
      assert Run(s0, ScrapeNode, env, 0, fuel) == Run(s1, ExtractNode, env, 1, fuel - 1);
      var s2 := Step(s1, ExtractNode, env, 1);
      assert s2 == s1.(error := Some(MissingApiKey));
      assert ExtractRouter(s2) == ScrapeNode;
      if fuel > 1 {
        assert Run(s1, ExtractNode, env, 1, fuel - 1) == Run(s2, ScrapeNode, env, 2, fuel - 2);
        var s3 := Step(s2, ScrapeNode, env, 2);
        ScrapeWebsiteDegrades(s2, env.fetch(2), env.urlJoin);
        assert s3 == s2.(mode := Google);
        if fuel > 2 {
          assert Run(s2, ScrapeNode, env, 2, fuel - 2) == Run(s3, ExtractNode, env, 3, fuel - 3);
          SearchOutageLoops(s3, ExtractNode, env, 3, fuel - 3);
        }
      }
    }
  }

  // ================================================================ scenarios

  /** When the seed page cannot be read, the run ends right after it in
      google mode without searching, and `scrape` returns the initial record. */
  lemma SeedFailureEndsRun(companyName: string, websiteUrl: string, env: Env, fuel: nat)
    requires fuel >= 1 && !PageOk(env.fetch(0))
    ensures Run(InitialState(companyName, websiteUrl), ScrapeNode, env, 0, fuel) ==
      Finished(InitialState(companyName, websiteUrl).(mode := Google))
    ensures ScrapeSpec(companyName, websiteUrl, env, fuel) == Returned(InitialInfo(companyName))
  {
    var s0 := InitialState(companyName, websiteUrl);
    ScrapeWebsiteDegrades(s0, env.fetch(0), env.urlJoin);
    assert Run(s0, ScrapeNode, env, 0, fuel) == Run(s0.(mode := Google), End, env, 1, fuel - 1);
  }

  /** A reply that gives every field a truthy value and a score of at least
      0.7 completes the record: all values are taken from it, the error stays
      as it was and the pages read are appended to the sources. */
  lemma CompleteReply(s: State, reply: map<string, Json>, m: map<string, real>)
    requires s.content != map[]
    requires forall f: Field ::
      FieldName(f) in reply && Truthy(reply[FieldName(f)]) && FieldName(f) in m && m[FieldName(f)] >= StopConfidence
    ensures var s' := ExtractInfoStep(s, true, LlmReply(reply, Some(m)));
      && HasAllInfo(s'.companyInfo)
      && (forall f: Field :: s'.companyInfo.Get(f) == reply[FieldName(f)])
      && s'.error == s.error
      && s'.companyInfo.sources == s.companyInfo.sources + NotIn(s.pageOrder, s.companyInfo.sources)
  {
    var info := s.companyInfo;
    var merged := MergeFields(info, reply, Some(m), InfoFields);
    MergeAllScored(info, reply, m);
    MergeFieldsKeepsSources(info, reply, Some(m), InfoFields);
    var full := merged.0.(sources := info.sources + NotIn(s.pageOrder, info.sources));
    assert ExtractInfoStep(s, true, LlmReply(reply, Some(m))) == s.(companyInfo := full);
    assert forall f: Field :: full.Get(f) == merged.0.Get(f) && full.Confidence(f) == merged.0.Confidence(f);
    CompleteFieldsHaveAllInfo(full);
  }

  /** The field loop over a reply that scores every field it gives. */
  lemma MergeAllScored(info: CompanyInfo, reply: map<string, Json>, m: map<string, real>)
    requires forall f: Field :: FieldName(f) in reply && Truthy(reply[FieldName(f)]) && FieldName(f) in m
    ensures var merged := MergeFields(info, reply, Some(m), InfoFields);
      && merged.1 == None
      && (forall f: Field :: merged.0.Get(f) == reply[FieldName(f)] && merged.0.Confidence(f) == m[FieldName(f)])
  {
    var merged := MergeFields(info, reply, Some(m), InfoFields);
    NoneUnscored(reply, Some(m), InfoFields);
    MergeFieldsFailure(info, reply, Some(m), InfoFields);
    MergeFieldsValues(info, reply, Some(m), InfoFields);
    assert Reached(reply, Some(m), InfoFields) == InfoFields;
    MergeFieldsScores(info, reply, Some(m), InfoFields);
    assert InfoFields[..|InfoFields|] == InfoFields;
    forall f: Field
      ensures f in ScoresOf(reply, Some(m), InfoFields) && ScoresOf(reply, Some(m), InfoFields)[f] == m[FieldName(f)]
    {
      AllFieldsListed(f);
    }
  }

  lemma CompleteFieldsHaveAllInfo(info: CompanyInfo)
    requires forall f: Field :: Truthy(info.Get(f)) && info.Confidence(f) >= StopConfidence
    ensures HasAllInfo(info)
  {
  }

  /** Without an unscored field the loop runs over all the fields. */
  lemma NoneUnscored(reply: map<string, Json>, scores: Option<map<string, real>>, fields: seq<Field>)
    requires forall f: Field :: !Unscored(reply, scores, f)
    ensures FirstUnscored(reply, scores, fields) == |fields|
  {
  }

  /** When the seed page reads and one model reply gives every field with a
      score of at least 0.7, `scrape` returns after one page and one
      extraction, with that reply's values and the seed URL as the only source.
      The website counter is 1, or 0 when the seed page's links make
      `urljoin` raise. */
  lemma OnePageSuffices(companyName: string, websiteUrl: string, env: Env, fuel: nat,
                        reply: map<string, Json>, m: map<string, real>)
    requires fuel >= 2 && PageOk(env.fetch(0)) && env.apiKeyPresent
    requires env.llm(1) == LlmReply(reply, Some(m))
    requires forall f: Field ::
      FieldName(f) in reply && Truthy(reply[FieldName(f)]) && FieldName(f) in m && m[FieldName(f)] >= StopConfidence
    ensures var r := Run(InitialState(companyName, websiteUrl), ScrapeNode, env, 0, fuel);
      && r.Finished?
      && r.final.navigationTries == (if JoinsAll(env.fetch(0).anchors, websiteUrl, env.urlJoin) then 1 else 0)
      && r.final.searchTries == 0
      && r.final.companyInfo.sources == [websiteUrl]
      && (forall f: Field :: r.final.companyInfo.Get(f) == reply[FieldName(f)])
      && ScrapeSpec(companyName, websiteUrl, env, fuel) == Returned(r.final.companyInfo)
  {
    var s0 := InitialState(companyName, websiteUrl);
    InitialStateInv(companyName, websiteUrl);
    var s1 := Step(s0, ScrapeNode, env, 0);
    ScrapeWebsiteStores(s0, env.fetch(0), env.urlJoin);
    ScrapeWebsiteInv(s0, env.fetch(0), env.urlJoin);
    assert s1.pageOrder == [websiteUrl] && s1.companyInfo.sources == [];
    assert Run(s0, ScrapeNode, env, 0, fuel) == Run(s1, ExtractNode, env, 1, fuel - 1);
    var s2 := Step(s1, ExtractNode, env, 1);
    CompleteReply(s1, reply, m);
    assert NotIn(s1.pageOrder, []) == [websiteUrl];
    assert Run(s1, ExtractNode, env, 1, fuel - 1) == Run(s2, End, env, 2, fuel - 2);
  }
}
