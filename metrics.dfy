/** The counters of src/utils/metrics.py: per-API call statistics and the
    per-session record of visited URLs and field confidences, with their
    dictionary views. The clock is a parameter. */
module Metrics {
  import opened Wrappers
  import opened Seqs
  import opened Averages

  datatype MetricsError =
    | NegativeDuration
    | EmptyUrl
    | ConfidenceOutOfRange
    | EmptyCompanyName

  /** `APIMetricsDict` */
  datatype APIMetricsDict = APIMetricsDict(
    totalCalls: int,
    successfulCalls: int,
    failedCalls: int,
    totalTime: real,
    successRate: real,
    averageDuration: real)

  /** The quotient `x / n`, or 0.0 when there were no calls. */
  function Ratio(x: real, n: nat): (r: real)
    ensures n == 0 ==> r == 0.0
    ensures n > 0 ==> r * (n as real) == x
    ensures n > 0 && 0.0 <= x ==> 0.0 <= r
    ensures n > 0 && 0.0 <= x <= n as real ==> r <= 1.0
  {
    if n > 0 then x / (n as real) else 0.0
  }

  class APIMetrics {
    var totalCalls: nat
    var successfulCalls: nat
    var failedCalls: nat
    var totalTime: real

    /** Every call is either a success or a failure, and time adds up from 0. */
    ghost predicate Valid()
      reads this
    {
      totalCalls == successfulCalls + failedCalls && totalTime >= 0.0
    }

    constructor ()
      ensures Valid()
      ensures totalCalls == 0 && successfulCalls == 0 && failedCalls == 0 && totalTime == 0.0
    {
      totalCalls, successfulCalls, failedCalls, totalTime := 0, 0, 0, 0.0;
    }

    /** `add_call`: a negative duration raises before anything is counted;
        otherwise the call is counted once, as a success or as a failure, and
        its duration is added. */
    method AddCall(success: bool, duration: real) returns (r: Outcome<MetricsError>)
      requires Valid()
      modifies this
      ensures Valid()
      ensures duration < 0.0 ==> r == Fail(NegativeDuration) && unchanged(this)
      ensures duration >= 0.0 ==>
        && r == Pass
        && totalCalls == old(totalCalls) + 1
        && successfulCalls == old(successfulCalls) + (if success then 1 else 0)
        && failedCalls == old(failedCalls) + (if success then 0 else 1)
        && totalTime == old(totalTime) + duration
    {
      if duration < 0.0 {
        return Fail(NegativeDuration);
      }
      totalCalls := totalCalls + 1;
      if success {
        successfulCalls := successfulCalls + 1;
      } else {
        failedCalls := failedCalls + 1;
      }
      totalTime := totalTime + duration;
      r := Pass;
    }

    /** `APIMetrics.to_dict`: the counters, the success rate and the mean
        duration, both 0.0 when nothing was called. */
    function ToDict(): (d: APIMetricsDict)
      reads this
      ensures d.totalCalls == totalCalls && d.successfulCalls == successfulCalls
      ensures d.failedCalls == failedCalls && d.totalTime == totalTime
      ensures totalCalls == 0 ==> d.successRate == 0.0 && d.averageDuration == 0.0
      ensures totalCalls > 0 ==>
        d.successRate * (totalCalls as real) == successfulCalls as real &&
        d.averageDuration * (totalCalls as real) == totalTime
      ensures Valid() ==> 0.0 <= d.successRate <= 1.0 && 0.0 <= d.averageDuration
    {
      APIMetricsDict(totalCalls, successfulCalls, failedCalls, totalTime,
                     Ratio(successfulCalls as real, totalCalls), Ratio(totalTime, totalCalls))
    }
  }

  /** `MetricsDict`. The two timestamps are kept as clock readings; their ISO
      rendering is not modelled. */
  datatype MetricsDict = MetricsDict(
    companyName: string,
    startTime: real,
    endTime: Option<real>,
    duration: real,
    urlsVisited: seq<string>,
    totalUrls: int,
    apiMetrics: map<string, APIMetricsDict>,
    fieldConfidence: map<string, real>,
    averageConfidence: real)

  /** The visited-URL list after `add_url(url)` for a non-empty `url`. */
  function Visit(urls: seq<string>, url: string): seq<string> {
    if url in urls then urls else urls + [url]
  }

  /** The confidence table after `update_confidence(field, c)` for `c` in range. */
  function RaiseConfidence(fc: map<string, real>, field: string, c: real): map<string, real> {
    var old_ := if field in fc then fc[field] else 0.0;
    fc[field := if c >= old_ then c else old_]
  }

  /** The end time after `complete()` at clock reading `now`. */
  function CompleteAt(endTime: Option<real>, now: real): Option<real> {
    if endTime.None? then Some(now) else endTime
  }

  /** `add_url` keeps the list duplicate-free and in first-seen order: the new
      URL is appended once, and a URL already present changes nothing. */
  lemma VisitKeepsFirstSeen(urls: seq<string>, url: string)
    requires Distinct(urls)
    ensures Distinct(Visit(urls, url))
    ensures urls <= Visit(urls, url)
    ensures forall u :: u in Visit(urls, url) <==> u in urls || u == url
    ensures Visit(Visit(urls, url), url) == Visit(urls, url)
  {
    if url !in urls {
      AppendDistinct(urls, [url]);
    }
  }

  /** `update_confidence` never lowers a stored confidence, keeps every entry
      in [0, 1], and the order of two updates does not matter. */
  lemma RaiseConfidenceMonotone(fc: map<string, real>, field: string, c: real)
    requires 0.0 <= c <= 1.0
    ensures forall k :: k in fc ==> k in RaiseConfidence(fc, field, c) && RaiseConfidence(fc, field, c)[k] >= fc[k]
    ensures RaiseConfidence(fc, field, c)[field] >= c
    ensures (forall k :: k in fc ==> 0.0 <= fc[k] <= 1.0) ==>
      forall k :: k in RaiseConfidence(fc, field, c) ==> 0.0 <= RaiseConfidence(fc, field, c)[k] <= 1.0
  {
  }

  lemma RaiseConfidenceCommutes(fc: map<string, real>, f1: string, c1: real, f2: string, c2: real)
    ensures RaiseConfidence(RaiseConfidence(fc, f1, c1), f2, c2) == RaiseConfidence(RaiseConfidence(fc, f2, c2), f1, c1)
  {
  }

  /** `complete` is idempotent: once an end time is set a later call keeps it. */
  lemma CompleteIdempotent(endTime: Option<real>, t1: real, t2: real)
    ensures CompleteAt(CompleteAt(endTime, t1), t2) == CompleteAt(endTime, t1)
    ensures CompleteAt(endTime, t1).Some?
  {
  }

  const ApiNames: set<string> := {"anthropic", "google_search", "web_scrape"}

  class ScrapeMetrics {
    var companyName: string
    var startTime: real
    var endTime: Option<real>
    var urlsVisited: seq<string>
    var apiMetrics: map<string, APIMetrics>
    var fieldConfidence: map<string, real>

    /** The visited URLs are non-empty and distinct, and every confidence is
        in [0, 1]. */
    ghost predicate Valid()
      reads this
    {
      && Distinct(urlsVisited)
      && (forall i :: 0 <= i < |urlsVisited| ==> urlsVisited[i] != "")
      && (forall k :: k in fieldConfidence ==> 0.0 <= fieldConfidence[k] <= 1.0)
    }

    /** `ScrapeMetrics(company_name=...)` started at clock reading `now`. */
    constructor (companyName: string, now: real)
      ensures Valid()
      ensures this.companyName == companyName && startTime == now && endTime == None
      ensures urlsVisited == [] && fieldConfidence == map[]
      ensures apiMetrics.Keys == ApiNames
      ensures forall k :: k in apiMetrics ==> fresh(apiMetrics[k]) && apiMetrics[k].Valid() && apiMetrics[k].totalCalls == 0
    {
      this.companyName := companyName;
      startTime := now;
      endTime := None;
      urlsVisited := [];
      var anthropic := new APIMetrics();
      var google := new APIMetrics();
      var scrape := new APIMetrics();
      apiMetrics := map["anthropic" := anthropic, "google_search" := google, "web_scrape" := scrape];
      fieldConfidence := map[];
    }

    /** `add_url` */
    method AddUrl(url: string) returns (r: Outcome<MetricsError>)
      requires Valid()
      modifies this`urlsVisited
      ensures Valid()
      ensures url == "" ==> r == Fail(EmptyUrl) && urlsVisited == old(urlsVisited)
      ensures url != "" ==> r == Pass && urlsVisited == Visit(old(urlsVisited), url)
    {
      if url == "" {
        return Fail(EmptyUrl);
      }
      VisitKeepsFirstSeen(urlsVisited, url);
      if url !in urlsVisited {
        urlsVisited := urlsVisited + [url];
      }
      r := Pass;
    }

    /** `update_confidence` */
    method UpdateConfidence(field: string, confidence: real) returns (r: Outcome<MetricsError>)
      requires Valid()
      modifies this`fieldConfidence
      ensures Valid()
      ensures !(0.0 <= confidence <= 1.0) ==> r == Fail(ConfidenceOutOfRange) && fieldConfidence == old(fieldConfidence)
      ensures 0.0 <= confidence <= 1.0 ==> r == Pass && fieldConfidence == RaiseConfidence(old(fieldConfidence), field, confidence)
    {
      if !(0.0 <= confidence <= 1.0) {
        return Fail(ConfidenceOutOfRange);
      }
      RaiseConfidenceMonotone(fieldConfidence, field, confidence);
      var current := if field in fieldConfidence then fieldConfidence[field] else 0.0;
      fieldConfidence := fieldConfidence[field := if confidence >= current then confidence else current];
      r := Pass;
    }

    /** `complete` at clock reading `now` */
    method Complete(now: real)
      modifies this`endTime
      ensures endTime == CompleteAt(old(endTime), now)
    {
      if endTime.None? {
        endTime := Some(now);
      }
    }

    /** `ScrapeMetrics.to_dict`. `if self.end_time` tests the float, so an end
        time of exactly 0.0 is reported as unset. */
    ghost function ToDict(): (d: MetricsDict)
      reads this, apiMetrics.Values
      ensures d.companyName == companyName && d.startTime == startTime
      ensures d.urlsVisited == urlsVisited && d.totalUrls == |urlsVisited|
      ensures endTime.None? || endTime == Some(0.0) ==> d.endTime == None && d.duration == 0.0
      ensures endTime.Some? && endTime.value != 0.0 ==> d.endTime == endTime && d.duration == endTime.value - startTime
      ensures d.apiMetrics.Keys == apiMetrics.Keys
      ensures forall k :: k in apiMetrics ==> d.apiMetrics[k] == apiMetrics[k].ToDict()
      ensures d.fieldConfidence == fieldConfidence
      ensures fieldConfidence == map[] ==> d.averageConfidence == 0.0
      ensures fieldConfidence != map[] ==> d.averageConfidence * (|fieldConfidence| as real) == Sum(fieldConfidence)
      ensures Valid() ==> 0.0 <= d.averageConfidence <= 1.0
    {
      var set_ := endTime.Some? && endTime.value != 0.0;
      var average := if Valid() then AverageUnit(fieldConfidence); Average(fieldConfidence) else Average(fieldConfidence);
      MetricsDict(
        companyName,
        startTime,
        if set_ then endTime else None,
        if set_ then endTime.value - startTime else 0.0,
        urlsVisited,
        |urlsVisited|,
        map k | k in apiMetrics :: apiMetrics[k].ToDict(),
        fieldConfidence,
        average)
    }
  }

  /** `MetricsManager.create_session` at clock reading `now`: an empty name
      is rejected, otherwise a fresh session for that name. */
  method CreateSession(companyName: string, now: real) returns (r: Result<ScrapeMetrics, MetricsError>)
    ensures companyName == "" <==> r.Failure?
    ensures r.Failure? ==> r.error == EmptyCompanyName
    ensures r.Success? ==>
      && fresh(r.value) && r.value.Valid()
      && r.value.companyName == companyName && r.value.startTime == now && r.value.endTime == None
      && r.value.urlsVisited == [] && r.value.fieldConfidence == map[]
  {
    if companyName == "" {
      return Failure(EmptyCompanyName);
    }
    var session := new ScrapeMetrics(companyName, now);
    r := Success(session);
  }
}
