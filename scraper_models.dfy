/** The field validators of src/models/scraper_models.py. Each accepts its
    argument unchanged or raises `ValueError` naming what was wrong. */
module ScraperModels {
  import opened Wrappers

  datatype ValidationError =
    | ScoreOutOfRange(field: string)
    | RelevanceOutOfRange
    | InvalidTargetField(field: string)

  /** `0 <= x <= 1`, both ends included. */
  predicate InUnitRange(x: real) {
    0.0 <= x <= 1.0
  }

  /** The fields a link or a search can target: every main field but the name. */
  const TargetFields: set<string> := {"company_location", "products_or_services", "company_overview", "target_clients"}

  /** `CompanyExtraction.validate_confidence_scores`. The source reports the
      first offending entry in dictionary order; a Dafny map has no order, so
      the model reports some offending entry. */
  ghost function ValidateConfidenceScores(v: map<string, real>): (r: Result<map<string, real>, ValidationError>)
    ensures r.Success? <==> forall k :: k in v ==> InUnitRange(v[k])
    ensures r.Success? ==> r.value == v
    ensures r.Failure? ==> r.error.ScoreOutOfRange? && r.error.field in v && !InUnitRange(v[r.error.field])
  {
    if forall k :: k in v ==> InUnitRange(v[k]) then Success(v)
    else
      var k :| k in v && !InUnitRange(v[k]);
      Failure(ScoreOutOfRange(k))
  }

  /** `LinkInfo.validate_relevance_score` */
  function ValidateRelevanceScore(v: real): (r: Result<real, ValidationError>)
    ensures r.Success? <==> InUnitRange(v)
    ensures r.Success? ==> r.value == v
    ensures r.Failure? ==> r.error == RelevanceOutOfRange
  {
    if InUnitRange(v) then Success(v) else Failure(RelevanceOutOfRange)
  }

  /** `LinkInfo.validate_target_fields`: the list is accepted when every entry
      is a target field; otherwise the first entry that is not is named. */
  function ValidateTargetFields(v: seq<string>): (r: Result<seq<string>, ValidationError>)
    ensures r.Success? <==> forall i :: 0 <= i < |v| ==> v[i] in TargetFields
    ensures r.Success? ==> r.value == v
    ensures r.Failure? ==>
              exists i :: 0 <= i < |v| && r.error == InvalidTargetField(v[i]) && v[i] !in TargetFields &&
                          forall j :: 0 <= j < i ==> v[j] in TargetFields
    decreases |v|
  {
    if v == [] then Success(v)
    else if v[0] !in TargetFields then Failure(InvalidTargetField(v[0]))
    else
      match ValidateTargetFields(v[1..])
      case Success(_) => Success(v)
      case Failure(e) => Failure(e)
  }

  /** `GoogleSearchInput.validate_target_field` */
  function ValidateTargetField(v: string): (r: Result<string, ValidationError>)
    ensures r.Success? <==> v in TargetFields
    ensures r.Success? ==> r.value == v
    ensures r.Failure? ==> r.error == InvalidTargetField(v)
  {
    if v in TargetFields then Success(v) else Failure(InvalidTargetField(v))
  }

  /** The default, empty confidence mapping is accepted. */
  lemma EmptyScoresAccepted()
    ensures ValidateConfidenceScores(map[]) == Success(map[])
  {
  }

  /** A list of target fields is accepted exactly when each of its entries
      would be accepted on its own, and a one-entry list is judged as its
      entry is. */
  lemma TargetFieldsAgree(v: seq<string>)
    ensures ValidateTargetFields(v).Success? <==> forall i :: 0 <= i < |v| ==> ValidateTargetField(v[i]).Success?
    ensures |v| == 1 ==> (ValidateTargetFields(v).Failure? <==> ValidateTargetField(v[0]).Failure?)
    ensures |v| == 1 && ValidateTargetFields(v).Failure? ==> ValidateTargetFields(v).error == ValidateTargetField(v[0]).error
  {
  }

  /** The company name is not a target field, the empty list is accepted,
      and a list is rejected at its first invalid entry even when a later one
      is invalid too. */
  lemma TargetFieldExamples()
    ensures ValidateTargetField("company_name") == Failure(InvalidTargetField("company_name"))
    ensures ValidateTargetFields([]) == Success([])
    ensures ValidateTargetFields(["company_location", "company_name", "ceo"]) == Failure(InvalidTargetField("company_name"))
  {
    var v := ["company_location", "company_name", "ceo"];
    assert v[1..] == ["company_name", "ceo"];
  }
}
