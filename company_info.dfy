/** The extraction record of src/models/company_info.py: five optional text
    fields, the source URLs, a confidence per field name and a piece of
    evidence per field name, with its queries and `add_evidence`. */
module CompanyInfoModel {
  import opened Wrappers
  import opened Seqs
  import opened Averages

  datatype Evidence = Evidence(text: string, source: string)

  /** The five main fields, in the order the record checks them. */
  const MainFields: seq<string> :=
    ["company_name", "company_location", "products_or_services", "company_overview", "target_clients"]

  /** The confidence a field needs to count as known. */
  const CompleteConfidence: real := 0.75

  class CompanyInfo {
    var companyName: Option<string>
    var companyLocation: Option<string>
    var productsOrServices: Option<string>
    var companyOverview: Option<string>
    var targetClients: Option<string>
    var sources: seq<string>
    var confidenceScores: map<string, real>
    var evidence: map<string, Evidence>

    constructor (companyName: Option<string>, companyLocation: Option<string>, productsOrServices: Option<string>,
                 companyOverview: Option<string>, targetClients: Option<string>,
                 sources: seq<string>, confidenceScores: map<string, real>, evidence: map<string, Evidence>)
      ensures this.companyName == companyName && this.companyLocation == companyLocation
      ensures this.productsOrServices == productsOrServices && this.companyOverview == companyOverview
      ensures this.targetClients == targetClients
      ensures this.sources == sources && this.confidenceScores == confidenceScores
      ensures this.evidence == evidence
      ensures forall f :: f !in evidence ==> GetFieldEvidence(f) == None
    {
      this.companyName := companyName;
      this.companyLocation := companyLocation;
      this.productsOrServices := productsOrServices;
      this.companyOverview := companyOverview;
      this.targetClients := targetClients;
      this.sources := sources;
      this.confidenceScores := confidenceScores;
      this.evidence := evidence;
    }

    /** `getattr(self, name)` for the five main fields. */
    function Value(name: string): Option<string>
      reads this
    {
      if name == "company_name" then companyName
      else if name == "company_location" then companyLocation
      else if name == "products_or_services" then productsOrServices
      else if name == "company_overview" then companyOverview
      else if name == "target_clients" then targetClients
      else None
    }

    /** `confidence_scores.get(name, 0.0)` */
    function ConfidenceOf(name: string): real
      reads this
    {
      if name in confidenceScores then confidenceScores[name] else 0.0
    }

    /** A field that is unset or not confident enough. */
    predicate Lacking(name: string)
      reads this
    {
      Value(name).None? || ConfidenceOf(name) < CompleteConfidence
    }

    /** `calculate_average_confidence` */
    ghost function CalculateAverageConfidence(): (r: real)
      reads this
      ensures confidenceScores == map[] ==> r == 0.0
      ensures confidenceScores != map[] ==> r * (|confidenceScores| as real) == Sum(confidenceScores)
      ensures (forall k :: k in confidenceScores ==> 0.0 <= confidenceScores[k] <= 1.0) ==> 0.0 <= r <= 1.0
    {
      if forall k :: k in confidenceScores ==> 0.0 <= confidenceScores[k] <= 1.0 then
        AverageUnit(confidenceScores);
        Average(confidenceScores)
      else Average(confidenceScores)
    }

    /** `is_complete`: every main field is set (an empty string counts as set),
        and then every main field has confidence at least 0.75. */
    predicate IsComplete()
      reads this
    {
      && (forall i :: 0 <= i < |MainFields| ==> Value(MainFields[i]).Some?)
      && (forall i :: 0 <= i < |MainFields| ==> ConfidenceOf(MainFields[i]) >= CompleteConfidence)
    }

    /** `get_field_evidence` */
    function GetFieldEvidence(field: string): (r: Option<Evidence>)
      reads this
      ensures r.Some? <==> field in evidence
      ensures r.Some? ==> r.value == evidence[field]
    {
      if field in evidence then Some(evidence[field]) else None
    }

    /** `add_evidence`: records the evidence for `field`, replacing any earlier
        one and leaving the other fields' evidence alone. */
    method AddEvidence(field: string, text: string, source: string)
      modifies this`evidence
      ensures GetFieldEvidence(field) == Some(Evidence(text, source))
      ensures forall f :: f != field ==> GetFieldEvidence(f) == old(GetFieldEvidence(f))
      ensures evidence.Keys == old(evidence.Keys) + {field}
    {
      evidence := evidence[field := Evidence(text, source)];
    }

    /** The lacking fields among `fields`, in their order. */
    function Missing(fields: seq<string>): seq<string>
      reads this
      decreases |fields|
    {
      if fields == [] then []
      else (if Lacking(fields[0]) then [fields[0]] else []) + Missing(fields[1..])
    }

    /** `get_missing_fields` */
    method GetMissingFields() returns (missing: seq<string>)
      ensures missing == Missing(MainFields)
    {
      missing := [];
      var i := 0;
      while i < |MainFields|
        invariant 0 <= i <= |MainFields|
        invariant missing + Missing(MainFields[i..]) == Missing(MainFields)
      {
        var field := MainFields[i];
        assert MainFields[i..] == [field] + MainFields[i + 1..];
        if Value(field).None? || ConfidenceOf(field) < CompleteConfidence {
          missing := missing + [field];
        }
        i := i + 1;
      }
    }

    /** The missing fields are exactly the lacking ones, each listed once and
        no more of them than there are fields. */
    lemma {:induction false} MissingMembers(fields: seq<string>)
      ensures forall n :: n in Missing(fields) <==> n in fields && Lacking(n)
      ensures |Missing(fields)| <= |fields|
      ensures Distinct(fields) ==> Distinct(Missing(fields))
      decreases |fields|
    {
      if fields != [] {
        MissingMembers(fields[1..]);
        assert forall n :: n in fields <==> n == fields[0] || n in fields[1..];
        if Distinct(fields) {
          assert Distinct(fields[1..]);
          AppendDistinct(if Lacking(fields[0]) then [fields[0]] else [], Missing(fields[1..]));
        }
      }
    }

    /** `get_missing_fields()` is empty exactly when `is_complete()`. */
    lemma MissingIffIncomplete()
      ensures Missing(MainFields) == [] <==> IsComplete()
    {
      MissingMembers(MainFields);
      if Missing(MainFields) == [] {
        forall i | 0 <= i < |MainFields|
          ensures !Lacking(MainFields[i])
        {
          assert MainFields[i] in MainFields;
        }
      } else {
        var n := Missing(MainFields)[0];
        assert n in Missing(MainFields);
        var i :| 0 <= i < |MainFields| && MainFields[i] == n;
        assert !(Value(MainFields[i]).Some? && ConfidenceOf(MainFields[i]) >= CompleteConfidence);
      }
    }

    /** The missing list has no duplicates, at most five entries, and lists
        every field without a confidence score, company_name included. */
    lemma MissingShape()
      ensures Distinct(Missing(MainFields)) && |Missing(MainFields)| <= 5
      ensures forall n :: n in MainFields && n !in confidenceScores ==> n in Missing(MainFields)
    {
      MissingMembers(MainFields);
    }

    /** A record without confidence scores is never complete, whatever its
        field values. */
    lemma NoScoresIncomplete()
      requires confidenceScores == map[]
      ensures !IsComplete()
    {
      assert ConfidenceOf(MainFields[0]) == 0.0;
    }

    /** A record with an unset main field is incomplete. */
    lemma UnsetFieldIncomplete(name: string)
      requires name in MainFields && Value(name).None?
      ensures !IsComplete()
      ensures name in Missing(MainFields)
    {
      MissingMembers(MainFields);
      var i :| 0 <= i < |MainFields| && MainFields[i] == name;
    }
  }
}
