/**
 * The official question bank: a fixed list of questions from published
 * surveys, narrowed by domain and then by survey id when those are given.
 */
module QuestionBank {
  import opened Wrappers
  import opened Seqs
  import opened SurveyModel

  datatype OfficialQuestion = OfficialQuestion(
    question: Question,
    surveyId: Option<string>,
    reference: Option<string>,
    officialSourceUrl: Option<string>)

  /** The optional filter; a missing filter is one with neither field. */
  datatype BankFilter = BankFilter(domain: Option<string>, surveyId: Option<string>)

  /** The element matches the filter in every field the filter sets (a set field is a non-empty one). */
  predicate MatchesFilter(q: OfficialQuestion, f: BankFilter) {
    && (Truthy(f.domain) ==> q.question.domain == f.domain)
    && (Truthy(f.surveyId) ==> q.surveyId == f.surveyId)
  }

  function DomainTest(f: BankFilter): OfficialQuestion -> bool {
    (q: OfficialQuestion) => q.question.domain == f.domain
  }

  function SurveyTest(f: BankFilter): OfficialQuestion -> bool {
    (q: OfficialQuestion) => q.surveyId == f.surveyId
  }

  /** The two `filter` calls, one after the other, each only when its field is set. */
  function FilterBank(bank: seq<OfficialQuestion>, f: BankFilter): (r: seq<OfficialQuestion>)
    ensures |r| <= |bank|
    ensures forall i :: 0 <= i < |r| ==> r[i] in bank && MatchesFilter(r[i], f)
  {
    var byDomain := if Truthy(f.domain) then Filter(bank, DomainTest(f)) else bank;
    if Truthy(f.surveyId) then Filter(byDomain, SurveyTest(f)) else byDomain
  }

  /** Both filters together are one filter by the combined test. */
  lemma FilterBankIsFilter(bank: seq<OfficialQuestion>, f: BankFilter)
    ensures FilterBank(bank, f) == Filter(bank, (q: OfficialQuestion) => MatchesFilter(q, f))
  {
    var pd := DomainTest(f);
    var ps := SurveyTest(f);
    var m := (q: OfficialQuestion) => MatchesFilter(q, f);
    if Truthy(f.domain) && Truthy(f.surveyId) {
      FilterFilter(bank, pd, ps, m);
    } else if Truthy(f.domain) {
      FilterSame(bank, pd, m);
    } else if Truthy(f.surveyId) {
      FilterSame(bank, ps, m);
    } else {
      FilterKeepsAll(bank, m);
    }
  }

  /** The result keeps bank order, and keeps exactly the matching elements. */
  lemma FilterBankSpec(bank: seq<OfficialQuestion>, f: BankFilter)
    ensures IsSubseq(FilterBank(bank, f), bank)
    ensures forall i :: 0 <= i < |bank| ==> (bank[i] in FilterBank(bank, f) <==> MatchesFilter(bank[i], f))
  {
    FilterBankIsFilter(bank, f);
    FilterIsSubseq(bank, (q: OfficialQuestion) => MatchesFilter(q, f));
  }

  /** With neither field set the whole bank comes back. */
  lemma NoFilterKeepsBank(bank: seq<OfficialQuestion>)
    ensures FilterBank(bank, BankFilter(None, None)) == bank
  {
  }
}
