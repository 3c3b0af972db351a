/**
 * Rule-based coding of a free-text answer into a sector: the first rule, in
 * table order, one of whose keywords occurs in the text (ignoring case) gives
 * the code; text matching no rule is coded as other; blank text is not coded.
 */
module AutoCoding {
  import opened Wrappers
  import opened Strings

  datatype Rule = Rule(keywords: seq<string>, code: string, sector: string)

  datatype CodingSystem = RuleBased | Ai

  /** A coded answer; the confidence is in per cent. */
  datatype CodedResponse = CodedResponse(code: string, sector: string, confidencePct: nat, system: CodingSystem)

  const RuleConfidencePct := 60
  const FallbackConfidencePct := 20

  /** The rule table; each pattern is an alternation of lower-case keywords. */
  const Rules: seq<Rule> := [
    Rule(["agri", "farm", "crop"], "SEC_AGR", "Agriculture"),
    Rule(["teach", "school", "educ"], "SEC_EDU", "Education"),
    Rule(["health", "clinic", "hospital"], "SEC_HEALTH", "Health"),
    Rule(["transpo", "bus", "train", "metro", "vehicle"], "SEC_TRANS", "Transport")
  ]

  const Fallback := CodedResponse("SEC_OTHER", "Other / Uncoded", FallbackConfidencePct, RuleBased)

  /** The rule's pattern matches the lower-cased text. */
  predicate Matches(r: Rule, lowered: string) {
    exists k :: 0 <= k < |r.keywords| && Contains(lowered, r.keywords[k])
  }

  /** The position of the first matching rule, or the table's length when none matches. */
  function FirstMatch(rules: seq<Rule>, lowered: string): (i: nat)
    ensures i <= |rules|
    ensures i < |rules| ==> Matches(rules[i], lowered)
    ensures forall j :: 0 <= j < i ==> !Matches(rules[j], lowered)
  {
    if rules == [] then 0
    else if Matches(rules[0], lowered) then 0
    else 1 + FirstMatch(rules[1..], lowered)
  }

  /** `classifyResponse`. */
  function Classify(text: string): (r: Option<CodedResponse>)
    ensures r.None? <==> IsBlank(text)
    ensures r.Some? ==> r.value.system == RuleBased
    ensures r.Some? ==> var i := FirstMatch(Rules, ToLower(text));
      r.value == if i < |Rules| then CodedResponse(Rules[i].code, Rules[i].sector, RuleConfidencePct, RuleBased)
                 else Fallback
  {
    if IsBlank(text) then None
    else
      var i := FirstMatch(Rules, ToLower(text));
      if i < |Rules| then Some(CodedResponse(Rules[i].code, Rules[i].sector, RuleConfidencePct, RuleBased))
      else Some(Fallback)
  }

  /** Non-blank text is coded as other exactly when no rule matches it. */
  lemma FallbackIffNoRule(text: string)
    requires !IsBlank(text)
    ensures Classify(text) == Some(Fallback) <==> forall j :: 0 <= j < |Rules| ==> !Matches(Rules[j], ToLower(text))
  {
    var i := FirstMatch(Rules, ToLower(text));
    if i < |Rules| {
      assert Rules[i].code != Fallback.code by {
        assert Rules[i] in Rules;
      }
    }
  }

  /** A text matching two rules takes the earlier one: "farm school" is agriculture. */
  lemma FarmSchoolIsAgriculture()
    ensures Matches(Rules[0], "farm school") && Matches(Rules[1], "farm school")
    ensures Classify("farm school") == Some(CodedResponse("SEC_AGR", "Agriculture", RuleConfidencePct, RuleBased))
  {
    var t := "farm school";
    assert ToLower(t) == t;
    assert !IsBlank(t) by {
      assert TrimStart(t) == t;
      assert TrimEnd(t) == t;
    }
    assert OccursAt(t, "farm", 0);
    assert Contains(t, Rules[0].keywords[1]);
    assert Matches(Rules[0], t);
    assert OccursAt(t, "school", 5);
    assert Contains(t, Rules[1].keywords[1]);
  }

  /** Case does not matter: lower-casing the answer first gives the same code. */
  lemma ClassifyIgnoresCase(text: string)
    ensures Classify(ToLower(text)).Some? <==> Classify(text).Some?
    ensures Classify(ToLower(text)) == Classify(text)
  {
    assert ToLower(ToLower(text)) == ToLower(text);
    BlankIffAllSpace(text);
    BlankIffAllSpace(ToLower(text));
    forall i | 0 <= i < |text| ensures IsSpace(ToLower(text)[i]) <==> IsSpace(text[i]) {
      LowerSpace(text[i]);
    }
  }
}
