/**
 * The survey builder screen's own question list: it starts with two sample
 * questions, grows by one template question per tap on a type, and loses a
 * question only when its deletion is confirmed.
 */
module Builder {
  import opened Wrappers
  import opened Strings
  import opened Seqs
  import opened SurveyModel
  import TypeLabel

  datatype BuilderQuestion = BuilderQuestion(
    id: string, qtype: QType, title: string, options: Option<seq<string>>, required: bool)

  /** The two buttons of the delete dialog. */
  datatype DeleteChoice = Cancel | Delete

  const TemplateOptions := ["Option 1", "Option 2"]

  const InitialQuestions := [
    BuilderQuestion("1", Text, "What is your household income range?", None, true),
    BuilderQuestion("2", Radio, "What is your employment status?",
                    Some(["Employed", "Unemployed", "Self-employed", "Retired"]), true)
  ]

  /** The type buttons: each type with the title it is offered under. */
  const QuestionTypes: seq<(QType, string)> := [
    (Text, "Text Input"), (Radio, "Single Choice"), (Checkbox, "Multiple Choice"), (MultipleChoice, "Dropdown")
  ]

  /** The question a tap on `qtype` adds, with id `id`. */
  function Template(qtype: QType, id: string): (q: BuilderQuestion)
    ensures q.id == id && q.qtype == qtype && !q.required
    ensures q.title == "New " + qtype.Name() + " question"
    ensures q.options.Some? <==> qtype != Text
    ensures q.options.Some? ==> q.options.value == TemplateOptions
  {
    BuilderQuestion(id, qtype, "New " + qtype.Name() + " question",
                    if qtype != Text then Some(TemplateOptions) else None, false)
  }

  /** The type buttons and the question cards name every type alike. */
  lemma TypeTitlesAgree(i: nat)
    requires i < |QuestionTypes|
    ensures TypeLabel.Label(QuestionTypes[i].0.Name()) == QuestionTypes[i].1
  {
  }

  function WithoutQuestion(qs: seq<BuilderQuestion>, id: string): seq<BuilderQuestion> {
    Filter(qs, (q: BuilderQuestion) => q.id != id)
  }

  /** A confirmed deletion drops every question with that id and keeps the others, in order. */
  lemma WithoutQuestionSpec(qs: seq<BuilderQuestion>, id: string)
    ensures forall i :: 0 <= i < |WithoutQuestion(qs, id)| ==> WithoutQuestion(qs, id)[i].id != id
    ensures forall i :: 0 <= i < |qs| && qs[i].id != id ==> qs[i] in WithoutQuestion(qs, id)
    ensures IsSubseq(WithoutQuestion(qs, id), qs)
    ensures forall x: BuilderQuestion {:trigger multiset(WithoutQuestion(qs, id))[x]} ::
              x.id != id ==> multiset(WithoutQuestion(qs, id))[x] == multiset(qs)[x]
  {
    forall x: BuilderQuestion | x.id != id ensures multiset(WithoutQuestion(qs, id))[x] == multiset(qs)[x] {
      FilterMultiset(qs, (q: BuilderQuestion) => q.id != id, x);
    }
    FilterIsSubseq(qs, (q: BuilderQuestion) => q.id != id);
  }

  class SurveyBuilder {
    var questions: seq<BuilderQuestion>

    constructor()
      ensures questions == InitialQuestions
    {
      questions := InitialQuestions;
    }

    /** `addQuestion(type)` at time `now`, whose decimal text is the new id. */
    method AddQuestion(qtype: QType, now: nat)
      modifies this
      ensures questions == old(questions) + [Template(qtype, Radix(now, 10))]
    {
      questions := questions + [Template(qtype, Radix(now, 10))];
    }

    /** `deleteQuestion(id)` followed by the button the user picks in the dialog. */
    method DeleteQuestion(id: string, choice: DeleteChoice)
      modifies this
      ensures choice == Cancel ==> questions == old(questions)
      ensures choice == Delete ==> questions == WithoutQuestion(old(questions), id)
    {
      if choice == Delete {
        questions := WithoutQuestion(questions, id);
      }
    }
  }
}
