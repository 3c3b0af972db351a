/**
 * The label a question card shows for a question type.
 */
module TypeLabel {
  import opened SurveyModel

  /** `getQuestionTypeLabel`: the four known type names get a label, any other name is shown as it is. */
  function Label(typeName: string): (r: string)
    ensures typeName == "text" ==> r == "Text Input"
    ensures typeName == "radio" ==> r == "Single Choice"
    ensures typeName == "checkbox" ==> r == "Multiple Choice"
    ensures typeName == "multiple_choice" ==> r == "Dropdown"
    ensures typeName !in {"text", "radio", "checkbox", "multiple_choice"} ==> r == typeName
  {
    if typeName == "text" then "Text Input"
    else if typeName == "radio" then "Single Choice"
    else if typeName == "checkbox" then "Multiple Choice"
    else if typeName == "multiple_choice" then "Dropdown"
    else typeName
  }

  /** Different question types get different labels. */
  lemma LabelsDistinct(a: QType, b: QType)
    requires a != b
    ensures Label(a.Name()) != Label(b.Name())
  {
  }
}
