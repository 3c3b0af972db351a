/**
 * The entities the survey components share: question types, the question
 * record of the store, and the shapes a recorded answer can take.
 */
module SurveyModel {
  import opened Wrappers

  /** `'text' | 'multiple_choice' | 'checkbox' | 'radio'`. */
  datatype QType = Text | MultipleChoice | Checkbox | Radio {
    /** The type's name as the source spells it. */
    function Name(): string {
      match this
      case Text => "text"
      case MultipleChoice => "multiple_choice"
      case Checkbox => "checkbox"
      case Radio => "radio"
    }
  }

  /**
   * `SurveyQuestionModel`. An `id` of "" stands for a candidate without an id
   * (the source tests `q.id` for truthiness, so "" and a missing id agree).
   */
  datatype Question = Question(
    id: string,
    qtype: QType,
    title: string,
    options: Option<seq<string>>,
    required: bool,
    source: Option<string>,
    domain: Option<string>,
    hiTitle: Option<string>)

  /** JavaScript truthiness of an optional string: present and not "". */
  predicate Truthy(s: Option<string>) {
    s.Some? && s.value != ""
  }

  /**
   * A recorded answer (`any` in the source): a string, an array of strings,
   * a number (integers only), a boolean, another object (with the text
   * `JSON.stringify` gives for it), `null` or `undefined`.
   */
  datatype Answer = Str(s: string) | List(items: seq<string>) | Num(n: int) | Bool(b: bool)
                  | Obj(json: string) | Null | Undefined
}
