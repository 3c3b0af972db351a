/**
 * The placeholder Hindi translation: a text that already holds Devanagari is
 * kept, any other gets a Hindi marker in front; translating the store fills
 * in the Hindi title of every question that has none.
 */
module Translate {
  import opened Wrappers
  import opened SurveyModel
  import opened SurveyStore

  /** The code points of the Devanagari script (`\p{Script=Devanagari}`). */
  predicate IsDevanagari(c: char) {
    || ('\U{0900}' <= c <= '\U{0950}')
    || ('\U{0955}' <= c <= '\U{0963}')
    || ('\U{0966}' <= c <= '\U{097F}')
    || ('\U{A8E0}' <= c <= '\U{A8FF}')
    || ('\U{11B00}' <= c <= '\U{11B09}')
  }

  predicate HasDevanagari(s: string) {
    exists i :: 0 <= i < |s| && IsDevanagari(s[i])
  }

  /** "हिन्दी: ". */
  const HindiMarker := "\U{0939}\U{093F}\U{0928}\U{094D}\U{0926}\U{0940}: "

  /** `mockTranslateToHindi`. */
  function MockTranslateToHindi(text: string): (r: string)
    ensures HasDevanagari(text) ==> r == text
    ensures !HasDevanagari(text) ==> r == HindiMarker + text
  {
    if HasDevanagari(text) then text else HindiMarker + text
  }

  /** The output always holds Devanagari, so translating twice is translating once. */
  lemma TranslateIdempotent(text: string)
    ensures HasDevanagari(MockTranslateToHindi(text))
    ensures MockTranslateToHindi(MockTranslateToHindi(text)) == MockTranslateToHindi(text)
  {
    if !HasDevanagari(text) {
      assert IsDevanagari((HindiMarker + text)[0]);
    }
  }

  /** The mutator `translateAll` hands to the store: fill a missing Hindi title. */
  function FillHindi(q: Question): (r: Question)
    ensures Truthy(q.hiTitle) ==> r == q
    ensures !Truthy(q.hiTitle) ==> r == q.(hiTitle := Some(MockTranslateToHindi(q.title)))
  {
    if Truthy(q.hiTitle) then q else q.(hiTitle := Some(MockTranslateToHindi(q.title)))
  }

  /** Every question comes out with a Hindi title, its English title untouched; a second pass changes nothing. */
  lemma FillHindiIdempotent(q: Question)
    ensures Truthy(FillHindi(q).hiTitle)
    ensures FillHindi(q).title == q.title
    ensures FillHindi(FillHindi(q)) == FillHindi(q)
  {
    TranslateIdempotent(q.title);
  }

  /** `translateAll`, without the timer and the progress flags. */
  method TranslateAll(store: Store)
    modifies store`questions
    ensures store.questions == MapAll(old(store.questions), FillHindi)
    ensures forall i :: 0 <= i < |store.questions| ==>
              store.questions[i].title == old(store.questions)[i].title && Truthy(store.questions[i].hiTitle)
    ensures UniqueTitles(old(store.questions)) ==> UniqueTitles(store.questions)
  {
    store.UpdateQuestions(FillHindi);
    forall i | 0 <= i < |store.questions|
      ensures store.questions[i].title == old(store.questions)[i].title && Truthy(store.questions[i].hiTitle)
    {
      FillHindiIdempotent(old(store.questions)[i]);
    }
  }

  /** Running the translation twice gives the same questions as running it once. */
  lemma TranslateAllTwice(qs: seq<Question>)
    ensures MapAll(MapAll(qs, FillHindi), FillHindi) == MapAll(qs, FillHindi)
  {
    forall i | 0 <= i < |qs| ensures MapAll(MapAll(qs, FillHindi), FillHindi)[i] == MapAll(qs, FillHindi)[i] {
      FillHindiIdempotent(qs[i]);
    }
  }
}
