/**
 * The response ledger: the latest answer to each question, keyed by question
 * id, with two derived views — the answers in the order they were given and
 * the set of normalised titles already answered.
 */
module Responses {
  import opened Wrappers
  import opened Strings
  import opened Seqs
  import opened Assoc
  import opened SurveyModel

  datatype RecordedResponse = RecordedResponse(questionId: string, title: string, answer: Answer, answeredAt: int)

  /** The responses by question id, in key insertion order. */
  type ResponseMap = seq<(string, RecordedResponse)>

  function AnsweredAt(r: RecordedResponse): int {
    r.answeredAt
  }

  /** `ordered`: the stored responses sorted by answer time, ties in key order. */
  function Ordered(m: ResponseMap): (r: seq<RecordedResponse>)
    ensures SortedBy(r, AnsweredAt)
    ensures multiset(r) == multiset(Values(m))
  {
    SortBy(Values(m), AnsweredAt)
  }

  /** Responses recorded at the same time keep the ledger's key order. */
  lemma OrderedTiesInKeyOrder(m: ResponseMap, t: int)
    ensures Filter(Ordered(m), KeyIs(AnsweredAt, t)) == Filter(Values(m), KeyIs(AnsweredAt, t))
  {
    SortByStable(Values(m), AnsweredAt, t);
  }

  /** `answeredTitles`: the trimmed, lower-cased titles of the stored responses. */
  function AnsweredTitles(m: ResponseMap): set<string> {
    set r | r in Ordered(m) :: Normalize(r.title)
  }

  /** A title is in the answered set exactly when some stored response normalises to it. */
  lemma AnsweredTitlesSpec(m: ResponseMap, t: string)
    ensures t in AnsweredTitles(m) <==> exists i :: 0 <= i < |m| && Normalize(m[i].1.title) == t
  {
    var o := Ordered(m);
    if t in AnsweredTitles(m) {
      var r :| r in o && Normalize(r.title) == t;
      assert multiset(o)[r] > 0;
      assert r in Values(m);
      var i :| 0 <= i < |m| && Values(m)[i] == r;
      assert m[i].1 == r;
    }
    if exists i :: 0 <= i < |m| && Normalize(m[i].1.title) == t {
      var i :| 0 <= i < |m| && Normalize(m[i].1.title) == t;
      var r := m[i].1;
      assert Values(m)[i] == r;
      assert multiset(Values(m))[r] > 0;
      assert r in o;
    }
  }

  /** A title that differs from an answered one only in case or surrounding space counts as answered. */
  lemma AnsweredVariant(m: ResponseMap, i: nat, t: string)
    requires i < |m| && Normalize(t) == Normalize(m[i].1.title)
    ensures Normalize(t) in AnsweredTitles(m)
  {
    AnsweredTitlesSpec(m, Normalize(t));
  }

  class Ledger {
    var responses: ResponseMap

    ghost predicate Valid()
      reads this
    {
      UniqueKeys(responses)
    }

    constructor()
      ensures Valid() && responses == []
    {
      responses := [];
    }

    /** `recordResponse`: the entry for `questionId` becomes the new answer, stamped `now`. */
    method RecordResponse(questionId: string, title: string, answer: Answer, now: int)
      requires Valid()
      modifies this
      ensures Valid()
      ensures responses == Put(old(responses), questionId, RecordedResponse(questionId, title, answer, now))
      ensures Get(responses, questionId) == Some(RecordedResponse(questionId, title, answer, now))
      ensures forall k :: k != questionId ==> Get(responses, k) == Get(old(responses), k)
      ensures forall k :: k in Keys(responses) <==> k == questionId || k in Keys(old(responses))
    {
      PutKeys(responses, questionId, RecordedResponse(questionId, title, answer, now));
      responses := Put(responses, questionId, RecordedResponse(questionId, title, answer, now));
    }

    method ResetResponses()
      modifies this
      ensures Valid() && responses == []
    {
      responses := [];
    }
  }

  /** Two answers to one question leave only the later one. */
  lemma LatestAnswerWins(m: ResponseMap, id: string, a: RecordedResponse, b: RecordedResponse)
    ensures Put(Put(m, id, a), id, b) == Put(m, id, b)
    ensures Ordered(Put(Put(m, id, a), id, b)) == Ordered(Put(m, id, b))
  {
    PutTwice(m, id, a, b);
  }
}
