/**
 * The summariser: picks the last 25 non-empty string answers of the ledger,
 * writes a placeholder text from the first words of the first three, and
 * keeps a history of summaries, newest first.
 */
module Summarization {
  import opened Strings
  import opened Seqs
  import opened SurveyModel
  import opened Responses

  /** How many open answers a summary looks at. */
  const SampleLimit := 25
  /** How many of them the text quotes, and how many words of each. */
  const QuotedAnswers := 3
  const QuotedWords := 3

  const NoAnswersText := "No open-ended responses yet."
  const ThemesPrefix := "Top themes: "
  const ThemesSuffix := "... (auto summary placeholder)"

  datatype SummaryItem = SummaryItem(id: string, text: string, createdAt: int, sampleSize: nat)

  /** `typeof r.answer === 'string' && r.answer.length > 0`. */
  predicate IsOpenAnswer(r: RecordedResponse) {
    r.answer.Str? && |r.answer.s| > 0
  }

  /** The open answers the summary is built from: the latest 25, in ledger order. */
  function OpenAnswers(ordered: seq<RecordedResponse>): (r: seq<RecordedResponse>)
    ensures var open := Filter(ordered, IsOpenAnswer); |r| <= |open| && r == open[|open| - |r|..]
    ensures |r| <= SampleLimit
    ensures |r| == if Count(ordered, IsOpenAnswer) < SampleLimit then Count(ordered, IsOpenAnswer) else SampleLimit
    ensures forall i :: 0 <= i < |r| ==> IsOpenAnswer(r[i])
  {
    var open := Filter(ordered, IsOpenAnswer);
    LastN(open, SampleLimit)
  }

  /** `a.split(' ').slice(0, 3).join(' ')`. */
  function FirstWords(a: string): string {
    var ws := Split(a, ' ');
    Join(ws[..if |ws| < QuotedWords then |ws| else QuotedWords], " ")
  }

  /** The quoted words are the start of the answer. */
  lemma FirstWordsPrefix(a: string)
    ensures |FirstWords(a)| <= |a| && FirstWords(a) == a[..|FirstWords(a)|]
  {
    var ws := Split(a, ' ');
    JoinTakeIsPrefix(ws, if |ws| < QuotedWords then |ws| else QuotedWords, " ");
  }

  /** The quoted words of each answer, in order. */
  function Themes(open: seq<RecordedResponse>): (r: seq<string>)
    requires forall i :: 0 <= i < |open| ==> open[i].answer.Str?
    ensures |r| == |open|
    ensures forall i :: 0 <= i < |open| ==> r[i] == FirstWords(open[i].answer.s)
  {
    seq(|open|, i requires 0 <= i < |open| => FirstWords(open[i].answer.s))
  }

  function SummaryText(open: seq<RecordedResponse>): string
    requires forall i :: 0 <= i < |open| ==> open[i].answer.Str?
  {
    if |open| == 0 then NoAnswersText
    else
      var quoted := open[..if |open| < QuotedAnswers then |open| else QuotedAnswers];
      ThemesPrefix + Join(Themes(quoted), "; ") + ThemesSuffix
  }

  /** The summary `summarize` makes at time `now` (its id is `now` in decimal). */
  function MakeSummary(ordered: seq<RecordedResponse>, now: nat): (s: SummaryItem)
    ensures s.sampleSize <= SampleLimit
    ensures s.sampleSize == |OpenAnswers(ordered)|
    ensures s.createdAt == now && FromRadix(s.id, 10) == now
  {
    var open := OpenAnswers(ordered);
    RadixRoundTrip(now, 10);
    SummaryItem(Radix(now, 10), SummaryText(open), now, |open|)
  }

  /** With no open answer the text is the fixed notice; otherwise it is framed by the themes markers. */
  lemma SummaryTextShape(ordered: seq<RecordedResponse>, now: nat)
    ensures var t := MakeSummary(ordered, now).text;
      if Count(ordered, IsOpenAnswer) == 0 then t == NoAnswersText
      else && |t| >= |ThemesPrefix| + |ThemesSuffix|
           && t[..|ThemesPrefix|] == ThemesPrefix
           && t[|t| - |ThemesSuffix|..] == ThemesSuffix
  {
  }

  /** The text quotes the first words of the first (up to) three open answers, joined by "; ". */
  lemma SummaryTextQuotes(ordered: seq<RecordedResponse>, now: nat)
    requires Count(ordered, IsOpenAnswer) > 0
    ensures var open := OpenAnswers(ordered);
      var k := if |open| < QuotedAnswers then |open| else QuotedAnswers;
      MakeSummary(ordered, now).text == ThemesPrefix + Join(Themes(open[..k]), "; ") + ThemesSuffix
  {
  }

  class Summarizer {
    var summaries: seq<SummaryItem>

    constructor()
      ensures summaries == []
    {
      summaries := [];
    }

    /** `summarize`: builds one summary from the ledger's order and puts it first. */
    method Summarize(ordered: seq<RecordedResponse>, now: nat) returns (s: SummaryItem)
      modifies this
      ensures s == MakeSummary(ordered, now)
      ensures summaries == [s] + old(summaries)
    {
      s := MakeSummary(ordered, now);
      summaries := [s] + summaries;
    }

    method Clear()
      modifies this
      ensures summaries == []
    {
      summaries := [];
    }
  }
}
