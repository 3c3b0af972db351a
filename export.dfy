/**
 * Survey export: the payload written out for a survey (its questions, and
 * the paradata when any question was timed) and the name of the file it is
 * downloaded under.
 */
module Export {
  import opened Wrappers
  import opened Strings
  import opened SurveyModel
  import opened Paradata
  import Seqs

  const PayloadVersion := 1
  const DefaultTitle := "Untitled Survey"
  const DefaultFileStem := "survey"
  const FileSuffix := ".json"

  datatype QuestionExport = QuestionExport(
    id: string, qtype: QType, title: string, required: bool,
    options: Option<seq<string>>, source: Option<string>)

  datatype RecordExport = RecordExport(questionId: string, durationMs: Option<int>, flags: Option<seq<Flag>>)

  datatype ParadataExport = ParadataExport(
    startedAt: Option<int>, completedAt: Option<int>, totalDurationMs: Option<int>,
    quality: Quality, devicePlatform: string, consentAt: Option<int>, consentHash: Option<string>,
    records: seq<RecordExport>)

  datatype ExportPayload = ExportPayload(
    version: nat, id: string, title: string, description: string, createdAt: string,
    questionCount: nat, questions: seq<QuestionExport>, paradata: Option<ParadataExport>)

  /** `x || undefined` for an optional string: the empty string is dropped. */
  function OrUndefined(s: Option<string>): (r: Option<string>)
    ensures r.Some? <==> Truthy(s)
    ensures r.Some? ==> r == s
  {
    if Truthy(s) then s else None
  }

  /** One question as exported; an options array, even an empty one, is kept. */
  function ExportQuestion(q: Question): (e: QuestionExport)
    ensures e.id == q.id && e.qtype == q.qtype && e.title == q.title && e.required == q.required
    ensures e.options == q.options && e.source == OrUndefined(q.source)
  {
    QuestionExport(q.id, q.qtype, q.title, q.required, q.options, OrUndefined(q.source))
  }

  /** Reading an exported question back, given what the export drops. */
  function Restore(e: QuestionExport, domain: Option<string>, hiTitle: Option<string>): Question {
    Question(e.id, e.qtype, e.title, e.options, e.required, e.source, domain, hiTitle)
  }

  /** The export loses only the domain, the Hindi title and an empty source. */
  lemma ExportRestore(q: Question)
    requires q.source != Some("")
    ensures Restore(ExportQuestion(q), q.domain, q.hiTitle) == q
  {
  }

  function ExportRecords(rs: seq<QuestionRecord>): (es: seq<RecordExport>)
    ensures |es| == |rs|
    ensures forall i :: 0 <= i < |rs| ==>
              es[i] == RecordExport(rs[i].questionId, rs[i].durationMs, rs[i].flags)
  {
    seq(|rs|, i requires 0 <= i < |rs| => RecordExport(rs[i].questionId, rs[i].durationMs, rs[i].flags))
  }

  function ExportQuestions(qs: seq<Question>): (es: seq<QuestionExport>)
    ensures |es| == |qs| && forall i :: 0 <= i < |qs| ==> es[i] == ExportQuestion(qs[i])
  {
    seq(|qs|, i requires 0 <= i < |qs| => ExportQuestion(qs[i]))
  }

  /**
   * The payload for the current questions and paradata summary, at time
   * `now` (the id stamp) with `createdAt` its ISO text.
   */
  function MakePayload(questions: seq<Question>, title: string, description: string,
                       summary: Summary, now: nat, createdAt: string): (p: ExportPayload)
    ensures p.version == PayloadVersion && p.createdAt == createdAt
    ensures p.id == "survey_" + Radix(now, 10)
    ensures p.title == (if title == "" then DefaultTitle else title)
    ensures p.description == description
    ensures p.questionCount == |questions| == |p.questions|
    ensures forall i :: 0 <= i < |questions| ==> p.questions[i] == ExportQuestion(questions[i])
    ensures p.paradata.Some? <==> |summary.records| > 0
    ensures p.paradata.Some? ==>
              && p.paradata.value.records == ExportRecords(summary.records)
              && p.paradata.value.startedAt == summary.startedAt
              && p.paradata.value.completedAt == summary.completedAt
              && p.paradata.value.totalDurationMs == summary.totalDurationMs
              && p.paradata.value.quality == summary.quality
              && p.paradata.value.devicePlatform == summary.devicePlatform
              && p.paradata.value.consentAt == summary.consentAt
              && p.paradata.value.consentHash == summary.consentHash
  {
    var block := if |summary.records| > 0 then
        Some(ParadataExport(summary.startedAt, summary.completedAt, summary.totalDurationMs, summary.quality,
                            summary.devicePlatform, summary.consentAt, summary.consentHash,
                            ExportRecords(summary.records)))
      else None;
    ExportPayload(PayloadVersion, "survey_" + Radix(now, 10),
                  if title == "" then DefaultTitle else title, description, createdAt,
                  |questions|, ExportQuestions(questions), block)
  }

  /** An exported record has flags, as a reader of the file would count it. */
  predicate ExportFlagged(e: RecordExport) {
    e.flags.Some? && |e.flags.value| > 0
  }

  /** An exported record is fast (a missing duration counting as 0). */
  predicate ExportFast(e: RecordExport) {
    e.durationMs.GetOr(0) < FastThresholdMs
  }

  /** Counting flagged and fast records after the projection gives the counts before it. */
  lemma {:induction false} ExportedCounts(rs: seq<QuestionRecord>)
    ensures Seqs.Count(ExportRecords(rs), ExportFlagged) == Seqs.Count(rs, IsFlagged)
    ensures Seqs.Count(ExportRecords(rs), ExportFast) == Seqs.Count(rs, IsFast)
  {
    if rs != [] {
      ExportedCounts(rs[1..]);
      assert ExportRecords(rs)[1..] == ExportRecords(rs[1..]);
    }
  }

  /**
   * The exported quality counters agree with the exported records: a recorder
   * keeps its counters recomputed from its records, and the projection keeps
   * flags and durations.
   */
  lemma ExportedQualityAgrees(r: Recorder, questions: seq<Question>, title: string, description: string,
                              now: nat, createdAt: string)
    requires r.Valid() && |r.summary.records| > 0
    ensures var block := MakePayload(questions, title, description, r.summary, now, createdAt).paradata.value;
      && block.quality.flagged == Seqs.Count(block.records, ExportFlagged)
      && block.quality.fast == Seqs.Count(block.records, ExportFast)
  {
    ExportedCounts(r.summary.records);
  }

  // ---------------------------------------------------------------- file name

  /** The characters `[a-z0-9-_]` a file name keeps. */
  predicate Allowed(c: char) {
    ('a' <= c <= 'z') || ('0' <= c <= '9') || c == '-' || c == '_'
  }

  predicate AllAllowed(s: string) {
    forall i :: 0 <= i < |s| ==> Allowed(s[i])
  }

  /** Drops the run of disallowed characters at the front. */
  function SkipRun(s: string): (r: string)
    ensures |r| <= |s| && r == s[|s| - |r|..]
    ensures r != "" ==> Allowed(r[0])
    decreases |s|
  {
    if s == "" || Allowed(s[0]) then s
    else
      var r := SkipRun(s[1..]);
      assert s[1..][|s| - 1 - |r|..] == s[|s| - |r|..];
      r
  }

  /** `s.replace(/[^a-z0-9-_]+/g, '_')`: every maximal run of other characters becomes one '_'. */
  function Sanitize(s: string): (r: string)
    ensures AllAllowed(r)
    ensures |r| <= |s|
    decreases |s|
  {
    if s == "" then ""
    else if Allowed(s[0]) then [s[0]] + Sanitize(s[1..])
    else "_" + Sanitize(SkipRun(s[1..]))
  }

  /** A name that is already clean is left alone. */
  lemma {:induction false} SanitizeClean(s: string)
    requires AllAllowed(s)
    ensures Sanitize(s) == s
  {
    if s != "" {
      SanitizeClean(s[1..]);
    }
  }

  /** Sanitising twice is sanitising once. */
  lemma SanitizeIdempotent(s: string)
    ensures Sanitize(Sanitize(s)) == Sanitize(s)
  {
    SanitizeClean(Sanitize(s));
  }

  predicate NoneAllowed(s: string) {
    forall i :: 0 <= i < |s| ==> !Allowed(s[i])
  }

  lemma {:induction false} SkipWholeRun(x: string, b: string)
    requires NoneAllowed(x) && (b == "" || Allowed(b[0]))
    ensures SkipRun(x + b) == b
  {
    if x != "" {
      assert (x + b)[1..] == x[1..] + b;
      SkipWholeRun(x[1..], b);
    } else {
      assert x + b == b;
    }
  }

  /**
   * The replacement, run by run: a clean part is kept, the run of other
   * characters after it becomes a single '_', and the rest is sanitised on.
   */
  lemma {:induction false} SanitizeRun(a: string, x: string, b: string)
    requires AllAllowed(a) && x != "" && NoneAllowed(x) && (b == "" || Allowed(b[0]))
    ensures Sanitize(a + x + b) == a + "_" + Sanitize(b)
  {
    if a == "" {
      assert a + x + b == x + b;
      assert (x + b)[1..] == x[1..] + b;
      SkipWholeRun(x[1..], b);
    } else {
      assert (a + x + b)[1..] == a[1..] + x + b;
      SanitizeRun(a[1..], x, b);
    }
  }

  /** `(title || 'survey').toLowerCase().replace(...) + '.json'`. */
  function FileName(title: string): string {
    Sanitize(ToLower(if title == "" then DefaultFileStem else title)) + FileSuffix
  }

  /** The name is a clean stem followed by ".json". */
  lemma FileNameShape(title: string)
    ensures var name := FileName(title);
      && |name| >= |FileSuffix| && name[|name| - |FileSuffix|..] == FileSuffix
      && AllAllowed(name[..|name| - |FileSuffix|])
  {
    var stem := Sanitize(ToLower(if title == "" then DefaultFileStem else title));
    assert (stem + FileSuffix)[..|stem|] == stem;
  }

  /** A title that is already a clean lower-case stem is used as it is. */
  lemma CleanTitleFileName(title: string)
    requires title != "" && AllAllowed(title)
    ensures FileName(title) == title + FileSuffix
  {
    assert ToLower(title) == title;
    SanitizeClean(title);
  }

  /** An empty title downloads as "survey.json". */
  lemma EmptyTitleFileName()
    ensures FileName("") == "survey.json"
  {
    assert AllAllowed(DefaultFileStem);
    CleanTitleFileName(DefaultFileStem);
  }
}
