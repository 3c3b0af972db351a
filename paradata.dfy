/**
 * Paradata: the timing record kept while a respondent goes through a survey.
 * Each question gets a record when it is shown and is closed when it is
 * answered; closing stamps the duration, raises quality flags and keeps a
 * short preview of the answer. The summary carries the sorted records, the
 * quality counters and the consent stamp.
 */
module Paradata {
  import opened Wrappers
  import opened Strings
  import opened Seqs
  import opened Assoc
  import opened SurveyModel

  /** An answer given in less than this many milliseconds is flagged `too_fast`. */
  const FastThresholdMs := 1500
  /** How much of an answer the preview keeps. */
  const PreviewLength := 40
  /** `>>> 0` keeps a number modulo this. */
  const TwoTo32 := 0x1_0000_0000

  datatype Flag = TooFast | Empty {
    function Name(): string {
      match this
      case TooFast => "too_fast"
      case Empty => "empty"
    }
  }

  datatype QuestionRecord = QuestionRecord(
    questionId: string,
    startTime: int,
    endTime: Option<int>,
    durationMs: Option<int>,
    flags: Option<seq<Flag>>,
    responsePreview: Option<string>)

  datatype Quality = Quality(flagged: nat, fast: nat)

  datatype Summary = Summary(
    surveyId: Option<string>,
    language: Option<string>,
    devicePlatform: string,
    deviceOSVersion: Option<string>,
    startedAt: Option<int>,
    completedAt: Option<int>,
    totalDurationMs: Option<int>,
    records: seq<QuestionRecord>,
    quality: Quality,
    consentAt: Option<int>,
    consentHash: Option<string>)

  /** The records by question id, in insertion order (the source's `Map`). */
  type RecordMap = seq<(string, QuestionRecord)>

  /** JavaScript truthiness of an optional timestamp: present and not 0. */
  predicate TruthyTime(t: Option<int>) {
    t.Some? && t.value != 0
  }

  /** A record still waiting for its answer (`!rec.endTime`). */
  predicate IsOpen(r: QuestionRecord) {
    !TruthyTime(r.endTime)
  }

  /** `(r.durationMs || 0) < 1500`: an open record counts as fast. */
  predicate IsFast(r: QuestionRecord) {
    r.durationMs.GetOr(0) < FastThresholdMs
  }

  /** `r.flags && r.flags.length`. */
  predicate IsFlagged(r: QuestionRecord) {
    r.flags.Some? && |r.flags.value| > 0
  }

  function StartKey(r: QuestionRecord): int {
    r.startTime
  }

  /** The quality counters of a list of records. */
  function QualityOf(records: seq<QuestionRecord>): Quality {
    Quality(Count(records, IsFlagged), Count(records, IsFast))
  }

  /** `response === '' || response == null`: an empty list is not empty. */
  predicate IsEmptyResponse(a: Answer) {
    a == Str("") || a.Null? || a.Undefined?
  }

  /** The flags a closed record carries; no flag at all is `undefined`. */
  function FlagsFor(duration: int, response: Answer): (r: Option<seq<Flag>>)
    ensures r.Some? ==> |r.value| > 0
    ensures (r.Some? && TooFast in r.value) <==> duration < FastThresholdMs
    ensures (r.Some? && Empty in r.value) <==> IsEmptyResponse(response)
    ensures r.Some? ==> r.value[0] == (if duration < FastThresholdMs then TooFast else Empty)
  {
    var fs := (if duration < FastThresholdMs then [TooFast] else [])
              + (if IsEmptyResponse(response) then [Empty] else []);
    if |fs| > 0 then Some(fs) else None
  }

  /**
   * The preview an answer leaves: the first 40 characters of a string, of a
   * list joined with commas or of an object's JSON text; "null" for null;
   * any other answer leaves the earlier preview in place.
   */
  function Preview(response: Answer, prior: Option<string>): (r: Option<string>)
    ensures (response.Num? || response.Bool? || response.Undefined?) ==> r == prior
    ensures !(response.Num? || response.Bool? || response.Undefined?) ==> r.Some? && |r.value| <= PreviewLength
    ensures response.Str? ==>
              (&& r.Some?
               && |r.value| == (if |response.s| < PreviewLength then |response.s| else PreviewLength)
               && r.value == response.s[..|r.value|])
    ensures response.List? ==>
              (var j := Join(response.items, ",");
               && r.Some?
               && |r.value| == (if |j| < PreviewLength then |j| else PreviewLength)
               && r.value == j[..|r.value|])
    ensures response.Obj? ==>
              (&& r.Some?
               && |r.value| == (if |response.json| < PreviewLength then |response.json| else PreviewLength)
               && r.value == response.json[..|r.value|])
    ensures response.Null? ==> r == Some("null")
  {
    match response
    case Str(s) => Some(Take(s, PreviewLength))
    case List(items) => Some(Take(Join(items, ","), PreviewLength))
    case Obj(json) => Some(Take(json, PreviewLength))
    case Null => Some("null")
    case _ => prior
  }

  /** The record `startQuestion` creates. */
  function Fresh(questionId: string, now: int): QuestionRecord {
    QuestionRecord(questionId, now, None, None, None, None)
  }

  /** What `endQuestion` makes of an open record answered at `now`. */
  function Close(rec: QuestionRecord, response: Answer, now: int): (r: QuestionRecord)
    ensures r.questionId == rec.questionId && r.startTime == rec.startTime
    ensures r.endTime == Some(now) && r.durationMs == Some(now - rec.startTime)
    ensures IsFast(r) <==> now - rec.startTime < FastThresholdMs
    ensures IsFlagged(r) <==> now - rec.startTime < FastThresholdMs || IsEmptyResponse(response)
    ensures r.responsePreview == Preview(response, rec.responsePreview)
  {
    var d := now - rec.startTime;
    rec.(endTime := Some(now), durationMs := Some(d), flags := FlagsFor(d, response),
         responsePreview := Preview(response, rec.responsePreview))
  }

  /** Every record is filed under its own question id. */
  predicate Keyed(m: RecordMap) {
    forall k :: k in Keys(m) ==> Get(m, k).value.questionId == k
  }

  lemma PutKeepsKeyed(m: RecordMap, r: QuestionRecord)
    requires Keyed(m)
    ensures Keyed(Put(m, r.questionId, r))
  {
    var m' := Put(m, r.questionId, r);
    forall k | k in Keys(m') ensures Get(m', k).value.questionId == k {
      if k != r.questionId {
        assert Get(m', k) == Get(m, k);
      }
    }
  }

  /** The map after `startQuestion(id)` at `now`: an open record is left alone. */
  function Opened(m: RecordMap, id: string, now: int): (r: RecordMap)
    ensures Get(r, id).Some?
    ensures forall k :: k != id ==> Get(r, k) == Get(m, k)
    ensures match Get(m, id)
            case Some(e) => if IsOpen(e) then r == m else Get(r, id) == Some(Fresh(id, now))
            case None => r == m + [(id, Fresh(id, now))]
    ensures UniqueKeys(m) ==> UniqueKeys(r)
  {
    match Get(m, id)
    case Some(e) => if IsOpen(e) then m else Put(m, id, Fresh(id, now))
    case None => Put(m, id, Fresh(id, now))
  }

  /** The map after `endQuestion(id, response)` at `now`, or None where the call returns early. */
  function Closed(m: RecordMap, id: string, response: Answer, now: int): (r: Option<RecordMap>)
    ensures r.None? <==> (Get(m, id).None? || !IsOpen(Get(m, id).value))
    ensures r.Some? ==>
              (&& Get(r.value, id) == Some(Close(Get(m, id).value, response, now))
               && (forall k :: k != id ==> Get(r.value, k) == Get(m, k))
               && Keys(r.value) == Keys(m))
    ensures r.Some? && UniqueKeys(m) ==> UniqueKeys(r.value)
  {
    match Get(m, id)
    case None => None
    case Some(rec) => if !IsOpen(rec) then None else Some(Put(m, id, Close(rec, response, now)))
  }

  /** `Array.from(map.values()).sort((a, b) => a.startTime - b.startTime)`. */
  function Snapshot(m: RecordMap): (r: seq<QuestionRecord>)
    ensures SortedBy(r, StartKey)
    ensures multiset(r) == multiset(Values(m))
  {
    SortBy(Values(m), StartKey)
  }

  /** Records started at the same time keep the map's insertion order. */
  lemma SnapshotTiesInMapOrder(m: RecordMap, t: int)
    ensures Filter(Snapshot(m), KeyIs(StartKey, t)) == Filter(Values(m), KeyIs(StartKey, t))
  {
    SortByStable(Values(m), StartKey, t);
  }

  /** The counters do not depend on the order the records are listed in. */
  lemma SnapshotQuality(m: RecordMap)
    ensures QualityOf(Snapshot(m)) == QualityOf(Values(m))
  {
    CountPermutation(Snapshot(m), Values(m), IsFlagged);
    CountPermutation(Snapshot(m), Values(m), IsFast);
  }

  /**
   * A question answered once stays answered: a second `endQuestion` returns
   * early, whatever the answer, as long as the first one ran at a non-zero time.
   */
  lemma CloseOnce(m: RecordMap, id: string, a: Answer, now: int, b: Answer, later: int)
    requires now != 0
    requires Closed(m, id, a, now).Some?
    ensures Closed(Closed(m, id, a, now).value, id, b, later).None?
  {
  }

  /** Re-showing a question whose record was closed starts a fresh record. */
  lemma ReopenClosed(m: RecordMap, id: string, a: Answer, now: int, later: int)
    requires now != 0
    requires Closed(m, id, a, now).Some?
    ensures Get(Opened(Closed(m, id, a, now).value, id, later), id) == Some(Fresh(id, later))
  {
  }

  /** Showing a question twice keeps the first start time. */
  lemma OpenTwice(m: RecordMap, id: string, now: int, later: int)
    ensures Opened(Opened(m, id, now), id, later) == Opened(m, id, now)
  {
    match Get(m, id)
    case Some(e) =>
      if !IsOpen(e) {
        assert Get(Opened(m, id, now), id) == Some(Fresh(id, now));
      }
    case None =>
      assert Get(Opened(m, id, now), id) == Some(Fresh(id, now));
  }

  // ---------------------------------------------------------------- consent hash

  /** The hash `recordConsent` folds over the UTF-16 code units of the payload. */
  function HashUnits(us: seq<nat>): (h: nat)
    ensures h < TwoTo32
  {
    if us == [] then 0 else (HashUnits(us[..|us| - 1]) * 31 + us[|us| - 1]) % TwoTo32
  }

  /** The consent hash as `hash.toString(16)`. */
  function ConsentHashOf(payload: string): (r: string)
    ensures |r| >= 1 && forall i :: 0 <= i < |r| ==> IsDigitOf(r[i], 16)
  {
    Radix(HashUnits(Utf16(payload)), 16)
  }

  /** The hash text reads back as the 32-bit hash it was written from. */
  lemma ConsentHashRoundTrip(payload: string)
    ensures FromRadix(ConsentHashOf(payload), 16) == HashUnits(Utf16(payload)) < TwoTo32
  {
    RadixRoundTrip(HashUnits(Utf16(payload)), 16);
  }

  /** An empty payload hashes to "0"; a one-unit payload hashes to its code unit. */
  lemma HashSmallPayloads(u: nat)
    requires u < 0x1_0000
    ensures ConsentHashOf("") == "0"
    ensures HashUnits([u]) == u
  {
    assert [u][..0] == [];
  }

  /** Distinct one-character payloads from the Basic Multilingual Plane hash apart. */
  lemma HashSeparatesSingleChars(c: char, d: char)
    requires c as int < 0x1_0000 && d as int < 0x1_0000 && c != d
    ensures ConsentHashOf([c]) != ConsentHashOf([d])
  {
    assert Utf16([c]) == [c as int] by { assert [c][..0] == ""; }
    assert Utf16([d]) == [d as int] by { assert [d][..0] == ""; }
    HashSmallPayloads(c as int);
    HashSmallPayloads(d as int);
    RadixRoundTrip(c as int, 16);
    RadixRoundTrip(d as int, 16);
  }

  /** The hashing loop of `recordConsent`. */
  method ConsentHash(payload: string) returns (hash: string)
    ensures hash == ConsentHashOf(payload)
  {
    var units := Utf16(payload);
    var h: nat := 0;
    var i := 0;
    while i < |units|
      invariant 0 <= i <= |units|
      invariant h == HashUnits(units[..i])
    {
      assert units[..i + 1][..i] == units[..i];
      h := (h * 31 + units[i]) % TwoTo32;
      i := i + 1;
    }
    assert units[..i] == units;
    hash := Radix(h, 16);
  }

  // ---------------------------------------------------------------- the recorder

  /** The summary a fresh recorder, or `reset`, starts from. */
  function InitialSummary(platform: string, osVersion: Option<string>): (s: Summary)
    ensures s.records == [] && s.quality == Quality(0, 0)
    ensures s.deviceOSVersion.Some? <==> Truthy(osVersion)
  {
    Summary(None, None, platform, if Truthy(osVersion) then osVersion else None,
            None, None, None, [], Quality(0, 0), None, None)
  }

  class Recorder {
    var summary: Summary
    var recordMap: RecordMap

    /** The records are sorted by start time and the counters always match them. */
    ghost predicate Valid()
      reads this
    {
      && UniqueKeys(recordMap)
      && Keyed(recordMap)
      && SortedBy(summary.records, StartKey)
      && summary.quality == QualityOf(summary.records)
    }

    constructor(platform: string, osVersion: Option<string>)
      ensures Valid()
      ensures summary == InitialSummary(platform, osVersion) && recordMap == []
    {
      summary := InitialSummary(platform, osVersion);
      recordMap := [];
    }

    method StartSurvey(language: Option<string>, now: int)
      requires Valid()
      modifies this
      ensures Valid()
      ensures summary == old(summary).(startedAt := Some(now), language := language,
                                       records := [], quality := Quality(0, 0))
      ensures recordMap == []
    {
      summary := summary.(startedAt := Some(now), language := language, records := [], quality := Quality(0, 0));
      recordMap := [];
    }

    method CompleteSurvey(now: int)
      requires Valid()
      modifies this
      ensures Valid()
      ensures summary == old(summary).(completedAt := Some(now),
                totalDurationMs := if TruthyTime(old(summary).startedAt) then Some(now - old(summary).startedAt.value) else None)
      ensures recordMap == old(recordMap)
    {
      var total := if TruthyTime(summary.startedAt) then Some(now - summary.startedAt.value) else None;
      summary := summary.(completedAt := Some(now), totalDurationMs := total);
    }

    method StartQuestion(questionId: string, now: int)
      requires Valid()
      modifies this
      ensures Valid()
      ensures recordMap == Opened(old(recordMap), questionId, now)
      ensures summary == old(summary)
    {
      var existing := Get(recordMap, questionId);
      if existing.Some? && IsOpen(existing.value) {
        return;
      }
      PutKeepsKeyed(recordMap, Fresh(questionId, now));
      recordMap := Put(recordMap, questionId, Fresh(questionId, now));
    }

    method EndQuestion(questionId: string, response: Answer, now: int)
      requires Valid()
      modifies this
      ensures Valid()
      ensures match Closed(old(recordMap), questionId, response, now)
              case None => recordMap == old(recordMap) && summary == old(summary)
              case Some(m) => recordMap == m
                              && summary == old(summary).(records := Snapshot(m), quality := QualityOf(Snapshot(m)))
    {
      var rec := Get(recordMap, questionId);
      if rec.None? {
        return;
      }
      if TruthyTime(rec.value.endTime) {
        return;
      }
      var closed := Close(rec.value, response, now);
      PutKeepsKeyed(recordMap, closed);
      recordMap := Put(recordMap, questionId, closed);
      var records := Snapshot(recordMap);
      summary := summary.(records := records, quality := QualityOf(records));
    }

    method Reset(platform: string, osVersion: Option<string>)
      modifies this
      ensures Valid()
      ensures summary == InitialSummary(platform, osVersion) && recordMap == []
    {
      recordMap := [];
      summary := InitialSummary(platform, osVersion);
    }

    method RecordConsent(payload: string, now: int)
      requires Valid()
      modifies this
      ensures Valid()
      ensures summary == old(summary).(consentAt := Some(now), consentHash := Some(ConsentHashOf(payload)))
      ensures recordMap == old(recordMap)
    {
      var hash := ConsentHash(payload);
      summary := summary.(consentAt := Some(now), consentHash := Some(hash));
    }
  }
}
