# A verified model of the MoSPI survey app's in-memory core

The MoSPI survey app is a React Native app. It lets enumerators author surveys (questions drafted by hand, picked from a library or an official bank, or generated), administer them, and export them.
This project models the part of it that holds and transforms state in memory:

- the **question store**: an ordered list with deduplication by normalised title, a batch insert with counters, remove, patch, bulk map, splice reorder, a per-domain counter and a "recently added" highlight set;
- the **paradata recorder**: per-question timing records, `too_fast` and `empty` flags, a 40-character answer preview, quality counters recomputed from all records, and a 32-bit rolling hash of the consent text;
- the **response ledger**, the **suggestion mailbox**, the **prepopulation table** and the **summariser**;
- the pure transforms:
  - channel payloads for WhatsApp, IVR and web form;
  - rule-based sector coding;
  - the export payload and its download file name;
  - the mock Hindi translation;
  - question-bank and library filtering;
  - the question-type label;
- small screen-state rules: the draft selection, the consent gate, the required-answer check, and the builder's add and delete.

Stateful React contexts and components become Dafny classes whose fields are the React state, with `modifies` clauses. Each method is tied by its `ensures` to a specification function. Pure helpers become functions with named results, and the properties the code promises are lemmas about those functions.

Shared conventions:

- **Truthiness.** JavaScript truthiness is written out. An optional string is truthy when present and non-empty (`SurveyModel.Truthy`). A timestamp is truthy when present and not `0` (`Paradata.TruthyTime`). A question id of `""` counts as no id.
- **Maps.** A JavaScript `Map` or object is an association list in insertion order (module `Assoc`). Writing an existing key replaces it in place; writing a new key appends it.
- **Strings.** `trim` removes the full ECMAScript white-space and line-terminator set; `toLowerCase` is modelled on ASCII letters (module `Strings`). The store, the ledger and the filters all share one normalisation, `Strings.Normalize`.
- **Answers.** The `any`-typed answer is the datatype `SurveyModel.Answer`: a string, a list of strings, a number, a boolean, an object (carrying its JSON text), `null` or `undefined`.
- **Parameters.** Clock readings, generated ids and the device platform are method parameters.

## Model

| member | source | states |
|---|---|---|
| SurveyStore.AssignIds | contexts/SurveyContext.tsx:53 | a candidate with a non-empty id keeps it; one without an id gets its fresh id; nothing else changes |
| SurveyStore.IngestPrefix | contexts/SurveyContext.tsx:54-59 | the batch keeps the existing questions in front, unchanged; `idsAdded` is exactly the ids of the appended questions, in order |
| SurveyStore.IngestSubseq | contexts/SurveyContext.tsx:55-59 | the appended questions are a subsequence of the batch, in batch order |
| SurveyStore.IngestCounts | contexts/SurveyContext.tsx:56-59 | every candidate is counted exactly once, as added, duplicate or blank; hence added + duplicates <= total |
| SurveyStore.IngestShape | contexts/SurveyContext.tsx:54-60 | the three facts above together for one batch run |
| SurveyStore.StepShape | contexts/SurveyContext.tsx:56-59 | one turn of the loop skips a blank title, counts a duplicate, or appends exactly the candidate |
| SurveyStore.IngestKeepsUnique | contexts/SurveyContext.tsx:55-60 | if no two questions shared a normalised title before the batch, none do after; repeats inside the batch are caught as well |
| SurveyStore.IngestLoop | contexts/SurveyContext.tsx:54-61 | the `forEach` loop's list and counters equal the batch function `Ingest` |
| SurveyStore.IngestCovers | contexts/SurveyContext.tsx:56-59 | after the batch, the normalised title of every non-blank candidate is in the store |
| SurveyStore.RepeatedCandidate | contexts/SurveyContext.tsx:57-59 | `addQuestions([A, A])` on an empty store holds just `A` and counts 1 added and 1 duplicate |
| SurveyStore.WithoutIdSpec | contexts/SurveyContext.tsx:67-69 | removal drops every question with the id, keeps every other question with its multiplicity and in its order, and removing again changes nothing |
| SurveyStore.FilterKeepsUnique | contexts/SurveyContext.tsx:68 | filtering keeps titles unique |
| SurveyStore.ApplyIdempotent | contexts/SurveyContext.tsx:78 | merging a patch twice is merging it once; an empty patch changes nothing |
| SurveyStore.PatchWhereSpec | contexts/SurveyContext.tsx:77-79 | same length; only questions with the id change, and those become the merge; a patch without a title keeps titles unique |
| SurveyStore.MapAll | contexts/SurveyContext.tsx:73-75 | the bulk map keeps the list length |
| SurveyStore.SpliceIndex | contexts/SurveyContext.tsx:84-85 | a `splice` start index is clamped into `0..n`, negative values counting from the end; an in-range index is itself |
| SurveyStore.RemoveAt | contexts/SurveyContext.tsx:84 | one element is removed, the rest are kept as a multiset |
| SurveyStore.Reorder | contexts/SurveyContext.tsx:81-88 | the same length and multiset; the moved element lands at the clamped target; the others keep their relative order |
| SurveyStore.ReorderKeepsUnique | contexts/SurveyContext.tsx:81-88 | moving one question keeps normalised titles unique |
| SurveyStore.ReorderInRange | contexts/SurveyContext.tsx:81-88 | with both indices in range, the question at `from` ends up at `to` |
| SurveyStore.Bump | contexts/SurveyContext.tsx:94 | the domain's count goes up by one (from 0 if absent); every other key is unchanged |
| SurveyStore.Store.constructor | contexts/SurveyContext.tsx:36-38 | empty list, empty counts, empty highlight set |
| SurveyStore.Store.AddQuestion | contexts/SurveyContext.tsx:40-48 | on a normalised-title match: the list is unchanged and the result is {0,1,1}; otherwise the candidate is appended once under the fresh id and the result is {1,0,1}; title uniqueness is preserved |
| SurveyStore.Store.AddQuestions | contexts/SurveyContext.tsx:50-65 | the list and counters are those of `Ingest` over the id-assigned batch; `recentlyAdded` becomes the added ids when there are any; `total` is the batch size; uniqueness is preserved |
| SurveyStore.Store.RemoveQuestion | contexts/SurveyContext.tsx:67-69 | the list becomes `WithoutId` of the old list; uniqueness is preserved |
| SurveyStore.Store.Reset | contexts/SurveyContext.tsx:71 | the list is emptied; counts and highlights are untouched |
| SurveyStore.Store.UpdateQuestions | contexts/SurveyContext.tsx:73-75 | the list becomes the mutator mapped over it |
| SurveyStore.Store.UpdateQuestion | contexts/SurveyContext.tsx:77-79 | the list becomes `PatchWhere` of the old list |
| SurveyStore.Store.ReorderQuestions | contexts/SurveyContext.tsx:81-88 | the list becomes `Reorder` of the old list; uniqueness is preserved |
| SurveyStore.Store.ClearRecentlyAdded | contexts/SurveyContext.tsx:90 | the highlight set is emptied |
| SurveyStore.Store.IncrementDomain | contexts/SurveyContext.tsx:92-95 | a missing or empty domain changes nothing; otherwise the counts become `Bump` of the old counts |
| Paradata.FlagsFor | contexts/ParadataContext.tsx:70-73 | `too_fast` is present iff the duration is below 1500, `empty` iff the response is `''`, `null` or `undefined` (an empty list is not); with neither, the flags are `undefined` |
| Paradata.Preview | contexts/ParadataContext.tsx:74-76 | a string gives exactly its first 40 characters (or all of it); a list exactly the first 40 characters of its comma join; an object exactly the first 40 characters of its JSON text; `null` gives 'null'; numbers, booleans and `undefined` keep the earlier preview |
| Paradata.Close | contexts/ParadataContext.tsx:68-76 | a closed record has `endTime = now` and `durationMs = now - startTime`; it is fast iff that is below 1500, and flagged iff fast or the response is empty |
| Paradata.Opened | contexts/ParadataContext.tsx:57-62 | an open record is left alone; an absent or closed one is replaced by a fresh record with only `startTime`; no other key changes |
| Paradata.Closed | contexts/ParadataContext.tsx:64-77 | it returns early iff there is no record or the record has an end time; otherwise only that record changes, to its `Close`, and the key set is unchanged |
| Paradata.Snapshot | contexts/ParadataContext.tsx:78 | the records are sorted by `startTime` and are a permutation of the map's records |
| Paradata.SnapshotTiesInMapOrder | contexts/ParadataContext.tsx:78 | records with equal start times keep the map's insertion order, as the stable `sort` does |
| Paradata.SnapshotQuality | contexts/ParadataContext.tsx:78-80 | the quality counters do not depend on the order of the records |
| Paradata.CloseOnce | contexts/ParadataContext.tsx:67 | a record closed at a non-zero time is not closed again, whatever the second answer |
| Paradata.ReopenClosed | contexts/ParadataContext.tsx:58-61 | showing a closed question again starts a fresh open record |
| Paradata.OpenTwice | contexts/ParadataContext.tsx:58-59 | showing a question twice keeps the first start time |
| Paradata.PutKeepsKeyed | contexts/ParadataContext.tsx:61-77 | writing a record under its own id keeps every record filed under its own id |
| Paradata.HashUnits | contexts/ParadataContext.tsx:91 | the rolling hash stays below 2^32 |
| Paradata.ConsentHashOf | contexts/ParadataContext.tsx:91-92 | the hash text is non-empty hexadecimal |
| Paradata.ConsentHashRoundTrip | contexts/ParadataContext.tsx:91-92 | the hex text reads back as the 32-bit fold h <- (31*h + unit) mod 2^32 |
| Paradata.HashSmallPayloads | contexts/ParadataContext.tsx:91-92 | the empty payload hashes to "0"; a single code unit hashes to itself |
| Paradata.HashSeparatesSingleChars | contexts/ParadataContext.tsx:91-92 | distinct one-character payloads from the Basic Multilingual Plane get distinct hashes |
| Paradata.ConsentHash | contexts/ParadataContext.tsx:91 | the hashing loop computes `ConsentHashOf` |
| Paradata.InitialSummary | contexts/ParadataContext.tsx:40-45 | no records, zero counters; the OS version is kept only when it is truthy |
| Paradata.Recorder.constructor | contexts/ParadataContext.tsx:40-46 | the initial summary and an empty record map |
| Paradata.Recorder.StartSurvey | contexts/ParadataContext.tsx:48-51 | `startedAt` and `language` are set, records and counters are cleared, and the map is emptied |
| Paradata.Recorder.CompleteSurvey | contexts/ParadataContext.tsx:53-55 | `completedAt = now`; `totalDurationMs = now - startedAt` only when `startedAt` is truthy |
| Paradata.Recorder.StartQuestion | contexts/ParadataContext.tsx:57-62 | the map becomes `Opened`; the summary is unchanged |
| Paradata.Recorder.EndQuestion | contexts/ParadataContext.tsx:64-82 | on an early return, nothing changes; otherwise the map becomes `Closed`, and the summary gets its sorted snapshot and the counters recomputed from it; the counters always match the records |
| Paradata.Recorder.Reset | contexts/ParadataContext.tsx:84-87 | the initial summary and an empty map |
| Paradata.Recorder.RecordConsent | contexts/ParadataContext.tsx:89-93 | `consentAt = now` and `consentHash = ConsentHashOf(payload)`; nothing else changes |
| Responses.Ordered | contexts/ResponseContext.tsx:29 | sorted by `answeredAt`, and a permutation of the stored responses |
| Responses.OrderedTiesInKeyOrder | contexts/ResponseContext.tsx:29 | responses with equal answer times keep the ledger's key order, as the stable `sort` does |
| Responses.AnsweredTitlesSpec | contexts/ResponseContext.tsx:30 | a text is an answered title iff it is the normalised title of some stored response |
| Responses.AnsweredVariant | contexts/ResponseContext.tsx:30 | a space or case variant of an answered title normalises into the set |
| Responses.LatestAnswerWins | contexts/ResponseContext.tsx:23-29 | recording twice under one id equals recording the second answer only, and the ordered view agrees |
| Responses.Ledger.constructor | contexts/ResponseContext.tsx:21 | the ledger starts empty |
| Responses.Ledger.RecordResponse | contexts/ResponseContext.tsx:23-25 | the id now maps to the new response; every other id is unchanged; the key set gains exactly the id; keys stay unique |
| Responses.Ledger.ResetResponses | contexts/ResponseContext.tsx:27 | the ledger is emptied |
| Adaptive.Mailbox.constructor | contexts/AdaptiveEventsContext.tsx:13 | the slot starts empty |
| Adaptive.Mailbox.RequestFollowUp | contexts/AdaptiveEventsContext.tsx:14 | the slot holds the prompt |
| Adaptive.Mailbox.ClearSuggestion | contexts/AdaptiveEventsContext.tsx:15 | the slot is emptied |
| Adaptive.Mailbox.ConsumeSuggestion | contexts/AdaptiveEventsContext.tsx:16 | it returns the old slot value and leaves the slot empty |
| Adaptive.RequestTwice | contexts/AdaptiveEventsContext.tsx:14 | of two requests, only the second survives |
| Adaptive.ConsumeTwice | contexts/AdaptiveEventsContext.tsx:16 | two consumes in a row return the value, then nothing |
| Prepopulation.EntryValue | contexts/PrepopulationContext.tsx:22 | `locked` is true unless the entry says `false` explicitly; value and source are copied |
| Prepopulation.BulkUntouched | contexts/PrepopulationContext.tsx:19-25 | a key that no entry names keeps its value |
| Prepopulation.BulkLastWins | contexts/PrepopulationContext.tsx:22 | a key ends with the value of its last entry |
| Prepopulation.BulkKeepsUnique | contexts/PrepopulationContext.tsx:21-22 | the table keeps one entry per key |
| Prepopulation.Prepop.constructor | contexts/PrepopulationContext.tsx:15 | the table starts empty |
| Prepopulation.Prepop.SetPrepop | contexts/PrepopulationContext.tsx:16-18 | the id maps to {value, locked defaulting to true, source}; other keys are unchanged; the key set gains exactly the id |
| Prepopulation.Prepop.BulkSet | contexts/PrepopulationContext.tsx:19-25 | the loop's table equals `BulkApply` of the entries in order |
| Prepopulation.Prepop.Clear | contexts/PrepopulationContext.tsx:26 | the table is emptied |
| Summarization.OpenAnswers | contexts/SummarizationContext.tsx:23 | the latest (up to 25) non-empty string answers, in ledger order; their number is min(count, 25) |
| Summarization.FirstWordsPrefix | contexts/SummarizationContext.tsx:25 | the quoted first three words are a prefix of the answer |
| Summarization.Themes | contexts/SummarizationContext.tsx:25 | one quote per answer, in order |
| Summarization.MakeSummary | contexts/SummarizationContext.tsx:26 | `sampleSize` is at most 25 and equals the number of open answers taken; the id reads back as `createdAt` |
| Summarization.SummaryTextShape | contexts/SummarizationContext.tsx:25 | with no open answer the text is the fixed notice; otherwise it starts with 'Top themes: ' and ends with the placeholder suffix |
| Summarization.SummaryTextQuotes | contexts/SummarizationContext.tsx:25 | the themes text joins the quotes of the first (up to) three open answers with '; ' |
| Summarization.Summarizer.constructor | contexts/SummarizationContext.tsx:16 | the history starts empty |
| Summarization.Summarizer.Summarize | contexts/SummarizationContext.tsx:19-28 | the new summary is `MakeSummary`, and it is put first in the history |
| Summarization.Summarizer.Clear | contexts/SummarizationContext.tsx:34 | the history is emptied |
| Channels.DisplayTitle | utils/channelTransformers.ts:19-46 | locale `hi` with a truthy `hiTitle` shows `hiTitle`; locale `en` and a falsy `hiTitle` both show the title; no other text is shown |
| Channels.Prefix | utils/channelTransformers.ts:22-33 | `slice(0, n)`: min(length, n) elements, from the front |
| Channels.Buttons | utils/channelTransformers.ts:22 | at most 3 buttons; button i has id `<id>_<i>` and the option cut to 20 characters |
| Channels.ToWhatsApp | utils/channelTransformers.ts:19-26 | exactly one message with the display title; interactive with the buttons iff radio or dropdown with options, otherwise plain text |
| Channels.ButtonIdsDistinct | utils/channelTransformers.ts:22 | different button positions get different ids |
| Channels.DtmfOptions | utils/channelTransformers.ts:33 | at most 9 options; digit i+1 carries option i, in order |
| Channels.DtmfDigits | utils/channelTransformers.ts:33 | each digit is the decimal text of its position plus one: one character, never '0' |
| Channels.ToIvr | utils/channelTransformers.ts:30-37 | a female voice with the display title; DTMF options iff radio or dropdown with options |
| Channels.ToWebForm | utils/channelTransformers.ts:41-46 | text to textarea without options, checkbox to checkbox group, anything else to select; missing options become []; id and required are copied |
| Channels.TransformForChannel | utils/channelTransformers.ts:48-54 | each channel gets exactly its own builder's payload |
| Channels.ChannelsAgreeOnTitle | utils/channelTransformers.ts:19-46 | all three channels show the same title |
| Channels.HindiOnEveryChannel | utils/channelTransformers.ts:19-46 | under locale `hi` a truthy `hiTitle` is the WhatsApp body, the IVR text and the web-form label |
| Channels.ChoicesKeptInOrder | utils/channelTransformers.ts:22-45 | button i, digit i and the web options all carry option i (cut to 20 for a button) |
| AutoCoding.FirstMatch | utils/autoCoding.ts:12 | the index of the first rule that matches; no earlier rule matches |
| AutoCoding.Classify | utils/autoCoding.ts:10-14 | null iff the text is blank; otherwise the first matching rule's code in table order, else the fallback, always with system 'rule' |
| AutoCoding.FallbackIffNoRule | utils/autoCoding.ts:12-13 | non-blank text is coded SEC_OTHER iff no rule matches |
| AutoCoding.FarmSchoolIsAgriculture | utils/autoCoding.ts:3-12 | 'farm school' matches both the agriculture and education rules, and the earlier one, SEC_AGR, wins |
| AutoCoding.ClassifyIgnoresCase | utils/autoCoding.ts:4-12 | lower-casing the text does not change its code |
| Export.OrUndefined | components/SurveyExportModal.tsx:32 | `x || undefined` keeps a truthy string and drops an empty one |
| Export.ExportQuestion | components/SurveyExportModal.tsx:26-33 | id, type, title, required and options are copied; an empty source is dropped |
| Export.ExportRestore | components/SurveyExportModal.tsx:26-33 | the exported fields give back the question, given its domain and Hindi title |
| Export.ExportRecords | components/SurveyExportModal.tsx:42-46 | each record is projected to {questionId, durationMs, flags}, in order |
| Export.ExportQuestions | components/SurveyExportModal.tsx:26-33 | one export per question, in order |
| Export.MakePayload | components/SurveyExportModal.tsx:18-49 | version 1; the id is 'survey_' plus the time; the title defaults to 'Untitled Survey'; the question count equals the question list; a paradata block is present iff there are records, and it carries the summary's start, completion, total duration, quality, platform, consent time and consent hash unchanged, with the records projected one by one |
| Export.ExportedCounts | components/SurveyExportModal.tsx:42-46 | projecting records for export keeps the number of flagged and of fast records |
| Export.ExportedQualityAgrees | components/SurveyExportModal.tsx:38-46 | for a consistent recorder, the exported quality counters equal the flagged and fast counts of the exported records |
| Export.SkipRun | components/SurveyExportModal.tsx:72 | dropping a run of disallowed characters leaves a suffix that starts with an allowed one |
| Export.Sanitize | components/SurveyExportModal.tsx:72 | the result contains only `[a-z0-9_-]` and is no longer than the input |
| Export.SanitizeClean | components/SurveyExportModal.tsx:72 | a clean name is left unchanged |
| Export.SanitizeIdempotent | components/SurveyExportModal.tsx:72 | sanitising twice is sanitising once |
| Export.SkipWholeRun | components/SurveyExportModal.tsx:72 | the whole maximal run is skipped |
| Export.SanitizeRun | components/SurveyExportModal.tsx:72 | each maximal run of disallowed characters becomes exactly one '_' |
| Export.FileNameShape | components/SurveyExportModal.tsx:72-73 | the name is the sanitised lower-cased title (or 'survey') followed by '.json' |
| Export.CleanTitleFileName | components/SurveyExportModal.tsx:72-73 | a clean non-empty title is used as it is |
| Export.EmptyTitleFileName | components/SurveyExportModal.tsx:72-73 | no title gives 'survey.json' |
| Translate.MockTranslateToHindi | hooks/useTranslateQuestions.ts:5-8 | text that already contains Devanagari is unchanged; other text gets the Hindi marker in front |
| Translate.TranslateIdempotent | hooks/useTranslateQuestions.ts:5-8 | the output always contains Devanagari, so translating twice is translating once |
| Translate.FillHindi | hooks/useTranslateQuestions.ts:19 | a question with a truthy Hindi title is unchanged; otherwise it gets the mock translation of its title |
| Translate.FillHindiIdempotent | hooks/useTranslateQuestions.ts:19 | after the fill, the Hindi title is truthy and the title is unchanged; filling twice is filling once |
| Translate.TranslateAll | hooks/useTranslateQuestions.ts:19 | the store's list becomes the fill mapped over it: titles are kept, every Hindi title is truthy, and uniqueness is preserved |
| Translate.TranslateAllTwice | hooks/useTranslateQuestions.ts:19 | running the bulk fill twice is running it once |
| QuestionBank.FilterBank | hooks/useOfficialQuestionBank.ts:19-22 | every kept question is in the bank and matches the given domain and survey id |
| QuestionBank.FilterBankIsFilter | hooks/useOfficialQuestionBank.ts:20-21 | the two chained filters equal one filter by both tests |
| QuestionBank.FilterBankSpec | hooks/useOfficialQuestionBank.ts:19-22 | the result is a subsequence of the bank, and a bank question is kept iff it matches |
| QuestionBank.NoFilterKeepsBank | hooks/useOfficialQuestionBank.ts:20-21 | with neither domain nor survey id, the whole bank is returned |
| Library.Filtered | components/QuestionLibrary.tsx:55-59 | a question is kept iff its lower-cased title contains the lower-cased query and the category is 'All' or its own |
| Library.FilteredInOrder | components/QuestionLibrary.tsx:55 | the result keeps library order |
| Library.EmptySearchKeepsAll | components/QuestionLibrary.tsx:55-59 | an empty query with 'All' keeps everything |
| Library.SearchIgnoresQueryCase | components/QuestionLibrary.tsx:56 | the query's case does not matter |
| Library.ChipsCoverLibrary | components/QuestionLibrary.tsx:18-53 | 'All' is the first chip, and every library question's category is one of the other chips, which shows it under an empty search |
| Library.HousingChip | components/QuestionLibrary.tsx:18-59 | the 'Housing' chip shows exactly the dwelling question |
| TypeLabel.Label | components/DragDropQuestion.tsx:19-27 | the four known type names get their labels; any other name is shown as it is |
| TypeLabel.LabelsDistinct | components/DragDropQuestion.tsx:19-27 | different question types get different labels |
| Preview.Toggled | components/AIPreviewModal.tsx:16-22 | only index i flips |
| Preview.ToggleTwice | components/AIPreviewModal.tsx:16-22 | two taps restore the selection |
| Preview.AllIndices | components/AIPreviewModal.tsx:14 | exactly the indices 0..n-1 |
| Preview.CommittedCount | components/AIPreviewModal.tsx:45 | the commit holds one draft per selected index in range |
| Preview.CommittedPicks | components/AIPreviewModal.tsx:45 | every committed draft is the draft at some selected index |
| Preview.CommittedAt | components/AIPreviewModal.tsx:45 | every selected draft is committed, at the position counting the selected indices before it |
| Preview.CommitAll | components/AIPreviewModal.tsx:45 | the untouched selection commits the whole draft |
| Preview.Selection.constructor | components/AIPreviewModal.tsx:14 | every index of the draft starts selected |
| Preview.Selection.Toggle | components/AIPreviewModal.tsx:16-22 | the selection becomes `Toggled` |
| Preview.Selection.Commit | components/AIPreviewModal.tsx:45 | the drafts at the selected indices, in draft order, as many as the selected indices in range |
| ConsentForm.Flip | components/ConsentForm.tsx:18-20 | only the tapped box flips |
| ConsentForm.AllGivenIff | components/ConsentForm.tsx:16 | the gate is open iff every box is ticked |
| ConsentForm.FlipTwice | components/ConsentForm.tsx:18-20 | two taps on one box undo each other |
| ConsentForm.TickEachOnce | components/ConsentForm.tsx:10-20 | from the start, one tap on each of the three boxes, in any order, opens the gate |
| ConsentForm.ConsentScreen.constructor | components/ConsentForm.tsx:10-14 | all three boxes start unticked and the gate is closed |
| ConsentForm.ConsentScreen.ToggleConsent | components/ConsentForm.tsx:18-20 | the consents become `Flip` of the old ones |
| ConsentForm.ConsentScreen.Proceed | components/ConsentForm.tsx:104-107 | completion is reported iff all consents are given |
| SurveyQuestion.Validate | components/SurveyQuestion.tsx:32-39 | a response is refused iff the question is required and the response is missing or blank; the error is 'This field is required' exactly when refused |
| SurveyQuestion.BlankLikeMissing | components/SurveyQuestion.tsx:33 | a white-space-only or empty answer is treated as no answer |
| SurveyQuestion.OptionalAlwaysValid | components/SurveyQuestion.tsx:33-38 | a question that is not required accepts anything and clears the error |
| SurveyQuestion.QuestionView.constructor | components/SurveyQuestion.tsx:20 | no error at first |
| SurveyQuestion.QuestionView.ValidateResponse | components/SurveyQuestion.tsx:32-39 | the verdict and the error are those of `Validate` |
| SurveyQuestion.QuestionView.HandleTextResponse | components/SurveyQuestion.tsx:22-25 | the text is forwarded and the error is empty |
| SurveyQuestion.QuestionView.HandleRadioResponse | components/SurveyQuestion.tsx:27-30 | the option is forwarded and the error is empty |
| Builder.Template | components/SurveyBuilder.tsx:39-45 | the title `New <type> question`; not required; options ['Option 1','Option 2'] iff the type is not text |
| Builder.TypeTitlesAgree | components/SurveyBuilder.tsx:31-36 | each type button's title is the label the question cards show for that type |
| Builder.WithoutQuestionSpec | components/SurveyBuilder.tsx:58 | deletion drops the questions with the id and keeps every other question with its multiplicity, in order |
| Builder.SurveyBuilder.constructor | components/SurveyBuilder.tsx:15-29 | the two sample questions |
| Builder.SurveyBuilder.AddQuestion | components/SurveyBuilder.tsx:38-47 | exactly one template question is appended, with the time in decimal as its id |
| Builder.SurveyBuilder.DeleteQuestion | components/SurveyBuilder.tsx:49-62 | 'Cancel' leaves the list unchanged; 'Delete' removes the questions with the id |

## Left out

- Network and foreign services are not modelled, as their behaviour depends on external systems: the AI sector coder (`classifyResponseAI`), the chatbot, OCR, report scraping, the survey fetch script and the environment inspection.
- Clipboard, download dispatch and `JSON.stringify` are platform I/O and library serialisation.
  - The export payload is a datatype, not JSON text.
  - An object answer carries its JSON text as data.
  - The export's `createdAt` ISO text is a parameter.
- Clock, random ids and the platform are parameters. Where the source reads `Date.now()` twice in one call (`completeSurvey`, `summarize`, the export id), the model uses one reading. The `Math.random()` suffix of store ids is part of the fresh id a caller passes.
- React scheduling is not modelled; every operation runs synchronously to completion.
  - The counters of `addQuestion`/`addQuestions` are written inside a `setState` updater that React may run later.
  - `consumeSuggestion` can read a stale closure value.
  - The timers and the `translating`/`loading`/`lastBatch` flags around `translateAll` and `summarize` are left out, since the model has no concurrency.
- The floating-point confidences 0.6 and 0.2 of the rule coder are integer per-cents (60 and 20).
- `toLowerCase` and regex case-insensitivity fold ASCII letters only; Unicode case mapping is not modelled.
- `slice` counts characters, not UTF-16 code units (the preview, the button titles). The consent hash does fold over UTF-16 code units.
- The Devanagari test is a range predicate over the script's Unicode blocks, not a regex engine.
- `Object.values` lists integer-like keys first; the association lists keep plain insertion order for all keys.
- `Platform.Version` is a parameter of type optional string, so a numeric version of `0` is represented as `Some("0")`.
- The question bank is a parameter; loading it from JSON, and the load-error path, are left out.
- The draft selection is not re-initialised when the draft changes; the source does not do so either, and the model starts a `Selection` per draft.
- SurveyStore.Store.ReorderQuestions: requires that `from` names an element. When it does not, the source splices `undefined` into the list, which a list of questions cannot hold.
- SurveyStore.Apply: a patch key set explicitly to `undefined` (which would erase that field) cannot be expressed; a patch field is either absent or a value.
- SurveyQuestion.QuestionView.ValidateResponse: the response is an optional string; a non-string response, on which `trim` would throw, is not modelled.
- Paradata.CloseOnce: needs the closing time to be non-zero, because a record closed at time `0` still looks open to the source's truthiness test.
- Paradata.Recorder: the record objects the source mutates in place and shares between the map and the summary are modelled as values; the aliasing is not captured.
- The screen layout, styles, animations and all presentation-only components and screens are not modelled.
