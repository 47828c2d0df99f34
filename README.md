# Patient UI backend: triage, safety, processing, dashboard and reply cleaning

This project models, in Dafny, the sequential core of a clinical-consultation backend and
proves properties of that model:

- **Triage** (`triage.dfy`, module `Triage`): `TriageService.calculate_urgency`. A
  first-match-wins cascade of case-insensitive keyword tests maps a SOAP note (its section
  texts and risk flags) to an urgency score and a triage category.
- **Drug-interaction safety** (`safety.dfy`, module `Safety`):
  `SafetyService.check_drug_interactions`. It scans a fixed five-entry knowledge base and
  emits one warning per entry whose drug keyword is in the lower-cased plan and whose
  condition keyword is in the lower-cased medical history. The loop is a method proved
  against a pure filter/map `Scan`.
- **Consultation processing** (`processor.dfy`, module `Processor`):
  `process_consultation_flow`. A `Database` class holds the consultation, audio-file and
  SOAP-note tables, the writes staged in the session, and the log of committed batches.
  The method is proved to end in the state that the pure function `Flow` computes from the
  state before the run. The transcriber and the SOAP generator are oracles (`None` stands
  for a raised exception). The stand-in `AssemblyAIMock`/`GeminiMock` services are the
  constant oracles `TranscribeMock`/`GenerateMock`.
- **Dashboard queues** (`dashboard.dfy`, module `Dashboard`): `get_patient_queue` and
  `get_failed_queue`. Each query is an inner join of consultations with patient profiles,
  a WHERE filter and an ORDER BY, modelled as a filter plus an insertion sort proved sorted
  and a permutation. The per-row projection is built by a loop, proved equal to a mapping
  of the query rows.
- **LLM reply cleaning** (`llm.dfy`, module `LlmCleaning`): the parse-or-fallback tail of
  `GeminiService.generate_soap_note`. The reply is stripped and unwrapped from a Markdown
  code fence, then handed to an abstract JSON parser; any failure gives the fixed
  four-key error note.

`textutil.dfy` (module `TextUtil`) defines the Python string operations these use:
`lower` (A-Z and the Kelvin sign), `in` on strings, `startswith`, `strip`, `split` and `split(...)[-1]`.
`models.dfy` (module `Models`) holds the shared records. app/models/base.py is not part of
this model: the record shapes follow how the services read them.

## Model

| member | source | states |
|---|---|---|
| Triage.CalculateUrgency | app/services/triage_service.py:17-45 | the result is one of (95, CRITICAL), (90, CRITICAL), (75, HIGH), (50, MODERATE), (20, LOW), so the score lies in 0..100 |
| Triage.Cascade | app/services/triage_service.py:20-45 | each outcome holds exactly when its tier's test passes and every earlier tier's test fails: flags, then subjective-or-assessment critical text, then subjective high, then subjective moderate, else LOW |
| Triage.ScoreOrdersCategory | app/services/triage_service.py:22-45 | a lower-or-equal score never comes with a higher category |
| Triage.ProfileIgnored | app/services/triage_service.py:5-45 | the result does not depend on the patient profile |
| Triage.MissingFieldsAreEmpty | app/services/triage_service.py:10-14 | a note with no soap_json and no risk_flags, or with an empty dict and an empty list, is (20, LOW) |
| Triage.MissingSectionsAreEmpty | app/services/triage_service.py:11 | a missing soap_json gives the same result as an empty dict, whatever the flags |
| Triage.MissingFlagsAreEmpty | app/services/triage_service.py:10 | missing risk_flags give the same result as an empty list, whatever the sections |
| Triage.MissingKeyIsEmpty | app/services/triage_service.py:13-14 | an absent section key gives the same result as that key holding the empty text |
| Triage.KelvinSignStrokeExample | app/services/triage_service.py:13-28 | subjective text "STRO" + U+212A + "E" lower-cases to "stroke", so the note is (90, CRITICAL) |
| Triage.SubjectiveExtensionNeverLowers | app/services/triage_service.py:26-40 | appending text to the subjective section never lowers the score |
| Triage.ExtraFlagNeverLowers | app/services/triage_service.py:20-23 | adding a risk flag never lowers the score |
| Triage.AssessmentOnlyMattersWhenCritical | app/services/triage_service.py:26-40 | the HIGH and MODERATE tiers read only the subjective text: swapping the assessment for another text without a critical keyword leaves the result unchanged |
| Triage.CaseInsensitive | app/services/triage_service.py:13-14 | notes whose sections and flags lower-case alike give the same result |
| Triage.SeverePainIsHigh | app/services/triage_service.py:31-40 | subjective text with "severe pain" and no critical keyword is (75, HIGH) although it also holds the moderate keyword "pain" |
| Triage.SuicideRiskFlagExample | verify_triage_flow.py:9-15 | a "Suicide Risk" flag gives (95, CRITICAL) whatever the sections say |
| Triage.RoutineFollowUpExample | verify_triage_flow.py:17-24 | "Follow up for blood pressure check. Feel fine." with assessment "Stable HTN" and no flags gives (20, LOW) |
| Safety.WarningKind | app/services/safety_service.py:29 | the type is "CONTRAINDICATION" exactly when the message holds the cross mark, "CAUTION" exactly when it does not |
| Safety.Scan | app/services/safety_service.py:18-24 | at most one warning per table entry, so at most five |
| Safety.CheckDrugInteractions | app/services/safety_service.py:11-35 | the loop's result equals the table scan over the lower-cased plan and the lower-cased history (`or ""`) |
| Safety.ScanMembership | app/services/safety_service.py:26-33 | a warning is present exactly when some entry's drug is in the plan and its condition in the history, and it carries that entry's message, drug and condition verbatim |
| Safety.ScanAppend | app/services/safety_service.py:26-33 | warnings follow table order: scanning a split table scans each part in turn |
| Safety.ScanTwoMatching | app/services/safety_service.py:26-33 | two matching entries at the head of a table give the first two warnings, in order |
| Safety.AspirinUlcerAndBleeding | app/services/safety_service.py:19-20 | no deduplication: an aspirin plan with both "ulcer" and "bleeding" in the history gives both aspirin warnings, ulcer first |
| Safety.Matches | app/services/safety_service.py:27 | an entry fires when its drug is a substring of the plan and its condition a substring of the history (definition) |
| Safety.ToWarning | app/services/safety_service.py:28-33 | the warning record of an entry: its type, message, drug and condition (definition) |
| Safety.NoDrugNoWarning | app/services/safety_service.py:18-27 | a plan naming none of aspirin, penicillin, ibuprofen or beta blocker gets no warning, whatever the history |
| Safety.ScanNoMatch | app/services/safety_service.py:26-27 | no matching entry means no warning |
| Safety.EmptyPlanOrHistory | app/services/safety_service.py:12-14 | a missing plan or a null or empty medical history gives no warning |
| Safety.TableKinds | app/services/safety_service.py:19-23 | the aspirin/ulcer, aspirin/bleeding and penicillin/allergy entries are CONTRAINDICATION; the ibuprofen and beta-blocker entries are CAUTION |
| Safety.AspirinUlcerExample | verify_triage_flow.py:31-38 | "Prescribe Aspirin 81mg daily for heart health." against "History of stomach ulcers." gives exactly the aspirin/ulcer warning, a CONTRAINDICATION |
| Safety.TylenolExample | verify_triage_flow.py:41-45 | "Prescribe Tylenol (Acetaminophen) for pain." gives no warning, whatever the history |
| Models.Section | app/services/triage_service.py:11-14 | `(soap_json or {}).get(key, "")`: a missing dict or key reads as the empty text (definition) |
| Models.Flags | app/services/triage_service.py:10 | `risk_flags or []` (definition) |
| Processor.Run | app/services/consultation_processor.py:33-35 | a commit appends its batch to the commit log |
| Processor.FirstAudio | app/services/consultation_processor.py:38 | the audio file found is the first one of the consultation in table order, and none is found only when the consultation has none |
| Processor.Database.Add | app/services/consultation_processor.py:34 | `session.add` stages a write and changes nothing committed |
| Processor.Database.Commit | app/services/consultation_processor.py:35 | `session.commit` applies the staged writes in order, logs them as one batch and empties the stage |
| Processor.Database.MarkInProgress | app/services/consultation_processor.py:33-35 | setting the status IN_PROGRESS and committing is one logged batch |
| Processor.Database.ProcessConsultationFlow | app/services/consultation_processor.py:25-83 | the run ends in the state `Flow` computes from the state before it, with nothing left staged |
| Processor.Flow | app/services/consultation_processor.py:28-83 | an unknown id leaves the whole state as it was; a known one commits two or three batches after the existing log, which it keeps |
| Processor.AfterMark | app/services/consultation_processor.py:38-83 | after the first status commit the run commits one or two more batches, the last ending with the IN_PROGRESS status write |
| Processor.AfterTranscript | app/services/consultation_processor.py:60-83 | after the transcript commit the run commits exactly one more batch, ending with the IN_PROGRESS status write |
| Processor.UnknownConsultationUntouched | app/services/consultation_processor.py:28-30 | an unknown consultation id changes nothing, not even the commit log |
| Processor.MissingAudio | app/services/consultation_processor.py:33-44 | without an audio file the run commits IN_PROGRESS twice, stores no transcription and creates no note |
| Processor.TranscriptionFails | app/services/consultation_processor.py:46-83 | a failing transcriber leads to the handler's IN_PROGRESS commit and nothing stored |
| Processor.GenerationFails | app/services/consultation_processor.py:48-60 | a failing generator after a committed transcript keeps the transcript and creates no note |
| Processor.SuccessfulRun | app/services/consultation_processor.py:48-75 | on success the first audio file holds the transcript, committed before exactly one note is inserted with the generator's sections and risk value unchanged, confidence 0.95 and generated_by_ai true |
| Processor.AlwaysInProgress | app/services/consultation_processor.py:33-83 | whatever the oracles do, a known consultation ends IN_PROGRESS; other consultations are unchanged; only IN_PROGRESS status writes are committed; two or three batches are logged; at most one note is added, for this consultation |
| Processor.TranscriptBeforeNote | app/services/consultation_processor.py:51-70 | every inserted note comes in a commit after an earlier commit of the run that stored the transcript the note was generated from |
| Processor.RepeatedRunsAddNotes | app/services/consultation_processor.py:63-70 | nothing guards against an existing note: two successful runs insert two notes |
| Processor.FirstAudioDependsOnIds | app/services/consultation_processor.py:38 | the audio lookup reads only the consultation ids, so storing a transcription does not change which file is found |
| Processor.MockRun | app/services/consultation_processor.py:8-22 | with the stand-in services a run stores the fixed transcript and inserts the fixed sections with the risk dict {"flag": "High Pain", "severity": "Medium"} |
| Dashboard.ProfileRows | app/api/v1/dashboard.py:51 | every joined row pairs the consultation with a profile whose user_id is its patient_id |
| Dashboard.JoinRows | app/api/v1/dashboard.py:16-18 | every joined row's consultation is one of the inputs and passes the WHERE clause |
| Dashboard.ProfileRowsComplete | app/api/v1/dashboard.py:51 | every profile of the patient is joined with the consultation |
| Dashboard.JoinMembership | app/api/v1/dashboard.py:16-18 | a pair is in the join exactly when the consultation passes the WHERE clause and the profile's user_id is its patient_id |
| Dashboard.BeforeTotal | app/api/v1/dashboard.py:53 | any two rows are comparable under each ORDER BY |
| Dashboard.BeforeTransitive | app/api/v1/dashboard.py:53 | each ORDER BY is transitive |
| Dashboard.Insert | app/api/v1/dashboard.py:53 | inserting a row adds exactly that row to the multiset of rows |
| Dashboard.Sort | app/api/v1/dashboard.py:53 | sorting is a permutation |
| Dashboard.InsertSorted | app/api/v1/dashboard.py:53 | inserting into a sorted sequence keeps it sorted |
| Dashboard.SortSorted | app/api/v1/dashboard.py:49-54 | the sort's output is ordered by the ORDER BY |
| Dashboard.Keeps | app/api/v1/dashboard.py:15-54 | the WHERE clauses: status COMPLETED for the priority queue, requires_manual_review for the failed queue (definition) |
| Dashboard.Before | app/api/v1/dashboard.py:19-53 | the ORDER BY clauses: urgency_score DESC then created_at ASC, and created_at DESC, with NULL lowest (definition) |
| Dashboard.QueryRows | app/api/v1/dashboard.py:15-55 | the query result is ordered by the ORDER BY and is a permutation of the filtered join |
| Dashboard.QueryMembership | app/api/v1/dashboard.py:49-55 | the priority queue holds exactly the COMPLETED consultations with a matching profile; the failed queue exactly those with requires_manual_review |
| Dashboard.PatientQueueOrder | app/api/v1/dashboard.py:53 | along the priority queue scores never increase, a row without a score follows every scored row, and among equal scores created_at never decreases |
| Dashboard.PatientQueueScoresNonIncreasing | app/api/v1/dashboard.py:53-68 | with no negative score stored, the reported urgency_score (0 for a NULL score) never increases along the queue |
| Dashboard.FailedQueueOrder | app/api/v1/dashboard.py:19 | along the failed queue created_at never increases and rows without one come last |
| Dashboard.WholeMinutes | app/api/v1/dashboard.py:60-63 | `int(seconds / 60)` truncates toward zero: for elapsed time s >= 0 it is the m with 60m <= s < 60m + 60 |
| Dashboard.NatToString | app/api/v1/dashboard.py:30 | decimal text has only digits and no leading zero |
| Dashboard.IntRoundTrip | app/api/v1/dashboard.py:30 | the decimal text of any integer reads back as that integer |
| Dashboard.PatientItem | app/api/v1/dashboard.py:60-72 | the item reports the stored score or 0, the warning count or 0, wait 0 without created_at, otherwise the whole minutes waited |
| Dashboard.FailedItemOf | app/api/v1/dashboard.py:26-38 | the item has status "REQUIRES_REVIEW", the fixed reason, the consultation's id and the patient's full name, and wait "N/A" exactly when created_at is absent |
| Dashboard.FailedWaitTimeReadsBack | app/api/v1/dashboard.py:27-30 | with created_at set, the wait time is "<n> min" where n reads back as the whole minutes waited |
| Dashboard.GetPatientQueue | app/api/v1/dashboard.py:57-74 | one item per result row, in query order, each the row's projection |
| Dashboard.GetFailedQueue | app/api/v1/dashboard.py:23-39 | one item per result row, in query order, each the row's projection |
| Dashboard.PatientItems | app/api/v1/dashboard.py:57-72 | the append loop yields one item per row, in row order, each the row's projection |
| Dashboard.FailedItems | app/api/v1/dashboard.py:23-38 | the append loop yields one item per row, in row order, each the row's projection |
| Dashboard.ExampleQueueOrder | verify_dashboard_features.py:20-73 | completed consultations scored 95, 20 and 75, created 10, 30 and 5 minutes ago, are listed 95, 75, 20, that is CRITICAL, HIGH, LOW |
| LlmCleaning.CleanResponse | app/services/llm_service.py:34-36 | the text handed to the parser is always a contiguous piece of the reply |
| LlmCleaning.GenerateSoapNoteResult | app/services/llm_service.py:32-46 | an unreadable reply or a payload the parser rejects gives the fallback note; otherwise the parsed value |
| LlmCleaning.FallbackShape | app/services/llm_service.py:41-46 | the fallback has exactly the keys subjective, objective, assessment and plan, each "Error generating note" |
| LlmCleaning.UnfencedIsStripped | app/services/llm_service.py:34-35 | a reply that does not open with a fence is parsed as it is, once stripped |
| LlmCleaning.FencedPayload | app/services/llm_service.py:35-36 | a fenced reply is cut to the text after the last "```json" (all of it when there is none) up to the first "```" that starts after that point, then stripped |
| LlmCleaning.FencedPayloadLacksFence | app/services/llm_service.py:36 | the payload of a fenced reply holds no "```" |
| LlmCleaning.UntaggedFenceFallsBack | app/services/llm_service.py:36-46 | a fenced reply without "```json" yields the empty payload and so, with a parser that rejects "", the fallback note |
| LlmCleaning.CleanIdempotent | app/services/llm_service.py:34-36 | cleaning a cleaned payload changes nothing |
| LlmCleaning.FencedReplyExample | app/services/llm_service.py:34-36 | "```json\n{}\n```" is unwrapped to "{}" |
| TextUtil.LowerChar | app/services/triage_service.py:13-14 | A-Z go to a-z, the Kelvin sign to 'k', every other character stays |
| TextUtil.Lower | app/services/triage_service.py:13-14 | lower-casing keeps the length and maps each character on its own |
| TextUtil.LowerIdempotent | app/services/triage_service.py:21 | lower-casing twice is lower-casing once |
| TextUtil.Strip | app/services/llm_service.py:34 | the result is a slice of the input with whitespace only before and after it, and neither starts nor ends with whitespace |
| TextUtil.StripIdempotent | app/services/llm_service.py:34-36 | stripping twice is stripping once |
| TextUtil.Contains | app/services/triage_service.py:21 | Python's `k in s`: `k` occurs in `s` at some index (definition) |
| TextUtil.StartsWith | app/services/llm_service.py:35 | Python's `s.startswith(p)`: `s` begins with `p` (definition) |
| TextUtil.Find | app/services/llm_service.py:36 | the search result is -1 or an index where the separator fits in the text |
| TextUtil.Split | app/services/llm_service.py:36 | `split` always gives at least one piece |
| TextUtil.FindCorrect | app/services/llm_service.py:36 | the search returns the first occurrence, and -1 exactly when there is none |
| TextUtil.SplitJoin | app/services/llm_service.py:36 | joining the pieces of a split with the separator gives back the text |
| TextUtil.SplitFirst | app/services/llm_service.py:36 | the first piece is the text before the first separator, or all of it, and holds no separator |
| TextUtil.SplitLast | app/services/llm_service.py:36 | the last piece is a tail of the text right after an occurrence of the separator (all of the text when there is none) and holds no separator |

## Left out

- TextUtil.Lower: only A-Z and the Kelvin sign U+212A (which Python folds to 'k') are folded. Python also folds other non-ASCII letters, to non-ASCII letters, and turns U+0130 into the two characters 'i' and U+0307, which changes the length. Neither can make or break an occurrence of a keyword, drug or condition here: these are all ASCII and none ends in 'i'.
- `str.strip` uses the whitespace set of `str.isspace`, written out character by character.
- Timestamps are integer seconds and `datetime.utcnow()` is the parameter `now`. The fractional seconds of `total_seconds()` are dropped before `int(x / 60)`, which leaves the truncated minute unchanged for elapsed times of zero or more.
- Dashboard.PatientQueueOrder: SQL does not fix the order of NULL scores or NULL timestamps. The model takes SQLite's order, where NULL is lowest, so NULL comes last under DESC and first under ASC.
- Dashboard.GetPatientQueue, Dashboard.GetFailedQueue: rows that tie on every ORDER BY key may come back in any order from SQL. The failed queue sorts on created_at alone, so all its rows created at the same instant tie. The model fixes one such order, that of its insertion sort.
- TextUtil.SplitLast: for a separator that can overlap itself, such as "```", the contract does not fix which of two overlapping occurrences ends the text before the last piece. It does for "```json", the only separator whose last piece the model takes, which cannot overlap itself.
- Processor.FirstAudio: `.first()` without an ORDER BY returns an unspecified row. The model takes the first one in table order.
- The remote Gemini and AssemblyAI calls, `asyncio.sleep`, and the `print` calls are left out. The transcriber and generator are oracles that may fail.
- LlmCleaning.GenerateSoapNoteResult: `json.loads` is an abstract partial function, and a raising `response.text` is the `None` input.
- A failing `session.commit` is not modelled, nor an exception raised by creating the note row. The oracles are the only sources of failure.
- Authentication, settings, router wiring, and appointment and doctor CRUD are outside this model.
- Consultation ids are strings standing for `str(uuid)`.
- Triage reads `risk_flags` as a sequence of strings. The processor stores the generator's risk value, a dict, in that column; iterating such a dict yields its keys, which the model does not pass to triage.
- The stand-in generator uses capitalised section keys ("Subjective", …). These are stored unchanged, and the lower-case lookups in triage and safety would not find them. The model keeps them as they are.
