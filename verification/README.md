# Empath-EMI backend core in Dafny

Empath-EMI is a loan-collection assistant. Managers upload borrowers from spreadsheets. Borrowers chat
with their manager, and each borrower message is scored by keyword rules, a weighted behavioural score
and an optional machine-learning classifier. The system then answers automatically, either with an
empathetic reply or with two restructured repayment plans ("Plan A" and "Plan B"), and it tracks EMI
(equated monthly instalment) recommendations through Pending, Accepted, Rejected and Superseded.

This project models the deterministic core of that backend and proves properties about it:

- `PredictRisk` (`predict_risk.dfy`): the inference script. It covers input resolution, outcome
  selection, confidence extraction and artifact-load failures. The vectorizer and the two classifiers
  are abstract functions.
- `AiService` (`ai_service.dfy`): keyword sentiment, the EMI suggestion table, the lenient Plan B,
  the templated reply and the rule-based risk level.
- `BehavioralScoring` (`behavioral_scoring.dfy`): the severity scan over issue categories, the clamped
  communication and financial scores, the ML score mapping, the weighted composite, the stress
  thresholds and the willingness priority. The loops of the source are methods proved against
  specification functions.
- `AiChatService` (`ai_chat_service.dfy`): the opening message, plan-request detection, plan generation,
  the plan reply and follow-ups.
- `RiskSync` and `AutoAssignment` (`risk_sync.dfy`, `auto_assignment.dfy`): the stress-to-risk table
  and the regional field-executive assignment, which updates a borrower document in place.
- `Scheduler` (`scheduler.dfy`): the daily overdue job. It is a loop over an array of borrower records
  that rewrites stale records in place and counts the writes.
- `EmiController` (`emi_controller.dfy`): the recommendation lifecycle over the recommendation store.
  This covers suggestion, creation, accept/reject with the automatic Plan B, the latest recommendation
  and restore-Plan-A.
- `BorrowerController` (`borrower_controller.dfy`): spreadsheet upload, the field-executive risk gate,
  the automatic plan on a risk update, and pagination. The upload part covers header normalisation,
  `getValue`, required fields, date parsing with its caught failure, the overdue clamp and the
  schema filtering of the insert.
- `MessageController` (`message_controller.dfy`): `sendMessage` and `getConversation`. For
  `sendMessage` this covers validation, sentiment, the behavioural update, the plan trigger, the
  two-hour throttle and the stored replies. For `getConversation` it covers the conversation query,
  the automatic outreach message and message normalisation. `getChatPartners` is also modelled.
- Shared modules:
  - `Schema` (`schema.dfy`): the enumerations and records of the Mongoose models, and a `Database`
    class whose collections the controllers update.
  - `Text` (`text.dfy`): JavaScript and Python string operations.
  - `JsMath` (`jsmath.dfy`): `Math.round`, `Math.ceil` and clamping.
  - `Http` (`http.dfy`): responses.
  - `Wrappers` (`wrappers.dfy`): `Option`.

Modelling conventions:

- **Dates.** Dates are integer day numbers (scheduler, upload). Creation times are integer
  milliseconds (chat, recommendations). Stored records have creation times that never decrease
  along the store. Sorts on `createdAt` read the store in its order, and ties go to insertion order.
- **Numbers.** Floating-point arithmetic is modelled over reals, and `Math.round` rounds half up.
- **Parameters.** The following are parameters of the model:
  - the machine-learning result;
  - `json.loads`;
  - date parsing;
  - amount formatting (`toLocaleString`);
  - the field-executive lookup by city;
  - the Borrower schema's e-mail pattern and its checks on fields the upload model does not keep;
  - the loan ids and e-mail addresses already stored;
  - the "any manager" lookup;
  - the clock.
- **Errors.** Errors a handler passes to `next(error)` become the `Forwarded` response.
- **Saves.** An update query (`findByIdAndUpdate`) writes without the enumeration validators. A
  document `save()` validates every path, so it rejects a borrower whose plan status is 'superseded'.
  Only an update query can store that status, by copying a Superseded recommendation status.

## Model

| member | source | states |
|---|---|---|
| PredictRisk.Join | backend/predict_risk.py:23-26 | the artifact path ends with the file name and is longer than it when a base directory is given |
| PredictRisk.LoadError | backend/predict_risk.py:10-19 | a missing file gives "Error: Model file … not found"; any other load failure gives "Error loading …: reason" |
| PredictRisk.Max | backend/predict_risk.py:56 | the maximum of a non-empty probability row is an element of the row and bounds every element |
| PredictRisk.First | backend/predict_risk.py:49-50 | `[0]` succeeds exactly on a non-empty prediction array and yields its first label; an earlier exception propagates |
| PredictRisk.Confidence | backend/predict_risk.py:53-56 | without `predict_proba` the confidence is 0.0; otherwise a successful confidence is the maximum of the first probability row |
| PredictRisk.ResolveText | backend/predict_risk.py:35-39 | non-JSON input is stripped; a JSON object gives its `text` field verbatim or ""; any other JSON value raises the "no attribute 'get'" error |
| PredictRisk.Classify | backend/predict_risk.py:45-62 | a success has exactly the three keys; both labels are the first predictions of the two models on the same single vectorised row, and the confidence is `Confidence` on that row |
| PredictRisk.Respond | backend/predict_risk.py:41-43 | the result is the "No text provided" object exactly when the resolved text is falsy |
| PredictRisk.Run | backend/predict_risk.py:21-68 | a load failure exits 1 with a standard-error line; empty input prints nothing; a printed object has exit status 1 exactly when it is an exception error |
| PredictRisk.LoadFailureIgnoresInput | backend/predict_risk.py:23-30 | all three loads precede reading input: a load failure gives the same outcome for every input, and the first failing file in load order (vectorizer, risk model, action model) is the one reported |
| PredictRisk.NoTextIgnoresModels | backend/predict_risk.py:41-43 | a falsy text prints `{"error": "No text provided"}` with exit 0 whatever the vectorizer and classifiers are |
| PredictRisk.RawInputIsStripped | backend/predict_risk.py:38-39 | non-JSON input surrounded by white space resolves to the text without that white space |
| PredictRisk.JsonBlankTextIsClassified | backend/predict_risk.py:36-41 | `{"text": "   "}` is classified, not rejected |
| PredictRisk.JsonArrayFails | backend/predict_risk.py:35-37 | a top-level JSON array prints the "'list' object has no attribute 'get'" error with exit status 1 |
| PredictRisk.ConfidenceRange | backend/predict_risk.py:53-56 | the confidence is exactly 0.0 without `predict_proba` and lies in [0, 1] when the first probability row does |
| AiService.AnalyzeSentiment | backend/services/aiService.js:12-31 | High iff a high-stress keyword occurs in the lower-cased text; Moderate iff no high but a moderate keyword; Low iff only a low keyword; the score is the label's score |
| AiService.SentimentScoreInjective | backend/services/aiService.js:16-30 | the four scores 85/55/25/0 determine the label |
| AiService.AnalyzeSentimentIgnoresCase | backend/services/aiService.js:13 | sentiment of the lower-cased text equals sentiment of the text |
| AiService.GenerateEMISuggestion | backend/services/aiService.js:39-75 | installment `round(loan/12 · factor)` with 0.55/0.75/0.90 for the table levels and 1 otherwise; tenure and grace 9/21 for HIGH and CRITICAL, 6/14 for MODERATE, 3/7 for NORMAL and 0/0 for any other label |
| AiService.GenerateLenientEMISuggestion | backend/services/aiService.js:82-90 | installment `round(loan/12 · 0.45)`, tenure 12, grace 30, marked as Plan B |
| AiService.SuggestionOrderedByRisk | backend/services/aiService.js:48-72 | for a loan ≥ 0, installments are ordered HIGH ≤ MODERATE ≤ NORMAL ≤ default and tenure and grace the opposite way; CRITICAL equals HIGH |
| AiService.LenientIsMostLenient | backend/services/aiService.js:82-90 | the lenient installment is no larger than any table installment, and its tenure and grace are strictly longer |
| AiService.ReplyKindFor | backend/services/aiService.js:105-126 | a distress body iff High sentiment or pressure words; among them job iff a job word, medical iff a medical word and no job word, pressure iff a pressure word and neither; otherwise the Moderate, Low or default body by sentiment |
| AiService.AIReplyLayout | backend/services/aiService.js:99-129 | the reply is "Hello {name}," then a blank line then the chosen body, for any name |
| AiService.GenerateAIReply | backend/services/aiService.js:99-129 | the reply text: greeting, blank line, the body `ReplyKindFor` picks (its layout is stated by `AIReplyLayout`) |
| AiService.RuleRiskLevel | backend/services/aiService.js:152-185 | CRITICAL iff a refusal phrase without willingness and High sentiment; PENDING iff no sentiment label and none of the job, medical, pressure or will-pay words |
| AiService.AnalyzeRiskLevel | backend/services/aiService.js:137-186 | an ML severity 'High' gives HIGH_RISK; otherwise an ML action 'LegalAction' gives CRITICAL_RISK |
| AiService.MlOverrideIgnoresMessage | backend/services/aiService.js:159-162 | an overriding ML result decides the level whatever the message, sentiment and willingness |
| AiService.CriticalNeedsRefusalAndHighSentiment | backend/services/aiService.js:164-185 | without an override, CRITICAL needs High sentiment and a refusal phrase, and PENDING needs Unknown sentiment and no will-pay or pressure words |
| AiService.CantPayIsCritical | backend/services/aiService.js:156-167 | a message containing "can't pay" has High sentiment and, without ML, is CRITICAL_RISK for callers that pass no willingness |
| BehavioralScoring.FormatIssueName | backend/services/behavioralScoring.js:281-293 | the generic name is returned exactly for an unknown issue key |
| BehavioralScoring.ScanIsFirstMaximum | backend/services/behavioralScoring.js:103-113 | the scan ends at the maximum severity of the matched categories (never below the start), named by the first category that reaches it |
| BehavioralScoring.ScanRange | backend/services/behavioralScoring.js:103-113 | starting from the baseline, the scanned severity stays within the category bounds, and the generic issue remains iff no category matches |
| BehavioralScoring.CategoriesWellFormed | backend/services/behavioralScoring.js:91-100 | every issue category has a severity above the baseline 30 and at most 95, and a specific name |
| BehavioralScoring.MessageAnalysis | backend/services/behavioralScoring.js:79-130 | an empty message scores 0; any other message scores within [30, 95] |
| BehavioralScoring.AnalyzeMessage | backend/services/behavioralScoring.js:79-130 | the loop with its running maximum computes `MessageAnalysis` |
| BehavioralScoring.MessageIssue | backend/services/behavioralScoring.js:103-128 | the primary issue is generic iff no category matches, otherwise a matched category's name; hasRefusal iff "can't pay" or "won't pay" occurs |
| BehavioralScoring.CommunicationScoreOf | backend/services/behavioralScoring.js:135-158 | the communication score lies in [0, 100] |
| BehavioralScoring.AnalyzeCommunicationPattern | backend/services/behavioralScoring.js:135-158 | the step-by-step score equals `CommunicationScoreOf` with `daysPastDue || overdueDays`, within [0, 100] |
| BehavioralScoring.CommunicationMonotoneInDpd | backend/services/behavioralScoring.js:146-151 | more days past due never lowers the score; a dpd of exactly 7 gets no adjustment, 6 gets −10 and 8 gets +10 |
| BehavioralScoring.FinancialScoreOf | backend/services/behavioralScoring.js:163-204 | the financial score lies in [0, 100] |
| BehavioralScoring.AnalyzeFinancialIndicators | backend/services/behavioralScoring.js:163-204 | the accumulated score equals `FinancialScoreOf`, within [0, 100], with the overdue flag copied |
| BehavioralScoring.FinancialMonotone | backend/services/behavioralScoring.js:189-196 | being overdue or more days past due never lowers the financial score |
| BehavioralScoring.MlPrediction | backend/services/behavioralScoring.js:209-256 | the ML score lies in [25, 95] and is marked ML exactly when a non-empty severity came back |
| BehavioralScoring.StressMonotone | backend/services/behavioralScoring.js:261-266 | a higher composite never gives a lower stress level |
| BehavioralScoring.DetermineStressLevel | backend/services/behavioralScoring.js:261-266 | Critical from 90, High from 70, Moderate from 40, Low below |
| BehavioralScoring.DetermineWillingness | backend/services/behavioralScoring.js:271-276 | Will Pay iff willingness shown; Refusal iff not and a refusal; Struggling iff neither and overdue with a financial score above 70; never Unknown |
| BehavioralScoring.CompositeRange | backend/services/behavioralScoring.js:49-54 | the weights sum to one: the composite of scores in [0, 100] lies in [0, 100], and equal scores give that score |
| BehavioralScoring.RoundedScoreAndStressDisagree | backend/services/behavioralScoring.js:49-63 | a composite of 89.5 is reported as 90 with stress High, because the stress uses the unrounded value |
| BehavioralScoring.CalculateComprehensiveScore | backend/services/behavioralScoring.js:17-74 | the method computes the comprehensive result of the specification function |
| BehavioralScoring.ComprehensiveScore | backend/services/behavioralScoring.js:17-74 | the comprehensive result the method is proved to compute |
| BehavioralScoring.StressAgreesWithRounding | backend/services/behavioralScoring.js:56-63 | Critical stress implies a reported score ≥ 90 and Low stress a reported score ≤ 40; the stress is never Unknown |
| BehavioralScoring.ComprehensiveProperties | backend/services/behavioralScoring.js:17-74 | an empty message gives the fixed result (score 0, Low, Unknown willingness); otherwise the score is in [0, 100], the stress is not Unknown and the willingness not Unknown |
| AiChatService.TemplateIndex | backend/services/aiChatService.js:18-20 | template 1 iff overdue > 60, template 2 iff 30 < overdue ≤ 60, template 0 otherwise |
| AiChatService.EmiText | backend/services/aiChatService.js:12 | a missing EMI amount shows as "N/A", and the shown text is never empty |
| AiChatService.InitialMessageSalutations | backend/services/aiChatService.js:6-23 | the opening starts "Hello {name}" up to 30 days overdue, "Hi {name}" up to 60, "Dear {name}" beyond |
| AiChatService.GenerateInitialMessage | backend/services/aiChatService.js:6-23 | the opening message: the salutation and template of the overdue bucket, addressed to the customer |
| AiChatService.AgainIsAPlanRequest | backend/services/aiChatService.js:93 | a message containing "again" in any case is a plan request |
| AiChatService.PlanWithActionIsRequest | backend/services/aiChatService.js:98-101 | "plan" together with any one request verb is a plan request |
| AiChatService.WhatExplanationIsAPlanRequest | backend/services/aiChatService.js:98-101 | "plan" is matched inside other words, so "what explanation" is a plan request |
| AiChatService.DetectPlanRequest | backend/services/aiChatService.js:89-102 | a plan request iff the lower-cased message holds a listed phrase, or "plan" and a request verb |
| AiChatService.PlanBNoDearer | backend/services/aiChatService.js:154-164 | for a non-negative current EMI, Plan B's rounded installment is non-negative and no dearer than Plan A's |
| AiChatService.GenerateEMIPlans | backend/services/aiChatService.js:141-173 | Plan A pays `round(current · relief · 1.2)` and Plan B `round(current · relief)` with `current = emiAmount \|\| 5% of the loan`; Plan A has the stress tenure and grace, Plan B 6 months and 10 days more; both total `outstandingBalance \|\| loanAmount`; waivers 0/2 and 2/5 switch at overdue > 45; Plan B is no dearer |
| AiChatService.StressReliefTable | backend/services/aiChatService.js:148-170 | the full stress table: High 0.45 with 12 months and 30 days (Plan B 18 and 40), Moderate 0.65 with 8 and 15 (14 and 25), any other level 0.80 with 4 and 7 (10 and 17) |
| AiChatService.CriticalGetsLeastRelief | backend/services/aiChatService.js:148-150 | Critical stress gets the same plans as Low; High gets installments no larger than Moderate, and Critical a shorter Plan B tenure than High |
| AiChatService.EmpathyFor | backend/services/aiChatService.js:110-118 | the opener is chosen High > Moderate > willingness > default |
| AiChatService.WaiverLine | backend/services/aiChatService.js:127 | the waiver line is empty exactly when the plan has no waiver |
| AiChatService.PlanBlockEndsWithWaiver | backend/services/aiChatService.js:123-133 | a plan's block ends with its waiver line, and equals its plain lines when there is no waiver |
| AiChatService.ResponseWithPlansLayout | backend/services/aiChatService.js:105-138 | the reply starts with a new line and the opener for the analysis, and contains Plan A's block and Plan B's block |
| AiChatService.GenerateResponseWithPlans | backend/services/aiChatService.js:105-138 | the plan reply: a new line, the empathy opener, then both plan blocks |
| AiChatService.FollowUpBucket | backend/services/aiChatService.js:179-185 | bucket 0 iff at most 3 days, 1 iff 3 < days ≤ 7, 2 otherwise |
| AiChatService.FollowUpSalutations | backend/services/aiChatService.js:176-186 | the follow-up starts with its bucket's salutation ("Hi", "Dear", "Hello") and the customer's name |
| AiChatService.GenerateFollowUpMessage | backend/services/aiChatService.js:176-186 | the follow-up: the bucket's salutation, the customer's name and the bucket's text |
| RiskSync.RiskForStress | backend/utils/riskSync.js:5-13 | Low, Moderate, High and Critical map to NORMAL, MODERATE, HIGH and CRITICAL_RISK, each iff; every other label gives PENDING |
| RiskSync.StressLabelsMapInOrder | backend/utils/riskSync.js:5-13 | a stress level maps to an elevated risk iff it is High or Critical, and to PENDING iff it is Unknown |
| RiskSync.SyncRiskLevelWithStress | backend/utils/riskSync.js:4-21 | the result depends on the stress label only; the borrower is passed to the regional assignment exactly when given and the result is elevated, otherwise unchanged |
| AutoAssignment.FirstCityIn | backend/utils/autoAssignment.js:22-25 | the match is the first city in list order whose lower-cased name occurs in the address, and none iff no city occurs |
| AutoAssignment.MatchCity | backend/utils/autoAssignment.js:16-25 | a matched city is an operational city contained case-insensitively in the address; none iff no operational city is |
| AutoAssignment.MatchCityIgnoresCase | backend/utils/autoAssignment.js:22 | the matched city does not depend on the address's case |
| AutoAssignment.AssignmentFor | backend/utils/autoAssignment.js:8-44 | no address or no matched city gives no executive; an address with a matched city gives exactly the executive `findByLocation` returns for that city; an executive implies an address with a matched city |
| AutoAssignment.AssignmentReadsOnlyAddress | backend/utils/autoAssignment.js:10-33 | two borrowers with the same address get the same assignment |
| AutoAssignment.AssignRegionalExecutive | backend/utils/autoAssignment.js:8-46 | returns the executive for the matched city; the borrower's field executive is set exactly when one is found, and nothing else changes |
| Scheduler.OverdueDays | backend/services/scheduler.js:89-92 | days overdue are positive iff today is past the due date, and then equal the difference |
| Scheduler.NeedsUpdate | backend/services/scheduler.js:95 | a borrower is written iff it has a due date and a stale `overdueDays` or `isOverdue` |
| Scheduler.Refreshed | backend/services/scheduler.js:86-98 | a borrower is unchanged iff it needs no write; with a due date the result is current and isOverdue iff overdueDays > 0 |
| Scheduler.RefreshedKeepsOtherFields | backend/services/scheduler.js:96-98 | only `overdueDays` and `isOverdue` are written |
| Scheduler.DailyUpdate | backend/services/scheduler.js:85-101 | the collection after the job is each borrower refreshed, in place |
| Scheduler.CountChanged | backend/services/scheduler.js:95-100 | the number of writes is at most the number of borrowers |
| Scheduler.CountZeroIffNoneStale | backend/services/scheduler.js:95-100 | zero writes iff no borrower needs a write |
| Scheduler.PerformDailyUpdate | backend/services/scheduler.js:78-108 | the array after the loop is `DailyUpdate` of the array before, and the count returned is the number of stale borrowers |
| Scheduler.DailyUpdateIdempotent | backend/services/scheduler.js:95 | a second run on the same day changes nothing and writes nothing |
| Scheduler.NoWritesIffUnchanged | backend/services/scheduler.js:95-103 | the job reports zero writes exactly when the collection is left as it was |
| EmiController.IndexOfId | backend/controllers/emiController.js:64 | `findById` finds a record with the id, or none iff no record has it |
| EmiController.FirstWhere | backend/controllers/emiController.js:152-155 | `findOne`: the first record in store order that matches, none iff none matches |
| EmiController.LastWhere | backend/controllers/emiController.js:159-160 | `findOne` after `sort({createdAt: -1})`: the last matching record in store order, none iff none matches |
| EmiController.LatestFor | backend/controllers/emiController.js:180-181 | the borrower's newest record: later records belong to other borrowers, none iff the borrower has no records |
| EmiController.LatestHasGreatestCreationTime | backend/controllers/emiController.js:159-160 | in an ordered store the newest record has the greatest creation time among the borrower's records |
| EmiController.PlanBLabelIsRevised | backend/controllers/emiController.js:123 | the Plan B label contains "Auto-Revised" |
| EmiController.IsRestorable | backend/controllers/emiController.js:180-183 | restore-Plan-A proceeds iff the borrower's newest record carries the "Auto-Revised" marker |
| EmiController.EarliestNonRevised | backend/controllers/emiController.js:195-199 | the oldest other record of the borrower without "Auto-Revised", or none iff there is no such record |
| EmiController.LatestRecommendation | backend/controllers/emiController.js:152-161 | a Pending record of the borrower when one exists; otherwise exactly the borrower's newest record (`LatestFor`); none iff it has no records |
| EmiController.LatestRecommendationIsNewest | backend/controllers/emiController.js:158-160 | without a Pending record, in an ordered store, the answer has the greatest creation time of all the borrower's records |
| EmiController.GetLatestRecommendation | backend/controllers/emiController.js:148-170 | answers 200 with `LatestRecommendation`: the Pending record, else the newest record, else null |
| EmiController.SuggestionFor | backend/controllers/emiController.js:17 | 'High'/'Moderate' are not table levels, so every borrower gets `round(loan/12)`, tenure 0, grace 0 |
| EmiController.GetEMISuggestion | backend/controllers/emiController.js:8-26 | 404 for an unknown borrower; otherwise 200 with the unreduced suggestion |
| EmiController.WithPlanStatus | backend/controllers/emiController.js:46 | only the named borrower's plan status changes, and nothing changes for an unknown id |
| EmiController.WithPlanStatusTwice | backend/controllers/emiController.js:112-133 | a second plan-status write to the same borrower overrides the first |
| EmiController.PassesValidation | backend/models/EMIRecommendation.js:14-21 | the schema's required checks: a suggested EMI and a non-empty risk level |
| EmiController.SetPlanStatus | backend/controllers/emiController.js:46 | the borrowers become `WithPlanStatus`; recommendations and messages unchanged |
| EmiController.CreateRecommendation | backend/controllers/emiController.js:31-55 | a valid body appends exactly one Pending record and sets the borrower's plan to pending; an invalid body fails and changes nothing |
| EmiController.PlanStatusIsLowerCasedStatus | backend/controllers/emiController.js:73-75 | the borrower's plan status is the lower-cased recommendation status, and distinct statuses stay distinct |
| EmiController.DecisionText | backend/controllers/emiController.js:86-88 | the acceptance text for Accepted, the rejection text for any other status |
| EmiController.DecisionMessage | backend/controllers/emiController.js:81-100 | plan_accepted iff the status is Accepted, plan_rejected otherwise; an automated manager message to the record's borrower and manager |
| EmiController.PlanBDraft | backend/controllers/emiController.js:115-128 | a Pending 'High (Auto-Revised)' record for the same borrower and manager with the lenient values |
| EmiController.AddPlanB | backend/controllers/emiController.js:112-134 | appends the Plan B as the borrower's newest record, which makes the borrower restorable, and puts the plan status back to pending |
| EmiController.RecordDecision | backend/controllers/emiController.js:69-100 | sets the status, copies it lower-cased to the borrower and appends the decision message |
| EmiController.ApplyDecision | backend/controllers/emiController.js:69-134 | the decision; exactly 'Rejected' of a known borrower also appends a Plan B and resets the borrower to pending |
| EmiController.UpdateRecommendationStatus | backend/controllers/emiController.js:60-143 | an unknown id answers 404 and an invalid status fails, both changing nothing; otherwise 200 with the updated record and the state of `ApplyDecision` |
| EmiController.RestorePlanA | backend/controllers/emiController.js:175-223 | without a Plan B on top, 400 and nothing changes; otherwise the Plan B is Superseded, and either 404 (the supersession persists) or the earliest non-revised record is Pending again and is what `getLatestRecommendation` returns |
| BorrowerController.NormalizeKeyShape | backend/controllers/borrowerController.js:65 | a normalised key has no surrounding white space, no capitals, and single spaces between words |
| BorrowerController.NormalizeKeyIdempotent | backend/controllers/borrowerController.js:65-73 | normalising a normalised key changes nothing |
| BorrowerController.NormalizeKey | backend/controllers/borrowerController.js:65 | a header's normal form: trimmed, lower-cased, white-space runs collapsed |
| BorrowerController.Assign | backend/controllers/borrowerController.js:63-67 | the row has a key exactly for each normalised header |
| BorrowerController.AssignLastWins | backend/controllers/borrowerController.js:64-66 | when several headers normalise to the same key, the last one's cell is kept |
| BorrowerController.BuildRow | backend/controllers/borrowerController.js:62-67 | the loop over the keys builds the normalised row |
| BorrowerController.NormalizeRow | backend/controllers/borrowerController.js:62-67 | the normalised row object |
| BorrowerController.IsPresent | backend/controllers/borrowerController.js:74 | a cell is present iff it is not undefined, null or '' |
| BorrowerController.FirstPresent | backend/controllers/borrowerController.js:72-78 | the first key, in list order, whose cell is not undefined, null or '', and none iff there is none |
| BorrowerController.GetValue | backend/controllers/borrowerController.js:71-79 | the cell of the first candidate header present in the row; null iff no candidate is present |
| BorrowerController.ReadFields | backend/controllers/borrowerController.js:81-135 | each field is `getValue` of its own header list; the loan id is the text of a truthy cell, the phone `DigitsOnly` of the text of a truthy cell, the amount `parseFloat` of the cell |
| BorrowerController.CellText | backend/controllers/borrowerController.js:83-86 | `String(value)` of a cell |
| BorrowerController.RequiredAt | backend/controllers/borrowerController.js:138-144 | the required fields are ranked 0 to 5 in the order they are checked |
| BorrowerController.MissingFrom | backend/controllers/borrowerController.js:138-144 | exactly the missing fields from a rank on, in strictly increasing rank |
| BorrowerController.IsMissing | backend/controllers/borrowerController.js:139-144 | a required field fails iff it is falsy, the amount iff it is NaN |
| BorrowerController.MissingFields | backend/controllers/borrowerController.js:138-144 | exactly the missing required fields, in the fixed order Name, Loan ID/Number, Phone, Amount/Principal, Due Date, Email |
| BorrowerController.Labels | backend/controllers/borrowerController.js:139-144 | each missing field is reported by its label, in order |
| BorrowerController.UploadOverdueDays | backend/controllers/borrowerController.js:170-172 | an invalid date gives 0; otherwise the days are positive iff today is past the due date |
| BorrowerController.UploadAgreesWithDailyJob | backend/controllers/borrowerController.js:170-172 | the upload and the daily job compute the same days overdue for a valid date |
| BorrowerController.ParseDateCell | backend/controllers/borrowerController.js:151-167 | a number goes through `parse_date_code`, whose null is the throwing case; any other cell through `new Date`, whose failure is an Invalid Date |
| BorrowerController.RowFrom | backend/controllers/borrowerController.js:137-194 | skipped iff a field is missing (the "Row {i+2}: Missing …" line) or, failing that, a date parse throws (the caught TypeError's line); otherwise every field is copied, the dates parsed, the phone non-empty, and isOverdue iff overdueDays > 0 |
| BorrowerController.ParseRow | backend/controllers/borrowerController.js:60-195 | the row's outcome: normalisation, reading, validation, and the caught exception |
| BorrowerController.ProcessRow | backend/controllers/borrowerController.js:60-195 | the outcome of one raw row that `ParseRow` is proved to compute |
| BorrowerController.ParseFields | backend/controllers/borrowerController.js:137-194 | the step-by-step validation and date parsing of a row, with its `catch`, computes `RowFrom` |
| BorrowerController.ParsedOf | backend/controllers/borrowerController.js:174-191 | every collected borrower comes from a row that parsed, and there are no more of them than rows |
| BorrowerController.ErrorsOf | backend/controllers/borrowerController.js:146-147 | each row gives either a borrower or an error line, never both |
| BorrowerController.AppendOutcome | backend/controllers/borrowerController.js:59-195 | one more row adds its borrower or its error line, at the end, to the lists so far |
| BorrowerController.ParsedNoneIffAllSkipped | backend/controllers/borrowerController.js:197 | no borrower is parsed iff every row is skipped |
| BorrowerController.ParseRows | backend/controllers/borrowerController.js:59-195 | the loop collects exactly the parsed borrowers and the error lines, in row order |
| BorrowerController.FirstNonEmptySheet | backend/controllers/borrowerController.js:33-41 | the rows of the first sheet that has any; none iff every sheet is empty |
| BorrowerController.SchemaAccepts | backend/models/Borrower.js:5-50 | the Borrower schema's checks: non-blank name and loan id, the phone pattern, a non-negative amount, valid dates, the e-mail pattern |
| BorrowerController.Validated | backend/controllers/borrowerController.js:216 | `insertMany` with `ordered: false` keeps exactly the documents that pass the schema, in order |
| BorrowerController.DuplicateKey | backend/models/Borrower.js:11-35 | a unique index breaks iff a loan id or e-mail is already stored or shared by two documents |
| BorrowerController.InsertOutcome | backend/controllers/borrowerController.js:215-234 | a duplicate key passes the error on; otherwise 201 with exactly the documents the schema accepts |
| BorrowerController.LeadingZeroPhoneNotInserted | backend/models/Borrower.js:36-40 | a parsed row whose phone starts with 0 is never in the 201 answer |
| BorrowerController.FirstErrors | backend/controllers/borrowerController.js:209 | the 400 details are the first five error lines |
| BorrowerController.UploadBorrowers | backend/controllers/borrowerController.js:14-242 | 400 without a file or without rows; 400 with the first five error lines without one valid row; otherwise the insert's answer (201 with the documents the schema accepts, or the duplicate-key error passed on) with every error line |
| BorrowerController.AssignFieldExecutive | backend/controllers/borrowerController.js:493-523 | only a HIGH_RISK or CRITICAL_RISK borrower gets the field executive; 404 or 400 otherwise, changing nothing; the save of a borrower whose stored plan status is 'superseded' is rejected and passed on, changing nothing, so 200 comes exactly for an elevated borrower with a plan status inside the schema |
| BorrowerController.AutoPlanDraft | backend/controllers/borrowerController.js:437-448 | a Pending record with the body's level and the suggestion for the loan and that level |
| BorrowerController.AutoPlanGrantsRelief | backend/controllers/borrowerController.js:429-448 | a triggering level always yields a plan with a positive extension and grace |
| BorrowerController.HasPendingPlan | backend/controllers/borrowerController.js:431-436 | the borrower has a Pending recommendation |
| BorrowerController.UpdateBorrowerRisk | backend/controllers/borrowerController.js:410-463 | an invalid level fails and an unknown borrower answers 404, both changing nothing; a HIGH, CRITICAL or MODERATE level adds one Pending plan and sets the plan status to pending exactly when the borrower has no Pending plan |
| BorrowerController.Pages | backend/controllers/borrowerController.js:314 | a zero limit has no finite page count; otherwise the pages are the least number covering the total, 0 iff the total is 0 |
| BorrowerController.EveryDocumentOnOnePage | backend/controllers/borrowerController.js:297-314 | with a positive limit, document k lies on exactly one page, k / limit + 1, between 1 and the page count |
| MessageController.SendError | backend/controllers/messageController.js:18-65 | content is checked before the recipient and the role; each error iff its check is the first to fail |
| MessageController.OutgoingDraft | backend/controllers/messageController.js:33-65 | a borrower writes to the manager with the keyword sentiment of the content; staff write to the borrower with Unknown/0 |
| MessageController.ManagerFor | backend/controllers/messageController.js:80-86 | the assigned manager, else the uploader, else any manager; none iff all three are missing |
| MessageController.PlanTriggerMonotone | backend/controllers/messageController.js:128-133 | more stress, more days overdue, an explicit request or a higher score never withdraw the trigger |
| MessageController.SentimentArmIsHighSentiment | backend/controllers/messageController.js:133 | the score > 70 arm fires exactly for High sentiment |
| MessageController.PlanTrigger | backend/controllers/messageController.js:126-133 | plans are due iff Moderate, High or Critical stress, Low stress over 7 days overdue, an explicit request, or a sentiment score above 70 |
| MessageController.AnalysisRecord | backend/controllers/messageController.js:103-109 | the stored analysis copies stress, issue and willingness and is dated now |
| MessageController.AnalysedBorrower | backend/controllers/messageController.js:103-121 | only analysis, risk level and field executive change; the rule level wins when not PENDING and the composite > 70, otherwise the synchronised level |
| MessageController.PlanDraft | backend/controllers/messageController.js:174-196 | an automated Pending recommendation with the plan's values and the borrower's current risk level |
| MessageController.AutomatedReply | backend/controllers/messageController.js:135-220 | with plans: a plan_suggested message, Plan A then Plan B, plan status pending; without: the empathetic reply only |
| MessageController.ReplyInputsOf | backend/controllers/messageController.js:79-145 | the sentiment, the comprehensive score, the request flag, the analysed borrower and the plans the reply is built from |
| MessageController.OffersPlans | backend/controllers/messageController.js:126-145 | plans are offered iff due and either no plan message in the last two hours or an explicit request |
| MessageController.ExplicitRequestAlwaysGetsPlans | backend/controllers/messageController.js:145 | an explicit request is always answered with two plans |
| MessageController.PlansThrottled | backend/controllers/messageController.js:137-145 | after a reply with plans, a request that is not explicit within two hours gets no plans, whatever is stored in between |
| MessageController.ReplyNeverLeavesPending | backend/controllers/messageController.js:112-121 | a non-empty message never leaves the borrower PENDING |
| MessageController.ReplySaveRejected | backend/controllers/messageController.js:198-222 | the reply's save fails exactly when no plans are offered to a borrower whose stored plan status is 'superseded' |
| MessageController.Stamp | backend/controllers/messageController.js:174-196 | consecutive inserts get consecutive ids after the message and the same time |
| MessageController.AnalyseBorrower | backend/controllers/messageController.js:103-121 | the document becomes `AnalysedBorrower` of the old one |
| MessageController.ScoreMessage | backend/controllers/messageController.js:79-155 | the scored inputs equal `ReplyInputsOf`, and the document holds the analysed borrower |
| MessageController.InsertPlans | backend/controllers/messageController.js:174-196 | both plans are appended with consecutive ids |
| MessageController.PostPlans | backend/controllers/messageController.js:158-196 | appends the plan message, then Plan A and Plan B; borrowers unchanged |
| MessageController.PostReply | backend/controllers/messageController.js:128-222 | the store holds the `AutomatedReply` outcome: the message, its plans, and the borrower when its save validates; the result reports whether the save was accepted |
| MessageController.AnswerBorrower | backend/controllers/messageController.js:78-223 | the whole automated answer to a borrower's message, and whether its final save was accepted |
| MessageController.SendMessage | backend/controllers/messageController.js:13-233 | 400 with the first validation error and no change; otherwise the message is stored and, for a borrower with a manager, the automated reply follows; a rejected borrower save passes the error on after both messages are stored and leaves the borrower unwritten |
| MessageController.Conversation | backend/controllers/messageController.js:244-265 | exactly the stored messages matching the query, and nothing else |
| MessageController.ConversationConcat | backend/controllers/messageController.js:244-265 | the query keeps store order: the conversation of a store extended by later messages is the old conversation followed by the new messages that match |
| MessageController.OutreachManager | backend/controllers/messageController.js:269-281 | an outreach is sent iff the conversation is empty, the caller is a borrower with a record, and a manager is found |
| MessageController.OutreachDraft | backend/controllers/messageController.js:282-293 | an automated 'initiated' manager message with the opening text for the borrower |
| MessageController.OutreachOnce | backend/controllers/messageController.js:269-298 | when the outreach comes from the manager the conversation is with, it happens once |
| MessageController.OutreachRepeats | backend/controllers/messageController.js:244-298 | when it comes from another manager, it lands outside the conversation read, so every read of the still-empty conversation sends another |
| MessageController.Normalize | backend/controllers/messageController.js:301-318 | current-format messages are rewritten (senderModel 'Manager' iff sender 'manager', ids swapped accordingly, text or content); old-format messages pass unchanged |
| MessageController.NormalizeAll | backend/controllers/messageController.js:301 | every message normalised, in order |
| MessageController.NormalizeRoundTrip | backend/controllers/messageController.js:303-315 | borrower, manager and sender can be read back from the normalised message |
| MessageController.OutgoingShowsSender | backend/controllers/messageController.js:48-59 | a sender sees themselves as the sender and the recipient they named as recipient |
| MessageController.ConversationIsBetweenTheTwo | backend/controllers/messageController.js:244-265 | a current-format message in a conversation is between exactly the two ids, in one direction or the other |
| MessageController.GetConversation | backend/controllers/messageController.js:238-327 | 200 with the normalised conversation; when an outreach is due it is stored and is the only entry |
| MessageController.ChatPartners | backend/controllers/messageController.js:339-342 | exactly the ids the manager has old-format messages with, in either direction |
| MessageController.GetChatPartners | backend/controllers/messageController.js:332-348 | 403 iff the role is not 'manager'; otherwise exactly the partners that are borrowers |
| MessageController.CurrentFormatHasNoPartners | backend/controllers/messageController.js:339-340 | messages in the current format carry no sender or recipient id, so they yield no partners |
| Schema.RiskLevelFromLabel | backend/models/Borrower.js:87-91 | a label parses iff it is one of the enumeration's labels, to the level with that label |
| Schema.RecStatusFromLabel | backend/models/EMIRecommendation.js:43-47 | a status parses iff it is one of the enumeration's labels |
| Schema.AmountOr | backend/services/aiChatService.js:144-145 | `x \|\| fallback`: the amount when truthy, the fallback otherwise |
| Schema.FirstNonZero | backend/controllers/messageController.js:128 | `a \|\| b` on numbers |
| Schema.NewMessage | backend/models/Message.js:3-54 | a message with the given parties, text and state, and no old-format ids |
| Schema.NewRecommendation | backend/models/EMIRecommendation.js:43-47 | a new recommendation is Pending with the given values |
| Schema.StoredMessage | backend/models/Message.js:19-23 | the stored text is trimmed, the id and time assigned, and nothing else changes |
| Schema.Database.InsertMessage | backend/models/Message.js:3-54 | appends the stored message, with the next id and the current time |
| Schema.Database.InsertRecommendation | backend/models/EMIRecommendation.js:48-51 | appends the record with the next id and the current time |
| Schema.Database.SetRecommendationStatus | backend/controllers/emiController.js:69-70 | only that record's status changes |
| Schema.Database.UpdateBorrower | backend/controllers/emiController.js:73-75 | an update query writes only that borrower's record, without the enumeration check |
| Schema.Database.SaveBorrower | backend/controllers/borrowerController.js:513-514 | a document save writes only that borrower's record, and only when the document validates; otherwise nothing changes |
| Schema.SaveRejectsOnlySuperseded | backend/models/Borrower.js:104-108 | a save validates exactly when the plan status is one of none, pending, accepted and rejected, so only 'superseded' fails |
| Text.Lower | backend/services/aiService.js:13 | `toLowerCase` on ASCII letters, character by character |
| Text.LowerIdempotent | backend/services/aiService.js:13 | lower-casing twice equals lower-casing once |
| Text.TrimJs | backend/controllers/messageController.js:18 | the trimmed text neither starts nor ends with JavaScript white space |
| Text.StripPy | backend/predict_risk.py:39 | the stripped text neither starts nor ends with Python white space |
| Text.StripPyExact | backend/predict_risk.py:39 | stripping a text surrounded by white space gives exactly the text |
| Text.StripPyEmptyIffBlank | backend/predict_risk.py:39-41 | stripping gives "" iff the input is all white space |
| Text.TrimJsEmptyIffBlank | backend/controllers/messageController.js:18 | trimming gives "" iff the content is all white space |
| Text.TrimJsFixpoint | backend/controllers/messageController.js:18 | a text without surrounding white space is kept as it is by `trim` |
| Text.LowerKeepsSpaces | backend/controllers/borrowerController.js:65 | `toLowerCase` keeps white space where it is and leaves no capitals |
| Text.CollapseWellSpaced | backend/controllers/borrowerController.js:65 | `replace(/\s+/g, ' ')` leaves only single spaces |
| Text.CollapseFixpoint | backend/controllers/borrowerController.js:65 | collapsing a text that is already single-spaced changes nothing |
| Text.CollapseNoUpper | backend/controllers/borrowerController.js:65 | collapsing white space after lower-casing leaves no capitals |
| Text.DigitsOnly | backend/controllers/borrowerController.js:86 | `replace(/[^0-9]/g, '')` keeps only digits, and gives "" iff the text has no digit |
| Text.DigitsOnlyAppend | backend/controllers/borrowerController.js:86 | every digit is kept in order: stripping a concatenation strips each part |
| Text.DigitsOnlyFixpoint | backend/controllers/borrowerController.js:86 | a string of digits is kept as it is |
| Text.JoinWith | backend/controllers/borrowerController.js:147 | `join` of no parts is "" and of one part is that part |
| Text.JoinWithSnoc | backend/controllers/borrowerController.js:147 | joining one more part appends the separator and the part |
| Text.IntToString | backend/controllers/emiController.js:86 | a template literal renders a non-negative number as its decimal digits and a negative one as "-" and the digits of its magnitude |
| Text.NatToString | backend/controllers/emiController.js:86 | digits, without a leading zero unless the number is 0, that denote the number |
| JsMath.Round | backend/services/aiService.js:52 | `Math.round` is the integer within half of its argument, halves rounding up |
| JsMath.Ceil | backend/controllers/borrowerController.js:314 | `Math.ceil` is the least integer not below its argument |
| JsMath.Clamp | backend/services/behavioralScoring.js:154 | `Math.min(100, Math.max(0, x))` lies in the bounds and keeps a value already within them |
| JsMath.ClampMonotone | backend/services/behavioralScoring.js:199 | clamping preserves order |
| JsMath.RoundMonotone | backend/services/aiChatService.js:154-164 | rounding preserves order |
| JsMath.RoundNonNegative | backend/services/aiService.js:52 | a non-negative value rounds to a non-negative integer |

## Left out

- The SMS sends through the Twilio service (emiController.js:103-109, messageController.js:69-75) are external I/O.
- Message metadata (the plans offered, the analysis, the original reply) and the `isRead` flag are stored but never read by the modelled code.
- Non-string message content, identifiers that are not valid object ids, and ObjectId casting errors are not modelled: ids are naturals and content is a string.
- The projection of `getChatPartners` to name, loan id and e-mail is left out; the model returns the partner ids.
- `analyzeResponse` in aiChatService.js is left out: it refers to an undefined variable, so every call throws.
- The chatbot controller, including `processBorrowerReply`, is not part of this model.
- The cron scheduling of the daily job and its console logging are left out; `Scheduler.PerformDailyUpdate` is the job's body.
- The pickled vectorizer and classifiers, the unpickling itself and the subprocess bridge to the script are abstract (functions and parameters).
- Case folding is ASCII only; `toLowerCase` and Python's `strip` on other Unicode characters are not modelled beyond the white-space sets listed in `Text`.
- IEEE-754 rounding of products and ratios is not modelled: arithmetic is on reals and `Math.round` rounds half up.
- Time zones, daylight-saving changes and date-string parsing are left out: dates are integer day numbers and parsing is a parameter.
- The other upload fields (days past due, address, EMI amount, outstanding balance, instalment counts), the manager notification and the uploaded file's clean-up are not modelled; the schema's checks on those fields are one parameter.
- The documents that `insertMany` writes before a duplicate-key error is passed on are not modelled: the upload model answers but does not change the store.
- The only exception the upload's per-row `catch` receives in this model is the TypeError of a null `parse_date_code`; other throws inside the row (from cells of unexpected types) are not modelled.
- `getBorrowerById`, `getStats`, `assignBorrower`, `submitFieldVisit`, `uploadFieldReport` and `getReports` in borrowerController.js are not part of this model.
- The search and role filters of `getBorrowers` are left out; only its pagination arithmetic is modelled.
- `updateBorrower` models the risk level of the body only; the other body fields it writes are not modelled.
- SaveBorrower: save validation is modelled for the plan status only. It is the one borrower path the modelled handlers can leave outside its schema, since every other path holds a value of its own type.
- `updateRecommendationStatus` without a `status` in the body is left out (the handler unsets the field and then fails on `toLowerCase`).
- `syncRiskLevelWithStress` on a stress label that names a property of JavaScript's object prototype (such as "constructor") is not modelled: every label outside the table gives PENDING.
- MlPrediction: `severityMap[risk_severity] || 50` on a severity that names an object-prototype property (such as "constructor") reads that property in the source; the model gives 50 for every label outside the table.
- The `detailedInsights` sentence in the behavioural analysis is modelled with a plain integer rendering of the composite score.
- FollowUpSalutations: states the opening salutation and name of each bucket, not the full text after them.
- RawInputIsStripped: covers a non-empty text only; a blank raw input is covered by `Text.StripPyEmptyIffBlank`.
- AnalyzeRiskLevel: its contract states the two machine-learning overrides; the rule-based result without an override is stated by `AiService.RuleRiskLevel` and the lemmas after it.
