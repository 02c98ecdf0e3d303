# AI IT ticket triage: a verified model of the backend core

The system takes IT support tickets through a web API and triages each one:

- Two trained classifiers predict the department queue and whether the ticket is critical.
- A vector index finds similar historical tickets.
- A language model (Gemini) drafts a reply grounded on those tickets.
- Business rules decide whether a human must approve the draft before it goes out. Critical
  tickets, and drafts whose confidence is below the threshold, always need approval.
- An approver approves the draft (optionally editing it) or rejects it. Approval sends the reply
  by e-mail. Every step is written to an audit trail.
- Dashboard queries count tickets by status, queue and criticality, and per day.

This project models that backend core in Dafny and proves its properties. Each module follows one
file of the backend:

| module | models |
|---|---|
| `Models` (models.dfy) | the ticket, response, approval and audit records and the two status enums |
| `Database` (database.dfy) | the database session: four tables kept in insertion order, mutated in place; ticket id = position + 1 |
| `Schemas` (schemas.dfy) | the request and response validators |
| `Predictors` (predictors.dfy) | the predictor with lazy model loading, the confidence formulas, the 0.5 threshold and the 13 handcrafted features |
| `Retrieval` (retrieval.dfy) | the retriever with lazy index loading and the loop that assembles search results |
| `GenerateReply` (generate_reply.dfy) | the prompt, cleaning and validating the model's answer, the business rules, the retry loop and the error response |
| `Triage` (triage_service.dfy) | the triage workflow with its three fallbacks |
| `Approvals` (approval_service.dfy) | approve-and-send and reject |
| `Calendar` (calendar.dfy) | the proleptic Gregorian calendar behind `strftime("%Y-%m-%d")`: day numbers to dates, and dates to zero-padded text |
| `Api` (app.dfy) | ticket creation and lookup, the filtered listing, the approval queue, the dashboard summary, the daily series and the mapping of service failures to HTTP 500 |
| `Text`, `Wrappers` | Python string built-ins (strip, lower, split, `in`, slicing, int to text) and Option/Result |

Code that changes state step by step is modelled as classes and methods:

- The database session and the three services are classes.
- The predictor and the retriever, which load their files on first use, are classes too.
- Each state-changing method is proved against a specification function. For example,
  `TriageTicket` leaves the tables exactly as `TriageOutcome` gives them.
- Lemmas about those functions state what the source promises.
- Loops of the source are `while` loops with invariants: the retry loop, the prompt's
  similar-ticket loop, the result-assembly loop, the approval-queue loop and the per-day
  grouping loop.

These pieces are inputs to the model, not part of it: the trained classifiers, the
embedder, the vector index search, the language model call, `json.loads`, the e-mail notifier
and file storage. They appear as function-valued parameters or fields. A raised exception is
an `Err` result.

Behaviour worth knowing:

- Rejection accepts a request without notes. The schema's notes field is optional and the
  reject path never checks it.
- Approval never checks the ticket's status. Any ticket with a response can be approved, even one
  that was already sent or rejected.
- The approve endpoint ignores the request's `decision` field. The decision recorded is
  EDITED_AND_APPROVED when an edit is non-empty, and APPROVED otherwise.
- Approval uses the ticket's first response row. The query has no ORDER BY, and the model assumes
  the database returns rows in insertion order. So the row used is the first one stored.
- `create_ticket` takes form fields and does not apply the `TicketCreate` length and e-mail
  rules. Those rules are modelled as the schema validator alone.
- The triage endpoint never passes `predicted_language` into its response, so that field is
  always null there.
- When prediction fails, the fallback routes the ticket as critical with probability 0.5. It
  does not set a triage time and writes no ML_PREDICTION entry.
- Without a label encoder, the department classifier's answer stays a bare class index. The
  prediction is copied into the ticket together with the triage time. Writing its ML_PREDICTION
  entry then raises, because `json.dumps` cannot serialise a NumPy integer. The except branch
  writes the fallback values over the copied ones, but the triage time stays set. No
  ML_PREDICTION entry is written, and retrieval still runs on the prediction's embedding.

## Model

| member | source | states |
|---|---|---|
| Models.StatusEnumIsClosed | backend/models.py:13-22 | the ticket status enum has exactly eight members with distinct stored values, and each value parses back to its member |
| Models.DecisionEnumIsClosed | backend/models.py:25-29 | the decision enum has exactly three members, and each value parses back to its member |
| Models.ParseStatus | backend/models.py:13-22 | a parsed status has the parsed text as its value |
| Models.ParseDecision | backend/models.py:25-29 | a parsed decision has the parsed text as its value |
| Models.NewTicketDefaults | backend/models.py:45-57 | a new ticket is NEW, not critical and unclassified (its three classification fields unset together), with no triage or send time, created now |
| Models.NewResponseDefaults | backend/models.py:72-89 | a new response needs no approval and has no final content and no approval time |
| Database.FindTicket | backend/app.py:122 | the lookup by id finds a ticket exactly when one with that id is stored, and returns that ticket |
| Database.FirstResponseFrom | backend/services/approval_service.py:52 | `.first()` without ORDER BY, taking rows in insertion order: the first stored row of the ticket; no earlier row belongs to it, and None means no row belongs to it |
| Database.RowsOf | backend/models.py:60-62 | a ticket's rows of a table (its responses, approvals or audit entries): exactly the stored rows with its id, never more than the table holds |
| Database.RowsOfCounts | backend/models.py:60-62 | a ticket's rows hold each of its stored rows as many times as the table does, and no row of another ticket |
| Database.RowsOfSingle | backend/models.py:60-62 | a single row belongs to the rows of its own ticket and of no other |
| Database.RowsOfAppend | backend/models.py:60-62 | appending rows to a table appends to each ticket's own rows: the ticket's rows already there keep their order, and the new ones follow |
| Schemas.CheckLength | backend/schemas.py:13-15 | a required text field passes exactly when present and within its length bounds; otherwise there is one error naming the field |
| Schemas.CheckEmail | backend/schemas.py:16 | an e-mail field passes exactly when present and an address |
| Schemas.TicketCreateAcceptsExactly | backend/schemas.py:11-17 | a ticket request is accepted exactly when subject is 3..500, body at least 10 and name 2..200 characters long and the address is valid; the record carries the fields unchanged, and a refusal lists 1 to 4 errors |
| Schemas.CheckDecision | backend/schemas.py:78 | the decision passes exactly when present and one of the enum's values |
| Schemas.ApprovalCreateAcceptsExactly | backend/schemas.py:74-81 | an approval request is accepted exactly when the name is 2..200 characters, the address is valid and the decision is APPROVED, REJECTED or EDITED_AND_APPROVED; notes and edits pass through and may be absent |
| Schemas.ValidateTriageRequest | backend/schemas.py:131-133 | run_draft is true unless explicitly false |
| Schemas.ValidateTriageResponse | backend/schemas.py:136-146 | the triage response validates exactly when queue, confidence and probability are present, and then carries every field given |
| Predictors.AnyOccurs | backend/ml/predictors.py:55-56 | the group flag is set exactly when some word of the group occurs in the text |
| Predictors.HandcraftedFeatures | backend/ml/predictors.py:34-79 | a text always has exactly 13 features |
| Predictors.HandcraftedFeaturesMeaning | backend/ml/predictors.py:34-79 | 13 features: length, word count and average word length; six domain flags set exactly when a group word occurs in the lower-cased text; fixed language pair 0, 1; urgency flag; question-mark flag set exactly when "?" occurs |
| Predictors.FeaturesIgnoreCase | backend/ml/predictors.py:46-77 | under ASCII case folding, the features of a text and of its lower-cased form are equal |
| Predictors.KeywordsSurviveExtension | backend/ml/predictors.py:55-74 | a set keyword flag stays set when text is added at either end |
| Predictors.MaxOf | backend/ml/predictors.py:151 | np.max is an element at least as large as every element, and raises exactly on an empty array |
| Predictors.SumAbs | backend/ml/predictors.py:155 | the sum of magnitudes is non-negative |
| Predictors.ConfidenceBounds | backend/ml/predictors.py:148-155 | a probability confidence is in [0, 1] when the probabilities are; a decision-score confidence is strictly between -1 and 1 |
| Predictors.ClassifierInput | backend/ml/predictors.py:131-137 | with enhanced features on, the classifier input is the embedding followed by exactly the 13 handcrafted features of the text; otherwise it is the embedding alone |
| Predictors.PredictionIsConsistent | backend/ml/predictors.py:125-167 | a prediction is critical exactly when its probability reaches 0.5; the embedding is the embedding of "subject\n\nbody"; without enhanced features the classifiers see that embedding |
| Predictors.PredictionFailsOnlyOnEmptyScores | backend/ml/predictors.py:148-155 | with models loaded, prediction fails exactly when the department scores are empty |
| Predictors.QueueName | backend/ml/predictors.py:140-146 | with a label encoder the queue is always a name; without one it is the classifier's raw label, so it stays a class index exactly when the encoder is missing and the classifier predicts indices |
| Predictors.Predict | backend/ml/predictors.py:125-167 | a prediction is critical exactly when its probability reaches 0.5, carries the embedding of "subject\n\nbody", and names its queue whenever a label encoder is loaded |
| Predictors.BatchOf | backend/ml/predictors.py:183-201 | the batch has one queue, one probability and one embedding per text |
| Predictors.BatchAgreesWithSingle | backend/ml/predictors.py:169-201 | each batch entry equals the single prediction for a ticket with that text |
| Predictors.TicketPredictor.constructor | backend/ml/predictors.py:25-32 | a new predictor has nothing loaded and enhanced features off |
| Predictors.TicketPredictor.LoadModels | backend/ml/predictors.py:81-102 | loading fails with "Models not found" exactly when a classifier file is missing, changing nothing; otherwise both classifiers are loaded, and the encoder too when its file exists |
| Predictors.TicketPredictor.PredictTicket | backend/ml/predictors.py:104-167 | loads the models only when not yet loaded; the result is the prediction for the loaded models, or the load error |
| Predictors.TicketPredictor.BatchPredict | backend/ml/predictors.py:169-201 | loads the models when needed, then returns the batch for the loaded models |
| Predictors.PredictedIsConsistent | backend/ml/predictors.py:158-159 | whatever the predictor's state, a prediction is critical exactly when its probability reaches 0.5 |
| Retrieval.RowAt | backend/ml/retrieval.py:139 | `iloc[idx]` succeeds exactly for -len <= idx < len; a negative position counts from the end |
| Retrieval.Kept | backend/ml/retrieval.py:137-138 | the hits kept are exactly those with idx < len(rows) |
| Retrieval.Assembled | backend/ml/retrieval.py:136-150 | a successful search never gives more results than there were hits |
| Retrieval.AssembledIsKeptHits | backend/ml/retrieval.py:136-150 | the search raises exactly when a hit's position is below -len(rows); otherwise result j is the j-th kept hit's score with its row's fields, in hit order, never more results than hits |
| Retrieval.PaddingHitReturnsLastRow | backend/ml/retrieval.py:137-139 | a padding hit (-1) brings back the table's last row |
| Retrieval.AssembleResults | backend/ml/retrieval.py:174-188 | the assembly loop computes exactly the assembled results |
| Retrieval.TicketRetriever.constructor | backend/ml/retrieval.py:26-38 | a new retriever has no index, no table and is not indexed |
| Retrieval.TicketRetriever.LoadIndex | backend/ml/retrieval.py:92-112 | loading fails with "FAISS index not found" exactly when a file is missing, changing nothing; otherwise it loads both and sets indexed |
| Retrieval.TicketRetriever.SearchByEmbedding | backend/ml/retrieval.py:152-188 | loads the index only when not yet indexed; the result is the assembly of the index's hits over the loaded table, or the load error |
| Retrieval.TicketRetriever.Search | backend/ml/retrieval.py:114-150 | as SearchByEmbedding, on the embedding of the query text |
| GenerateReply.Shown | backend/gemini/generate_reply.py:135 | the prompt shows the first min(3, n) similar tickets |
| GenerateReply.PromptFraming | backend/gemini/generate_reply.py:114-167 | the prompt always opens with the ticket header and closes with the instructions |
| GenerateReply.BuildPrompt | backend/gemini/generate_reply.py:114-167 | the prompt built step by step is exactly the prompt |
| GenerateReply.ExampleBlocks | backend/gemini/generate_reply.py:135-142 | the loop over the shown neighbours appends exactly their numbered example blocks |
| GenerateReply.PromptSeesOnlyShownViews | backend/gemini/generate_reply.py:114-167 | the prompt depends only on the ticket's fields and on subject, body, answer and queue of the first three neighbours |
| GenerateReply.ExamplesSeeOnlyViews | backend/gemini/generate_reply.py:135-142 | the examples depend only on each neighbour's subject, body, answer and queue |
| GenerateReply.PromptWithoutNeighbours | backend/gemini/generate_reply.py:124-167 | without neighbours the prompt is the ticket header followed by the instructions |
| GenerateReply.CleanResponseText | backend/gemini/generate_reply.py:172-180 | the cleaned answer has no whitespace at either end and is never longer than the answer |
| GenerateReply.Unfence | backend/gemini/generate_reply.py:174-179 | removing the fence never adds text, and an answer with no fence at either end is kept as it is |
| GenerateReply.UnfenceFenced | backend/gemini/generate_reply.py:174-179 | a ```json or ``` fence around an answer comes off whole |
| GenerateReply.FencedObjectIsUnwrapped | backend/gemini/generate_reply.py:172-180 | cleaning a fenced, space-padded JSON object yields exactly the object |
| GenerateReply.PlainObjectIsKept | backend/gemini/generate_reply.py:172-180 | cleaning an unfenced, space-padded JSON object yields exactly the object |
| GenerateReply.FencingDoesNotChangeTheParse | backend/gemini/generate_reply.py:169-198 | a fenced answer parses exactly as the bare object does |
| GenerateReply.Clamp | backend/gemini/generate_reply.py:196 | the clamped confidence is in [0, 1] and is unchanged when already there |
| GenerateReply.ParseResponse | backend/gemini/generate_reply.py:169-198 | a parsed draft's confidence is in [0, 1] |
| GenerateReply.Validate | backend/gemini/generate_reply.py:182-198 | a validated draft's confidence is in [0, 1] |
| GenerateReply.ValidateAccepts | backend/gemini/generate_reply.py:182-198 | an answer is accepted exactly when the five required keys are present and confidence converts; the draft carries those values, with tags defaulting to []; only a decoding failure is a JSON error |
| GenerateReply.ValidateReportsFirstMissingKey | backend/gemini/generate_reply.py:186-189 | a missing key is reported before a bad confidence, naming the first missing key in declaration order |
| GenerateReply.ApplyBusinessRules | backend/gemini/generate_reply.py:200-218 | approval is needed exactly when the model asked for it, the ticket is critical or the confidence is below the threshold; nothing else changes |
| GenerateReply.BusinessRulesIdempotent | backend/gemini/generate_reply.py:200-218 | applying the rules twice is applying them once |
| GenerateReply.ErrorResponse | backend/gemini/generate_reply.py:220-231 | the error reply is unsuccessful and carries the message; its draft is the fixed placeholder: English, subject "Error generating reply", confidence 0, needs approval, tags "error" and "needs_review" |
| GenerateReply.GenerateReplyMethod | backend/gemini/generate_reply.py:45-112 | the retry loop computes exactly the reply that Generated specifies |
| GenerateReply.RepliesFrom | backend/gemini/generate_reply.py:82-112 | the reply is a success exactly when it carries no error; a failure carries the placeholder draft |
| GenerateReply.Generated | backend/gemini/generate_reply.py:45-112 | generate_reply succeeds exactly when it carries no error; a failure carries the placeholder draft |
| GenerateReply.RepliesFromIsFirstSuccess | backend/gemini/generate_reply.py:82-112 | the reply succeeds exactly when some attempt parses, and then it is the first such attempt; otherwise it is the error response with the last attempt's error, or "Max retries exceeded" when there were no attempts |
| GenerateReply.GeneratedNeedsApproval | backend/gemini/generate_reply.py:45-112 | every reply of a critical ticket needs approval, and so does every reply whose confidence is below the threshold; confidence is in [0, 1]; the error is set exactly on failure |
| GenerateReply.RepliesKeepRules | backend/gemini/generate_reply.py:82-112 | when every successful attempt obeys the rules, so does the loop's reply |
| GenerateReply.AttemptOk | backend/gemini/generate_reply.py:94-100 | a successful attempt obeys the business rules with a clamped confidence |
| GenerateReply.NoAttemptsGiveMaxRetriesExceeded | backend/gemini/generate_reply.py:112 | with no attempts allowed the reply is "Max retries exceeded" |
| Triage.ContextOf | backend/services/triage_service.py:120-123 | the stored context is null exactly without neighbours; otherwise it holds subject and first 200 characters of the answer of each of the first three |
| Triage.Classified | backend/services/triage_service.py:55-83 | after step 1 the ticket is TRIAGED and classified; the triage time is set exactly when prediction succeeded; without a loggable prediction the queue is the fallback and the ticket is critical; no other field changes |
| Triage.PredictionLog | backend/services/triage_service.py:66-70 | exactly one ML_PREDICTION entry for the ticket, stamped now, when the prediction succeeded with a queue name; none otherwise |
| Triage.DraftStep | backend/services/triage_service.py:96-154 | a draft is stored exactly when the generator returned a successful reply; then exactly one response carrying it and one audit entry are appended, and the ticket is PENDING_APPROVAL exactly when the draft needs approval, DRAFTED otherwise; without drafting the ticket is unchanged and needs approval exactly when critical; a failed or raising generator leaves it PENDING_APPROVAL |
| Triage.TriageOutcome | backend/services/triage_service.py:48-174 | triage keeps the tables well formed, keeps the number of tickets and the approvals, and the summary reports success, the ticket's id and its stored status |
| Triage.TriageKeepsLifecycle | backend/services/triage_service.py:48-174 | triage keeps the lifecycle invariant (classification set together; DRAFTED tickets have a response; SENT tickets have a send time) |
| Triage.TriageSetsConsistentClassification | backend/services/triage_service.py:56-83 | after triage the ticket is classified, critical exactly when its probability reaches 0.5, and the summary reports the stored values and status |
| Triage.PredictionSuccessIsCopied | backend/services/triage_service.py:56-72 | a successful prediction with a queue name is copied into the ticket with triage time now, followed by exactly one ML_PREDICTION entry with its values |
| Triage.NoDraftStaysTriaged | backend/services/triage_service.py:96-100 | without drafting, only the classification changes: no response is added, the ticket stays TRIAGED, and it needs approval exactly when it is critical |
| Triage.PredictionFailureFallsBack | backend/services/triage_service.py:76-83 | a failed prediction routes to "Technical Support" as critical with probability 0.5, keeps the triage time and logs no prediction |
| Triage.UnencodedIndexFallsBack | backend/services/triage_service.py:56-83 | a successful prediction whose queue is an unencoded class index ends with the fallback values (queue "Technical Support", confidence 0, probability 0.5, critical) but with triage time now, and writes no ML_PREDICTION entry |
| Triage.DraftFailureRoutesToHuman | backend/services/triage_service.py:144-154 | a failed or raising generator leaves the ticket PENDING_APPROVAL with no response and no draft entry |
| Triage.DraftSuccessStoresResponse | backend/services/triage_service.py:110-142 | a successful draft appends exactly one response carrying its subject, body, language, confidence, approval flag, tags and the retrieval context, created now and not yet approved; the audit trail gets the prediction entry and then one DRAFT_GENERATED entry with confidence and approval flag; the ticket is PENDING_APPROVAL exactly when the draft needs approval and DRAFTED otherwise, with the draft's language |
| Triage.TriageTouchesOnlyItsTicket | backend/services/triage_service.py:48-174 | triage changes only its ticket; existing rows are kept and new rows belong to the ticket |
| Triage.CriticalTicketsAreNeverAutoDrafted | backend/services/triage_service.py:130-142 | with the generator, a critical ticket, or a draft below the confidence threshold, is never DRAFTED for automatic sending |
| Triage.TriageTicketIsStable | backend/services/triage_service.py:48-174 | re-triaging with the same collaborator answers leaves every ticket as the first triage left it |
| Triage.TriageService.ClassifyStep | backend/services/triage_service.py:55-83 | step 1 returns the predictor's answer and the ticket Classified gives; the only table change is the ML_PREDICTION entry, written only for a prediction with a queue name |
| Triage.TriageService.SearchStep | backend/services/triage_service.py:85-94 | step 2 searches on the prediction's embedding; a failure gives no neighbours |
| Triage.TriageService.DraftingStep | backend/services/triage_service.py:96-154 | step 3 drafts only when asked, then stores and routes as DraftStep says |
| Triage.TriageService.StoreReply | backend/services/triage_service.py:110-154 | storing the generator's reply is DraftStep |
| Triage.TriageService.TriageTicket | backend/services/triage_service.py:31-174 | a missing ticket fails with "Ticket N not found" and changes nothing; otherwise the tables end as TriageOutcome gives them, for the predictor's, retriever's and generator's answers, and the lifecycle invariant holds |
| Approvals.EditOr | backend/services/approval_service.py:59-60 | a non-empty edit replaces the draft value and an empty or missing one does not (Python `or`) |
| Approvals.DecisionFor | backend/services/approval_service.py:68 | the decision is EDITED_AND_APPROVED exactly when some edit is non-empty, and never REJECTED |
| Approvals.ApproveOutcome | backend/services/approval_service.py:22-114 | a successful approval is of a stored ticket, keeps the tables well formed and the number of tickets, and reports success with the ticket's id and stored status |
| Approvals.RejectOutcome | backend/services/approval_service.py:116-168 | a successful rejection is of a stored ticket, keeps the tables well formed and the number of tickets, sets the ticket REJECTED and reports exactly that |
| Approvals.ApproveFailsOnlyWhenMissing | backend/services/approval_service.py:48-54 | approval fails exactly when the ticket or its response is missing, with the matching message, whatever the status |
| Approvals.ApprovalFixesFinalContent | backend/services/approval_service.py:58-65 | the first response's final content is each non-empty edit or the draft, stamped with the approval time; other responses are unchanged |
| Approvals.ApprovalRecordsDecision | backend/services/approval_service.py:67-76 | exactly one approval row is appended, with approver, notes and the decision that reflects the edits |
| Approvals.SentIffDelivered | backend/services/approval_service.py:88-114 | the ticket is SENT, with its send time, exactly when the notifier delivered the reply; otherwise APPROVED with its send time unchanged; the summary reports the delivery |
| Approvals.ApprovalAudit | backend/services/approval_service.py:81-101 | appends an APPROVED entry by the approver, and then an EMAIL_SENT entry to the submitter exactly when the reply was delivered |
| Approvals.ApprovalTouchesOnlyItsTicket | backend/services/approval_service.py:78-98 | approval changes only the ticket's status and send time; other tickets are unchanged |
| Approvals.ApproveKeepsLifecycle | backend/services/approval_service.py:22-114 | approval keeps the lifecycle invariant, whatever the ticket's status was |
| Approvals.RejectRecordsDecision | backend/services/approval_service.py:116-168 | rejection fails exactly when the ticket is missing; otherwise it sets REJECTED, appends a REJECTED approval carrying the optional notes and a REJECTED audit entry, and leaves responses and other tickets alone |
| Approvals.RejectKeepsLifecycle | backend/services/approval_service.py:116-168 | rejection keeps the lifecycle invariant |
| Approvals.ApprovalService.constructor | backend/services/approval_service.py:19-20 | the service holds the given notifier |
| Approvals.ApprovalService.ApproveAndSend | backend/services/approval_service.py:22-114 | the tables end as ApproveOutcome gives them, or are unchanged on error; the lifecycle invariant holds |
| Approvals.ApprovalService.RejectTicket | backend/services/approval_service.py:116-168 | the tables end as RejectOutcome gives them, or are unchanged on error; the lifecycle invariant holds |
| Api.CreateTicketOutcome | backend/app.py:88-116 | an oversized attachment is refused with 400 before anything is stored; otherwise exactly one NEW, unclassified ticket is appended with the next id and the submitted fields, and nothing else changes |
| Api.CreateKeepsLifecycle | backend/app.py:102-113 | creating a ticket keeps the lifecycle invariant |
| Api.CreateOutcome | backend/app.py:88-116 | an oversized attachment gives 400 with the size message; otherwise the new ticket, with the next id, is appended to the stored tickets |
| Api.CreateTicket | backend/app.py:75-116 | the tables end as CreateOutcome gives them |
| Api.GetTicket | backend/app.py:119-125 | 404 exactly when the ticket is missing; otherwise the ticket with its own responses and approvals, exactly the stored ones in stored order |
| Api.Matching | backend/app.py:141-151 | the filtered tickets are exactly the stored tickets matching every filter given |
| Api.NewestFirst | backend/app.py:154 | the ordering keeps the number of tickets |
| Api.NewestFirstSorts | backend/app.py:154 | the ordering is a permutation, sorted by creation time, newest first |
| Api.Page | backend/app.py:156 | OFFSET/LIMIT is the window [skip, skip + limit) of the ordered list, clipped to its end |
| Api.ListTickets | backend/app.py:128-157 | the listing never holds more than limit tickets, nor more than are stored |
| Api.ListTicketsMeaning | backend/app.py:128-157 | the listing is the window of all matching tickets newest first; it has at most limit tickets, each stored and matching |
| Api.PendingItems | backend/app.py:206-220 | one item per PENDING_APPROVAL ticket |
| Api.GetPendingApprovals | backend/app.py:199-220 | the item-building loop computes exactly the pending items |
| Api.PendingItemsMeaning | backend/app.py:199-220 | the queue lists exactly the PENDING_APPROVAL tickets, newest first, each with its submitter e-mail and creation time; a missing or empty queue shows "Unknown", a missing probability 0.0; with a response the draft subject and body are those of the first stored response, otherwise there is no draft |
| Api.CountWhere | backend/app.py:283-298 | a count never exceeds the number of tickets |
| Api.CountSplit | backend/app.py:285-288 | the tickets that pass a test and those that fail it add up to all tickets |
| Api.CountPositive | backend/app.py:316-322 | a count is positive exactly when some ticket passes the test |
| Api.SentTickets | backend/app.py:301-304 | every ticket kept has a send time, and none is kept exactly when no ticket was sent |
| Api.Summary | backend/app.py:278-346 | the total is the number of tickets, and the open, critical and pending counts never exceed it |
| Api.SummaryMeaning | backend/app.py:278-346 | open and SENT add up to the total, and so do high and medium; the queue table has exactly the queues some ticket has, each with the number of tickets routed to it; the status table has exactly the statuses present, with their counts; pending equals the approval queue's length; the average is absent exactly when nothing was sent |
| Api.StatusValueInjective | backend/models.py:13-22 | distinct statuses have distinct stored values |
| Api.Since | backend/app.py:354-357 | the recent tickets are exactly those created at or after the cutoff |
| Api.GroupedKeys | backend/app.py:360-367 | the grouping's keys are distinct and are exactly the keys of its counts |
| Api.GroupedDomain | backend/app.py:360-367 | a date has counts exactly when some ticket falls on it |
| Api.GroupedValues | backend/app.py:360-367 | each date's total and critical count are the numbers of its tickets and critical tickets |
| Api.GroupedTotal | backend/app.py:360-367 | the totals add up to the number of tickets |
| Api.SortDatesSorts | backend/app.py:376 | the sorted dates are strictly ascending and are the same dates |
| Api.GroupedPoints | backend/app.py:359-377 | the points are ascending, one per date with tickets, with that date's counts, adding up to the number of tickets |
| Api.TimeseriesMeaning | backend/app.py:349-379 | the series has one point per date with a ticket since the cutoff, ascending; each counts that date's tickets and critical tickets (critical never above total); the counts add up to the recent tickets |
| Api.CriticalBelowTotal | backend/app.py:365-367 | a date's critical count never exceeds its total |
| Api.CountTicket | backend/app.py:362-367 | one loop step: a new date starts at zero, then its counts go up |
| Api.GetTicketTimeseries | backend/app.py:349-379 | the grouping loop and sort compute exactly the series |
| Api.TimeseriesInDayOrder | backend/app.py:359-377 | for times a datetime can hold, of two points the earlier one belongs to the earlier day: grouping by date text and sorting the texts orders the series by day |
| Calendar.CivilFromDays | backend/app.py:362 | a day number is a valid calendar date: year at least 1, month 1 to 12, day within the month |
| Calendar.YearFrom | backend/app.py:362 | walking whole years from year y ends in a year at or after y with a day inside it, strictly after y when the count covers y |
| Calendar.MonthFrom | backend/app.py:362 | the month found holds the day: it starts at or before it and ends after it |
| Calendar.CivilOrder | backend/app.py:362 | from 0001-01-01 on, a later day number is a later date |
| Calendar.ZeroPad | backend/app.py:362 | zero padding gives at least one digit and at least the width |
| Calendar.ZeroPadWidth | backend/app.py:362 | a number below 10^width is padded to exactly width digits |
| Calendar.ZeroPadOrder | backend/app.py:362 | below 10^width, padding keeps numeric order as text order |
| Calendar.DateText | backend/app.py:362 | a date with a four-digit year is ten characters with dashes at positions 4 and 7 |
| Calendar.DateTextOrder | backend/app.py:362 | between the years 1 and 9999, a date before another has the smaller text |
| Calendar.DateString | backend/app.py:362 | the text of a time a datetime can hold is "YYYY-MM-DD" |
| Calendar.DateStringOrder | backend/app.py:362 | for times in the years 1 to 9999, two times have the same text exactly when they fall on the same day, and text order is day order |
| Api.AsServerError | backend/app.py:245-247 | a service error becomes HTTP 500 with the prefixed message; a success passes through |
| Api.TriageReply | backend/app.py:172-192 | every failure of the triage endpoint is a 500, and a service error carries the prefixed message |
| Api.TriageEndpointReportsTicket | backend/app.py:172-189 | for a stored ticket the triage response always validates and reports the stored classification |
| Api.TriageEndpointNotFound | backend/app.py:190-192 | the service's not-found error becomes a 500 |
| Api.TriageTicketEndpoint | backend/app.py:160-192 | 500 with the not-found message, and nothing changed, for a missing ticket; otherwise the tables end exactly as TriageOutcome gives them for the collaborators' answers, and a successful response reports the stored classification |
| Api.ApproveTicketEndpoint | backend/app.py:223-247 | the approval service's outcome, with errors as 500; on success the tables are those of ApproveOutcome, on error unchanged |
| Api.RejectTicketEndpoint | backend/app.py:250-271 | the rejection service's outcome, with errors as 500; on success the tables are those of RejectOutcome, on error unchanged |
| Text.TrimStart | backend/gemini/generate_reply.py:173 | lstrip removes exactly the leading whitespace: the result is a suffix that does not start with whitespace, and everything before it is whitespace |
| Text.TrimEnd | backend/gemini/generate_reply.py:180 | rstrip removes exactly the trailing whitespace: the result is a prefix that does not end with whitespace, and everything after it is whitespace |
| Text.StripSurrounded | backend/gemini/generate_reply.py:173-180 | strip() of a text between whitespace runs is exactly that text |
| Text.Take | backend/services/triage_service.py:121 | s[:n] has min(len(s), n) characters and is a prefix of s |
| Text.ContainsFrom | backend/ml/predictors.py:55-77 | the substring search from a position finds the word exactly when it occurs at or after that position |
| Text.Contains | backend/ml/predictors.py:55-77 | `w in t` holds exactly when w occurs in t at some position |
| Text.Lower | backend/ml/predictors.py:46 | lower() keeps the length and lower-cases each ASCII letter |
| Text.WordCount | backend/ml/predictors.py:50 | len(s.split()) never exceeds the length, and is 0 for a blank text |
| Text.WordCountIsWordStarts | backend/ml/predictors.py:50 | the one-pass count is the number of word starts: maximal runs of non-whitespace characters |
| Text.NatToString | backend/services/approval_service.py:50-54 | str(n) is a non-empty run of digits with no leading zero |
| Text.LexLessTotal | backend/app.py:376 | of two different texts, one sorts before the other |
| Text.LexLessTransitive | backend/app.py:376 | text order is transitive |

## Left out

- I/O and collaborators: the trained classifiers, the sentence embedder, FAISS search, the Gemini
  call, `json.loads`, SMTP delivery and file storage. They are function parameters or fields whose
  behaviour is not modelled. Index building, embedding and training are not modelled.
- The UI (customer portal, manager dashboard, web frontend) and the bulk auto-send script are
  outside the model. The script re-drives the HTTP API.
- Configuration: environment variables (MAX_FILE_SIZE_MB, CONFIDENCE_THRESHOLD, the API key) are
  parameters. The API-key check and model configuration in `get_generator` are not modelled.
- Concurrency, transactions and commit/rollback: one operation's changes are one state update.
- Time: timestamps are integer seconds, and each operation reads the clock once (`now`).
  `updated_at` is not modelled.
- Calendar.DateString: a datetime holds only the years 1 to 9999, so a stored time always falls
  there. The model also accepts times outside that range: days before 0001-01-01 become
  0001-01-01, and after year 9999 the year gets more than four digits. Years below 1000 are
  zero-padded to four digits, which the platform's C `strftime` may not do.
- Database.FirstResponseFrom: the model assumes the database returns rows in insertion order, as
  SQLite and PostgreSQL usually do for a plain table scan. Without ORDER BY, SQL promises no order.
- Api.Summary: the average response time is computed over exact reals, with no floating-point
  rounding. The same goes for every score and confidence in Predictors.
- Api.NewestFirst: rows with equal creation times keep insertion order. SQL leaves the order of
  ties unspecified.
- Api.ListTickets: skip and limit are natural numbers. Negative values, which the database would
  reject or treat specially, are not modelled.
- Schemas.CheckEmail: what counts as an e-mail address is a parameter, not EmailStr's grammar.
- Text.Lower: case folding is ASCII only. Python's `lower()` is Unicode-aware, and can change a
  string's length (for example U+0130 becomes two code points).
- Predictors.FeaturesIgnoreCase: proved only under ASCII case folding. Python's `lower()` can
  lengthen a text, and then the length feature of the lower-cased text differs.
- GenerateReply.ParseResponse: the decoded JSON is typed. A key whose value has the wrong JSON type
  is not modelled, except that a confidence that `float()` cannot convert is an error.
- GenerateReply.ExampleBlocks: the loop collects the example blocks in a string of their own,
  which is then appended to the prompt once. The source appends each block to the prompt; the
  resulting text is the same.
- Predictors.HandcraftedFeatures: a function from the text to its 13 values, not the sequence of
  appends the source performs.
- Retrieval.SimilarTicket: every row has all its fields, so the prompt's `.get(..., 'N/A')`
  defaults never apply.
- Attachment saving: the stored path comes from a `store` parameter. The timestamped file name and
  the copy are not modelled.
