/** The request and response schemas of the API (backend/schemas.py): each validator takes the raw
    fields (absent when the client left them out) and yields the validated record, or every field
    error in the order the fields are declared. */
module Schemas {
  import opened Wrappers
  import opened Models

  /** Why one field was refused. */
  datatype Reason = Missing | TooShort(min: nat) | TooLong(max: nat) | NotAnEmail | NotAChoice

  datatype FieldError = FieldError(field: string, reason: Reason)

  /** The check a required string field with length bounds makes: at most one error. */
  function CheckLength(field: string, v: Option<string>, min: nat, max: Option<nat>): (errs: seq<FieldError>)
    ensures |errs| <= 1
    ensures errs == [] <==> v.Some? && min <= |v.value| && (max.Some? ==> |v.value| <= max.value)
    ensures errs != [] ==> errs[0].field == field
  {
    if v.None? then [FieldError(field, Missing)]
    else if |v.value| < min then [FieldError(field, TooShort(min))]
    else if max.Some? && |v.value| > max.value then [FieldError(field, TooLong(max.value))]
    else []
  }

  /** The check of a required e-mail field; what counts as an address is the validator's. */
  function CheckEmail(field: string, v: Option<string>, isEmail: string -> bool): (errs: seq<FieldError>)
    ensures errs == [] <==> v.Some? && isEmail(v.value)
    ensures |errs| <= 1
  {
    if v.None? then [FieldError(field, Missing)]
    else if !isEmail(v.value) then [FieldError(field, NotAnEmail)]
    else []
  }

  // ---------------------------------------------------------------- TicketCreate

  datatype RawTicketCreate = RawTicketCreate(subject: Option<string>, body: Option<string>,
                                             submitterName: Option<string>, submitterEmail: Option<string>,
                                             attachmentFilename: Option<string>)

  datatype TicketCreate = TicketCreate(subject: string, body: string, submitterName: string,
                                       submitterEmail: string, attachmentFilename: Option<string>)

  function TicketCreateErrors(raw: RawTicketCreate, isEmail: string -> bool): seq<FieldError> {
    CheckLength("subject", raw.subject, 3, Some(500))
    + CheckLength("body", raw.body, 10, None)
    + CheckLength("submitter_name", raw.submitterName, 2, Some(200))
    + CheckEmail("submitter_email", raw.submitterEmail, isEmail)
  }

  function ValidateTicketCreate(raw: RawTicketCreate, isEmail: string -> bool): Result<TicketCreate, seq<FieldError>> {
    var errs := TicketCreateErrors(raw, isEmail);
    if errs != [] then Err(errs)
    else Ok(TicketCreate(raw.subject.value, raw.body.value, raw.submitterName.value, raw.submitterEmail.value,
                         raw.attachmentFilename))
  }

  /** A ticket request is accepted exactly when the subject has 3 to 500 characters, the body at
      least 10, the submitter's name 2 to 200 and the address is one; the accepted record carries
      the fields unchanged. */
  lemma TicketCreateAcceptsExactly(raw: RawTicketCreate, isEmail: string -> bool)
    ensures var r := ValidateTicketCreate(raw, isEmail);
      && (r.Ok? <==>
            && raw.subject.Some? && 3 <= |raw.subject.value| <= 500
            && raw.body.Some? && 10 <= |raw.body.value|
            && raw.submitterName.Some? && 2 <= |raw.submitterName.value| <= 200
            && raw.submitterEmail.Some? && isEmail(raw.submitterEmail.value))
      && (r.Ok? ==> r.value.subject == raw.subject.value && r.value.body == raw.body.value
                    && r.value.submitterName == raw.submitterName.value
                    && r.value.submitterEmail == raw.submitterEmail.value
                    && r.value.attachmentFilename == raw.attachmentFilename)
      && (r.Err? ==> 1 <= |r.error| <= 4)
  {
  }

  // ---------------------------------------------------------------- ApprovalCreate

  datatype RawApprovalCreate = RawApprovalCreate(approverName: Option<string>, approverEmail: Option<string>,
                                                 decision: Option<string>, decisionNotes: Option<string>,
                                                 editedSubject: Option<string>, editedBody: Option<string>)

  datatype ApprovalCreate = ApprovalCreate(approverName: string, approverEmail: string, decision: ApprovalDecision,
                                           decisionNotes: Option<string>, editedSubject: Option<string>,
                                           editedBody: Option<string>)

  function CheckDecision(v: Option<string>): (errs: seq<FieldError>)
    ensures errs == [] <==> v.Some? && ParseDecision(v.value).Some?
  {
    if v.None? then [FieldError("decision", Missing)]
    else if ParseDecision(v.value).None? then [FieldError("decision", NotAChoice)]
    else []
  }

  function ApprovalCreateErrors(raw: RawApprovalCreate, isEmail: string -> bool): seq<FieldError> {
    CheckLength("approver_name", raw.approverName, 2, Some(200))
    + CheckEmail("approver_email", raw.approverEmail, isEmail)
    + CheckDecision(raw.decision)
  }

  function ValidateApprovalCreate(raw: RawApprovalCreate, isEmail: string -> bool)
    : Result<ApprovalCreate, seq<FieldError>>
  {
    var errs := ApprovalCreateErrors(raw, isEmail);
    if errs != [] then Err(errs)
    else Ok(ApprovalCreate(raw.approverName.value, raw.approverEmail.value, ParseDecision(raw.decision.value).value,
                           raw.decisionNotes, raw.editedSubject, raw.editedBody))
  }

  /** An approval request is accepted exactly when the approver's name has 2 to 200 characters,
      the address is one and the decision names one of the three decisions; notes and edits are
      optional, so a rejection without a reason passes. */
  lemma ApprovalCreateAcceptsExactly(raw: RawApprovalCreate, isEmail: string -> bool)
    ensures var r := ValidateApprovalCreate(raw, isEmail);
      && (r.Ok? <==>
            && raw.approverName.Some? && 2 <= |raw.approverName.value| <= 200
            && raw.approverEmail.Some? && isEmail(raw.approverEmail.value)
            && raw.decision.Some? && raw.decision.value in ["APPROVED", "REJECTED", "EDITED_AND_APPROVED"])
      && (r.Ok? ==> DecisionValue(r.value.decision) == raw.decision.value
                    && r.value.decisionNotes == raw.decisionNotes
                    && r.value.editedSubject == raw.editedSubject && r.value.editedBody == raw.editedBody)
  {
    if raw.decision.Some? {
      var v := raw.decision.value;
      if v in ["APPROVED", "REJECTED", "EDITED_AND_APPROVED"] {
        assert ParseDecision(v).Some?;
      }
      if ParseDecision(v).Some? {
        DecisionEnumIsClosed(ParseDecision(v).value);
      }
    }
  }

  // ---------------------------------------------------------------- TriageRequest

  datatype TriageRequest = TriageRequest(runDraft: bool)

  /** run_draft defaults to true. */
  function ValidateTriageRequest(runDraft: Option<bool>): (r: TriageRequest)
    ensures r.runDraft <==> runDraft != Some(false)
  {
    TriageRequest(runDraft.GetOr(true))
  }

  // ---------------------------------------------------------------- TriageResponse

  datatype TriageResponse = TriageResponse(success: bool, message: string, predictedQueue: string,
                                           queueConfidence: real, criticalProb: real, isCritical: bool,
                                           predictedLanguage: Option<string>, draftGenerated: bool,
                                           needsApproval: bool)

  function Required<T>(field: string, v: Option<T>): (errs: seq<FieldError>)
    ensures errs == [] <==> v.Some?
  {
    if v.None? then [FieldError(field, Missing)] else []
  }

  /** Building the triage response: queue, confidence and probability must be present; the
      language may be absent. */
  function ValidateTriageResponse(success: bool, message: string, predictedQueue: Option<string>,
                                  queueConfidence: Option<real>, criticalProb: Option<real>, isCritical: bool,
                                  predictedLanguage: Option<string>, draftGenerated: bool, needsApproval: bool)
    : (r: Result<TriageResponse, seq<FieldError>>)
    ensures r.Ok? <==> predictedQueue.Some? && queueConfidence.Some? && criticalProb.Some?
    ensures r.Ok? ==> r.value == TriageResponse(success, message, predictedQueue.value, queueConfidence.value,
                                                criticalProb.value, isCritical, predictedLanguage,
                                                draftGenerated, needsApproval)
  {
    var errs := Required("predicted_queue", predictedQueue) + Required("queue_confidence", queueConfidence)
                + Required("critical_prob", criticalProb);
    if errs != [] then Err(errs)
    else Ok(TriageResponse(success, message, predictedQueue.value, queueConfidence.value, criticalProb.value,
                           isCritical, predictedLanguage, draftGenerated, needsApproval))
  }
}
