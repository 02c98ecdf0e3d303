/** The records of the ticket store and the two status enums (backend/models.py).
    Timestamps are ints (seconds); a nullable column is an Option. */
module Models {
  import opened Wrappers

  /** The lifecycle of a ticket. NeedsInfo is declared by the data model but no operation ever
      assigns it. */
  datatype TicketStatus = New | Triaged | Drafted | PendingApproval | Approved | Sent | Rejected | NeedsInfo

  /** The stored string value of a status. */
  function StatusValue(s: TicketStatus): string {
    match s
    case New => "NEW"
    case Triaged => "TRIAGED"
    case Drafted => "DRAFTED"
    case PendingApproval => "PENDING_APPROVAL"
    case Approved => "APPROVED"
    case Sent => "SENT"
    case Rejected => "REJECTED"
    case NeedsInfo => "NEEDS_INFO"
  }

  /** The eight statuses, in declaration order. */
  const AllStatuses: seq<TicketStatus> :=
    [New, Triaged, Drafted, PendingApproval, TicketStatus.Approved, Sent, TicketStatus.Rejected, NeedsInfo]

  /** TicketStatus(value): the enum member with that value, or None (a 422 at the API boundary). */
  function ParseStatus(v: string): (r: Option<TicketStatus>)
    ensures r.Some? ==> StatusValue(r.value) == v
  {
    if v == "NEW" then Some(New)
    else if v == "TRIAGED" then Some(Triaged)
    else if v == "DRAFTED" then Some(Drafted)
    else if v == "PENDING_APPROVAL" then Some(PendingApproval)
    else if v == "APPROVED" then Some(TicketStatus.Approved)
    else if v == "SENT" then Some(Sent)
    else if v == "REJECTED" then Some(TicketStatus.Rejected)
    else if v == "NEEDS_INFO" then Some(NeedsInfo)
    else None
  }

  /** The enum has exactly eight members, with eight distinct values, and parsing a value gives
      its member back. */
  lemma StatusEnumIsClosed(s: TicketStatus)
    ensures |AllStatuses| == 8 && s in AllStatuses
    ensures forall i, j :: 0 <= i < j < 8 ==> StatusValue(AllStatuses[i]) != StatusValue(AllStatuses[j])
    ensures ParseStatus(StatusValue(s)) == Some(s)
  {
  }

  /** The recorded outcome of a human (or automated) decision. */
  datatype ApprovalDecision = Approved | Rejected | EditedAndApproved

  function DecisionValue(d: ApprovalDecision): string {
    match d
    case Approved => "APPROVED"
    case Rejected => "REJECTED"
    case EditedAndApproved => "EDITED_AND_APPROVED"
  }

  function ParseDecision(v: string): (r: Option<ApprovalDecision>)
    ensures r.Some? ==> DecisionValue(r.value) == v
  {
    if v == "APPROVED" then Some(ApprovalDecision.Approved)
    else if v == "REJECTED" then Some(ApprovalDecision.Rejected)
    else if v == "EDITED_AND_APPROVED" then Some(EditedAndApproved)
    else None
  }

  /** The decision enum has exactly three members and its values parse back. */
  lemma DecisionEnumIsClosed(d: ApprovalDecision)
    ensures d == ApprovalDecision.Approved || d == ApprovalDecision.Rejected || d == EditedAndApproved
    ensures ParseDecision(DecisionValue(d)) == Some(d)
  {
  }

  /** A submitted support request. */
  datatype Ticket = Ticket(
    id: nat,
    subject: string,
    body: string,
    submitterName: string,
    submitterEmail: string,
    attachmentPath: Option<string>,
    predictedQueue: Option<string>,
    queueConfidence: Option<real>,
    criticalProb: Option<real>,
    isCritical: bool,
    predictedLanguage: Option<string>,
    status: TicketStatus,
    createdAt: int,
    triagedAt: Option<int>,
    sentAt: Option<int>)

  /** A new row: status NEW, not critical, no classification, no triage or send time. */
  function NewTicket(id: nat, subject: string, body: string, submitterName: string,
                     submitterEmail: string, attachmentPath: Option<string>, now: int): Ticket
  {
    Ticket(id, subject, body, submitterName, submitterEmail, attachmentPath,
           None, None, None, false, None, New, now, None, None)
  }

  /** Queue, confidence and probability are set together or not at all. */
  predicate ClassifiedTogether(t: Ticket) {
    t.predictedQueue.Some? == t.queueConfidence.Some? == t.criticalProb.Some?
  }

  /** A new ticket is NEW, untriaged and unsent, with its classification fields unset together. */
  lemma NewTicketDefaults(id: nat, subject: string, body: string, name: string, email: string,
                          path: Option<string>, now: int)
    ensures var t := NewTicket(id, subject, body, name, email, path, now);
      && t.status == New && !t.isCritical && t.predictedQueue.None? && ClassifiedTogether(t)
      && t.triagedAt.None? && t.sentAt.None? && t.createdAt == now
  {
  }

  /** One grounding entry stored with a draft: a neighbour's subject and the first 200 characters
      of its answer. */
  datatype ContextEntry = ContextEntry(subject: string, answer: string)

  /** A drafted reply and, once approved, its final content. */
  datatype Response = Response(
    ticketId: nat,
    draftLanguage: Option<string>,
    draftSubject: Option<string>,
    draftBody: Option<string>,
    draftConfidence: Option<real>,
    needsHumanApproval: bool,
    suggestedTags: Option<seq<string>>,
    retrievalContext: Option<seq<ContextEntry>>,
    finalSubject: Option<string>,
    finalBody: Option<string>,
    createdAt: int,
    approvedAt: Option<int>)

  /** A new response row: needs_human_approval defaults to false; every nullable column is
      null, the final content and the approval time included. */
  function NewResponse(ticketId: nat, now: int): Response {
    Response(ticketId, None, None, None, None, false, None, None, None, None, now, None)
  }

  /** A new response carries no final content until an approval writes it. */
  lemma NewResponseDefaults(ticketId: nat, now: int)
    ensures var r := NewResponse(ticketId, now);
      && !r.needsHumanApproval && r.finalSubject.None? && r.finalBody.None? && r.approvedAt.None?
      && r.ticketId == ticketId
  {
  }

  /** One decision on a ticket; rows are only ever appended. */
  datatype Approval = Approval(
    ticketId: nat,
    approverName: string,
    approverEmail: string,
    decision: ApprovalDecision,
    decisionNotes: Option<string>,
    createdAt: int)

  /** The actions the audit trail records. */
  datatype AuditAction = MlPrediction | DraftGenerated | Approved | Rejected | EmailSent

  function ActionName(a: AuditAction): string {
    match a
    case MlPrediction => "ML_PREDICTION"
    case DraftGenerated => "DRAFT_GENERATED"
    case Approved => "APPROVED"
    case Rejected => "REJECTED"
    case EmailSent => "EMAIL_SENT"
  }

  /** The structured details each action stores (JSON text in the table). */
  datatype AuditDetails =
    | PredictionDetails(queue: string, confidence: real, criticalProb: real)
    | DraftDetails(draftConfidence: real, needsApproval: bool)
    | ApprovedDetails(decision: ApprovalDecision, edited: bool)
    | RejectedDetails(reason: Option<string>)
    | EmailSentDetails(to: string)

  datatype AuditLog = AuditLog(
    ticketId: nat,
    action: AuditAction,
    actor: string,
    details: AuditDetails,
    createdAt: int)
}
