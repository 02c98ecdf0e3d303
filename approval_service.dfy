/** The human-in-the-loop approval workflow (backend/services/approval_service.py): approving a
    ticket fixes the reply to send and hands it to the notifier; rejecting records the decision.
    Neither operation looks at the ticket's current status. */
module Approvals {
  import opened Wrappers
  import opened Text
  import opened Models
  import opened Database

  /** The notification service: sends the reply (recipient address and name, subject, body,
      ticket id) and reports whether delivery succeeded. */
  type Notifier = (string, string, Option<string>, Option<string>, nat) -> bool

  /** What approve_and_send returns. */
  datatype ApproveSummary = ApproveSummary(success: bool, ticketId: nat, status: TicketStatus, emailSent: bool)

  /** What reject_ticket returns. */
  datatype RejectSummary = RejectSummary(success: bool, ticketId: nat, status: TicketStatus)

  function TicketNotFound(id: int): string {
    "Ticket " + IntToString(id) + " not found"
  }

  function NoResponseFound(id: int): string {
    "No response found for ticket " + IntToString(id)
  }

  /** An edit counts when it is present and non-empty (Python's truthiness of a str). */
  predicate IsEdit(edit: Option<string>) {
    edit.Some? && edit.value != ""
  }

  /** `edited or draft`: the edit when it counts, the draft value otherwise. */
  function EditOr(edit: Option<string>, draft: Option<string>): (r: Option<string>)
    ensures IsEdit(edit) ==> r == edit
    ensures !IsEdit(edit) ==> r == draft
  {
    if IsEdit(edit) then edit else draft
  }

  /** The decision an approval records: edited when either edit counts. */
  function DecisionFor(editedSubject: Option<string>, editedBody: Option<string>): (d: ApprovalDecision)
    ensures d == EditedAndApproved <==> IsEdit(editedSubject) || IsEdit(editedBody)
    ensures d != ApprovalDecision.Rejected
  {
    if IsEdit(editedSubject) || IsEdit(editedBody) then EditedAndApproved else ApprovalDecision.Approved
  }

  /** The inputs of one approval, as the API passes them on. */
  datatype ApprovalInput = ApprovalInput(approverName: string, approverEmail: string,
                                         editedSubject: Option<string>, editedBody: Option<string>,
                                         notes: Option<string>)

  /** The response row after approval: final content fixed, approval time set. */
  function ApprovedResponse(r: Response, a: ApprovalInput, now: int): Response {
    r.(finalSubject := EditOr(a.editedSubject, r.draftSubject), finalBody := EditOr(a.editedBody, r.draftBody),
       approvedAt := Some(now))
  }

  /** Whether the notifier delivers the approved reply of ticket t. */
  function Delivered(notify: Notifier, t: Ticket, r: Response): bool {
    notify(t.submitterEmail, t.submitterName, r.finalSubject, r.finalBody, t.id)
  }

  /** The audit entries of an approval: APPROVED by the approver, then EMAIL_SENT by the system
      when the reply was delivered. */
  function ApprovalLogs(id: nat, a: ApprovalInput, to: string, delivered: bool, now: int): seq<AuditLog> {
    var decision := DecisionFor(a.editedSubject, a.editedBody);
    [AuditLog(id, AuditAction.Approved, a.approverEmail,
              ApprovedDetails(decision, IsEdit(a.editedSubject) || IsEdit(a.editedBody)), now)]
    + (if delivered then [AuditLog(id, EmailSent, "system", EmailSentDetails(to), now)] else [])
  }

  /** The outcome of approve_and_send for ticket `id`: an error when the ticket or its response is
      missing; otherwise the new tables and the summary. */
  function ApproveOutcome(db: Db, id: int, a: ApprovalInput, notify: Notifier, now: int)
    : (r: Result<(Db, ApproveSummary), string>)
    requires WellFormed(db)
    ensures r.Ok? ==> WellFormed(r.value.0) && |r.value.0.tickets| == |db.tickets| && HasTicket(db, id)
    ensures r.Ok? ==> r.value.1.success && r.value.1.ticketId == id && r.value.1.status == r.value.0.tickets[id - 1].status
  {
    if !HasTicket(db, id) then Err(TicketNotFound(id))
    else match FirstResponse(db.responses, id)
      case None => Err(NoResponseFound(id))
      case Some(k) =>
        var t := db.tickets[id - 1];
        var r := ApprovedResponse(db.responses[k], a, now);
        var delivered := Delivered(notify, t, r);
        var t' := if delivered then t.(status := Sent, sentAt := Some(now)) else t.(status := TicketStatus.Approved);
        var approval := Approval(id, a.approverName, a.approverEmail, DecisionFor(a.editedSubject, a.editedBody),
                                 a.notes, now);
        Ok((Db(db.tickets[id - 1 := t'], db.responses[k := r], db.approvals + [approval],
               db.auditLogs + ApprovalLogs(id, a, t.submitterEmail, delivered, now)),
            ApproveSummary(true, id, t'.status, delivered)))
  }

  /** The outcome of reject_ticket for ticket `id`. */
  function RejectOutcome(db: Db, id: int, approverName: string, approverEmail: string, notes: Option<string>, now: int)
    : (r: Result<(Db, RejectSummary), string>)
    requires WellFormed(db)
    ensures r.Ok? ==> WellFormed(r.value.0) && |r.value.0.tickets| == |db.tickets| && HasTicket(db, id)
    ensures r.Ok? ==> r.value.1 == RejectSummary(true, id, TicketStatus.Rejected)
                      && r.value.0.tickets[id - 1].status == TicketStatus.Rejected
  {
    if !HasTicket(db, id) then Err(TicketNotFound(id))
    else
      var t' := db.tickets[id - 1].(status := TicketStatus.Rejected);
      Ok((Db(db.tickets[id - 1 := t'], db.responses,
             db.approvals + [Approval(id, approverName, approverEmail, ApprovalDecision.Rejected, notes, now)],
             db.auditLogs + [AuditLog(id, AuditAction.Rejected, approverEmail, RejectedDetails(notes), now)]),
          RejectSummary(true, id, TicketStatus.Rejected)))
  }

  // ---------------------------------------------------------------- approval properties

  /** Approval fails exactly when the ticket is missing or has no response, with the message
      naming the ticket; it does not depend on the ticket's status. */
  lemma ApproveFailsOnlyWhenMissing(db: Db, id: int, a: ApprovalInput, notify: Notifier, now: int)
    requires WellFormed(db)
    ensures var o := ApproveOutcome(db, id, a, notify, now);
      && (o.Err? <==> !HasTicket(db, id) || !HasResponse(db, id))
      && (!HasTicket(db, id) ==> o == Err(TicketNotFound(id)))
      && (HasTicket(db, id) && !HasResponse(db, id) ==> o == Err(NoResponseFound(id)))
  {
  }

  /** The reply fixed by an approval is the ticket's first response's draft, with each non-empty
      edit in place of the draft value; the response gets the approval time and keeps its draft. */
  lemma ApprovalFixesFinalContent(db: Db, id: int, a: ApprovalInput, notify: Notifier, now: int)
    requires WellFormed(db) && HasTicket(db, id) && HasResponse(db, id)
    ensures var k := FirstResponse(db.responses, id).value;
      var db' := ApproveOutcome(db, id, a, notify, now).value.0;
      var r := db.responses[k];
      var r' := db'.responses[k];
      && db.responses[k].ticketId == id
      && |db'.responses| == |db.responses|
      && (forall j :: 0 <= j < |db.responses| && j != k ==> db'.responses[j] == db.responses[j])
      && (IsEdit(a.editedSubject) ==> r'.finalSubject == a.editedSubject)
      && (!IsEdit(a.editedSubject) ==> r'.finalSubject == r.draftSubject)
      && (IsEdit(a.editedBody) ==> r'.finalBody == a.editedBody)
      && (!IsEdit(a.editedBody) ==> r'.finalBody == r.draftBody)
      && r'.approvedAt == Some(now)
      && r'.draftSubject == r.draftSubject && r'.draftBody == r.draftBody && r'.ticketId == r.ticketId
  {
  }

  /** An approval appends exactly one Approval row, by the approver, whose decision is
      EDITED_AND_APPROVED exactly when some edit is non-empty, and APPROVED otherwise. */
  lemma ApprovalRecordsDecision(db: Db, id: int, a: ApprovalInput, notify: Notifier, now: int)
    requires WellFormed(db) && HasTicket(db, id) && HasResponse(db, id)
    ensures var db' := ApproveOutcome(db, id, a, notify, now).value.0;
      var x := db'.approvals[|db'.approvals| - 1];
      && |db'.approvals| == |db.approvals| + 1 && db'.approvals[..|db.approvals|] == db.approvals
      && x.ticketId == id && x.approverName == a.approverName && x.approverEmail == a.approverEmail
      && x.decisionNotes == a.notes
      && (x.decision == EditedAndApproved <==> IsEdit(a.editedSubject) || IsEdit(a.editedBody))
      && (x.decision == ApprovalDecision.Approved <==> !IsEdit(a.editedSubject) && !IsEdit(a.editedBody))
  {
    var db' := ApproveOutcome(db, id, a, notify, now).value.0;
    assert db'.approvals[..|db.approvals|] == db.approvals;
  }

  /** An approved ticket is SENT, with its send time, exactly when the notifier delivered the
      reply; otherwise it is APPROVED with its send time unchanged. The summary reports the
      delivery. */
  lemma SentIffDelivered(db: Db, id: int, a: ApprovalInput, notify: Notifier, now: int)
    requires WellFormed(db) && HasTicket(db, id) && HasResponse(db, id)
    ensures var k := FirstResponse(db.responses, id).value;
      var (db', s) := ApproveOutcome(db, id, a, notify, now).value;
      var t := db.tickets[id - 1];
      var t' := db'.tickets[id - 1];
      var delivered := notify(t.submitterEmail, t.submitterName, db'.responses[k].finalSubject,
                              db'.responses[k].finalBody, id);
      && (t'.status == Sent <==> delivered)
      && (t'.status == TicketStatus.Approved <==> !delivered)
      && (delivered ==> t'.sentAt == Some(now))
      && (!delivered ==> t'.sentAt == t.sentAt)
      && s.success && s.ticketId == id && s.emailSent == delivered && s.status == t'.status
  {
    assert db.tickets[id - 1].id == id;
  }

  /** An approval appends an APPROVED entry by the approver, followed by an EMAIL_SENT entry to the
      submitter exactly when the reply was delivered. */
  lemma ApprovalAudit(db: Db, id: int, a: ApprovalInput, notify: Notifier, now: int)
    requires WellFormed(db) && HasTicket(db, id) && HasResponse(db, id)
    ensures var (db', s) := ApproveOutcome(db, id, a, notify, now).value;
      var n := |db.auditLogs|;
      && db'.auditLogs[..n] == db.auditLogs
      && |db'.auditLogs| == n + (if s.emailSent then 2 else 1)
      && db'.auditLogs[n].action == AuditAction.Approved && db'.auditLogs[n].actor == a.approverEmail
      && db'.auditLogs[n].ticketId == id
      && (s.emailSent ==>
            db'.auditLogs[n + 1] == AuditLog(id, EmailSent, "system", EmailSentDetails(db.tickets[id - 1].submitterEmail), now))
  {
    var (db', s) := ApproveOutcome(db, id, a, notify, now).value;
    assert db'.auditLogs[..|db.auditLogs|] == db.auditLogs;
  }

  /** Approval writes only ticket `id` and its first response: every other ticket and response
      stays, and the ticket keeps its classification and contents. */
  lemma ApprovalTouchesOnlyItsTicket(db: Db, id: int, a: ApprovalInput, notify: Notifier, now: int)
    requires WellFormed(db) && HasTicket(db, id) && HasResponse(db, id)
    ensures var db' := ApproveOutcome(db, id, a, notify, now).value.0;
      var t := db.tickets[id - 1];
      var t' := db'.tickets[id - 1];
      && |db'.tickets| == |db.tickets|
      && (forall j :: 0 <= j < |db.tickets| && j != id - 1 ==> db'.tickets[j] == db.tickets[j])
      && t' == t.(status := t'.status, sentAt := t'.sentAt)
  {
  }

  /** Approval keeps the lifecycle invariant, whatever the ticket's status was. */
  lemma ApproveKeepsLifecycle(db: Db, id: int, a: ApprovalInput, notify: Notifier, now: int)
    requires Lifecycle(db)
    ensures ApproveOutcome(db, id, a, notify, now).Ok? ==> Lifecycle(ApproveOutcome(db, id, a, notify, now).value.0)
  {
    if ApproveOutcome(db, id, a, notify, now).Ok? {
      var db' := ApproveOutcome(db, id, a, notify, now).value.0;
      var k := FirstResponse(db.responses, id).value;
      var r := ApprovedResponse(db.responses[k], a, now);
      assert db'.responses == db.responses[k := r];
      assert db.tickets[id - 1].id == id;
      assert TicketInLifecycle(db, db.tickets[id - 1]);
      forall x | true ensures FirstResponse(db'.responses, x) == FirstResponse(db.responses, x) {
        FirstResponseUpdate(db.responses, k, r, x, 0);
      }
      LifecycleAfterUpdate(db, db', id - 1);
    }
  }

  // ---------------------------------------------------------------- rejection properties

  /** Rejection fails exactly when the ticket is missing. Otherwise it appends a REJECTED Approval
      carrying the notes (which may be absent), sets the ticket REJECTED, appends a REJECTED audit
      entry, and leaves the responses and every other ticket alone. */
  lemma RejectRecordsDecision(db: Db, id: int, name: string, email: string, notes: Option<string>, now: int)
    requires WellFormed(db)
    ensures var o := RejectOutcome(db, id, name, email, notes, now);
      && (o.Err? <==> !HasTicket(db, id))
      && (o.Err? ==> o.error == TicketNotFound(id))
      && (o.Ok? ==>
            var (db', s) := o.value;
            && db'.tickets[id - 1] == db.tickets[id - 1].(status := TicketStatus.Rejected)
            && (forall j :: 0 <= j < |db.tickets| && j != id - 1 ==> db'.tickets[j] == db.tickets[j])
            && |db'.tickets| == |db.tickets|
            && db'.responses == db.responses
            && db'.approvals == db.approvals + [Approval(id, name, email, ApprovalDecision.Rejected, notes, now)]
            && db'.auditLogs == db.auditLogs + [AuditLog(id, AuditAction.Rejected, email, RejectedDetails(notes), now)]
            && s == RejectSummary(true, id, TicketStatus.Rejected))
  {
  }

  /** Rejection keeps the lifecycle invariant, whatever the ticket's status was. */
  lemma RejectKeepsLifecycle(db: Db, id: int, name: string, email: string, notes: Option<string>, now: int)
    requires Lifecycle(db)
    ensures RejectOutcome(db, id, name, email, notes, now).Ok? ==>
              Lifecycle(RejectOutcome(db, id, name, email, notes, now).value.0)
  {
    if HasTicket(db, id) {
      var db' := RejectOutcome(db, id, name, email, notes, now).value.0;
      assert db.tickets[id - 1].id == id;
      assert TicketInLifecycle(db, db.tickets[id - 1]);
      LifecycleAfterUpdate(db, db', id - 1);
    }
  }

  // ---------------------------------------------------------------- the service

  /** The approval service, holding the notification service it sends replies through. */
  class ApprovalService {
    const notify: Notifier

    constructor (notify: Notifier)
      ensures this.notify == notify
    {
      this.notify := notify;
    }

    /** approve_and_send: the tables end as ApproveOutcome describes; on an error nothing changes. */
    method ApproveAndSend(ticketId: int, a: ApprovalInput, db: Session, now: int)
      returns (r: Result<ApproveSummary, string>)
      requires db.Valid()
      modifies db
      ensures db.Valid()
      ensures var o := ApproveOutcome(old(db.State()), ticketId, a, notify, now);
        && (o.Err? ==> r == Err(o.error) && db.State() == old(db.State()))
        && (o.Ok? ==> db.State() == o.value.0 && r == Ok(o.value.1))
    {
      if !(1 <= ticketId <= |db.tickets|) {
        return Err(TicketNotFound(ticketId));
      }
      var found := FirstResponse(db.responses, ticketId);
      if found.None? {
        return Err(NoResponseFound(ticketId));
      }
      ghost var db0 := db.State();
      var k := found.value;
      var ticket := db.tickets[ticketId - 1];
      var response := db.responses[k];

      var finalSubject := EditOr(a.editedSubject, response.draftSubject);
      var finalBody := EditOr(a.editedBody, response.draftBody);
      response := response.(finalSubject := finalSubject, finalBody := finalBody, approvedAt := Some(now));
      db.responses := db.responses[k := response];

      var decision := DecisionFor(a.editedSubject, a.editedBody);
      db.approvals := db.approvals + [Approval(ticketId, a.approverName, a.approverEmail, decision, a.notes, now)];

      ticket := ticket.(status := TicketStatus.Approved);
      db.auditLogs := db.auditLogs + [AuditLog(ticketId, AuditAction.Approved, a.approverEmail,
                                               ApprovedDetails(decision, IsEdit(a.editedSubject) || IsEdit(a.editedBody)), now)];

      var sent := notify(ticket.submitterEmail, ticket.submitterName, finalSubject, finalBody, ticketId);
      if sent {
        ticket := ticket.(status := Sent, sentAt := Some(now));
        db.auditLogs := db.auditLogs + [AuditLog(ticketId, EmailSent, "system", EmailSentDetails(ticket.submitterEmail), now)];
      }
      db.tickets := db.tickets[ticketId - 1 := ticket];
      r := Ok(ApproveSummary(true, ticketId, ticket.status, sent));

      assert db0.tickets[ticketId - 1].id == ticketId;
      assert db.State() == ApproveOutcome(db0, ticketId, a, notify, now).value.0;
      ApproveKeepsLifecycle(db0, ticketId, a, notify, now);
    }

    /** reject_ticket: the tables end as RejectOutcome describes; on an error nothing changes. */
    method RejectTicket(ticketId: int, approverName: string, approverEmail: string, notes: Option<string>,
                        db: Session, now: int)
      returns (r: Result<RejectSummary, string>)
      requires db.Valid()
      modifies db
      ensures db.Valid()
      ensures var o := RejectOutcome(old(db.State()), ticketId, approverName, approverEmail, notes, now);
        && (o.Err? ==> r == Err(o.error) && db.State() == old(db.State()))
        && (o.Ok? ==> db.State() == o.value.0 && r == Ok(o.value.1))
    {
      if !(1 <= ticketId <= |db.tickets|) {
        return Err(TicketNotFound(ticketId));
      }
      ghost var db0 := db.State();
      db.approvals := db.approvals + [Approval(ticketId, approverName, approverEmail, ApprovalDecision.Rejected, notes, now)];
      var ticket := db.tickets[ticketId - 1].(status := TicketStatus.Rejected);
      db.tickets := db.tickets[ticketId - 1 := ticket];
      db.auditLogs := db.auditLogs + [AuditLog(ticketId, AuditAction.Rejected, approverEmail, RejectedDetails(notes), now)];
      r := Ok(RejectSummary(true, ticketId, ticket.status));
      RejectKeepsLifecycle(db0, ticketId, approverName, approverEmail, notes, now);
    }
  }
}
