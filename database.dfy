/** The ticket store as the services see it through their database session: four tables whose
    rows keep insertion order. A ticket's id is its position plus one (ids are assigned 1, 2, 3, ...
    and tickets are never deleted), so looking a ticket up is indexing. */
module Database {
  import opened Wrappers
  import opened Models

  /** The contents of the four tables. */
  datatype Db = Db(tickets: seq<Ticket>, responses: seq<Response>, approvals: seq<Approval>,
                   auditLogs: seq<AuditLog>)

  /** Ticket ids match positions, and every response, approval and audit row belongs to a ticket. */
  predicate WellFormed(db: Db) {
    && (forall i :: 0 <= i < |db.tickets| ==> db.tickets[i].id == i + 1)
    && (forall i :: 0 <= i < |db.responses| ==> 1 <= db.responses[i].ticketId <= |db.tickets|)
    && (forall i :: 0 <= i < |db.approvals| ==> 1 <= db.approvals[i].ticketId <= |db.tickets|)
    && (forall i :: 0 <= i < |db.auditLogs| ==> 1 <= db.auditLogs[i].ticketId <= |db.tickets|)
  }

  predicate HasTicket(db: Db, id: int) {
    1 <= id <= |db.tickets|
  }

  /** db.query(Ticket).filter(Ticket.id == id).first() */
  function FindTicket(db: Db, id: int): (r: Option<Ticket>)
    requires WellFormed(db)
    ensures r.Some? <==> exists i :: 0 <= i < |db.tickets| && db.tickets[i].id == id
    ensures r.Some? ==> r.value in db.tickets && r.value.id == id
  {
    if HasTicket(db, id) then Some(db.tickets[id - 1]) else None
  }

  /** The position of the first response row of ticket `id` at or after position i. */
  function FirstResponseFrom(rs: seq<Response>, id: int, i: nat): (r: Option<nat>)
    requires i <= |rs|
    ensures r.Some? ==> i <= r.value < |rs| && rs[r.value].ticketId == id
                        && forall k :: i <= k < r.value ==> rs[k].ticketId != id
    ensures r.None? ==> forall k :: i <= k < |rs| ==> rs[k].ticketId != id
    decreases |rs| - i
  {
    if i == |rs| then None
    else if rs[i].ticketId == id then Some(i)
    else FirstResponseFrom(rs, id, i + 1)
  }

  /** db.query(Response).filter(Response.ticket_id == id).first(): with no ORDER BY, the row
      inserted first. */
  function FirstResponse(rs: seq<Response>, id: int): Option<nat> {
    FirstResponseFrom(rs, id, 0)
  }

  predicate HasResponse(db: Db, id: int) {
    FirstResponse(db.responses, id).Some?
  }

  /** A ticket's own rows of a table, in insertion order (the ORM relationships `responses`,
      `approvals` and `audit_logs`); `owner` gives the ticket a row belongs to. Each row of the
      ticket appears as often as it does in the table. */
  function RowsOf<T(!new)>(xs: seq<T>, owner: T -> int, id: int): (r: seq<T>)
    ensures |r| <= |xs|
    ensures forall x :: x in r <==> x in xs && owner(x) == id
  {
    if xs == [] then []
    else (if owner(xs[0]) == id then [xs[0]] else []) + RowsOf(xs[1..], owner, id)
  }

  /** Each row of the ticket appears as often as it does in the table, and no other row does. */
  lemma {:induction false} RowsOfCounts<T(!new)>(xs: seq<T>, owner: T -> int, id: int, x: T)
    ensures multiset(RowsOf(xs, owner, id))[x] == if owner(x) == id then multiset(xs)[x] else 0
  {
    if xs != [] {
      RowsOfCounts(xs[1..], owner, id, x);
      assert xs == [xs[0]] + xs[1..];
    }
  }

  function ResponseOwner(r: Response): int { r.ticketId }
  function ApprovalOwner(a: Approval): int { a.ticketId }
  function AuditLogOwner(l: AuditLog): int { l.ticketId }

  /** A single row is the ticket's own exactly when it belongs to the ticket. */
  lemma RowsOfSingle<T(!new)>(x: T, owner: T -> int, id: int)
    ensures RowsOf([x], owner, id) == if owner(x) == id then [x] else []
  {
    assert [x][1..] == [];
  }

  /** The per-ticket view distributes over appending rows: a ticket's rows keep their order, and
      rows appended to the table are appended, in order, to their own ticket's rows. */
  lemma {:induction false} RowsOfAppend<T(!new)>(xs: seq<T>, ys: seq<T>, owner: T -> int, id: int)
    ensures RowsOf(xs + ys, owner, id) == RowsOf(xs, owner, id) + RowsOf(ys, owner, id)
  {
    if xs == [] {
      assert xs + ys == ys;
    } else {
      assert (xs + ys)[0] == xs[0] && (xs + ys)[1..] == xs[1..] + ys;
      RowsOfAppend(xs[1..], ys, owner, id);
    }
  }

  /** The lifecycle invariant every operation of the services and the API keeps:
      - classification fields are set together or not at all;
      - NEEDS_INFO is never reached;
      - a ticket that went through triage, or has a response, carries its classification;
      - a DRAFTED, APPROVED or SENT ticket has a response to send;
      - a SENT ticket has its send time. */
  predicate Lifecycle(db: Db) {
    && WellFormed(db)
    && forall i :: 0 <= i < |db.tickets| ==> TicketInLifecycle(db, db.tickets[i])
  }

  predicate TicketInLifecycle(db: Db, t: Ticket) {
    && ClassifiedTogether(t)
    && t.status != NeedsInfo
    && (t.status in {Triaged, Drafted, PendingApproval, TicketStatus.Approved, Sent} ==> t.predictedQueue.Some?)
    && (HasResponse(db, t.id) ==> t.predictedQueue.Some?)
    && (t.status in {Drafted, TicketStatus.Approved, Sent} ==> HasResponse(db, t.id))
    && (t.status == Sent ==> t.sentAt.Some?)
  }

  /** Appending rows never takes away a response another ticket relies on. */
  lemma {:induction false} HasResponseAppend(rs: seq<Response>, extra: seq<Response>, id: int)
    requires FirstResponse(rs, id).Some?
    ensures FirstResponse(rs + extra, id) == FirstResponse(rs, id)
  {
    var j := FirstResponse(rs, id).value;
    FirstResponseStable(rs, rs + extra, id, 0, j);
  }

  /** Two tables that agree on positions below j + 1 have the same first response for `id`
      when that response is at j. */
  lemma {:induction false} FirstResponseStable(rs: seq<Response>, rs': seq<Response>, id: int, i: nat, j: nat)
    requires i <= j < |rs| <= |rs'| && rs[..j + 1] == rs'[..j + 1]
    requires FirstResponseFrom(rs, id, i) == Some(j)
    ensures FirstResponseFrom(rs', id, i) == Some(j)
    decreases j - i
  {
    assert rs[i] == rs[..j + 1][i] == rs'[..j + 1][i] == rs'[i];
    if i < j {
      FirstResponseStable(rs, rs', id, i + 1, j);
    }
  }

  /** Rewriting the fields of a response row, other than its ticket id, keeps every ticket's
      first response where it was. */
  lemma {:induction false} FirstResponseUpdate(rs: seq<Response>, k: nat, r: Response, id: int, i: nat)
    requires k < |rs| && rs[k].ticketId == r.ticketId && i <= |rs|
    ensures FirstResponseFrom(rs[k := r], id, i) == FirstResponseFrom(rs, id, i)
    decreases |rs| - i
  {
    if i < |rs| {
      FirstResponseUpdate(rs, k, r, id, i + 1);
    }
  }

  /** A response appended for a ticket gives the ticket a first response. */
  lemma HasResponseAppendOwn(rs: seq<Response>, r: Response)
    ensures FirstResponse(rs + [r], r.ticketId).Some?
  {
    var rs' := rs + [r];
    assert rs'[|rs|] == r;
  }

  /** A response appended for one ticket leaves every other ticket's first response where it was. */
  lemma {:induction false} FirstResponseAppendOther(rs: seq<Response>, r: Response, id: int, i: nat)
    requires id != r.ticketId && i <= |rs|
    ensures FirstResponseFrom(rs + [r], id, i) == FirstResponseFrom(rs, id, i)
    decreases |rs| - i
  {
    var rs' := rs + [r];
    if i == |rs| {
      assert rs'[i] == r;
      assert FirstResponseFrom(rs', id, i + 1) == None;
    } else {
      assert rs'[i] == rs[i];
      FirstResponseAppendOther(rs, r, id, i + 1);
    }
  }

  /** An operation that rewrites ticket i, keeps every other ticket, keeps every ticket's response,
      gives no other ticket a new one, and leaves the tables well formed keeps the lifecycle
      invariant when ticket i satisfies it. */
  lemma LifecycleAfterUpdate(db: Db, db': Db, i: nat)
    requires Lifecycle(db) && WellFormed(db') && |db'.tickets| == |db.tickets| && i < |db.tickets|
    requires forall j :: 0 <= j < |db.tickets| && j != i ==> db'.tickets[j] == db.tickets[j]
    requires forall id :: HasResponse(db, id) ==> HasResponse(db', id)
    requires forall id :: id != i + 1 && HasResponse(db', id) ==> HasResponse(db, id)
    requires TicketInLifecycle(db', db'.tickets[i])
    ensures Lifecycle(db')
  {
    forall j | 0 <= j < |db'.tickets| ensures TicketInLifecycle(db', db'.tickets[j]) {
      if j != i {
        assert TicketInLifecycle(db, db.tickets[j]);
      }
    }
  }

  /** The database session: the tables' rows, which the services append to and update in place.
      Committing is not modelled: one operation's changes are one state update. */
  class Session {
    var tickets: seq<Ticket>
    var responses: seq<Response>
    var approvals: seq<Approval>
    var auditLogs: seq<AuditLog>

    function State(): Db
      reads this
    {
      Db(tickets, responses, approvals, auditLogs)
    }

    ghost predicate Valid()
      reads this
    {
      Lifecycle(State())
    }

    /** An empty database. */
    constructor ()
      ensures Valid() && State() == Db([], [], [], [])
    {
      tickets, responses, approvals, auditLogs := [], [], [], [];
    }
  }
}
