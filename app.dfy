/** The HTTP API (backend/app.py): ticket creation and lookup, the filtered listing, the
    approval queue, the dashboard figures and the per-day series, and the mapping of service
    errors to HTTP errors. Queries read the tables; create_ticket appends to them. */
module Api {
  import opened Wrappers
  import opened Text
  import opened Models
  import opened Database
  import opened Retrieval
  import opened GenerateReply
  import opened Predictors
  import opened Triage
  import opened Approvals
  import opened Calendar
  import opened Schemas

  /** An HTTPException: status code and detail. */
  datatype HttpError = HttpError(code: nat, detail: string)

  // ---------------------------------------------------------------- create_ticket

  /** An uploaded file: its declared size (absent when unknown) and name. */
  datatype Upload = Upload(size: Option<int>, filename: string)

  /** The default of MAX_FILE_SIZE_MB. */
  const DefaultMaxFileSizeMb := 10

  function TooLarge(maxSizeMb: int): string {
    "File too large (max " + IntToString(maxSizeMb) + "MB)"
  }

  /** `attachment.size and attachment.size > max_size_mb * 1024 * 1024`: an unknown or zero size
      is never too large. */
  predicate Oversized(u: Upload, maxSizeMb: int) {
    u.size.Some? && u.size.value != 0 && u.size.value > maxSizeMb * 1024 * 1024
  }

  /** The outcome of create_ticket. `store` saves an attachment and gives the path it was saved
      under. */
  function CreateOutcome(db: Db, subject: string, body: string, name: string, email: string,
                         attachment: Option<Upload>, maxSizeMb: int, store: string -> string, now: int)
    : (r: Result<(Db, Ticket), HttpError>)
    ensures r.Err? ==> r.error == HttpError(400, TooLarge(maxSizeMb))
    ensures r.Ok? ==> r.value.0.tickets == db.tickets + [r.value.1] && r.value.1.id == |db.tickets| + 1
  {
    if attachment.Some? && Oversized(attachment.value, maxSizeMb) then Err(HttpError(400, TooLarge(maxSizeMb)))
    else
      var path := if attachment.Some? then Some(store(attachment.value.filename)) else None;
      var t := NewTicket(|db.tickets| + 1, subject, body, name, email, path, now);
      Ok((db.(tickets := db.tickets + [t]), t))
  }

  /** An oversized attachment is refused with 400 before anything is stored; otherwise exactly one
      ticket is appended, NEW and unclassified, with the next id and the submitted fields, and no
      other table changes. */
  lemma CreateTicketOutcome(db: Db, subject: string, body: string, name: string, email: string,
                            attachment: Option<Upload>, maxSizeMb: int, store: string -> string, now: int)
    ensures var o := CreateOutcome(db, subject, body, name, email, attachment, maxSizeMb, store, now);
      && (o.Err? <==> attachment.Some? && Oversized(attachment.value, maxSizeMb))
      && (o.Err? ==> o.error == HttpError(400, TooLarge(maxSizeMb)))
      && (o.Ok? ==>
            var (db', t) := o.value;
            && db'.tickets == db.tickets + [t]
            && db'.responses == db.responses && db'.approvals == db.approvals && db'.auditLogs == db.auditLogs
            && t.id == |db.tickets| + 1 && t.status == New && !t.isCritical && t.predictedQueue.None?
            && t.triagedAt.None? && t.sentAt.None? && t.createdAt == now
            && t.subject == subject && t.body == body && t.submitterName == name && t.submitterEmail == email
            && (t.attachmentPath.Some? <==> attachment.Some?))
  {
  }

  /** Creating a ticket keeps the lifecycle invariant: the new ticket has no response yet. */
  lemma CreateKeepsLifecycle(db: Db, subject: string, body: string, name: string, email: string,
                             attachment: Option<Upload>, maxSizeMb: int, store: string -> string, now: int)
    requires Lifecycle(db)
    ensures var o := CreateOutcome(db, subject, body, name, email, attachment, maxSizeMb, store, now);
      o.Ok? ==> Lifecycle(o.value.0)
  {
    var o := CreateOutcome(db, subject, body, name, email, attachment, maxSizeMb, store, now);
    if o.Ok? {
      var (db', t) := o.value;
      NoResponseForNewId(db);
      forall i | 0 <= i < |db.tickets| ensures TicketInLifecycle(db', db'.tickets[i]) {
        assert db'.tickets[i] == db.tickets[i];
        assert TicketInLifecycle(db, db.tickets[i]);
      }
      assert db'.tickets[|db.tickets|] == t;
    }
  }

  /** No response row belongs to the id the next ticket gets. */
  lemma NoResponseForNewId(db: Db)
    requires WellFormed(db)
    ensures !HasResponse(db, |db.tickets| + 1)
  {
    var r := FirstResponse(db.responses, |db.tickets| + 1);
    if r.Some? {
      assert false;
    }
  }

  /** create_ticket: the tables end as CreateOutcome describes. */
  method CreateTicket(db: Session, subject: string, body: string, name: string, email: string,
                      attachment: Option<Upload>, maxSizeMb: int, store: string -> string, now: int)
    returns (r: Result<Ticket, HttpError>)
    requires db.Valid()
    modifies db
    ensures db.Valid()
    ensures var o := CreateOutcome(old(db.State()), subject, body, name, email, attachment, maxSizeMb, store, now);
      && (o.Err? ==> r == Err(o.error) && db.State() == old(db.State()))
      && (o.Ok? ==> db.State() == o.value.0 && r == Ok(o.value.1))
  {
    ghost var db0 := db.State();
    var attachmentPath: Option<string> := None;
    if attachment.Some? {
      var u := attachment.value;
      if u.size.Some? && u.size.value != 0 && u.size.value > maxSizeMb * 1024 * 1024 {
        return Err(HttpError(400, TooLarge(maxSizeMb)));
      }
      attachmentPath := Some(store(u.filename));
    }
    var t := NewTicket(|db.tickets| + 1, subject, body, name, email, attachmentPath, now);
    db.tickets := db.tickets + [t];
    r := Ok(t);
    CreateKeepsLifecycle(db0, subject, body, name, email, attachment, maxSizeMb, store, now);
  }

  // ---------------------------------------------------------------- get_ticket

  /** A ticket with its responses and approvals. */
  datatype TicketDetail = TicketDetail(ticket: Ticket, responses: seq<Response>, approvals: seq<Approval>)

  function GetTicket(db: Db, id: int): (r: Result<TicketDetail, HttpError>)
    requires WellFormed(db)
    ensures r.Err? <==> FindTicket(db, id).None?
    ensures r.Err? ==> r.error == HttpError(404, TicketNotFound(id))
    ensures r.Ok? ==> r.value.ticket.id == id && r.value.ticket in db.tickets
                      && r.value.responses == RowsOf(db.responses, ResponseOwner, id)
                      && r.value.approvals == RowsOf(db.approvals, ApprovalOwner, id)
                      && (forall x :: x in r.value.responses <==> x in db.responses && x.ticketId == id)
                      && (forall x :: x in r.value.approvals <==> x in db.approvals && x.ticketId == id)
  {
    match FindTicket(db, id)
    case None => Err(HttpError(404, TicketNotFound(id)))
    case Some(t) => Ok(TicketDetail(t, RowsOf(db.responses, ResponseOwner, id), RowsOf(db.approvals, ApprovalOwner, id)))
  }

  // ---------------------------------------------------------------- list_tickets

  /** The optional filters of list_tickets. An empty queue or address filters nothing. */
  datatype Filters = Filters(status: Option<TicketStatus>, queue: Option<string>, isCritical: Option<bool>,
                             submitterEmail: Option<string>)

  predicate Matches(t: Ticket, f: Filters) {
    && (f.status.Some? ==> t.status == f.status.value)
    && (f.queue.Some? && f.queue.value != "" ==> t.predictedQueue == f.queue)
    && (f.isCritical.Some? ==> t.isCritical == f.isCritical.value)
    && (f.submitterEmail.Some? && f.submitterEmail.value != "" ==> t.submitterEmail == f.submitterEmail.value)
  }

  function Matching(ts: seq<Ticket>, f: Filters): (r: seq<Ticket>)
    ensures |r| <= |ts|
    ensures forall t :: t in r <==> t in ts && Matches(t, f)
  {
    if ts == [] then []
    else (if Matches(ts[0], f) then [ts[0]] else []) + Matching(ts[1..], f)
  }

  /** ORDER BY created_at DESC; rows with the same creation time keep the order they were added in. */
  function NewestFirst(ts: seq<Ticket>): (r: seq<Ticket>)
    ensures |r| == |ts|
  {
    if ts == [] then [] else InsertByAge(ts[0], NewestFirst(ts[1..]))
  }

  function InsertByAge(t: Ticket, s: seq<Ticket>): (r: seq<Ticket>)
    ensures |r| == |s| + 1
  {
    if s == [] then [t]
    else if t.createdAt >= s[0].createdAt then [t] + s
    else [s[0]] + InsertByAge(t, s[1..])
  }

  predicate NewestFirstOrder(s: seq<Ticket>) {
    forall i, j :: 0 <= i < j < |s| ==> s[i].createdAt >= s[j].createdAt
  }

  lemma {:induction false} InsertByAgeMembers(t: Ticket, s: seq<Ticket>)
    ensures |InsertByAge(t, s)| == |s| + 1
    ensures forall x :: x in InsertByAge(t, s) <==> x == t || x in s
  {
    if s != [] && t.createdAt < s[0].createdAt {
      InsertByAgeMembers(t, s[1..]);
      assert s == [s[0]] + s[1..];
    }
  }

  lemma {:induction false} InsertByAgePermutes(t: Ticket, s: seq<Ticket>)
    ensures multiset(InsertByAge(t, s)) == multiset(s) + multiset{t}
  {
    if s != [] && t.createdAt < s[0].createdAt {
      InsertByAgePermutes(t, s[1..]);
      assert s == [s[0]] + s[1..];
    }
  }

  lemma {:induction false} InsertByAgeOrders(t: Ticket, s: seq<Ticket>)
    requires NewestFirstOrder(s)
    ensures NewestFirstOrder(InsertByAge(t, s))
  {
    if s != [] && t.createdAt < s[0].createdAt {
      InsertByAgeOrders(t, s[1..]);
      InsertByAgeMembers(t, s[1..]);
      var rest := InsertByAge(t, s[1..]);
      forall j | 0 <= j < |rest| ensures rest[j].createdAt <= s[0].createdAt {
        var x := rest[j];
        assert x in rest;
        if x != t {
          var k :| 0 <= k < |s[1..]| && s[1..][k] == x;
          assert s[k + 1] == x;
        }
      }
      var r := InsertByAge(t, s);
      assert r == [s[0]] + rest;
      forall i, j | 0 <= i < j < |r| ensures r[i].createdAt >= r[j].createdAt {
        if i > 0 {
          assert r[i] == rest[i - 1] && r[j] == rest[j - 1];
        } else {
          assert r[j] == rest[j - 1];
        }
      }
    }
  }

  /** The ordering is a permutation, newest first. */
  lemma {:induction false} NewestFirstSorts(ts: seq<Ticket>)
    ensures NewestFirstOrder(NewestFirst(ts)) && multiset(NewestFirst(ts)) == multiset(ts)
    ensures |NewestFirst(ts)| == |ts|
    ensures forall x :: x in NewestFirst(ts) <==> x in ts
  {
    if ts != [] {
      NewestFirstSorts(ts[1..]);
      InsertByAgeMembers(ts[0], NewestFirst(ts[1..]));
      InsertByAgePermutes(ts[0], NewestFirst(ts[1..]));
      InsertByAgeOrders(ts[0], NewestFirst(ts[1..]));
      assert ts == [ts[0]] + ts[1..];
    }
  }

  /** OFFSET skip LIMIT limit. */
  function Page<T>(s: seq<T>, skip: nat, limit: nat): (r: seq<T>)
    ensures |r| <= limit
    ensures forall i :: 0 <= i < |r| ==> skip + i < |s| && r[i] == s[skip + i]
    ensures |r| == if skip + limit <= |s| then limit else if skip <= |s| then |s| - skip else 0
  {
    var from := if skip <= |s| then skip else |s|;
    var to := if from + limit <= |s| then from + limit else |s|;
    s[from..to]
  }

  /** list_tickets (skip defaults to 0, limit to 100). */
  function ListTickets(db: Db, f: Filters, skip: nat, limit: nat): (r: seq<Ticket>)
    ensures |r| <= limit && |r| <= |db.tickets|
  {
    Page(NewestFirst(Matching(db.tickets, f)), skip, limit)
  }

  /** The listing holds only stored tickets that match every filter given, newest first, at most
      `limit` of them; the page is the window [skip, skip + limit) of the full ordered result, which
      holds every matching ticket as often as it is stored. */
  lemma ListTicketsMeaning(db: Db, f: Filters, skip: nat, limit: nat)
    ensures var all := NewestFirst(Matching(db.tickets, f));
      var r := ListTickets(db, f, skip, limit);
      && multiset(all) == multiset(Matching(db.tickets, f))
      && NewestFirstOrder(all)
      && (forall t :: t in all <==> t in db.tickets && Matches(t, f))
      && |r| <= limit
      && |r| == (if skip + limit <= |all| then limit else if skip <= |all| then |all| - skip else 0)
      && (forall i :: 0 <= i < |r| ==> r[i] == all[skip + i])
      && NewestFirstOrder(r)
      && (forall t :: t in r ==> t in db.tickets && Matches(t, f))
  {
    var m := Matching(db.tickets, f);
    var all := NewestFirst(m);
    NewestFirstSorts(m);
    var r := ListTickets(db, f, skip, limit);
    forall i | 0 <= i < |r| ensures r[i] in all {
      assert r[i] == all[skip + i];
    }
  }

  // ---------------------------------------------------------------- get_pending_approvals

  datatype PendingApprovalItem = PendingApprovalItem(ticketId: nat, subject: string, submitterEmail: string,
                                                     predictedQueue: string, criticalProb: real, createdAt: int,
                                                     draftSubject: Option<string>, draftBody: Option<string>)

  function PendingTickets(db: Db): seq<Ticket> {
    NewestFirst(Matching(db.tickets, Filters(Some(PendingApproval), None, None, None)))
  }

  /** One item: the ticket's fields with "Unknown" for a missing (or empty) queue, 0.0 for a
      missing probability, and the draft of its first response, if any. */
  function PendingItemOf(db: Db, t: Ticket): PendingApprovalItem {
    var response := FirstResponse(db.responses, t.id);
    PendingApprovalItem(
      t.id, t.subject, t.submitterEmail,
      if t.predictedQueue.Some? && t.predictedQueue.value != "" then t.predictedQueue.value else "Unknown",
      t.criticalProb.GetOr(0.0), t.createdAt,
      if response.Some? then db.responses[response.value].draftSubject else None,
      if response.Some? then db.responses[response.value].draftBody else None)
  }

  function PendingItems(db: Db): (r: seq<PendingApprovalItem>)
    ensures |r| == |PendingTickets(db)|
  {
    var ts := PendingTickets(db);
    seq(|ts|, i requires 0 <= i < |ts| => PendingItemOf(db, ts[i]))
  }

  /** get_pending_approvals: builds the items one ticket at a time. */
  method GetPendingApprovals(db: Session) returns (results: seq<PendingApprovalItem>)
    ensures results == PendingItems(db.State())
  {
    var tickets := PendingTickets(db.State());
    results := [];
    var i := 0;
    while i < |tickets|
      invariant 0 <= i <= |tickets|
      invariant |results| == i
      invariant forall j :: 0 <= j < i ==> results[j] == PendingItemOf(db.State(), tickets[j])
    {
      var ticket := tickets[i];
      var response := FirstResponse(db.responses, ticket.id);
      var item := PendingApprovalItem(
        ticket.id, ticket.subject, ticket.submitterEmail,
        if ticket.predictedQueue.Some? && ticket.predictedQueue.value != "" then ticket.predictedQueue.value else "Unknown",
        if ticket.criticalProb.Some? then ticket.criticalProb.value else 0.0,
        ticket.createdAt,
        if response.Some? then db.responses[response.value].draftSubject else None,
        if response.Some? then db.responses[response.value].draftBody else None);
      results := results + [item];
      i := i + 1;
    }
  }

  /** The approval queue lists exactly the PENDING_APPROVAL tickets, newest first, one item each:
      the ticket's id, subject, address and creation time, its queue ("Unknown" when null or
      empty) and probability (0.0 when null), and the draft of its first response, if any. */
  lemma PendingItemsMeaning(db: Db)
    ensures var items := PendingItems(db);
      var ts := PendingTickets(db);
      && (forall t :: t in ts <==> t in db.tickets && t.status == PendingApproval)
      && multiset(ts) == multiset(Matching(db.tickets, Filters(Some(PendingApproval), None, None, None)))
      && (forall i, j :: 0 <= i < j < |items| ==> items[i].createdAt >= items[j].createdAt)
      && forall i :: 0 <= i < |items| ==>
           && items[i].ticketId == ts[i].id && items[i].subject == ts[i].subject
           && items[i].submitterEmail == ts[i].submitterEmail && items[i].createdAt == ts[i].createdAt
           && (ts[i].predictedQueue.None? ==> items[i].predictedQueue == "Unknown")
           && (ts[i].predictedQueue == Some("") ==> items[i].predictedQueue == "Unknown")
           && (ts[i].predictedQueue.Some? && ts[i].predictedQueue.value != "" ==>
                 items[i].predictedQueue == ts[i].predictedQueue.value)
           && (ts[i].criticalProb.None? ==> items[i].criticalProb == 0.0)
           && (ts[i].criticalProb.Some? ==> items[i].criticalProb == ts[i].criticalProb.value)
           && (!HasResponse(db, ts[i].id) ==> items[i].draftSubject.None? && items[i].draftBody.None?)
           && (HasResponse(db, ts[i].id) ==>
                 var first := db.responses[FirstResponse(db.responses, ts[i].id).value];
                 items[i].draftSubject == first.draftSubject && items[i].draftBody == first.draftBody)
  {
    ListTicketsMeaning(db, Filters(Some(PendingApproval), None, None, None), 0, 0);
  }

  // ---------------------------------------------------------------- get_dashboard_summary

  datatype DashboardSummary = DashboardSummary(
    totalTickets: nat, openTickets: nat, criticalCount: nat, pendingApprovalCount: nat,
    avgResponseTimeHours: Option<real>, ticketsByQueue: map<string, nat>, ticketsByPriority: map<string, nat>,
    ticketsByStatus: map<string, nat>)

  /** COUNT(id) over the tickets that satisfy p. */
  function CountWhere(ts: seq<Ticket>, p: Ticket -> bool): (n: nat)
    ensures n <= |ts|
  {
    if ts == [] then 0 else (if p(ts[0]) then 1 else 0) + CountWhere(ts[1..], p)
  }

  /** The tickets that satisfy p and those that do not make up all tickets. */
  lemma {:induction false} CountSplit(ts: seq<Ticket>, p: Ticket -> bool, q: Ticket -> bool)
    requires forall t :: q(t) == !p(t)
    ensures CountWhere(ts, p) + CountWhere(ts, q) == |ts|
  {
    if ts != [] {
      CountSplit(ts[1..], p, q);
    }
  }

  /** Some ticket satisfies p exactly when the count is positive. */
  lemma {:induction false} CountPositive(ts: seq<Ticket>, p: Ticket -> bool)
    ensures CountWhere(ts, p) > 0 <==> exists t :: t in ts && p(t)
  {
    if ts != [] {
      CountPositive(ts[1..], p);
      assert forall t :: t in ts <==> t == ts[0] || t in ts[1..];
    }
  }

  function QueuesOf(ts: seq<Ticket>): set<string> {
    set t | t in ts && t.predictedQueue.Some? :: t.predictedQueue.value
  }

  function StatusesOf(ts: seq<Ticket>): set<string> {
    set t | t in ts :: StatusValue(t.status)
  }

  function SentTickets(ts: seq<Ticket>): (r: seq<Ticket>)
    ensures forall t :: t in r ==> t.sentAt.Some?
    ensures |r| == 0 <==> forall t :: t in ts ==> t.sentAt.None?
  {
    if ts == [] then []
    else (if ts[0].sentAt.Some? then [ts[0]] else []) + SentTickets(ts[1..])
  }

  /** The sum of send delays, in hours. */
  function HoursTotal(ts: seq<Ticket>): real
    requires forall t :: t in ts ==> t.sentAt.Some?
  {
    if ts == [] then 0.0 else (ts[0].sentAt.value - ts[0].createdAt) as real / 3600.0 + HoursTotal(ts[1..])
  }

  function Summary(db: Db): (s: DashboardSummary)
    ensures s.totalTickets == |db.tickets|
    ensures s.openTickets <= s.totalTickets && s.criticalCount <= s.totalTickets && s.pendingApprovalCount <= s.totalTickets
  {
    var ts := db.tickets;
    var sent := SentTickets(ts);
    DashboardSummary(
      |ts|,
      CountWhere(ts, (t: Ticket) => t.status != Sent),
      CountWhere(ts, (t: Ticket) => t.isCritical),
      CountWhere(ts, (t: Ticket) => t.status == PendingApproval),
      if sent == [] then None else Some(HoursTotal(sent) / |sent| as real),
      map q | q in QueuesOf(ts) :: CountWhere(ts, (t: Ticket) => t.predictedQueue == Some(q)),
      map["high" := CountWhere(ts, (t: Ticket) => t.isCritical), "medium" := CountWhere(ts, (t: Ticket) => !t.isCritical)],
      map v | v in StatusesOf(ts) :: CountWhere(ts, (t: Ticket) => StatusValue(t.status) == v))
  }

  /** The dashboard figures: open and SENT tickets, and high and medium ones, each make up all
      tickets; the queue table holds exactly the queues some ticket has (null queues are left out),
      each with the number of its tickets, which is positive; the status table holds exactly the statuses some ticket has; the
      pending count is the length of the approval queue; the average is absent exactly when no
      ticket was sent. */
  lemma SummaryMeaning(db: Db)
    ensures var s := Summary(db);
      && s.totalTickets == |db.tickets|
      && s.openTickets + CountWhere(db.tickets, (t: Ticket) => t.status == Sent) == s.totalTickets
      && s.ticketsByPriority["high"] + s.ticketsByPriority["medium"] == s.totalTickets
      && s.ticketsByPriority["high"] == s.criticalCount
      && (forall q :: q in s.ticketsByQueue <==> exists t :: t in db.tickets && t.predictedQueue == Some(q))
      && (forall q :: q in s.ticketsByQueue ==>
            s.ticketsByQueue[q] == CountWhere(db.tickets, (t: Ticket) => t.predictedQueue == Some(q)))
      && (forall q :: q in s.ticketsByQueue ==> s.ticketsByQueue[q] > 0)
      && (forall st :: StatusValue(st) in s.ticketsByStatus <==> exists t :: t in db.tickets && t.status == st)
      && (forall st :: StatusValue(st) in s.ticketsByStatus ==>
            s.ticketsByStatus[StatusValue(st)] == CountWhere(db.tickets, (t: Ticket) => t.status == st))
      && s.pendingApprovalCount == |PendingItems(db)|
      && (s.avgResponseTimeHours.None? <==> forall t :: t in db.tickets ==> t.sentAt.None?)
  {
    var ts := db.tickets;
    var s := Summary(db);
    CountSplit(ts, (t: Ticket) => t.status != Sent, (t: Ticket) => t.status == Sent);
    CountSplit(ts, (t: Ticket) => t.isCritical, (t: Ticket) => !t.isCritical);
    forall q | q in s.ticketsByQueue ensures s.ticketsByQueue[q] > 0 {
      var t :| t in ts && t.predictedQueue.Some? && t.predictedQueue.value == q;
      CountPositive(ts, (t: Ticket) => t.predictedQueue == Some(q));
    }
    forall st ensures StatusValue(st) in s.ticketsByStatus <==> exists t :: t in db.tickets && t.status == st {
      StatusEnumIsClosed(st);
      forall t | t in ts && StatusValue(t.status) == StatusValue(st) ensures t.status == st {
        StatusValueInjective(t.status, st);
      }
    }
    forall st | StatusValue(st) in s.ticketsByStatus
      ensures s.ticketsByStatus[StatusValue(st)] == CountWhere(ts, (t: Ticket) => t.status == st)
    {
      CountSameTest(ts, (t: Ticket) => StatusValue(t.status) == StatusValue(st), (t: Ticket) => t.status == st, st);
    }
    var pending := Matching(ts, Filters(Some(PendingApproval), None, None, None));
    CountIsMatching(ts);
    NewestFirstSorts(pending);
  }

  lemma StatusValueInjective(a: TicketStatus, b: TicketStatus)
    requires StatusValue(a) == StatusValue(b)
    ensures a == b
  {
    StatusEnumIsClosed(a);
    StatusEnumIsClosed(b);
  }

  /** Counting by status value is counting by status. */
  lemma {:induction false} CountSameTest(ts: seq<Ticket>, p: Ticket -> bool, q: Ticket -> bool, st: TicketStatus)
    requires forall t :: p(t) == (StatusValue(t.status) == StatusValue(st))
    requires forall t :: q(t) == (t.status == st)
    ensures CountWhere(ts, p) == CountWhere(ts, q)
  {
    if ts != [] {
      if p(ts[0]) { StatusValueInjective(ts[0].status, st); }
      CountSameTest(ts[1..], p, q, st);
    }
  }

  /** The pending count counts the approval queue's tickets. */
  lemma {:induction false} CountIsMatching(ts: seq<Ticket>)
    ensures CountWhere(ts, (t: Ticket) => t.status == PendingApproval)
         == |Matching(ts, Filters(Some(PendingApproval), None, None, None))|
  {
    if ts != [] {
      CountIsMatching(ts[1..]);
    }
  }

  // ---------------------------------------------------------------- get_ticket_timeseries

  datatype Counts = Counts(total: nat, critical: nat)

  datatype TimeSeriesPoint = TimeSeriesPoint(date: string, count: nat, criticalCount: nat)

  /** created_at >= utcnow() - timedelta(days=days). */
  function Since(ts: seq<Ticket>, cutoff: int): (r: seq<Ticket>)
    ensures forall t :: t in r <==> t in ts && t.createdAt >= cutoff
  {
    if ts == [] then [] else (if ts[0].createdAt >= cutoff then [ts[0]] else []) + Since(ts[1..], cutoff)
  }

  /** The date a ticket is grouped under. */
  function DayOf(t: Ticket): string {
    DateString(t.createdAt)
  }

  /** The date_counts dict: its keys in insertion order, and the counts per key. */
  datatype Tally = Tally(keys: seq<string>, counts: map<string, Counts>)

  /** One iteration of the grouping loop, for a ticket whose key is d. */
  function Count1(g: Tally, d: string, critical: bool): Tally {
    var c := if d in g.counts then g.counts[d] else Counts(0, 0);
    Tally(if d in g.counts then g.keys else g.keys + [d],
          g.counts[d := Counts(c.total + 1, c.critical + if critical then 1 else 0)])
  }

  /** The loop over tickets, grouping them by key(t); the series groups by DayOf. */
  function Grouped(ts: seq<Ticket>, key: Ticket -> string): Tally {
    if ts == [] then Tally([], map[])
    else Count1(Grouped(ts[..|ts| - 1], key), key(ts[|ts| - 1]), ts[|ts| - 1].isCritical)
  }

  /** Tickets with key d, and the critical ones among them. */
  function OnDate(ts: seq<Ticket>, key: Ticket -> string, d: string): nat {
    if ts == [] then 0
    else OnDate(ts[..|ts| - 1], key, d) + if key(ts[|ts| - 1]) == d then 1 else 0
  }

  function CriticalOnDate(ts: seq<Ticket>, key: Ticket -> string, d: string): nat {
    if ts == [] then 0
    else CriticalOnDate(ts[..|ts| - 1], key, d)
         + if key(ts[|ts| - 1]) == d && ts[|ts| - 1].isCritical then 1 else 0
  }

  predicate Distinct(s: seq<string>) {
    forall i, j :: 0 <= i < j < |s| ==> s[i] != s[j]
  }

  function TotalOf(keys: seq<string>, m: map<string, Counts>): nat
    requires forall k :: k in keys ==> k in m
  {
    if keys == [] then 0 else m[keys[0]].total + TotalOf(keys[1..], m)
  }

  /** The dict's keys are listed once each, in the order they were first seen. */
  lemma {:induction false} GroupedKeys(ts: seq<Ticket>, key: Ticket -> string)
    ensures var g := Grouped(ts, key);
      Distinct(g.keys) && forall k :: k in g.keys <==> k in g.counts
  {
    if ts != [] {
      GroupedKeys(ts[..|ts| - 1], key);
    }
  }

  /** The keys are exactly the keys of the tickets. */
  lemma {:induction false} GroupedDomain(ts: seq<Ticket>, key: Ticket -> string)
    ensures forall k :: k in Grouped(ts, key).counts <==> exists t :: t in ts && key(t) == k
  {
    if ts != [] {
      var init := ts[..|ts| - 1];
      var t := ts[|ts| - 1];
      GroupedDomain(init, key);
      assert ts == init + [t];
      var g := Grouped(ts, key);
      forall k ensures k in g.counts <==> exists u :: u in ts && key(u) == k {
        if k in g.counts && k != key(t) {
          var u :| u in init && key(u) == k;
          assert u in ts;
        }
        if exists u :: u in ts && key(u) == k {
          var u :| u in ts && key(u) == k;
          if u != t {
            assert u in init;
          }
        }
      }
    }
  }

  /** Each key counts its tickets and, among them, the critical ones. */
  lemma {:induction false} GroupedValues(ts: seq<Ticket>, key: Ticket -> string)
    ensures var g := Grouped(ts, key);
      forall k :: k in g.counts ==> g.counts[k].total == OnDate(ts, key, k)
                                     && g.counts[k].critical == CriticalOnDate(ts, key, k)
  {
    if ts != [] {
      var init := ts[..|ts| - 1];
      GroupedValues(init, key);
      GroupedDomain(init, key);
      var g0 := Grouped(init, key);
      forall k | k !in g0.counts ensures OnDate(init, key, k) == 0 && CriticalOnDate(init, key, k) == 0 {
        NoneOnDate(init, key, k);
      }
    }
  }

  /** A key no ticket has counts nothing. */
  lemma {:induction false} NoneOnDate(ts: seq<Ticket>, key: Ticket -> string, d: string)
    requires forall t :: t in ts ==> key(t) != d
    ensures OnDate(ts, key, d) == 0 && CriticalOnDate(ts, key, d) == 0
  {
    if ts != [] {
      assert ts[|ts| - 1] in ts;
      NoneOnDate(ts[..|ts| - 1], key, d);
    }
  }

  /** The totals add up to the number of tickets. */
  lemma {:induction false} GroupedTotal(ts: seq<Ticket>, key: Ticket -> string)
    ensures GroupedKeysListed(Grouped(ts, key)) && TotalOf(Grouped(ts, key).keys, Grouped(ts, key).counts) == |ts|
  {
    GroupedKeys(ts, key);
    if ts != [] {
      var init := ts[..|ts| - 1];
      var t := ts[|ts| - 1];
      GroupedTotal(init, key);
      GroupedKeys(init, key);
      var g0 := Grouped(init, key);
      var g := Grouped(ts, key);
      var d := key(t);
      if d in g0.counts {
        TotalOfUpdate(g0.keys, g0.counts, d, g.counts[d]);
      } else {
        TotalOfFresh(g0.keys, g0.counts, d, g.counts[d]);
        TotalOfAppend(g0.keys, d, g.counts);
      }
    }
  }

  predicate GroupedKeysListed(g: Tally) {
    forall k :: k in g.keys ==> k in g.counts
  }

  /** Raising one key's total by one raises the sum of distinct keys by one. */
  lemma {:induction false} TotalOfUpdate(keys: seq<string>, m: map<string, Counts>, d: string, c: Counts)
    requires Distinct(keys) && (forall k :: k in keys ==> k in m) && d in keys && c.total == m[d].total + 1
    ensures TotalOf(keys, m[d := c]) == TotalOf(keys, m) + 1
  {
    if keys[0] == d {
      assert d !in keys[1..];
      TotalOfFresh(keys[1..], m, d, c);
    } else {
      TotalOfUpdate(keys[1..], m, d, c);
    }
  }

  /** Setting a key that is not listed leaves the sum of the listed ones. */
  lemma {:induction false} TotalOfFresh(keys: seq<string>, m: map<string, Counts>, d: string, c: Counts)
    requires (forall k :: k in keys ==> k in m) && d !in keys
    ensures TotalOf(keys, m[d := c]) == TotalOf(keys, m)
  {
    if keys != [] {
      TotalOfFresh(keys[1..], m, d, c);
    }
  }

  lemma {:induction false} TotalOfAppend(keys: seq<string>, d: string, m: map<string, Counts>)
    requires (forall k :: k in keys ==> k in m) && d in m
    ensures TotalOf(keys + [d], m) == TotalOf(keys, m) + m[d].total
  {
    if keys == [] {
      assert [d][1..] == [];
    } else {
      assert (keys + [d])[1..] == keys[1..] + [d];
      TotalOfAppend(keys[1..], d, m);
    }
  }

  /** sorted() on the date keys. */
  function SortDates(keys: seq<string>): seq<string> {
    if keys == [] then [] else InsertDate(keys[0], SortDates(keys[1..]))
  }

  function InsertDate(k: string, s: seq<string>): seq<string> {
    if s == [] then [k]
    else if LexLess(k, s[0]) then [k] + s
    else [s[0]] + InsertDate(k, s[1..])
  }

  predicate Ascending(s: seq<string>) {
    forall i, j :: 0 <= i < j < |s| ==> LexLess(s[i], s[j])
  }

  lemma {:induction false} InsertDateMembers(k: string, s: seq<string>)
    ensures |InsertDate(k, s)| == |s| + 1
    ensures forall x :: x in InsertDate(k, s) <==> x == k || x in s
    ensures multiset(InsertDate(k, s)) == multiset(s) + multiset{k}
  {
    if s != [] && !LexLess(k, s[0]) {
      InsertDateMembers(k, s[1..]);
      assert s == [s[0]] + s[1..];
    }
  }

  lemma {:induction false} InsertDateOrders(k: string, s: seq<string>)
    requires Ascending(s) && k !in s
    ensures Ascending(InsertDate(k, s))
  {
    if s != [] {
      var r := InsertDate(k, s);
      if LexLess(k, s[0]) {
        assert r == [k] + s;
        forall i, j | 0 <= i < j < |r| ensures LexLess(r[i], r[j]) {
          if i == 0 {
            assert r[j] == s[j - 1];
            if j > 1 { LexLessTransitive(k, s[0], s[j - 1]); }
          } else {
            assert r[i] == s[i - 1] && r[j] == s[j - 1];
          }
        }
      } else {
        assert k != s[0];
        LexLessTotal(k, s[0]);
        InsertDateOrders(k, s[1..]);
        InsertDateMembers(k, s[1..]);
        var rest := InsertDate(k, s[1..]);
        assert r == [s[0]] + rest;
        forall j | 0 <= j < |rest| ensures LexLess(s[0], rest[j]) {
          var x := rest[j];
          assert x in rest;
          if x != k {
            var m :| 0 <= m < |s[1..]| && s[1..][m] == x;
            assert s[m + 1] == x;
          }
        }
        forall i, j | 0 <= i < j < |r| ensures LexLess(r[i], r[j]) {
          if i > 0 {
            assert r[i] == rest[i - 1] && r[j] == rest[j - 1];
          } else {
            assert r[j] == rest[j - 1];
          }
        }
      }
    }
  }

  lemma {:induction false} SortDatesSorts(keys: seq<string>)
    requires Distinct(keys)
    ensures Ascending(SortDates(keys)) && multiset(SortDates(keys)) == multiset(keys)
    ensures forall x :: x in SortDates(keys) <==> x in keys
  {
    if keys != [] {
      assert Distinct(keys[1..]);
      SortDatesSorts(keys[1..]);
      assert keys[0] !in keys[1..];
      InsertDateMembers(keys[0], SortDates(keys[1..]));
      InsertDateOrders(keys[0], SortDates(keys[1..]));
      assert keys == [keys[0]] + keys[1..];
    }
  }

  /** A sum over keys does not depend on their order. */
  lemma {:induction false} TotalOfInsert(k: string, s: seq<string>, m: map<string, Counts>)
    requires k in m && forall x :: x in s ==> x in m
    ensures forall x :: x in InsertDate(k, s) ==> x in m
    ensures TotalOf(InsertDate(k, s), m) == m[k].total + TotalOf(s, m)
  {
    if s != [] && !LexLess(k, s[0]) {
      TotalOfInsert(k, s[1..], m);
    }
  }

  lemma {:induction false} TotalOfSort(keys: seq<string>, m: map<string, Counts>)
    requires forall x :: x in keys ==> x in m
    ensures forall x :: x in SortDates(keys) ==> x in m
    ensures TotalOf(SortDates(keys), m) == TotalOf(keys, m)
  {
    if keys != [] {
      TotalOfSort(keys[1..], m);
      TotalOfInsert(keys[0], SortDates(keys[1..]), m);
    }
  }

  function PointsOf(keys: seq<string>, m: map<string, Counts>): (r: seq<TimeSeriesPoint>)
    requires forall k :: k in keys ==> k in m
    ensures |r| == |keys|
  {
    seq(|keys|, i requires 0 <= i < |keys| => TimeSeriesPoint(keys[i], m[keys[i]].total, m[keys[i]].critical))
  }

  function Timeseries(db: Db, days: int, now: int): seq<TimeSeriesPoint> {
    SortedPoints(Grouped(Since(db.tickets, now - days * 86400), DayOf))
  }

  /** The points of a tally, in ascending key order. */
  function SortedPoints(g: Tally): seq<TimeSeriesPoint> {
    if GroupedKeysListed(g) then
      (TotalOfSort(g.keys, g.counts);
       PointsOf(SortDates(g.keys), g.counts))
    else []
  }

  function CountSum(ps: seq<TimeSeriesPoint>): nat {
    if ps == [] then 0 else ps[0].count + CountSum(ps[1..])
  }

  lemma {:induction false} CountSumIsTotal(keys: seq<string>, m: map<string, Counts>)
    requires forall k :: k in keys ==> k in m
    ensures CountSum(PointsOf(keys, m)) == TotalOf(keys, m)
  {
    if keys != [] {
      CountSumIsTotal(keys[1..], m);
      assert PointsOf(keys, m)[1..] == PointsOf(keys[1..], m);
    }
  }

  /** The dates of a tally's points are its keys. */
  lemma PointDates(g: Tally)
    requires Distinct(g.keys) && GroupedKeysListed(g)
    ensures var ps := SortedPoints(g);
      && (forall i, j :: 0 <= i < j < |ps| ==> LexLess(ps[i].date, ps[j].date))
      && (forall i :: 0 <= i < |ps| ==> ps[i].date in g.keys)
      && (forall d :: d in g.keys ==> exists i :: 0 <= i < |ps| && ps[i].date == d)
  {
    SortDatesSorts(g.keys);
    TotalOfSort(g.keys, g.counts);
    var sorted := SortDates(g.keys);
    var ps := SortedPoints(g);
    assert ps == PointsOf(sorted, g.counts);
    forall i | 0 <= i < |ps| ensures ps[i].date == sorted[i] && sorted[i] in sorted {
    }
    forall d | d in g.keys ensures exists i :: 0 <= i < |ps| && ps[i].date == d {
      assert d in sorted;
      var i :| 0 <= i < |sorted| && sorted[i] == d;
      assert ps[i].date == d;
    }
  }

  /** Each point carries its key's counts, and the points add up to the tally's total. */
  lemma PointCounts(g: Tally)
    requires GroupedKeysListed(g)
    ensures var ps := SortedPoints(g);
      && (forall i :: 0 <= i < |ps| ==>
            && ps[i].date in g.counts
            && ps[i].count == g.counts[ps[i].date].total
            && ps[i].criticalCount == g.counts[ps[i].date].critical)
      && CountSum(ps) == TotalOf(g.keys, g.counts)
  {
    TotalOfSort(g.keys, g.counts);
    var sorted := SortDates(g.keys);
    var ps := SortedPoints(g);
    assert ps == PointsOf(sorted, g.counts);
    CountSumIsTotal(sorted, g.counts);
    forall i | 0 <= i < |ps| ensures ps[i].date == sorted[i] && sorted[i] in sorted {
    }
  }

  /** The points of a grouping: ascending, one per key of a ticket, each counting that key's
      tickets and critical tickets, and adding up to the number of tickets. */
  lemma GroupedPoints(ts: seq<Ticket>, key: Ticket -> string)
    ensures var ps := SortedPoints(Grouped(ts, key));
      && (forall i, j :: 0 <= i < j < |ps| ==> LexLess(ps[i].date, ps[j].date))
      && (set i | 0 <= i < |ps| :: ps[i].date) == (set t | t in ts :: key(t))
      && (forall i :: 0 <= i < |ps| ==>
            && ps[i].count == OnDate(ts, key, ps[i].date)
            && ps[i].criticalCount == CriticalOnDate(ts, key, ps[i].date))
      && CountSum(ps) == |ts|
  {
    var g := Grouped(ts, key);
    GroupedKeys(ts, key);
    GroupedDomain(ts, key);
    GroupedValues(ts, key);
    GroupedTotal(ts, key);
    PointDates(g);
    PointCounts(g);
    var ps := SortedPoints(g);
    var dates := set i | 0 <= i < |ps| :: ps[i].date;
    var keys := set t | t in ts :: key(t);
    assert dates == keys by {
      forall d | d in keys ensures d in dates {
        assert d in g.counts;
        var i :| 0 <= i < |ps| && ps[i].date == d;
      }
      forall d | d in dates ensures d in keys {
        var i :| 0 <= i < |ps| && ps[i].date == d;
        assert d in g.counts;
        var t :| t in ts && key(t) == d;
      }
    }
  }

  /** The series has one point per date on which a ticket was created since the cutoff, in
      ascending date order; each point counts that date's tickets and, among them, the critical
      ones (so never more critical than total); the counts add up to the number of tickets created
      since the cutoff. */
  lemma TimeseriesMeaning(db: Db, days: int, now: int)
    ensures var recent := Since(db.tickets, now - days * 86400);
      var ps := Timeseries(db, days, now);
      && (forall i, j :: 0 <= i < j < |ps| ==> LexLess(ps[i].date, ps[j].date))
      && (set i | 0 <= i < |ps| :: ps[i].date) == (set t | t in recent :: DayOf(t))
      && (forall i :: 0 <= i < |ps| ==>
            && ps[i].count == OnDate(recent, DayOf, ps[i].date)
            && ps[i].criticalCount == CriticalOnDate(recent, DayOf, ps[i].date)
            && ps[i].criticalCount <= ps[i].count)
      && CountSum(ps) == |recent|
  {
    var recent := Since(db.tickets, now - days * 86400);
    GroupedPoints(recent, DayOf);
    var ps := Timeseries(db, days, now);
    forall i | 0 <= i < |ps| ensures ps[i].criticalCount <= ps[i].count {
      CriticalBelowTotal(recent, DayOf, ps[i].date);
    }
  }

  /** The series runs forward in time: a ticket counted in an earlier point was created on an
      earlier day than one counted in a later point. */
  lemma TimeseriesInDayOrder(db: Db, days: int, now: int, i: nat, j: nat, t1: Ticket, t2: Ticket)
    requires var ps := Timeseries(db, days, now); i < j < |ps|
    requires var recent := Since(db.tickets, now - days * 86400); t1 in recent && t2 in recent
    requires DayOf(t1) == Timeseries(db, days, now)[i].date && DayOf(t2) == Timeseries(db, days, now)[j].date
    requires Representable(t1.createdAt) && Representable(t2.createdAt)
    ensures t1.createdAt / SecondsPerDay < t2.createdAt / SecondsPerDay
  {
    TimeseriesMeaning(db, days, now);
    DateStringOrder(t1.createdAt, t2.createdAt);
  }

  lemma {:induction false} CriticalBelowTotal(ts: seq<Ticket>, key: Ticket -> string, d: string)
    ensures CriticalOnDate(ts, key, d) <= OnDate(ts, key, d)
  {
    if ts != [] {
      CriticalBelowTotal(ts[..|ts| - 1], key, d);
    }
  }

  /** Grouping one more ticket is one more step of the loop. */
  lemma GroupedSnoc(ts: seq<Ticket>, i: nat, key: Ticket -> string)
    requires i < |ts|
    ensures Grouped(ts[..i + 1], key) == Count1(Grouped(ts[..i], key), key(ts[i]), ts[i].isCritical)
  {
    assert ts[..i + 1][..i] == ts[..i];
  }

  /** The body of the grouping loop: a new date gets zero counts, then its counts go up. */
  method CountTicket(keys: seq<string>, dateCounts: map<string, Counts>, dateStr: string, critical: bool)
    returns (keys': seq<string>, dateCounts': map<string, Counts>)
    ensures Tally(keys', dateCounts') == Count1(Tally(keys, dateCounts), dateStr, critical)
  {
    keys', dateCounts' := keys, dateCounts;
    if dateStr !in dateCounts' {
      keys' := keys' + [dateStr];
      dateCounts' := dateCounts'[dateStr := Counts(0, 0)];
    }
    var c := dateCounts'[dateStr];
    dateCounts' := dateCounts'[dateStr := Counts(c.total + 1, c.critical + if critical then 1 else 0)];
  }

  /** get_ticket_timeseries: the grouping loop over the recent tickets, then the sort. */
  method GetTicketTimeseries(db: Session, days: int, now: int) returns (results: seq<TimeSeriesPoint>)
    ensures results == Timeseries(db.State(), days, now)
  {
    var tickets := Since(db.tickets, now - days * 86400);
    var keys: seq<string> := [];
    var dateCounts: map<string, Counts> := map[];
    var i := 0;
    while i < |tickets|
      invariant 0 <= i <= |tickets|
      invariant Tally(keys, dateCounts) == Grouped(tickets[..i], DayOf)
    {
      var ticket := tickets[i];
      var dateStr := DayOf(ticket);
      keys, dateCounts := CountTicket(keys, dateCounts, dateStr, ticket.isCritical);
      GroupedSnoc(tickets, i, DayOf);
      i := i + 1;
    }
    assert tickets[..i] == tickets;
    results := SortedPoints(Tally(keys, dateCounts));
  }

  // ---------------------------------------------------------------- service endpoints

  /** The triage endpoint's message. */
  const TriageCompleted := "Triage completed successfully"

  /** `raise HTTPException(500, f"{prefix}: {e}")` around a service call. */
  function AsServerError<T>(prefix: string, r: Result<T, string>): (h: Result<T, HttpError>)
    ensures h.Ok? <==> r.Ok?
    ensures r.Ok? ==> h.value == r.value
    ensures r.Err? ==> h.error == HttpError(500, prefix + ": " + r.error)
  {
    match r
    case Ok(v) => Ok(v)
    case Err(e) => Err(HttpError(500, prefix + ": " + e))
  }

  /** The triage endpoint's response for the service's summary: validation of the response
      schema failing raises inside the same try block, so it becomes a 500 as well. */
  function TriageReply(r: Result<TriageSummary, string>): (h: Result<TriageResponse, HttpError>)
    ensures h.Err? ==> h.error.code == 500
    ensures r.Err? ==> h == Err(HttpError(500, "Triage failed: " + r.error))
  {
    match r
    case Err(e) => Err(HttpError(500, "Triage failed: " + e))
    case Ok(s) =>
      match ValidateTriageResponse(s.success, TriageCompleted, s.predictedQueue, s.queueConfidence, s.criticalProb,
                                   s.isCritical, None, s.draftGenerated, s.needsApproval)
      case Err(_) => Err(HttpError(500, "Triage failed: response validation"))
      case Ok(v) => Ok(v)
  }

  /** For a stored ticket the triage endpoint's response always passes validation and reports
      the classification stored with the ticket. */
  lemma TriageEndpointReportsTicket(db: Db, id: int, p: Result<Prediction, string>,
                                    search: Result<seq<SimilarTicket>, string>,
                                    draft: Option<Result<Reply, string>>, now: int)
    requires WellFormed(db) && HasTicket(db, id)
    ensures var (db', s) := TriageOutcome(db, id, p, search, draft, now);
      var h := TriageReply(Ok(s));
      var t := db'.tickets[id - 1];
      && h.Ok? && h.value.success && h.value.message == TriageCompleted
      && Some(h.value.predictedQueue) == t.predictedQueue && Some(h.value.queueConfidence) == t.queueConfidence
      && Some(h.value.criticalProb) == t.criticalProb && h.value.isCritical == t.isCritical
      && h.value.draftGenerated == s.draftGenerated && h.value.needsApproval == s.needsApproval
  {
    var (db', s) := TriageOutcome(db, id, p, search, draft, now);
    var t1 := Classified(db.tickets[id - 1], p, now);
    assert t1.predictedQueue.Some? && t1.queueConfidence.Some? && t1.criticalProb.Some?;
    assert db'.tickets[id - 1].predictedQueue == t1.predictedQueue;
  }

  lemma TriageEndpointNotFound(id: int)
    ensures TriageReply(Err(NotFound(id))) == Err(HttpError(500, "Triage failed: " + NotFound(id)))
  {
  }

  /** POST /tickets/{id}/triage: a missing ticket is a 500 carrying the service's message;
      otherwise the response reports the classification the triage stored. */
  method TriageTicketEndpoint(service: TriageService, db: Session, ticketId: int, runDraft: Option<bool>,
                              now: int, modelFiles: ModelFiles, indexFiles: IndexFiles)
    returns (r: Result<TriageResponse, HttpError>)
    requires db.Valid() && service.Valid()
    modifies db, service.predictor, service.retriever
    ensures db.Valid() && service.Valid() && |db.tickets| == old(|db.tickets|)
    ensures !HasTicket(old(db.State()), ticketId) ==>
      r == Err(HttpError(500, "Triage failed: " + NotFound(ticketId))) && db.State() == old(db.State())
    ensures HasTicket(old(db.State()), ticketId) ==>
      var t0 := old(db.State()).tickets[ticketId - 1];
      var p := old(service.predictor.Predicted(t0.subject, t0.body, modelFiles));
      var search := if p.Ok? then old(service.retriever.Searched(p.value.embedding, NeighbourCount, indexFiles))
                    else Err(NoPrediction);
      var draft := if ValidateTriageRequest(runDraft).runDraft
                   then Some(Ok(Generated(service.generator, RequestFor(Classified(t0, p, now), Neighbours(search)),
                                          DefaultMaxRetries, service.confidenceThreshold)))
                   else None;
      db.State() == TriageOutcome(old(db.State()), ticketId, p, search, draft, now).0
    ensures HasTicket(old(db.State()), ticketId) ==>
      var t := db.tickets[ticketId - 1];
      && r.Ok? && r.value.success && r.value.message == TriageCompleted
      && Some(r.value.predictedQueue) == t.predictedQueue && Some(r.value.queueConfidence) == t.queueConfidence
      && Some(r.value.criticalProb) == t.criticalProb && r.value.isCritical == t.isCritical
  {
    ghost var db0 := db.State();
    ghost var p: Result<Prediction, string> := Err(NoPrediction);
    ghost var search: Result<seq<SimilarTicket>, string> := Err(NoPrediction);
    ghost var draft: Option<Result<Reply, string>> := None;
    var request := ValidateTriageRequest(runDraft);
    if HasTicket(db0, ticketId) {
      var t := db0.tickets[ticketId - 1];
      p := service.predictor.Predicted(t.subject, t.body, modelFiles);
      search := if p.Ok? then service.retriever.Searched(p.value.embedding, NeighbourCount, indexFiles)
                else Err(NoPrediction);
      draft := if request.runDraft
               then Some(Ok(Generated(service.generator, RequestFor(Classified(t, p, now), Neighbours(search)),
                                      DefaultMaxRetries, service.confidenceThreshold)))
               else None;
    }
    var result := service.TriageTicket(ticketId, db, request.runDraft, now, modelFiles, indexFiles);
    r := TriageReply(result);
    if HasTicket(db0, ticketId) {
      TriageEndpointReportsTicket(db0, ticketId, p, search, draft, now);
    }
  }

  /** POST /tickets/{id}/approve: a service error becomes a 500. */
  method ApproveTicketEndpoint(service: ApprovalService, db: Session, ticketId: int, approval: ApprovalCreate, now: int)
    returns (r: Result<ApproveSummary, HttpError>)
    requires db.Valid()
    modifies db
    ensures db.Valid()
    ensures var o := ApproveOutcome(old(db.State()), ticketId,
                                    ApprovalInput(approval.approverName, approval.approverEmail, approval.editedSubject,
                                                  approval.editedBody, approval.decisionNotes), service.notify, now);
      && r == AsServerError("Approval failed", if o.Ok? then Ok(o.value.1) else Err(o.error))
      && (o.Ok? ==> db.State() == o.value.0)
      && (o.Err? ==> db.State() == old(db.State()))
  {
    var a := ApprovalInput(approval.approverName, approval.approverEmail, approval.editedSubject, approval.editedBody,
                           approval.decisionNotes);
    var result := service.ApproveAndSend(ticketId, a, db, now);
    r := AsServerError("Approval failed", result);
  }

  /** POST /tickets/{id}/reject: a service error becomes a 500. */
  method RejectTicketEndpoint(service: ApprovalService, db: Session, ticketId: int, approval: ApprovalCreate, now: int)
    returns (r: Result<RejectSummary, HttpError>)
    requires db.Valid()
    modifies db
    ensures db.Valid()
    ensures var o := RejectOutcome(old(db.State()), ticketId, approval.approverName, approval.approverEmail,
                                   approval.decisionNotes, now);
      && r == AsServerError("Rejection failed", if o.Ok? then Ok(o.value.1) else Err(o.error))
      && (o.Ok? ==> db.State() == o.value.0)
      && (o.Err? ==> db.State() == old(db.State()))
  {
    var result := service.RejectTicket(ticketId, approval.approverName, approval.approverEmail,
                                       approval.decisionNotes, db, now);
    r := AsServerError("Rejection failed", result);
  }
}
