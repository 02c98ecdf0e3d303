/** Ticket triage (backend/services/triage_service.py): classify the ticket, look up similar
    historical tickets, draft a reply, and route the ticket to a human or to the drafted queue.
    Each step that fails falls back to a safe default instead of failing the triage. */
module Triage {
  import opened Wrappers
  import opened Text
  import opened Models
  import opened Database
  import opened Retrieval
  import opened GenerateReply
  import opened Predictors

  /** The queue a ticket gets when prediction fails. */
  const FallbackQueue := "Technical Support"
  /** How many neighbours retrieval asks for. */
  const NeighbourCount := 5
  /** The message search sees in place of the embedding when prediction failed. */
  const NoPrediction := "prediction is not defined"

  /** What triage_ticket returns. */
  datatype TriageSummary = TriageSummary(
    success: bool,
    message: string,
    ticketId: nat,
    predictedQueue: Option<string>,
    queueConfidence: Option<real>,
    criticalProb: Option<real>,
    isCritical: bool,
    predictedLanguage: Option<string>,
    draftGenerated: bool,
    needsApproval: bool,
    status: TicketStatus)

  function NotFound(id: int): string {
    "Ticket " + IntToString(id) + " not found"
  }

  // ---------------------------------------------------------------- step 1: prediction

  /** The safe defaults the except branch of step 1 writes: the fallback queue, no confidence,
      probability 0.5, critical, TRIAGED. */
  function Fallback(t: Ticket): Ticket {
    t.(predictedQueue := Some(FallbackQueue), queueConfidence := Some(0.0), criticalProb := Some(0.5),
       isCritical := true, status := TicketStatus.Triaged)
  }

  /** Whether the ML_PREDICTION details can be written: json.dumps raises on a class index that no
      label encoder turned into a name, and only a name reaches the log. */
  predicate Loggable(pr: Prediction) {
    pr.predictedQueue.Name?
  }

  /** The ticket after the prediction step. A prediction with a queue name is copied in with the
      triage time. A prediction whose queue is a bare class index is copied in with the triage time
      too, but logging it raises and the except branch then writes the defaults over the copied
      fields, leaving the triage time set. A failed prediction gives the defaults alone. */
  function Classified(t: Ticket, p: Result<Prediction, string>, now: int): (r: Ticket)
    ensures r.status == TicketStatus.Triaged
    ensures r.predictedQueue.Some? && r.queueConfidence.Some? && r.criticalProb.Some?
    ensures r.triagedAt == if p.Ok? then Some(now) else t.triagedAt
    ensures !(p.Ok? && Loggable(p.value)) ==> r.predictedQueue == Some(FallbackQueue) && r.isCritical
    ensures r.(predictedQueue := t.predictedQueue, queueConfidence := t.queueConfidence, criticalProb := t.criticalProb,
               isCritical := t.isCritical, status := t.status, triagedAt := t.triagedAt) == t
  {
    match p
    case Ok(pr) =>
      (match pr.predictedQueue
       case Name(q) =>
         t.(predictedQueue := Some(q), queueConfidence := Some(pr.queueConfidence),
            criticalProb := Some(pr.criticalProb), isCritical := pr.isCritical, status := TicketStatus.Triaged,
            triagedAt := Some(now))
       case Index(_) => Fallback(t.(triagedAt := Some(now))))
    case Err(_) => Fallback(t)
  }

  /** The ML_PREDICTION entry, written only when prediction succeeded with a loggable queue. */
  function PredictionLog(id: nat, p: Result<Prediction, string>, now: int): (r: seq<AuditLog>)
    ensures |r| == if p.Ok? && Loggable(p.value) then 1 else 0
    ensures forall e :: e in r ==> e.ticketId == id && e.action == MlPrediction && e.createdAt == now
  {
    match p
    case Ok(pr) =>
      (match pr.predictedQueue
       case Name(q) => [AuditLog(id, MlPrediction, "system", PredictionDetails(q, pr.queueConfidence, pr.criticalProb), now)]
       case Index(_) => [])
    case Err(_) => []
  }

  // ---------------------------------------------------------------- step 2: retrieval

  /** The neighbours the draft sees: the search results, or none when the search raised. */
  function Neighbours(search: Result<seq<SimilarTicket>, string>): seq<SimilarTicket> {
    if search.Ok? then search.value else []
  }

  /** The grounding stored with a draft: subject and first 200 characters of the answer of the
      first three neighbours; null without neighbours. */
  function ContextOf(ts: seq<SimilarTicket>): (c: Option<seq<ContextEntry>>)
    ensures c.None? <==> ts == []
    ensures c.Some? ==> |c.value| == |Shown(ts)| <= 3
                          && forall i :: 0 <= i < |c.value| ==>
                               c.value[i] == ContextEntry(ts[i].subject, Take(ts[i].answer, 200))
  {
    if ts == [] then None
    else
      var shown := Shown(ts);
      Some(seq(|shown|, i requires 0 <= i < |shown| => ContextEntry(shown[i].subject, Take(shown[i].answer, 200))))
  }

  // ---------------------------------------------------------------- step 3: drafting

  /** What the generator is asked, for the classified ticket. */
  function RequestFor(t: Ticket, neighbours: seq<SimilarTicket>): DraftRequest {
    DraftRequest(t.subject, t.body, t.predictedQueue.GetOr(FallbackQueue), t.isCritical, neighbours)
  }

  /** The response row of a successful draft. */
  function DraftResponse(id: nat, d: Draft, neighbours: seq<SimilarTicket>, now: int): Response {
    NewResponse(id, now).(draftLanguage := Some(d.language), draftSubject := Some(d.subject),
                          draftBody := Some(d.body), draftConfidence := Some(d.confidence),
                          needsHumanApproval := d.needsHumanApproval, suggestedTags := Some(d.suggestedTags),
                          retrievalContext := ContextOf(neighbours))
  }

  /** The drafting step on the classified ticket t: the ticket, the two tables it writes, whether
      a draft was stored and whether the ticket needs approval. `draft` is None when no draft was
      asked for and Err when the generator raised. */
  function DraftStep(t: Ticket, id: nat, responses: seq<Response>, logs: seq<AuditLog>,
                     neighbours: seq<SimilarTicket>, draft: Option<Result<Reply, string>>, now: int)
    : (r: (Ticket, seq<Response>, seq<AuditLog>, bool, bool))
    ensures r.3 <==> draft.Some? && draft.value.Ok? && draft.value.value.success
    ensures r.1 == if r.3 then responses + [DraftResponse(id, draft.value.value.draft, neighbours, now)] else responses
    ensures |r.2| == |logs| + (if r.3 then 1 else 0) && r.2[..|logs|] == logs
    ensures draft.None? ==> r.0 == t && r.4 == t.isCritical
    ensures draft.Some? && !r.3 ==> r.0 == t.(status := PendingApproval) && r.4
    ensures r.3 ==> (r.0.status == PendingApproval <==> r.4) && (r.0.status == TicketStatus.Drafted <==> !r.4)
  {
    match draft
    case None => (t, responses, logs, false, t.isCritical)
    case Some(Err(_)) => (t.(status := PendingApproval), responses, logs, false, true)
    case Some(Ok(reply)) =>
      if !reply.success then (t.(status := PendingApproval), responses, logs, false, true)
      else
        var d := reply.draft;
        (t.(predictedLanguage := Some(d.language),
            status := if d.needsHumanApproval then PendingApproval else TicketStatus.Drafted),
         responses + [DraftResponse(id, d, neighbours, now)],
         logs + [AuditLog(id, DraftGenerated, "system", DraftDetails(d.confidence, d.needsHumanApproval), now)],
         true, d.needsHumanApproval)
  }

  /** The outcome of the triage of ticket `id`, given the prediction, the search and the draft:
      the new tables and the summary. */
  function TriageOutcome(db: Db, id: nat, p: Result<Prediction, string>, search: Result<seq<SimilarTicket>, string>,
                   draft: Option<Result<Reply, string>>, now: int): (r: (Db, TriageSummary))
    requires WellFormed(db) && HasTicket(db, id)
    ensures WellFormed(r.0) && |r.0.tickets| == |db.tickets| && r.0.approvals == db.approvals
    ensures r.1.success && r.1.ticketId == id && r.1.status == r.0.tickets[id - 1].status
  {
    var t1 := Classified(db.tickets[id - 1], p, now);
    var logs1 := db.auditLogs + PredictionLog(id, p, now);
    var (t2, responses, logs, generated, needs) :=
      DraftStep(t1, id, db.responses, logs1, Neighbours(search), draft, now);
    (Db(db.tickets[id - 1 := t2], responses, db.approvals, logs), Summary(id, t2, generated, needs))
  }

  /** The summary of a triage that ended with ticket t. */
  function Summary(id: nat, t: Ticket, generated: bool, needs: bool): TriageSummary {
    TriageSummary(true, "Ticket triaged successfully. Status: " + StatusValue(t.status), id,
                  t.predictedQueue, t.queueConfidence, t.criticalProb, t.isCritical,
                  t.predictedLanguage, generated, needs, t.status)
  }

  // ---------------------------------------------------------------- properties of the outcome

  /** Triage keeps the lifecycle invariant. */
  lemma TriageKeepsLifecycle(db: Db, id: nat, p: Result<Prediction, string>, search: Result<seq<SimilarTicket>, string>,
                             draft: Option<Result<Reply, string>>, now: int)
    requires Lifecycle(db) && HasTicket(db, id)
    ensures Lifecycle(TriageOutcome(db, id, p, search, draft, now).0)
  {
    var db' := TriageOutcome(db, id, p, search, draft, now).0;
    var t := db'.tickets[id - 1];
    assert db.tickets[id - 1].id == id;
    forall rid | HasResponse(db, rid) ensures HasResponse(db', rid) {
      if db'.responses != db.responses {
        HasResponseAppend(db.responses, db'.responses[|db.responses|..], rid);
        assert db.responses + db'.responses[|db.responses|..] == db'.responses;
      }
    }
    forall rid | rid != id && HasResponse(db', rid) ensures HasResponse(db, rid) {
      if db'.responses != db.responses {
        var r := db'.responses[|db.responses|];
        assert db'.responses == db.responses + [r];
        FirstResponseAppendOther(db.responses, r, rid, 0);
      }
    }
    if t.status == TicketStatus.Drafted {
      var d := draft.value.value.draft;
      HasResponseAppendOwn(db.responses, DraftResponse(id, d, Neighbours(search), now));
    }
    LifecycleAfterUpdate(db, db', id - 1);
  }

  /** After triage the ticket carries a classification whose criticality agrees with its
      probability (the fallback's 0.5 is critical, and so is a consistent prediction's), and the
      summary reports the ticket as stored. */
  lemma TriageSetsConsistentClassification(db: Db, id: nat, p: Result<Prediction, string>,
                                           search: Result<seq<SimilarTicket>, string>,
                                           draft: Option<Result<Reply, string>>, now: int)
    requires WellFormed(db) && HasTicket(db, id)
    requires p.Ok? ==> (p.value.isCritical <==> p.value.criticalProb >= CriticalThreshold)
    ensures var (db', s) := TriageOutcome(db, id, p, search, draft, now);
      var t := db'.tickets[id - 1];
      && t.predictedQueue.Some? && t.queueConfidence.Some? && t.criticalProb.Some?
      && (t.isCritical <==> t.criticalProb.value >= CriticalThreshold)
      && s.success && s.ticketId == id && s.status == t.status && s.isCritical == t.isCritical
      && s.predictedQueue == t.predictedQueue && s.criticalProb == t.criticalProb
      && s.message == "Ticket triaged successfully. Status: " + StatusValue(t.status)
  {
  }

  /** When prediction succeeds with a queue name the ticket carries the prediction's queue,
      confidence, probability and criticality, is TRIAGED at `now`, and exactly one ML_PREDICTION
      entry is logged first. */
  lemma PredictionSuccessIsCopied(db: Db, id: nat, p: Result<Prediction, string>,
                                  search: Result<seq<SimilarTicket>, string>,
                                  draft: Option<Result<Reply, string>>, now: int)
    requires WellFormed(db) && HasTicket(db, id) && p.Ok? && Loggable(p.value)
    ensures var db' := TriageOutcome(db, id, p, search, draft, now).0;
      var t := db'.tickets[id - 1];
      var pr := p.value;
      && t.predictedQueue == Some(pr.predictedQueue.name) && t.queueConfidence == Some(pr.queueConfidence)
      && t.criticalProb == Some(pr.criticalProb) && t.isCritical == pr.isCritical
      && t.triagedAt == Some(now)
      && (draft.None? ==> t.status == TicketStatus.Triaged)
      && |db'.auditLogs| > |db.auditLogs|
      && db'.auditLogs[|db.auditLogs|]
         == AuditLog(id, MlPrediction, "system", PredictionDetails(pr.predictedQueue.name, pr.queueConfidence, pr.criticalProb), now)
      && forall i :: |db.auditLogs| < i < |db'.auditLogs| ==> db'.auditLogs[i].action != MlPrediction
  {
  }

  /** A prediction whose queue is a class index (no label encoder loaded) cannot be logged: the
      ticket gets the defaults, as for a failed prediction, but keeps the triage time `now`, and no
      ML_PREDICTION entry is written. */
  lemma UnencodedIndexFallsBack(db: Db, id: nat, p: Result<Prediction, string>,
                                search: Result<seq<SimilarTicket>, string>,
                                draft: Option<Result<Reply, string>>, now: int)
    requires WellFormed(db) && HasTicket(db, id) && p.Ok? && !Loggable(p.value)
    ensures var db' := TriageOutcome(db, id, p, search, draft, now).0;
      var t := db'.tickets[id - 1];
      && t.predictedQueue == Some(FallbackQueue) && t.queueConfidence == Some(0.0)
      && t.criticalProb == Some(0.5) && t.isCritical
      && t.triagedAt == Some(now)
      && (draft.None? ==> t.status == TicketStatus.Triaged)
      && forall i :: |db.auditLogs| <= i < |db'.auditLogs| ==> db'.auditLogs[i].action != MlPrediction
  {
  }

  /** Without drafting nothing but the classification changes: no response, the ticket stays
      TRIAGED, and the ticket needs approval exactly when it is critical. */
  lemma NoDraftStaysTriaged(db: Db, id: nat, p: Result<Prediction, string>,
                            search: Result<seq<SimilarTicket>, string>, now: int)
    requires WellFormed(db) && HasTicket(db, id)
    ensures var (db', s) := TriageOutcome(db, id, p, search, None, now);
      && db'.tickets[id - 1] == Classified(db.tickets[id - 1], p, now)
      && db'.tickets[id - 1].status == TicketStatus.Triaged
      && db'.responses == db.responses && db'.auditLogs == db.auditLogs + PredictionLog(id, p, now)
      && !s.draftGenerated && s.needsApproval == db'.tickets[id - 1].isCritical
  {
  }

  /** When prediction fails the ticket is routed as critical to the fallback queue, keeps its
      previous triage time and gets no ML_PREDICTION entry. */
  lemma PredictionFailureFallsBack(db: Db, id: nat, p: Result<Prediction, string>,
                                   search: Result<seq<SimilarTicket>, string>,
                                   draft: Option<Result<Reply, string>>, now: int)
    requires WellFormed(db) && HasTicket(db, id) && p.Err?
    ensures var db' := TriageOutcome(db, id, p, search, draft, now).0;
      var t := db'.tickets[id - 1];
      && t.predictedQueue == Some(FallbackQueue) && t.queueConfidence == Some(0.0)
      && t.criticalProb == Some(0.5) && t.isCritical
      && t.triagedAt == db.tickets[id - 1].triagedAt
      && forall i :: |db.auditLogs| <= i < |db'.auditLogs| ==> db'.auditLogs[i].action != MlPrediction
  {
  }

  /** A failed or raising generator routes the ticket to a human: status PENDING_APPROVAL, no
      response row, no DRAFT_GENERATED entry. */
  lemma DraftFailureRoutesToHuman(db: Db, id: nat, p: Result<Prediction, string>,
                                  search: Result<seq<SimilarTicket>, string>,
                                  draft: Option<Result<Reply, string>>, now: int)
    requires WellFormed(db) && HasTicket(db, id)
    requires draft.Some? && (draft.value.Err? || !draft.value.value.success)
    ensures var (db', s) := TriageOutcome(db, id, p, search, draft, now);
      && db'.tickets[id - 1].status == PendingApproval && s.needsApproval && !s.draftGenerated
      && db'.responses == db.responses
      && db'.auditLogs == db.auditLogs + PredictionLog(id, p, now)
  {
  }

  /** A successful draft adds exactly one response, for this ticket, carrying the draft and the
      grounding of the first three neighbours; the ticket takes the draft's language and is
      PENDING_APPROVAL exactly when the draft needs approval, DRAFTED otherwise; and the last
      audit entry is DRAFT_GENERATED with the draft's confidence and approval flag. */
  lemma DraftSuccessStoresResponse(db: Db, id: nat, p: Result<Prediction, string>,
                                   search: Result<seq<SimilarTicket>, string>, reply: Reply, now: int)
    requires WellFormed(db) && HasTicket(db, id) && reply.success
    ensures var (db', s) := TriageOutcome(db, id, p, search, Some(Ok(reply)), now);
      var r := db'.responses[|db'.responses| - 1];
      var d := reply.draft;
      && |db'.responses| == |db.responses| + 1 && db'.responses[..|db.responses|] == db.responses
      && r.ticketId == id && r.draftBody == Some(d.body)
      && r.draftSubject == Some(d.subject) && r.draftLanguage == Some(d.language)
      && r.draftConfidence == Some(d.confidence)
      && r.needsHumanApproval == d.needsHumanApproval
      && r.suggestedTags == Some(d.suggestedTags)
      && r.retrievalContext == ContextOf(Neighbours(search))
      && r.createdAt == now && r.finalSubject.None? && r.finalBody.None? && r.approvedAt.None?
      && (db'.tickets[id - 1].status == PendingApproval <==> d.needsHumanApproval)
      && (db'.tickets[id - 1].status == TicketStatus.Drafted <==> !d.needsHumanApproval)
      && s.draftGenerated && s.needsApproval == d.needsHumanApproval
      && db'.tickets[id - 1].predictedLanguage == Some(d.language)
      && db'.auditLogs == db.auditLogs + PredictionLog(id, p, now)
                          + [AuditLog(id, DraftGenerated, "system", DraftDetails(d.confidence, d.needsHumanApproval), now)]
  {
  }

  /** Triage writes only ticket `id`: every other ticket, every approval, and every existing
      response and audit entry stay as they were; new rows belong to ticket `id`. */
  lemma TriageTouchesOnlyItsTicket(db: Db, id: nat, p: Result<Prediction, string>,
                                   search: Result<seq<SimilarTicket>, string>,
                                   draft: Option<Result<Reply, string>>, now: int)
    requires WellFormed(db) && HasTicket(db, id)
    ensures var db' := TriageOutcome(db, id, p, search, draft, now).0;
      && |db'.tickets| == |db.tickets|
      && (forall j :: 0 <= j < |db.tickets| && j != id - 1 ==> db'.tickets[j] == db.tickets[j])
      && db'.tickets[id - 1].id == id && db'.tickets[id - 1].subject == db.tickets[id - 1].subject
      && db'.tickets[id - 1].body == db.tickets[id - 1].body
      && db'.approvals == db.approvals
      && |db.responses| <= |db'.responses| && db'.responses[..|db.responses|] == db.responses
      && (forall i :: |db.responses| <= i < |db'.responses| ==> db'.responses[i].ticketId == id)
      && |db.auditLogs| <= |db'.auditLogs| && db'.auditLogs[..|db.auditLogs|] == db.auditLogs
      && (forall i :: |db.auditLogs| <= i < |db'.auditLogs| ==> db'.auditLogs[i].ticketId == id)
  {
  }

  /** With the Gemini generator, a critical ticket is never DRAFTED for automatic sending, and
      neither is one whose draft's confidence is below the threshold. */
  lemma CriticalTicketsAreNeverAutoDrafted(db: Db, id: nat, p: Result<Prediction, string>,
                                           search: Result<seq<SimilarTicket>, string>, g: Gemini,
                                           threshold: real, now: int)
    requires WellFormed(db) && HasTicket(db, id)
    ensures var t1 := Classified(db.tickets[id - 1], p, now);
      var reply := Generated(g, RequestFor(t1, Neighbours(search)), DefaultMaxRetries, threshold);
      var db' := TriageOutcome(db, id, p, search, Some(Ok(reply)), now).0;
      && (db'.tickets[id - 1].isCritical ==> db'.tickets[id - 1].status == PendingApproval)
      && (reply.draft.confidence < threshold ==> db'.tickets[id - 1].status == PendingApproval)
  {
    var t1 := Classified(db.tickets[id - 1], p, now);
    GeneratedNeedsApproval(g, RequestFor(t1, Neighbours(search)), DefaultMaxRetries, threshold);
  }

  /** Triage leaves the tables well formed, and triaging the ticket again with the same
      collaborators' answers at the same time leaves every ticket as the first triage left it
      (only the rows the second run appends differ). */
  lemma TriageTicketIsStable(db: Db, id: nat, p: Result<Prediction, string>,
                             search: Result<seq<SimilarTicket>, string>,
                             draft: Option<Result<Reply, string>>, now: int)
    requires WellFormed(db) && HasTicket(db, id)
    ensures var db1 := TriageOutcome(db, id, p, search, draft, now).0;
      && WellFormed(db1) && HasTicket(db1, id)
      && TriageOutcome(db1, id, p, search, draft, now).0.tickets == db1.tickets
  {
    TriageTouchesOnlyItsTicket(db, id, p, search, draft, now);
    var db1 := TriageOutcome(db, id, p, search, draft, now).0;
    assert db.tickets[id - 1].id == id;
    assert WellFormed(db1);
    var t := db.tickets[id - 1];
    var t1 := db1.tickets[id - 1];
    if p.Err? {
      assert t1.triagedAt == t.triagedAt;
    }
    assert TriageOutcome(db1, id, p, search, draft, now).0.tickets[id - 1] == t1;
  }

  // ---------------------------------------------------------------- the service

  /** The triage service and its collaborators: the shared predictor and retriever (which load
      their models and index on first use) and the reply generator. */
  class TriageService {
    const predictor: TicketPredictor
    const retriever: TicketRetriever
    const generator: Gemini
    /** The CONFIDENCE_THRESHOLD setting. */
    const confidenceThreshold: real

    ghost predicate Valid()
      reads this, predictor, retriever
    {
      predictor.Valid() && retriever.Valid()
    }

    constructor (predictor: TicketPredictor, retriever: TicketRetriever, generator: Gemini, threshold: real)
      ensures this.predictor == predictor && this.retriever == retriever
      ensures this.generator == generator && confidenceThreshold == threshold
    {
      this.predictor := predictor;
      this.retriever := retriever;
      this.generator := generator;
      confidenceThreshold := threshold;
    }

    /** Step 1 of triage_ticket: predict, then write the prediction (or the fallback) into the
        ticket and log ML_PREDICTION when prediction succeeded. */
    method ClassifyStep(db: Session, t: Ticket, id: nat, now: int, modelFiles: ModelFiles)
      returns (prediction: Result<Prediction, string>, ticket: Ticket)
      requires Valid()
      modifies db, predictor
      ensures Valid()
      ensures prediction == old(predictor.Predicted(t.subject, t.body, modelFiles))
      ensures ticket == Classified(t, prediction, now)
      ensures db.State() == old(db.State()).(auditLogs := old(db.auditLogs) + PredictionLog(id, prediction, now))
    {
      prediction := predictor.PredictTicket(t.subject, t.body, modelFiles);
      if prediction.Ok? {
        var pr := prediction.value;
        ticket := t.(queueConfidence := Some(pr.queueConfidence), criticalProb := Some(pr.criticalProb),
                     isCritical := pr.isCritical, status := TicketStatus.Triaged, triagedAt := Some(now));
        match pr.predictedQueue {
          case Name(q) =>
            ticket := ticket.(predictedQueue := Some(q));
            db.auditLogs := db.auditLogs + [AuditLog(id, MlPrediction, "system",
                                                    PredictionDetails(q, pr.queueConfidence, pr.criticalProb), now)];
          case Index(_) =>
            // json.dumps of the details raises: the except branch writes the defaults
            ticket := Fallback(ticket);
        }
      } else {
        ticket := Fallback(t);
      }
    }

    /** Step 2: search for neighbours on the prediction's embedding; a raising search (or a failed
        prediction, which leaves no embedding to search on) gives no neighbours. */
    method SearchStep(prediction: Result<Prediction, string>, indexFiles: IndexFiles)
      returns (search: Result<seq<SimilarTicket>, string>, similar: seq<SimilarTicket>)
      requires Valid()
      modifies retriever
      ensures Valid()
      ensures search == if prediction.Ok? then old(retriever.Searched(prediction.value.embedding, NeighbourCount, indexFiles))
                        else Err(NoPrediction)
      ensures similar == Neighbours(search)
    {
      search := Err(NoPrediction);
      similar := [];
      if prediction.Ok? {
        search := retriever.SearchByEmbedding(prediction.value.embedding, NeighbourCount, indexFiles);
        if search.Ok? {
          similar := search.value;
        }
      }
    }

    /** Step 3: when asked for, draft a reply; store it and route the ticket by the draft's
        approval flag, or route the ticket to a human when drafting failed. */
    method DraftingStep(db: Session, t: Ticket, id: nat, similar: seq<SimilarTicket>, runDraft: bool, now: int)
      returns (ticket: Ticket, draftGenerated: bool, needsApproval: bool, ghost draft: Option<Result<Reply, string>>)
      requires t.predictedQueue.Some?
      modifies db
      ensures draft == if runDraft
                       then Some(Ok(Generated(generator, RequestFor(t, similar), DefaultMaxRetries, confidenceThreshold)))
                       else None
      ensures db.tickets == old(db.tickets) && db.approvals == old(db.approvals)
      ensures (ticket, db.responses, db.auditLogs, draftGenerated, needsApproval)
           == DraftStep(t, id, old(db.responses), old(db.auditLogs), similar, draft, now)
    {
      ticket := t;
      draftGenerated := false;
      needsApproval := t.isCritical;
      draft := None;
      if runDraft {
        var request := DraftRequest(t.subject, t.body, t.predictedQueue.value, t.isCritical, similar);
        var reply := GenerateReplyMethod(generator, request, DefaultMaxRetries, confidenceThreshold);
        draft := Some(Ok(reply));
        ticket, draftGenerated, needsApproval := StoreReply(db, t, id, similar, reply, now);
      }
    }

    /** The end of step 3 for the generator's reply. */
    method StoreReply(db: Session, t: Ticket, id: nat, similar: seq<SimilarTicket>, reply: Reply, now: int)
      returns (ticket: Ticket, draftGenerated: bool, needsApproval: bool)
      modifies db
      ensures db.tickets == old(db.tickets) && db.approvals == old(db.approvals)
      ensures (ticket, db.responses, db.auditLogs, draftGenerated, needsApproval)
           == DraftStep(t, id, old(db.responses), old(db.auditLogs), similar, Some(Ok(reply)), now)
    {
      if reply.success {
        var d := reply.draft;
        db.responses := db.responses + [DraftResponse(id, d, similar, now)];
        ticket := t.(predictedLanguage := Some(d.language));
        needsApproval := d.needsHumanApproval;
        draftGenerated := true;
        ticket := ticket.(status := if needsApproval then PendingApproval else TicketStatus.Drafted);
        db.auditLogs := db.auditLogs + [AuditLog(id, DraftGenerated, "system", DraftDetails(d.confidence, needsApproval), now)];
      } else {
        ticket := t.(status := PendingApproval);
        needsApproval := true;
        draftGenerated := false;
      }
    }

    /** triage_ticket: the tables end as TriageOutcome describes, for the prediction the predictor
        gives, the search on its embedding (none when prediction failed) and, when asked for, the
        reply the generator drafts for the classified ticket. */
    method TriageTicket(ticketId: int, db: Session, runDraft: bool, now: int,
                        modelFiles: ModelFiles, indexFiles: IndexFiles)
      returns (r: Result<TriageSummary, string>)
      requires db.Valid() && Valid()
      modifies db, predictor, retriever
      ensures db.Valid() && Valid()
      ensures !HasTicket(old(db.State()), ticketId) ==> r == Err(NotFound(ticketId)) && db.State() == old(db.State())
      ensures HasTicket(old(db.State()), ticketId) ==>
        var t := old(db.State()).tickets[ticketId - 1];
        var p := old(predictor.Predicted(t.subject, t.body, modelFiles));
        var search := if p.Ok? then old(retriever.Searched(p.value.embedding, NeighbourCount, indexFiles))
                      else Err(NoPrediction);
        var draft := if runDraft
                     then Some(Ok(Generated(generator, RequestFor(Classified(t, p, now), Neighbours(search)),
                                            DefaultMaxRetries, confidenceThreshold)))
                     else None;
        var (db', summary) := TriageOutcome(old(db.State()), ticketId, p, search, draft, now);
        db.State() == db' && r == Ok(summary)
    {
      if !(1 <= ticketId <= |db.tickets|) {
        return Err(NotFound(ticketId));
      }
      ghost var db0 := db.State();
      var id: nat := ticketId;
      var prediction, ticket := ClassifyStep(db, db.tickets[id - 1], id, now, modelFiles);
      var search, similar := SearchStep(prediction, indexFiles);
      var draftGenerated, needsApproval;
      ghost var draft;
      ticket, draftGenerated, needsApproval, draft := DraftingStep(db, ticket, id, similar, runDraft, now);
      db.tickets := db.tickets[id - 1 := ticket];
      r := Ok(Summary(id, ticket, draftGenerated, needsApproval));
      assert db.State() == TriageOutcome(db0, id, prediction, search, draft, now).0;
      TriageKeepsLifecycle(db0, id, prediction, search, draft, now);
    }
  }
}
