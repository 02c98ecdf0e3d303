/** The draft-reply generator (backend/gemini/generate_reply.py). The language model call and
    json.loads are collaborators: `generate` answers a prompt (its answer may differ from one
    attempt to the next, and it may raise), `decode` reads the JSON object of the keys the parser
    looks at, or fails as json.loads does. Building the prompt, cleaning and validating the answer,
    the business rules, the retry loop and the error response are modelled. */
module GenerateReply {
  import opened Wrappers
  import opened Text
  import opened Retrieval

  const DefaultMaxRetries := 3
  /** The CONFIDENCE_THRESHOLD default. */
  const DefaultConfidenceThreshold: real := 0.7

  const JsonError := "Failed to parse Gemini response as JSON"
  const MaxRetriesExceeded := "Max retries exceeded"

  /** What generate_reply is asked to draft. */
  datatype DraftRequest = DraftRequest(subject: string, body: string, predictedQueue: string,
                                       isCritical: bool, similarTickets: seq<SimilarTicket>)

  /** The keys of the decoded JSON object the parser reads; a missing key is None. `confidence`
      holds the result of float(): Err when the value does not convert. */
  datatype RawReply = RawReply(language: Option<string>, subject: Option<string>, body: Option<string>,
                               confidence: Option<Result<real, string>>,
                               needsHumanApproval: Option<bool>, suggestedTags: Option<seq<string>>)

  /** The model and the JSON decoder. generate(prompt, attempt) is response.text or the message of
      what generate_content raised; decode(text) is None when json.loads raises JSONDecodeError. */
  datatype Gemini = Gemini(generate: (string, nat) -> Result<string, string>,
                           decode: string -> Option<RawReply>)

  datatype Draft = Draft(language: string, subject: string, body: string, confidence: real,
                         needsHumanApproval: bool, suggestedTags: seq<string>)

  /** The dictionary generate_reply returns: `error` is set exactly on failure. */
  datatype Reply = Reply(success: bool, draft: Draft, error: Option<string>)

  /** Why one attempt failed: a JSONDecodeError, or another exception with its message. */
  datatype AttemptError = NotJson | Raised(message: string)

  function ErrorMessage(e: AttemptError): string {
    match e
    case NotJson => JsonError
    case Raised(m) => m
  }

  // ---------------------------------------------------------------- the prompt

  const Preamble := "You are an expert IT support assistant. Generate a professional draft reply for the following IT support ticket.\n\nTICKET INFORMATION:\n"

  const SimilarHeading := "SIMILAR HISTORICAL TICKETS (for reference):\n\n"

  const Instructions := "\nINSTRUCTIONS:\n1. Draft a professional, helpful reply suitable for corporate IT support\n2. Detect the language of the ticket and respond in the SAME language\n3. If information is missing, ask 1-2 specific clarifying questions\n4. Do NOT hallucinate policies or make up information\n5. Use the similar tickets above as reference for tone and approach (if provided)\n6. Be concise but thorough\n\nOUTPUT FORMAT (STRICT JSON ONLY):\nReturn ONLY a valid JSON object (no markdown, no explanation) with this exact structure:\n{\n  \"language\": \"en|de|es|fr|etc\",\n  \"subject\": \"Reply subject line\",\n  \"body\": \"Full reply body text\",\n  \"confidence\": 0.0-1.0,\n  \"needs_human_approval\": true|false,\n  \"suggested_tags\": [\"tag1\", \"tag2\", \"tag3\"]\n}\n\nIMPORTANT: Return ONLY the JSON object, nothing else.\n"

  /** The ticket part of the prompt. */
  function Header(req: DraftRequest): string {
    Preamble + "Subject: " + req.subject + "\nBody: " + req.body + "\nDepartment: " + req.predictedQueue
    + "\nPriority: " + (if req.isCritical then "HIGH (CRITICAL)" else "Normal") + "\n\n"
  }

  /** The neighbours the prompt shows: at most the first three. */
  function Shown(ts: seq<SimilarTicket>): (r: seq<SimilarTicket>)
    ensures |r| == if |ts| < 3 then |ts| else 3
    ensures r == ts[..|r|]
  {
    if |ts| < 3 then ts else ts[..3]
  }

  /** The example block for neighbour number i (counting from 1): its body and answer are cut to
      200 characters. */
  function ExampleBlock(i: nat, t: SimilarTicket): string {
    "Example " + NatToString(i) + ":\n"
    + "Subject: " + t.subject + "\n"
    + "Issue: " + Take(t.body, 200) + "...\n"
    + "Resolution: " + Take(t.answer, 200) + "...\n"
    + "Queue: " + t.queue + "\n\n"
  }

  /** The example blocks of ts, numbered 1, 2, ... */
  function Examples(ts: seq<SimilarTicket>): string {
    if ts == [] then "" else Examples(ts[..|ts| - 1]) + ExampleBlock(|ts|, ts[|ts| - 1])
  }

  /** The prompt _build_prompt returns. */
  function Prompt(req: DraftRequest): string {
    (if |req.similarTickets| > 0 then Header(req) + SimilarHeading + Examples(Shown(req.similarTickets))
     else Header(req))
    + Instructions
  }

  /** The prompt always opens with the ticket and closes with the instructions. */
  lemma PromptFraming(req: DraftRequest)
    ensures StartsWith(Prompt(req), Header(req)) && EndsWith(Prompt(req), Instructions)
  {
    var lead := if |req.similarTickets| > 0 then Header(req) + SimilarHeading + Examples(Shown(req.similarTickets))
                else Header(req);
    assert Prompt(req) == lead + Instructions;
    assert lead[..|Header(req)|] == Header(req);
    assert (lead + Instructions)[..|lead|] == lead;
  }

  /** _build_prompt: the ticket header, then the example blocks appended one neighbour at a time,
      then the instructions. */
  method BuildPrompt(req: DraftRequest) returns (prompt: string)
    ensures prompt == Prompt(req)
  {
    prompt := Header(req);
    if |req.similarTickets| > 0 {
      var examples := ExampleBlocks(Shown(req.similarTickets));
      prompt := prompt + SimilarHeading + examples;
    }
    prompt := prompt + Instructions;
  }

  /** The loop of _build_prompt over the shown neighbours, numbered from 1: the text its `+=`
      steps append. */
  method ExampleBlocks(shown: seq<SimilarTicket>) returns (text: string)
    ensures text == Examples(shown)
  {
    text := "";
    var i := 0;
    while i < |shown|
      invariant 0 <= i <= |shown|
      invariant text == Examples(shown[..i])
    {
      ExamplesStep(shown, i);
      text := text + ExampleBlock(i + 1, shown[i]);
      i := i + 1;
    }
    assert shown[..i] == shown;
  }

  lemma ExamplesStep(ts: seq<SimilarTicket>, i: nat)
    requires i < |ts|
    ensures Examples(ts[..i + 1]) == Examples(ts[..i]) + ExampleBlock(i + 1, ts[i])
  {
    assert ts[..i + 1][..i] == ts[..i];
  }

  /** What the prompt shows of one neighbour: its score, priority, language and everything past the
      first 200 characters of body and answer are not shown. */
  function View(t: SimilarTicket): (string, string, string, string) {
    (t.subject, Take(t.body, 200), Take(t.answer, 200), t.queue)
  }

  predicate SameViews(a: seq<SimilarTicket>, b: seq<SimilarTicket>) {
    |a| == |b| && forall i :: 0 <= i < |a| ==> View(a[i]) == View(b[i])
  }

  /** The prompt depends on the ticket and on the truncated views of the first three neighbours
      only: neighbours past the third, scores and the rest of long texts never reach the model. */
  lemma PromptSeesOnlyShownViews(r1: DraftRequest, r2: DraftRequest)
    requires r1.subject == r2.subject && r1.body == r2.body
    requires r1.predictedQueue == r2.predictedQueue && r1.isCritical == r2.isCritical
    requires SameViews(Shown(r1.similarTickets), Shown(r2.similarTickets))
    ensures Prompt(r1) == Prompt(r2)
  {
    ExamplesSeeOnlyViews(Shown(r1.similarTickets), Shown(r2.similarTickets));
  }

  lemma {:induction false} ExamplesSeeOnlyViews(a: seq<SimilarTicket>, b: seq<SimilarTicket>)
    requires SameViews(a, b)
    ensures Examples(a) == Examples(b)
  {
    if a != [] {
      var n := |a| - 1;
      assert SameViews(a[..n], b[..n]) by {
        forall i | 0 <= i < n ensures View(a[..n][i]) == View(b[..n][i]) {
          assert a[..n][i] == a[i] && b[..n][i] == b[i];
        }
      }
      ExamplesSeeOnlyViews(a[..n], b[..n]);
      assert View(a[n]) == View(b[n]);
    }
  }

  /** Without neighbours the prompt is the ticket part followed by the instructions. */
  lemma PromptWithoutNeighbours(req: DraftRequest)
    requires req.similarTickets == []
    ensures Prompt(req) == Header(req) + Instructions
  {
  }

  // ---------------------------------------------------------------- parsing the answer

  /** The answer with surrounding whitespace and a markdown code fence removed; what is left has
      no whitespace at either end and is never longer than the answer. */
  function CleanResponseText(text: string): (r: string)
    ensures NoEdgeSpace(r) && |r| <= |text|
  {
    Strip(Unfence(Strip(text)))
  }

  /** Drop a leading ```json, then a leading ```, then a trailing ```. Nothing is added, and text
      without a fence at either end is kept as it is. */
  function Unfence(s0: string): (r: string)
    ensures |r| <= |s0|
    ensures !StartsWith(s0, "```") && !EndsWith(s0, "```") ==> r == s0
  {
    var s1 := if StartsWith(s0, "```json") then s0[7..] else s0;
    var s2 := if StartsWith(s1, "```") then s1[3..] else s1;
    if EndsWith(s2, "```") then s2[..|s2| - 3] else s2
  }

  /** A JSON object's text: it opens with a brace and closes with one. */
  predicate ObjectText(j: string) {
    |j| >= 2 && j[0] == '{' && j[|j| - 1] == '}'
  }

  /** A fence around text that starts with neither a backtick nor "json" comes off whole. */
  lemma UnfenceFenced(fence: string, inner: string)
    requires fence == "```json" || fence == "```"
    requires |inner| >= 1 && inner[0] != '`' && inner[0] != 'j'
    ensures Unfence(fence + inner + "```") == inner
  {
    var x := fence + inner + "```";
    var s1 := inner + "```";
    if fence == "```json" {
      assert x == "```json" + s1;
      assert StartsWith(x, "```json");
      assert x[7..] == s1;
    } else {
      assert x == "```" + s1;
      assert x[3] == inner[0];
      assert !StartsWith(x, "```json");
    }
    var s1' := if StartsWith(x, "```json") then x[7..] else x;
    if fence == "```json" {
      assert s1' == s1;
      assert s1[0] == inner[0];
      assert !StartsWith(s1, "```");
    } else {
      assert s1' == x;
      assert StartsWith(x, "```");
      assert x[3..] == s1;
    }
    var s2 := if StartsWith(s1', "```") then s1'[3..] else s1';
    assert s2 == s1;
    assert s1[|s1| - 3..] == "```";
    assert s1[..|s1| - 3] == inner;
  }

  /** A JSON object in a ```json or ``` fence, with whitespace around and inside the fence, is
      handed to the decoder without the fence and the whitespace. */
  lemma FencedObjectIsUnwrapped(pre: string, fence: string, a: string, j: string, b: string, post: string)
    requires fence == "```json" || fence == "```"
    requires AllSpace(pre) && AllSpace(a) && AllSpace(b) && AllSpace(post) && ObjectText(j)
    ensures CleanResponseText(pre + fence + a + j + b + "```" + post) == j
  {
    var inner := a + j + b;
    var x := fence + inner + "```";
    var whole := pre + fence + a + j + b + "```" + post;
    assert Strip(whole) == x by {
      assert NoEdgeSpace(x) by {
        assert x[0] == '`' && x[|x| - 1] == '`';
      }
      assert whole == pre + x + post;
      StripSurrounded(pre, x, post);
    }
    assert Unfence(x) == inner by {
      assert inner[0] == if a == [] then j[0] else a[0];
      UnfenceFenced(fence, inner);
    }
    assert Strip(inner) == j by {
      assert NoEdgeSpace(j);
      StripSurrounded(a, j, b);
    }
  }

  /** An unfenced JSON object with whitespace around it is handed over as it is. */
  lemma PlainObjectIsKept(pre: string, j: string, post: string)
    requires AllSpace(pre) && AllSpace(post) && ObjectText(j)
    ensures CleanResponseText(pre + j + post) == j
  {
    assert NoEdgeSpace(j);
    StripSurrounded(pre, j, post);
    assert !StartsWith(j, "```json") && !StartsWith(j, "```") by { assert j[0] == '{'; }
    assert !EndsWith(j, "```") by { assert j[|j| - 1] == '}'; }
    assert Unfence(j) == j;
    StripSurrounded([], j, []);
    assert [] + j + [] == j;
  }

  /** Wrapping the object in a code fence, with any whitespace around or inside it, does not
      change what the parser makes of the answer. */
  lemma FencingDoesNotChangeTheParse(decode: string -> Option<RawReply>, pre: string, fence: string,
                                     a: string, j: string, b: string, post: string)
    requires fence == "```json" || fence == "```"
    requires AllSpace(pre) && AllSpace(a) && AllSpace(b) && AllSpace(post) && ObjectText(j)
    ensures ParseResponse(decode, pre + fence + a + j + b + "```" + post) == ParseResponse(decode, j)
  {
    FencedObjectIsUnwrapped(pre, fence, a, j, b, post);
    ObjectIsClean(j);
  }

  /** An object's text is its own cleaned form. */
  lemma ObjectIsClean(j: string)
    requires ObjectText(j)
    ensures CleanResponseText(j) == j
  {
    assert !IsSpace(j[0]) && !IsSpace(j[|j| - 1]);
    assert Strip(j) == j by {
      assert TrimStart(j) == j;
    }
    assert !StartsWith(j, "```") by { assert j[0] == '{'; }
    assert !EndsWith(j, "```") by { assert j[|j| - 1] == '}'; }
    assert Unfence(j) == j;
  }

  /** max(0.0, min(1.0, x)) */
  function Clamp(x: real): (r: real)
    ensures 0.0 <= r <= 1.0
    ensures 0.0 <= x <= 1.0 ==> r == x
  {
    if x > 1.0 then 1.0 else if x < 0.0 then 0.0 else x
  }

  function MissingField(name: string): AttemptError {
    Raised("Missing required field: " + name)
  }

  /** _parse_response: decode the cleaned text, then validate what was decoded. */
  function ParseResponse(decode: string -> Option<RawReply>, text: string): (r: Result<Draft, AttemptError>)
    ensures r.Ok? ==> 0.0 <= r.value.confidence <= 1.0
  {
    Validate(decode(CleanResponseText(text)))
  }

  /** Check the required keys in order, default the tags to the empty list and clamp the
      confidence; None is a JSONDecodeError. */
  function Validate(decoded: Option<RawReply>): (r: Result<Draft, AttemptError>)
    ensures r.Ok? ==> 0.0 <= r.value.confidence <= 1.0
  {
    match decoded
    case None => Err(NotJson)
    case Some(raw) =>
      if raw.language.None? then Err(MissingField("language"))
      else if raw.subject.None? then Err(MissingField("subject"))
      else if raw.body.None? then Err(MissingField("body"))
      else if raw.confidence.None? then Err(MissingField("confidence"))
      else if raw.needsHumanApproval.None? then Err(MissingField("needs_human_approval"))
      else
        match raw.confidence.value
        case Err(m) => Err(Raised(m))
        case Ok(c) =>
          Ok(Draft(raw.language.value, raw.subject.value, raw.body.value, Clamp(c),
                   raw.needsHumanApproval.value, raw.suggestedTags.GetOr([])))
  }

  /** Validation accepts exactly the objects whose five required keys are present and whose
      confidence converts; the draft then carries those values, the tags defaulting to []; only a
      decoding failure is reported as a JSON error. */
  lemma ValidateAccepts(decoded: Option<RawReply>)
    ensures Validate(decoded).Ok? <==>
        && decoded.Some? && decoded.value.language.Some? && decoded.value.subject.Some?
        && decoded.value.body.Some? && decoded.value.needsHumanApproval.Some?
        && decoded.value.confidence.Some? && decoded.value.confidence.value.Ok?
    ensures Validate(decoded) == Err(NotJson) <==> decoded.None?
    ensures var r := Validate(decoded);
      r.Ok? ==>
        var raw := decoded.value;
        && r.value.language == raw.language.value && r.value.subject == raw.subject.value
        && r.value.body == raw.body.value
        && r.value.needsHumanApproval == raw.needsHumanApproval.value
        && r.value.confidence == Clamp(raw.confidence.value.value)
        && r.value.suggestedTags == (if raw.suggestedTags.Some? then raw.suggestedTags.value else [])
  {
  }

  /** A missing key is reported before an unconvertible confidence, naming the first missing key
      in the order language, subject, body, confidence, needs_human_approval. */
  lemma ValidateReportsFirstMissingKey(raw: RawReply)
    requires raw.language.None? || raw.subject.None? || raw.body.None? || raw.confidence.None?
             || raw.needsHumanApproval.None?
    ensures Validate(Some(raw)).Err? && Validate(Some(raw)).error.Raised?
    ensures var names := ["language", "subject", "body", "confidence", "needs_human_approval"];
      var present := [raw.language.Some?, raw.subject.Some?, raw.body.Some?, raw.confidence.Some?,
                      raw.needsHumanApproval.Some?];
      exists k :: 0 <= k < 5 && !present[k] && (forall m :: 0 <= m < k ==> present[m])
                  && Validate(Some(raw)) == Err(MissingField(names[k]))
  {
    var present := [raw.language.Some?, raw.subject.Some?, raw.body.Some?, raw.confidence.Some?,
                    raw.needsHumanApproval.Some?];
    var names := ["language", "subject", "body", "confidence", "needs_human_approval"];
    var k := if !present[0] then 0 else if !present[1] then 1 else if !present[2] then 2
             else if !present[3] then 3 else 4;
    assert !present[k] && (forall m :: 0 <= m < k ==> present[m]);
    assert Validate(Some(raw)) == Err(MissingField(names[k]));
  }

  // ---------------------------------------------------------------- business rules

  /** _apply_business_rules: a critical ticket, or a draft whose confidence is below the threshold,
      needs human approval; the model's own request for approval is never cleared. */
  function ApplyBusinessRules(d: Draft, isCritical: bool, threshold: real): (r: Draft)
    ensures r.needsHumanApproval <==> d.needsHumanApproval || isCritical || d.confidence < threshold
    ensures r == d.(needsHumanApproval := r.needsHumanApproval)
  {
    var d1 := if isCritical then d.(needsHumanApproval := true) else d;
    if d1.confidence < threshold then d1.(needsHumanApproval := true) else d1
  }

  /** Applying the rules twice is applying them once. */
  lemma BusinessRulesIdempotent(d: Draft, isCritical: bool, threshold: real)
    ensures ApplyBusinessRules(ApplyBusinessRules(d, isCritical, threshold), isCritical, threshold)
            == ApplyBusinessRules(d, isCritical, threshold)
  {
  }

  const ErrorDraft := Draft("en", "Error generating reply",
    "An error occurred while generating the response. This ticket requires human attention.",
    0.0, true, ["error", "needs_review"])

  /** _error_response: a failed reply routes the ticket to a human, with the fixed English
      placeholder draft tagged for review. */
  function ErrorResponse(msg: string): (r: Reply)
    ensures !r.success && r.error == Some(msg)
    ensures r.draft == ErrorDraft
    ensures r.draft.needsHumanApproval && r.draft.confidence == 0.0 && r.draft.language == "en"
    ensures r.draft.subject == "Error generating reply"
    ensures r.draft.suggestedTags == ["error", "needs_review"]
  {
    Reply(false, ErrorDraft, Some(msg))
  }

  // ---------------------------------------------------------------- the retry loop

  /** One attempt: call the model, parse, apply the business rules. */
  function Attempt(g: Gemini, prompt: string, k: nat, isCritical: bool, threshold: real): Result<Draft, AttemptError> {
    match g.generate(prompt, k)
    case Err(m) => Err(Raised(m))
    case Ok(text) =>
      match ParseResponse(g.decode, text)
      case Err(e) => Err(e)
      case Ok(d) => Ok(ApplyBusinessRules(d, isCritical, threshold))
  }

  /** The outcome of each attempt, by attempt number. */
  function Attempts(g: Gemini, prompt: string, isCritical: bool, threshold: real): nat -> Result<Draft, AttemptError> {
    (k: nat) => Attempt(g, prompt, k, isCritical, threshold)
  }

  /** The reply the loop gives from attempt k on, for the given attempt outcomes. */
  function RepliesFrom(attempts: nat -> Result<Draft, AttemptError>, maxRetries: int, k: nat): (r: Reply)
    ensures r.success <==> r.error.None?
    ensures !r.success ==> r.draft == ErrorDraft
    decreases maxRetries - k
  {
    if k >= maxRetries then ErrorResponse(MaxRetriesExceeded)
    else match attempts(k)
      case Ok(d) => Reply(true, d, None)
      case Err(e) =>
        if k == maxRetries - 1 then ErrorResponse(ErrorMessage(e))
        else RepliesFrom(attempts, maxRetries, k + 1)
  }

  /** generate_reply's result: only a failure carries an error, and a failure carries the
      placeholder draft. */
  function Generated(g: Gemini, req: DraftRequest, maxRetries: int, threshold: real): (r: Reply)
    ensures r.success <==> r.error.None?
    ensures !r.success ==> r.draft == ErrorDraft
  {
    RepliesFrom(Attempts(g, Prompt(req), req.isCritical, threshold), maxRetries, 0)
  }

  /** generate_reply: up to maxRetries attempts; the first that parses is the reply; when the last
      one fails too, the error response carries that attempt's error. */
  method GenerateReplyMethod(g: Gemini, req: DraftRequest, maxRetries: int, threshold: real) returns (r: Reply)
    ensures r == Generated(g, req, maxRetries, threshold)
  {
    var prompt := BuildPrompt(req);
    ghost var attempts := Attempts(g, prompt, req.isCritical, threshold);
    var attempt: nat := 0;
    while attempt < maxRetries
      invariant attempt == 0 || attempt < maxRetries
      invariant RepliesFrom(attempts, maxRetries, 0) == RepliesFrom(attempts, maxRetries, attempt)
    {
      var outcome: Result<Draft, AttemptError>;
      var response := g.generate(prompt, attempt);
      if response.Err? {
        outcome := Err(Raised(response.error));
      } else {
        var parsed := ParseResponse(g.decode, response.value);
        if parsed.Err? {
          outcome := Err(parsed.error);
        } else {
          outcome := Ok(ApplyBusinessRules(parsed.value, req.isCritical, threshold));
        }
      }
      assert outcome == attempts(attempt);
      if outcome.Ok? {
        return Reply(true, outcome.value, None);
      }
      if attempt == maxRetries - 1 {
        return ErrorResponse(ErrorMessage(outcome.error));
      }
      attempt := attempt + 1;
    }
    r := ErrorResponse(MaxRetriesExceeded);
  }

  /** The reply, stated without the loop: it succeeds exactly when some attempt parses, and then it
      is the first attempt that does; otherwise every attempt failed and the error response carries
      the last attempt's error (or "Max retries exceeded" when there were no attempts). */
  lemma {:induction false} RepliesFromIsFirstSuccess(attempts: nat -> Result<Draft, AttemptError>, maxRetries: int, k: nat)
    ensures var r := RepliesFrom(attempts, maxRetries, k);
      && (r.success <==> exists i :: k <= i < maxRetries && attempts(i).Ok?)
      && (r.success ==> exists i :: k <= i < maxRetries && attempts(i) == Ok(r.draft)
                                    && forall j :: k <= j < i ==> attempts(j).Err?)
      && (!r.success ==> r == ErrorResponse(
                           if k >= maxRetries then MaxRetriesExceeded
                           else ErrorMessage(attempts(maxRetries - 1).error)))
    decreases maxRetries - k
  {
    if k < maxRetries && attempts(k).Err? && k != maxRetries - 1 {
      RepliesFromIsFirstSuccess(attempts, maxRetries, k + 1);
      var r := RepliesFrom(attempts, maxRetries, k);
      if r.success {
        var i :| k + 1 <= i < maxRetries && attempts(i) == Ok(r.draft)
                 && forall j :: k + 1 <= j < i ==> attempts(j).Err?;
        assert forall j :: k <= j < i ==> attempts(j).Err?;
      }
    }
  }

  /** The business rules hold of a draft, and its confidence is within [0, 1]. */
  predicate RulesHold(d: Draft, isCritical: bool, threshold: real) {
    && (isCritical ==> d.needsHumanApproval)
    && (d.confidence < threshold ==> d.needsHumanApproval)
    && 0.0 <= d.confidence <= 1.0
  }

  /** A critical ticket's reply always needs approval, and so does a reply whose confidence is below
      the threshold; the confidence is always within [0, 1]; the error is set exactly on failure. */
  lemma GeneratedNeedsApproval(g: Gemini, req: DraftRequest, maxRetries: int, threshold: real)
    ensures var r := Generated(g, req, maxRetries, threshold);
      RulesHold(r.draft, req.isCritical, threshold) && (r.success <==> r.error.None?)
  {
    var prompt := Prompt(req);
    var attempts := Attempts(g, prompt, req.isCritical, threshold);
    forall i: nat | attempts(i).Ok? ensures RulesHold(attempts(i).value, req.isCritical, threshold) {
      assert attempts(i) == Attempt(g, prompt, i, req.isCritical, threshold);
      AttemptOk(g, prompt, i, req.isCritical, threshold);
    }
    RepliesKeepRules(attempts, maxRetries, 0, req.isCritical, threshold);
  }

  lemma {:induction false} RepliesKeepRules(attempts: nat -> Result<Draft, AttemptError>, maxRetries: int, k: nat,
                                            isCritical: bool, threshold: real)
    requires forall i: nat :: attempts(i).Ok? ==> RulesHold(attempts(i).value, isCritical, threshold)
    ensures var r := RepliesFrom(attempts, maxRetries, k);
      RulesHold(r.draft, isCritical, threshold) && (r.success <==> r.error.None?)
    decreases maxRetries - k
  {
    if k < maxRetries && attempts(k).Err? && k != maxRetries - 1 {
      RepliesKeepRules(attempts, maxRetries, k + 1, isCritical, threshold);
    }
  }

  /** A successful attempt's draft has had the business rules applied to a clamped confidence. */
  lemma AttemptOk(g: Gemini, prompt: string, k: nat, isCritical: bool, threshold: real)
    requires Attempt(g, prompt, k, isCritical, threshold).Ok?
    ensures RulesHold(Attempt(g, prompt, k, isCritical, threshold).value, isCritical, threshold)
  {
  }

  /** With no attempts allowed, the reply is the error response "Max retries exceeded". */
  lemma NoAttemptsGiveMaxRetriesExceeded(g: Gemini, req: DraftRequest, maxRetries: int, threshold: real)
    requires maxRetries <= 0
    ensures Generated(g, req, maxRetries, threshold) == ErrorResponse(MaxRetriesExceeded)
  {
  }
}
