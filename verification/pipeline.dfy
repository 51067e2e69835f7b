/**
 * The submission decision procedure both handlers share: method and
 * configuration gates, body reading, description check, task creation, section
 * placement and image attachment. Outbound calls are not performed; their
 * outcomes are inputs, and the calls issued are returned as a trace.
 */
module Pipeline {
  import opened Wrappers
  import opened Dates
  import opened Submission

  /** The response sent and the outbound calls issued, in order. */
  datatype Handled = Handled(response: Response, trace: seq<Call>)

  /**
   * A trace is a creation call followed by at most one section placement and
   * at most one attachment, the attachment last: nothing is enriched before it
   * exists, and no call is repeated.
   */
  predicate WellOrdered(t: seq<Call>) {
    && |t| <= 3
    && (t != [] ==> t[0].CreateTask?)
    && (forall i :: 0 < i < |t| ==> !t[i].CreateTask?)
    && (forall i :: 0 <= i < |t| - 1 ==> !t[i].Attach?)
    && (forall i, j :: 0 <= i < j < |t| ==> !(t[i].AddToSection? && t[j].AddToSection?))
  }

  /** A placement or attachment call about the task `gid`. */
  predicate Enriches(c: Call, gid: string) {
    match c
    case CreateTask(_, _) => false
    case AddToSection(_, _, taskGid) => taskGid == gid
    case Attach(_, _, parent, _) => parent == gid
  }

  /**
   * The calls after a creation: at most a placement then an attachment, all
   * with `bearer` and about the task `gid`.
   */
  predicate EnrichmentTrace(t: seq<Call>, bearer: string, gid: string) {
    && |t| <= 2
    && (forall i :: 0 <= i < |t| ==> Enriches(t[i], gid) && t[i].bearer == bearer)
    && (|t| == 2 ==> t[0].AddToSection? && t[1].Attach?)
  }

  /**
   * `sectionResult` holds what placing the task under `target` produced:
   * `null` without a target, the 2xx reply itself, or the recorded failure.
   */
  predicate ReportsPlacement(r: Response, target: Option<string>, reply: CallOutcome<Payload>) {
    && (!Truthy(target) ==> r.sectionResult == Some(NotPlaced))
    && (Truthy(target) && reply.Ok? ==> r.sectionResult == Some(Placed(reply.payload)))
    && (Truthy(target) && reply.Fail? ==> r.sectionResult == Some(PlacementFailed(SectionFailedText, reply.text)))
  }

  /** The catch-all 500 a thrown exception ends in. */
  predicate IsCrash(r: Response) {
    r.status == 500 && r.error == Some(InternalErrorText) && r.task.None?
  }

  /** The `details` of the catch-all 500: `err?.message || String(err)` or `err.message`. */
  function CrashDetails(v: Variant, e: Exception): (d: string)
    ensures e.message != "" ==> d == e.message
    ensures v == Netlify ==> d == e.message
    ensures v == Vercel && e.message == "" ==> d == e.name
  {
    if v == Vercel && e.message == "" then e.name else e.message
  }

  function Crash(v: Variant, e: Exception): (r: Response)
    ensures IsCrash(r)
  {
    ErrorResponse(500, InternalErrorText, Some(CrashDetails(v, e)))
  }

  /** `readJson(req)` (empty text reads as `{}`) or `JSON.parse(event.body)` (empty text throws). */
  function ReadBody(v: Variant, raw: RawBody): (r: Result<Fields, Exception>)
    ensures raw.Parsed? ==> r == Success(raw.fields)
    ensures raw.Unparseable? ==> r == Failure(raw.error)
    ensures raw.Blank? ==> r == (if v == Vercel then Success(NoFields) else Failure(BlankBodyError))
  {
    match raw
    case Blank => if v == Vercel then Success(NoFields) else Failure(BlankBodyError)
    case Parsed(f) => Success(f)
    case Unparseable(e) => Failure(e)
  }

  function Min(a: int, b: int): int {
    if a <= b then a else b
  }

  /** The task name: the description cut to its first 80 characters, or the default title if that is empty. */
  function Title(description: string): (name: string)
    ensures description != "" ==> |name| == Min(TitleLimit, |description|) && name <= description
    ensures 0 < |description| <= TitleLimit ==> name == description
    ensures description == "" ==> name == DefaultTitle
  {
    var cut := description[..Min(TitleLimit, |description|)];
    if cut != "" then cut else DefaultTitle
  }

  /** The creation payload for a description, with the configured ids and the due date. */
  function NewTask(env: Env, description: string, dueOn: string): TaskPayload
    requires ConfigComplete(env)
  {
    TaskPayload(Title(description), description, env.workspace.value, env.assignee.value,
                [env.project.value], dueOn)
  }

  /** The section id the task is moved to; only one copy honours `urgent`. */
  function SectionTarget(v: Variant, env: Env, urgent: bool): (s: Option<string>)
    ensures v == Netlify || !urgent ==> s == env.defaultSection
    ensures v == Vercel && urgent ==> s == env.urgentSection
  {
    if v == Vercel && urgent then env.urgentSection else env.defaultSection
  }

  /** `imageName || "attachment.jpg"`. */
  function FileName(imageName: Option<string>): (n: string)
    ensures n != ""
    ensures Truthy(imageName) ==> n == imageName.value
    ensures !Truthy(imageName) ==> n == "attachment.jpg"
  {
    if Truthy(imageName) then imageName.value else DefaultFileName
  }

  /**
   * The section step: no call when the target id is falsy; otherwise one
   * placement call, whose non-2xx reply is recorded rather than raised.
   */
  function Place(bearer: string, target: Option<string>, taskGid: string, reply: CallOutcome<Payload>)
    : (p: (seq<Call>, Result<SectionResult, Exception>))
    ensures !Truthy(target) <==> p.0 == []
    ensures !Truthy(target) ==> p.1 == Success(NotPlaced)
    ensures Truthy(target) ==> p.0 == [AddToSection(bearer, target.value, taskGid)]
    ensures p.1.Failure? <==> Truthy(target) && reply.Thrown?
    ensures Truthy(target) && reply.Ok? ==> p.1 == Success(Placed(reply.payload))
    ensures Truthy(target) && reply.Fail? ==> p.1 == Success(PlacementFailed(SectionFailedText, reply.text))
    ensures Truthy(target) && reply.Thrown? ==> p.1 == Failure(reply.error)
  {
    if !Truthy(target) then ([], Success(NotPlaced))
    else
      var outcome := match reply
        case Ok(data) => Success(Placed(data))
        case Fail(_, text) => Success(PlacementFailed(SectionFailedText, text))
        case Thrown(e) => Failure(e);
      ([AddToSection(bearer, target.value, taskGid)], outcome)
  }

  /**
   * The image step, once the section result is known: without an image, a
   * 200 and no call; with one, a single upload about the task, whose non-2xx
   * status is passed on with the task and section result kept.
   */
  function Finish(v: Variant, bearer: string, f: Fields, task: TaskRecord, section: SectionResult, up: Upstream)
    : (h: Handled)
    ensures !Truthy(f.imageBase64) ==> h.trace == [] && h.response.status == 200
    ensures Truthy(f.imageBase64) ==>
              h.trace == [Attach(bearer, FileName(f.imageName), task.gid, f.imageBase64.value)]
    ensures IsCrash(h.response) || (h.response.task == Some(task) && h.response.sectionResult == Some(section))
  {
    if !Truthy(f.imageBase64) then
      Handled(Response(200, None, Some(NoImageMessage), None, Some(task), Some(section), None), [])
    else
      var attach := Attach(bearer, FileName(f.imageName), task.gid, f.imageBase64.value);
      var response := match up.attach
        case Ok(data) =>
          Response(200, None, Some(AttachedMessage(v)), None, Some(task), Some(section), Some(data))
        case Fail(status, text) =>
          Response(status, Some(AttachFailedText), None, Some(text), Some(task), Some(section), None)
        case Thrown(e) => Crash(v, e);
      Handled(response, [attach])
  }

  /** The steps after a successful creation: section placement, then the optional attachment. */
  function Enrich(v: Variant, bearer: string, f: Fields, target: Option<string>, task: TaskRecord, up: Upstream)
    : (h: Handled)
    ensures EnrichmentTrace(h.trace, bearer, task.gid)
    ensures Truthy(target) ==> h.trace != [] && h.trace[0] == AddToSection(bearer, target.value, task.gid)
    ensures !Truthy(target) ==> forall i :: 0 <= i < |h.trace| ==> h.trace[i].Attach?
    ensures !Truthy(target) && !IsCrash(h.response) ==> h.response.sectionResult == Some(NotPlaced)
    ensures h.response.task == Some(task) || IsCrash(h.response)
    ensures !IsCrash(h.response) ==> ReportsPlacement(h.response, target, up.section)
  {
    var (placed, outcome) := Place(bearer, target, task.gid, up.section);
    match outcome
    case Failure(e) => Handled(Crash(v, e), placed)
    case Success(section) =>
      var rest := Finish(v, bearer, f, task, section, up);
      Handled(rest.response, placed + rest.trace)
  }

  /** A creation call followed by its enrichment calls is a well-ordered trace. */
  lemma CreateThenEnrich(create: Call, rest: seq<Call>, bearer: string, gid: string)
    requires create.CreateTask? && create.bearer == bearer && EnrichmentTrace(rest, bearer, gid)
    ensures WellOrdered([create] + rest)
    ensures forall i :: 0 <= i < |[create] + rest| ==> ([create] + rest)[i].bearer == bearer
    ensures forall i :: 1 <= i < |[create] + rest| ==> Enriches(([create] + rest)[i], gid)
  {
    var t := [create] + rest;
    assert forall i :: 1 <= i < |t| ==> t[i] == rest[i - 1];
  }

  /** From a parsed body on: description check, creation, then enrichment. */
  function Submit(v: Variant, env: Env, f: Fields, dueOn: string, up: Upstream): (h: Handled)
    requires ConfigComplete(env)
    ensures WellOrdered(h.trace)
    ensures forall i :: 0 <= i < |h.trace| ==> h.trace[i].bearer == env.token.value
    ensures |h.trace| > 1 ==>
              up.create.Ok? && forall i :: 1 <= i < |h.trace| ==> Enriches(h.trace[i], up.create.payload.gid)
    ensures h.response.task.Some? ==> h.trace != [] && up.create.Ok? && h.response.task == Some(up.create.payload)
    ensures h.trace != [] && up.create.Ok? ==> h.response.task == Some(up.create.payload) || IsCrash(h.response)
    ensures Plausible(up) && h.response.status == 200 ==> h.response.task.Some?
  {
    if !Truthy(f.description) then Handled(ErrorResponse(400, MissingDescriptionText, None), [])
    else
      var create := CreateTask(env.token.value, NewTask(env, f.description.value, dueOn));
      match up.create
      case Thrown(e) => Handled(Crash(v, e), [create])
      case Fail(status, text) => Handled(ErrorResponse(status, CreateFailedText, Some(text)), [create])
      case Ok(task) =>
        var rest := Enrich(v, env.token.value, f, SectionTarget(v, env, f.urgent), task, up);
        CreateThenEnrich(create, rest.trace, env.token.value, task.gid);
        Handled(rest.response, [create] + rest.trace)
  }

  /**
   * One invocation of a handler. The contract states what holds on every
   * path: the calls come in creation/placement/attachment order, only after
   * both gates passed, all with the configured token, the later ones about the
   * task just created; a task is reported only when it was created, and once
   * created it is reported unless an exception ended the invocation.
   */
  function Handle(v: Variant, req: Request, env: Env, today: Today, up: Upstream): (h: Handled)
    ensures WellOrdered(h.trace)
    ensures h.trace != [] ==> req.httpMethod == "POST" && ConfigComplete(env)
    ensures forall i :: 0 <= i < |h.trace| ==> Truthy(env.token) && h.trace[i].bearer == env.token.value
    ensures |h.trace| > 1 ==>
              up.create.Ok? && forall i :: 1 <= i < |h.trace| ==> Enriches(h.trace[i], up.create.payload.gid)
    ensures h.response.task.Some? ==> h.trace != [] && up.create.Ok? && h.response.task == Some(up.create.payload)
    ensures h.trace != [] && up.create.Ok? ==> h.response.task == Some(up.create.payload) || IsCrash(h.response)
    ensures Plausible(up) && h.response.status == 200 ==> h.response.task.Some?
  {
    if v == Vercel && req.httpMethod == "OPTIONS" then Handled(NoContent, [])
    else if req.httpMethod != "POST" then Handled(ErrorResponse(405, MethodNotAllowedText, None), [])
    else if !ConfigComplete(env) then Handled(ErrorResponse(500, MissingEnvText, None), [])
    else
      match ReadBody(v, req.body)
      case Failure(e) => Handled(Crash(v, e), [])
      case Success(f) => Submit(v, env, f, DueDate(today), up)
  }

  /** A POST that passes both gates and carries a parsed body with a truthy description. */
  predicate Submitted(req: Request, env: Env) {
    && req.httpMethod == "POST"
    && ConfigComplete(env)
    && req.body.Parsed?
    && Truthy(req.body.fields.description)
  }

  /** The submitted description. */
  function Description(req: Request): string
    requires req.body.Parsed? && Truthy(req.body.fields.description)
  {
    req.body.fields.description.value
  }

  /** The section step raised an exception instead of replying. */
  predicate PlacementThrew(v: Variant, req: Request, env: Env, up: Upstream)
    requires req.body.Parsed?
  {
    Truthy(SectionTarget(v, env, req.body.fields.urgent)) && up.section.Thrown?
  }

  /** A submitted request's first call creates the task from its description. */
  lemma CreatesFirst(v: Variant, req: Request, env: Env, today: Today, up: Upstream)
    requires Submitted(req, env)
    ensures var h := Handle(v, req, env, today, up);
      h.trace != [] && h.trace[0] == CreateTask(env.token.value, NewTask(env, Description(req), DueDate(today)))
  {
  }

  /** After a successful creation, an invocation is the creation call followed by the enrichment steps. */
  lemma AfterCreation(v: Variant, req: Request, env: Env, today: Today, up: Upstream)
    requires Submitted(req, env) && up.create.Ok?
    ensures var h := Handle(v, req, env, today, up);
      var rest := Enrich(v, env.token.value, req.body.fields, SectionTarget(v, env, req.body.fields.urgent),
                         up.create.payload, up);
      && h.response == rest.response
      && h.trace == [CreateTask(env.token.value, NewTask(env, Description(req), DueDate(today)))] + rest.trace
      && forall i :: 1 <= i < |h.trace| ==> h.trace[i] == rest.trace[i - 1]
  {
  }

  /** The enrichment steps do not read `urgent`: it matters only through the section id chosen before them. */
  lemma EnrichIgnoresUrgent(v: Variant, bearer: string, f: Fields, target: Option<string>, task: TaskRecord,
                            up: Upstream, urgent: bool)
    ensures Enrich(v, bearer, f.(urgent := urgent), target, task, up) == Enrich(v, bearer, f, target, task, up)
  {
  }

  /** Every exception the task service calls raise carries a non-empty message. */
  predicate MessagesPresent(up: Upstream) {
    && (up.create.Thrown? ==> up.create.error.message != "")
    && (up.section.Thrown? ==> up.section.error.message != "")
    && (up.attach.Thrown? ==> up.attach.error.message != "")
  }

  /** Two responses that differ at most in their `message`. */
  predicate SameButMessage(a: Response, b: Response) {
    a.(message := None) == b.(message := None)
  }

  lemma EnrichVariantsAgree(bearer: string, f: Fields, target: Option<string>, task: TaskRecord, up: Upstream)
    requires MessagesPresent(up)
    ensures Enrich(Vercel, bearer, f, target, task, up).trace == Enrich(Netlify, bearer, f, target, task, up).trace
    ensures SameButMessage(Enrich(Vercel, bearer, f, target, task, up).response,
                           Enrich(Netlify, bearer, f, target, task, up).response)
  {
  }

  /** With `urgent` unset, both copies issue the same calls and answer the same, up to the success wording. */
  lemma SubmitVariantsAgree(env: Env, f: Fields, dueOn: string, up: Upstream)
    requires ConfigComplete(env) && !f.urgent && MessagesPresent(up)
    ensures Submit(Vercel, env, f, dueOn, up).trace == Submit(Netlify, env, f, dueOn, up).trace
    ensures SameButMessage(Submit(Vercel, env, f, dueOn, up).response, Submit(Netlify, env, f, dueOn, up).response)
  {
    if Truthy(f.description) && up.create.Ok? {
      var target := SectionTarget(Vercel, env, f.urgent);
      assert target == SectionTarget(Netlify, env, f.urgent);
      EnrichVariantsAgree(env.token.value, f, target, up.create.payload, up);
    }
  }
}
