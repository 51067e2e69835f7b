/** The Vercel copy of the handler: answers the CORS preflight and honours `urgent`. */
module VercelApi {
  import opened Wrappers
  import opened Dates
  import opened Submission
  import opened Pipeline

  /**
   * `handler(req, res)`. A preflight is answered with an empty 204 before
   * anything else is looked at; a placement call goes to the urgent section id
   * exactly when the body is urgent, and to the default one otherwise.
   */
  function Handler(req: Request, env: Env, today: Today, up: Upstream): (h: Handled)
    ensures req.httpMethod == "OPTIONS" ==> h.response == NoContent && h.trace == []
    ensures WellOrdered(h.trace)
    ensures |h.trace| > 1 && h.trace[1].AddToSection? ==>
              req.body.Parsed? &&
              Some(h.trace[1].sectionGid) == (if req.body.fields.urgent then env.urgentSection else env.defaultSection)
  {
    Handle(Vercel, req, env, today, up)
  }

  lemma OtherMethodsRejected(req: Request, env: Env, today: Today, up: Upstream)
    requires req.httpMethod != "POST" && req.httpMethod != "OPTIONS"
    ensures Handler(req, env, today, up) == Handled(ErrorResponse(405, MethodNotAllowedText, None), [])
  {
  }

  lemma MissingConfigRejected(req: Request, env: Env, today: Today, up: Upstream)
    requires req.httpMethod == "POST" && !ConfigComplete(env)
    ensures Handler(req, env, today, up) == Handled(ErrorResponse(500, MissingEnvText, None), [])
  {
  }

  /** An empty body reads as `{}`, so it lands on the missing-description answer. */
  lemma MissingDescriptionRejected(req: Request, env: Env, today: Today, up: Upstream)
    requires req.httpMethod == "POST" && ConfigComplete(env)
    requires req.body.Blank? || (req.body.Parsed? && !Truthy(req.body.fields.description))
    ensures Handler(req, env, today, up) == Handled(ErrorResponse(400, MissingDescriptionText, None), [])
  {
  }

  lemma CreateCallIssuedFirst(req: Request, env: Env, today: Today, up: Upstream)
    requires Submitted(req, env)
    ensures var h := Handler(req, env, today, up);
      && h.trace != []
      && h.trace[0].CreateTask?
      && h.trace[0].bearer == env.token.value
      && var t := h.trace[0].task;
      && t.name <= Description(req)
      && |t.name| == Min(TitleLimit, |Description(req)|)
      && t.notes == Description(req)
      && t.workspace == env.workspace.value
      && t.assignee == env.assignee.value
      && t.projects == [env.project.value]
      && t.dueOn == DueDate(today)
  {
    CreatesFirst(Vercel, req, env, today, up);
  }

  lemma CreateFailureShortCircuits(req: Request, env: Env, today: Today, up: Upstream)
    requires Submitted(req, env) && up.create.Fail?
    ensures var h := Handler(req, env, today, up);
      && h.response == ErrorResponse(up.create.status, CreateFailedText, Some(up.create.text))
      && |h.trace| == 1 && h.trace[0].CreateTask?
  {
  }

  /**
   * After a successful creation, exactly one placement call follows when the
   * selected section id is truthy, none otherwise; with none, `sectionResult`
   * is `null`.
   */
  lemma SectionPlacement(req: Request, env: Env, today: Today, up: Upstream)
    requires Submitted(req, env) && up.create.Ok?
    ensures var h := Handler(req, env, today, up);
      var target := if req.body.fields.urgent then env.urgentSection else env.defaultSection;
      && (Truthy(target) ==> |h.trace| >= 2 && h.trace[1] == AddToSection(env.token.value, target.value, up.create.payload.gid))
      && (!Truthy(target) ==> forall i :: 0 <= i < |h.trace| ==> !h.trace[i].AddToSection?)
      && (!Truthy(target) && !IsCrash(h.response) ==> h.response.sectionResult == Some(NotPlaced))
  {
    AfterCreation(Vercel, req, env, today, up);
  }

  /** An urgent body with the urgent id unset is not placed anywhere, even if a default id is set. */
  lemma UrgentDoesNotFallBack(req: Request, env: Env, today: Today, up: Upstream)
    requires Submitted(req, env) && up.create.Ok?
    requires req.body.fields.urgent && !Truthy(env.urgentSection)
    ensures var h := Handler(req, env, today, up);
      forall i :: 0 <= i < |h.trace| ==> !h.trace[i].AddToSection?
  {
    AfterCreation(Vercel, req, env, today, up);
  }

  /** A non-2xx placement reply is recorded in `sectionResult`; the image step still runs. */
  lemma SectionFailureRecorded(req: Request, env: Env, today: Today, up: Upstream)
    requires Submitted(req, env) && up.create.Ok? && up.section.Fail?
    requires Truthy(if req.body.fields.urgent then env.urgentSection else env.defaultSection)
    ensures var h := Handler(req, env, today, up);
      && (Truthy(req.body.fields.imageBase64) ==> |h.trace| == 3 && h.trace[2].Attach?)
      && (!up.attach.Thrown? ==>
            h.response.task == Some(up.create.payload) &&
            h.response.sectionResult == Some(PlacementFailed(SectionFailedText, up.section.text)))
  {
    AfterCreation(Vercel, req, env, today, up);
  }

  lemma NoImageAnswered(req: Request, env: Env, today: Today, up: Upstream)
    requires Submitted(req, env) && up.create.Ok? && !PlacementThrew(Vercel, req, env, up)
    requires !Truthy(req.body.fields.imageBase64)
    ensures var h := Handler(req, env, today, up);
      && h.response.status == 200
      && h.response.message == Some(NoImageMessage)
      && h.response.error.None?
      && h.response.details.None?
      && h.response.task == Some(up.create.payload)
      && ReportsPlacement(h.response,
                          if req.body.fields.urgent then env.urgentSection else env.defaultSection, up.section)
      && h.response.attachment.None?
      && forall i :: 0 <= i < |h.trace| ==> !h.trace[i].Attach?
  {
    AfterCreation(Vercel, req, env, today, up);
  }

  /**
   * With an image, one attachment call closes the trace, about the created
   * task and named after `imageName` or `attachment.jpg`. A non-2xx reply
   * passes its status on but keeps the task and section result; a 2xx reply
   * gives 200 with the attachment.
   */
  lemma ImageAttached(req: Request, env: Env, today: Today, up: Upstream)
    requires Submitted(req, env) && up.create.Ok? && !PlacementThrew(Vercel, req, env, up)
    requires Truthy(req.body.fields.imageBase64)
    ensures var h := Handler(req, env, today, up);
      var f := req.body.fields;
      var name := if Truthy(f.imageName) then f.imageName.value else "attachment.jpg";
      && h.trace != []
      && h.trace[|h.trace| - 1] == Attach(env.token.value, name, up.create.payload.gid, f.imageBase64.value)
      && (forall i :: 0 <= i < |h.trace| - 1 ==> !h.trace[i].Attach?)
      && (!up.attach.Thrown? ==>
            && h.response.task == Some(up.create.payload)
            && ReportsPlacement(h.response,
                                if req.body.fields.urgent then env.urgentSection else env.defaultSection, up.section))
      && (up.attach.Fail? ==>
            && h.response.status == up.attach.status
            && h.response.error == Some(AttachFailedText)
            && h.response.message.None?
            && h.response.details == Some(up.attach.text)
            && h.response.attachment.None?)
      && (up.attach.Ok? ==>
            && h.response.status == 200
            && h.response.error.None?
            && h.response.details.None?
            && h.response.message == Some("Su incidencia ha sido reportada")
            && h.response.attachment == Some(up.attach.payload))
  {
    AfterCreation(Vercel, req, env, today, up);
  }

  /**
   * An exception raised after the gates (by the body, the creation, the
   * placement or the upload) ends in a 500 whose details are its message, or the error name when the message is empty.
   * The calls already issued stay in the trace.
   */
  lemma ExceptionsCaught(req: Request, env: Env, today: Today, up: Upstream, e: Exception)
    requires req.httpMethod == "POST" && ConfigComplete(env)
    requires
      || req.body == Unparseable(e)
      || (Submitted(req, env) && up.create == Thrown(e))
      || (Submitted(req, env) && up.create.Ok? && PlacementThrew(Vercel, req, env, up) && up.section == Thrown(e))
      || (Submitted(req, env) && up.create.Ok? && !PlacementThrew(Vercel, req, env, up)
          && Truthy(req.body.fields.imageBase64) && up.attach == Thrown(e))
    ensures var h := Handler(req, env, today, up);
      && h.response == ErrorResponse(500, InternalErrorText, Some(if e.message != "" then e.message else e.name))
      && (req.body.Unparseable? ==> h.trace == [])
      && (req.body.Parsed? && up.create.Thrown? ==> |h.trace| == 1 && h.trace[0].CreateTask?)
      && (req.body.Parsed? && up.create.Ok? && PlacementThrew(Vercel, req, env, up) ==>
            |h.trace| == 2 && h.trace[1].AddToSection?)
      && (req.body.Parsed? && up.create.Ok? && !PlacementThrew(Vercel, req, env, up)
          && Truthy(req.body.fields.imageBase64) && up.attach.Thrown? ==>
            |h.trace| == (if Truthy(SectionTarget(Vercel, env, req.body.fields.urgent)) then 3 else 2)
            && h.trace[|h.trace| - 1].Attach?)
  {
    if Submitted(req, env) && up.create.Ok? {
      AfterCreation(Vercel, req, env, today, up);
    }
  }
}
