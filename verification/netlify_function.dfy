/** The Netlify copy of the handler: POST only, and every task goes to the default section. */
module NetlifyFunction {
  import opened Wrappers
  import opened Dates
  import opened Submission
  import opened Pipeline
  import VercelApi

  /**
   * `handler(event)`. A preflight gets the same 405 as any other non-POST
   * method, and a placement call always targets the default section id.
   */
  function Handler(req: Request, env: Env, today: Today, up: Upstream): (h: Handled)
    ensures req.httpMethod != "POST" ==> h == Handled(ErrorResponse(405, MethodNotAllowedText, None), [])
    ensures WellOrdered(h.trace)
    ensures |h.trace| > 1 && h.trace[1].AddToSection? ==> Some(h.trace[1].sectionGid) == env.defaultSection
  {
    Handle(Netlify, req, env, today, up)
  }

  lemma MissingConfigRejected(req: Request, env: Env, today: Today, up: Upstream)
    requires req.httpMethod == "POST" && !ConfigComplete(env)
    ensures Handler(req, env, today, up) == Handled(ErrorResponse(500, MissingEnvText, None), [])
  {
  }

  /** An empty body is not `{}` here: parsing it throws, and the catch-all answers. */
  lemma BlankBodyCrashes(req: Request, env: Env, today: Today, up: Upstream)
    requires req.httpMethod == "POST" && ConfigComplete(env) && req.body.Blank?
    ensures Handler(req, env, today, up) ==
              Handled(ErrorResponse(500, InternalErrorText, Some("Unexpected end of JSON input")), [])
  {
  }

  lemma MissingDescriptionRejected(req: Request, env: Env, today: Today, up: Upstream)
    requires req.httpMethod == "POST" && ConfigComplete(env)
    requires req.body.Parsed? && !Truthy(req.body.fields.description)
    ensures Handler(req, env, today, up) == Handled(ErrorResponse(400, MissingDescriptionText, None), [])
  {
  }

  lemma CreateCallIssuedFirst(req: Request, env: Env, today: Today, up: Upstream)
    requires Submitted(req, env)
    ensures var h := Handler(req, env, today, up);
      && h.trace != []
      && h.trace[0].CreateTask?
      && h.trace[0].bearer == env.token.value
      && var t := h.trace[0].task;
      && t.name <= Description(req)
      && |t.name| == Min(TitleLimit, |Description(req)|)
      && t.notes == Description(req)
      && t.workspace == env.workspace.value
      && t.assignee == env.assignee.value
      && t.projects == [env.project.value]
      && t.dueOn == DueDate(today)
  {
    CreatesFirst(Netlify, req, env, today, up);
  }

  lemma CreateFailureShortCircuits(req: Request, env: Env, today: Today, up: Upstream)
    requires Submitted(req, env) && up.create.Fail?
    ensures var h := Handler(req, env, today, up);
      && h.response == ErrorResponse(up.create.status, CreateFailedText, Some(up.create.text))
      && |h.trace| == 1 && h.trace[0].CreateTask?
  {
  }

  /** The `urgent` field changes nothing: flipping it gives the same response and the same calls. */
  lemma UrgentIgnored(req: Request, env: Env, today: Today, up: Upstream)
    requires req.body.Parsed?
    ensures var flipped := req.(body := Parsed(req.body.fields.(urgent := !req.body.fields.urgent)));
      Handler(flipped, env, today, up) == Handler(req, env, today, up)
  {
    var f := req.body.fields;
    if req.httpMethod == "POST" && ConfigComplete(env) && Truthy(f.description) && up.create.Ok? {
      EnrichIgnoresUrgent(Netlify, env.token.value, f, env.defaultSection, up.create.payload, up, !f.urgent);
    }
  }

  /** After a creation, one placement call when the default id is truthy; none, and `sectionResult` `null`, otherwise. */
  lemma SectionPlacement(req: Request, env: Env, today: Today, up: Upstream)
    requires Submitted(req, env) && up.create.Ok?
    ensures var h := Handler(req, env, today, up);
      && (Truthy(env.defaultSection) ==>
            |h.trace| >= 2 && h.trace[1] == AddToSection(env.token.value, env.defaultSection.value, up.create.payload.gid))
      && (!Truthy(env.defaultSection) ==> forall i :: 0 <= i < |h.trace| ==> !h.trace[i].AddToSection?)
      && (!Truthy(env.defaultSection) && !IsCrash(h.response) ==> h.response.sectionResult == Some(NotPlaced))
  {
    AfterCreation(Netlify, req, env, today, up);
  }

  lemma SectionFailureRecorded(req: Request, env: Env, today: Today, up: Upstream)
    requires Submitted(req, env) && up.create.Ok? && up.section.Fail? && Truthy(env.defaultSection)
    ensures var h := Handler(req, env, today, up);
      && (Truthy(req.body.fields.imageBase64) ==> |h.trace| == 3 && h.trace[2].Attach?)
      && (!up.attach.Thrown? ==>
            h.response.task == Some(up.create.payload) &&
            h.response.sectionResult == Some(PlacementFailed(SectionFailedText, up.section.text)))
  {
    AfterCreation(Netlify, req, env, today, up);
  }

  lemma NoImageAnswered(req: Request, env: Env, today: Today, up: Upstream)
    requires Submitted(req, env) && up.create.Ok? && !PlacementThrew(Netlify, req, env, up)
    requires !Truthy(req.body.fields.imageBase64)
    ensures var h := Handler(req, env, today, up);
      && h.response.status == 200
      && h.response.message == Some(NoImageMessage)
      && h.response.error.None?
      && h.response.details.None?
      && h.response.task == Some(up.create.payload)
      && ReportsPlacement(h.response, env.defaultSection, up.section)
      && h.response.attachment.None?
      && forall i :: 0 <= i < |h.trace| ==> !h.trace[i].Attach?
  {
    AfterCreation(Netlify, req, env, today, up);
  }

  lemma ImageAttached(req: Request, env: Env, today: Today, up: Upstream)
    requires Submitted(req, env) && up.create.Ok? && !PlacementThrew(Netlify, req, env, up)
    requires Truthy(req.body.fields.imageBase64)
    ensures var h := Handler(req, env, today, up);
      var f := req.body.fields;
      var name := if Truthy(f.imageName) then f.imageName.value else "attachment.jpg";
      && h.trace != []
      && h.trace[|h.trace| - 1] == Attach(env.token.value, name, up.create.payload.gid, f.imageBase64.value)
      && (forall i :: 0 <= i < |h.trace| - 1 ==> !h.trace[i].Attach?)
      && (!up.attach.Thrown? ==>
            && h.response.task == Some(up.create.payload)
            && ReportsPlacement(h.response, env.defaultSection, up.section))
      && (up.attach.Fail? ==>
            && h.response.status == up.attach.status
            && h.response.error == Some(AttachFailedText)
            && h.response.message.None?
            && h.response.details == Some(up.attach.text)
            && h.response.attachment.None?)
      && (up.attach.Ok? ==>
            && h.response.status == 200
            && h.response.error.None?
            && h.response.details.None?
            && h.response.message == Some("Se ha credo la tarea y se ha subido la imagen correctamente")
            && h.response.attachment == Some(up.attach.payload))
  {
    AfterCreation(Netlify, req, env, today, up);
  }

  /**
   * An exception raised after the gates (by the body, the creation, the
   * placement or the upload) ends in a 500 whose details are its message, even an empty one.
   * The calls already issued stay in the trace.
   */
  lemma ExceptionsCaught(req: Request, env: Env, today: Today, up: Upstream, e: Exception)
    requires req.httpMethod == "POST" && ConfigComplete(env)
    requires
      || req.body == Unparseable(e)
      || (Submitted(req, env) && up.create == Thrown(e))
      || (Submitted(req, env) && up.create.Ok? && PlacementThrew(Netlify, req, env, up) && up.section == Thrown(e))
      || (Submitted(req, env) && up.create.Ok? && !PlacementThrew(Netlify, req, env, up)
          && Truthy(req.body.fields.imageBase64) && up.attach == Thrown(e))
    ensures var h := Handler(req, env, today, up);
      && h.response == ErrorResponse(500, InternalErrorText, Some(e.message))
      && (req.body.Unparseable? ==> h.trace == [])
      && (req.body.Parsed? && up.create.Thrown? ==> |h.trace| == 1 && h.trace[0].CreateTask?)
      && (req.body.Parsed? && up.create.Ok? && PlacementThrew(Netlify, req, env, up) ==>
            |h.trace| == 2 && h.trace[1].AddToSection?)
      && (req.body.Parsed? && up.create.Ok? && !PlacementThrew(Netlify, req, env, up)
          && Truthy(req.body.fields.imageBase64) && up.attach.Thrown? ==>
            |h.trace| == (if Truthy(env.defaultSection) then 3 else 2)
            && h.trace[|h.trace| - 1].Attach?)
  {
    if Submitted(req, env) && up.create.Ok? {
      AfterCreation(Netlify, req, env, today, up);
    }
  }

  /**
   * The two copies agree on a parsed, non-urgent POST whose exceptions all
   * carry a message: the same calls, and the same response up to the wording
   * of the success message.
   */
  lemma AgreesWithVercel(req: Request, env: Env, today: Today, up: Upstream)
    requires req.httpMethod == "POST" && req.body.Parsed? && !req.body.fields.urgent
    requires MessagesPresent(up)
    ensures var n := Handler(req, env, today, up);
      var w := VercelApi.Handler(req, env, today, up);
      n.trace == w.trace && SameButMessage(n.response, w.response)
  {
    if ConfigComplete(env) {
      SubmitVariantsAgree(env, req.body.fields, DueDate(today), up);
    }
  }
}
