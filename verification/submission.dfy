/**
 * The values the submission handlers see and produce: the environment
 * configuration, the parsed request body, the outcome of each outbound call to
 * the task service, the calls issued, and the JSON response record.
 */
module Submission {
  import opened Wrappers

  /** The two hosting envelopes that carry a copy of the pipeline. */
  datatype Variant = Vercel | Netlify

  /**
   * The process environment: access token, workspace, project and assignee ids
   * (required), and the default and urgent section ids (optional). An unset
   * variable is `None`.
   */
  datatype Env = Env(
    token: Option<string>,
    workspace: Option<string>,
    project: Option<string>,
    assignee: Option<string>,
    defaultSection: Option<string>,
    urgentSection: Option<string>)

  /** JavaScript truthiness of an optional string: present and non-empty. */
  predicate Truthy(o: Option<string>) {
    o.Some? && o.value != ""
  }

  /** All four required variables are truthy. */
  predicate ConfigComplete(env: Env) {
    Truthy(env.token) && Truthy(env.workspace) && Truthy(env.project) && Truthy(env.assignee)
  }

  /** A thrown JavaScript error: its `name` and its `message`. */
  datatype Exception = Exception(name: string, message: string)

  /** The fields destructured from the request body; `urgent` stands for its truthiness. */
  datatype Fields = Fields(
    description: Option<string>,
    imageBase64: Option<string>,
    imageName: Option<string>,
    urgent: bool)

  /** What `{}` destructures to. */
  const NoFields := Fields(None, None, None, false)

  /** The request body: empty text, a parsed object, or text whose parsing throws. */
  datatype RawBody = Blank | Parsed(fields: Fields) | Unparseable(error: Exception)

  datatype Request = Request(httpMethod: string, body: RawBody)

  /** A parsed JSON reply of the task service, kept opaque. */
  datatype Payload = Payload(json: string)

  /** The `data` object of a successful task creation, with the task's `gid`. */
  datatype TaskRecord = TaskRecord(gid: string, data: Payload)

  /**
   * The outcome of one outbound call: a 2xx reply with its parsed payload, a
   * non-2xx reply with its status and body text, or an exception (the request
   * rejected, or its reply could not be read).
   */
  datatype CallOutcome<T> = Ok(payload: T) | Fail(status: int, text: string) | Thrown(error: Exception)

  /** A failed outcome carries a non-2xx status, the case `res.ok` is false for. */
  predicate ClassifiedLikeResOk<T>(o: CallOutcome<T>) {
    o.Fail? ==> !(200 <= o.status <= 299)
  }

  /**
   * What the task service answers to each of the (at most three) calls of one
   * submission. A successful creation yields the reply's `data` (the task); a
   * successful placement its whole reply; a successful upload its `data`.
   */
  datatype Upstream = Upstream(
    create: CallOutcome<TaskRecord>,
    section: CallOutcome<Payload>,
    attach: CallOutcome<Payload>)

  /** Replies are classified the way `res.ok` classifies them. */
  predicate Plausible(up: Upstream) {
    ClassifiedLikeResOk(up.create) && ClassifiedLikeResOk(up.section) && ClassifiedLikeResOk(up.attach)
  }

  /** The `data` object sent to create a task. */
  datatype TaskPayload = TaskPayload(
    name: string,
    notes: string,
    workspace: string,
    assignee: string,
    projects: seq<string>,
    dueOn: string)

  /** An outbound call, each authenticated with `bearer` as its bearer token. */
  datatype Call =
    | CreateTask(bearer: string, task: TaskPayload)
    | AddToSection(bearer: string, sectionGid: string, taskGid: string)
    | Attach(bearer: string, fileName: string, parent: string, imageBase64: string)

  /** The `sectionResult` value: `null`, the service's reply, or the recorded failure. */
  datatype SectionResult =
    | NotPlaced
    | Placed(reply: Payload)
    | PlacementFailed(error: string, details: string)

  /**
   * The response: its status code and the keys of its JSON body, `None` where
   * the key is absent (a 204 has no body at all).
   */
  datatype Response = Response(
    status: int,
    error: Option<string>,
    message: Option<string>,
    details: Option<string>,
    task: Option<TaskRecord>,
    sectionResult: Option<SectionResult>,
    attachment: Option<Payload>)

  function ErrorResponse(status: int, error: string, details: Option<string>): Response {
    Response(status, Some(error), None, details, None, None, None)
  }

  const NoContent := Response(204, None, None, None, None, None, None)

  const MethodNotAllowedText := "Method not allowed"
  const MissingEnvText := "Missing Asana environment variables"
  const MissingDescriptionText := "Se requiere descripci\U{00F3}n"
  const CreateFailedText := "Error creando la tarea de Asana"
  const SectionFailedText := "Task created but error adding to section"
  const AttachFailedText := "Se ha creado la tarea pero ha ocurrido un error subiendo la imagen"
  const InternalErrorText := "Internal server error"
  const NoImageMessage := "Creada la tarea sin imagen"
  const DefaultTitle := "Nueva tarea desde formulario"
  const DefaultFileName := "attachment.jpg"
  const TitleLimit := 80

  /** The 200 message when the image was attached; the two copies word it differently. */
  function AttachedMessage(v: Variant): string {
    match v
    case Vercel => "Su incidencia ha sido reportada"
    case Netlify => "Se ha credo la tarea y se ha subido la imagen correctamente"
  }

  /** What `JSON.parse("")` throws. */
  const BlankBodyError := Exception("SyntaxError", "Unexpected end of JSON input")
}
