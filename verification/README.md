# Incident submission pipeline — a Dafny model

The repository relays an incident report (a free-text description, an optional
base64 image and an `urgent` flag) to the Asana task service through two
near-identical serverless handlers: `api/createTask.js` (Vercel) and
`netlify/functions/createTask.js` (Netlify). Each handler checks the HTTP
method and the environment configuration, reads the body, requires a
description, creates a task (title = first 80 characters, notes = the whole
description, due date = today as `YYYY-MM-DD`), then on a best-effort basis
moves it into a section and attaches the image. Only a failed creation stops
the pipeline; a failed placement or upload is reported next to the task that
was already created.

This project models that decision procedure as one pure function,
`Pipeline.Handle`, parameterised by the hosting variant, with the two handlers
as thin adapters (`VercelApi.Handler`, `NetlifyFunction.Handler`). Nothing is
sent anywhere: each outbound call is an input outcome,
`Ok(payload) | Fail(status, text) | Thrown(exception)`, and the function returns
the response record together with the trace of calls it issued
(`CreateTask`, `AddToSection`, `Attach`, each with its bearer token). The clock
is an input too (`Dates.Today`), and the due-date formatter is modelled down to
the digits, with a parser as its partner and round-trip lemmas.

Files:
- `wrappers.dfy` — `Option`, `Result`.
- `dates.dfy` — `String(n)`, `padStart`, the due-date string and its inverse.
- `submission.dfy` — environment, body fields, call outcomes, calls, responses, the fixed texts.
- `pipeline.dfy` — the shared pipeline (with `Min` for the title cut) and the invariants every invocation keeps.
- `vercel_api.dfy`, `netlify_function.dfy` — the two handlers and their per-path properties.

On these points the model follows the code:
- An urgent request selects the urgent section id even when it is unset, and then
  skips placement; it does not fall back to the default section (`VercelApi.UrgentDoesNotFallBack`).
- The default-title fallback exists in the code but can never be used, since the
  description is already known to be non-empty (`Pipeline.Title`).
- An exception raised by the placement or upload call (as opposed to a non-2xx reply)
  is not best-effort: it reaches the catch-all and yields a 500 without the task.
- An empty body reads as `{}` in the Vercel copy (so a 400), but makes `JSON.parse`
  throw in the Netlify copy (so a 500).

## Model

| member | source | states |
|---|---|---|
| Pipeline.Handle | api/createTask.js:22-169 | On every path: calls come as create, then at most one placement, then at most one attachment (last); calls happen only after a POST passed the configuration gate; every call carries the configured token; later calls are about the gid the creation returned; a task is reported only if it was created, and once created it is reported unless an exception ended the run; when every failed reply has a non-2xx status, a 200 always carries a task |
| Pipeline.Submit | api/createTask.js:51-162 | Same trace order, token and task-id guarantees from the description check on |
| Pipeline.Enrich | api/createTask.js:95-162 | After creation: at most a placement then an attachment, both about the created task; the task stays in the response unless an exception was raised, and so does `sectionResult` as the placement left it (null, the 2xx reply, or the recorded failure) |
| Pipeline.Finish | api/createTask.js:119-162 | Without an image: 200 and no call; with one: exactly one Attach(file name, task gid, image); unless an exception ends the run, the task and section result are in the response |
| Pipeline.EnrichIgnoresUrgent | netlify/functions/createTask.js:88-174 | The steps after creation do not read `urgent` |
| Pipeline.Place | api/createTask.js:95-117 | No call and `sectionResult` null exactly when the section id is falsy; otherwise one AddToSection(section, task), whose 2xx reply becomes `sectionResult` as is, whose non-2xx reply becomes the recorded failure with its text, and whose exception is raised |
| Pipeline.Title | api/createTask.js:65 | For a non-empty description the name is its prefix of length min(80, length), equal to it when it is at most 80 long; the default title only for an empty one |
| Pipeline.FileName | api/createTask.js:134 | The upload is named `imageName` when truthy, else `attachment.jpg` |
| Pipeline.ReadBody | api/createTask.js:7-12 | A parsed body is passed through and a parse error is raised; an empty body is `{}` for Vercel and the `JSON.parse` syntax error for Netlify |
| Pipeline.CrashDetails | api/createTask.js:163-168 | The catch-all details are the error message when it is non-empty; Netlify uses the message even when empty, Vercel falls back to the error name |
| Pipeline.EnrichVariantsAgree | netlify/functions/createTask.js:88-174 | Given a common section id and exceptions that all carry a non-empty message, both copies' enrichment steps issue the same calls and answer the same up to the success wording |
| Pipeline.SubmitVariantsAgree | netlify/functions/createTask.js:34-174 | For a non-urgent body and exceptions that all carry a non-empty message, both copies issue the same calls and answer the same up to the success wording |
| VercelApi.Handler | api/createTask.js:22-28 | A preflight OPTIONS gets an empty 204 and no calls, whatever the configuration; an AddToSection goes to the urgent id exactly when the body is urgent |
| VercelApi.OtherMethodsRejected | api/createTask.js:30-32 | Any method other than POST and OPTIONS: 405 "Method not allowed", no calls |
| VercelApi.MissingConfigRejected | api/createTask.js:34-43 | A falsy token, workspace, project or assignee: 500 "Missing Asana environment variables", no calls |
| VercelApi.MissingDescriptionRejected | api/createTask.js:46-53 | An empty body or a falsy description: 400, no calls |
| VercelApi.CreateCallIssuedFirst | api/createTask.js:55-81 | The first call (built by `Pipeline.NewTask`) creates the task with the token, a name that is the description's first min(80, length) characters, the full description as notes, the configured workspace, assignee and project, and today's date (`Dates.DueDate`) |
| VercelApi.CreateFailureShortCircuits | api/createTask.js:83-89 | A non-2xx creation reply: its status and text are passed on and no other call is made |
| VercelApi.SectionPlacement | api/createTask.js:96-109 | After creation, AddToSection(selected id, task gid) is the second call exactly when the selected id is truthy; otherwise there is none and `sectionResult` is null |
| VercelApi.UrgentDoesNotFallBack | api/createTask.js:49 | An urgent body with the urgent id unset is placed nowhere, even with a default id configured |
| VercelApi.SectionFailureRecorded | api/createTask.js:111-117 | A non-2xx placement reply is recorded in `sectionResult` with its text; the task is kept and the image step still runs |
| VercelApi.NoImageAnswered | api/createTask.js:119-126 | Without an image: 200 "Creada la tarea sin imagen" with no error or details, the task, `sectionResult` as the placement left it (null, the 2xx reply, or the recorded failure), and no attachment call |
| VercelApi.ImageAttached | api/createTask.js:128-162 | With an image: one Attach(imageName or `attachment.jpg`, task gid, image) ends the trace; unless the upload throws, the task and `sectionResult` as the placement left it are kept; a non-2xx reply passes its status and text on with no message; a 2xx reply gives 200 with the message and attachment and no error or details |
| VercelApi.ExceptionsCaught | api/createTask.js:163-168 | An exception from the body, the creation, the placement or the upload: 500 "Internal server error" with the message, or the error name when the message is empty; the calls issued before it (0, 1, 2, or 2 to 3 with the upload last) stay in the trace |
| NetlifyFunction.Handler | netlify/functions/createTask.js:6-12 | Every non-POST method, OPTIONS included: 405 and no calls; an AddToSection always goes to the default id |
| NetlifyFunction.MissingConfigRejected | netlify/functions/createTask.js:14-32 | A falsy token, workspace, project or assignee: 500, no calls |
| NetlifyFunction.BlankBodyCrashes | netlify/functions/createTask.js:34-36 | An empty body makes parsing throw: 500 with the parser's message, no calls |
| NetlifyFunction.MissingDescriptionRejected | netlify/functions/createTask.js:38-43 | A falsy description: 400, no calls |
| NetlifyFunction.CreateCallIssuedFirst | netlify/functions/createTask.js:45-71 | The first call (built by `Pipeline.NewTask`) creates the task with the first min(80, length) characters of the description as name, the full description as notes, the configured ids and today's date (`Dates.DueDate`) |
| NetlifyFunction.CreateFailureShortCircuits | netlify/functions/createTask.js:73-82 | A non-2xx creation reply: its status and text are passed on, nothing else is called |
| NetlifyFunction.UrgentIgnored | netlify/functions/createTask.js:36 | Flipping `urgent` changes neither the response nor the calls |
| NetlifyFunction.SectionPlacement | netlify/functions/createTask.js:88-108 | After creation, AddToSection(default id, task gid) is the second call exactly when the default id is truthy; otherwise none and `sectionResult` is null |
| NetlifyFunction.SectionFailureRecorded | netlify/functions/createTask.js:109-118 | A non-2xx placement reply is recorded in `sectionResult`; the task is kept and the image step still runs |
| NetlifyFunction.NoImageAnswered | netlify/functions/createTask.js:120-130 | Without an image: 200 with the message and no error or details, the task, `sectionResult` as the placement left it (null, the 2xx reply, or the recorded failure), and no attachment call |
| NetlifyFunction.ImageAttached | netlify/functions/createTask.js:132-174 | With an image: one Attach(imageName or `attachment.jpg`, task gid, image) ends the trace; unless the upload throws, the task and `sectionResult` as the placement left it are kept; a non-2xx reply passes its status and text on with no message; a 2xx reply gives 200 with the message and attachment and no error or details |
| NetlifyFunction.ExceptionsCaught | netlify/functions/createTask.js:175-184 | An exception from the body, the creation, the placement or the upload: 500 with the error's message as details, even when empty; the calls issued before it (0, 1, 2, or 2 to 3 with the upload last) stay in the trace |
| NetlifyFunction.AgreesWithVercel | netlify/functions/createTask.js:34-174 | On a parsed, non-urgent POST where every exception raised by a call carries a non-empty message, the two handlers issue the same calls and give the same response up to the success wording (with an empty message the catch-all details differ) |
| Dates.Decimal | api/createTask.js:57-59 | `String(n)` is a non-empty string of digits, starting with 0 only for 0 |
| Dates.DecimalRoundTrip | api/createTask.js:57-59 | Reading back the digits of `String(n)` gives n |
| Dates.DecimalLength | api/createTask.js:57 | A number with k significant digits is written with k characters |
| Dates.IntStringRoundTrip | api/createTask.js:57 | The year string (`Dates.IntString`, `String(year)`) reads back as the year, sign included |
| Dates.PadStart | api/createTask.js:58-59 | `padStart` keeps the string as a suffix, fills only the front, and reaches the width |
| Dates.TwoDigitsRoundTrip | api/createTask.js:58-59 | Below 100 the padded month or day is exactly two digits and reads back as the number |
| Dates.FourDigitYear | api/createTask.js:57 | A year from 1000 to 9999 is written as four digits |
| Dates.FormatDateRoundTrip | api/createTask.js:57-60 | The due date `Dates.FormatDate` builds ends in `-MM-DD`, and parsing it gives back year, month and day |
| Dates.DueDateIsIso | netlify/functions/createTask.js:46-50 | For a four-digit year and a clock reading, the due date `Dates.DueDate` is the ten-character `YYYY-MM-DD` naming that day |

## Left out

- The HTTP calls to the task service, their URLs, headers and JSON bodies: each call is an outcome given as input, and the trace records its arguments only.
- Body reading and JSON parsing (`readJson`, `JSON.parse`): the body is given already parsed, unparseable, or empty. A Netlify event whose body is absent (`null`, which parses and then fails to destructure with a different message) is not distinguished from an empty one.
- Body fields of other JSON types (a numeric `description`, say): fields are optional strings and `urgent` stands for its truthiness.
- A 2xx creation reply without a `data` object or `gid`: the model's successful reply always carries a task with a gid.
- `Buffer.from(…, "base64")`, `FormData`, `Blob` and the fixed `image/jpeg` type: the attachment call records the base64 text, the file name and the parent id only.
- The wall clock: the calendar fields are inputs.
- `setCors` headers and `console.error` logging.
- Node's rejection of a status code outside the valid range in `res.status(…)`.
- `slice(0, 80)` counts UTF-16 code units; the model counts Dafny characters, so a surrogate pair cut at the 80th unit is not modelled.
- src/components/Formulario.jsx and src/App.jsx (form state, image reading and encoding, rendering): not part of this model, and with them the image encode/decode round trip.
